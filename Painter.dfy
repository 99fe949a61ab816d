/**
 * The daily commit-quota painter: the program that generator.py writes to
 * tools/heatmap_painter.py. On every scheduled run it works out how many
 * commits today's pixel asks for, compares that with the commits already in
 * the git log today and with the records already in today's data file, and
 * either does nothing, aborts, or appends exactly the missing records.
 *
 * The clock, the git log query, the `git add` call and the random payload
 * are inputs; the day file is an in-memory sequence of lines.
 */
module Painter {
  import opened Wrappers
  import opened Text
  import opened Json

  /** What the painter reads from pattern.json. */
  datatype PatternFile = PatternFile(
    startDate: Option<int>,     // None when "start_date" is not an ISO date
    mode: string,               // "" when "mode" is absent or null
    pattern: seq<seq<Cell>>,    // [] when "pattern" is absent or null
    dailyGoal: int)             // 0 when "daily_commit_count" is absent or null

  datatype Mode = PatternMode | DailyMode

  /** `(mode or "pattern").lower()`, anything but "daily" meaning pattern mode. */
  function ModeOf(raw: string): (m: Mode)
    ensures m == DailyMode <==> AsciiLower(raw) == "daily"
  {
    var lowered := AsciiLower(if raw == "" then "pattern" else raw);
    if lowered == "daily" then DailyMode else PatternMode
  }

  /** How a run ends; the painter's exit status is `ExitCode()`. */
  datatype Outcome =
    | MissingPatternFile | BadStartDate | NotStarted
    | DailyGoalUnset | TooFewRows | RaggedRows | ZeroWidth | Finished
    | LedgerUnavailable | Overshoot | ZeroPixel | CommitsMet
    | FileOverfull | FileMet | Written(count: nat) | StageFailed
  {
    function ExitCode(): int {
      match this
      case NotStarted | ZeroWidth | Finished | ZeroPixel | CommitsMet | FileMet | Written(_) => 0
      case _ => 1
    }
  }

  /** Today's quota, or the reason the run stops before looking at the ledger. */
  datatype Target = Halt(outcome: Outcome) | Goal(need: int)

  /** At least seven rows, the first seven of equal length. */
  predicate WellShaped(p: seq<seq<Cell>>) {
    |p| >= 7 && forall r :: 0 <= r < 7 ==> |p[r]| == |p[0]|
  }

  /** The date mapping and configuration checks of the painter's main. */
  function ResolveTarget(file: PatternFile, today: int): (t: Target)
    ensures t.Halt? ==> t.outcome in {BadStartDate, NotStarted, DailyGoalUnset, TooFewRows, RaggedRows, ZeroWidth, Finished}
    ensures t.Goal? ==> file.startDate.Some? && file.startDate.value <= today
    ensures t == Halt(BadStartDate) <==> file.startDate.None?
    ensures t == Halt(NotStarted) <==> file.startDate.Some? && today < file.startDate.value
  {
    match file.startDate
    case None => Halt(BadStartDate)
    case Some(start) =>
      var delta := today - start;
      if delta < 0 then Halt(NotStarted)
      else if ModeOf(file.mode) == DailyMode then
        var need := if file.dailyGoal < 0 then 0 else file.dailyGoal;
        if need <= 0 then Halt(DailyGoalUnset) else Goal(need)
      else if |file.pattern| < 7 then Halt(TooFewRows)
      else if exists r :: 0 <= r < 7 && |file.pattern[r]| != |file.pattern[0]| then Halt(RaggedRows)
      else
        var cols := |file.pattern[0]|;
        if cols == 0 then Halt(ZeroWidth)
        else
          var col, row := delta / 7, delta % 7;
          if col >= cols then Halt(Finished)
          else Goal(ToInt(file.pattern[row][col]))
  }

  /** What the run does once today's quota is known. */
  datatype Action = Stop(outcome: Outcome) | Append(existing: nat, need: nat)

  /**
   * The reconciliation chain: the ledger first (unavailable, overshoot,
   * zero quota, already met), then the day file (over-full, already full),
   * and otherwise append the records numbered existing+1 .. need.
   */
  function Reconcile(need: int, commitsToday: Option<nat>, existing: nat): (a: Action)
    ensures a.Append? <==> commitsToday.Some? && commitsToday.value < need && existing < need
    ensures a.Append? ==> a.existing == existing && a.need == need
    ensures a.Stop? ==> a.outcome in {LedgerUnavailable, Overshoot, ZeroPixel, CommitsMet, FileOverfull, FileMet}
    ensures a == Stop(LedgerUnavailable) <==> commitsToday.None?
    ensures a == Stop(Overshoot) <==> commitsToday.Some? && commitsToday.value > need
    ensures a == Stop(ZeroPixel) <==> commitsToday.Some? && commitsToday.value <= need <= 0
    ensures a == Stop(CommitsMet) <==> commitsToday.Some? && 0 < commitsToday.value == need
    ensures a == Stop(FileOverfull) <==> commitsToday.Some? && commitsToday.value < need < existing
    ensures a == Stop(FileMet) <==> commitsToday.Some? && commitsToday.value < need == existing
  {
    match commitsToday
    case None => Stop(LedgerUnavailable)
    case Some(commits) =>
      if commits > need then Stop(Overshoot)
      else if need <= 0 then Stop(ZeroPixel)
      else if commits == need then Stop(CommitsMet)
      else if existing > need then Stop(FileOverfull)
      else if existing == need then Stop(FileMet)
      else Append(existing, need)
  }

  /** The whole decision of one run, given the ledger count and the file's line count. */
  function Decide(file: Option<PatternFile>, today: int, commitsToday: Option<nat>, existing: nat): (a: Action)
    ensures a.Append? ==> a.existing == existing < a.need
    ensures a.Append? ==> commitsToday.Some? && commitsToday.value < a.need
    ensures a == Stop(MissingPatternFile) <==> file.None?
    ensures file.Some? && file.value.startDate.None? ==> a == Stop(BadStartDate)
    ensures file.Some? && ResolveTarget(file.value, today).Halt? ==> a == Stop(ResolveTarget(file.value, today).outcome)
    ensures file.Some? && ResolveTarget(file.value, today).Goal? ==>
      var need := ResolveTarget(file.value, today).need;
      && (a.Append? <==> commitsToday.Some? && commitsToday.value < need && existing < need)
      && (a.Append? ==> a == Append(existing, need))
  {
    match file
    case None => Stop(MissingPatternFile)
    case Some(f) =>
      match ResolveTarget(f, today)
      case Halt(o) => Stop(o)
      case Goal(need) => Reconcile(need, commitsToday, existing)
  }

  // ---------------------------------------------------------------------
  // The ledger: `git log --since=<today 00:00Z> --pretty=%H [--author=…]`

  /** The result of running git: not installed, or its exit code and output lines. */
  datatype GitLog = GitNotFound | LogRan(returnCode: int, stdoutLines: seq<string>)

  /** The number of lines that are not blank, counted from the end. */
  function CountNonBlank(lines: seq<string>): (n: nat)
    ensures n <= |lines|
  {
    if lines == [] then 0
    else CountNonBlank(lines[..|lines| - 1]) + (if IsBlank(lines[|lines| - 1]) then 0 else 1)
  }

  /** The positions of the non-blank lines: an independent reading of the count. */
  ghost function NonBlankPositions(lines: seq<string>): set<nat> {
    set i: nat | i < |lines| && !IsBlank(lines[i])
  }

  lemma {:induction false} CountNonBlankCountsPositions(lines: seq<string>)
    ensures CountNonBlank(lines) == |NonBlankPositions(lines)|
  {
    if lines != [] {
      var init := lines[..|lines| - 1];
      var last := |lines| - 1;
      CountNonBlankCountsPositions(init);
      var head := NonBlankPositions(init);
      if IsBlank(lines[last]) {
        assert NonBlankPositions(lines) == head;
      } else {
        assert NonBlankPositions(lines) == head + {last};
        assert last !in head;
      }
    }
  }

  /** `_count_commits_today`: unavailable (None) on any failure, never zero in its place. */
  function CountCommitsToday(log: GitLog): (r: Option<nat>)
    ensures r.None? <==> (log.GitNotFound? || log.returnCode != 0)
    ensures r.Some? ==> r.value == |NonBlankPositions(log.stdoutLines)|
  {
    match log
    case GitNotFound => None
    case LogRan(code, lines) =>
      if code != 0 then None
      else
        CountNonBlankCountsPositions(lines);
        Some(CountNonBlank(lines))
  }

  // ---------------------------------------------------------------------
  // The day file `<data_dir>/<YYYY-MM-DD>.txt`

  /** A line of the day file: one the painter wrote, or any other text. */
  datatype Line = Record(stamp: string, index: int, need: int, token: string) | Foreign(text: string)

  /**
   * The records numbered lo+1 .. hi, each tagged with `need`; the timestamp
   * and the random token of record i are `stamp(i)` and `token(i)`.
   */
  function Records(lo: nat, hi: nat, need: int, stamp: int -> string, token: int -> string): (rs: seq<Line>)
    requires lo <= hi
  {
    seq(hi - lo, i requires 0 <= i < hi - lo => Record(stamp(lo + 1 + i), lo + 1 + i, need, token(lo + 1 + i)))
  }

  /** Appending records lo+1 .. mid and then mid+1 .. hi appends lo+1 .. hi. */
  lemma RecordsSplit(lo: nat, mid: nat, hi: nat, need: int, stamp: int -> string, token: int -> string)
    requires lo <= mid <= hi
    ensures Records(lo, mid, need, stamp, token) + Records(mid, hi, need, stamp, token)
         == Records(lo, hi, need, stamp, token)
  {
  }

  class DayFile {
    var lines: seq<Line>

    constructor (initial: seq<Line>)
      ensures lines == initial
    {
      lines := initial;
    }

    /** `existing = sum(1 for _ in handle)`. */
    method CountLines() returns (n: nat)
      ensures n == |lines|
    {
      n := 0;
      var k := 0;
      while k < |lines|
        invariant k <= |lines|
        invariant n == k
      {
        n := n + 1;
        k := k + 1;
      }
    }

    /** The append loop: one record per index existing+1 .. need. */
    method AppendRecords(existing: nat, need: nat, stamp: int -> string, token: int -> string)
      requires existing <= need
      modifies this
      ensures lines == old(lines) + Records(existing, need, need, stamp, token)
    {
      for idx := existing + 1 to need + 1
        invariant lines == old(lines) + Records(existing, idx - 1, need, stamp, token)
      {
        RecordsSplit(existing, idx - 1, idx, need, stamp, token);
        lines := lines + [Record(stamp(idx), idx, need, token(idx))];
      }
    }
  }

  /** The outcome a run reports for a decision, given whether `git add` succeeded. */
  function Report(a: Action, staged: bool): Outcome
    requires a.Append? ==> a.existing <= a.need
  {
    match a
    case Stop(o) => o
    case Append(existing, need) => if staged then Written(need - existing) else StageFailed
  }

  /**
   * One run of the painter. The day file only ever grows, by exactly the
   * records Decide asks for; every other path leaves it untouched.
   */
  method Paint(file: Option<PatternFile>, today: int, log: GitLog, day: DayFile,
               stamp: int -> string, token: int -> string, staged: bool)
    returns (outcome: Outcome)
    modifies day
    ensures var a := Decide(file, today, CountCommitsToday(log), |old(day.lines)|);
      && outcome == Report(a, staged)
      && day.lines == (if a.Append? then old(day.lines) + Records(a.existing, a.need, a.need, stamp, token)
                       else old(day.lines))
  {
    var commits := CountCommitsToday(log);
    var existing := day.CountLines();
    var action := Decide(file, today, commits, existing);
    match action {
      case Stop(o) =>
        outcome := o;
      case Append(from, need) =>
        day.AppendRecords(from, need, stamp, token);
        outcome := if staged then Written(need - from) else StageFailed;
    }
  }

  // ---------------------------------------------------------------------
  // Properties of the decision procedure

  /** Before the start date the run succeeds without doing anything. */
  lemma BeforeStartDoesNothing(f: PatternFile, today: int, commits: Option<nat>, existing: nat)
    requires f.startDate.Some? && today < f.startDate.value
    ensures Decide(Some(f), today, commits, existing) == Stop(NotStarted)
    ensures NotStarted.ExitCode() == 0
  {
  }

  /** Pattern mode: day start + 7*col + row is governed by pattern[row][col]. */
  lemma {:induction false} CellGovernsDay(f: PatternFile, row: nat, col: nat)
    requires f.startDate.Some? && ModeOf(f.mode) == PatternMode && WellShaped(f.pattern)
    requires row < 7 && col < |f.pattern[0]|
    ensures ResolveTarget(f, f.startDate.value + 7 * col + row) == Goal(ToInt(f.pattern[row][col]))
  {
    var delta := 7 * col + row;
    assert delta / 7 == col && delta % 7 == row;
    assert f.startDate.value + 7 * col + row - f.startDate.value == delta;
  }

  /** Pattern mode: from the day after the last column on, the pattern is finished. */
  lemma {:induction false} PastLastColumnFinished(f: PatternFile, today: int)
    requires f.startDate.Some? && ModeOf(f.mode) == PatternMode && WellShaped(f.pattern)
    requires |f.pattern[0]| > 0 && today >= f.startDate.value + 7 * |f.pattern[0]|
    ensures ResolveTarget(f, today) == Halt(Finished)
  {
    var delta := today - f.startDate.value;
    assert delta / 7 >= |f.pattern[0]| by {
      assert delta >= 7 * |f.pattern[0]|;
    }
  }

  /** Pattern mode: a zero-width pattern ends the run successfully, before any division. */
  lemma ZeroWidthIsDone(f: PatternFile, today: int)
    requires f.startDate.Some? && today >= f.startDate.value
    requires ModeOf(f.mode) == PatternMode && WellShaped(f.pattern) && |f.pattern[0]| == 0
    ensures ResolveTarget(f, today) == Halt(ZeroWidth) && ZeroWidth.ExitCode() == 0
  {
  }

  /** Daily mode never finishes: every day from the start asks for the goal. */
  lemma DailyGoalEveryDay(f: PatternFile, today: int)
    requires f.startDate.Some? && today >= f.startDate.value
    requires ModeOf(f.mode) == DailyMode && f.dailyGoal > 0
    ensures ResolveTarget(f, today) == Goal(f.dailyGoal)
  {
  }

  /** A malformed configuration aborts with status 1 whatever the ledger and the file say. */
  lemma MalformedAbortsBeforeWriting(f: PatternFile, today: int, commits: Option<nat>, existing: nat)
    requires f.startDate.Some? && today >= f.startDate.value
    requires if ModeOf(f.mode) == DailyMode then f.dailyGoal <= 0 else !WellShaped(f.pattern)
    ensures var a := Decide(Some(f), today, commits, existing);
      a.Stop? && a.outcome.ExitCode() == 1
  {
  }

  /**
   * An unreadable ledger never leads to a write; once a quota is known it
   * aborts the run with status 1.
   */
  lemma NoLedgerNoWrite(file: Option<PatternFile>, today: int, existing: nat)
    ensures !Decide(file, today, None, existing).Append?
    ensures file.Some? && ResolveTarget(file.value, today).Goal? ==>
      Decide(file, today, None, existing) == Stop(LedgerUnavailable)
      && LedgerUnavailable.ExitCode() == 1
  {
  }

  /**
   * More commits today than the quota aborts with status 1, whatever the
   * file holds; this is checked before the zero-quota no-op, so a zero cell
   * with a commit already made aborts too.
   */
  lemma OvershootAborts(need: int, commits: nat, existing: nat)
    requires commits > need
    ensures Reconcile(need, Some(commits), existing) == Stop(Overshoot)
    ensures Overshoot.ExitCode() == 1
  {
  }

  /** Safety: a write never leaves more than `need` lines in the file, and leaves exactly `need`. */
  lemma WriteReachesTargetExactly(file: Option<PatternFile>, today: int, commits: Option<nat>,
                                  before: seq<Line>, stamp: int -> string, token: int -> string)
    requires Decide(file, today, commits, |before|).Append?
    ensures var a := Decide(file, today, commits, |before|);
      && |before + Records(a.existing, a.need, a.need, stamp, token)| == a.need
      && forall i :: |before| <= i < a.need ==>
           (before + Records(a.existing, a.need, a.need, stamp, token))[i] == Record(stamp(i + 1), i + 1, a.need, token(i + 1))
  {
  }

  /**
   * Idempotence: after a write, a second run with no commit in between
   * finds the file full and does nothing.
   */
  lemma {:induction false} SecondRunIsNoOp(file: Option<PatternFile>, today: int, commits: Option<nat>, existing: nat)
    requires Decide(file, today, commits, existing).Append?
    ensures var a := Decide(file, today, commits, existing);
      Decide(file, today, commits, a.need) == Stop(FileMet)
  {
    var f := file.value;
    var need := ResolveTarget(f, today).need;
    assert Reconcile(need, commits, existing).Append?;
  }
}
