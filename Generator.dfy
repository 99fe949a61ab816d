/**
 * generator.py: the validation `save_all` applies before writing
 * pattern.json, the start-date rule and the daily-mode matrix builder.
 * The files themselves are not written here; `SaveAll` returns the record
 * that would go into pattern.json.
 */
module Generator {
  import opened Wrappers
  import Calendar
  import Json
  import Painter
  import Text

  /** The configuration entries save_all reads (defaults already applied by the caller). */
  datatype Config = Config(mode: string, weeks: int, dailyCommitCount: int, startFromNextSunday: bool)

  datatype SaveError = RepoMissing | PatternRequired | NotSevenByN | DailyCountNotPositive

  /** The contents of pattern.json. */
  datatype Saved = Saved(mode: string, startDate: int, pattern: seq<seq<int>>, dailyCommitCount: int)

  /** Seven rows, all as long as the first. */
  predicate IsSevenByN(p: seq<seq<int>>) {
    |p| == 7 && forall r :: 0 <= r < 7 ==> |p[r]| == |p[0]|
  }

  function Max(a: int, b: int): int { if a < b then b else a }

  /** `[[daily] * weeks] * 7` after clamping daily to >= 0 and weeks to >= 1. */
  function BuildDailyPattern(daily: int, weeks: int): (p: seq<seq<int>>)
    ensures IsSevenByN(p) && |p[0]| == Max(1, weeks)
    ensures forall r, c :: 0 <= r < 7 && 0 <= c < |p[r]| ==> p[r][c] == Max(0, daily)
  {
    var d := Max(0, daily);
    var w := Max(1, weeks);
    seq(7, _ => seq(w, _ => d))
  }

  /**
   * The first day of the pattern: today, unless pattern mode asks for the
   * next Sunday, in which case the first Sunday on or after today.
   */
  function CalculateStartDate(startFromNextSunday: bool, mode: string, today: int): (start: int)
    ensures mode != "pattern" || !startFromNextSunday ==> start == today
    ensures mode == "pattern" && startFromNextSunday ==>
      && today <= start <= today + 6
      && Calendar.IsSunday(start)
      && forall d :: today <= d < start ==> !Calendar.IsSunday(d)
  {
    if mode != "pattern" then today
    else if !startFromNextSunday then today
    else today + (6 - Calendar.Weekday(today)) % 7
  }

  /** save_all's checks, in order, and the record it would write. */
  function SaveAll(pattern: Option<seq<seq<int>>>, cfg: Config, repoExists: bool, today: int)
    : (r: Result<Saved, SaveError>)
    ensures r.Success? <==>
      repoExists && (if cfg.mode == "pattern" then pattern.Some? && IsSevenByN(pattern.value)
                     else cfg.dailyCommitCount > 0)
    ensures r.Success? && cfg.mode == "pattern" ==> r.value.pattern == pattern.value
    ensures r.Success? && cfg.mode != "pattern" ==>
      && IsSevenByN(r.value.pattern) && |r.value.pattern[0]| == Max(1, cfg.weeks)
      && forall row, c :: 0 <= row < 7 && 0 <= c < |r.value.pattern[row]| ==> r.value.pattern[row][c] == cfg.dailyCommitCount
    ensures r.Success? ==> r.value.mode == cfg.mode && r.value.dailyCommitCount == cfg.dailyCommitCount
    ensures r.Success? ==> r.value.startDate == CalculateStartDate(cfg.startFromNextSunday, cfg.mode, today)
  {
    if !repoExists then Failure(RepoMissing)
    else
      var weeks := Max(1, cfg.weeks);
      var checked: Result<seq<seq<int>>, SaveError> :=
        if cfg.mode == "pattern" then
          if pattern.None? then Failure(PatternRequired)
          else if |pattern.value| != 7 || exists row :: 0 <= row < 7 && |pattern.value[row]| != |pattern.value[0]| then Failure(NotSevenByN)
          else Success(pattern.value)
        else if cfg.dailyCommitCount <= 0 then Failure(DailyCountNotPositive)
        else Success(BuildDailyPattern(cfg.dailyCommitCount, weeks));
      match checked
      case Failure(e) => Failure(e)
      case Success(p) =>
        Success(Saved(cfg.mode, CalculateStartDate(cfg.startFromNextSunday, cfg.mode, today), p, cfg.dailyCommitCount))
  }

  /** pattern.json as the painter reads it back. */
  function AsPatternFile(s: Saved): Painter.PatternFile {
    Painter.PatternFile(Some(s.startDate), s.mode,
      seq(|s.pattern|, r requires 0 <= r < |s.pattern| =>
        seq(|s.pattern[r]|, c requires 0 <= c < |s.pattern[r]| => Json.Num(s.pattern[r][c]))),
      s.dailyCommitCount)
  }

  /**
   * Round trip, pattern mode: on day start + 7*col + row the painter asks
   * for exactly the saved cell.
   */
  lemma {:induction false} SavedPatternDrivesPainter(pattern: seq<seq<int>>, cfg: Config, today: int, row: nat, col: nat)
    requires cfg.mode == "pattern" && SaveAll(Some(pattern), cfg, true, today).Success?
    requires row < 7 && col < |pattern[0]|
    ensures var s := SaveAll(Some(pattern), cfg, true, today).value;
      Painter.ResolveTarget(AsPatternFile(s), s.startDate + 7 * col + row) == Painter.Goal(pattern[row][col])
  {
    var s := SaveAll(Some(pattern), cfg, true, today).value;
    var f := AsPatternFile(s);
    assert Text.AsciiLower("pattern") == "pattern";
    assert Painter.ModeOf(f.mode) == Painter.PatternMode;
    assert Painter.WellShaped(f.pattern);
    Painter.CellGovernsDay(f, row, col);
  }

  /**
   * Round trip, daily quota: whatever the mode string, every day of the
   * saved window asks for the configured count.
   */
  lemma {:induction false} SavedQuotaDrivesPainter(cfg: Config, today: int, k: nat)
    requires cfg.mode != "pattern" && SaveAll(None, cfg, true, today).Success?
    requires k < 7 * Max(1, cfg.weeks)
    ensures var s := SaveAll(None, cfg, true, today).value;
      Painter.ResolveTarget(AsPatternFile(s), s.startDate + k) == Painter.Goal(cfg.dailyCommitCount)
  {
    var s := SaveAll(None, cfg, true, today).value;
    var f := AsPatternFile(s);
    if Painter.ModeOf(f.mode) == Painter.PatternMode {
      assert Painter.WellShaped(f.pattern);
      var col, row := k / 7, k % 7;
      assert k == 7 * col + row;
      Painter.CellGovernsDay(f, row, col);
    }
  }
}
