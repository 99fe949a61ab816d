/**
 * A day of scheduled runs: the workflow that generator.py writes runs the
 * painter every 30 minutes and then, when the working tree changed, makes
 * one `git commit -am` and pushes. The painter's records stay in the day
 * file after they are committed, so its line count never drops.
 *
 * The state of a day is the number of commits the workflow has made that
 * day and the number of lines in that day's file; `counted` says whether
 * the painter's `git log --author=…` query sees the workflow's commits.
 */
module Schedule {
  import opened Wrappers
  import Painter

  datatype Day = Day(made: nat, lines: nat)

  /** The commit count the ledger reports for the day. */
  function Ledger(d: Day, counted: bool): nat {
    if counted then d.made else 0
  }

  /**
   * One scheduled run. The painter decides from the ledger and the file;
   * after a write the workflow commits once (`perRecord` false, as the
   * workflow is written) or once per appended record (`perRecord` true).
   */
  function Tick(need: int, counted: bool, perRecord: bool, d: Day): (next: Day)
    ensures next.lines >= d.lines && next.made >= d.made
  {
    match Painter.Reconcile(need, Some(Ledger(d, counted)), d.lines)
    case Stop(_) => d
    case Append(existing, target) => Day(d.made + (if perRecord then target - existing else 1), target)
  }

  /** The state after `runs` scheduled runs. */
  function After(need: int, counted: bool, perRecord: bool, d: Day, runs: nat): Day
    decreases runs
  {
    if runs == 0 then d else After(need, counted, perRecord, Tick(need, counted, perRecord, d), runs - 1)
  }

  /** Once the file holds `need` lines and no more than `need` commits are seen, runs change nothing. */
  lemma {:induction false} FullFileIsFixedPoint(need: int, counted: bool, perRecord: bool, d: Day, runs: nat)
    requires d.lines == need && Ledger(d, counted) <= need
    ensures After(need, counted, perRecord, d, runs) == d
    decreases runs
  {
    if runs > 0 {
      assert Tick(need, counted, perRecord, d) == d;
      FullFileIsFixedPoint(need, counted, perRecord, d, runs - 1);
    }
  }

  /**
   * As written: a day whose pixel asks for two or more commits gets
   * exactly one. The first run writes all `need` records, the workflow
   * commits them together, and every later run finds the file full.
   */
  lemma {:induction false} AsWrittenDayGetsOneCommit(need: int, counted: bool, runs: nat)
    requires need >= 2 && runs >= 1
    ensures After(need, counted, false, Day(0, 0), runs) == Day(1, need)
  {
    var first := Tick(need, counted, false, Day(0, 0));
    assert first == Day(1, need);
    FullFileIsFixedPoint(need, counted, false, first, runs - 1);
  }

  /** The concrete case: a pixel of 3, 48 runs in a day, one commit. */
  lemma AsWrittenThreeBecomesOne()
    ensures After(3, true, false, Day(0, 0), 48).made == 1
  {
    AsWrittenDayGetsOneCommit(3, true, 48);
  }

  /**
   * Corrected: when every appended record is committed on its own, the
   * day ends with exactly `need` commits after its first run, and never
   * more, whatever the author filter sees.
   */
  lemma {:induction false} PerRecordDayReachesTarget(need: int, counted: bool, runs: nat)
    requires need >= 1 && runs >= 1
    ensures After(need, counted, true, Day(0, 0), runs) == Day(need, need)
  {
    var first := Tick(need, counted, true, Day(0, 0));
    assert first == Day(need, need);
    FullFileIsFixedPoint(need, counted, true, first, runs - 1);
  }
}
