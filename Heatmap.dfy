/**
 * gh_heatmap.py: turning a public contribution calendar into a 7 x weeks
 * matrix, Sunday-first. Fetching the page and matching its HTML with
 * regular expressions are inputs here: `ParseLevels` receives, per regular
 * expression, the (date, level) pairs it matched.
 */
module Heatmap {
  import opened Wrappers
  import Calendar

  datatype HeatmapError = NoContributionData

  /** `_days_since_sunday`: how many days ago the latest Sunday was. */
  function DaysSinceSunday(day: int): (shift: nat)
    ensures shift < 7
    ensures shift == 0 <==> Calendar.IsSunday(day)
    ensures Calendar.IsSunday(day - shift)
  {
    (Calendar.Weekday(day) + 1) % 7
  }

  /** `level_by_date.get(day, 0)`. */
  function LevelAt(levels: map<int, int>, day: int): int {
    if day in levels then levels[day] else 0
  }

  /** The latest date of a non-empty set of dates. */
  ghost function Latest(dates: set<int>): (latest: int)
    requires dates != {}
    ensures latest in dates
    ensures forall d :: d in dates ==> d <= latest
    decreases |dates|
  {
    HasElement(dates);
    var d :| d in dates;
    var rest := dates - {d};
    if rest == {} then
      assert dates == {d};
      d
    else
      var m := Latest(rest);
      assert forall x :: x in dates ==> x == d || x in rest;
      if d < m then m else d
  }

  lemma HasElement(s: set<int>)
    requires s != {}
    ensures exists x :: x in s
  {
    if forall x :: x !in s {
      assert false;
    }
  }

  /** The Sunday that starts the first of `weeks` weeks ending with the week of `latest`. */
  function StartSunday(latest: int, weeks: nat): int {
    latest - DaysSinceSunday(latest) - 7 * (weeks - 1)
  }

  /**
   * `_build_matrix`: no data is an error; otherwise cell (row, col) is the
   * level of day StartSunday + 7*col + row, or 0, so the latest date sits
   * in the last column.
   */
  method BuildMatrix(levels: map<int, int>, weeks: nat) returns (r: Result<seq<seq<int>>, HeatmapError>)
    ensures r.Failure? <==> levels == map[]
    ensures r.Success? ==>
      && |r.value| == 7 && (forall row :: 0 <= row < 7 ==> |r.value[row]| == weeks)
      && Calendar.IsSunday(StartSunday(Latest(levels.Keys), weeks))
      && forall row, col :: 0 <= row < 7 && 0 <= col < weeks ==>
           r.value[row][col] == LevelAt(levels, StartSunday(Latest(levels.Keys), weeks) + 7 * col + row)
    ensures r.Success? && weeks >= 1 ==>
      var latest := Latest(levels.Keys);
      r.value[DaysSinceSunday(latest)][weeks - 1] == levels[latest]
  {
    if levels == map[] {
      return Failure(NoContributionData);
    }
    ghost var top := Latest(levels.Keys);
    assert top in levels && forall d :: d in levels ==> d <= top;
    var latest :| latest in levels && forall d :: d in levels ==> d <= latest;
    assert latest == top;
    var lastSunday := latest - DaysSinceSunday(latest);
    var startSunday := lastSunday - 7 * (weeks - 1);
    Calendar.WeekdayAfterWeeks(lastSunday, -(weeks - 1));

    var matrix: seq<seq<int>> := seq(7, _ => seq(weeks, _ => 0));
    for col := 0 to weeks
      invariant |matrix| == 7 && forall row :: 0 <= row < 7 ==> |matrix[row]| == weeks
      invariant forall row, c :: 0 <= row < 7 && 0 <= c < col ==> matrix[row][c] == LevelAt(levels, startSunday + 7 * c + row)
    {
      var weekStart := startSunday + 7 * col;
      for row := 0 to 7
        invariant |matrix| == 7 && forall i :: 0 <= i < 7 ==> |matrix[i]| == weeks
        invariant forall i, c :: 0 <= i < 7 && 0 <= c < col ==> matrix[i][c] == LevelAt(levels, startSunday + 7 * c + i)
        invariant forall i :: 0 <= i < row ==> matrix[i][col] == LevelAt(levels, weekStart + i)
      {
        matrix := matrix[row := matrix[row][col := LevelAt(levels, weekStart + row)]];
      }
    }
    if weeks >= 1 {
      var row := DaysSinceSunday(latest);
      assert startSunday + 7 * (weeks - 1) + row == latest;
    }
    return Success(matrix);
  }

  /** A regular-expression match: the date (None when it is not an ISO date) and the level digits. */
  datatype Match = Match(date: Option<int>, level: int)

  /** `max(0, min(4, level))`. */
  function Clamp(level: int): (c: int)
    ensures 0 <= c <= 4
    ensures 0 <= level <= 4 ==> c == level
    ensures level < 0 ==> c == 0
    ensures level > 4 ==> c == 4
  {
    if level < 0 then 0 else if level > 4 then 4 else level
  }

  /** The map one regular expression's matches build, a later match overwriting an earlier one. */
  function Collect(ms: seq<Match>): (data: map<int, int>)
    ensures forall d :: d in data ==> 0 <= data[d] <= 4
  {
    if ms == [] then map[]
    else
      var data := Collect(ms[..|ms| - 1]);
      var m := ms[|ms| - 1];
      if m.date.Some? then data[m.date.value := Clamp(m.level)] else data
  }

  /** A date is collected exactly when some match carries it. */
  lemma {:induction false} CollectHasDate(ms: seq<Match>, day: int)
    ensures day in Collect(ms) <==> exists i :: 0 <= i < |ms| && ms[i].date == Some(day)
  {
    if ms != [] {
      var init := ms[..|ms| - 1];
      var last := |ms| - 1;
      CollectHasDate(init, day);
      assert forall i :: 0 <= i < last ==> init[i] == ms[i];
      if ms[last].date != Some(day) {
        if i :| 0 <= i < |ms| && ms[i].date == Some(day) {
          assert init[i].date == Some(day);
        }
      }
    }
  }

  /**
   * What `Collect` keeps, stated without the fold: a date is present
   * exactly when some match carries it, with the clamped level of the last
   * such match.
   */
  lemma {:induction false} CollectKeepsLastMatch(ms: seq<Match>, day: int)
    ensures day in Collect(ms) <==> exists i :: 0 <= i < |ms| && ms[i].date == Some(day)
    ensures day in Collect(ms) ==> exists i ::
      && 0 <= i < |ms| && ms[i].date == Some(day)
      && Collect(ms)[day] == Clamp(ms[i].level)
      && forall j :: i < j < |ms| ==> ms[j].date != Some(day)
  {
    CollectHasDate(ms, day);
    if ms != [] && day in Collect(ms) {
      var init := ms[..|ms| - 1];
      var last := |ms| - 1;
      if ms[last].date == Some(day) {
        assert Collect(ms)[day] == Clamp(ms[last].level);
      } else {
        CollectKeepsLastMatch(init, day);
        var i :| 0 <= i < |init| && init[i].date == Some(day) && Collect(init)[day] == Clamp(init[i].level)
                 && forall j :: i < j < |init| ==> init[j].date != Some(day);
        assert ms[i] == init[i];
        assert forall j :: i < j < last ==> ms[j] == init[j];
      }
    }
  }

  /** The first regular expression whose matches give any data decides the result. */
  function FirstProductive(alternatives: seq<seq<Match>>): (data: map<int, int>)
    ensures forall d :: d in data ==> 0 <= data[d] <= 4
    ensures data == map[] <==> forall k :: 0 <= k < |alternatives| ==> Collect(alternatives[k]) == map[]
    ensures data != map[] ==> exists k ::
      && 0 <= k < |alternatives| && data == Collect(alternatives[k])
      && forall j :: 0 <= j < k ==> Collect(alternatives[j]) == map[]
  {
    if alternatives == [] then map[]
    else if Collect(alternatives[0]) != map[] then Collect(alternatives[0])
    else
      var data := FirstProductive(alternatives[1..]);
      if data != map[] then
        var k :| && 0 <= k < |alternatives| - 1 && data == Collect(alternatives[1..][k])
          && forall j :: 0 <= j < k ==> Collect(alternatives[1..][j]) == map[];
        assert data == Collect(alternatives[k + 1]);
        assert forall j :: 0 <= j < k + 1 ==> Collect(alternatives[j]) == map[] by {
          forall j | 0 <= j < k + 1 ensures Collect(alternatives[j]) == map[] {
            if j > 0 { assert alternatives[j] == alternatives[1..][j - 1]; }
          }
        }
        data
      else data
  }

  /**
   * `_parse_levels` after the matching: the first regular expression that
   * yields data wins, each level clamped to 0..4.
   */
  method ParseLevels(alternatives: seq<seq<Match>>) returns (data: map<int, int>)
    ensures data == FirstProductive(alternatives)
    ensures forall d :: d in data ==> 0 <= data[d] <= 4
  {
    data := map[];
    var k := 0;
    while k < |alternatives|
      invariant k <= |alternatives|
      invariant data == map[]
      invariant FirstProductive(alternatives) == FirstProductive(alternatives[k..])
    {
      var matches := alternatives[k];
      if matches == [] {
        assert alternatives[k..][1..] == alternatives[k + 1..];
        k := k + 1;
        continue;
      }
      for j := 0 to |matches|
        invariant data == Collect(matches[..j])
      {
        assert matches[..j + 1][..j] == matches[..j];
        var m := matches[j];
        if m.date.Some? {
          data := data[m.date.value := Clamp(m.level)];
        }
      }
      assert matches[..|matches|] == matches;
      if data != map[] {
        return;
      }
      assert alternatives[k..][1..] == alternatives[k + 1..];
      k := k + 1;
    }
  }

  /**
   * `show_remote_heatmap` without the rendering: no user name gives [];
   * `weeks` is clamped to at least 1; a failed fetch or no data gives [].
   * `fetched` is what `_fetch_levels` returned (None when it raised).
   */
  method ShowRemoteHeatmap(username: string, weeks: int, fetched: Option<map<int, int>>)
    returns (matrix: seq<seq<int>>)
    ensures username == [] || fetched.None? || fetched == Some(map[]) ==> matrix == []
    ensures username != [] && fetched.Some? && fetched.value != map[] ==>
      var w := if weeks < 1 then 1 else weeks;
      var start := StartSunday(Latest(fetched.value.Keys), w);
      && |matrix| == 7 && (forall row :: 0 <= row < 7 ==> |matrix[row]| == w)
      && Calendar.IsSunday(start)
      && forall row, col :: 0 <= row < 7 && 0 <= col < w ==>
           matrix[row][col] == LevelAt(fetched.value, start + 7 * col + row)
  {
    if username == [] {
      return [];
    }
    var w: nat := if weeks < 1 then 1 else weeks;
    if fetched.None? {
      return [];
    }
    var built := BuildMatrix(fetched.value, w);
    match built {
      case Failure(_) => matrix := [];
      case Success(m) => matrix := m;
    }
  }
}
