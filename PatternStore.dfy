/**
 * main.py: loading an existing pattern.json for editing and forcing any
 * matrix into the 7 x weeks shape the editor works on.
 */
module PatternStore {
  import opened Json

  /** `_blank_pattern`: seven rows of `weeks` zeros. */
  function BlankPattern(weeks: nat): (p: seq<seq<int>>)
    ensures IsGrid(p, weeks)
    ensures forall r, c :: 0 <= r < 7 && 0 <= c < weeks ==> p[r][c] == 0
  {
    seq(7, _ => seq(weeks, _ => 0))
  }

  /** Exactly seven rows of exactly `weeks` cells. */
  predicate IsGrid(p: seq<seq<int>>, weeks: nat) {
    |p| == 7 && forall r :: 0 <= r < 7 ==> |p[r]| == weeks
  }

  /** Cell (r, c) of `p`, or 0 where `p` has no such cell. */
  function CellOrZero(p: seq<seq<int>>, r: nat, c: nat): int {
    if r < |p| && c < |p[r]| then p[r][c] else 0
  }

  /** `row[:weeks]` padded with zeros up to `weeks`. */
  function FitRow(row: seq<int>, weeks: nat): (fitted: seq<int>)
    ensures |fitted| == weeks
    ensures forall c :: 0 <= c < weeks ==> fitted[c] == if c < |row| then row[c] else 0
  {
    if |row| >= weeks then row[..weeks] else row + seq(weeks - |row|, _ => 0)
  }

  /**
   * `_resize_pattern`: every row cut or zero-padded to `weeks`, then the
   * rows padded with blank rows or cut to seven.
   */
  method ResizePattern(pattern: seq<seq<int>>, weeks: nat) returns (adjusted: seq<seq<int>>)
    ensures IsGrid(adjusted, weeks)
    ensures forall r, c :: 0 <= r < 7 && 0 <= c < weeks ==> adjusted[r][c] == CellOrZero(pattern, r, c)
    ensures IsGrid(pattern, weeks) ==> adjusted == pattern
  {
    adjusted := [];
    for i := 0 to |pattern|
      invariant |adjusted| == i
      invariant forall r :: 0 <= r < i ==> adjusted[r] == FitRow(pattern[r], weeks)
    {
      adjusted := adjusted + [FitRow(pattern[i], weeks)];
    }
    if |adjusted| < 7 {
      adjusted := adjusted + BlankPattern(weeks)[|adjusted|..];
    } else if |adjusted| > 7 {
      adjusted := adjusted[..7];
    }
    if IsGrid(pattern, weeks) {
      forall r | 0 <= r < 7
        ensures adjusted[r] == pattern[r]
      {
        assert FitRow(pattern[r], weeks) == pattern[r];
      }
    }
  }

  /** A JSON value in the pattern list: a list of cells, or anything else. */
  datatype RawRow = Row(cells: seq<Cell>) | NotARow
  /** The "pattern" entry: a list of rows, or anything else (absent, null, a number …). */
  datatype RawPattern = Rows(rows: seq<RawRow>) | NotAList
  /** pattern.json: missing, unreadable or invalid JSON, or parsed. */
  datatype PatternSource = NoFile | Unreadable | Parsed(pattern: RawPattern)

  /** A parsed file whose "pattern" is a list of seven lists. */
  predicate Usable(source: PatternSource) {
    && source.Parsed? && source.pattern.Rows? && |source.pattern.rows| == 7
    && forall r :: 0 <= r < 7 ==> source.pattern.rows[r].Row?
  }

  /**
   * `_load_existing_pattern`: a missing, unreadable or malformed file gives
   * the blank template; otherwise every cell is converted (0 where `int()`
   * fails) and the result resized to 7 x max(1, weeks).
   */
  method LoadExistingPattern(source: PatternSource, weeksWanted: int) returns (pattern: seq<seq<int>>)
    ensures var weeks := if weeksWanted < 1 then 1 else weeksWanted;
      && IsGrid(pattern, weeks)
      && (!Usable(source) ==> pattern == BlankPattern(weeks))
      && (Usable(source) ==> forall r, c :: 0 <= r < 7 && 0 <= c < weeks ==>
            pattern[r][c] == if c < |source.pattern.rows[r].cells| then ToInt(source.pattern.rows[r].cells[c]) else 0)
  {
    var weeks: nat := if weeksWanted < 1 then 1 else weeksWanted;
    if !source.Parsed? || !source.pattern.Rows? || |source.pattern.rows| != 7 {
      return BlankPattern(weeks);
    }
    var raw := source.pattern.rows;
    var normalized: seq<seq<int>> := [];
    for r := 0 to 7
      invariant |normalized| == r
      invariant forall i :: 0 <= i < r ==> raw[i].Row?
      invariant forall i :: 0 <= i < r ==> |normalized[i]| == |raw[i].cells|
      invariant forall i, c :: 0 <= i < r && 0 <= c < |raw[i].cells| ==> normalized[i][c] == ToInt(raw[i].cells[c])
    {
      if !raw[r].Row? {
        return BlankPattern(weeks);
      }
      var normalizedRow: seq<int> := [];
      for c := 0 to |raw[r].cells|
        invariant |normalizedRow| == c
        invariant forall j :: 0 <= j < c ==> normalizedRow[j] == ToInt(raw[r].cells[j])
      {
        normalizedRow := normalizedRow + [ToInt(raw[r].cells[c])];
      }
      normalized := normalized + [normalizedRow];
    }
    pattern := ResizePattern(normalized, weeks);
  }
}
