/**
 * tui.py: the grid editor without its curses drawing. The editor is a
 * session object whose pattern, cursor and save flag change one key at a
 * time; the key codes the terminal delivers are an input sequence.
 */
module Editor {
  import opened Wrappers
  import Text

  const CtrlS: int := 19
  // curses key codes
  const KeyDown: int := 258
  const KeyUp: int := 259
  const KeyLeft: int := 260
  const KeyRight: int := 261

  /** The values the `c` key cycles through. */
  const CycleValues: seq<int> := [0, 3, 6, 9]

  /** `_cycle`: the next value of 0 → 3 → 6 → 9 → 0; anything else restarts at 0. */
  function Cycle(current: int): (next: int)
    ensures next in CycleValues
    ensures current == 0 ==> next == 3
    ensures current == 3 ==> next == 6
    ensures current == 6 ==> next == 9
    ensures current == 9 ==> next == 0
    ensures current !in CycleValues ==> next == 0
  {
    match Text.IndexOf(CycleValues, current)
    case None => CycleValues[0]
    case Some(i) => CycleValues[(i + 1) % |CycleValues|]
  }

  /** Four presses of `c` bring a cycle value back to itself. */
  lemma CycleReturnsAfterFour(v: int)
    requires v in CycleValues
    ensures Cycle(Cycle(Cycle(Cycle(v)))) == v
  {
  }

  /** `_value_to_level`: a cell value as one of the five colour levels. */
  function ValueToLevel(value: int): (level: int)
    ensures 0 <= level <= 4
    ensures level == 0 <==> value <= 0
    ensures value >= 9 ==> level == 4
  {
    var v := if value < 0 then 0 else value;
    if v == 0 then 0
    else if v <= 2 then 1
    else if v <= 5 then 2
    else if v <= 8 then 3
    else 4
  }

  /** Larger values never get a lighter level. */
  lemma ValueToLevelMonotone(a: int, b: int)
    requires a <= b
    ensures ValueToLevel(a) <= ValueToLevel(b)
  {
  }

  /** What a key code asks for, in the order `_run_editor` tests them. */
  datatype Key = Quit | Save | Up | Down | Left | Right | Digit(d: int) | Toggle | CycleCell | Unknown
  {
    predicate IsMove() { Up? || Down? || Left? || Right? }
    predicate IsEdit() { Digit? || Toggle? || CycleCell? }
  }

  function KeyOf(ch: int): (k: Key)
    ensures k == Quit <==> ch == 'q' as int || ch == 'Q' as int
    ensures k == Save <==> ch == CtrlS
    ensures k == Up <==> ch == KeyUp || ch == 'w' as int || ch == 'W' as int
    ensures k == Down <==> ch == KeyDown || ch == 's' as int
    ensures k == Left <==> ch == KeyLeft || ch == 'a' as int || ch == 'A' as int
    ensures k == Right <==> ch == KeyRight || ch == 'd' as int || ch == 'D' as int
    ensures k == Toggle <==> ch == ' ' as int
    ensures k == CycleCell <==> ch == 'c' as int || ch == 'C' as int
    ensures k.Digit? <==> '0' as int <= ch <= '9' as int
    ensures k.Digit? ==> 0 <= k.d <= 9 && ch == '0' as int + k.d
  {
    if ch == 'q' as int || ch == 'Q' as int then Quit
    else if ch == CtrlS then Save
    else if ch == KeyUp || ch == 'w' as int || ch == 'W' as int then Up
    else if ch == KeyDown || ch == 's' as int then Down
    else if ch == KeyLeft || ch == 'a' as int || ch == 'A' as int then Left
    else if ch == KeyRight || ch == 'd' as int || ch == 'D' as int then Right
    else if '0' as int <= ch <= '9' as int then Digit(ch - '0' as int)
    else if ch == ' ' as int then Toggle
    else if ch == 'c' as int || ch == 'C' as int then CycleCell
    else Unknown
  }

  /** `q`/`Q` and Ctrl+S end the session. */
  predicate IsTerminal(ch: int) {
    ch == 'q' as int || ch == 'Q' as int || ch == CtrlS
  }

  /** The cursor after a movement key: one step, clamped to the grid. */
  function Moved(k: Key, row: nat, col: nat, rows: nat, cols: nat): (cursor: (nat, nat))
    requires k.IsMove() && row < rows && col < cols
    ensures cursor.0 < rows && cursor.1 < cols
    ensures (cursor.0 == row || cursor.1 == col)
    ensures cursor.0 <= row + 1 && row <= cursor.0 + 1 && cursor.1 <= col + 1 && col <= cursor.1 + 1
    ensures k == Up ==> cursor.1 == col && cursor.0 == (if 0 < row then row - 1 else row)
    ensures k == Down ==> cursor.1 == col && cursor.0 == (if row + 1 < rows then row + 1 else row)
    ensures k == Left ==> cursor.0 == row && cursor.1 == (if 0 < col then col - 1 else col)
    ensures k == Right ==> cursor.0 == row && cursor.1 == (if col + 1 < cols then col + 1 else col)
  {
    match k
    case Up => (if row == 0 then 0 else row - 1, col)
    case Down => (if row + 1 > rows - 1 then rows - 1 else row + 1, col)
    case Left => (row, if col == 0 then 0 else col - 1)
    case Right => (row, if col + 1 > cols - 1 then cols - 1 else col + 1)
  }

  /** The new value of the cell under the cursor after an edit key. */
  function Edited(k: Key, v: int): (w: int)
    requires k.IsEdit() && (k.Digit? ==> 0 <= k.d <= 9)
    ensures 0 <= w <= 9
    ensures k.Digit? ==> w == k.d
    ensures k == Toggle ==> w == (if v == 0 then 5 else 0)
    ensures k == CycleCell ==> w == Cycle(v) && w in CycleValues
  {
    match k
    case Digit(d) => d
    case Toggle => if v == 0 then 5 else 0
    case CycleCell => Cycle(v)
  }

  /** The length of every row. */
  ghost function ShapeOf(p: seq<seq<int>>): seq<nat> {
    seq(|p|, r requires 0 <= r < |p| => |p[r]|)
  }

  /** A snapshot of the editor: the pattern, the cursor, the save flag and whether the loop has ended. */
  datatype EditorState = EditorState(pattern: seq<seq<int>>, row: nat, col: nat, save: bool, closed: bool)

  /** `rows` rows of at least `cols` cells, with the cursor on one of them. */
  predicate Fits(s: EditorState, rows: nat, cols: nat) {
    && |s.pattern| == rows && 0 < rows && 0 < cols
    && (forall r :: 0 <= r < rows ==> cols <= |s.pattern[r]|)
    && s.row < rows && s.col < cols
  }

  /**
   * One pass of `_run_editor`'s loop on a snapshot: `q`/`Q` ends without
   * saving, Ctrl+S ends with saving, a movement key moves the cursor, an
   * edit key rewrites the cell under the cursor and anything else changes
   * nothing. Once the loop has ended no further key is read.
   */
  function Step(s: EditorState, ch: int, rows: nat, cols: nat): (t: EditorState)
    requires Fits(s, rows, cols)
    ensures Fits(t, rows, cols) && ShapeOf(t.pattern) == ShapeOf(s.pattern)
    ensures s.closed ==> t == s
  {
    if s.closed then s
    else
      var k := KeyOf(ch);
      match k
      case Quit => s.(save := false, closed := true)
      case Save => s.(save := true, closed := true)
      case Up | Down | Left | Right =>
        var cursor := Moved(k, s.row, s.col, rows, cols);
        s.(row := cursor.0, col := cursor.1)
      case Digit(_) | Toggle | CycleCell =>
        var line := s.pattern[s.row];
        s.(pattern := s.pattern[s.row := line[s.col := Edited(k, line[s.col])]])
      case Unknown => s
  }

  /** A running session ends exactly on `q`/`Q` or Ctrl+S, saving exactly on Ctrl+S. */
  lemma StepEnds(s: EditorState, ch: int, rows: nat, cols: nat)
    requires Fits(s, rows, cols) && !s.closed
    ensures var t := Step(s, ch, rows, cols);
      && (t.closed <==> IsTerminal(ch))
      && (IsTerminal(ch) ==> t.save == (ch == CtrlS))
      && (!IsTerminal(ch) ==> t.save == s.save)
  {
  }

  /** What the other keys do to a running session, key class by key class. */
  lemma StepByKey(s: EditorState, ch: int, rows: nat, cols: nat)
    requires Fits(s, rows, cols) && !s.closed
    ensures var t, k := Step(s, ch, rows, cols), KeyOf(ch);
      && (k.IsMove() ==> (t.row, t.col) == Moved(k, s.row, s.col, rows, cols))
      && (!k.IsMove() ==> t.row == s.row && t.col == s.col)
      && (k.IsEdit() ==> t.pattern == s.pattern[s.row := s.pattern[s.row][s.col := Edited(k, s.pattern[s.row][s.col])]])
      && (!k.IsEdit() ==> t.pattern == s.pattern)
  {
  }

  /** The snapshot after the keys of `keys`, one after the other. */
  function Replay(s: EditorState, keys: seq<int>, rows: nat, cols: nat): (t: EditorState)
    requires Fits(s, rows, cols)
    ensures Fits(t, rows, cols) && ShapeOf(t.pattern) == ShapeOf(s.pattern)
    decreases |keys|
  {
    if keys == [] then s
    else Step(Replay(s, keys[..|keys| - 1], rows, cols), keys[|keys| - 1], rows, cols)
  }

  /** Replaying one more key is one more step. */
  lemma ReplayOneMore(s: EditorState, keys: seq<int>, ch: int, rows: nat, cols: nat)
    requires Fits(s, rows, cols)
    ensures Replay(s, keys + [ch], rows, cols) == Step(Replay(s, keys, rows, cols), ch, rows, cols)
  {
    assert (keys + [ch])[..|keys|] == keys;
  }

  /** Keys that arrive after the session has ended are never read. */
  lemma {:induction false} ReplayIgnoresKeysAfterEnd(s: EditorState, keys: seq<int>, more: seq<int>, rows: nat, cols: nat)
    requires Fits(s, rows, cols) && Replay(s, keys, rows, cols).closed
    ensures Replay(s, keys + more, rows, cols) == Replay(s, keys, rows, cols)
    decreases |more|
  {
    if more == [] {
      assert keys + more == keys;
    } else {
      var init := more[..|more| - 1];
      assert (keys + more)[..|keys + more| - 1] == keys + init;
      ReplayIgnoresKeysAfterEnd(s, keys, init, rows, cols);
    }
  }

  /** The editor's state: the pattern it edits in place, the cursor and the save flag. */
  class Session {
    var pattern: seq<seq<int>>
    const rows: nat
    const cols: nat
    var cursorRow: nat
    var cursorCol: nat
    var save: bool
    var closed: bool

    /** The fields as a snapshot. */
    function State(): EditorState
      reads this
    {
      EditorState(pattern, cursorRow, cursorCol, save, closed)
    }

    ghost predicate Valid()
      reads this
    {
      Fits(State(), rows, cols)
    }

    /** The lengths of the rows, which editing never changes. */
    ghost function Shape(): seq<nat>
      reads this
    {
      ShapeOf(pattern)
    }

    /** The editor starts on the top-left cell with `save` false; `cols` is the first row's length. */
    constructor (initial: seq<seq<int>>)
      requires |initial| > 0 && |initial[0]| > 0
      requires forall r :: 0 <= r < |initial| ==> |initial[0]| <= |initial[r]|
      ensures Valid() && !closed && !save
      ensures pattern == initial && rows == |initial| && cols == |initial[0]|
      ensures cursorRow == 0 && cursorCol == 0
    {
      pattern := initial;
      rows := |initial|;
      cols := |initial[0]|;
      cursorRow, cursorCol := 0, 0;
      save, closed := false, false;
    }

    /** One pass of the `while True` loop for key code `ch`. */
    method HandleKey(ch: int)
      requires Valid() && !closed
      modifies this
      ensures Valid() && Shape() == old(Shape())
      ensures State() == Step(old(State()), ch, rows, cols)
      ensures var k := KeyOf(ch);
        && (k == Quit ==> closed && !save)
        && (k == Save ==> closed && save)
        && (!IsTerminal(ch) ==> !closed && save == old(save))
        && (k.IsMove() ==> (cursorRow, cursorCol) == Moved(k, old(cursorRow), old(cursorCol), rows, cols))
        && (!k.IsMove() ==> cursorRow == old(cursorRow) && cursorCol == old(cursorCol))
        && (k.IsEdit() ==> pattern == old(pattern)[old(cursorRow) :=
              old(pattern)[old(cursorRow)][old(cursorCol) := Edited(k, old(pattern)[old(cursorRow)][old(cursorCol)])]])
        && (!k.IsEdit() ==> pattern == old(pattern))
    {
      var k := KeyOf(ch);
      if k == Quit {
        save, closed := false, true;
      } else if k == Save {
        save, closed := true, true;
      } else if k.IsMove() {
        var cursor := Moved(k, cursorRow, cursorCol, rows, cols);
        cursorRow, cursorCol := cursor.0, cursor.1;
      } else if k.IsEdit() {
        var row := pattern[cursorRow];
        pattern := pattern[cursorRow := row[cursorCol := Edited(k, row[cursorCol])]];
      }
    }

    /**
     * Feeds keys until `q`/`Q` or Ctrl+S ends the session; `consumed` keys
     * were read. The session ends exactly when such a key occurs, with
     * `save` set exactly when the first of them is Ctrl+S.
     */
    method Run(keys: seq<int>) returns (consumed: nat)
      requires Valid() && !closed
      modifies this
      ensures Valid() && Shape() == old(Shape())
      ensures consumed <= |keys|
      ensures closed <==> exists i :: 0 <= i < |keys| && IsTerminal(keys[i])
      ensures forall i :: 0 <= i < consumed - 1 ==> !IsTerminal(keys[i])
      ensures closed ==> 0 < consumed && IsTerminal(keys[consumed - 1]) && save == (keys[consumed - 1] == CtrlS)
      ensures !closed ==> consumed == |keys|
      ensures State() == Replay(old(State()), keys[..consumed], rows, cols)
    {
      ghost var init := State();
      consumed := 0;
      while consumed < |keys| && !closed
        invariant consumed <= |keys|
        invariant Fits(init, rows, cols) && State() == Replay(init, keys[..consumed], rows, cols)
        invariant forall i :: 0 <= i < consumed - 1 ==> !IsTerminal(keys[i])
        invariant closed ==> 0 < consumed && IsTerminal(keys[consumed - 1]) && save == (keys[consumed - 1] == CtrlS)
        invariant !closed ==> forall i :: 0 <= i < consumed ==> !IsTerminal(keys[i])
      {
        var ch := keys[consumed];
        ghost var before := State();
        HandleKey(ch);
        StepEnds(before, ch, rows, cols);
        ReplayOneMore(init, keys[..consumed], ch, rows, cols);
        assert keys[..consumed + 1] == keys[..consumed] + [ch];
        consumed := consumed + 1;
      }
      if closed {
        assert IsTerminal(keys[consumed - 1]);
      } else {
        assert consumed == |keys|;
      }
    }
  }

  datatype TuiError = NotSevenRows | NoColumns | RowShorterThanFirst

  /** Some key of the stream ends the session (the loop returns only then). */
  predicate EndsSession(keys: seq<int>) {
    exists i :: 0 <= i < |keys| && IsTerminal(keys[i])
  }

  /**
   * `run_tui`: the shape checks, then an editing session over `keys` when
   * the terminal is interactive. Returns the pattern and whether to save.
   * A row shorter than the first makes the first redraw fail.
   */
  method RunTui(initial: seq<seq<int>>, interactive: bool, keys: seq<int>)
    returns (r: Result<(seq<seq<int>>, bool), TuiError>)
    requires interactive ==> EndsSession(keys)
    ensures r.Failure? <==>
      (|initial| != 7 || |initial[0]| == 0
       || (interactive && exists row :: 0 <= row < 7 && |initial[row]| < |initial[0]|))
    ensures r.Success? ==> |r.value.0| == 7 && forall row :: 0 <= row < 7 ==> |r.value.0[row]| == |initial[row]|
    ensures r.Success? && !interactive ==> r.value == (initial, false)
    ensures r.Success? && interactive ==>
      exists i :: 0 <= i < |keys| && IsTerminal(keys[i]) && (forall j :: 0 <= j < i ==> !IsTerminal(keys[j]))
                 && r.value.1 == (keys[i] == CtrlS)
    ensures r.Success? && interactive ==>
      var end := Replay(EditorState(initial, 0, 0, false, false), keys, 7, |initial[0]|);
      r.value == (end.pattern, end.save)
  {
    if |initial| != 7 {
      return Failure(NotSevenRows);
    }
    var cols := |initial[0]|;
    if cols == 0 {
      return Failure(NoColumns);
    }
    if !interactive {
      return Success((initial, false));
    }
    if exists row :: 0 <= row < 7 && |initial[row]| < cols {
      return Failure(RowShorterThanFirst);
    }
    var session := new Session(initial);
    assert session.Shape() == ShapeOf(initial);
    ghost var start := session.State();
    var consumed := session.Run(keys);
    if consumed < |keys| {
      assert keys == keys[..consumed] + keys[consumed..];
      ReplayIgnoresKeysAfterEnd(start, keys[..consumed], keys[consumed..], 7, cols);
    } else {
      assert keys[..consumed] == keys;
    }
    assert ShapeOf(session.pattern) == ShapeOf(initial);
    forall row | 0 <= row < 7
      ensures |session.pattern[row]| == |initial[row]|
    {
      assert ShapeOf(session.pattern)[row] == ShapeOf(initial)[row];
    }
    r := Success((session.pattern, session.save));
  }
}
