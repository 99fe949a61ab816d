/**
 * The JSON values of a pattern matrix as both the painter and the editor's
 * loader read them: a value Python's `int()` converts, or one it rejects.
 */
module Json {

  /** A cell of the JSON matrix: a value `int()` converts, or one it rejects. */
  datatype Cell = Num(value: int) | Junk

  /** `int(cell)`, with a rejected value counting as 0. */
  function ToInt(c: Cell): int {
    match c
    case Num(v) => v
    case Junk => 0
  }
}
