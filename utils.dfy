// Shared value types: the integer point of the game's coordinate system and
// an optional value.

module Utils {

  /** A cell of the terminal grid: column x, row y (row 0 is the top edge). */
  datatype Point = Point(x: int, y: int)

  datatype Option<T> = None | Some(value: T)
}
