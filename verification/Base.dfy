/** Small types and functions that several models use. */
module Base {
  datatype Option<+T> = None | Some(value: T)

  type Byte = x: int | 0 <= x < 256

  const NUL: Byte := 0
  const LF: Byte := 10
  const CR: Byte := 13

  function Min(a: int, b: int): int { if a < b then a else b }
}
