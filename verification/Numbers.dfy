/** The smaller and the larger of two numbers, and a truth value as a number. */
module Numbers {

  function Min(a: int, b: int): int {
    if a < b then a else b
  }

  function Max(a: int, b: int): int {
    if a < b then b else a
  }

  /** What a thread adds to a count: one if it is to be counted. */
  function One(b: bool): nat {
    if b then 1 else 0
  }
}
