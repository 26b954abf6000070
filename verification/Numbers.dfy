/** Small arithmetic shared by the modules. */
module Numbers {
  function Min(a: int, b: int): int {
    if b < a then b else a
  }

  function Max(a: int, b: int): int {
    if a < b then b else a
  }

  function One(b: bool): nat {
    if b then 1 else 0
  }
}
