/** Integer helpers shared by the modules. */
module Ints {

  function Max0(x: int): nat {
    if x < 0 then 0 else x
  }

  function Min(a: int, b: int): int {
    if a < b then a else b
  }
}
