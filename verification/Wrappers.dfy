/** Optional values and small functions that several modules share. */
module Wrappers {
  datatype Option<+T> = None | Some(value: T)

  function Min(a: int, b: int): int { if a < b then a else b }

  function Max(a: int, b: int): int { if a > b then a else b }

  /** How often something is counted that is there once or not at all. */
  function Once(b: bool): nat { if b then 1 else 0 }

  /** The first n items, if there are as many. */
  function Take<T>(items: seq<T>, n: int): seq<T> {
    if n <= 0 then [] else if n < |items| then items[..n] else items
  }
}
