/** What every model here uses. */
module Basics {

  datatype Option<T> = None | Some(value: T)

  function Min(a: int, b: int): int { if a <= b then a else b }
  function Max(a: int, b: int): int { if a <= b then b else a }
  function MaxReal(a: real, b: real): real { if a < b then b else a }

  ghost predicate Distinct<T(!new)>(s: seq<T>) { forall i: nat, j: nat | i < j < |s| :: s[i] != s[j] }
}
