/** Shared value types: optional values and the outcome of a service
    operation, which either yields a value or fails with one of the
    HTTP exceptions the services throw. */
module Common {

  type SupplyId = string
  type PlantId = string
  type OrderId = string
  type UserId = string

  datatype Option<+T> = None | Some(value: T)

  /** The error classes the services raise: NotFoundException,
      BadRequestException, and the uncaught TypeError that the web layer
      reports as an internal server error. */
  datatype Error = NotFound | BadRequest | Internal

  datatype Result<+T> = Ok(value: T) | Err(error: Error)

  /** `Array.prototype.find` on a key that is known to be present: the
      position of the first occurrence of `x` in `s`. */
  function FirstIndex<T(==)>(s: seq<T>, x: T): (i: nat)
    requires x in s
    ensures i < |s| && s[i] == x
    ensures x !in s[..i]
  {
    if s[0] == x then 0 else 1 + FirstIndex(s[1..], x)
  }

  /** In a sequence without repetitions, the first occurrence of an
      element is its only one. */
  lemma FirstIndexOfDistinct<T>(s: seq<T>, i: nat)
    requires i < |s|
    requires forall a, b :: 0 <= a < b < |s| ==> s[a] != s[b]
    ensures FirstIndex(s, s[i]) == i
  {
  }
}
