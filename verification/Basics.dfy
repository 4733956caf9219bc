/** Small value types shared by every module of the model. */
module Basics {

  datatype Option<+T> = None | Some(value: T)

  datatype Result<+T, +E> = Ok(value: T) | Err(error: E)

  /** A collision-free digest: two digests are equal exactly when their payloads are. */
  datatype Digest<+T> = DigestOf(payload: T)

  /** Clock readings, in seconds. Every clock is an input of the model. */
  type Time = int

  /** The sequence 1, 2, ..., n. */
  function UpTo(n: nat): (s: seq<nat>)
    ensures |s| == n && forall i :: 0 <= i < n ==> s[i] == i + 1
  {
    seq(n, i => i + 1)
  }

  lemma UpToSnoc(n: nat)
    ensures UpTo(n + 1) == UpTo(n) + [n + 1]
  {
  }
}
