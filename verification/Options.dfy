/** Shared value types: an optional value stands for Go's empty string or nil pointer. */
module Options {

  datatype Option<+T> = None | Some(value: T)

  datatype Result<+T, +E> = Ok(value: T) | Err(error: E)
}

/** Searching strings. */
module Strings {

  /** The first `c` in `s` at or after i, or the end. */
  function Find(s: string, c: char, i: nat): (r: nat)
    requires i <= |s|
    ensures i <= r <= |s| && (r < |s| ==> s[r] == c)
    ensures forall j :: i <= j < r ==> s[j] != c
    decreases |s| - i
  {
    if i == |s| || s[i] == c then i else Find(s, c, i + 1)
  }
}

/** How a failed create call is read, alike for worker pools and VPC instances. */
module CreateStatus {

  /** rejectedCreate: a definite refusal, after which nothing of the request can exist. */
  predicate RejectedStatus(code: int)
  {
    400 <= code < 500 && code != 408 && code != 409 && code != 429
  }
}
