/** Small shared vocabulary: optional values, client-side view of an HTTP reply, and list slicing. */
module Common {

  /** A value that may be absent (Python `None`, JavaScript `null`/`undefined`). */
  datatype Option<T> = None | Some(value: T) {
    function GetOr(default: T): T {
      if Some? then value else default
    }
  }

  /** What a client sees of one HTTP call: the response body, or a failure
      (an HTTP error status, or 0 for a network error). */
  datatype Result<T> = Ok(value: T) | Failure(status: nat)

  function Min(a: int, b: int): int {
    if a <= b then a else b
  }

  /** The first `n` elements of `s` (`cursor.to_list(n)`, `array.slice(0, n)`). */
  function Take<T>(s: seq<T>, n: nat): (r: seq<T>)
    ensures |r| == Min(|s|, n) && r <= s
  {
    if |s| <= n then s else s[..n]
  }
}
