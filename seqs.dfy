/** Sequence helpers: prefixes as produced by a listing `limit` and by
    Python's `s[:k]` slice. */
module Seqs {

  /** The first `n` elements of `s`, or all of `s` when it is shorter. */
  function Take<T>(s: seq<T>, n: nat): (r: seq<T>)
    ensures |r| == if |s| < n then |s| else n
    ensures r == s[..|r|]
  {
    if |s| < n then s else s[..n]
  }

  /** `max(n, 0)`: a count limit, where a negative limit admits nothing. */
  function Cap(n: int): (r: nat)
    ensures n >= 0 ==> r == n
    ensures n < 0 ==> r == 0
  {
    if n < 0 then 0 else n
  }

  /** Python's `s[:k]`: a negative `k` drops `-k` elements from the end. */
  function PyPrefix<T>(s: seq<T>, k: int): (r: seq<T>)
    ensures 0 <= k ==> r == Take(s, k)
    ensures k < 0 ==> r == Take(s, Cap(|s| + k))
  {
    if k >= 0 then Take(s, k) else Take(s, Cap(|s| + k))
  }
}
