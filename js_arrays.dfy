/** The JavaScript array built-ins the stores rely on, with their edge cases. */
module JsArrays {
  import opened Wrappers

  /** The largest length a JavaScript array can have, 2^32 - 1. */
  const MaxArrayLength := 0xFFFF_FFFF

  function Clamp(i: int, n: nat): (c: nat)
    ensures c <= n
    ensures 0 <= i <= n ==> c == i
    ensures i < 0 ==> c == 0
    ensures i > n ==> c == n
  {
    if i < 0 then 0 else if i > n then n else i
  }

  /** `Array.prototype.slice(start)`: a negative start counts from the end; out-of-range starts are clamped. */
  function SliceFrom<X>(s: seq<X>, start: int): (r: seq<X>)
    ensures start < 0 ==> r == s[Clamp(|s| + start, |s|)..]
    ensures start >= 0 ==> r == s[Clamp(start, |s|)..]
  {
    if start < 0 then s[Clamp(|s| + start, |s|)..] else s[Clamp(start, |s|)..]
  }

  /** `slice(-k)` for `k > 0` keeps the last `k` elements, or all of them when there are fewer. */
  lemma SliceLast<X>(s: seq<X>, k: nat)
    requires k > 0
    ensures |SliceFrom(s, -(k as int))| == Min(|s|, k)
    ensures SliceFrom(s, -(k as int)) == s[|s| - Min(|s|, k)..]
  {
  }

  /**
   * `Array.from({ length: count }, f)`: a negative length counts as 0, and a
   * length above `MaxArrayLength` throws a RangeError (here `None`).
   */
  function ArrayFrom<X>(count: int, f: nat -> X): (r: Option<seq<X>>)
    ensures r.None? <==> count > MaxArrayLength
    ensures r.Some? ==> |r.value| == Max(count, 0) && forall i :: 0 <= i < |r.value| ==> r.value[i] == f(i)
  {
    if count > MaxArrayLength then None
    else if count <= 0 then Some([])
    else Some(seq(count, i requires 0 <= i < count => f(i)))
  }
}
