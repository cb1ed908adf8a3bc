/** Python's sequence slicing and `str.find`, which the demos use to cut
    fields out of list-item text and numpy rows. */
module PyText {

  /** A value, or Python's `None`. */
  datatype Option<+T> = None | Some(value: T)

  /** The bound Python uses for one end of a slice `s[i:j]` over a sequence of
      length n: a negative bound counts from the end, then the value is
      clamped into 0..n. */
  function SliceBound(i: int, n: nat): (b: nat)
    ensures b <= n
    ensures 0 <= i ==> b == if i <= n then i else n
    ensures i < 0 ==> b == if -i <= n then n + i else 0
  {
    if i < 0 then (if n + i < 0 then 0 else n + i)
    else if i > n then n
    else i
  }

  /** `s[i:j]` with Python's bounds; an empty result when the bounds cross. */
  function Slice<T>(s: seq<T>, i: int, j: int): (r: seq<T>)
    ensures |r| <= |s|
    ensures 0 <= i <= j <= |s| ==> r == s[i..j]
  {
    var a, b := SliceBound(i, |s|), SliceBound(j, |s|);
    if a < b then s[a..b] else []
  }

  /** `s[-k:]` is the last k elements when 0 < k <= |s|; because `-0` is `0`,
      `s[-0:]` is the whole sequence, as is `s[-k:]` for k beyond the length. */
  lemma NegativeStartSlicesTail<T>(s: seq<T>, k: nat)
    ensures 0 < k <= |s| ==> Slice(s, -(k as int), |s|) == s[|s| - k..]
    ensures k == 0 || k >= |s| ==> Slice(s, -(k as int), |s|) == s
  {
  }

  /** `pat` occurs in `s` starting at position q. */
  predicate OccursAt<T(==)>(s: seq<T>, pat: seq<T>, q: int)
  {
    0 <= q && q + |pat| <= |s| && s[q..q + |pat|] == pat
  }

  predicate Contains<T(==)>(s: seq<T>, pat: seq<T>)
  {
    exists q | 0 <= q <= |s| :: OccursAt(s, pat, q)
  }

  /** The search of `str.find` from position q on. */
  function FindFrom<T(==)>(s: seq<T>, pat: seq<T>, q: nat): (r: int)
    requires q <= |s| + 1
    ensures r == -1 || (q <= r && OccursAt(s, pat, r))
    ensures forall p :: q <= p && (r == -1 || p < r) ==> !OccursAt(s, pat, p)
    decreases |s| + 1 - q
  {
    if q + |pat| > |s| then -1
    else if s[q..q + |pat|] == pat then q
    else FindFrom(s, pat, q + 1)
  }

  /** `s.find(pat)`: the first position where `pat` occurs in `s`, or -1. */
  function Find<T(==)>(s: seq<T>, pat: seq<T>): (r: int)
    ensures r == -1 <==> !Contains(s, pat)
    ensures r != -1 ==> OccursAt(s, pat, r) && forall q :: 0 <= q < r ==> !OccursAt(s, pat, q)
  {
    FindFrom(s, pat, 0)
  }

  /** An occurrence with none before it is what `find` returns. */
  lemma FindAt<T>(s: seq<T>, pat: seq<T>, p: int)
    requires OccursAt(s, pat, p)
    requires forall q :: 0 <= q < p ==> !OccursAt(s, pat, q)
    ensures Find(s, pat) == p
  {
    assert Contains(s, pat);
  }

  /** A position of the window [q, q + |pat|) that disagrees with `pat`
      rules out an occurrence at q. */
  lemma MismatchRulesOut<T>(s: seq<T>, pat: seq<T>, q: int, j: int)
    requires 0 <= q <= j < q + |pat| && j < |s|
    requires s[j] != pat[j - q]
    ensures !OccursAt(s, pat, q)
  {
  }

  /** A window that lies inside the part `mid` of `pre + mid + post` is an
      occurrence in `s` only if it is one in `mid`. */
  lemma InsidePart<T>(pre: seq<T>, mid: seq<T>, post: seq<T>, pat: seq<T>, q: int)
    requires |pre| <= q && q + |pat| <= |pre| + |mid|
    requires !Contains(mid, pat)
    ensures !OccursAt(pre + mid + post, pat, q)
  {
    var s := pre + mid + post;
    if OccursAt(s, pat, q) {
      assert s[q..q + |pat|] == mid[q - |pre|..q - |pre| + |pat|];
      assert OccursAt(mid, pat, q - |pre|);
    }
  }

  function DigitChar(d: nat): char
    requires d < 10
  {
    "0123456789"[d]
  }

  function NatToString(n: nat): string
    decreases n
  {
    if n < 10 then [DigitChar(n)] else NatToString(n / 10) + [DigitChar(n % 10)]
  }

  /** `str(i)` of a Python int. */
  function IntToString(i: int): string
  {
    if i < 0 then "-" + NatToString(-i) else NatToString(i)
  }
}
