/** Python's `sum(...)` over a list of integers, Python's clamping slice,
    and the front-nine / back-nine split of a scorecard. */
module Sums {

  function Min(a: int, b: int): int { if a <= b then a else b }

  /** `sum(s)` */
  function Sum(s: seq<int>): int {
    if s == [] then 0 else s[0] + Sum(s[1..])
  }

  /** Summing a concatenation is summing the parts. */
  lemma {:induction false} SumAppend(a: seq<int>, b: seq<int>)
    ensures Sum(a + b) == Sum(a) + Sum(b)
  {
    if a == [] {
      assert a + b == b;
    } else {
      assert (a + b)[1..] == a[1..] + b;
      SumAppend(a[1..], b);
    }
  }

  /** When every element lies in `[lo, hi]`, the sum of `n` elements lies
      in `[lo * n, hi * n]`. */
  lemma {:induction false} SumBounds(s: seq<int>, lo: int, hi: int)
    requires forall i :: 0 <= i < |s| ==> lo <= s[i] <= hi
    ensures lo * |s| <= Sum(s) <= hi * |s|
  {
    if s != [] {
      SumBounds(s[1..], lo, hi);
    }
  }

  /** Python's `s[lo:hi]` for non-negative bounds: bounds past the end
      are clamped, and a slice whose start is past its end is empty. */
  function Slice<T>(s: seq<T>, lo: nat, hi: nat): (r: seq<T>)
    ensures lo <= hi ==> |r| == Min(hi, |s|) - Min(lo, |s|)
    ensures forall k :: 0 <= k < |r| ==> lo + k < |s| && r[k] == s[lo + k]
  {
    var a := Min(lo, |s|);
    var b := Min(hi, |s|);
    if a <= b then s[a..b] else []
  }

  /** `holes[:9]`, the holes summed into OUT. */
  function FrontNine<T>(s: seq<T>): seq<T> { Slice(s, 0, 9) }

  /** `holes[9:18]`, the holes summed into IN. */
  function BackNine<T>(s: seq<T>): seq<T> { Slice(s, 9, 18) }

  /** OUT + IN covers every hole but those past the eighteenth; for any
      list the rest of the total comes from `s[18:]`. */
  lemma {:induction false} NinesCoverTotal(s: seq<int>)
    ensures Sum(FrontNine(s)) + Sum(BackNine(s)) + Sum(Slice(s, 18, |s|)) == Sum(s)
  {
    var a := Min(9, |s|);
    var b := Min(18, |s|);
    assert FrontNine(s) == s[..a];
    assert BackNine(s) == s[a..b];
    assert Slice(s, 18, |s|) == s[b..];
    assert s == s[..a] + s[a..b] + s[b..];
    SumAppend(s[..a] + s[a..b], s[b..]);
    SumAppend(s[..a], s[a..b]);
  }

  /** On a list of at most eighteen holes, OUT + IN == TOT. */
  lemma {:induction false} OutPlusInIsTotal(s: seq<int>)
    requires |s| <= 18
    ensures Sum(FrontNine(s)) + Sum(BackNine(s)) == Sum(s)
  {
    NinesCoverTotal(s);
    assert Slice(s, 18, |s|) == [];
  }
}
