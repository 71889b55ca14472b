/** Sums and element-wise scaling of sequences of reals, shared by every weight normalisation. */
module RealSeq {

  /** Sum of a sequence, accumulated from the left as Python's sum() does. */
  function Sum(s: seq<real>): real
  {
    if s == [] then 0.0 else Sum(s[..|s| - 1]) + s[|s| - 1]
  }

  /** Every element multiplied by c. */
  function Scale(s: seq<real>, c: real): (r: seq<real>)
    ensures |r| == |s|
    ensures forall i :: 0 <= i < |s| ==> r[i] == s[i] * c
  {
    seq(|s|, i requires 0 <= i < |s| => s[i] * c)
  }

  /** Every element divided by d (numpy's `weights / weights.sum()` once d is known to be nonzero). */
  function DivideAll(s: seq<real>, d: real): (r: seq<real>)
    requires d != 0.0
    ensures |r| == |s|
    ensures forall i :: 0 <= i < |s| ==> r[i] == s[i] / d
  {
    seq(|s|, i requires 0 <= i < |s| => s[i] / d)
  }

  predicate NonNegative(s: seq<real>)
  {
    forall i :: 0 <= i < |s| ==> s[i] >= 0.0
  }

  /** Extending a sequence by one element extends its sum by that element. */
  lemma SumSnoc(s: seq<real>, x: real)
    ensures Sum(s + [x]) == Sum(s) + x
  {
    assert (s + [x])[..|s|] == s;
  }

  lemma {:induction false} SumAppend(a: seq<real>, b: seq<real>)
    ensures Sum(a + b) == Sum(a) + Sum(b)
    decreases |b|
  {
    if b == [] {
      assert a + b == a;
    } else {
      var b' := b[..|b| - 1];
      assert a + b == (a + b') + [b[|b| - 1]];
      SumSnoc(a + b', b[|b| - 1]);
      SumAppend(a, b');
      SumSnoc(b', b[|b| - 1]);
      assert b' + [b[|b| - 1]] == b;
    }
  }

  /** Scaling every element scales the sum by the same factor. */
  lemma {:induction false} SumScale(s: seq<real>, c: real)
    ensures Sum(Scale(s, c)) == Sum(s) * c
    decreases |s|
  {
    if s != [] {
      var s', x := s[..|s| - 1], s[|s| - 1];
      assert |Scale(s, c)[..|s| - 1]| == |Scale(s', c)|;
      assert forall k :: 0 <= k < |s'| ==> Scale(s, c)[..|s| - 1][k] == Scale(s', c)[k];
      assert Scale(s, c)[..|s| - 1] == Scale(s', c);
      SumScale(s', c);
      calc {
        Sum(Scale(s, c));
        Sum(Scale(s', c)) + x * c;
        Sum(s') * c + x * c;
        (Sum(s') + x) * c;
        Sum(s) * c;
      }
    }
  }

  /** Dividing every element by d divides the sum by d. */
  lemma {:induction false} SumDivideAll(s: seq<real>, d: real)
    requires d != 0.0
    ensures Sum(DivideAll(s, d)) == Sum(s) / d
    decreases |s|
  {
    if s != [] {
      var s', x := s[..|s| - 1], s[|s| - 1];
      assert DivideAll(s, d)[..|s| - 1] == DivideAll(s', d);
      SumDivideAll(s', d);
      calc {
        Sum(DivideAll(s, d));
        Sum(DivideAll(s', d)) + x / d;
        Sum(s') / d + x / d;
        (Sum(s') + x) / d;
        Sum(s) / d;
      }
    }
  }

  /** Normalising by the sum makes the elements sum to exactly 1. */
  lemma NormalisedSumsToOne(s: seq<real>)
    requires Sum(s) != 0.0
    ensures Sum(DivideAll(s, Sum(s))) == 1.0
  {
    var t := Sum(s);
    SumDivideAll(s, t);
    assert t / t == 1.0;
  }

  /** The sum of non-negative reals is non-negative. */
  lemma {:induction false} SumNonNegative(s: seq<real>)
    requires NonNegative(s)
    ensures Sum(s) >= 0.0
    decreases |s|
  {
    if s != [] {
      SumNonNegative(s[..|s| - 1]);
    }
  }

  /** Replacing one element changes the sum by the difference. */
  lemma {:induction false} SumUpdate(s: seq<real>, i: nat, x: real)
    requires i < |s|
    ensures Sum(s[i := x]) == Sum(s) - s[i] + x
    decreases |s|
  {
    var n := |s| - 1;
    assert s[i := x][..n] == if i == n then s[..n] else s[..n][i := x];
    if i < n {
      SumUpdate(s[..n], i, x);
    }
  }

  /** The sum splits around any one element. */
  lemma {:induction false} SumAround(s: seq<real>, i: nat)
    requires i < |s|
    ensures Sum(s[..i] + s[i + 1..]) == Sum(s) - s[i]
  {
    var before, after := s[..i], s[i + 1..];
    assert s == (before + [s[i]]) + after;
    SumAppend(before + [s[i]], after);
    SumSnoc(before, s[i]);
    SumAppend(before, after);
  }

  lemma QuotientNonNegative(x: real, d: real)
    requires x >= 0.0 && d > 0.0
    ensures x / d >= 0.0
  {
  }

  lemma QuotientTimesDivisor(x: real, d: real)
    requires d != 0.0
    ensures (x / d) * d == x
  {
  }
}
