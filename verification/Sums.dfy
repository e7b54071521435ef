/** Sums of finite sequences. */
module Sums {

  function Sum(xs: seq<real>): real {
    if xs == [] then 0.0 else xs[0] + Sum(xs[1..])
  }

  function Total(xs: seq<int>): int {
    if xs == [] then 0 else xs[0] + Total(xs[1..])
  }

  function Reals(ns: seq<int>): seq<real> {
    seq(|ns|, h requires 0 <= h < |ns| => ns[h] as real)
  }

  lemma {:induction false} SumAdd(xs: seq<real>, ys: seq<real>, zs: seq<real>)
    requires |xs| == |ys| == |zs| && forall i | 0 <= i < |xs| :: zs[i] == xs[i] + ys[i]
    ensures Sum(zs) == Sum(xs) + Sum(ys)
  {
    if xs != [] {
      SumAdd(xs[1..], ys[1..], zs[1..]);
    }
  }

  lemma {:induction false} SumScale(c: real, xs: seq<real>, ys: seq<real>)
    requires |xs| == |ys| && forall i | 0 <= i < |xs| :: ys[i] == c * xs[i]
    ensures Sum(ys) == c * Sum(xs)
  {
    if xs != [] {
      SumScale(c, xs[1..], ys[1..]);
      assert c * Sum(xs) == c * xs[0] + c * Sum(xs[1..]);
    }
  }

  function Scaled(c: real, xs: seq<real>): seq<real> {
    seq(|xs|, i requires 0 <= i < |xs| => Times(c, xs[i]))
  }

  /** A product, kept whole. */
  function Times(a: real, b: real): real { a * b }

  lemma SumScaled(c: real, xs: seq<real>)
    ensures Sum(Scaled(c, xs)) == Times(c, Sum(xs))
  {
    SumScale(c, xs, Scaled(c, xs));
  }

  lemma QuotientBound(rest: real, keyTotal: real, level: real)
    requires keyTotal > 0.0
    ensures rest <= level * keyTotal ==> rest / keyTotal <= level
    ensures rest >= level * keyTotal ==> rest / keyTotal >= level
  {
    var q := rest / keyTotal;
    assert q * keyTotal == rest;
    assert (level - q) * keyTotal == level * keyTotal - rest;
    assert (q - level) * keyTotal == rest - level * keyTotal;
    if rest <= level * keyTotal {
      Sign(level - q, keyTotal);
    }
    if rest >= level * keyTotal {
      Sign(q - level, keyTotal);
    }
  }

  lemma Sign(x: real, y: real)
    requires y > 0.0 && x * y >= 0.0
    ensures x >= 0.0
  {
  }

  lemma {:induction false} SumLe(xs: seq<real>, ys: seq<real>)
    requires |xs| == |ys| && forall i | 0 <= i < |xs| :: xs[i] <= ys[i]
    ensures Sum(xs) <= Sum(ys)
    ensures (exists i :: 0 <= i < |xs| && xs[i] < ys[i]) ==> Sum(xs) < Sum(ys)
  {
    if xs != [] {
      SumLe(xs[1..], ys[1..]);
      if i :| 0 <= i < |xs| && xs[i] < ys[i] {
        if i > 0 {
          assert xs[1..][i - 1] < ys[1..][i - 1];
        }
      }
    }
  }

  lemma {:induction false} SumOfInts(ns: seq<int>, xs: seq<real>)
    requires |ns| == |xs| && forall i | 0 <= i < |ns| :: xs[i] == ns[i] as real
    ensures Sum(xs) == Total(ns) as real
  {
    if ns != [] {
      SumOfInts(ns[1..], xs[1..]);
    }
  }

  lemma {:induction false} TotalUpdate(xs: seq<int>, h: nat, v: int)
    requires h < |xs|
    ensures Total(xs[h := v]) == Total(xs) - xs[h] + v
  {
    if h > 0 {
      assert xs[h := v][1..] == xs[1..][h - 1 := v];
      TotalUpdate(xs[1..], h - 1, v);
    }
  }

  lemma {:induction false} TotalAppend(xs: seq<int>, ys: seq<int>)
    ensures Total(xs + ys) == Total(xs) + Total(ys)
  {
    if xs == [] {
      assert xs + ys == ys;
    } else {
      assert (xs + ys)[1..] == xs[1..] + ys;
      TotalAppend(xs[1..], ys);
    }
  }

  lemma {:induction false} ZeroSum(xs: seq<real>)
    requires forall i | 0 <= i < |xs| :: xs[i] == 0.0
    ensures Sum(xs) == 0.0
  {
    if xs != [] {
      ZeroSum(xs[1..]);
    }
  }

  lemma {:induction false} ZeroTotal(xs: seq<int>)
    requires forall i | 0 <= i < |xs| :: xs[i] == 0
    ensures Total(xs) == 0
  {
    if xs != [] {
      ZeroTotal(xs[1..]);
    }
  }

  lemma {:induction false} TotalNonNegative(xs: seq<int>)
    requires forall i | 0 <= i < |xs| :: xs[i] >= 0
    ensures Total(xs) >= 0
  {
    if xs != [] {
      TotalNonNegative(xs[1..]);
    }
  }

  lemma {:induction false} TotalLe(xs: seq<int>, ys: seq<int>)
    requires |xs| == |ys| && forall i | 0 <= i < |xs| :: xs[i] <= ys[i]
    ensures Total(xs) <= Total(ys)
  {
    if xs != [] {
      TotalLe(xs[1..], ys[1..]);
    }
  }

  lemma {:induction false} TotalAdd(xs: seq<int>, ys: seq<int>, zs: seq<int>)
    requires |xs| == |ys| == |zs| && forall i | 0 <= i < |xs| :: zs[i] == xs[i] + ys[i]
    ensures Total(zs) == Total(xs) + Total(ys)
  {
    if xs != [] {
      TotalAdd(xs[1..], ys[1..], zs[1..]);
    }
  }
}
