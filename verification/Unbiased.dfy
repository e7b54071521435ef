/** The stratified estimate over every sample that an allocation can draw (measurement/vvr.py): its average
    is the true rate, and its reported variance is, on average, how far it is off. */
module Unbiasedness {
  import opened Prelude
  import opened Sums
  import opened WaterFilling
  import opened Allocations
  import opened Sampling
  import opened Estimator
  import opened Drawing

  /** One stratum as it is measured when this was drawn from it and read without error. */
  function StratumOf(f: Frame, h: nat, d: seq<nat>): Stratum {
    Stratum(|Positions(f.bands, h)|, |d|, Found(f.violative, d))
  }

  function TermOf(f: Frame, h: nat, d: seq<nat>): real
    requires Valid(f)
  {
    PointTerm(StratumOf(f, h, d), |f.bands|)
  }

  /** The violative views of one stratum, as a share of all views. */
  function ShareOf(f: Frame, h: nat): real
    requires Valid(f)
  {
    Times(Unit(|f.bands|), Hits(f, |f.bands|, h) as real)
  }

  /** What each stratum adds to the estimate, ... */
  function Terms(f: Frame): Valuation
    requires Valid(f)
  {
    (h: nat, d: seq<nat>) => TermOf(f, h, d)
  }

  /** ... how far that is off, ... */
  function Errors(f: Frame): Valuation
    requires Valid(f)
  {
    (h: nat, d: seq<nat>) => TermOf(f, h, d) - ShareOf(f, h)
  }

  /** ... and what it adds to the reported variance. */
  function Variances(f: Frame): Valuation
    requires Valid(f)
  {
    (h: nat, d: seq<nat>) => VarianceTerm(StratumOf(f, h, d), |f.bands|)
  }

  // ------------------------------------------------------------------
  // One stratum on average
  // ------------------------------------------------------------------

  lemma HitsAreFound(f: Frame, h: nat)
    requires Valid(f)
    ensures Hits(f, |f.bands|, h) == Found(f.violative, Positions(f.bands, h)) <= |Positions(f.bands, h)|
  {
    assert f.bands[..|f.bands|] == f.bands;
    PositionsAre(f.bands, h);
    FoundIsCount(f.violative, Positions(f.bands, h));
    HitsWithin(f, h);
  }

  // Values that depend on what a draw found as a quadratic does.
  ghost predicate Quadratic(truth: seq<bool>, ds: seq<seq<nat>>, xs: seq<real>, a: real, b: real, c: real) {
    |xs| == |ds| &&
    forall k | 0 <= k < |ds| ::
      xs[k] == Times(a, Pairs(truth, ds[k]) as real) + Times(b, Found(truth, ds[k]) as real) + c
  }

  lemma {:induction false} QuadraticSum(truth: seq<bool>, ds: seq<seq<nat>>, xs: seq<real>, a: real, b: real, c: real)
    requires Quadratic(truth, ds, xs, a, b, c)
    ensures Sum(xs) == Times(a, Total(PairsIn(truth, ds)) as real) + Times(b, Total(FoundIn(truth, ds)) as real)
                       + Times(|ds| as real, c)
  {
    hide Found, Pairs;
    if ds != [] {
      assert PairsIn(truth, ds)[1..] == PairsIn(truth, ds[1..]) && FoundIn(truth, ds)[1..] == FoundIn(truth, ds[1..]);
      QuadraticSum(truth, ds[1..], xs[1..], a, b, c);
      hide PairsIn, FoundIn, Times;
      Linear(a, Pairs(truth, ds[0]), Total(PairsIn(truth, ds[1..])));
      Linear(b, Found(truth, ds[0]), Total(FoundIn(truth, ds[1..])));
      Counted(|ds| - 1, c);
    } else {
      Counted(0, c);
    }
  }

  lemma Linear(a: real, x: int, y: int)
    ensures Times(a, (x + y) as real) == Times(a, x as real) + Times(a, y as real)
  {
    assert (x + y) as real == x as real + y as real;
  }

  lemma Counted(n: nat, c: real)
    ensures Times((n + 1) as real, c) == c + Times(n as real, c)
    ensures Times(0 as real, c) == Times(c, 0 as real) == 0.0
  {
  }

  // What a view weighs in its stratum's term, for a sample of n.
  function PerView(members: nat, n: nat, size: nat): real
    requires n > 0 && size > 0
  {
    Weight(Stratum(members, n, 0), size) / n as real
  }

  lemma OneTerm(members: nat, n: nat, found: nat, size: nat)
    requires n > 0 && size > 0
    ensures PointTerm(Stratum(members, n, found), size) == Times(PerView(members, n, size), found as real)
  {
    var w, m, c := Weight(Stratum(members, n, 0), size), n as real, found as real;
    assert Weight(Stratum(members, n, found), size) == w;
    Reorder(w, m, c);
  }

  lemma Reorder(w: real, m: real, c: real)
    requires m > 0.0
    ensures w * (c / m) == (w / m) * c
  {
    var q, r := w / m, c / m;
    assert q * m == w && r * m == c;
    assert w * r == q * (m * r);
  }

  /** Whatever is asked of a stratum, on average over its draws it adds its violative views' share. */
  lemma StratumAverage(f: Frame, h: nat, n: nat)
    requires Valid(f) && n <= |Positions(f.bands, h)| && (|Positions(f.bands, h)| > 0 ==> n > 0)
    ensures var ds := Draws(Positions(f.bands, h), n);
            Sum(Values(Terms(f), h, ds)) == Times(|ds| as real, ShareOf(f, h))
  {
    var a, size := Positions(f.bands, h), |f.bands|;
    var ds, hits := Draws(a, n), Hits(f, size, h);
    HitsAreFound(f, h);
    if n == 0 {
      assert Values(Terms(f), h, ds) == [0.0];
      NothingThere(size);
    } else {
      DrawsNumber(a, n);
      DrawsFind(f.violative, a, n);
      var each, q := Falling(|a| - 1, n - 1), PerView(|a|, n, size);
      TermsAre(f, h, n);
      hide Positions, Hits, Draws, Falling, TermOf, PerView, Times, Found;
      SumScaled(q, Reals(FoundIn(f.violative, ds)));
      SumOfInts(FoundIn(f.violative, ds), Reals(FoundIn(f.violative, ds)));
      Rescaled(|a|, n, hits, each, size);
    }
  }

  lemma NothingThere(size: nat)
    requires size > 0
    ensures Times(1 as real, Times(Unit(size), 0 as real)) == 0.0
  {
  }

  lemma TermAt(f: Frame, h: nat, n: nat, k: nat)
    requires Valid(f) && 0 < n && k < |Draws(Positions(f.bands, h), n)|
    ensures var d := Draws(Positions(f.bands, h), n)[k];
            |d| == n && TermOf(f, h, d) == Times(PerView(|Positions(f.bands, h)|, n, |f.bands|), Found(f.violative, d) as real)
  {
    DrawLength(Positions(f.bands, h), n, k);
    OneTerm(|Positions(f.bands, h)|, n, Found(f.violative, Draws(Positions(f.bands, h), n)[k]), |f.bands|);
  }

  lemma TermsAre(f: Frame, h: nat, n: nat)
    requires Valid(f) && 0 < n
    ensures var a := Positions(f.bands, h);
            Values(Terms(f), h, Draws(a, n))
            == Scaled(PerView(|a|, n, |f.bands|), Reals(FoundIn(f.violative, Draws(a, n))))
  {
    var ds := Draws(Positions(f.bands, h), n);
    hide Positions, PerView, TermOf, Times, Found;
    forall k: nat | k < |ds|
      ensures Values(Terms(f), h, ds)[k]
           == Times(PerView(|Positions(f.bands, h)|, n, |f.bands|), Found(f.violative, ds[k]) as real)
    {
      TermAt(f, h, n, k);
    }
  }

  lemma Rescaled(members: nat, n: nat, hits: nat, each: nat, size: nat)
    requires n > 0 && size > 0
    ensures Times(PerView(members, n, size), (n * (hits * each)) as real)
         == Times((members * each) as real, Times(Unit(size), hits as real))
  {
    var m, c, e, s := n as real, hits as real, each as real, size as real;
    var w, u := members as real / s, 1.0 / s;
    var q := w / m;
    assert q * m == w && w == members as real * u;
    assert (n * (hits * each)) as real == m * (c * e) && (members * each) as real == members as real * e;
    assert q * (m * (c * e)) == w * (c * e);
    RegroupFour(members as real, u, c, e);
  }

  lemma RegroupFour(a: real, u: real, c: real, e: real)
    ensures (a * u) * (c * e) == (a * e) * (u * c)
  {
    assert (a * u) * (c * e) == a * (u * (c * e)) && u * (c * e) == e * (u * c);
  }

  // ------------------------------------------------------------------
  // How far one stratum is off
  // ------------------------------------------------------------------

  /** The variance of a stratum's term under sampling without replacement:
      W^2 (1 - n/N) P (1 - P) N / ((N - 1) n), with P its true rate. */
  function Dispersion(members: nat, n: nat, hits: nat, size: nat): real
    requires size > 0
  {
    if n == 0 || members <= 1 then 0.0
    else
      var (m, k, c) := (members as real, n as real, hits as real);
      Times(Times(Unit(size), Unit(size)), c * (m - c) * (m - k) / (k * (m - 1.0)))
  }

  lemma {:induction false} SquaresAre(truth: seq<bool>, ds: seq<seq<nat>>, xs: seq<real>, q: real, s: real)
    requires |xs| == |ds| && forall k | 0 <= k < |ds| :: xs[k] == Times(q, Found(truth, ds[k]) as real) - s
    ensures Quadratic(truth, ds, Squares(xs), Times(q, q), Times(q, q) - 2.0 * Times(q, s), Times(s, s))
  {
    forall k | 0 <= k < |ds|
      ensures Squares(xs)[k] == Times(Times(q, q), Pairs(truth, ds[k]) as real)
                                + Times(Times(q, q) - 2.0 * Times(q, s), Found(truth, ds[k]) as real) + Times(s, s)
    {
      hide Found;
      SquareOf(q, Found(truth, ds[k]), s);
    }
  }

  lemma SquareOf(q: real, c: int, s: real)
    ensures Times(Times(q, c as real) - s, Times(q, c as real) - s)
         == Times(Times(q, q), (c * (c - 1)) as real) + Times(Times(q, q) - 2.0 * Times(q, s), c as real) + Times(s, s)
  {
    var x := c as real;
    assert (c * (c - 1)) as real == x * x - x;
    assert (q * x - s) * (q * x - s) == (q * q) * (x * x) - 2.0 * (q * s) * x + s * s;
    assert (q * q) * (x * x - x) == (q * q) * (x * x) - (q * q) * x;
  }

  lemma Cancel(x: real, y: real, k: real)
    requires k > 0.0 && x * k == y * k
    ensures x == y
  {
    assert (x - y) * k == 0.0;
  }

  lemma QuotientIs(x: real, d: real, y: real)
    requires d > 0.0 && x == y / d
    ensures x * d == y
  {
  }

  // What all draws of k >= 2 out of m find of c: pairs and single views; and how many draws there are.
  function PairTotal(k: real, c: real, g: real): real { k * (k - 1.0) * (c * (c - 1.0) * g) }

  function FoundTotal(m: real, k: real, c: real, g: real): real { k * (c * ((m - 1.0) * g)) }

  function DrawTotal(m: real, g: real): real { m * ((m - 1.0) * g) }

  // The three parts of a stratum's summed squares, and what each comes to when q k == m u and s == u c.
  function PairPart(k: real, c: real, g: real, q: real): real {
    Times(Times(q, q), PairTotal(k, c, g))
  }

  function FoundPart(m: real, k: real, c: real, g: real, q: real, s: real): real {
    Times(Times(q, q) - 2.0 * Times(q, s), FoundTotal(m, k, c, g))
  }

  function FixedPart(m: real, g: real, s: real): real { Times(DrawTotal(m, g), Times(s, s)) }

  function PairNumber(m: real, k: real, c: real): real { m * m * ((k - 1.0) * (c * (c - 1.0))) }

  function FoundNumber(m: real, k: real, c: real): real { (m * m - 2.0 * (k * (m * c))) * (c * (m - 1.0)) }

  function FixedNumber(m: real, k: real, c: real): real { m * (m - 1.0) * (c * c) * k }

  // What both come to, n times over.
  function Target(m: real, k: real, c: real, g: real, u: real): real {
    Times(g * (u * u), m * c * (m - c) * (m - k))
  }

  lemma SpreadNumbers(m: real, k: real, c: real, g: real, u: real, q: real, s: real)
    requires q * k == m * u && s == u * c
    ensures Times(PairPart(k, c, g, q) + FoundPart(m, k, c, g, q, s) + FixedPart(m, g, s), k)
         == Target(m, k, c, g, u)
  {
    PairNumberIs(m, k, c, g, u, q);
    FoundNumberIs(m, k, c, g, u, q, s);
    FixedNumberIs(m, k, c, g, u, s);
    Polynomial(m, k, c);
    hide PairPart, FoundPart, FixedPart, PairNumber, FoundNumber, FixedNumber, Times;
    ThreeParts(PairPart(k, c, g, q), FoundPart(m, k, c, g, q, s), FixedPart(m, g, s), k, g * (u * u),
               PairNumber(m, k, c), FoundNumber(m, k, c), FixedNumber(m, k, c));
  }

  lemma PairNumberIs(m: real, k: real, c: real, g: real, u: real, q: real)
    requires q * k == m * u
    ensures Times(PairPart(k, c, g, q), k) == Times(g * (u * u), PairNumber(m, k, c))
  {
    var w, p := q * k, (k - 1.0) * (c * (c - 1.0));
    assert PairTotal(k, c, g) == k * (p * g);
    assert Times(PairPart(k, c, g, q), k) == ((q * q) * (k * (p * g))) * k;
    assert ((q * q) * (k * (p * g))) * k == (w * w) * (g * p);
    assert w * w == (m * m) * (u * u);
    Swap(m * m, u * u, g, p);
  }

  lemma FoundNumberIs(m: real, k: real, c: real, g: real, u: real, q: real, s: real)
    requires q * k == m * u && s == u * c
    ensures Times(FoundPart(m, k, c, g, q, s), k) == Times(g * (u * u), FoundNumber(m, k, c))
  {
    var p, x, y := c * (m - 1.0), q * q - 2.0 * (q * s), m * m - 2.0 * (k * (m * c));
    SquareAndCross(m, k, c, u, q, s, x, y);
    assert FoundTotal(m, k, c, g) == k * (p * g);
    assert FoundPart(m, k, c, g, q, s) == Times(x, k * (p * g));
    assert FoundNumber(m, k, c) == y * p;
    hide FoundPart, FoundNumber, FoundTotal, Times;
    Shuffle(x, k, p, g, y, u * u);
  }

  lemma Shuffle(x: real, k: real, p: real, g: real, y: real, uu: real)
    requires Times(x, k * k) == Times(y, uu)
    ensures Times(Times(x, k * (p * g)), k) == Times(g * uu, y * p)
  {
    assert (x * (k * (p * g))) * k == (x * (k * k)) * (g * p);
    Swap(y, uu, g, p);
  }

  lemma SquareAndCross(m: real, k: real, c: real, u: real, q: real, s: real, x: real, y: real)
    requires q * k == m * u && s == u * c
    requires x == q * q - 2.0 * (q * s) && y == m * m - 2.0 * (k * (m * c))
    ensures Times(x, k * k) == Times(y, u * u)
  {
    var w := q * k;
    assert (q * q) * (k * k) == w * w == (m * m) * (u * u);
    assert (q * s) * (k * k) == k * (w * s) == (k * (m * c)) * (u * u);
  }

  lemma FixedNumberIs(m: real, k: real, c: real, g: real, u: real, s: real)
    requires s == u * c
    ensures Times(FixedPart(m, g, s), k) == Times(g * (u * u), FixedNumber(m, k, c))
  {
    assert s * s == (c * c) * (u * u);
  }

  lemma Swap(a: real, b: real, g: real, p: real)
    ensures (a * b) * (g * p) == (g * b) * (a * p)
  {
  }

  lemma ThreeParts(f: real, s: real, t: real, k: real, x: real, a: real, b: real, c: real)
    requires Times(f, k) == Times(x, a) && Times(s, k) == Times(x, b) && Times(t, k) == Times(x, c)
    ensures Times(f + s + t, k) == Times(x, a + b + c)
  {
  }

  lemma Polynomial(m: real, k: real, c: real)
    ensures PairNumber(m, k, c) + FoundNumber(m, k, c) + FixedNumber(m, k, c) == m * c * (m - c) * (m - k)
  {
  }

  // The draws of n >= 2 out of m, each weighing the same.
  lemma DispersionOver(m: nat, n: nat, hits: nat, g: nat, size: nat)
    requires 2 <= n <= m && size > 0
    ensures var (x, k, c) := (m as real, n as real, hits as real);
            Times(Times((m * ((m - 1) * g)) as real, Dispersion(m, n, hits, size)), k)
            == Target(x, k, c, g as real, Unit(size))
  {
    var (x, k, c) := (m as real, n as real, hits as real);
    var e, uu := g as real, Unit(size) * Unit(size);
    var z := c * (x - c) * (x - k) / (k * (x - 1.0));
    QuotientIs(z, k * (x - 1.0), c * (x - c) * (x - k));
    assert (m * ((m - 1) * g)) as real == x * ((x - 1.0) * e);
    assert Dispersion(m, n, hits, size) == uu * z;
    hide Dispersion, Unit;
    Gather(x, x - 1.0, e, uu, z, k);
    var top := c * (x - c) * (x - k);
    assert x * top == x * c * (x - c) * (x - k);
  }

  lemma Gather(x: real, y: real, e: real, uu: real, z: real, k: real)
    ensures (x * (y * e)) * (uu * z) * k == (e * uu) * (x * (z * (k * y)))
  {
  }

  lemma SpreadOfMany(m: nat, n: nat, hits: nat, g: nat, size: nat)
    requires 2 <= n <= m && size > 0
    ensures var (q, s) := (PerView(m, n, size), Times(Unit(size), hits as real));
            Times(Times(q, q), (n * (n - 1) * (hits * (hits - 1) * g)) as real)
            + Times(Times(q, q) - 2.0 * Times(q, s), (n * (hits * ((m - 1) * g))) as real)
            + Times((m * ((m - 1) * g)) as real, Times(s, s))
            == Times((m * ((m - 1) * g)) as real, Dispersion(m, n, hits, size))
  {
    var (q, s, u) := (PerView(m, n, size), Times(Unit(size), hits as real), Unit(size));
    var (x, k, c, e) := (m as real, n as real, hits as real, g as real);
    QuotientIs(q, k, Weight(Stratum(m, n, 0), size));
    WeightIs(m, n, size);
    SpreadNumbers(x, k, c, e, u, q, s);
    DispersionOver(m, n, hits, g, size);
    PartsAre(m, n, hits, g, q, s);
    var parts := PairPart(k, c, e, q) + FoundPart(x, k, c, e, q, s) + FixedPart(x, e, s);
    hide Dispersion, PerView, Unit, Times, PairPart, FoundPart, FixedPart, Target;
    CancelTimes(parts, Times((m * ((m - 1) * g)) as real, Dispersion(m, n, hits, size)), k);
  }

  lemma CancelTimes(x: real, y: real, k: real)
    requires k > 0.0 && Times(x, k) == Times(y, k)
    ensures x == y
  {
    Cancel(x, y, k);
  }

  lemma PartsAre(m: nat, n: nat, hits: nat, g: nat, q: real, s: real)
    ensures var (x, k, c, e) := (m as real, n as real, hits as real, g as real);
            && Times(Times(q, q), (n * (n - 1) * (hits * (hits - 1) * g)) as real) == PairPart(k, c, e, q)
            && Times(Times(q, q) - 2.0 * Times(q, s), (n * (hits * ((m - 1) * g))) as real) == FoundPart(x, k, c, e, q, s)
            && Times((m * ((m - 1) * g)) as real, Times(s, s)) == FixedPart(x, e, s)
  {
    AsReals(m, n, hits, g);
    hide Times, PairTotal, FoundTotal, DrawTotal;
  }

  lemma WeightIs(m: nat, n: nat, size: nat)
    requires size > 0
    ensures Weight(Stratum(m, n, 0), size) == Times(m as real, Unit(size))
  {
  }

  lemma AsReals(m: nat, n: nat, hits: nat, g: nat)
    ensures var (x, k, c, e) := (m as real, n as real, hits as real, g as real);
            && (n * (n - 1) * (hits * (hits - 1) * g)) as real == PairTotal(k, c, e)
            && (n * (hits * ((m - 1) * g))) as real == FoundTotal(x, k, c, e)
            && (m * ((m - 1) * g)) as real == DrawTotal(x, e)
  {
    var (x, k, c, e) := (m as real, n as real, hits as real, g as real);
    assert (hits * (hits - 1)) as real == c * (c - 1.0);
    assert (hits * (hits - 1) * g) as real == c * (c - 1.0) * e;
    assert (n * (n - 1)) as real == k * (k - 1.0);
    assert ((m - 1) * g) as real == (x - 1.0) * e;
    assert (hits * ((m - 1) * g)) as real == c * ((x - 1.0) * e);
  }

  lemma SpreadOfOne(m: nat, hits: nat, size: nat)
    requires 1 <= m && hits <= m && size > 0
    ensures var (q, s) := (PerView(m, 1, size), Times(Unit(size), hits as real));
            Times(Times(q, q) - 2.0 * Times(q, s), hits as real) + Times(m as real, Times(s, s))
            == Times(m as real, Dispersion(m, 1, hits, size))
  {
    var (x, c, u) := (m as real, hits as real, Unit(size));
    SoleView(m, size);
    SoleDispersion(m, hits, size);
    hide PerView, Dispersion, Unit;
    SoleNumbers(x, c, u, PerView(m, 1, size), Times(u, c), Dispersion(m, 1, hits, size));
  }

  lemma SoleView(m: nat, size: nat)
    requires size > 0
    ensures PerView(m, 1, size) == Times(m as real, Unit(size))
  {
    WeightIs(m, 1, size);
    QuotientIs(PerView(m, 1, size), 1.0, Weight(Stratum(m, 1, 0), size));
  }

  // One view drawn: the finite population correction cancels against the factor N / (N - 1).
  lemma SoleDispersion(m: nat, hits: nat, size: nat)
    requires 1 <= m && hits <= m && size > 0
    ensures Dispersion(m, 1, hits, size) == Times(Times(Unit(size), Unit(size)), hits as real * (m as real - hits as real))
  {
    var (x, c) := (m as real, hits as real);
    if m == 1 {
      assert c * (x - c) == 0.0;
    } else {
      var k := 1 as real;
      var z := c * (x - c) * (x - k) / (k * (x - 1.0));
      QuotientIs(z, k * (x - 1.0), c * (x - c) * (x - k));
      Cancel(z, c * (x - c), x - 1.0);
    }
  }

  lemma SoleNumbers(x: real, c: real, u: real, q: real, s: real, d: real)
    requires q == Times(x, u) && s == Times(u, c) && d == Times(Times(u, u), c * (x - c))
    ensures Times(Times(q, q) - 2.0 * Times(q, s), c) + Times(x, Times(s, s)) == Times(x, d)
  {
    assert q * q == (x * x) * (u * u) && q * s == (x * c) * (u * u) && s * s == (c * c) * (u * u);
    OneNumber(x, c, u * u);
    assert x * ((u * u) * (c * (x - c))) == (u * u) * (x * (c * (x - c)));
  }

  lemma OneNumber(x: real, c: real, uu: real)
    ensures ((x * x) * uu - 2.0 * ((x * c) * uu)) * c + x * ((c * c) * uu) == uu * (x * (c * (x - c)))
  {
  }

  // ------------------------------------------------------------------
  // What one stratum reports
  // ------------------------------------------------------------------

  // W^2 (1 - n/N) / (n^2 (n - 1)): what a violative view paired with a harmless one adds to the variance.
  function PerPair(members: nat, n: nat, size: nat): real
    requires 2 <= n && 0 < members && 0 < size
  {
    var (w, k) := (Weight(Stratum(members, n, 0), size), n as real);
    PairDivisorSign(k);
    Times(w, Times(w, Times(Correction(Stratum(members, n, 0)), 1.0 / PairDivisor(k))))
  }

  function PairDivisor(k: real): real { k * k * (k - 1.0) }

  lemma PairDivisorSign(k: real)
    requires k > 1.0
    ensures PairDivisor(k) > 0.0
  {
    PositiveProduct(k, k);
    PositiveProduct(k * k, k - 1.0);
  }

  lemma VarianceTermIs(members: nat, n: nat, found: nat, size: nat)
    requires 2 <= n <= members && size > 0
    ensures var p := PerPair(members, n, size);
            VarianceTerm(Stratum(members, n, found), size)
            == Times(-p, (found * (found - 1)) as real) + Times(Times(p, n as real - 1.0), found as real) + 0.0
  {
    var (k, c) := (n as real, found as real);
    var s := Stratum(members, n, found);
    var (w, fpc, r) := (Weight(s, size), Correction(s), Rate(s));
    PairDivisorSign(k);
    var (y, inv) := (Times(r, 1.0 - r) / (k - 1.0), 1.0 / PairDivisor(k));
    var bare := Stratum(members, n, 0);
    assert Weight(bare, size) == w && Correction(bare) == fpc && (n - 1) as real == k - 1.0;
    assert VarianceTerm(s, size) == Times(w, Times(w, Times(fpc, y)));
    assert PerPair(members, n, size) == Times(w, Times(w, Times(fpc, inv)));
    QuotientIs(r, k, c);
    SpreadByPairs(k, c, r, y, inv);
    assert (found * (found - 1)) as real == c * (c - 1.0);
    hide Weight, Correction, Rate, VarianceTerm, Times;
    PairsOut(w, fpc, inv, k, c);
  }

  lemma SpreadByPairs(k: real, c: real, r: real, y: real, inv: real)
    requires k > 1.0 && r * k == c && y == Times(r, 1.0 - r) / (k - 1.0)
    requires PairDivisor(k) > 0.0 && inv == 1.0 / PairDivisor(k)
    ensures y == Times(inv, c * (k - c))
  {
    QuotientIs(y, k - 1.0, Times(r, 1.0 - r));
    var d := PairDivisor(k);
    QuotientIs(inv, d, 1.0);
    assert (r * (1.0 - r)) * (k * k) == c * (k - c) by {
      assert (1.0 - r) * k == k - c;
      assert (r * (1.0 - r)) * (k * k) == (r * k) * ((1.0 - r) * k);
    }
    assert y * d == c * (k - c);
    assert (inv * (c * (k - c))) * d == (inv * d) * (c * (k - c));
    Cancel(y, inv * (c * (k - c)), d);
  }

  lemma PairsOut(w: real, fpc: real, inv: real, k: real, c: real)
    ensures var p := Times(w, Times(w, Times(fpc, inv)));
            Times(w, Times(w, Times(fpc, Times(inv, c * (k - c)))))
            == Times(-p, c * (c - 1.0)) + Times(Times(p, k - 1.0), c)
  {
    var p := w * (w * (fpc * inv));
    assert w * (w * (fpc * (inv * (c * (k - c))))) == p * (c * (k - c));
    assert c * (k - c) == (k - 1.0) * c - c * (c - 1.0);
    assert p * ((k - 1.0) * c - c * (c - 1.0)) == (p * (k - 1.0)) * c - p * (c * (c - 1.0));
  }

  lemma ReportedOverMany(m: nat, n: nat, hits: nat, g: nat, size: nat)
    requires 2 <= n <= m && size > 0
    ensures var p := PerPair(m, n, size);
            Times(-p, (n * (n - 1) * (hits * (hits - 1) * g)) as real)
            + Times(Times(p, n as real - 1.0), (n * (hits * ((m - 1) * g))) as real)
            == Times((m * ((m - 1) * g)) as real, Dispersion(m, n, hits, size))
  {
    ReportedParts(m, n, hits, g, PerPair(m, n, size));
    hide PerPair, Dispersion, Times, Reported;
    ReportedCancel(m, n, hits, g, m * ((m - 1) * g), size);
  }

  lemma ReportedCancel(m: nat, n: nat, hits: nat, g: nat, draws: nat, size: nat)
    requires 2 <= n <= m && size > 0 && draws == m * ((m - 1) * g)
    ensures Reported(m as real, n as real, hits as real, g as real, PerPair(m, n, size))
         == Times(draws as real, Dispersion(m, n, hits, size))
  {
    var (x, k, c, e, p) := (m as real, n as real, hits as real, g as real, PerPair(m, n, size));
    DispersionOver(m, n, hits, g, size);
    PerPairIs(m, n, size);
    var s := Stratum(m, n, 0);
    hide PerPair, PairDivisor, Dispersion, Unit, Times, Weight, Correction, Reported, Target;
    ReportedNumbers(x, k, c, e, Unit(size), p, Weight(s, size), Correction(s));
    CancelTimes(Reported(x, k, c, e, p), Times(draws as real, Dispersion(m, n, hits, size)), k);
  }

  // What a stratum's draws report, summed.
  function Reported(m: real, k: real, c: real, g: real, p: real): real {
    Times(-p, PairTotal(k, c, g)) + Times(Times(p, k - 1.0), FoundTotal(m, k, c, g))
  }

  lemma ReportedParts(m: nat, n: nat, hits: nat, g: nat, p: real)
    ensures Times(-p, (n * (n - 1) * (hits * (hits - 1) * g)) as real)
            + Times(Times(p, n as real - 1.0), (n * (hits * ((m - 1) * g))) as real)
         == Reported(m as real, n as real, hits as real, g as real, p)
  {
    AsReals(m, n, hits, g);
    hide Times, PairTotal, FoundTotal, DrawTotal;
  }

  lemma PerPairIs(m: nat, n: nat, size: nat)
    requires 2 <= n <= m && size > 0
    ensures var (x, k, s) := (m as real, n as real, Stratum(m, n, 0));
            && Times(PerPair(m, n, size), PairDivisor(k)) == Times(Weight(s, size) * Weight(s, size), Correction(s))
            && Weight(s, size) == Times(x, Unit(size)) && Times(x, Correction(s)) == x - k
  {
    var (x, k, s) := (m as real, n as real, Stratum(m, n, 0));
    WeightIs(m, n, size);
    QuotientIs(1.0 - Correction(s), x, k);
    Complement(x, k, Correction(s));
    var p := PerPair(m, n, size);
    PairDivisorSign(k);
    assert p == Times(Weight(s, size), Times(Weight(s, size), Times(Correction(s), 1.0 / PairDivisor(k))));
    hide PerPair, PairDivisor, Times, Weight, Correction;
    PairWeight(Weight(s, size), Correction(s), k, p);
  }

  lemma Complement(x: real, k: real, rest: real)
    requires (1.0 - rest) * x == k
    ensures Times(x, rest) == x - k
  {
  }

  lemma PairWeight(w: real, fpc: real, k: real, p: real)
    requires PairDivisor(k) > 0.0 && p == Times(w, Times(w, Times(fpc, 1.0 / PairDivisor(k))))
    ensures Times(p, PairDivisor(k)) == Times(w * w, fpc)
  {
    var d := PairDivisor(k);
    var inv := 1.0 / d;
    QuotientIs(inv, d, 1.0);
    assert (w * (w * (fpc * inv))) * d == ((w * w) * fpc) * (inv * d);
  }

  lemma ReportedNumbers(m: real, k: real, c: real, g: real, u: real, p: real, w: real, fpc: real)
    requires Times(p, PairDivisor(k)) == Times(w * w, fpc) && w == Times(m, u) && Times(m, fpc) == m - k
    ensures Times(Reported(m, k, c, g, p), k) == Target(m, k, c, g, u)
  {
    PairsGone(m, k, c, g, p);
    var y := c * (g * (m - c));
    hide Reported, PairDivisor;
    assert w * w == (m * m) * (u * u);
    assert ((m * m) * (u * u)) * fpc == (m * (u * u)) * (m * fpc) == (m * (u * u)) * (m - k);
    assert Times(Times(w * w, fpc), y) == ((m * (u * u)) * (m - k)) * y;
    LastRegrouping(m, c, g, u * u, m - k, m - c);
  }

  lemma LastRegrouping(m: real, c: real, g: real, uu: real, x: real, y: real)
    ensures ((m * uu) * x) * (c * (g * y)) == Times(g * uu, m * c * y * x)
  {
  }

  lemma PairsGone(m: real, k: real, c: real, g: real, p: real)
    ensures Times(Reported(m, k, c, g, p), k) == Times(Times(p, PairDivisor(k)), c * (g * (m - c)))
  {
    var a, b := c * (c - 1.0) * g, c * ((m - 1.0) * g);
    assert b - a == c * (g * (m - c));
    var z := k * (k - 1.0);
    assert Times(Reported(m, k, c, g, p), k) == ((-p) * (z * a) + (p * (k - 1.0)) * (k * b)) * k;
    assert (p * (k - 1.0)) * (k * b) == p * (z * b);
    assert (-p) * (z * a) + p * (z * b) == p * (z * (b - a));
    assert (p * (z * (b - a))) * k == (p * (k * z)) * (b - a);
    assert PairDivisor(k) == k * z;
  }

  // ------------------------------------------------------------------
  // One stratum, both ways
  // ------------------------------------------------------------------

  lemma FoundTotals(truth: seq<bool>, a: seq<nat>, n: nat)
    requires 2 <= n <= |a|
    ensures var (hits, g, ds) := (Found(truth, a), Falling(|a| - 2, n - 2), Draws(a, n));
            && |ds| == |a| * ((|a| - 1) * g)
            && Total(FoundIn(truth, ds)) == n * (hits * ((|a| - 1) * g))
            && Total(PairsIn(truth, ds)) == n * (n - 1) * (hits * (hits - 1) * g)
  {
    DrawsNumber(a, n);
    DrawsFind(truth, a, n);
    DrawsFindPairs(truth, a, n);
    FallingStep(|a|, n);
    FallingStep(|a| - 1, n - 1);
    hide Falling, Draws, FoundIn, PairsIn, Total, Found;
  }

  /** Over the draws of one stratum, the squared distances between its term and its true share average to the
      variance of sampling without replacement. */
  lemma StratumSpread(f: Frame, h: nat, n: nat)
    requires Valid(f) && n <= |Positions(f.bands, h)| && (|Positions(f.bands, h)| > 0 ==> n > 0)
    ensures var a := Positions(f.bands, h);
            var ds := Draws(a, n);
            Sum(Squares(Values(Errors(f), h, ds))) == Times(|ds| as real, Dispersion(|a|, n, Hits(f, |f.bands|, h), |f.bands|))
  {
    if n == 0 {
      HitsAreFound(f, h);
      assert ShareOf(f, h) == 0.0;
      assert Values(Errors(f), h, Draws(Positions(f.bands, h), n)) == [0.0];
      assert Squares([0.0]) == [Times(0.0, 0.0)];
      TimesZero(1 as real);
    } else {
      SpreadTotals(f, h, n);
      SpreadFromTotals(f, h, n);
    }
  }

  // The summed squares, by what all draws find.
  function SpreadTotal(f: Frame, h: nat, n: nat): real
    requires Valid(f) && n > 0
  {
    var ds, q, s := Draws(Positions(f.bands, h), n), PerView(|Positions(f.bands, h)|, n, |f.bands|), ShareOf(f, h);
    Times(Times(q, q), Total(PairsIn(f.violative, ds)) as real)
    + Times(Times(q, q) - 2.0 * Times(q, s), Total(FoundIn(f.violative, ds)) as real)
    + Times(|ds| as real, Times(s, s))
  }

  lemma SpreadTotals(f: Frame, h: nat, n: nat)
    requires Valid(f) && n > 0
    ensures Sum(Squares(Values(Errors(f), h, Draws(Positions(f.bands, h), n)))) == SpreadTotal(f, h, n)
  {
    var ds := Draws(Positions(f.bands, h), n);
    var (q, s) := (PerView(|Positions(f.bands, h)|, n, |f.bands|), ShareOf(f, h));
    ErrorsAre(f, h, n);
    hide Positions, Draws, PerView, ShareOf, Times, Quadratic, Values, Squares;
    QuadraticSum(f.violative, ds, Squares(Values(Errors(f), h, ds)), Times(q, q), Times(q, q) - 2.0 * Times(q, s), Times(s, s));
  }

  lemma SpreadFromTotals(f: Frame, h: nat, n: nat)
    requires Valid(f) && 0 < n <= |Positions(f.bands, h)|
    ensures var a := Positions(f.bands, h);
            SpreadTotal(f, h, n) == Times(|Draws(a, n)| as real, Dispersion(|a|, n, Hits(f, |f.bands|, h), |f.bands|))
  {
    var a, size := Positions(f.bands, h), |f.bands|;
    HitsAreFound(f, h);
    hide Positions, Hits, Draws, PerView, Times, Found, Dispersion, FoundIn, PairsIn, Total;
    if n == 1 {
      SingleTotals(f.violative, a);
      SpreadOfOne(|a|, Hits(f, size, h), size);
      var q := PerView(|a|, n, size);
      TimesZero(Times(q, q));
    } else {
      FoundTotals(f.violative, a, n);
      hide Falling;
      SpreadOfMany(|a|, n, Hits(f, size, h), Falling(|a| - 2, n - 2), size);
    }
  }

  lemma SingleTotals(truth: seq<bool>, a: seq<nat>)
    requires 1 <= |a|
    ensures var ds := Draws(a, 1);
            |ds| == |a| && Total(FoundIn(truth, ds)) == Found(truth, a) && Total(PairsIn(truth, ds)) == 0
  {
    DrawsNumber(a, 1);
    DrawsFind(truth, a, 1);
    NoPairsAlone(truth, a, 1);
    assert Falling(|a| - 1, 0) == 1;
    FallingStep(|a|, 1);
  }

  lemma ErrorsAre(f: Frame, h: nat, n: nat)
    requires Valid(f) && 0 < n
    ensures var (ds, s) := (Draws(Positions(f.bands, h), n), ShareOf(f, h));
            var q := PerView(|Positions(f.bands, h)|, n, |f.bands|);
            Quadratic(f.violative, ds, Squares(Values(Errors(f), h, ds)), Times(q, q), Times(q, q) - 2.0 * Times(q, s),
                      Times(s, s))
  {
    var ds := Draws(Positions(f.bands, h), n);
    var (q, s) := (PerView(|Positions(f.bands, h)|, n, |f.bands|), ShareOf(f, h));
    hide Positions, Draws, PerView, TermOf, ShareOf, Times, Found, Quadratic, Squares;
    var xs := Values(Errors(f), h, ds);
    forall k: nat | k < |ds| ensures xs[k] == Times(q, Found(f.violative, ds[k]) as real) - s {
      TermAt(f, h, n, k);
    }
    SquaresAre(f.violative, ds, xs, q, s);
  }

  /** What a stratum of which at least two are drawn reports averages to that same variance; a single view
      reports nothing. */
  lemma StratumReports(f: Frame, h: nat, n: nat)
    requires Valid(f) && n <= |Positions(f.bands, h)|
    ensures var a := Positions(f.bands, h);
            var ds := Draws(a, n);
            Sum(Values(Variances(f), h, ds))
            == Times(|ds| as real, if n < 2 then 0.0 else Dispersion(|a|, n, Hits(f, |f.bands|, h), |f.bands|))
  {
    var a := Positions(f.bands, h);
    var ds := Draws(a, n);
    var xs := Values(Variances(f), h, ds);
    if n < 2 {
      forall k: nat | k < |ds| ensures xs[k] == 0.0 {
        DrawLength(a, n, k);
      }
      ZeroSum(xs);
      TimesZero(|ds| as real);
    } else {
      ManyReport(f, h, n);
    }
  }

  lemma ManyReport(f: Frame, h: nat, n: nat)
    requires Valid(f) && 2 <= n <= |Positions(f.bands, h)|
    ensures var a := Positions(f.bands, h);
            var ds := Draws(a, n);
            Sum(Values(Variances(f), h, ds)) == Times(|ds| as real, Dispersion(|a|, n, Hits(f, |f.bands|, h), |f.bands|))
  {
    var a, size := Positions(f.bands, h), |f.bands|;
    var ds := Draws(a, n);
    var p := PerPair(|a|, n, size);
    ReportsAre(f, h, n);
    QuadraticSum(f.violative, ds, Values(Variances(f), h, ds), -p, Times(p, n as real - 1.0), 0.0);
    HitsAreFound(f, h);
    FoundTotals(f.violative, a, n);
    hide PerPair, Times, Dispersion, Falling, Hits, PairsIn, FoundIn, Total, Variances, Quadratic, Positions, Draws, Found;
    ReportedOverMany(|a|, n, Hits(f, size, h), Falling(|a| - 2, n - 2), size);
    TimesZero(|ds| as real);
  }

  lemma ReportsAre(f: Frame, h: nat, n: nat)
    requires Valid(f) && 2 <= n <= |Positions(f.bands, h)|
    ensures var a := Positions(f.bands, h);
            var p := PerPair(|a|, n, |f.bands|);
            Quadratic(f.violative, Draws(a, n), Values(Variances(f), h, Draws(a, n)), -p, Times(p, n as real - 1.0), 0.0)
  {
    var a, size := Positions(f.bands, h), |f.bands|;
    var ds, p := Draws(a, n), PerPair(|a|, n, size);
    hide Positions, Draws, Found, VarianceTerm, PerPair, Times, Pairs;
    forall k: nat | k < |ds|
      ensures Values(Variances(f), h, ds)[k]
           == Times(-p, Pairs(f.violative, ds[k]) as real)
              + Times(Times(p, n as real - 1.0), Found(f.violative, ds[k]) as real) + 0.0
    {
      DrawLength(a, n, k);
      VarianceTermIs(|a|, n, Found(f.violative, ds[k]), size);
      PairsAre(f.violative, ds[k]);
    }
  }

  lemma PairsAre(truth: seq<bool>, d: seq<nat>)
    ensures Pairs(truth, d) == Found(truth, d) * (Found(truth, d) - 1)
  {
  }

  // ------------------------------------------------------------------
  // Every sample of the whole frame
  // ------------------------------------------------------------------

  /** An allocation that leaves no stratum out and asks none for more than it holds. */
  predicate Samplable(f: Frame, counts: seq<int>) {
    |counts| == RISK_BANDS &&
    forall h | 0 <= h < RISK_BANDS ::
      counts[h] <= |Positions(f.bands, h)| && (|Positions(f.bands, h)| > 0 ==> counts[h] > 0)
  }

  function DrawLists(f: Frame, counts: seq<int>): seq<seq<seq<nat>>>
    requires |counts| == RISK_BANDS
  {
    seq(RISK_BANDS, h requires 0 <= h < RISK_BANDS => Draws(Positions(f.bands, h), Max(counts[h], 0)))
  }

  /** Every answer the generator can give to an allocation. */
  function Samples(f: Frame, counts: seq<int>): seq<seq<seq<nat>>>
    requires |counts| == RISK_BANDS
  {
    Product(DrawLists(f, counts))
  }

  /** Each possible answer, once. */
  lemma SamplesAreAll(f: Frame, counts: seq<int>, rng: seq<seq<nat>>)
    requires |counts| == RISK_BANDS
    ensures Distinct(Samples(f, counts))
    ensures rng in Samples(f, counts) <==>
              |rng| == RISK_BANDS &&
              forall h | 0 <= h < RISK_BANDS :: DrawnFrom(Positions(f.bands, h), Max(counts[h], 0), rng[h])
  {
    var lists := DrawLists(f, counts);
    hide Positions, Draws, DrawnFrom;
    forall h: nat | h < RISK_BANDS ensures Distinct(lists[h]) {
      PositionsAre(f.bands, h);
      DrawsAreDistinct(Positions(f.bands, h), Max(counts[h], 0));
    }
    ProductDistinct(lists);
    ProductIs(lists, rng);
    if |rng| == RISK_BANDS {
      forall h: nat | h < RISK_BANDS
        ensures rng[h] in lists[h] <==> DrawnFrom(Positions(f.bands, h), Max(counts[h], 0), rng[h])
      {
        PositionsAre(f.bands, h);
        DrawsAreAll(Positions(f.bands, h), Max(counts[h], 0), rng[h]);
      }
    }
  }

  lemma SomeSample(f: Frame, counts: seq<int>)
    requires Valid(f) && Samplable(f, counts)
    ensures |Samples(f, counts)| > 0
  {
    var rng := seq(RISK_BANDS, h requires 0 <= h < RISK_BANDS => Positions(f.bands, h)[..Max(counts[h], 0)]);
    forall h: nat | h < RISK_BANDS ensures DrawnFrom(Positions(f.bands, h), Max(counts[h], 0), rng[h]) {
      PositionsAre(f.bands, h);
    }
    SamplesAreAll(f, counts, rng);
    assert rng in Samples(f, counts);
  }

  lemma {:induction false} ValueFromIs(v: Valuation, h: nat, c: seq<seq<nat>>)
    ensures ValueFrom(v, h, c) == Sum(seq(|c|, i requires 0 <= i < |c| => v(h + i, c[i])))
    decreases |c|
  {
    if c != [] {
      var terms := seq(|c|, i requires 0 <= i < |c| => v(h + i, c[i]));
      var later := seq(|c[1..]|, i requires 0 <= i < |c[1..]| => v(h + 1 + i, c[1..][i]));
      ValueFromIs(v, h + 1, c[1..]);
      forall i: nat | i < |later| ensures terms[1..][i] == later[i] {
        assert h + 1 + i == h + (i + 1) && c[1..][i] == c[i + 1];
      }
      assert terms[1..] == later;
      assert h + 0 == h;
    }
  }

  /** What a perfect panel makes of one of the samples: never a refusal, and the strata's parts added up. */
  lemma SampleOutcome(f: Frame, counts: seq<int>, rng: seq<seq<nat>>, panel: seq<Profile>, draws: seq<seq<seq<real>>>)
    requires Valid(f) && Samplable(f, counts) && PerfectPanel(panel)
    requires rng in Samples(f, counts) && ReviewDraws(counts, panel, draws)
    ensures FairDraws(f, counts, rng) && Measured(f, counts, rng, panel, draws).Ok?
    ensures var e := Measured(f, counts, rng, panel, draws).value;
            |rng| == RISK_BANDS && e.point == ValueFrom(Terms(f), 0, rng) && e.variance == ValueFrom(Variances(f), 0, rng)
  {
    SamplesAreAll(f, counts, rng);
    hide Positions, Samples, DrawnFrom, Summary;
    NeverOverdrawn(f, counts, 0);
    FitsAreDrawn(f, counts, rng);
    MeasuredIsSummary(f, counts, rng, panel, draws);
    var strata := MeasuredStrata(f, counts, rng, panel, draws);
    forall h: nat | h < RISK_BANDS
      ensures strata[h] == StratumOf(f, h, rng[h]) && !StarvedAt(strata[h])
    {
      StratumMeasured(f, counts, rng, panel, draws, h);
      StratumRead(f, counts, rng, panel, draws, h);
    }
    hide MeasuredStrata, ReviewDraws, FairDraws, Samplable;
    PartsAddUp(f, rng, strata);
  }

  lemma PartsAddUp(f: Frame, rng: seq<seq<nat>>, strata: seq<Stratum>)
    requires Valid(f) && |strata| == |rng| == RISK_BANDS
    requires forall h | 0 <= h < RISK_BANDS :: strata[h] == StratumOf(f, h, rng[h]) && !StarvedAt(strata[h])
    ensures Summary(strata, |f.bands|).Ok?
    ensures Summary(strata, |f.bands|).value.point == ValueFrom(Terms(f), 0, rng)
    ensures Summary(strata, |f.bands|).value.variance == ValueFrom(Variances(f), 0, rng)
  {
    hide StratumOf, PointTerm, VarianceTerm;
    var (v, w) := (Terms(f), Variances(f));
    ValueFromIs(v, 0, rng);
    ValueFromIs(w, 0, rng);
    assert PointTerms(strata, |f.bands|) == seq(|rng|, i requires 0 <= i < |rng| => v(0 + i, rng[i]));
    assert VarianceTerms(strata, |f.bands|) == seq(|rng|, i requires 0 <= i < |rng| => w(0 + i, rng[i]));
  }

  lemma StratumRead(f: Frame, counts: seq<int>, rng: seq<seq<nat>>, panel: seq<Profile>, draws: seq<seq<seq<real>>>,
                    h: nat)
    requires Valid(f) && Samplable(f, counts) && PerfectPanel(panel) && h < RISK_BANDS
    requires FairDraws(f, counts, rng) && ReviewDraws(counts, panel, draws) && Sampled(f, counts, rng).Ok?
    requires DrawnFrom(Positions(f.bands, h), Max(counts[h], 0), rng[h])
    ensures MeasuredStrata(f, counts, rng, panel, draws)[h].calls == Found(f.violative, rng[h])
    ensures |rng[h]| == Max(counts[h], 0)
  {
    SampleIsReviewable(f, counts, rng, panel, draws);
    assert counts[h] <= 0 ==> rng[h] == [];
    assert Sampled(f, counts, rng).value[h] == rng[h];
    hide Sampled, Samplable, FairDraws, Positions, DrawnFrom;
    PerfectReviewIsTruth(Pick(f.violative, rng[h]), panel, draws[h]);
    hide PerfectPanel, Review;
    FoundIsCount(f.violative, rng[h]);
  }

  // ------------------------------------------------------------------
  // Averages over every sample
  // ------------------------------------------------------------------

  /** Random numbers for the panel, for each of the samples. */
  ghost predicate DrawsForAll(f: Frame, counts: seq<int>, panel: seq<Profile>, draws: seq<seq<seq<seq<real>>>>)
    requires |counts| == RISK_BANDS
  {
    |draws| == |Samples(f, counts)| && forall k | 0 <= k < |draws| :: ReviewDraws(counts, panel, draws[k])
  }

  /** What is measured on each of the samples. */
  ghost function Outcomes(f: Frame, counts: seq<int>, panel: seq<Profile>, draws: seq<seq<seq<seq<real>>>>): (r: seq<Estimate>)
    requires Valid(f) && Samplable(f, counts) && PerfectPanel(panel) && DrawsForAll(f, counts, panel, draws)
    ensures |r| == |Samples(f, counts)| > 0
  {
    SomeSample(f, counts);
    seq(|draws|, k requires 0 <= k < |draws| =>
      SampleOutcome(f, counts, Samples(f, counts)[k], panel, draws[k]);
      Measured(f, counts, Samples(f, counts)[k], panel, draws[k]).value)
  }

  function Mean(xs: seq<real>): real
    requires xs != []
  {
    Sum(xs) / |xs| as real
  }

  function PointsOf(es: seq<Estimate>): seq<real> { seq(|es|, k requires 0 <= k < |es| => es[k].point) }

  function VariancesOf(es: seq<Estimate>): seq<real> { seq(|es|, k requires 0 <= k < |es| => es[k].variance) }

  function SquaredErrors(es: seq<Estimate>, truth: real): seq<real> {
    seq(|es|, k requires 0 <= k < |es| => Times(es[k].point - truth, es[k].point - truth))
  }

  lemma MeanIs(xs: seq<real>, n: nat, mean: real)
    requires |xs| == n > 0 && Sum(xs) == Times(n as real, mean)
    ensures Mean(xs) == mean
  {
    Cancel(Sum(xs) / n as real, mean, n as real);
  }

  function SharesFrom(f: Frame, h: nat, n: nat): seq<real>
    requires Valid(f)
  {
    seq(n, i requires 0 <= i < n => ShareOf(f, h + i))
  }

  lemma SharesAddUp(f: Frame)
    requires Valid(f)
    ensures Sum(SharesFrom(f, 0, RISK_BANDS)) == TrueVvr(f)
  {
    var size := |f.bands|;
    var hits := HitsBelow(f, size);
    hide Hits, Times, Unit;
    assert SharesFrom(f, 0, RISK_BANDS) == Scaled(Unit(size), Reals(hits));
    SumScaled(Unit(size), Reals(hits));
    SumOfInts(hits, Reals(hits));
    HitsAddUp(f, size);
    assert f.violative[..size] == f.violative;
    TimesUnit(CountTrue(f.violative), size);
  }

  lemma {:induction false} ErrorsFromIs(f: Frame, h: nat, c: seq<seq<nat>>)
    requires Valid(f)
    ensures ValueFrom(Errors(f), h, c) == ValueFrom(Terms(f), h, c) - Sum(SharesFrom(f, h, |c|))
    decreases |c|
  {
    hide TermOf, ShareOf;
    if c != [] {
      ErrorsFromIs(f, h + 1, c[1..]);
      var shares := SharesFrom(f, h, |c|);
      forall i: nat | i < |c| - 1 ensures shares[1..][i] == SharesFrom(f, h + 1, |c| - 1)[i] {
        assert h + 1 + i == h + (i + 1);
      }
      assert shares[1..] == SharesFrom(f, h + 1, |c| - 1);
      assert h + 0 == h;
    }
  }

  /** The spread of each stratum's term around its share, and what its sample reports of it. */
  function Dispersions(f: Frame, counts: seq<int>): seq<real>
    requires Valid(f) && |counts| == RISK_BANDS
  {
    seq(RISK_BANDS, h requires 0 <= h < RISK_BANDS =>
      Dispersion(|Positions(f.bands, h)|, Max(counts[h], 0), Hits(f, |f.bands|, h), |f.bands|))
  }

  function ReportedDispersions(f: Frame, counts: seq<int>): seq<real>
    requires Valid(f) && |counts| == RISK_BANDS
  {
    seq(RISK_BANDS, h requires 0 <= h < RISK_BANDS => if counts[h] < 2 then 0.0 else Dispersions(f, counts)[h])
  }

  lemma SamplesAverage(f: Frame, counts: seq<int>)
    requires Valid(f) && Samplable(f, counts)
    ensures var (n, samples) := (|Samples(f, counts)| as real, Samples(f, counts));
            && Sum(ValuesFrom(Terms(f), 0, samples)) == Times(n, TrueVvr(f))
            && Sum(Squares(ValuesFrom(Errors(f), 0, samples))) == Times(n, Sum(Dispersions(f, counts)))
            && Sum(ValuesFrom(Variances(f), 0, samples)) == Times(n, Sum(ReportedDispersions(f, counts)))
  {
    var lists := DrawLists(f, counts);
    hide TermOf, ShareOf, Times, ValueFrom, Draws, Positions, Dispersion, Squares, Variances, Terms, Errors;
    forall h: nat | h < RISK_BANDS
      ensures Sum(Values(Terms(f), 0 + h, lists[h])) == Times(|lists[h]| as real, SharesFrom(f, 0, RISK_BANDS)[h])
      ensures Sum(Values(Errors(f), 0 + h, lists[h])) == 0.0
      ensures Sum(Squares(Values(Errors(f), 0 + h, lists[h]))) == Times(|lists[h]| as real, Dispersions(f, counts)[h])
      ensures Sum(Values(Variances(f), 0 + h, lists[h])) == Times(|lists[h]| as real, ReportedDispersions(f, counts)[h])
    {
      StratumAverage(f, h, Max(counts[h], 0));
      StratumCentred(f, h, Max(counts[h], 0));
      StratumSpread(f, h, Max(counts[h], 0));
      StratumReports(f, h, Max(counts[h], 0));
    }
    ProductAverage(Terms(f), 0, lists, SharesFrom(f, 0, RISK_BANDS));
    SharesAddUp(f);
    ProductSquares(Errors(f), 0, lists, Dispersions(f, counts));
    ProductAverage(Variances(f), 0, lists, ReportedDispersions(f, counts));
  }

  lemma StratumCentred(f: Frame, h: nat, n: nat)
    requires Valid(f) && n <= |Positions(f.bands, h)| && (|Positions(f.bands, h)| > 0 ==> n > 0)
    ensures Sum(Values(Errors(f), h, Draws(Positions(f.bands, h), n))) == 0.0
  {
    StratumAverage(f, h, n);
    hide TermOf, ShareOf, Times, Draws, Positions;
    ShiftedBy(f, h, Draws(Positions(f.bands, h), n));
  }

  lemma {:induction false} ShiftedBy(f: Frame, h: nat, ds: seq<seq<nat>>)
    requires Valid(f)
    ensures Sum(Values(Errors(f), h, ds)) == Sum(Values(Terms(f), h, ds)) - Times(|ds| as real, ShareOf(f, h))
  {
    hide TermOf, ShareOf;
    if ds != [] {
      ShiftedBy(f, h, ds[1..]);
      assert Values(Errors(f), h, ds)[1..] == Values(Errors(f), h, ds[1..]);
      assert Values(Terms(f), h, ds)[1..] == Values(Terms(f), h, ds[1..]);
      hide Times;
      Counted(|ds| - 1, ShareOf(f, h));
    } else {
      Counted(0, ShareOf(f, h));
    }
  }

  lemma OutcomeIs(f: Frame, counts: seq<int>, panel: seq<Profile>, draws: seq<seq<seq<seq<real>>>>, k: nat)
    requires Valid(f) && Samplable(f, counts) && PerfectPanel(panel) && DrawsForAll(f, counts, panel, draws)
    requires k < |Samples(f, counts)|
    ensures var (e, c) := (Outcomes(f, counts, panel, draws)[k], Samples(f, counts)[k]);
            && e.point == ValueFrom(Terms(f), 0, c) && e.variance == ValueFrom(Variances(f), 0, c)
            && e.point - TrueVvr(f) == ValueFrom(Errors(f), 0, c)
  {
    var c := Samples(f, counts)[k];
    SampleOutcome(f, counts, c, panel, draws[k]);
    assert Outcomes(f, counts, panel, draws)[k] == Measured(f, counts, c, panel, draws[k]).value;
    hide Outcomes, Measured, TrueVvr, ValueFrom, Terms, Errors, Variances, SharesFrom, Samples, ReviewDraws;
    SharesAddUp(f);
    ErrorsFromIs(f, 0, c);
  }

  lemma OutcomesAre(f: Frame, counts: seq<int>, panel: seq<Profile>, draws: seq<seq<seq<seq<real>>>>)
    requires Valid(f) && Samplable(f, counts) && PerfectPanel(panel) && DrawsForAll(f, counts, panel, draws)
    ensures var (es, samples) := (Outcomes(f, counts, panel, draws), Samples(f, counts));
            && PointsOf(es) == ValuesFrom(Terms(f), 0, samples)
            && VariancesOf(es) == ValuesFrom(Variances(f), 0, samples)
            && SquaredErrors(es, TrueVvr(f)) == Squares(ValuesFrom(Errors(f), 0, samples))
  {
    var es, samples := Outcomes(f, counts, panel, draws), Samples(f, counts);
    hide Outcomes;
    forall k: nat | k < |samples|
      ensures es[k].point == ValueFrom(Terms(f), 0, samples[k])
      ensures es[k].variance == ValueFrom(Variances(f), 0, samples[k])
      ensures es[k].point - TrueVvr(f) == ValueFrom(Errors(f), 0, samples[k])
    {
      OutcomeIs(f, counts, panel, draws, k);
    }
    hide Outcomes, TrueVvr, ValueFrom, Terms, Errors, Variances, Times, Samples, Valid, Samplable, PerfectPanel, DrawsForAll;
  }

  /** Whatever the allocation, as long as no stratum is left out: perfect reviewers' estimate, averaged over
      every sample that can be drawn without replacement, is exactly the population's rate. */
  lemma EstimateIsUnbiased(f: Frame, counts: seq<int>, panel: seq<Profile>, draws: seq<seq<seq<seq<real>>>>)
    requires Valid(f) && Samplable(f, counts) && PerfectPanel(panel) && DrawsForAll(f, counts, panel, draws)
    ensures Mean(PointsOf(Outcomes(f, counts, panel, draws))) == TrueVvr(f)
  {
    OutcomesAre(f, counts, panel, draws);
    SamplesAverage(f, counts);
    var es := Outcomes(f, counts, panel, draws);
    hide Outcomes, TrueVvr, Terms, Errors, Variances, Times, Samples, ValuesFrom;
    MeanIs(PointsOf(es), |es|, TrueVvr(f));
  }

  /** So it is for every allocation the allocator grants with a minimum of at least one, whatever keys a
      pilot gave it: given the allocation, the pilot does not bias the estimate. */
  lemma AllocatedIsUnbiased(f: Frame, p: Problem, panel: seq<Profile>, draws: seq<seq<seq<seq<real>>>>)
    requires Valid(f) && p.sizes == Sizes(f) && |p.keys| == RISK_BANDS && p.minimum >= 1 && Allocated(p).Ok?
    requires PerfectPanel(panel)
    requires |Allocated(p).value| == RISK_BANDS && DrawsForAll(f, Allocated(p).value, panel, draws)
    ensures Samplable(f, Allocated(p).value)
    ensures Mean(PointsOf(Outcomes(f, Allocated(p).value, panel, draws))) == TrueVvr(f)
  {
    AllocationFits(f, p);
    hide Allocated, Samples;
    EstimateIsUnbiased(f, Allocated(p).value, panel, draws);
  }

  lemma DispersionSign(m: nat, n: nat, hits: nat, size: nat)
    requires hits <= m && n <= m && size > 0
    ensures Dispersion(m, n, hits, size) >= 0.0
    ensures n == 1 ==> (Dispersion(m, n, hits, size) == 0.0 <==> m == 1 || hits == 0 || hits == m)
  {
    if n > 0 && m > 1 {
      DispersionIs(m, n, hits, size);
      PositiveQuotient(1.0, size as real);
      assert Unit(size) > 0.0;
      hide Dispersion, Unit, Times;
      RealSign(m as real, n as real, hits as real, Unit(size));
    }
  }

  lemma DispersionIs(m: nat, n: nat, hits: nat, size: nat)
    requires 0 < n && 1 < m && size > 0
    ensures var (x, k, c, u) := (m as real, n as real, hits as real, Unit(size));
            k * (x - 1.0) != 0.0
            && Dispersion(m, n, hits, size) == Times(Times(u, u), c * (x - c) * (x - k) / (k * (x - 1.0)))
  {
  }

  lemma RealSign(x: real, k: real, c: real, u: real)
    requires 0.0 < k <= x && 1.0 < x && 0.0 <= c <= x && u > 0.0 && k * (x - 1.0) != 0.0
    ensures var d := Times(Times(u, u), c * (x - c) * (x - k) / (k * (x - 1.0)));
            d >= 0.0 && (k < x ==> (d == 0.0 <==> c == 0.0 || c == x))
  {
    var top, bottom := c * (x - c) * (x - k), k * (x - 1.0);
    PositiveProduct(u, u);
    PositiveProduct(k, x - 1.0);
    TopSign(x, k, c);
    QuotientSign(top, bottom);
    hide Times;
    ScaledSign(Times(u, u), top / bottom);
  }

  lemma TopSign(x: real, k: real, c: real)
    requires 0.0 <= c <= x && k <= x
    ensures c * (x - c) * (x - k) >= 0.0
    ensures k < x ==> (c * (x - c) * (x - k) == 0.0 <==> c == 0.0 || c == x)
  {
    if 0.0 < c < x && k < x {
      PositiveProduct(c, x - c);
      PositiveProduct(c * (x - c), x - k);
    }
  }

  lemma QuotientSign(a: real, d: real)
    requires a >= 0.0 && d > 0.0
    ensures a / d >= 0.0 && (a / d == 0.0 <==> a == 0.0)
  {
    if a > 0.0 {
      PositiveQuotient(a, d);
    }
  }

  lemma ScaledSign(u: real, z: real)
    requires u > 0.0 && z >= 0.0
    ensures Times(u, z) >= 0.0 && (Times(u, z) == 0.0 <==> z == 0.0)
  {
    if z > 0.0 {
      PositiveProduct(u, z);
    }
  }

  /** A stratum whose spread a sample cannot show: one view drawn of several that differ. */
  predicate Unseen(f: Frame, counts: seq<int>, h: nat)
    requires Valid(f) && |counts| == RISK_BANDS && h < RISK_BANDS
  {
    counts[h] == 1 && 0 < Hits(f, |f.bands|, h) < |Positions(f.bands, h)|
  }

  lemma SpreadSeen(f: Frame, counts: seq<int>, h: nat)
    requires Valid(f) && Samplable(f, counts) && h < RISK_BANDS
    ensures ReportedDispersions(f, counts)[h] <= Dispersions(f, counts)[h]
    ensures ReportedDispersions(f, counts)[h] == Dispersions(f, counts)[h] <==> !Unseen(f, counts, h)
  {
    HitsWithin(f, h);
    hide Positions, Hits, Dispersion;
    DispersionSign(|Positions(f.bands, h)|, Max(counts[h], 0), Hits(f, |f.bands|, h), |f.bands|);
    EmptySpread(|Positions(f.bands, h)|, Hits(f, |f.bands|, h), |f.bands|);
  }

  lemma EmptySpread(m: nat, hits: nat, size: nat)
    requires size > 0
    ensures Dispersion(m, 0, hits, size) == 0.0
  {
  }

  /** The reported variance, averaged over every sample, never exceeds the average squared distance of the
      estimate from the true rate, and equals it exactly when no stratum with views of both kinds has a
      single one drawn. Two from each stratum, or all of it, is enough. */
  lemma VarianceIsHonestIff(f: Frame, counts: seq<int>, panel: seq<Profile>, draws: seq<seq<seq<seq<real>>>>)
    requires Valid(f) && Samplable(f, counts) && PerfectPanel(panel) && DrawsForAll(f, counts, panel, draws)
    ensures var es := Outcomes(f, counts, panel, draws);
            var (reported, actual) := (Mean(VariancesOf(es)), Mean(SquaredErrors(es, TrueVvr(f))));
            && reported <= actual
            && (reported == actual <==> forall h | 0 <= h < RISK_BANDS :: !Unseen(f, counts, h))
  {
    OutcomesAre(f, counts, panel, draws);
    SamplesAverage(f, counts);
    var es := Outcomes(f, counts, panel, draws);
    var (seen, all) := (ReportedDispersions(f, counts), Dispersions(f, counts));
    forall h: nat | h < RISK_BANDS ensures seen[h] <= all[h] && (seen[h] == all[h] <==> !Unseen(f, counts, h)) {
      SpreadSeen(f, counts, h);
    }
    hide Outcomes, TrueVvr, Terms, Errors, Variances, Times, Samples, ValuesFrom, Unseen, Dispersions, ReportedDispersions;
    MeanIs(VariancesOf(es), |es|, Sum(seen));
    MeanIs(SquaredErrors(es, TrueVvr(f)), |es|, Sum(all));
    SumLe(seen, all);
    if forall h | 0 <= h < RISK_BANDS :: !Unseen(f, counts, h) {
      assert seen == all;
    }
  }
}
