/**
 The arithmetic behind statistical pass rates: the one-sided Wilson lower bound, the least number
 of successes a scenario must show, and the least number of trials that can prove a rate at all.

 Probabilities are reals. The quantile `z` of the confidence level is any non-negative real, and the
 square root is a parameter known only by its square, so nothing here depends on how either is
 computed.
 */
module Statistics {
  import opened Wrappers
  import opened Reals

  ghost predicate IsSquareRoot(sqrt: real -> real) {
    forall x: real :: x >= 0.0 ==> sqrt(x) >= 0.0 && sqrt(x) * sqrt(x) == x
  }

  function Max(a: real, b: real): real {
    if a < b then b else a
  }

  /** The quantity under the root: the variance term of the Wilson interval. */
  function Radicand(k: nat, n: nat, z: real): real
    requires k <= n && 1 <= n
  {
    (k as real) * ((n - k) as real) / (n as real) + z * z / 4.0
  }

  /** Centre minus spread, scaled and clipped at zero; `root` is the square root of the radicand. */
  function Score(k: real, n: real, z: real, root: real): real
    requires n > 0.0
  {
    assert z * z >= 0.0;
    Max(0.0, (k + z * z / 2.0 - z * root) / (n + z * z))
  }

  function WilsonLowerBound(k: nat, n: nat, z: real, sqrt: real -> real): (bound: real)
    requires k <= n && 1 <= n
    ensures 0.0 <= bound
  {
    Score(k as real, n as real, z, sqrt(Radicand(k, n, z)))
  }

  /** The root-free form of "the bound reaches m": enough successes, and far enough above n*m. */
  predicate Proves(k: nat, n: nat, z: real, m: real) {
    var d := k as real - n as real * m;
    d >= 0.0 && d * d >= z * z * (n as real) * m * (1.0 - m)
  }

  // ---------------------------------------------------------------------------------------------
  // The bound against its root-free form
  // ---------------------------------------------------------------------------------------------

  lemma RadicandNonNegative(k: nat, n: nat, z: real)
    requires k <= n && 1 <= n
    ensures Radicand(k, n, z) >= 0.0
  {
    assert (k as real) * ((n - k) as real) >= 0.0;
    assert (k as real) * ((n - k) as real) / (n as real) >= 0.0;
    assert z * z >= 0.0;
  }

  /** For non-negative b: a >= b exactly when a is non-negative and its square is no smaller. */
  lemma CompareSquares(a: real, b: real)
    requires b >= 0.0
    ensures a >= b <==> a >= 0.0 && a * a >= b * b
  {
    if a >= 0.0 && a + b > 0.0 {
      ScaleOrder(a, b, a + b);
      assert a * (a + b) - b * (a + b) == a * a - b * b;
    }
  }

  /** How far the centre of the interval lies above m, scaled by n + z^2. */
  function Lead(k: real, n: real, z: real, m: real): real {
    k + z * z / 2.0 - m * (n + z * z)
  }

  /** How far the squared distance from n*m exceeds what the spread requires. */
  function Excess(k: real, n: real, z: real, m: real): real {
    (k - n * m) * (k - n * m) - z * z * n * m * (1.0 - m)
  }

  /** The identity that clears the root: both sides differ from zero by the same sign. */
  lemma Discriminant(k: real, n: real, z: real, m: real, q: real)
    requires n > 0.0 && q * n == k * (n - k)
    ensures var a := k + z * z / 2.0 - m * (n + z * z);
            var d := k - n * m;
            n * (a * a - z * z * (q + z * z / 4.0)) == (n + z * z) * (d * d - z * z * n * m * (1.0 - m))
  {
    var w := z * z;
    var a := k + w / 2.0 - m * (n + w);
    var d := k - n * m;
    assert a == d + w * (0.5 - m);
    assert a * a == d * d + 2.0 * (d * (w * (0.5 - m))) + (w * (0.5 - m)) * (w * (0.5 - m));
    calc {
      n * (a * a - w * (q + w / 4.0));
      n * (a * a) - w * (q * n) - n * w * w / 4.0;
      n * (a * a) - w * (k * (n - k)) - n * w * w / 4.0;
      n * (d * d) + n * w * (d * (1.0 - 2.0 * m)) + n * w * w * (0.25 - m + m * m)
        - w * (k * (n - k)) - n * w * w / 4.0;
    }
  }

  /** With 0 < m < 1 the centre clears m exactly when the success count does, given enough distance. */
  lemma CentreSign(k: real, n: real, w: real, m: real)
    requires 0.0 < m < 1.0 && 0.0 <= k <= n && 0.0 < n && w >= 0.0
    requires var d := k - n * m; d * d >= w * n * m * (1.0 - m)
    ensures k - n * m >= 0.0 <==> k + w / 2.0 - m * (n + w) >= 0.0
  {
    var d := k - n * m;
    var s := w * n * m * (1.0 - m);
    assert k + w / 2.0 - m * (n + w) == d + w * (0.5 - m);
    if d >= 0.0 {
      // d <= n(1-m), so d * n(1-m) >= d * d >= w*m * n(1-m), hence d >= w*m >= w*(m - 1/2).
      var c := n * (1.0 - m);
      assert c > 0.0 && d <= c;
      assert d * c >= d * d;
      assert s == (w * m) * c;
      ScaleOrder(d, w * m, c);
    } else {
      // |d| <= n*m, so in the same way |d| >= w*(1-m) >= w*(1/2 - m), strictly as |d| > 0.
      var e, c := -d, n * m;
      assert c > 0.0 && e <= c;
      assert e * c >= e * e == d * d;
      assert s == (w * (1.0 - m)) * c;
      ScaleOrder(e, w * (1.0 - m), c);
      assert w * (1.0 - m) == w * (0.5 - m) + w * 0.5;
      assert w == 0.0 ==> w * (0.5 - m) == 0.0;
    }
  }

  /** Quantities equal up to positive factors have the same sign. */
  lemma SameSign(p: real, x: real, q: real, y: real)
    requires p > 0.0 && q > 0.0 && p * x == q * y
    ensures x >= 0.0 <==> y >= 0.0
  {
    ScaleOrder(x, 0.0, p);
    ScaleOrder(y, 0.0, q);
  }

  lemma DivideReaches(p: real, q: real, m: real)
    requires q > 0.0
    ensures p / q >= m <==> p >= m * q
  {
    assert (p / q) * q == p;
    ScaleOrder(p / q, m, q);
  }

  /** Lead and spread compare as their squares do, whose difference has the sign of the excess. */
  lemma LeadAgainstSpread(a: real, spread: real, n: real, nw: real, e: real)
    requires n > 0.0 && nw > 0.0 && spread >= 0.0 && n * (a * a - spread * spread) == nw * e
    ensures a >= spread <==> a >= 0.0 && e >= 0.0
  {
    SameSign(n, a * a - spread * spread, nw, e);
    CompareSquares(a, spread);
  }

  /** The comparison behind the bound, with the root replaced by its square. */
  lemma CentreClearsSpread(k: real, n: real, z: real, m: real, q: real, root: real)
    requires 0.0 < m < 1.0 && 0.0 <= k <= n && 0.0 < n && z >= 0.0
    requires q * n == k * (n - k) && root >= 0.0 && root * root == q + z * z / 4.0
    ensures Lead(k, n, z, m) >= z * root <==> k - n * m >= 0.0 && Excess(k, n, z, m) >= 0.0
  {
    assert z * root >= 0.0 && z * z >= 0.0;
    SquaredMargin(k, n, z, m, q, root);
    LeadAgainstSpread(Lead(k, n, z, m), z * root, n, n + z * z, Excess(k, n, z, m));
    if Excess(k, n, z, m) >= 0.0 { CentreSign(k, n, z * z, m); }
  }

  lemma SquaredMargin(k: real, n: real, z: real, m: real, q: real, root: real)
    requires n > 0.0 && q * n == k * (n - k) && root * root == q + z * z / 4.0
    ensures var a := Lead(k, n, z, m);
            n * (a * a - (z * root) * (z * root)) == (n + z * z) * Excess(k, n, z, m)
  {
    Discriminant(k, n, z, m, q);
    assert (z * root) * (z * root) == z * z * (root * root);
  }

  /** The Wilson bound reaches m exactly when the success count proves m. */
  lemma BoundReaches(k: nat, n: nat, z: real, m: real, sqrt: real -> real)
    requires IsSquareRoot(sqrt) && k <= n && 1 <= n && z >= 0.0 && 0.0 < m < 1.0
    ensures WilsonLowerBound(k, n, z, sqrt) >= m <==> Proves(k, n, z, m)
  {
    RadicandNonNegative(k, n, z);
    VarianceScaled(k, n);
    var kr, nr, root := k as real, n as real, sqrt(Radicand(k, n, z));
    CentreClearsSpread(kr, nr, z, m, kr * ((n - k) as real) / nr, root);
    ScoreReaches(kr, nr, z, root, m);
  }

  lemma VarianceScaled(k: nat, n: nat)
    requires k <= n && 1 <= n
    ensures (k as real) * ((n - k) as real) / (n as real) * (n as real) == (k as real) * (n as real - k as real)
  {
  }

  lemma ScoreReaches(k: real, n: real, z: real, root: real, m: real)
    requires n > 0.0 && m > 0.0
    ensures Score(k, n, z, root) >= m <==> Lead(k, n, z, m) >= z * root
  {
    assert z * z >= 0.0;
    DivideReaches(k + z * z / 2.0 - z * root, n + z * z, m);
  }

  // ---------------------------------------------------------------------------------------------
  // Shape of the bound
  // ---------------------------------------------------------------------------------------------

  /** More distance above n*m only helps: a larger success count proves whatever a smaller one does. */
  lemma ProvesMonotone(k: nat, k': nat, n: nat, z: real, m: real)
    requires k <= k' && Proves(k, n, z, m)
    ensures Proves(k', n, z, m)
  {
    var d, d' := k as real - n as real * m, k' as real - n as real * m;
    assert d' * d' >= d * d by { assert d' * d' - d * d == (d' - d) * (d' + d); }
  }

  lemma NotProvedAboveRate(k: nat, n: nat, z: real, m: real)
    requires 1 <= n && k as real / n as real < m
    ensures !Proves(k, n, z, m)
  {
    DivideReaches(k as real, n as real, m);
  }

  lemma BelowAnythingAboveRate(k: nat, n: nat, z: real, m: real, sqrt: real -> real)
    requires IsSquareRoot(sqrt) && k <= n && 1 <= n && z >= 0.0
    requires 0.0 < m < 1.0 && k as real / n as real < m
    ensures WilsonLowerBound(k, n, z, sqrt) < m
  {
    BoundReaches(k, n, z, m, sqrt);
    NotProvedAboveRate(k, n, z, m);
  }

  /** A point strictly between rate and the smaller of bound and one. */
  function Between(rate: real, bound: real): (m: real)
    requires 0.0 <= rate < 1.0 && rate < bound
    ensures rate < m < 1.0 && 0.0 < m <= bound
  {
    if bound < 1.0 then (rate + bound) / 2.0 else (rate + 1.0) / 2.0
  }

  /** The bound never exceeds the observed success rate. */
  lemma BoundAtMostRate(k: nat, n: nat, z: real, sqrt: real -> real)
    requires IsSquareRoot(sqrt) && k <= n && 1 <= n && z >= 0.0
    ensures WilsonLowerBound(k, n, z, sqrt) <= k as real / n as real
  {
    var bound := WilsonLowerBound(k, n, z, sqrt);
    DivideReaches(k as real, n as real, 0.0);
    if k == n {
      FullBound(n, z, sqrt);
      assert z * z >= 0.0;
      DivideReaches(n as real, n as real, 1.0);
      FullBoundAtMostOne(n as real, z * z);
    } else if bound > k as real / n as real {
      DivideBelow(k as real, n as real);
      BelowAnythingAboveRate(k, n, z, Between(k as real / n as real, bound), sqrt);
    }
  }

  lemma FullBoundAtMostOne(n: real, w: real)
    requires n > 0.0 && w >= 0.0
    ensures n / (n + w) <= 1.0
  {
    if w > 0.0 { DivideBelow(n, n + w); }
  }

  /** When every trial passes the bound is n / (n + z^2). */
  lemma FullBound(n: nat, z: real, sqrt: real -> real)
    requires IsSquareRoot(sqrt) && 1 <= n && z >= 0.0
    ensures WilsonLowerBound(n, n, z, sqrt) == n as real / (n as real + z * z)
  {
    var root := sqrt(Radicand(n, n, z));
    assert Radicand(n, n, z) == (z / 2.0) * (z / 2.0);
    CompareSquares(root, z / 2.0);
    CompareSquares(z / 2.0, root);
    assert root == z / 2.0;
    assert z * root == z * z / 2.0;
    assert z * z >= 0.0;
    DivideReaches(n as real, n as real + z * z, 0.0);
  }

  /** One more success never lowers the bound. */
  lemma BoundMonotone(k: nat, k': nat, n: nat, z: real, sqrt: real -> real)
    requires IsSquareRoot(sqrt) && k <= k' <= n && 1 <= n && z >= 0.0
    ensures WilsonLowerBound(k, n, z, sqrt) <= WilsonLowerBound(k', n, z, sqrt)
  {
    var m := WilsonLowerBound(k, n, z, sqrt);
    if 0.0 < m && k < k' {
      BoundAtMostRate(k, n, z, sqrt);
      DivideBelow(k as real, n as real);
      BoundReaches(k, n, z, m, sqrt);
      ProvesMonotone(k, k', n, z, m);
      BoundReaches(k', n, z, m, sqrt);
    }
  }

  lemma DivideBelow(p: real, q: real)
    requires p < q && q > 0.0
    ensures p / q < 1.0
  {
    DivideReaches(p, q, 1.0);
  }

  // ---------------------------------------------------------------------------------------------
  // Trials that can prove a rate
  // ---------------------------------------------------------------------------------------------

  /** n trials can prove m when even n passes out of n reach it. */
  predicate Provable(n: nat, z: real, m: real) {
    n as real * (1.0 - m) >= m * (z * z)
  }

  lemma FullBoundReaches(n: nat, z: real, m: real, sqrt: real -> real)
    requires IsSquareRoot(sqrt) && 1 <= n && z >= 0.0 && 0.0 < m < 1.0
    ensures WilsonLowerBound(n, n, z, sqrt) >= m <==> Provable(n, z, m)
  {
    FullBound(n, z, sqrt);
    assert z * z >= 0.0;
    DivideReaches(n as real, n as real + z * z, m);
  }

  /** Provability never goes away with more trials. */
  lemma ProvableMonotone(n: nat, n': nat, z: real, m: real)
    requires n <= n' && 0.0 < m < 1.0 && Provable(n, z, m)
    ensures Provable(n', z, m)
  {
    ScaleOrder(n' as real, n as real, 1.0 - m);
  }

  /** A trial count that is certainly enough; it bounds the search below. */
  function EnoughTrials(z: real, m: real): nat
    requires 0.0 < m < 1.0
  {
    var enough := (m * (z * z) / (1.0 - m)).Floor + 1;
    if enough < 1 then 1 else enough
  }

  lemma EnoughIsProvable(z: real, m: real)
    requires 0.0 < m < 1.0
    ensures Provable(EnoughTrials(z, m), z, m)
  {
    var a, c := m * (z * z), 1.0 - m;
    QuotientScaled(a, c);
    assert EnoughTrials(z, m) as real >= a / c;
    ScaleOrder(EnoughTrials(z, m) as real, a / c, c);
  }

  /** The counting loop ends, at the least number of trials that can prove the rate. */
  method MinimumProvableTrials(m: real, z: real, sqrt: real -> real) returns (trials: nat)
    requires IsSquareRoot(sqrt) && z >= 0.0 && 0.0 < m < 1.0
    ensures 1 <= trials && WilsonLowerBound(trials, trials, z, sqrt) >= m
    ensures forall n :: 1 <= n < trials ==> WilsonLowerBound(n, n, z, sqrt) < m
  {
    trials := 1;
    while WilsonLowerBound(trials, trials, z, sqrt) < m
      invariant 1 <= trials <= EnoughTrials(z, m)
      invariant forall n :: 1 <= n < trials ==> WilsonLowerBound(n, n, z, sqrt) < m
      decreases EnoughTrials(z, m) - trials
    {
      FullBoundReaches(trials, z, m, sqrt);
      EnoughIsProvable(z, m);
      trials := trials + 1;
    }
  }

  // ---------------------------------------------------------------------------------------------
  // Required successes of a scenario
  // ---------------------------------------------------------------------------------------------

  /** A pass rate is a plain fraction of the trials, or a probability to be proved at some confidence. */
  datatype PassRate = Fraction(rate: real) | Statistical(min: real, z: real)

  predicate ValidRate(p: PassRate) {
    match p
    case Fraction(rate) => 0.0 < rate <= 1.0
    case Statistical(m, z) => 0.0 < m < 1.0 && z >= 0.0
  }

  /** The first success count whose bound reaches the minimum, searched upwards from `from`. */
  function FirstProving(from: nat, trials: nat, z: real, m: real, sqrt: real -> real): (k: Option<nat>)
    requires 1 <= trials
    ensures k.Some? ==> from <= k.value <= trials && WilsonLowerBound(k.value, trials, z, sqrt) >= m
    ensures k.Some? ==> forall j :: from <= j < k.value ==> WilsonLowerBound(j, trials, z, sqrt) < m
    ensures k.None? ==> forall j :: from <= j <= trials ==> WilsonLowerBound(j, trials, z, sqrt) < m
    decreases trials + 1 - from
  {
    if from > trials then None
    else if WilsonLowerBound(from, trials, z, sqrt) >= m then Some(from)
    else FirstProving(from + 1, trials, z, m, sqrt)
  }

  /** The number of trials that must pass; None where the search finds nothing. */
  function RequiredTrials(p: PassRate, trials: nat, sqrt: real -> real): Option<int>
    requires 1 <= trials
  {
    match p
    case Fraction(rate) => Some(Ceil(trials as real * rate))
    case Statistical(m, z) => FirstProving(0, trials, z, m, sqrt)
  }

  /** A run of `passed` successes meets the pass rate it was given. */
  predicate MeetsRate(p: PassRate, passed: nat, trials: nat, sqrt: real -> real)
    requires passed <= trials && 1 <= trials
  {
    match p
    case Fraction(rate) => passed as real >= trials as real * rate
    case Statistical(m, z) => WilsonLowerBound(passed, trials, z, sqrt) >= m
  }

  /** The check made when a contract is loaded: all trials passing must prove the rate. */
  predicate AcceptsRate(p: PassRate, trials: nat, sqrt: real -> real)
    requires 1 <= trials
  {
    match p
    case Fraction(_) => true
    case Statistical(m, z) => WilsonLowerBound(trials, trials, z, sqrt) >= m
  }

  /** A count of at least the required successes is the same as meeting the rate. */
  lemma RequiredIsThreshold(p: PassRate, passed: nat, trials: nat, sqrt: real -> real)
    requires IsSquareRoot(sqrt) && ValidRate(p) && passed <= trials && 1 <= trials
    requires RequiredTrials(p, trials, sqrt).Some?
    ensures passed >= RequiredTrials(p, trials, sqrt).value <==> MeetsRate(p, passed, trials, sqrt)
  {
    match p {
      case Fraction(rate) => CeilIsLeast(passed, trials as real * rate);
      case Statistical(m, z) =>
        var k := FirstProving(0, trials, z, m, sqrt).value;
        if passed >= k { BoundMonotone(k, passed, trials, z, sqrt); }
    }
  }

  lemma PartOf(n: real, rate: real)
    requires n > 0.0 && 0.0 < rate <= 1.0
    ensures 0.0 < n * rate <= n
  {
    ScaleOrder(1.0, rate, n);
    ScaleOrder(0.0, rate, n);
  }

  lemma FractionOfTrials(rate: real, trials: nat)
    requires 0.0 < rate <= 1.0 && 1 <= trials
    ensures 1 <= Ceil(trials as real * rate) <= trials
  {
    PartOf(trials as real, rate);
    CeilWithin(trials, trials as real * rate);
  }

  /**
   A contract is accepted exactly when a required count exists, and then that count lies between one
   and the number of trials; for a statistical rate both mean at least the minimum provable trials.
   */
  lemma AcceptedIsTotal(p: PassRate, trials: nat, sqrt: real -> real)
    requires IsSquareRoot(sqrt) && ValidRate(p) && 1 <= trials
    ensures AcceptsRate(p, trials, sqrt) <==> RequiredTrials(p, trials, sqrt).Some?
    ensures AcceptsRate(p, trials, sqrt) ==> 1 <= RequiredTrials(p, trials, sqrt).value <= trials
  {
    match p {
      case Fraction(rate) =>
        FractionOfTrials(rate, trials);
      case Statistical(m, z) =>
        if RequiredTrials(p, trials, sqrt).Some? {
          var k := FirstProving(0, trials, z, m, sqrt).value;
          BoundMonotone(k, trials, trials, z, sqrt);
          BoundReaches(k, trials, z, m, sqrt);
          assert trials as real * m > 0.0;
        }
    }
  }

  /** `least` being the least provable count, a statistical rate is accepted from there on and only there. */
  lemma AcceptedFromLeast(m: real, z: real, trials: nat, least: nat, sqrt: real -> real)
    requires IsSquareRoot(sqrt) && z >= 0.0 && 0.0 < m < 1.0 && 1 <= trials && 1 <= least
    requires WilsonLowerBound(least, least, z, sqrt) >= m
    requires forall n :: 1 <= n < least ==> WilsonLowerBound(n, n, z, sqrt) < m
    ensures AcceptsRate(Statistical(m, z), trials, sqrt) <==> trials >= least
  {
    if trials >= least {
      FullBoundReaches(least, z, m, sqrt);
      ProvableMonotone(least, trials, z, m);
      FullBoundReaches(trials, z, m, sqrt);
    }
  }
}
