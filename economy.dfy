/** The economy (core/economy.py): money-supply inflation with a remembered
    baseline, growth from human capital, the Gini statistic over sorted
    balances and the tax-then-income redistribution. */
module Economy {
  import opened Numeric
  import opened Citizens

  const InitialGini: real := 0.5

  /** Relative growth of the money supply against the last recorded total;
      zero when there is no positive baseline. */
  function MoneySupplyGrowth(previous: real, total: real): (g: real)
    ensures previous <= 0.0 ==> g == 0.0
    ensures previous > 0.0 ==> previous * (1.0 + g) == total
    ensures previous > 0.0 ==> (g == 0.0 <==> total == previous)
    ensures previous > 0.0 ==> (g > 0.0 <==> total > previous)
  {
    if previous > 0.0 then (total - previous) / previous else 0.0
  }

  /** Inflation is money growth minus economic growth, never negative. */
  function InflationFrom(moneyGrowth: real, economicGrowth: real): (r: real)
    ensures r >= 0.0 && r >= moneyGrowth - economicGrowth
    ensures r == 0.0 || r == moneyGrowth - economicGrowth
  {
    Max(0.0, moneyGrowth - economicGrowth)
  }

  /** Each citizen's human capital: education level times health percent. */
  function HumanCapital(cs: seq<Citizen>): (r: seq<real>)
    reads cs
    ensures |r| == |cs|
    ensures forall i :: 0 <= i < |cs| ==> r[i] == cs[i].educationLevel * cs[i].health / 100.0
  {
    seq(|cs|, i requires 0 <= i < |cs| reads cs => cs[i].educationLevel * cs[i].health / 100.0)
  }

  /** Economic growth: one percent of the mean human capital. The source
      divides by the population size without a guard. */
  function EconomicGrowth(cs: seq<Citizen>): real
    requires |cs| > 0
    reads cs
  {
    Mean(HumanCapital(cs)) * 0.01
  }

  /** With levels in [0, 10] and health in [0, 100], growth lies in [0, 0.1]. */
  lemma EconomicGrowthBounds(cs: seq<Citizen>)
    requires |cs| > 0
    requires forall i :: 0 <= i < |cs| ==> 0.0 <= cs[i].educationLevel <= MaxEducation
    requires forall i :: 0 <= i < |cs| ==> 0.0 <= cs[i].health <= 100.0
    ensures 0.0 <= EconomicGrowth(cs) <= 0.1
  {
    var h := HumanCapital(cs);
    forall i | 0 <= i < |h|
      ensures 0.0 <= h[i] <= 10.0
    {
      var e, p := cs[i].educationLevel, cs[i].health;
      assert 0.0 <= e * p <= 10.0 * p <= 1000.0;
    }
    MeanBounds(h, 0.0, 10.0);
  }

  /** A second inflation reading with unchanged balances sees no money growth,
      and with non-negative human capital reports zero inflation. */
  lemma SteadyStateInflation(cs: seq<Citizen>)
    requires |cs| > 0
    requires forall i :: 0 <= i < |cs| ==> 0.0 <= cs[i].educationLevel <= MaxEducation
    requires forall i :: 0 <= i < |cs| ==> 0.0 <= cs[i].health <= 100.0
    ensures MoneySupplyGrowth(Sum(Balances(cs)), Sum(Balances(cs))) == 0.0
    ensures InflationFrom(MoneySupplyGrowth(Sum(Balances(cs)), Sum(Balances(cs))), EconomicGrowth(cs)) == 0.0
  {
    EconomicGrowthBounds(cs);
  }

  /** The term the Gini loop adds after `count` of `n` sorted balances, whose
      running sum is `cumulative`: balance share minus population share. */
  function GiniTerm(cumulative: real, total: real, count: nat, n: nat): real
    requires total != 0.0 && n > 0
  {
    cumulative / total - count as real / n as real
  }

  /** The loop's accumulator after its first k iterations. */
  function GiniNumerator(s: seq<real>, k: nat, total: real): real
    requires k <= |s| && total != 0.0
  {
    if k == 0 then 0.0 else GiniNumerator(s, k - 1, total) + GiniTerm(Sum(s[..k]), total, k, |s|)
  }

  /** The statistic over balances that are already sorted. */
  function GiniStatistic(s: seq<real>): real
    requires |s| > 0 && Sum(s) != 0.0
  {
    GiniNumerator(s, |s|, Sum(s)) / |s| as real
  }

  /** The statistic of a population's balances: sort, then run the loop. It
      divides by the sum and by the count, so both must be non-zero. */
  function Gini(balances: seq<real>): real
    requires |balances| > 0 && Sum(balances) != 0.0
  {
    var sorted := SortAscending(balances);
    SumPermutation(sorted, balances);
    GiniStatistic(sorted)
  }

  /** The m smallest of ascending balances are each at most s[m]. */
  lemma PrefixBound(s: seq<real>, m: nat)
    requires Ascending(s) && m < |s|
    ensures Sum(s[..m]) <= m as real * s[m]
  {
    SumAtMost(s[..m], m, s[m]);
  }

  /** The balances from position m on are each at least s[m]. */
  lemma SuffixBound(s: seq<real>, m: nat)
    requires Ascending(s) && m < |s|
    ensures |s[m..]| as real * s[m] <= Sum(s[m..])
  {
    SumAtLeast(s[m..], |s[m..]|, s[m]);
  }

  /** The share bound from the two cut bounds. */
  lemma ShareFromBounds(s: seq<real>, m: nat)
    requires 0 < m < |s|
    requires Sum(s[..m]) <= m as real * s[m]
    requires |s[m..]| as real * s[m] <= Sum(s[m..])
    ensures |s| as real * Sum(s[..m]) <= m as real * Sum(s)
  {
    var low, high := s[..m], s[m..];
    assert low + high == s;
    SumConcat(low, high);
    assert Sum(s) == Sum(low) + Sum(high);
    ShareArith(|s|, m, |high|, Sum(low), Sum(high), s[m], Sum(s));
  }

  /** The m smallest of n balances hold at most the share m / n of the total. */
  lemma PrefixShareAtMost(s: seq<real>, m: nat)
    requires Ascending(s) && m <= |s|
    ensures |s| as real * Sum(s[..m]) <= m as real * Sum(s)
  {
    if m == 0 {
      assert s[..m] == [];
      ZeroProducts(|s| as real, m as real, Sum(s[..m]), Sum(s));
    } else if m == |s| {
      assert s[..m] == s;
      EqualProducts(|s| as real, m as real, Sum(s[..m]), Sum(s));
    } else {
      PrefixBound(s, m);
      SuffixBound(s, m);
      ShareFromBounds(s, m);
    }
  }

  /** A term is at most 0 once the balances counted so far hold at most their
      population share of a positive total. */
  lemma GiniTermNonPositive(cumulative: real, total: real, count: nat, n: nat)
    requires total > 0.0 && n > 0
    requires n as real * cumulative <= count as real * total
    ensures GiniTerm(cumulative, total, count, n) <= 0.0
  {
    ShareCompare(cumulative, total, count as real, n as real);
  }

  /** The last term is exactly 0: the whole total over the whole population. */
  lemma GiniLastTermZero(s: seq<real>)
    requires |s| > 0 && Sum(s) != 0.0
    ensures GiniTerm(Sum(s[..|s|]), Sum(s), |s|, |s|) == 0.0
  {
    assert s[..|s|] == s;
    SelfRatio(Sum(s));
    SelfRatio(|s| as real);
  }

  /** Over ascending balances with a positive total every term, and so the
      accumulator, is at most 0. */
  lemma {:induction false} GiniNumeratorNonPositive(s: seq<real>, k: nat)
    requires Ascending(s) && k <= |s| && Sum(s) > 0.0
    ensures GiniNumerator(s, k, Sum(s)) <= 0.0
  {
    if k > 0 {
      GiniNumeratorNonPositive(s, k - 1);
      PrefixShareAtMost(s, k);
      GiniTermNonPositive(Sum(s[..k]), Sum(s), k, |s|);
    }
  }

  /** As coded the statistic is never positive (for any population with a
      positive total): it is minus half the Gini coefficient. */
  lemma GiniNonPositive(balances: seq<real>)
    requires |balances| > 0 && Sum(balances) > 0.0
    ensures Gini(balances) <= 0.0
  {
    var sorted := SortAscending(balances);
    SumPermutation(sorted, balances);
    GiniNumeratorNonPositive(sorted, |sorted|);
    NonPositiveRatio(GiniNumerator(sorted, |sorted|, Sum(sorted)), |sorted| as real);
  }

  /** When the counted balances and the total are count and n equal amounts,
      the two shares agree and the term vanishes. */
  lemma GiniTermOfEqualShares(cumulative: real, total: real, count: nat, n: nat, b: real)
    requires n > 0 && b != 0.0
    requires cumulative == count as real * b && total == n as real * b
    ensures total != 0.0
    ensures GiniTerm(cumulative, total, count, n) == 0.0
  {
    RatioOfScaled(cumulative, total, count as real, n as real, b);
  }

  /** With every balance equal to b the accumulator stays at 0. */
  lemma {:induction false} GiniNumeratorOfConstant(s: seq<real>, b: real, k: nat)
    requires b != 0.0 && 0 < k <= |s|
    requires forall j :: 0 <= j < |s| ==> s[j] == b
    ensures Sum(s) != 0.0
    ensures GiniNumerator(s, k, Sum(s)) == 0.0
  {
    SumConstant(s, |s|, b);
    SumConstant(s[..k], k, b);
    GiniTermOfEqualShares(Sum(s[..k]), Sum(s), k, |s|, b);
    if k > 1 {
      GiniNumeratorOfConstant(s, b, k - 1);
    }
  }

  /** Equal non-zero balances give a statistic of exactly 0. */
  lemma GiniOfEqualBalances(balances: seq<real>, b: real)
    requires |balances| > 0 && b != 0.0
    requires forall i :: 0 <= i < |balances| ==> balances[i] == b
    ensures Sum(balances) != 0.0
    ensures Gini(balances) == 0.0
  {
    var sorted := SortAscending(balances);
    forall i | 0 <= i < |sorted|
      ensures sorted[i] == b
    {
      assert sorted[i] in multiset(balances);
    }
    GiniNumeratorOfConstant(balances, b, |balances|);
    GiniNumeratorOfConstant(sorted, b, |sorted|);
    ZeroRatio(GiniNumerator(sorted, |sorted|, Sum(sorted)), |sorted| as real);
    assert GiniStatistic(sorted) == 0.0;
  }

  /** The sum of the first k points of the Lorenz curve: the shares of the
      total held by the 1, 2, ..., k smallest balances. */
  function LorenzSum(s: seq<real>, k: nat, total: real): real
    requires k <= |s| && total != 0.0
  {
    if k == 0 then 0.0 else LorenzSum(s, k - 1, total) + Sum(s[..k]) / total
  }

  /** The Gini coefficient of ascending balances from their Lorenz curve
      (trapezoid rule): 1 minus twice the area under the curve, that is
      (n + 1) / n - 2 / n times the sum of the curve's points. It is 0 for
      equal balances and (n - 1) / n when one citizen holds everything. */
  function LorenzGini(s: seq<real>): real
    requires |s| > 0 && Sum(s) != 0.0
  {
    var n := |s| as real;
    (n + 1.0) / n - 2.0 * LorenzSum(s, |s|, Sum(s)) / n
  }

  /** The accumulator is the Lorenz sum minus the population shares
      1/n + 2/n + ... + k/n. */
  lemma {:induction false} GiniNumeratorIsLorenz(s: seq<real>, k: nat, total: real)
    requires k <= |s| && total != 0.0 && |s| > 0
    ensures GiniNumerator(s, k, total) == LorenzSum(s, k, total) - Triangle(k) / |s| as real
  {
    if k > 0 {
      GiniNumeratorIsLorenz(s, k - 1, total);
      var n := |s| as real;
      assert Triangle(k) / n == Triangle(k - 1) / n + k as real / n;
    }
  }

  /** 1 + 2 + ... + k, in closed form. */
  function Triangle(k: nat): real {
    k as real * (k as real + 1.0) / 2.0
  }

  /** As coded, the statistic is minus half the Gini coefficient: the loop
      subtracts the population share from the balance share, where the usual
      definition subtracts the area under the Lorenz curve from its maximum
      and doubles it. */
  lemma HalfLorenzGini(s: seq<real>)
    requires |s| > 0 && Sum(s) != 0.0
    ensures GiniStatistic(s) == -LorenzGini(s) / 2.0
  {
    var n, g, l := |s| as real, GiniNumerator(s, |s|, Sum(s)), LorenzSum(s, |s|, Sum(s));
    GiniNumeratorIsLorenz(s, |s|, Sum(s));
    HalfArith(g, l, n, Triangle(|s|));
    assert GiniStatistic(s) == g / n;
    assert LorenzGini(s) == (n + 1.0) / n - 2.0 * l / n;
  }

  /** The arithmetic of the closed form: (l - n (n + 1) / 2 / n) / n is minus
      half of (n + 1) / n - 2 l / n. */
  lemma HalfArith(g: real, l: real, n: real, t: real)
    requires n > 0.0 && t == n * (n + 1.0) / 2.0 && g == l - t / n
    ensures g / n == -((n + 1.0) / n - 2.0 * l / n) / 2.0
  {
    var a := (n + 1.0) / 2.0;
    assert t == n * a;
    assert t / n == a;
    assert g == l - a;
    assert g / n == l / n - a / n;
    assert a / n == (n + 1.0) / n / 2.0;
    assert 2.0 * l / n / 2.0 == l / n;
  }

  /** So the stored value is minus half the Gini coefficient of the sorted
      balances. */
  lemma GiniIsMinusHalfLorenzGini(balances: seq<real>)
    requires |balances| > 0 && Sum(balances) != 0.0
    ensures Sum(SortAscending(balances)) == Sum(balances)
    ensures Gini(balances) == -LorenzGini(SortAscending(balances)) / 2.0
  {
    var sorted := SortAscending(balances);
    SumPermutation(sorted, balances);
    HalfLorenzGini(sorted);
  }

  /** An example: for balances 0 and 1 the statistic is -0.25 while the Gini
      coefficient is 0.5. */
  lemma GiniOfZeroAndOne()
    ensures Sum([0.0, 1.0]) == 1.0
    ensures GiniStatistic([0.0, 1.0]) == -0.25
    ensures LorenzGini([0.0, 1.0]) == 0.5
  {
    var s := [0.0, 1.0];
    assert s[..1] == [0.0] && s[..2] == s;
    assert Sum([0.0]) == 0.0;
    HalfLorenzGini(s);
  }

  /** The balances after the redistribution: each balance keeps 90 % after
      the 10 % tax and then gains the basic income. */
  function Redistributed(balances: seq<real>, amount: real): (r: seq<real>)
    ensures |r| == |balances|
  {
    seq(|balances|, i requires 0 <= i < |balances| => 0.9 * balances[i] + amount)
  }

  /** The tax takes a tenth of the total, and the income adds one amount per
      citizen: the new total is 0.9 of the old plus n credits. */
  lemma RedistributedTotal(balances: seq<real>, amount: real)
    ensures Sum(Redistributed(balances, amount)) == 0.9 * Sum(balances) + |balances| as real * amount
  {
    var credited := |balances| as real * amount;
    TaxedSum(balances, Redistributed(balances, amount), |balances|, amount, credited);
  }

  lemma TaxedSum(before: seq<real>, after: seq<real>, n: nat, amount: real, credited: real)
    requires n == |before| == |after|
    requires forall i :: 0 <= i < |before| ==> after[i] == 0.9 * before[i] + amount
    requires credited == n as real * amount
    ensures Sum(after) == 0.9 * Sum(before) + credited
  {
    SumAffine(before, after, n, 0.9, amount);
  }

  class DppnEconomy {
    var circulatingPP: real
    var taxRevenue: real
    var publicFunds: real
    var inflationRate: real
    var giniCoefficient: real

    constructor ()
      ensures circulatingPP == 0.0 && taxRevenue == 0.0 && publicFunds == 0.0
      ensures inflationRate == 0.0 && giniCoefficient == InitialGini
    {
      circulatingPP := 0.0;
      taxRevenue := 0.0;
      publicFunds := 0.0;
      inflationRate := 0.0;
      giniCoefficient := InitialGini;
    }

    /** Inflation against the money supply recorded by the previous call; the
        current total becomes the new baseline. */
    method CalculateInflation(cs: seq<Citizen>) returns (rate: real)
      requires |cs| > 0
      modifies this
      ensures rate == inflationRate
      ensures rate == InflationFrom(MoneySupplyGrowth(old(circulatingPP), Sum(Balances(cs))), EconomicGrowth(cs))
      ensures rate >= 0.0
      ensures circulatingPP == Sum(Balances(cs))
      ensures taxRevenue == old(taxRevenue) && publicFunds == old(publicFunds)
      ensures giniCoefficient == old(giniCoefficient)
    {
      var total := Sum(Balances(cs));
      var growth := MoneySupplyGrowth(circulatingPP, total);
      var economicGrowth := EconomicGrowth(cs);
      inflationRate := Max(0.0, growth - economicGrowth);
      circulatingPP := total;
      rate := inflationRate;
    }

    /** The accumulator loop over the sorted balances; stores and returns the
        statistic. */
    method CalculateGini(cs: seq<Citizen>) returns (gini: real)
      requires |cs| > 0 && Sum(Balances(cs)) != 0.0
      modifies this
      ensures gini == giniCoefficient == Gini(Balances(cs))
      ensures circulatingPP == old(circulatingPP) && inflationRate == old(inflationRate)
      ensures taxRevenue == old(taxRevenue) && publicFunds == old(publicFunds)
    {
      var balances := SortAscending(Balances(cs));
      SumPermutation(balances, Balances(cs));
      gini := GiniOfSorted(balances);
      giniCoefficient := gini;
    }

    /** Citizen by citizen: a 10 % tax, then the basic income. The taxes
        collected become both the tax revenue and the public funds. */
    method RedistributeWealth(cs: seq<Citizen>, amount: real)
      requires Distinct(cs)
      modifies this, cs
      ensures Balances(cs) == Redistributed(old(Balances(cs)), amount)
      ensures forall i :: 0 <= i < |cs| ==>
        && cs[i].happiness == Min(MaxHappiness, old(cs[i].happiness) + 5.0)
        && cs[i].educationLevel == old(cs[i].educationLevel)
        && cs[i].health == old(cs[i].health)
      ensures taxRevenue == publicFunds == 0.1 * Sum(old(Balances(cs)))
      ensures circulatingPP == old(circulatingPP) && inflationRate == old(inflationRate)
      ensures giniCoefficient == old(giniCoefficient)
    {
      var totalTaxRevenue := TaxAndCredit(cs, amount);
      taxRevenue := totalTaxRevenue;
      publicFunds := totalTaxRevenue;
    }
  }

  /** The accumulation loop of the Gini computation over balances already
      in ascending order: running balance and population, one term per
      citizen, and the mean of the terms. */
  method GiniOfSorted(balances: seq<real>) returns (gini: real)
    requires |balances| > 0 && Sum(balances) != 0.0
    ensures gini == GiniStatistic(balances)
  {
    var n := |balances|;
    var cumulativeBalance := 0.0;
    var cumulativePopulation := 0;
    var numerator := 0.0;
    for i := 0 to n
      invariant cumulativeBalance == Sum(balances[..i])
      invariant cumulativePopulation == i
      invariant numerator == GiniNumerator(balances, i, Sum(balances))
    {
      SumStep(balances, i);
      cumulativeBalance := cumulativeBalance + balances[i];
      cumulativePopulation := cumulativePopulation + 1;
      numerator := numerator + GiniTerm(cumulativeBalance, Sum(balances), cumulativePopulation, n);
    }
    gini := numerator / |balances| as real;
  }

  /** The loop of the redistribution: each citizen pays 10 % of its balance
      and then receives `amount`; the result is the tax collected. */
  method TaxAndCredit(cs: seq<Citizen>, amount: real) returns (collected: real)
    requires Distinct(cs)
    modifies cs
    ensures Balances(cs) == Redistributed(old(Balances(cs)), amount)
    ensures collected == 0.1 * Sum(old(Balances(cs)))
    ensures forall i :: 0 <= i < |cs| ==>
      && cs[i].happiness == Min(MaxHappiness, old(cs[i].happiness) + 5.0)
      && cs[i].educationLevel == old(cs[i].educationLevel)
      && cs[i].health == old(cs[i].health)
  {
    ghost var before := Balances(cs);
    collected := 0.0;
    for i := 0 to |cs|
      invariant collected == 0.1 * Sum(before[..i])
      invariant forall j :: 0 <= j < i ==>
        && cs[j].balance == 0.9 * before[j] + amount
        && cs[j].happiness == Min(MaxHappiness, old(cs[j].happiness) + 5.0)
        && cs[j].educationLevel == old(cs[j].educationLevel)
        && cs[j].health == old(cs[j].health)
      invariant forall j :: i <= j < |cs| ==>
        && cs[j].balance == before[j]
        && cs[j].happiness == old(cs[j].happiness)
        && cs[j].educationLevel == old(cs[j].educationLevel)
        && cs[j].health == old(cs[j].health)
    {
      SumStep(before, i);
      var tax := cs[i].PayTaxes(0.1);
      collected := collected + tax;
      cs[i].ReceiveBasicIncome(amount);
    }
    assert before[..|cs|] == before;
    assert Balances(cs) == Redistributed(before, amount) by {
      ghost var after := Balances(cs);
      forall j | 0 <= j < |cs|
        ensures after[j] == Redistributed(before, amount)[j]
      {
      }
    }
  }
}
