/** The day loop of the simulation (core/simulator.py): it wires the
    population, the economy, the education system and the market together,
    runs one day at a time and records the daily metrics. The source's random
    draws (agent types, ages, starting balances, decision draws and course
    choices) are parameters. */
module Simulation {
  import opened Numeric
  import opened Citizens
  import opened Education
  import opened Economy
  import Markets

  /** The daily basic income every citizen receives. */
  const BasicIncome: real := 100.0
  /** Price of the basic goods bought by the buy-products decision. */
  const PurchaseCost: real := 25.0
  /** Balance a citizen must exceed before a course is even attempted. */
  const InvestThreshold: real := 20.0
  /** The most a course in the table costs. */
  const MaxCourseCost: real := 100.0

  /** The base income of each agent type; starting balances are drawn between
      half and one and a half times it. */
  function BaseIncome(t: AgentType): (r: int)
    ensures r > 0
  {
    match t
    case Worker => 150
    case Entrepreneur => 200
    case Student => 80
    case Retiree => 120
  }

  /** The random draws behind one new citizen: its type, its age, the three
      draws of the citizen's own constructor and its starting balance. */
  datatype CitizenSeed = CitizenSeed(
    agentType: AgentType, age: int,
    educationDraw: int, riskDraw: real, learningDraw: real,
    balanceDraw: int)

  /** A seed whose draws lie in their ranges: the starting balance in its
      type's range and the education level between 1 and 10. */
  predicate SeedInRange(s: CitizenSeed) {
    && BaseIncome(s.agentType) / 2 <= s.balanceDraw <= BaseIncome(s.agentType) * 3 / 2
    && 1 <= s.educationDraw <= 10
  }

  /** Education levels within [0, 10] and health within [0, 100]: the ranges
      that keep economic growth within [0, 0.1]. */
  ghost predicate LevelsInRange(cs: seq<Citizen>)
    reads cs
  {
    forall i :: 0 <= i < |cs| ==>
      0.0 <= cs[i].educationLevel <= MaxEducation && 0.0 <= cs[i].health <= StartingHealth
  }

  /** The draws one citizen consumes in a day: the two draws of the decision
      rule and the course picked if it decides to invest. */
  datatype DayDraw = DayDraw(educationDraw: real, luxuryDraw: real, course: string)

  // ---------------------------------------------------------------------------
  // The income step
  // ---------------------------------------------------------------------------

  /** Every balance plus the same amount. */
  function Credited(balances: seq<real>, amount: real): (r: seq<real>)
    ensures |r| == |balances|
  {
    seq(|balances|, i requires 0 <= i < |balances| => balances[i] + amount)
  }

  /** The balances after the morning: the basic income, then the economy's
      10 % tax and a second basic income. */
  function AfterIncome(balances: seq<real>): (r: seq<real>)
    ensures |r| == |balances|
  {
    Redistributed(Credited(balances, BasicIncome), BasicIncome)
  }

  /** Each citizen ends the morning with 0.9 (b + 100) + 100. */
  lemma AfterIncomeValue(balances: seq<real>)
    ensures forall i :: 0 <= i < |balances| ==>
      AfterIncome(balances)[i] == 0.9 * (balances[i] + BasicIncome) + BasicIncome
  {
    var credited := Credited(balances, BasicIncome);
    assert forall i :: 0 <= i < |balances| ==> credited[i] == balances[i] + BasicIncome;
  }

  /** So a citizen who started the day with a non-negative balance holds at
      least 190 once the morning is over. */
  lemma MorningFloor(start: seq<real>, after: seq<real>)
    requires after == AfterIncome(start)
    ensures forall i :: 0 <= i < |start| && start[i] >= 0.0 ==> after[i] >= 190.0
    ensures |start| > 0 && (forall i :: 0 <= i < |start| ==> start[i] >= 0.0) ==> Sum(after) > 0.0
  {
    AfterIncomeValue(start);
    if forall i :: 0 <= i < |start| ==> start[i] >= 0.0 {
      Markets.PositiveSum(after);
    }
  }

  /** Credits every citizen with the same amount, in population order. */
  method CreditAll(cs: seq<Citizen>, amount: real)
    requires Distinct(cs)
    modifies cs
    ensures Balances(cs) == Credited(old(Balances(cs)), amount)
    ensures forall i :: 0 <= i < |cs| ==>
      && cs[i].happiness == Min(MaxHappiness, old(cs[i].happiness) + 5.0)
      && cs[i].educationLevel == old(cs[i].educationLevel)
      && cs[i].health == old(cs[i].health)
  {
    ghost var before := Balances(cs);
    for i := 0 to |cs|
      invariant forall j :: 0 <= j < i ==>
        && cs[j].balance == before[j] + amount
        && cs[j].happiness == Min(MaxHappiness, old(cs[j].happiness) + 5.0)
        && cs[j].educationLevel == old(cs[j].educationLevel)
        && cs[j].health == old(cs[j].health)
      invariant forall j :: i <= j < |cs| ==>
        && cs[j].balance == before[j]
        && cs[j].happiness == old(cs[j].happiness)
        && cs[j].educationLevel == old(cs[j].educationLevel)
        && cs[j].health == old(cs[j].health)
    {
      cs[i].ReceiveBasicIncome(amount);
    }
    assert Balances(cs) == Credited(before, amount) by {
      ghost var after := Balances(cs);
      forall j | 0 <= j < |cs|
        ensures after[j] == Credited(before, amount)[j]
      {
      }
    }
  }

  /** The basic income for everyone, then the economy's redistribution,
      which taxes and credits the income a second time. */
  method Morning(economy: DppnEconomy, cs: seq<Citizen>)
    requires Distinct(cs)
    modifies cs, economy
    ensures Balances(cs) == AfterIncome(old(Balances(cs)))
    ensures forall i :: 0 <= i < |cs| ==>
      && cs[i].happiness == Min(MaxHappiness, Min(MaxHappiness, old(cs[i].happiness) + 5.0) + 5.0)
      && cs[i].educationLevel == old(cs[i].educationLevel)
      && cs[i].health == old(cs[i].health)
    ensures economy.taxRevenue == economy.publicFunds
         == 0.1 * Sum(Credited(old(Balances(cs)), BasicIncome))
    ensures economy.circulatingPP == old(economy.circulatingPP)
    ensures economy.inflationRate == old(economy.inflationRate)
    ensures economy.giniCoefficient == old(economy.giniCoefficient)
  {
    CreditAll(cs, BasicIncome);
    label Credited:
    economy.RedistributeWealth(cs, BasicIncome);
    forall i | 0 <= i < |cs|
      ensures cs[i].happiness == Min(MaxHappiness, Min(MaxHappiness, old(cs[i].happiness) + 5.0) + 5.0)
    {
      assert old@Credited(cs[i].happiness) == Min(MaxHappiness, old(cs[i].happiness) + 5.0);
    }
  }

  // ---------------------------------------------------------------------------
  // Processing one citizen's decisions
  // ---------------------------------------------------------------------------

  /** What a citizen's decisions act on: its balance, its happiness and the
      education system's enrolment ledger. */
  datatype Account = Account(balance: real, happiness: real, ledger: map<int, Enrollment>)

  /** The most a decision can take from a balance. */
  function CostCap(d: Decision): (r: real)
    ensures r >= 0.0
  {
    match d
    case BuyProducts => PurchaseCost
    case InvestInEducation => MaxCourseCost
    case BuyLuxury => 0.0
  }

  /** Carries out one decision for the citizen with the given id. Investing
      attempts an enrolment in `course` only above the threshold; buying takes
      25 and adds 5 happiness (capped) when the citizen can pay; the luxury tag
      does nothing. */
  function ApplyDecision(a: Account, id: int, d: Decision, course: string): (r: Account)
    ensures r.balance <= a.balance <= r.balance + CostCap(d)
    ensures a.balance >= 0.0 ==> r.balance >= 0.0
    ensures a.happiness <= MaxHappiness ==> a.happiness <= r.happiness <= MaxHappiness
    ensures r.ledger.Keys <= a.ledger.Keys + {id}
    ensures forall k :: k in r.ledger && k != id ==> k in a.ledger && r.ledger[k] == a.ledger[k]
    ensures d == BuyLuxury ==> r == a
    ensures r.balance < a.balance <==>
      (d == BuyProducts && a.balance >= PurchaseCost)
      || (d == InvestInEducation && a.balance > InvestThreshold && CanEnroll(a.balance, course))
  {
    match d
    case InvestInEducation =>
      if a.balance > InvestThreshold && CanEnroll(a.balance, course) then
        CourseTypesAreTheTable();
        Account(a.balance - Courses[course].cost, a.happiness, a.ledger[id := NewEnrollment(course)])
      else a
    case BuyProducts =>
      if a.balance >= PurchaseCost then
        Account(a.balance - PurchaseCost, Min(MaxHappiness, a.happiness + 5.0), a.ledger)
      else a
    case BuyLuxury => a
  }

  /** The decisions carried out in order. */
  function ApplyDecisions(a: Account, id: int, ds: seq<Decision>, course: string): Account
    decreases |ds|
  {
    if |ds| == 0 then a
    else ApplyDecision(ApplyDecisions(a, id, ds[..|ds| - 1], course), id, ds[|ds| - 1], course)
  }

  /** The sum of the decisions' caps. */
  function TotalCap(ds: seq<Decision>): real
    decreases |ds|
  {
    if |ds| == 0 then 0.0 else TotalCap(ds[..|ds| - 1]) + CostCap(ds[|ds| - 1])
  }

  /** The caps of all tags ranked below `r`. */
  function CapBelow(r: nat): real {
    if r == 0 then 0.0
    else if r == 1 then PurchaseCost
    else PurchaseCost + MaxCourseCost
  }

  /** Tags in rule order cost at most the caps of the tags ranked below any
      bound on their ranks. */
  lemma {:induction false} OrderedCap(ds: seq<Decision>, bound: nat)
    requires InDecisionOrder(ds)
    requires forall i :: 0 <= i < |ds| ==> Rank(ds[i]) < bound
    ensures TotalCap(ds) <= CapBelow(bound)
    decreases |ds|
  {
    if |ds| > 0 {
      var last := ds[|ds| - 1];
      var prefix := ds[..|ds| - 1];
      assert forall i :: 0 <= i < |prefix| ==> Rank(prefix[i]) < Rank(last);
      OrderedCap(prefix, Rank(last));
      assert CapBelow(Rank(last)) + CostCap(last) == CapBelow(Rank(last) + 1);
    }
  }

  /** Decisions never raise a balance, never take it below zero, and take no
      more than the sum of their caps; happiness never falls and stays capped. */
  lemma {:induction false} ApplyDecisionsBounds(a: Account, id: int, ds: seq<Decision>, course: string)
    ensures ApplyDecisions(a, id, ds, course).balance <= a.balance
    ensures a.balance - TotalCap(ds) <= ApplyDecisions(a, id, ds, course).balance
    ensures a.balance >= 0.0 ==> ApplyDecisions(a, id, ds, course).balance >= 0.0
    ensures a.happiness <= MaxHappiness ==>
      a.happiness <= ApplyDecisions(a, id, ds, course).happiness <= MaxHappiness
    decreases |ds|
  {
    if |ds| > 0 {
      ApplyDecisionsBounds(a, id, ds[..|ds| - 1], course);
    }
  }

  /** A day's decisions, which come in rule order, take at most 125 from a
      balance: one purchase and one course. */
  lemma DayDecisionsCost(a: Account, id: int, ds: seq<Decision>, course: string)
    requires InDecisionOrder(ds)
    ensures a.balance - (PurchaseCost + MaxCourseCost) <= ApplyDecisions(a, id, ds, course).balance
  {
    OrderedCap(ds, 3);
    ApplyDecisionsBounds(a, id, ds, course);
  }

  /** Enrolments only ever add or rewrite the deciding citizen's own entry and
      only for a course of the table. */
  lemma {:induction false} ApplyDecisionsLedger(a: Account, id: int, ds: seq<Decision>, course: string)
    requires forall k :: k in a.ledger ==> a.ledger[k].course in Courses
    ensures forall k :: k in ApplyDecisions(a, id, ds, course).ledger ==>
      ApplyDecisions(a, id, ds, course).ledger[k].course in Courses
    ensures forall k :: k != id && k in ApplyDecisions(a, id, ds, course).ledger ==>
      k in a.ledger && ApplyDecisions(a, id, ds, course).ledger[k] == a.ledger[k]
    decreases |ds|
  {
    if |ds| > 0 {
      ApplyDecisionsLedger(a, id, ds[..|ds| - 1], course);
    }
  }

  /** The share of citizens below the poverty line, in percent (the source's
      default line is 50). */
  function PovertyRate(cs: seq<Citizen>, povertyLine: real): (r: real)
    reads cs
    requires |cs| > 0
    ensures 0.0 <= r <= 100.0
    ensures r == 0.0 <==> forall i :: 0 <= i < |cs| ==> cs[i].balance >= povertyLine
    ensures r == 100.0 <==> forall i :: 0 <= i < |cs| ==> cs[i].balance < povertyLine
  {
    var balances := Balances(cs);
    var poor := CountBelow(balances, povertyLine);
    var n := |cs| as real;
    var r := poor as real / n * 100.0;
    PovertyArith(poor as real, n);
    r
  }

  /** Arithmetic behind the percentage: p / n * 100 lies in [0, 100] and hits
      its ends exactly at p == 0 and p == n. */
  lemma PovertyArith(p: real, n: real)
    requires n > 0.0 && 0.0 <= p <= n
    ensures 0.0 <= p / n * 100.0 <= 100.0
    ensures p / n * 100.0 == 0.0 <==> p == 0.0
    ensures p / n * 100.0 == 100.0 <==> p == n
  {
  }

  /** One day's entry of the metric series. */
  datatype DayMetrics = DayMetrics(
    balances: seq<real>, gini: real, inflation: real, happiness: real, education: real)

  /** The five metric series the simulator records, one entry per day. */
  datatype Metrics = Metrics(
    dailyBalances: seq<seq<real>>, giniCoefficients: seq<real>, inflationRates: seq<real>,
    averageHappiness: seq<real>, educationLevels: seq<real>)
  {
    /** The number of recorded days. */
    function Days(): nat {
      |dailyBalances|
    }

    /** All five series have one entry per recorded day. */
    predicate Aligned() {
      && |giniCoefficients| == Days() && |inflationRates| == Days()
      && |averageHappiness| == Days() && |educationLevels| == Days()
    }

    /** The entry of day `k`. */
    function Entry(k: nat): DayMetrics
      requires Aligned() && k < Days()
    {
      DayMetrics(dailyBalances[k], giniCoefficients[k], inflationRates[k],
                 averageHappiness[k], educationLevels[k])
    }

    /** Appends one day's entry: one more day, the new entry last and every
        earlier entry untouched. */
    function Record(e: DayMetrics): (m: Metrics)
      requires Aligned()
      ensures m.Aligned() && m.Days() == Days() + 1
      ensures m.Entry(Days()) == e
      ensures forall k :: 0 <= k < Days() ==> m.Entry(k) == Entry(k)
    {
      Metrics(dailyBalances + [e.balances], giniCoefficients + [e.gini],
              inflationRates + [e.inflation], averageHappiness + [e.happiness],
              educationLevels + [e.education])
    }
  }

  /** The series before the first day. */
  const NoMetrics: Metrics := Metrics([], [], [], [], [])

  /** The day's metric entry, read from the population as it stands when the
      metrics are taken. The economy recomputes and keeps the Gini value and
      the inflation rate, whose baseline is the money supply it measured last. */
  method Measure(economy: DppnEconomy, cs: seq<Citizen>) returns (entry: DayMetrics)
    requires |cs| > 0 && Sum(Balances(cs)) != 0.0
    modifies economy
    ensures entry.balances == old(Balances(cs))
    ensures entry.gini == Gini(old(Balances(cs)))
    ensures entry.inflation == economy.inflationRate
    ensures entry.happiness == old(Mean(HappinessLevels(cs)))
    ensures entry.education == old(Mean(EducationLevels(cs)))
    ensures economy.inflationRate == InflationFrom(
      MoneySupplyGrowth(old(economy.circulatingPP), old(Sum(Balances(cs)))), old(EconomicGrowth(cs)))
    ensures economy.circulatingPP == old(Sum(Balances(cs)))
    ensures economy.giniCoefficient == Gini(old(Balances(cs)))
    ensures economy.taxRevenue == old(economy.taxRevenue)
    ensures economy.publicFunds == old(economy.publicFunds)
  {
    var balances := Balances(cs);
    var happiness := Mean(HappinessLevels(cs));
    var education := Mean(EducationLevels(cs));
    ghost var growth := EconomicGrowth(cs);
    var gini := economy.CalculateGini(cs);
    assert Balances(cs) == balances && EconomicGrowth(cs) == growth;
    var inflation := economy.CalculateInflation(cs);
    entry := DayMetrics(balances, gini, inflation, happiness, education);
  }

  /** A non-empty population whose balances are all at least 65 holds a
      positive amount of money. */
  lemma MoneyAfterDay(cs: seq<Citizen>)
    requires |cs| > 0 && forall i :: 0 <= i < |cs| ==> cs[i].balance >= 65.0
    ensures Sum(Balances(cs)) > 0.0
  {
    Markets.PositiveSum(Balances(cs));
  }

  /** Citizens none of whose fields changed read the same in every series. */
  twostate lemma UnchangedCitizens(cs: seq<Citizen>)
    requires |cs| > 0 && unchanged(cs)
    ensures Balances(cs) == old(Balances(cs))
    ensures HappinessLevels(cs) == old(HappinessLevels(cs))
    ensures EducationLevels(cs) == old(EducationLevels(cs))
    ensures EconomicGrowth(cs) == old(EconomicGrowth(cs))
    ensures LevelsInRange(cs) == old(LevelsInRange(cs))
  {
  }

  /** The day's second money-supply reading sees no more money than the first
      (the decisions only spend), and economic growth is not negative, so the
      inflation it yields is zero. */
  lemma SecondReadingZero(first: real, second: real, growth: real)
    requires first > 0.0 && second <= first && growth >= 0.0
    ensures MoneySupplyGrowth(first, second) <= 0.0
    ensures InflationFrom(MoneySupplyGrowth(first, second), growth) == 0.0
  {
  }

  class Simulator {
    var citizens: seq<Citizen>
    const economy: DppnEconomy
    const educationSystem: EducationSystem
    const market: Markets.Market
    var day: nat
    var metrics: Metrics

    /** Distinct citizens with non-negative balances, consistent components
        and one metric entry per day. */
    ghost predicate Valid()
      reads this, citizens, educationSystem, market, market.products
    {
      && Distinct(citizens)
      && (forall i :: 0 <= i < |citizens| ==> citizens[i].balance >= 0.0)
      && LevelsInRange(citizens)
      && educationSystem.Valid()
      && market.Valid()
      && metrics.Aligned() && metrics.Days() == day
    }

    /** An empty population, fresh components and no metrics yet. */
    constructor ()
      ensures Valid()
      ensures citizens == [] && day == 0
      ensures fresh(economy) && fresh(educationSystem) && fresh(market)
      ensures forall i :: 0 <= i < |market.products| ==> fresh(market.products[i])
      ensures economy.circulatingPP == 0.0 && economy.giniCoefficient == InitialGini
      ensures educationSystem.enrolled == map[]
    {
      citizens := [];
      economy := new DppnEconomy();
      educationSystem := new EducationSystem();
      market := new Markets.Market();
      day := 0;
      metrics := NoMetrics;
    }

    /** Appends one fresh citizen per seed; the k-th gets id k, its seed's
        type, age and draws, and the seed's balance instead of the default
        100. */
    method InitializePopulation(seeds: seq<CitizenSeed>)
      requires Valid()
      requires forall k :: 0 <= k < |seeds| ==> SeedInRange(seeds[k])
      modifies this
      ensures Valid()
      ensures |citizens| == |old(citizens)| + |seeds|
      ensures citizens[..|old(citizens)|] == old(citizens)
      ensures forall k :: 0 <= k < |seeds| ==>
        var c := citizens[|old(citizens)| + k];
        && fresh(c) && c.id == k
        && c.agentType == seeds[k].agentType && c.age == seeds[k].age
        && c.balance == seeds[k].balanceDraw as real
        && c.educationLevel == seeds[k].educationDraw as real
        && c.riskTolerance == seeds[k].riskDraw && c.learningAbility == seeds[k].learningDraw
        && c.happiness == StartingHappiness && c.health == StartingHealth
      ensures day == old(day) && metrics == old(metrics)
    {
      var born: seq<Citizen> := [];
      for k := 0 to |seeds|
        invariant citizens == old(citizens) + born
        invariant |born| == k
        invariant forall j :: 0 <= j < k ==>
          && fresh(born[j]) && born[j].id == j
          && born[j].agentType == seeds[j].agentType && born[j].age == seeds[j].age
          && born[j].balance == seeds[j].balanceDraw as real
          && born[j].educationLevel == seeds[j].educationDraw as real
          && born[j].riskTolerance == seeds[j].riskDraw && born[j].learningAbility == seeds[j].learningDraw
          && born[j].happiness == StartingHappiness && born[j].health == StartingHealth
        invariant Distinct(born)
        invariant Valid()
        invariant day == old(day) && metrics == old(metrics)
      {
        var s := seeds[k];
        var c := new Citizen(k, s.agentType, s.age, s.educationDraw, s.riskDraw, s.learningDraw);
        c.balance := s.balanceDraw as real;
        born := born + [c];
        citizens := citizens + [c];
      }
    }

    /** Carries out one citizen's decisions in order; `course` is the course
        drawn when the citizen invests. */
    method ProcessDecisions(c: Citizen, decisions: seq<Decision>, course: string)
      requires educationSystem.Valid()
      modifies c, educationSystem
      ensures educationSystem.Valid()
      ensures Account(c.balance, c.happiness, educationSystem.enrolled)
        == ApplyDecisions(Account(old(c.balance), old(c.happiness), old(educationSystem.enrolled)),
                          c.id, decisions, course)
      ensures c.educationLevel == old(c.educationLevel) && c.health == old(c.health)
    {
      ghost var start := Account(c.balance, c.happiness, educationSystem.enrolled);
      for i := 0 to |decisions|
        invariant educationSystem.Valid()
        invariant Account(c.balance, c.happiness, educationSystem.enrolled)
          == ApplyDecisions(start, c.id, decisions[..i], course)
        invariant c.educationLevel == old(c.educationLevel) && c.health == old(c.health)
      {
        assert decisions[..i + 1][..i] == decisions[..i];
        var d := decisions[i];
        if d == InvestInEducation && c.balance > InvestThreshold {
          var _ := educationSystem.EnrollStudent(c, course);
        } else if d == BuyProducts {
          if c.balance >= PurchaseCost {
            c.balance := c.balance - PurchaseCost;
            c.happiness := Min(MaxHappiness, c.happiness + 5.0);
          }
        }
      }
      assert decisions[..|decisions|] == decisions;
    }

    /** One citizen after another: the decision rule on its current state,
        then its decisions. Each balance falls by at most one purchase and one
        course and never below zero; happiness never falls below its old value
        nor rises above the cap. */
    method DecideAll(draws: seq<DayDraw>)
      requires |draws| == |citizens| && Distinct(citizens) && educationSystem.Valid()
      modifies citizens, educationSystem
      ensures educationSystem.Valid()
      ensures forall i :: 0 <= i < |citizens| ==>
        && old(citizens[i].balance) - (PurchaseCost + MaxCourseCost) <= citizens[i].balance
        && citizens[i].balance <= old(citizens[i].balance)
        && (old(citizens[i].balance) >= 0.0 ==> citizens[i].balance >= 0.0)
        && (old(citizens[i].happiness) <= MaxHappiness ==>
              old(citizens[i].happiness) <= citizens[i].happiness <= MaxHappiness)
        && citizens[i].educationLevel == old(citizens[i].educationLevel)
        && citizens[i].health == old(citizens[i].health)
    {
      ghost var balances := Balances(citizens);
      ghost var moods := HappinessLevels(citizens);
      for i := 0 to |citizens|
        invariant educationSystem.Valid()
        invariant forall j :: 0 <= j < i ==>
          && balances[j] - (PurchaseCost + MaxCourseCost) <= citizens[j].balance <= balances[j]
          && (balances[j] >= 0.0 ==> citizens[j].balance >= 0.0)
          && (moods[j] <= MaxHappiness ==> moods[j] <= citizens[j].happiness <= MaxHappiness)
        invariant forall j :: i <= j < |citizens| ==>
          citizens[j].balance == balances[j] && citizens[j].happiness == moods[j]
        invariant forall j :: 0 <= j < |citizens| ==>
          citizens[j].educationLevel == old(citizens[j].educationLevel)
          && citizens[j].health == old(citizens[j].health)
      {
        assert forall j :: 0 <= j < |citizens| && j != i ==> citizens[j] != citizens[i];
        var c := citizens[i];
        var decisions := c.Decide(draws[i].educationDraw, draws[i].luxuryDraw);
        ghost var start := Account(c.balance, c.happiness, educationSystem.enrolled);
        ProcessDecisions(c, decisions, draws[i].course);
        DayDecisionsCost(start, c.id, decisions, draws[i].course);
        ApplyDecisionsBounds(start, c.id, decisions, draws[i].course);
      }
    }

    /** The decisions as the rest of the day sees them: from balances of at
        least 190, none falls by more than 125 and none rises, so every
        balance stays at 65 or more and the money supply, still positive, does
        not grow; education and health stay in their ranges. */
    method SpendingRound(draws: seq<DayDraw>)
      requires |draws| == |citizens| > 0 && Distinct(citizens) && educationSystem.Valid()
      requires forall i :: 0 <= i < |citizens| ==> citizens[i].balance >= 190.0
      modifies citizens, educationSystem
      ensures educationSystem.Valid()
      ensures forall i :: 0 <= i < |citizens| ==> citizens[i].balance >= 65.0
      ensures 0.0 < Sum(Balances(citizens)) <= old(Sum(Balances(citizens)))
      ensures LevelsInRange(citizens) == old(LevelsInRange(citizens))
    {
      ghost var balances := Balances(citizens);
      DecideAll(draws);
      SumPointwiseAtMost(Balances(citizens), balances);
      MoneyAfterDay(citizens);
    }

    /** Appends the day's entry to every metric series: the balances, the Gini
        value and the inflation rate (both recomputed by the economy, which
        keeps them), the mean happiness and the mean education level. */
    method CalculateMetrics()
      requires |citizens| > 0 && Sum(Balances(citizens)) != 0.0 && metrics.Aligned()
      modifies this, economy
      ensures citizens == old(citizens) && day == old(day)
      ensures metrics == old(metrics).Record(DayMetrics(
        old(Balances(citizens)), Gini(old(Balances(citizens))), economy.inflationRate,
        old(Mean(HappinessLevels(citizens))), old(Mean(EducationLevels(citizens)))))
      ensures economy.inflationRate == InflationFrom(
        MoneySupplyGrowth(old(economy.circulatingPP), old(Sum(Balances(citizens)))),
        old(EconomicGrowth(citizens)))
      ensures economy.circulatingPP == old(Sum(Balances(citizens)))
      ensures economy.giniCoefficient == Gini(old(Balances(citizens)))
      ensures economy.taxRevenue == old(economy.taxRevenue)
      ensures economy.publicFunds == old(economy.publicFunds)
    {
      var entry := Measure(economy, citizens);
      metrics := metrics.Record(entry);
    }

    /** One day: income for all, tax and redistribution, a study day, the
        market's repricing at the current inflation, every citizen's decisions,
        then the metrics. Every series grows by exactly one entry, and each
        balance ends the day at 65 or more: the morning lifts it to at least
        190 and the decisions take at most 125. The inflation recorded is
        measured against the money supply read after the morning, and since
        the decisions only spend, it is always zero. */
    method RunDay(draws: seq<DayDraw>)
      requires Valid() && |citizens| > 0 && |draws| == |citizens|
      modifies this, citizens, economy, educationSystem, market, market.products
      ensures Valid()
      ensures day == old(day) + 1 && citizens == old(citizens)
      ensures forall i :: 0 <= i < |citizens| ==> citizens[i].balance >= 65.0
      ensures metrics.Days() == old(metrics.Days()) + 1
      ensures forall k :: 0 <= k < old(metrics.Days()) ==> metrics.Entry(k) == old(metrics).Entry(k)
      ensures Sum(Balances(citizens)) > 0.0
      ensures metrics.Entry(old(day)) == DayMetrics(
        Balances(citizens), Gini(Balances(citizens)), economy.inflationRate,
        Mean(HappinessLevels(citizens)), Mean(EducationLevels(citizens)))
      ensures economy.inflationRate == InflationFrom(
        MoneySupplyGrowth(Sum(AfterIncome(old(Balances(citizens)))), Sum(Balances(citizens))),
        EconomicGrowth(citizens))
      ensures economy.inflationRate == 0.0
      ensures economy.circulatingPP == Sum(Balances(citizens))
    {
      StartDay();
      DecideAndRecord(draws);
    }

    /** The day loop: one `RunDay` per element of `draws`. Every day it
        records has inflation 0, and earlier entries are kept. */
    method RunSimulation(draws: seq<seq<DayDraw>>)
      requires Valid() && |citizens| > 0
      requires forall d :: 0 <= d < |draws| ==> |draws[d]| == |citizens|
      modifies this, citizens, economy, educationSystem, market, market.products
      ensures Valid() && citizens == old(citizens)
      ensures day == old(day) + |draws| && metrics.Days() == old(metrics.Days()) + |draws|
      ensures forall k :: 0 <= k < old(metrics.Days()) ==> metrics.Entry(k) == old(metrics).Entry(k)
      ensures forall k :: old(metrics.Days()) <= k < metrics.Days() ==> metrics.inflationRates[k] == 0.0
      ensures |draws| > 0 ==> forall i :: 0 <= i < |citizens| ==> citizens[i].balance >= 65.0
    {
      for d := 0 to |draws|
        invariant Valid() && citizens == old(citizens)
        invariant day == old(day) + d && metrics.Days() == old(metrics.Days()) + d
        invariant forall k :: 0 <= k < old(metrics.Days()) ==> metrics.Entry(k) == old(metrics).Entry(k)
        invariant forall k :: old(metrics.Days()) <= k < metrics.Days() ==> metrics.inflationRates[k] == 0.0
        invariant d > 0 ==> forall i :: 0 <= i < |citizens| ==> citizens[i].balance >= 65.0
      {
        ghost var before := metrics;
        NextDay(draws[d]);
        assert forall k :: 0 <= k < before.Days() ==>
          metrics.inflationRates[k] == metrics.Entry(k).inflation == before.Entry(k).inflation;
      }
    }

    /** `RunDay` as the day loop sees it: the invariant, the day count, the
        kept entries, the new entry's zero inflation and the balance floor. */
    method NextDay(draw: seq<DayDraw>)
      requires Valid() && |citizens| > 0 && |draw| == |citizens|
      modifies this, citizens, economy, educationSystem, market, market.products
      ensures Valid() && citizens == old(citizens)
      ensures day == old(day) + 1 && metrics.Days() == old(metrics.Days()) + 1
      ensures forall k :: 0 <= k < old(metrics.Days()) ==> metrics.Entry(k) == old(metrics).Entry(k)
      ensures metrics.inflationRates[old(metrics.Days())] == 0.0
      ensures forall i :: 0 <= i < |citizens| ==> citizens[i].balance >= 65.0
    {
      RunDay(draw);
    }

    /** The decisions, then the metrics, starting from the morning's state:
        balances of at least 190 whose sum is the economy's money supply.
        The decisions only spend, so the inflation recorded is zero. */
    method DecideAndRecord(draws: seq<DayDraw>)
      requires Valid() && |citizens| > 0 && |draws| == |citizens|
      requires forall i :: 0 <= i < |citizens| ==> citizens[i].balance >= 190.0
      requires economy.circulatingPP == Sum(Balances(citizens)) > 0.0
      modifies this, citizens, educationSystem, economy
      ensures educationSystem.Valid() && LevelsInRange(citizens)
      ensures metrics.Aligned() && metrics.Days() == day
      ensures day == old(day) + 1 && citizens == old(citizens)
      ensures forall i :: 0 <= i < |citizens| ==> citizens[i].balance >= 65.0
      ensures Sum(Balances(citizens)) > 0.0
      ensures metrics == old(metrics).Record(DayMetrics(
        Balances(citizens), Gini(Balances(citizens)), economy.inflationRate,
        Mean(HappinessLevels(citizens)), Mean(EducationLevels(citizens))))
      ensures economy.inflationRate == InflationFrom(
        MoneySupplyGrowth(old(economy.circulatingPP), Sum(Balances(citizens))),
        EconomicGrowth(citizens))
      ensures economy.inflationRate == 0.0
      ensures economy.circulatingPP == Sum(Balances(citizens))
    {
      SpendingRound(draws);
      ghost var second := Sum(Balances(citizens));
      EndDay();
      EconomicGrowthBounds(citizens);
      SecondReadingZero(old(economy.circulatingPP), second, EconomicGrowth(citizens));
    }

    /** Everything before the decisions: income, redistribution, study and the
        market update. Balances are the morning's, so those that were not
        negative are now at least 190, and the economy's money supply is their
        sum. */
    method StartDay()
      requires Valid() && |citizens| > 0
      modifies citizens, economy, educationSystem, market, market.products
      ensures educationSystem.Valid() && market.Valid() && LevelsInRange(citizens)
      ensures Balances(citizens) == AfterIncome(old(Balances(citizens)))
      ensures forall i :: 0 <= i < |citizens| ==> citizens[i].balance >= 190.0
      ensures economy.circulatingPP == Sum(Balances(citizens)) > 0.0
    {
      Morning(economy, citizens);
      MorningFloor(old(Balances(citizens)), Balances(citizens));
      Study();
      UpdateMarket();
    }

    /** The metrics, then the day counter. */
    method EndDay()
      requires |citizens| > 0 && Sum(Balances(citizens)) != 0.0 && metrics.Aligned()
      modifies this, economy
      ensures citizens == old(citizens) && day == old(day) + 1
      ensures metrics.Aligned() && metrics.Days() == old(metrics.Days()) + 1
      ensures forall k :: 0 <= k < old(metrics.Days()) ==> metrics.Entry(k) == old(metrics).Entry(k)
      ensures metrics == old(metrics).Record(DayMetrics(
        Balances(citizens), Gini(Balances(citizens)), economy.inflationRate,
        Mean(HappinessLevels(citizens)), Mean(EducationLevels(citizens))))
      ensures economy.inflationRate == InflationFrom(
        MoneySupplyGrowth(old(economy.circulatingPP), Sum(Balances(citizens))),
        EconomicGrowth(citizens))
      ensures economy.circulatingPP == Sum(Balances(citizens))
      ensures economy.giniCoefficient == Gini(Balances(citizens))
      ensures economy.taxRevenue == old(economy.taxRevenue)
      ensures economy.publicFunds == old(economy.publicFunds)
      ensures Balances(citizens) == old(Balances(citizens))
      ensures LevelsInRange(citizens) == old(LevelsInRange(citizens))
    {
      CalculateMetrics();
      day := day + 1;
      UnchangedCitizens(citizens);
    }

    /** The education system's study day; balances are left alone and
        education levels stay within their range. */
    method Study()
      requires Distinct(citizens) && educationSystem.Valid() && LevelsInRange(citizens)
      modifies citizens, educationSystem
      ensures educationSystem.Valid() && LevelsInRange(citizens)
      ensures Balances(citizens) == old(Balances(citizens))
      ensures forall i :: 0 <= i < |citizens| ==>
        citizens[i].balance == old(citizens[i].balance)
        && (old(citizens[i].happiness) <= MaxHappiness ==> citizens[i].happiness <= MaxHappiness)
    {
      var completed := educationSystem.ProcessEducation(citizens);
    }

    /** The day's inflation, then the market's repricing at that rate. */
    method UpdateMarket()
      requires |citizens| > 0 && market.Valid()
      modifies economy, market, market.products
      ensures market.Valid()
      ensures economy.inflationRate == InflationFrom(
        MoneySupplyGrowth(old(economy.circulatingPP), Sum(Balances(citizens))),
        EconomicGrowth(citizens))
      ensures economy.circulatingPP == Sum(Balances(citizens))
      ensures Balances(citizens) == old(Balances(citizens))
      ensures LevelsInRange(citizens) == old(LevelsInRange(citizens))
    {
      var inflation := economy.CalculateInflation(citizens);
      label Repricing:
      var alerts := market.UpdateMarketConditions(citizens, inflation);
      UnchangedCitizens@Repricing(citizens);
      UnchangedCitizens(citizens);
    }
  }

  /** A new simulator with one citizen per seed, run for one day per element
      of `draws`: one entry per day, every recorded inflation 0, and every
      balance at 65 or more once a day has run. */
  method Simulate(seeds: seq<CitizenSeed>, draws: seq<seq<DayDraw>>) returns (sim: Simulator)
    requires |seeds| > 0 && forall k :: 0 <= k < |seeds| ==> SeedInRange(seeds[k])
    requires forall d :: 0 <= d < |draws| ==> |draws[d]| == |seeds|
    ensures sim.Valid() && |sim.citizens| == |seeds|
    ensures sim.day == |draws| && sim.metrics.Days() == |draws|
    ensures forall k :: 0 <= k < |draws| ==> sim.metrics.inflationRates[k] == 0.0
    ensures |draws| > 0 ==> forall i :: 0 <= i < |sim.citizens| ==> sim.citizens[i].balance >= 65.0
  {
    sim := new Simulator();
    sim.InitializePopulation(seeds);
    assert |sim.citizens| == |seeds|;
    assert forall k :: 0 <= k < |seeds| ==> sim.citizens[k].age == seeds[k].age && fresh(sim.citizens[k]);
    sim.RunSimulation(draws);
  }
}
