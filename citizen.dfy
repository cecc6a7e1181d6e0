/** One agent of the economy (core/citizen.py): a token balance, an education
    level and a happiness score that the economy, the education system and the
    simulator update in place, plus the daily decision rule. The random draws the
    source takes inside its methods are parameters here. */
module Citizens {
  import opened Numeric

  datatype AgentType = Worker | Entrepreneur | Student | Retiree

  /** The decision tags, a closed set instead of the source's free-form strings. */
  datatype Decision = BuyProducts | InvestInEducation | BuyLuxury

  /** Position of a tag in the fixed order the rule considers them. */
  function Rank(d: Decision): nat {
    match d
    case BuyProducts => 0
    case InvestInEducation => 1
    case BuyLuxury => 2
  }

  /** Tags appear in rule order, each at most once. */
  predicate InDecisionOrder(ds: seq<Decision>) {
    forall i, j :: 0 <= i < j < |ds| ==> Rank(ds[i]) < Rank(ds[j])
  }

  /** Food plus basic housing: the balance above which a citizen buys basics. */
  const BasicNeedsCost: real := 45.0
  const StartingBalance: real := 100.0
  const StartingHealth: real := 100.0
  const StartingHappiness: real := 50.0
  const MaxHappiness: real := 100.0
  const MaxEducation: real := 10.0

  function Tag(emit: bool, d: Decision): seq<Decision> {
    if emit then [d] else []
  }

  class Citizen {
    const id: int
    const agentType: AgentType
    const age: int
    var balance: real
    var educationLevel: real
    var health: real
    var happiness: real
    const riskTolerance: real
    const learningAbility: real

    /** `educationDraw`, `riskDraw` and `learningDraw` stand for the source's
        randint(1, 10), uniform(0.1, 0.9) and uniform(0.3, 1.0). */
    constructor (id: int, agentType: AgentType, age: int, educationDraw: int, riskDraw: real, learningDraw: real)
      ensures this.id == id && this.agentType == agentType && this.age == age
      ensures balance == StartingBalance && health == StartingHealth && happiness == StartingHappiness
      ensures educationLevel == educationDraw as real
      ensures riskTolerance == riskDraw && learningAbility == learningDraw
    {
      this.id := id;
      this.agentType := agentType;
      this.age := age;
      balance := StartingBalance;
      educationLevel := educationDraw as real;
      health := StartingHealth;
      happiness := StartingHappiness;
      riskTolerance := riskDraw;
      learningAbility := learningDraw;
    }

    /** Credits `amount`; happiness rises by 5 but never past 100. */
    method ReceiveBasicIncome(amount: real)
      modifies this
      ensures balance == old(balance) + amount
      ensures happiness == Min(MaxHappiness, old(happiness) + 5.0)
      ensures happiness <= MaxHappiness
      ensures educationLevel == old(educationLevel) && health == old(health)
    {
      balance := balance + amount;
      happiness := Min(MaxHappiness, happiness + 5.0);
    }

    /** Takes `rate` of the balance and returns it; the rate is not validated. */
    method PayTaxes(rate: real) returns (tax: real)
      modifies this
      ensures tax == old(balance) * rate
      ensures old(balance) == balance + tax
      ensures 0.0 <= rate <= 1.0 && old(balance) >= 0.0 ==> 0.0 <= balance <= old(balance)
      ensures happiness == old(happiness) && educationLevel == old(educationLevel) && health == old(health)
    {
      tax := balance * rate;
      balance := balance - tax;
    }

    /** The day's decisions. `educationDraw` and `luxuryDraw` stand for the two
        random() draws; the rule reads the citizen and changes nothing. */
    function Decide(educationDraw: real, luxuryDraw: real): (ds: seq<Decision>)
      reads this
      ensures BuyProducts in ds <==> balance > BasicNeedsCost
      ensures InvestInEducation in ds <==>
        balance > 50.0 && educationLevel < 8.0 && educationDraw < learningAbility * 0.3
      ensures BuyLuxury in ds <==> balance > 150.0 && riskTolerance > 0.5 && luxuryDraw < 0.2
      ensures InDecisionOrder(ds)
      ensures |ds| <= 3
    {
      Tag(balance > BasicNeedsCost, BuyProducts)
      + Tag(balance > 50.0 && educationLevel < 8.0 && educationDraw < learningAbility * 0.3, InvestInEducation)
      + Tag(balance > 150.0 && riskTolerance > 0.5 && luxuryDraw < 0.2, BuyLuxury)
    }

    /** Below level 10 the level grows by a tenth of the learning ability
        (the step itself is not capped); at 10 or above nothing changes. */
    method UpdateEducation()
      modifies this
      ensures old(educationLevel) < MaxEducation ==>
        educationLevel == old(educationLevel) + learningAbility * 0.1
      ensures old(educationLevel) >= MaxEducation ==> educationLevel == old(educationLevel)
      ensures balance == old(balance) && happiness == old(happiness) && health == old(health)
    {
      if educationLevel < MaxEducation {
        educationLevel := educationLevel + learningAbility * 0.1;
      }
    }
  }

  /** The population's balances, in population order. */
  function Balances(cs: seq<Citizen>): (r: seq<real>)
    reads cs
    ensures |r| == |cs| && forall i :: 0 <= i < |cs| ==> r[i] == cs[i].balance
  {
    seq(|cs|, i requires 0 <= i < |cs| reads cs => cs[i].balance)
  }

  function HappinessLevels(cs: seq<Citizen>): (r: seq<real>)
    reads cs
    ensures |r| == |cs| && forall i :: 0 <= i < |cs| ==> r[i] == cs[i].happiness
  {
    seq(|cs|, i requires 0 <= i < |cs| reads cs => cs[i].happiness)
  }

  function EducationLevels(cs: seq<Citizen>): (r: seq<real>)
    reads cs
    ensures |r| == |cs| && forall i :: 0 <= i < |cs| ==> r[i] == cs[i].educationLevel
  {
    seq(|cs|, i requires 0 <= i < |cs| reads cs => cs[i].educationLevel)
  }

  /** Index of the first citizen with the given id, as a front-to-back search
      finds it; None when no citizen carries the id. */
  function FirstWithId(cs: seq<Citizen>, id: int): (r: Option<nat>)
    ensures r.Some? ==> r.value < |cs| && cs[r.value].id == id
    ensures r.Some? ==> forall j :: 0 <= j < r.value ==> cs[j].id != id
    ensures r.None? <==> forall j :: 0 <= j < |cs| ==> cs[j].id != id
  {
    if |cs| == 0 then None
    else if cs[0].id == id then Some(0)
    else
      match FirstWithId(cs[1..], id)
      case None => None
      case Some(k) => Some(k + 1)
  }
}
