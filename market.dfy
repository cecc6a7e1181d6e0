/** The goods market (models/market.py): a fixed catalog of fifteen products
    whose prices follow demand, supply and inflation with a floor at half the
    base price, purchases that debit a citizen and are logged, the search for
    affordable products best-quality first, the consumer price index and the
    per-category statistics. */
module Markets {
  import opened Numeric
  import opened Citizens

  datatype ProductCategory = Food | Housing | Education | Healthcare | Luxury

  const CategoryCount: nat := 5

  /** Position of a category in declaration order. */
  function CategoryIndex(c: ProductCategory): (k: nat)
    ensures k < CategoryCount
  {
    match c
    case Food => 0
    case Housing => 1
    case Education => 2
    case Healthcare => 3
    case Luxury => 4
  }

  /** The k-th category in declaration order, as iterating over the
      enumeration visits them. */
  function CategoryAt(k: nat): (c: ProductCategory)
    requires k < CategoryCount
    ensures CategoryIndex(c) == k
  {
    if k == 0 then Food
    else if k == 1 then Housing
    else if k == 2 then Education
    else if k == 3 then Healthcare
    else Luxury
  }

  /** The price never falls below this share of the base price. */
  const PriceFloorShare: real := 0.5
  /** Supply is read as at least this much when prices are computed. */
  const MinSupply: real := 0.1
  /** A price moving by more than this share of the old price raises an alert. */
  const AlertThreshold: real := 0.1
  /** Each purchase raises the product's demand by this much. */
  const DemandStep: real := 0.1

  /** A catalog line: what the product is constructed with. */
  datatype ProductSpec = ProductSpec(
    id: int, name: string, category: ProductCategory, basePrice: real, quality: real)

  /** The catalog the market starts with, in the order it is listed. */
  const Catalog: seq<ProductSpec> := [
    ProductSpec(1, "Basic Food Ration", Food, 20.0, 0.8),
    ProductSpec(2, "Quality Food Package", Food, 40.0, 1.2),
    ProductSpec(3, "Organic Premium Food", Food, 60.0, 1.5),
    ProductSpec(4, "Basic Housing", Housing, 100.0, 0.7),
    ProductSpec(5, "Comfortable Apartment", Housing, 200.0, 1.3),
    ProductSpec(6, "Luxury Residence", Housing, 500.0, 2.0),
    ProductSpec(7, "Online Course", Education, 30.0, 1.0),
    ProductSpec(8, "Professional Training", Education, 80.0, 1.5),
    ProductSpec(9, "University Program", Education, 150.0, 2.0),
    ProductSpec(10, "Basic Healthcare", Healthcare, 25.0, 1.0),
    ProductSpec(11, "Advanced Medical Care", Healthcare, 75.0, 1.8),
    ProductSpec(12, "Premium Health Package", Healthcare, 120.0, 2.2),
    ProductSpec(13, "Entertainment", Luxury, 50.0, 1.2),
    ProductSpec(14, "Luxury Goods", Luxury, 100.0, 1.8),
    ProductSpec(15, "Exclusive Services", Luxury, 200.0, 2.5)
  ]

  /** Fifteen products numbered 1 to 15 in listing order, three per
      category in declaration order, all with a positive base price. */
  lemma CatalogShape()
    ensures |Catalog| == 15
    ensures forall i :: 0 <= i < |Catalog| ==>
      && Catalog[i].id == i + 1
      && Catalog[i].category == CategoryAt(i / 3)
      && Catalog[i].basePrice > 0.0
  {
    forall i | 0 <= i < |Catalog|
      ensures Catalog[i].id == i + 1 && Catalog[i].category == CategoryAt(i / 3)
      ensures Catalog[i].basePrice > 0.0
    {
      assert i == 0 || i == 1 || i == 2 || i == 3 || i == 4 || i == 5 || i == 6 || i == 7
        || i == 8 || i == 9 || i == 10 || i == 11 || i == 12 || i == 13 || i == 14;
    }
  }

  /** A price as the update rule computes it: base price times the
      demand/supply ratio (supply read as at least 0.1) times one plus
      inflation, never less than half the base price. */
  function PriceFor(basePrice: real, demand: real, supply: real, inflationRate: real): (p: real)
    ensures p >= PriceFloorShare * basePrice
  {
    Max(basePrice * PriceFloorShare,
        basePrice * (demand / Max(supply, MinSupply) * (1.0 + inflationRate)))
  }

  /** Any supply at or below the floor prices like the floor itself, so a
      product nobody supplies still has a price. */
  lemma PriceWithoutSupply(basePrice: real, demand: real, supply: real, inflationRate: real)
    requires supply <= MinSupply
    ensures PriceFor(basePrice, demand, supply, inflationRate)
         == PriceFor(basePrice, demand, MinSupply, inflationRate)
  {
  }

  /** With demand matching supply and no inflation, a non-negative base price
      is charged exactly. */
  lemma PriceAtBalance(basePrice: real, level: real)
    requires basePrice >= 0.0 && level >= MinSupply
    ensures PriceFor(basePrice, level, level, 0.0) == basePrice
  {
    assert level / Max(level, MinSupply) == 1.0;
  }

  /** For a non-negative base price and inflation above -100 %, more demand
      never lowers the price. */
  lemma PriceMonotoneInDemand(basePrice: real, d1: real, d2: real, supply: real, inflationRate: real)
    requires basePrice >= 0.0 && d1 <= d2 && inflationRate >= -1.0
    ensures PriceFor(basePrice, d1, supply, inflationRate) <= PriceFor(basePrice, d2, supply, inflationRate)
  {
    var s := Max(supply, MinSupply);
    var g := 1.0 + inflationRate;
    assert d1 / s <= d2 / s by {
      assert d2 / s - d1 / s == (d2 - d1) / s;
    }
    MultiplyLeft(g, d1 / s, d2 / s);
    assert d1 / s * g <= d2 / s * g;
    MultiplyLeft(basePrice, d1 / s * g, d2 / s * g);
  }

  class Product {
    const id: int
    const name: string
    const category: ProductCategory
    const basePrice: real
    const quality: real
    var currentPrice: real
    var demand: real
    var supply: real

    constructor (id: int, name: string, category: ProductCategory, basePrice: real, quality: real)
      ensures this.id == id && this.name == name && this.category == category
      ensures this.basePrice == basePrice && this.quality == quality
      ensures currentPrice == basePrice && demand == 1.0 && supply == 1.0
    {
      this.id := id;
      this.name := name;
      this.category := category;
      this.basePrice := basePrice;
      this.quality := quality;
      currentPrice := basePrice;
      demand := 1.0;
      supply := 1.0;
    }

    /** Reprices from the current demand and supply; the stored price is
        returned and is at least half the base price. */
    method UpdatePrice(inflationRate: real) returns (price: real)
      modifies this
      ensures price == currentPrice == PriceFor(basePrice, demand, supply, inflationRate)
      ensures currentPrice >= PriceFloorShare * basePrice
      ensures demand == old(demand) && supply == old(supply)
    {
      var ratio := demand / Max(supply, MinSupply);
      var adjustment := ratio * (1.0 + inflationRate);
      currentPrice := Max(basePrice * PriceFloorShare, basePrice * adjustment);
      price := currentPrice;
    }
  }

  /** A product built from a catalog line. */
  predicate Describes(p: Product, spec: ProductSpec) {
    p.id == spec.id && p.name == spec.name && p.category == spec.category
    && p.basePrice == spec.basePrice && p.quality == spec.quality
  }

  /** The product a catalog line describes, fresh, priced at base, with
      demand and supply 1. */
  method NewProduct(spec: ProductSpec) returns (p: Product)
    ensures fresh(p) && Describes(p, spec)
    ensures p.currentPrice == p.basePrice && p.demand == 1.0 && p.supply == 1.0
  {
    p := new Product(spec.id, spec.name, spec.category, spec.basePrice, spec.quality);
  }

  /** One category's three catalog lines, starting at line `first`. */
  method NewCategory(first: nat) returns (ps: seq<Product>)
    requires first + 3 <= |Catalog|
    ensures |ps| == 3
    ensures forall i :: 0 <= i < 3 ==> fresh(ps[i]) && Describes(ps[i], Catalog[first + i])
    ensures forall i :: 0 <= i < 3 ==>
      ps[i].currentPrice == ps[i].basePrice && ps[i].demand == 1.0 && ps[i].supply == 1.0
  {
    var a := NewProduct(Catalog[first]);
    var b := NewProduct(Catalog[first + 1]);
    var c := NewProduct(Catalog[first + 2]);
    ps := [a, b, c];
  }

  /** The catalog as fresh products, category by category. */
  method InitializeProducts() returns (ps: seq<Product>)
    ensures |ps| == |Catalog| && Distinct(ps)
    ensures forall i :: 0 <= i < |ps| ==> fresh(ps[i]) && Describes(ps[i], Catalog[i])
    ensures forall i :: 0 <= i < |ps| ==>
      ps[i].currentPrice == ps[i].basePrice && ps[i].demand == 1.0 && ps[i].supply == 1.0
  {
    var food := NewCategory(0);
    var housing := NewCategory(3);
    var education := NewCategory(6);
    var healthcare := NewCategory(9);
    var luxury := NewCategory(12);
    ps := food + housing + education + healthcare + luxury;
    forall i | 0 <= i < |ps|
      ensures fresh(ps[i]) && Describes(ps[i], Catalog[i])
      ensures ps[i].currentPrice == ps[i].basePrice && ps[i].demand == 1.0 && ps[i].supply == 1.0
    {
      if i < 3 { assert ps[i] == food[i]; }
      else if i < 6 { assert ps[i] == housing[i - 3]; }
      else if i < 9 { assert ps[i] == education[i - 6]; }
      else if i < 12 { assert ps[i] == healthcare[i - 9]; }
      else { assert ps[i] == luxury[i - 12]; }
    }
    CatalogShape();
    forall i, j | 0 <= i < j < |ps|
      ensures ps[i] != ps[j]
    {
      assert ps[i].id == i + 1 && ps[j].id == j + 1;
    }
  }

  /** A purchase as the market logs it. The day is always 0: citizens carry
      no simulator day for the log to read. */
  datatype Transaction = Transaction(
    day: int, citizenId: int, productId: int, price: real, category: ProductCategory)

  /** What the demand of each category starts from. */
  function BaseDemand(c: ProductCategory): (d: real)
    ensures 0.5 <= d <= 2.0
    ensures d == 0.5 <==> c == Luxury
  {
    match c
    case Food => 2.0
    case Housing => 1.5
    case Education => 1.2
    case Healthcare => 1.3
    case Luxury => 0.5
  }

  /** Mean balance of the population, 0 for no citizens. */
  function AverageWealth(balances: seq<real>): (w: real)
    ensures |balances| == 0 ==> w == 0.0
    ensures |balances| > 0 ==> w * |balances| as real == Sum(balances)
  {
    if |balances| == 0 then 0.0 else Sum(balances) / |balances| as real
  }

  /** How far demand rises above the base: luxury only once the wealth factor
      passes 1, anything else with the factor capped at 1. */
  function DemandMultiplier(c: ProductCategory, wealthFactor: real): real {
    if c == Luxury then Max(0.0, wealthFactor - 1.0) else Min(1.0, wealthFactor)
  }

  function DemandFor(c: ProductCategory, averageWealth: real): real {
    BaseDemand(c) * (1.0 + DemandMultiplier(c, averageWealth / 100.0))
  }

  function SupplyFor(averageWealth: real): real {
    1.0 + averageWealth / 100.0 * 0.5
  }

  /** For non-negative average wealth: demand lies between the base and twice
      the base for everyday goods; luxury demand stays at its base until the
      average passes 100, and supply is at least 1, so the supply floor of
      the price rule never applies. */
  lemma DemandAndSupplyBounds(c: ProductCategory, averageWealth: real)
    requires averageWealth >= 0.0
    ensures BaseDemand(c) <= DemandFor(c, averageWealth)
    ensures c != Luxury ==> DemandFor(c, averageWealth) <= 2.0 * BaseDemand(c)
    ensures c == Luxury && averageWealth <= 100.0 ==> DemandFor(c, averageWealth) == BaseDemand(c)
    ensures SupplyFor(averageWealth) >= 1.0
  {
    var m := DemandMultiplier(c, averageWealth / 100.0);
    assert 0.0 <= m;
    assert c != Luxury ==> m <= 1.0;
    MultiplyLeft(BaseDemand(c), 1.0, 1.0 + m);
    if c != Luxury {
      MultiplyLeft(BaseDemand(c), 1.0 + m, 2.0);
    }
  }

  /** Whether a repricing from `oldPrice` to `newPrice` is reported. */
  predicate PriceAlert(oldPrice: real, newPrice: real) {
    (if oldPrice > 0.0 then Abs(newPrice - oldPrice) / oldPrice else 0.0) > AlertThreshold
  }

  /** A price is reported exactly when it had been positive and moved by more
      than a tenth of itself. */
  lemma PriceAlertMeaning(oldPrice: real, newPrice: real)
    ensures PriceAlert(oldPrice, newPrice)
        <==> oldPrice > 0.0 && Abs(newPrice - oldPrice) > AlertThreshold * oldPrice
  {
    if oldPrice > 0.0 {
      var d := Abs(newPrice - oldPrice);
      assert d / oldPrice * oldPrice == d;
      if d / oldPrice > AlertThreshold {
        MultiplyLeft(oldPrice, AlertThreshold, d / oldPrice);
      }
      if d > AlertThreshold * oldPrice {
        assert d / oldPrice > AlertThreshold * oldPrice / oldPrice;
      }
    }
  }

  /** Consumer price index: mean current price over mean base price, times
      100; 100 for an empty catalog. */
  function PriceIndex(current: seq<real>, base: seq<real>): real
    requires |current| == |base|
    requires |base| > 0 ==> Sum(base) != 0.0
  {
    if |current| == 0 then 100.0
    else Sum(current) / |current| as real / (Sum(base) / |base| as real) * 100.0
  }

  /** Prices each at least half of a positive base make the total at least
      half the base total. */
  lemma {:induction false} SumAtLeastHalf(current: seq<real>, base: seq<real>)
    requires |current| == |base|
    requires forall i :: 0 <= i < |base| ==> current[i] >= PriceFloorShare * base[i]
    ensures Sum(current) >= PriceFloorShare * Sum(base)
    decreases |base|
  {
    if |base| > 0 {
      SumAtLeastHalf(current[..|current| - 1], base[..|base| - 1]);
    }
  }

  /** The index is the ratio of the totals, scaled by 100. */
  lemma IndexArith(sc: real, sb: real, n: real)
    requires n > 0.0 && sb > 0.0 && sc >= PriceFloorShare * sb
    ensures sc / n / (sb / n) * 100.0 >= 50.0
  {
    assert sc / n / (sb / n) == sc / sb;
    assert sc / sb >= PriceFloorShare by {
      assert sc / sb - PriceFloorShare == (sc - PriceFloorShare * sb) / sb;
    }
  }

  /** Because no price falls below half its base, the index of a catalog with
      positive base prices never falls below 50. */
  lemma PriceIndexFloor(current: seq<real>, base: seq<real>)
    requires |current| == |base|
    requires forall i :: 0 <= i < |base| ==> base[i] > 0.0
    requires forall i :: 0 <= i < |base| ==> current[i] >= PriceFloorShare * base[i]
    ensures Sum(base) >= 0.0
    ensures |base| > 0 ==> Sum(base) > 0.0
    ensures |base| > 0 ==> PriceIndex(current, base) >= 50.0
  {
    PositiveSum(base);
    if |base| > 0 {
      SumAtLeastHalf(current, base);
      IndexArith(Sum(current), Sum(base), |base| as real);
    }
  }

  /** A sum of positive terms is positive, and zero when empty. */
  lemma {:induction false} PositiveSum(s: seq<real>)
    requires forall i :: 0 <= i < |s| ==> s[i] > 0.0
    ensures Sum(s) >= 0.0
    ensures |s| > 0 ==> Sum(s) > 0.0
    decreases |s|
  {
    if |s| > 0 {
      PositiveSum(s[..|s| - 1]);
    }
  }

  /** Prices back at base give an index of exactly 100. */
  lemma PriceIndexAtBase(base: seq<real>)
    requires |base| > 0 ==> Sum(base) != 0.0
    ensures PriceIndex(base, base) == 100.0
  {
    if |base| > 0 {
      SelfRatio(Sum(base) / |base| as real);
    }
  }

  function CurrentPrices(ps: seq<Product>): (r: seq<real>)
    reads ps
    ensures |r| == |ps| && forall i :: 0 <= i < |ps| ==> r[i] == ps[i].currentPrice
  {
    seq(|ps|, i requires 0 <= i < |ps| reads ps => ps[i].currentPrice)
  }

  function BasePrices(ps: seq<Product>): (r: seq<real>)
    ensures |r| == |ps| && forall i :: 0 <= i < |ps| ==> r[i] == ps[i].basePrice
  {
    seq(|ps|, i requires 0 <= i < |ps| => ps[i].basePrice)
  }

  function Demands(ps: seq<Product>): (r: seq<real>)
    reads ps
    ensures |r| == |ps| && forall i :: 0 <= i < |ps| ==> r[i] == ps[i].demand
  {
    seq(|ps|, i requires 0 <= i < |ps| reads ps => ps[i].demand)
  }

  /** The products of one category, in catalog order. */
  function InCategory(ps: seq<Product>, c: ProductCategory): (r: seq<Product>)
    ensures |r| <= |ps|
    ensures forall i :: 0 <= i < |r| ==> r[i] in ps && r[i].category == c
    ensures forall i :: 0 <= i < |ps| && ps[i].category == c ==> ps[i] in r
  {
    if |ps| == 0 then []
    else (if ps[0].category == c then [ps[0]] else []) + InCategory(ps[1..], c)
  }

  /** Over distinct products the category filter lists each product once. */
  lemma {:induction false} InCategoryDistinct(ps: seq<Product>, c: ProductCategory)
    requires Distinct(ps)
    ensures Distinct(InCategory(ps, c))
  {
    if |ps| > 0 {
      var rest := ps[1..];
      InCategoryDistinct(rest, c);
      var kept := InCategory(rest, c);
      assert ps[0] !in rest;
      assert forall i :: 0 <= i < |kept| ==> kept[i] in rest;
    }
  }

  /** The category of each product, in catalog order. */
  function Categories(ps: seq<Product>): (r: seq<ProductCategory>)
    ensures |r| == |ps| && forall i :: 0 <= i < |ps| ==> r[i] == ps[i].category
  {
    seq(|ps|, i requires 0 <= i < |ps| => ps[i].category)
  }

  /** The filter keeps one product per catalog position of the category, so
      its length is how often the category occurs in the catalog. */
  lemma {:induction false} InCategoryCount(ps: seq<Product>, c: ProductCategory)
    ensures |InCategory(ps, c)| == multiset(Categories(ps))[c]
  {
    if |ps| > 0 {
      InCategoryCount(ps[1..], c);
      assert Categories(ps) == [ps[0].category] + Categories(ps[1..]);
    }
  }

  /** Every product is in exactly one category, so the five category counts
      add up to the number of products. */
  lemma {:induction false} CategoryCountsTotal(ps: seq<Product>)
    ensures |InCategory(ps, Food)| + |InCategory(ps, Housing)| + |InCategory(ps, Education)|
          + |InCategory(ps, Healthcare)| + |InCategory(ps, Luxury)| == |ps|
  {
    if |ps| > 0 {
      CategoryCountsTotal(ps[1..]);
    }
  }

  /** The filter of the affordable-products search. */
  predicate Matches(p: Product, budget: real, category: Option<ProductCategory>)
    reads p
  {
    (category.None? || p.category == category.value) && p.currentPrice <= budget
  }

  /** The products the filter keeps, in catalog order. */
  function Affordable(ps: seq<Product>, budget: real, category: Option<ProductCategory>): (r: seq<Product>)
    reads ps
    ensures |r| <= |ps|
    ensures forall i :: 0 <= i < |r| ==> r[i] in ps && Matches(r[i], budget, category)
    ensures forall i :: 0 <= i < |ps| && Matches(ps[i], budget, category) ==> ps[i] in r
  {
    if |ps| == 0 then []
    else
      var last := ps[|ps| - 1];
      Affordable(ps[..|ps| - 1], budget, category) + (if Matches(last, budget, category) then [last] else [])
  }

  /** Over a catalog of distinct products the filter lists each kept product
      once. */
  lemma {:induction false} AffordableDistinct(ps: seq<Product>, budget: real, category: Option<ProductCategory>)
    requires Distinct(ps)
    ensures Distinct(Affordable(ps, budget, category))
  {
    if |ps| > 0 {
      var prefix := ps[..|ps| - 1];
      AffordableDistinct(prefix, budget, category);
      var kept := Affordable(prefix, budget, category);
      assert ps[|ps| - 1] !in prefix;
      assert forall i :: 0 <= i < |kept| ==> kept[i] in prefix;
    }
  }

  /** Whatever `r` lists earlier sits earlier in `ps`. */
  predicate InOrder(r: seq<Product>, ps: seq<Product>) {
    forall i, j, x, y {:trigger r[i], r[j], ps[x], ps[y]} ::
      (0 <= i < j < |r| && 0 <= x < |ps| && 0 <= y < |ps| && r[i] == ps[x] && r[j] == ps[y]) ==> x < y
  }

  /** Over a catalog of distinct products the filter keeps catalog order: a
      product listed earlier in the result sits earlier in the catalog. */
  lemma {:induction false} AffordableInOrder(ps: seq<Product>, budget: real, category: Option<ProductCategory>)
    requires Distinct(ps)
    ensures InOrder(Affordable(ps, budget, category), ps)
  {
    if |ps| > 0 {
      var n := |ps| - 1;
      var prefix, last := ps[..n], ps[n];
      AffordableInOrder(prefix, budget, category);
      var kept := Affordable(prefix, budget, category);
      var r := Affordable(ps, budget, category);
      assert r == kept + (if Matches(last, budget, category) then [last] else []);
      forall i, j, x, y | 0 <= i < j < |r| && 0 <= x < |ps| && 0 <= y < |ps| && r[i] == ps[x] && r[j] == ps[y]
        ensures x < y
      {
        assert r[i] == kept[i] && kept[i] in prefix;
        var k :| 0 <= k < n && prefix[k] == ps[x];
        assert x == k;
        if j < |kept| {
          assert r[j] == kept[j] && kept[j] in prefix;
          var m :| 0 <= m < n && prefix[m] == ps[y];
          assert y == m;
          assert kept[i] == prefix[x] && kept[j] == prefix[y];
        } else {
          assert r[j] == last == ps[n];
        }
      }
    }
  }

  /** Best quality first. */
  predicate QualityDescending(s: seq<Product>) {
    forall i, j :: 0 <= i < j < |s| ==> s[i].quality >= s[j].quality
  }

  /** The products of one quality, in order. Equal results for every quality
      say that two lists agree on the order of equal-quality products. */
  function WithQuality(s: seq<Product>, q: real): (r: seq<Product>)
    ensures |r| <= |s|
  {
    if |s| == 0 then []
    else (if s[0].quality == q then [s[0]] else []) + WithQuality(s[1..], q)
  }

  /** Inserts `x` before the first product of no better quality. */
  function InsertByQuality(x: Product, s: seq<Product>): (r: seq<Product>)
    ensures |r| == |s| + 1
    ensures multiset(r) == multiset(s) + multiset{x}
  {
    if |s| == 0 || s[0].quality <= x.quality then [x] + s
    else
      assert s == [s[0]] + s[1..];
      [s[0]] + InsertByQuality(x, s[1..])
  }

  /** A stable sort by quality, best first, as the list sort keyed on quality
      with reverse order performs it. */
  function SortByQuality(s: seq<Product>): (r: seq<Product>)
    ensures |r| == |s|
    ensures multiset(r) == multiset(s)
  {
    if |s| == 0 then []
    else
      assert s == [s[0]] + s[1..];
      InsertByQuality(s[0], SortByQuality(s[1..]))
  }

  lemma WithQualityCons(x: Product, s: seq<Product>, q: real)
    ensures WithQuality([x] + s, q) == (if x.quality == q then [x] else []) + WithQuality(s, q)
  {
    assert ([x] + s)[1..] == s;
  }

  /** Whatever is in a permutation of `b` is in `b`. */
  lemma MembersOfPermutation<T>(a: seq<T>, b: seq<T>)
    requires multiset(a) == multiset(b)
    ensures forall i :: 0 <= i < |a| ==> a[i] in b
  {
    forall i | 0 <= i < |a|
      ensures a[i] in b
    {
      assert a[i] in multiset(a);
    }
  }

  /** Inserting into a best-first list keeps it best first. */
  lemma {:induction false} InsertByQualitySorted(x: Product, s: seq<Product>)
    requires QualityDescending(s)
    ensures QualityDescending(InsertByQuality(x, s))
  {
    if |s| > 0 && s[0].quality > x.quality {
      var t := s[1..];
      InsertByQualitySorted(x, t);
      var rest := InsertByQuality(x, t);
      forall i | 0 <= i < |rest|
        ensures s[0].quality >= rest[i].quality
      {
        assert rest[i] in multiset(t) + multiset{x} by {
          assert rest[i] in multiset(rest);
        }
        if rest[i] != x {
          assert rest[i] in t;
        }
      }
    }
  }

  /** Inserting puts `x` ahead of the products of equal quality, as it was
      ahead of them before. */
  lemma {:induction false} InsertByQualityStable(x: Product, s: seq<Product>, q: real)
    ensures WithQuality(InsertByQuality(x, s), q) == WithQuality([x] + s, q)
  {
    if |s| > 0 && s[0].quality > x.quality {
      var t := s[1..];
      var xs: seq<Product> := if x.quality == q then [x] else [];
      var hs: seq<Product> := if s[0].quality == q then [s[0]] else [];
      assert hs + xs == xs + hs;
      calc {
        WithQuality(InsertByQuality(x, s), q);
        { WithQualityCons(s[0], InsertByQuality(x, t), q); }
        hs + WithQuality(InsertByQuality(x, t), q);
        { InsertByQualityStable(x, t, q); WithQualityCons(x, t, q); }
        hs + (xs + WithQuality(t, q));
        xs + (hs + WithQuality(t, q));
        { assert s == [s[0]] + t; WithQualityCons(s[0], t, q); }
        xs + WithQuality(s, q);
        { WithQualityCons(x, s, q); }
        WithQuality([x] + s, q);
      }
    }
  }

  /** The sort leaves the products best first and, quality by quality, in
      their original order. */
  lemma {:induction false} SortByQualityOrder(s: seq<Product>)
    ensures QualityDescending(SortByQuality(s))
    ensures forall q :: WithQuality(SortByQuality(s), q) == WithQuality(s, q)
  {
    if |s| > 0 {
      var t := s[1..];
      SortByQualityOrder(t);
      InsertByQualitySorted(s[0], SortByQuality(t));
      forall q
        ensures WithQuality(SortByQuality(s), q) == WithQuality(s, q)
      {
        InsertByQualityStable(s[0], SortByQuality(t), q);
        WithQualityCons(s[0], SortByQuality(t), q);
        assert s == [s[0]] + t;
        WithQualityCons(s[0], t, q);
      }
    }
  }

  /** Per-category figures of the market statistics. */
  datatype CategoryStats = CategoryStats(averagePrice: real, totalDemand: real, productCount: nat)

  datatype MarketStatistics = MarketStatistics(
    priceIndex: real,
    totalProducts: nat,
    totalTransactions: nat,
    transactionVolume: real,
    categories: map<ProductCategory, CategoryStats>)

  /** The statistics of one non-empty category: mean current price, total
      demand and number of products. */
  function CategoryEntry(ps: seq<Product>, c: ProductCategory): (e: CategoryStats)
    requires |InCategory(ps, c)| > 0
    reads ps
    ensures e.productCount == |InCategory(ps, c)|
  {
    var members := InCategory(ps, c);
    CategoryStats(Sum(CurrentPrices(members)) / |members| as real, Sum(Demands(members)), |members|)
  }

  /** The total current price of the catalog's products in category `c`. */
  function PriceTotalIn(ps: seq<Product>, c: ProductCategory): real
    reads ps
  {
    if |ps| == 0 then 0.0
    else (if ps[0].category == c then ps[0].currentPrice else 0.0) + PriceTotalIn(ps[1..], c)
  }

  /** The total demand of the catalog's products in category `c`. */
  function DemandTotalIn(ps: seq<Product>, c: ProductCategory): real
    reads ps
  {
    if |ps| == 0 then 0.0
    else (if ps[0].category == c then ps[0].demand else 0.0) + DemandTotalIn(ps[1..], c)
  }

  /** A product in front adds its current price to the price sum. */
  lemma CurrentPricesCons(p: Product, rest: seq<Product>)
    ensures Sum(CurrentPrices([p] + rest)) == p.currentPrice + Sum(CurrentPrices(rest))
  {
    assert CurrentPrices([p] + rest) == [p.currentPrice] + CurrentPrices(rest);
    SumCons(p.currentPrice, CurrentPrices(rest));
  }

  /** A product in front adds its demand to the demand sum. */
  lemma DemandsCons(p: Product, rest: seq<Product>)
    ensures Sum(Demands([p] + rest)) == p.demand + Sum(Demands(rest))
  {
    assert Demands([p] + rest) == [p.demand] + Demands(rest);
    SumCons(p.demand, Demands(rest));
  }

  /** Summing the prices of the category's products gives the catalog's total
      price in the category. */
  lemma {:induction false} CategoryPriceSum(ps: seq<Product>, c: ProductCategory)
    ensures Sum(CurrentPrices(InCategory(ps, c))) == PriceTotalIn(ps, c)
  {
    if |ps| > 0 {
      var members := InCategory(ps[1..], c);
      CategoryPriceSum(ps[1..], c);
      if ps[0].category == c {
        assert InCategory(ps, c) == [ps[0]] + members;
        CurrentPricesCons(ps[0], members);
      } else {
        assert InCategory(ps, c) == members;
      }
    }
  }

  /** Summing the demands of the category's products gives the catalog's total
      demand in the category. */
  lemma {:induction false} CategoryDemandSum(ps: seq<Product>, c: ProductCategory)
    ensures Sum(Demands(InCategory(ps, c))) == DemandTotalIn(ps, c)
  {
    if |ps| > 0 {
      var members := InCategory(ps[1..], c);
      CategoryDemandSum(ps[1..], c);
      if ps[0].category == c {
        assert InCategory(ps, c) == [ps[0]] + members;
        DemandsCons(ps[0], members);
      } else {
        assert InCategory(ps, c) == members;
      }
    }
  }


  /** A category's entry counts how often the category occurs in the catalog;
      its mean price is the catalog's total current price in the category
      over that count, and its demand is the catalog's total demand in it. */
  lemma CategoryEntryMeaning(ps: seq<Product>, c: ProductCategory)
    requires |InCategory(ps, c)| > 0
    ensures CategoryEntry(ps, c).productCount == multiset(Categories(ps))[c] > 0
    ensures CategoryEntry(ps, c).averagePrice
         == PriceTotalIn(ps, c) / multiset(Categories(ps))[c] as real
    ensures CategoryEntry(ps, c).totalDemand == DemandTotalIn(ps, c)
  {
    InCategoryCount(ps, c);
    CategoryPriceSum(ps, c);
    CategoryDemandSum(ps, c);
  }

  class Market {
    const products: seq<Product>
    var transactions: seq<Transaction>
    var totalTransactionVolume: real
    var priceIndex: real

    /** The catalog holds distinct products with positive base prices. */
    predicate Valid() {
      && Distinct(products)
      && (forall i :: 0 <= i < |products| ==> products[i].basePrice > 0.0)
      && (|products| > 0 ==> Sum(BasePrices(products)) > 0.0)
    }

    constructor ()
      ensures Valid()
      ensures |products| == |Catalog|
      ensures forall i :: 0 <= i < |products| ==> Describes(products[i], Catalog[i])
      ensures forall i :: 0 <= i < |products| ==>
        products[i].currentPrice == products[i].basePrice
        && products[i].demand == 1.0 && products[i].supply == 1.0
      ensures transactions == [] && totalTransactionVolume == 0.0 && priceIndex == 100.0
      ensures forall i :: 0 <= i < |products| ==> fresh(products[i])
    {
      var ps := InitializeProducts();
      products := ps;
      transactions := [];
      totalTransactionVolume := 0.0;
      priceIndex := 100.0;
      new;
      CatalogShape();
      PositiveSum(BasePrices(products));
    }

    /** The catalog products within the budget (and of the category, when one
        is given), best quality first, equal qualities in catalog order. */
    method FindAffordableProducts(budget: real, category: Option<ProductCategory>)
      returns (affordable: seq<Product>)
      ensures affordable == SortByQuality(Affordable(products, budget, category))
      ensures forall i :: 0 <= i < |affordable| ==>
        affordable[i] in products && Matches(affordable[i], budget, category)
      ensures forall i :: 0 <= i < |products| && Matches(products[i], budget, category) ==>
        products[i] in affordable
      ensures QualityDescending(affordable)
      ensures forall q :: WithQuality(affordable, q) == WithQuality(Affordable(products, budget, category), q)
    {
      var kept: seq<Product> := [];
      for i := 0 to |products|
        invariant kept == Affordable(products[..i], budget, category)
      {
        assert products[..i + 1][..i] == products[..i];
        if (category.None? || products[i].category == category.value) && products[i].currentPrice <= budget {
          kept := kept + [products[i]];
        }
      }
      assert products[..|products|] == products;
      affordable := SortByQuality(kept);
      SortByQualityOrder(kept);
      MembersOfPermutation(affordable, kept);
      MembersOfPermutation(kept, affordable);
    }

    /** A citizen who can afford the current price pays it, gains happiness
        from the product's quality (capped at 100), and the sale is logged and
        raises the product's demand by 0.1. Otherwise nothing changes. */
    method SimulatePurchase(c: Citizen, product: Product) returns (ok: bool)
      modifies this, c, product
      ensures ok <==> old(c.balance) >= old(product.currentPrice)
      ensures ok ==>
        && c.balance == old(c.balance) - product.currentPrice
        && c.happiness == Min(MaxHappiness, old(c.happiness) + product.quality * 5.0)
        && transactions == old(transactions)
             + [Transaction(0, c.id, product.id, product.currentPrice, product.category)]
        && totalTransactionVolume == old(totalTransactionVolume) + product.currentPrice
        && product.demand == old(product.demand) + DemandStep
      ensures !ok ==>
        && c.balance == old(c.balance) && c.happiness == old(c.happiness)
        && transactions == old(transactions)
        && totalTransactionVolume == old(totalTransactionVolume)
        && product.demand == old(product.demand)
      ensures product.currentPrice == old(product.currentPrice) && product.supply == old(product.supply)
      ensures c.educationLevel == old(c.educationLevel) && c.health == old(c.health)
      ensures priceIndex == old(priceIndex)
    {
      ok := false;
      if c.balance >= product.currentPrice {
        c.balance := c.balance - product.currentPrice;
        c.happiness := Min(MaxHappiness, c.happiness + product.quality * 5.0);
        var t := Transaction(0, c.id, product.id, product.currentPrice, product.category);
        transactions := transactions + [t];
        totalTransactionVolume := totalTransactionVolume + product.currentPrice;
        product.demand := product.demand + DemandStep;
        ok := true;
      }
    }

    /** Sets every product's demand and supply from the population's average
        wealth, reprices it with the inflation rate, returns the products whose
        price moved by more than 10 %, and recomputes the price index. */
    method UpdateMarketConditions(cs: seq<Citizen>, inflationRate: real) returns (alerts: set<Product>)
      requires Valid()
      modifies this, products
      ensures forall i :: 0 <= i < |products| ==>
        && products[i].demand == DemandFor(products[i].category, old(AverageWealth(Balances(cs))))
        && products[i].supply == SupplyFor(old(AverageWealth(Balances(cs))))
        && products[i].currentPrice
           == PriceFor(products[i].basePrice, products[i].demand, products[i].supply, inflationRate)
      ensures forall i :: 0 <= i < |products| ==>
        (products[i] in alerts <==> PriceAlert(old(products[i].currentPrice), products[i].currentPrice))
      ensures alerts <= set p | p in products
      ensures |products| > 0 ==> priceIndex == PriceIndex(CurrentPrices(products), BasePrices(products))
      ensures |products| > 0 ==> priceIndex >= 50.0
      ensures |products| == 0 ==> priceIndex == old(priceIndex)
      ensures transactions == old(transactions) && totalTransactionVolume == old(totalTransactionVolume)
    {
      var averageWealth := AverageWealth(Balances(cs));
      alerts := RepriceAll(products, averageWealth, inflationRate);
      var _ := CalculatePriceIndex();
      PriceIndexFloor(CurrentPrices(products), BasePrices(products));
    }

    /** Recomputes the index from the catalog; an empty catalog reads 100 and
        leaves the stored index alone. */
    method CalculatePriceIndex() returns (index: real)
      requires Valid()
      modifies this
      ensures |products| > 0 ==> index == priceIndex == PriceIndex(CurrentPrices(products), BasePrices(products))
      ensures |products| == 0 ==> index == 100.0 && priceIndex == old(priceIndex)
      ensures transactions == old(transactions) && totalTransactionVolume == old(totalTransactionVolume)
    {
      if |products| == 0 {
        return 100.0;
      }
      var averagePrice := Sum(CurrentPrices(products)) / |products| as real;
      var baseAveragePrice := Sum(BasePrices(products)) / |products| as real;
      priceIndex := averagePrice / baseAveragePrice * 100.0;
      index := priceIndex;
    }

    /** The report: index, catalog size, log length, volume, and for each
        category that has products its mean price, total demand and count. */
    method GetMarketStatistics() returns (stats: MarketStatistics)
      ensures stats.priceIndex == priceIndex && stats.totalProducts == |products|
      ensures stats.totalTransactions == |transactions|
      ensures stats.transactionVolume == totalTransactionVolume
      ensures forall c :: c in stats.categories <==> |InCategory(products, c)| > 0
      ensures forall c :: c in stats.categories ==> stats.categories[c] == CategoryEntry(products, c)
    {
      var categoryStats: map<ProductCategory, CategoryStats> := map[];
      for k := 0 to CategoryCount
        invariant forall c :: c in categoryStats <==> CategoryIndex(c) < k && |InCategory(products, c)| > 0
        invariant forall c :: c in categoryStats ==> categoryStats[c] == CategoryEntry(products, c)
      {
        var c := CategoryAt(k);
        var members := InCategory(products, c);
        if |members| > 0 {
          var averagePrice := Sum(CurrentPrices(members)) / |members| as real;
          var totalDemand := Sum(Demands(members));
          categoryStats := categoryStats[c := CategoryStats(averagePrice, totalDemand, |members|)];
        }
      }
      stats := MarketStatistics(priceIndex, |products|, |transactions|, totalTransactionVolume, categoryStats);
    }
  }

  /** One product's update: demand and supply from the average wealth, a new
      price, and whether the price moved by more than 10 %. */
  method Reprice(product: Product, averageWealth: real, inflationRate: real) returns (alert: bool)
    modifies product
    ensures product.demand == DemandFor(product.category, averageWealth)
    ensures product.supply == SupplyFor(averageWealth)
    ensures product.currentPrice == PriceFor(product.basePrice, product.demand, product.supply, inflationRate)
    ensures alert <==> PriceAlert(old(product.currentPrice), product.currentPrice)
  {
    var baseDemand := BaseDemand(product.category);
    var wealthFactor := averageWealth / 100.0;
    var demandMultiplier := if product.category == Luxury then Max(0.0, wealthFactor - 1.0)
                            else Min(1.0, wealthFactor);
    product.demand := baseDemand * (1.0 + demandMultiplier);
    product.supply := 1.0 + wealthFactor * 0.5;
    var oldPrice := product.currentPrice;
    var newPrice := product.UpdatePrice(inflationRate);
    var priceChange := if oldPrice > 0.0 then Abs(newPrice - oldPrice) / oldPrice else 0.0;
    alert := priceChange > AlertThreshold;
  }

  /** The per-product loop of the market update over distinct products. */
  method RepriceAll(ps: seq<Product>, averageWealth: real, inflationRate: real) returns (alerts: set<Product>)
    requires Distinct(ps)
    modifies ps
    ensures forall i :: 0 <= i < |ps| ==>
      && ps[i].demand == DemandFor(ps[i].category, averageWealth)
      && ps[i].supply == SupplyFor(averageWealth)
      && ps[i].currentPrice == PriceFor(ps[i].basePrice, ps[i].demand, ps[i].supply, inflationRate)
    ensures forall i :: 0 <= i < |ps| ==>
      (ps[i] in alerts <==> PriceAlert(old(ps[i].currentPrice), ps[i].currentPrice))
    ensures alerts <= set p | p in ps
  {
    ghost var before := CurrentPrices(ps);
    alerts := {};
    for i := 0 to |ps|
      invariant forall j :: 0 <= j < i ==>
        && ps[j].demand == DemandFor(ps[j].category, averageWealth)
        && ps[j].supply == SupplyFor(averageWealth)
        && ps[j].currentPrice == PriceFor(ps[j].basePrice, ps[j].demand, ps[j].supply, inflationRate)
      invariant forall j :: i <= j < |ps| ==> ps[j].currentPrice == before[j]
      invariant forall j :: 0 <= j < i ==>
        (ps[j] in alerts <==> PriceAlert(before[j], ps[j].currentPrice))
      invariant forall j :: i <= j < |ps| ==> ps[j] !in alerts
      invariant alerts <= set p | p in ps[..i]
    {
      assert forall j :: 0 <= j < |ps| && j != i ==> ps[j] != ps[i];
      var alert := Reprice(ps[i], averageWealth, inflationRate);
      if alert {
        alerts := alerts + {ps[i]};
      }
    }
  }
}
