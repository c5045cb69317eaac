/**
 * The web app's calculations: the value of an asset from its fields, net
 * worth as a plain sum, the month-by-month compound-growth projection, the
 * growth percentage and the per-category breakdown. What the service reads
 * from storage (the assets and the settings' growth rates) is passed in.
 */
module JsCalculations {
  import opened Wrappers
  import opened Sequences
  import opened JsCategories
  import opened JsAssets
  import Calculations

  /** How one arm of `getAssetValue`'s switch combines the asset's fields. */
  datatype Valuation =
    | Single(field: string)                 // `values.f || 0`
    | Product(left: string, right: string)  // `(values.f || 0) * (values.g || 0)`
    | Scaled(amount: string, count: string) // `(values.f || 0) * (values.g || 1)`

  /** A `switch` on a string: its cases in order, then `default`. */
  datatype Switch = Default | Case(key: string, valuation: Valuation, next: Switch)

  /** The switch in `getAssetValue`. */
  const AssetValueSwitch: Switch :=
    Case("stocks", Single("stockValue"),
    Case("mutualFunds", Single("fundValue"),
    Case("gold", Product("goldQuantity", "goldRate"),
    Case("fixedDeposits", Single("principalAmount"),
    Case("personalAssets", Scaled("assetValue", "quantity"),
    Case("bonds", Single("bondValue"),
    Case("land", Single("landValue"),
    Case("home", Single("homeValue"),
    Case("savings", Single("savingsBalance"),
    Case("emergencySavings", Single("emergencyBalance"),
    Case("esop", Product("esopCurrentValue", "esopShares"),
    Case("privateEquity", Single("peValue"),
    Case("vpf_ppf", Single("vpfAmount"),
    Case("silver", Product("silverGrams", "silverRate"),
    Default))))))))))))))

  /** The valuation of the first case labelled `category`; `None` is the `default` arm. */
  function Select(category: string, sw: Switch): Option<Valuation> {
    match sw
    case Default => None
    case Case(key, v, next) => if key == category then Some(v) else Select(category, next)
  }

  /** The switch's labels, in order. */
  function Labels(sw: Switch): seq<string> {
    match sw
    case Default => []
    case Case(key, _, next) => [key] + Labels(next)
  }

  /** An arm is selected exactly when some case carries the label. */
  lemma {:induction false} SelectMeaning(category: string, sw: Switch)
    ensures Select(category, sw).Some? <==> category in Labels(sw)
  {
    match sw
    case Default =>
    case Case(_, _, next) => SelectMeaning(category, next);
  }

  function ValuationOf(category: string): Option<Valuation> {
    Select(category, AssetValueSwitch)
  }

  /** `getAssetValue`. */
  function AssetValue(a: JsAsset): real {
    match ValuationOf(a.category)
    case None => 0.0
    case Some(Single(f)) => NumberOr(a.values, f, 0.0)
    case Some(Product(f, g)) => NumberOr(a.values, f, 0.0) * NumberOr(a.values, g, 0.0)
    case Some(Scaled(f, g)) => NumberOr(a.values, f, 0.0) * NumberOr(a.values, g, 1.0)
  }

  /** The switch has a case for exactly the registry's keys, in the registry's order. */
  lemma SwitchFollowsRegistry()
    ensures Labels(AssetValueSwitch) == Keys(Registry)
  {
    assert Labels(AssetValueSwitch) == [
      "stocks", "mutualFunds", "gold", "fixedDeposits", "personalAssets", "bonds", "land",
      "home", "savings", "emergencySavings", "esop", "privateEquity", "vpf_ppf", "silver"];
    RegistryKeys();
  }

  lemma ValuationsFollowRegistry(category: string)
    ensures ValuationOf(category).Some? <==> category in Keys(Registry)
  {
    SelectMeaning(category, AssetValueSwitch);
    SwitchFollowsRegistry();
  }

  /** The field ids an arm reads. */
  function ReadFields(v: Valuation): seq<string> {
    match v
    case Single(f) => [f]
    case Product(f, g) => [f, g]
    case Scaled(f, g) => [f, g]
  }

  /** Some field of `fields` has id `f`. */
  predicate Declares(fields: seq<JsField>, f: string) {
    fields != [] && (fields[0].id == f || Declares(fields[1..], f))
  }

  /** The switch has a case for the entry's key, and every field it reads is one the entry declares. */
  predicate ReadsDeclared(entry: JsCategory) {
    && ValuationOf(entry.key).Some?
    && forall f :: f in ReadFields(ValuationOf(entry.key).value) ==> Declares(entry.fields, f)
  }

  /** Stocks, mutual funds, gold and fixed deposits read only fields they declare. */
  lemma ReadFieldsDeclaredA()
    ensures ReadsDeclared(StocksEntry())
    ensures ReadsDeclared(MutualFundsEntry())
    ensures ReadsDeclared(GoldEntry())
    ensures ReadsDeclared(FixedDepositsEntry())
  {
  }

  /** Personal property, bonds, land and home read only fields they declare. */
  lemma ReadFieldsDeclaredB()
    ensures ReadsDeclared(PersonalAssetsEntry())
    ensures ReadsDeclared(BondsEntry())
    ensures ReadsDeclared(LandEntry())
    ensures ReadsDeclared(HomeEntry())
  {
  }

  /** Both savings kinds and ESOP read only fields they declare. */
  lemma ReadFieldsDeclaredC()
    ensures ReadsDeclared(SavingsEntry())
    ensures ReadsDeclared(EmergencySavingsEntry())
    ensures ReadsDeclared(EsopEntry())
  {
  }

  /** Private equity, VPF/PPF and silver read only fields they declare. */
  lemma ReadFieldsDeclaredD()
    ensures ReadsDeclared(PrivateEquityEntry())
    ensures ReadsDeclared(VpfPpfEntry())
    ensures ReadsDeclared(SilverEntry())
  {
    assert ValuationOf("privateEquity") == Some(Single("peValue"));
    assert ValuationOf("vpf_ppf") == Some(Single("vpfAmount"));
    assert ValuationOf("silver") == Some(Product("silverGrams", "silverRate"));
  }

  /** A category the registry does not know is worth 0. */
  lemma UnknownIsZero(a: JsAsset)
    requires Lookup(a.category).None?
    ensures AssetValue(a) == 0.0
  {
    FindMeaning(a.category, Registry);
    ValuationsFollowRegistry(a.category);
  }

  /** Stocks, mutual funds, deposits, bonds, land, home, both savings, private equity and VPF/PPF read one field, a falsy one as 0. */
  lemma SingleFieldCategories(a: JsAsset)
    ensures a.category == "stocks" ==> AssetValue(a) == NumberOr(a.values, "stockValue", 0.0)
    ensures a.category == "mutualFunds" ==> AssetValue(a) == NumberOr(a.values, "fundValue", 0.0)
    ensures a.category == "fixedDeposits" ==> AssetValue(a) == NumberOr(a.values, "principalAmount", 0.0)
    ensures a.category == "bonds" ==> AssetValue(a) == NumberOr(a.values, "bondValue", 0.0)
    ensures a.category == "land" ==> AssetValue(a) == NumberOr(a.values, "landValue", 0.0)
    ensures a.category == "home" ==> AssetValue(a) == NumberOr(a.values, "homeValue", 0.0)
    ensures a.category == "savings" ==> AssetValue(a) == NumberOr(a.values, "savingsBalance", 0.0)
    ensures a.category == "emergencySavings" ==> AssetValue(a) == NumberOr(a.values, "emergencyBalance", 0.0)
    ensures a.category == "privateEquity" ==> AssetValue(a) == NumberOr(a.values, "peValue", 0.0)
    ensures a.category == "vpf_ppf" ==> AssetValue(a) == NumberOr(a.values, "vpfAmount", 0.0)
  {
  }

  /** Gold is quantity times rate, a falsy field read as 0. */
  lemma GoldValue(a: JsAsset)
    requires a.category == "gold"
    ensures AssetValue(a) == NumberOr(a.values, "goldQuantity", 0.0) * NumberOr(a.values, "goldRate", 0.0)
  {
  }

  /** ESOP is current value times shares, a falsy field read as 0. */
  lemma EsopValue(a: JsAsset)
    requires a.category == "esop"
    ensures AssetValue(a) == NumberOr(a.values, "esopCurrentValue", 0.0) * NumberOr(a.values, "esopShares", 0.0)
  {
  }

  /** Silver is grams times rate, a falsy field read as 0. */
  lemma SilverValue(a: JsAsset)
    requires a.category == "silver"
    ensures AssetValue(a) == NumberOr(a.values, "silverGrams", 0.0) * NumberOr(a.values, "silverRate", 0.0)
  {
    assert ValuationOf("silver") == Some(Product("silverGrams", "silverRate"));
  }

  /** Personal property is value times quantity, and a zero or missing quantity counts as one. */
  lemma PersonalAssetsValue(a: JsAsset)
    requires a.category == "personalAssets"
    ensures AssetValue(a) == NumberOr(a.values, "assetValue", 0.0) * NumberOr(a.values, "quantity", 1.0)
    ensures Falsy(Get(a.values, "quantity")) ==> AssetValue(a) == NumberOr(a.values, "assetValue", 0.0)
  {
  }

  /** Every number an asset holds is non-negative. */
  predicate NonNegativeValues(a: JsAsset) {
    forall k :: k in a.values && a.values[k].JsNumber? ==> a.values[k].number >= 0.0
  }

  /** With no negative field an asset is worth at least 0: nothing in the web app is a liability. */
  lemma ValueNonNegative(a: JsAsset)
    requires NonNegativeValues(a)
    ensures AssetValue(a) >= 0.0
  {
    match ValuationOf(a.category)
    case None =>
    case Some(Single(f)) =>
    case Some(Product(f, g)) =>
      NonNegativeProduct(NumberOr(a.values, f, 0.0), NumberOr(a.values, g, 0.0));
    case Some(Scaled(f, g)) =>
      NonNegativeProduct(NumberOr(a.values, f, 0.0), NumberOr(a.values, g, 1.0));
  }

  lemma NonNegativeProduct(x: real, y: real)
    requires x >= 0.0 && y >= 0.0
    ensures x * y >= 0.0
  {
  }

  function NetWorth(assets: seq<JsAsset>): real {
    SumBy(assets, AssetValue)
  }

  /** `calculateNetWorth` over the stored assets. */
  method CalculateNetWorth(assets: seq<JsAsset>) returns (total: real)
    ensures total == NetWorth(assets)
  {
    total := 0.0;
    var i := 0;
    while i < |assets|
      invariant 0 <= i <= |assets|
      invariant total == NetWorth(assets[..i])
    {
      assert assets[..i + 1][..i] == assets[..i];
      total := total + AssetValue(assets[i]);
      i := i + 1;
    }
    assert assets[..i] == assets;
  }

  /** Net worth is additive and, with no negative field, never negative. */
  lemma {:induction false} NetWorthNonNegative(assets: seq<JsAsset>)
    requires forall a :: a in assets ==> NonNegativeValues(a)
    ensures NetWorth(assets) >= 0.0
  {
    if assets != [] {
      var init := assets[..|assets| - 1];
      assert forall a :: a in init ==> a in assets;
      NetWorthNonNegative(init);
      ValueNonNegative(assets[|assets| - 1]);
    }
  }

  /** The annual rate in percent: the settings' entry when present, else the registry default, else 0. */
  function AnnualRate(category: string, growthRates: map<string, real>): real {
    if category in growthRates then growthRates[category]
    else
      match Lookup(category)
      case None => 0.0
      case Some(c) => if c.growthRate.Some? then c.growthRate.value.default.GetOr(0.0) else 0.0
  }

  /** Without a setting, a registered category grows at its registry default. */
  lemma RateFallsBackToDefault(i: nat, growthRates: map<string, real>)
    requires i < |Registry| && Registry[i].key !in growthRates
    ensures AnnualRate(Registry[i].key, growthRates) == Registry[i].growthRate.value.default.value
  {
    LookupDeclared(i);
    EveryRateHasDefault();
  }

  /** An unknown category without a setting does not grow. */
  lemma UnknownRateIsZero(category: string, growthRates: map<string, real>)
    requires category !in growthRates && Lookup(category).None?
    ensures AnnualRate(category, growthRates) == 0.0
  {
  }

  function MonthlyRate(category: string, growthRates: map<string, real>): real {
    AnnualRate(category, growthRates) / 12.0 / 100.0
  }

  /** The worth of one asset after `month` months of monthly compounding. */
  function ProjectedValue(a: JsAsset, growthRates: map<string, real>, month: nat): real {
    AssetValue(a) * Calculations.Pow(1.0 + MonthlyRate(a.category, growthRates), month)
  }

  /** The sum over the assets of their projected worth at `month`. */
  function ProjectedTotal(assets: seq<JsAsset>, growthRates: map<string, real>, month: nat): real {
    if assets == [] then 0.0
    else ProjectedTotal(assets[..|assets| - 1], growthRates, month) + ProjectedValue(assets[|assets| - 1], growthRates, month)
  }

  /** One point of the projection. */
  datatype JsPoint = JsPoint(month: int, value: real)

  /**
   * `projectNetWorth(months)`: point 0 is net worth, and each asset adds
   * its compounded worth to points 1 to `months`.
   */
  method ProjectNetWorth(assets: seq<JsAsset>, growthRates: map<string, real>, months: nat) returns (data: array<JsPoint>)
    ensures fresh(data)
    ensures data.Length == months + 1
    ensures forall i :: 0 <= i < data.Length ==> data[i].month == i
    ensures data[0].value == NetWorth(assets)
    ensures forall i :: 1 <= i < data.Length ==> data[i].value == ProjectedTotal(assets, growthRates, i)
  {
    data := new JsPoint[months + 1](i => JsPoint(i, 0.0));
    var total := CalculateNetWorth(assets);
    data[0] := data[0].(value := total);
    var j := 0;
    while j < |assets|
      invariant 0 <= j <= |assets|
      invariant data[0] == JsPoint(0, total)
      invariant forall k :: 1 <= k <= months ==> data[k] == JsPoint(k, ProjectedTotal(assets[..j], growthRates, k))
    {
      AddProjection(data, assets[j], growthRates);
      forall k | 1 <= k <= months
        ensures data[k] == JsPoint(k, ProjectedTotal(assets[..j + 1], growthRates, k))
      {
        ProjectedTotalStep(assets, j, growthRates, k);
      }
      j := j + 1;
    }
    assert assets[..j] == assets;
  }

  /** The `forEach` callback of `projectNetWorth`: adds one asset's compounded worth to points 1 and on. */
  method AddProjection(data: array<JsPoint>, a: JsAsset, growthRates: map<string, real>)
    requires data.Length >= 1
    modifies data
    ensures data[0] == old(data[0])
    ensures forall k :: 1 <= k < data.Length ==> data[k] == JsPoint(k, old(data[k].value) + ProjectedValue(a, growthRates, k))
  {
    var currentValue := AssetValue(a);
    var monthlyRate := AnnualRate(a.category, growthRates) / 12.0 / 100.0;
    var i := 1;
    while i < data.Length
      invariant 1 <= i <= data.Length
      invariant data[0] == old(data[0])
      invariant forall k :: 1 <= k < i ==> data[k] == JsPoint(k, old(data[k].value) + ProjectedValue(a, growthRates, k))
      invariant forall k :: i <= k < data.Length ==> data[k] == old(data[k])
    {
      data[i] := JsPoint(i, data[i].value + currentValue * Calculations.Pow(1.0 + monthlyRate, i));
      i := i + 1;
    }
  }

  /** Taking one asset more adds its projected worth. */
  lemma ProjectedTotalStep(assets: seq<JsAsset>, j: nat, growthRates: map<string, real>, month: nat)
    requires j < |assets|
    ensures ProjectedTotal(assets[..j + 1], growthRates, month)
            == ProjectedTotal(assets[..j], growthRates, month) + ProjectedValue(assets[j], growthRates, month)
  {
    assert assets[..j + 1][..j] == assets[..j];
  }

  /** Month 0 of the same formula is net worth, so point 0 fits it too. */
  lemma {:induction false} ProjectedTotalAtZero(assets: seq<JsAsset>, growthRates: map<string, real>)
    ensures ProjectedTotal(assets, growthRates, 0) == NetWorth(assets)
  {
    if assets != [] {
      ProjectedTotalAtZero(assets[..|assets| - 1], growthRates);
    }
  }

  /** With every rate 0 the projection stays at net worth. */
  lemma {:induction false} ZeroRatesStayFlat(assets: seq<JsAsset>, growthRates: map<string, real>, month: nat)
    requires forall a :: a in assets ==> AnnualRate(a.category, growthRates) == 0.0
    ensures ProjectedTotal(assets, growthRates, month) == NetWorth(assets)
  {
    if assets != [] {
      var init := assets[..|assets| - 1];
      assert forall a :: a in init ==> a in assets;
      ZeroRatesStayFlat(init, growthRates, month);
      Calculations.PowOne(month);
    }
  }

  /** `getOneYearProjection`: point 12. */
  method OneYearProjection(assets: seq<JsAsset>, growthRates: map<string, real>) returns (value: real)
    ensures value == ProjectedTotal(assets, growthRates, 12)
  {
    var data := ProjectNetWorth(assets, growthRates, 12);
    value := data[12].value;
  }

  /** `calculateGrowthPercentage`: 0 from a zero start, else the change in percent of the start. */
  function GrowthPercentage(startValue: real, endValue: real): (r: real)
    ensures startValue == 0.0 ==> r == 0.0
    ensures startValue != 0.0 ==> startValue + r / 100.0 * startValue == endValue
  {
    if startValue == 0.0 then 0.0 else (endValue - startValue) / startValue * 100.0
  }

  /** A savings balance of 100000 at 12% a year is worth 100000 · 1.01^12 after a year. */
  lemma SavingsScenario(a: JsAsset, growthRates: map<string, real>)
    requires a.category == "savings" && a.values == map["savingsBalance" := JsNumber(100000.0)]
    requires growthRates == map["savings" := 12.0]
    ensures ProjectedTotal([a], growthRates, 12) == 100000.0 * Calculations.Pow(1.01, 12)
  {
    assert AssetValue(a) == 100000.0;
    assert [a][..0] == [];
  }

  /** One entry of `getAssetBreakdown`. */
  datatype BreakdownEntry = BreakdownEntry(category: string, name: string, value: real, percentage: real)

  function ValueOf(e: BreakdownEntry): real {
    e.value
  }

  function PercentageOf(e: BreakdownEntry): real {
    e.percentage
  }

  /** `assetCategories[category]?.name || category`. */
  function DisplayName(category: string): string {
    match Lookup(category)
    case Some(c) => if c.name != "" then c.name else category
    case None => category
  }

  /** A category's share of net worth in percent, 0 unless net worth is positive. */
  function Share(value: real, total: real): real {
    if total > 0.0 then value / total * 100.0 else 0.0
  }

  function Entry(category: string, value: real, total: real): BreakdownEntry {
    BreakdownEntry(category, DisplayName(category), value, Share(value, total))
  }

  /** The categories of `assets`, each once, in order of first appearance. */
  function CategoriesOf(assets: seq<JsAsset>): seq<string> {
    if assets == [] then []
    else
      var init := CategoriesOf(assets[..|assets| - 1]);
      var c := assets[|assets| - 1].category;
      if c in init then init else init + [c]
  }

  /** The running totals of `assetsByCategory` after adding up `assets`. */
  function TotalsOf(assets: seq<JsAsset>): map<string, real> {
    if assets == [] then map[]
    else
      var m := TotalsOf(assets[..|assets| - 1]);
      var c := assets[|assets| - 1].category;
      m[c := (if c in m && m[c] != 0.0 then m[c] else 0.0) + AssetValue(assets[|assets| - 1])]
  }

  /** The assets of one category, in order. */
  function OfCategory(assets: seq<JsAsset>, c: string): seq<JsAsset> {
    if assets == [] then []
    else OfCategory(assets[..|assets| - 1], c) + (if assets[|assets| - 1].category == c then [assets[|assets| - 1]] else [])
  }

  /** Some asset is of category `c`. */
  predicate Uses(assets: seq<JsAsset>, c: string) {
    exists i :: 0 <= i < |assets| && assets[i].category == c
  }

  /** Some breakdown entry is for category `c`. */
  predicate Lists(breakdown: seq<BreakdownEntry>, c: string) {
    exists i :: 0 <= i < |breakdown| && breakdown[i].category == c
  }

  /** No category is listed twice. */
  lemma {:induction false} CategoriesOfDistinct(assets: seq<JsAsset>)
    ensures Distinct(CategoriesOf(assets))
  {
    if assets != [] {
      CategoriesOfDistinct(assets[..|assets| - 1]);
    }
  }

  /** A category is listed exactly when some asset has it. */
  lemma {:induction false} CategoriesOfMembers(assets: seq<JsAsset>, c: string)
    ensures c in CategoriesOf(assets) <==> Uses(assets, c)
  {
    if assets != [] {
      var init := assets[..|assets| - 1];
      CategoriesOfMembers(init, c);
      if exists i :: 0 <= i < |init| && init[i].category == c {
        var i :| 0 <= i < |init| && init[i].category == c;
        assert assets[i].category == c;
      }
      if exists i :: 0 <= i < |assets| && assets[i].category == c {
        var i :| 0 <= i < |assets| && assets[i].category == c;
        if i < |init| {
          assert init[i].category == c;
        }
      }
    }
  }

  /** The totals have an entry for exactly the listed categories. */
  lemma {:induction false} TotalsOfKeys(assets: seq<JsAsset>, c: string)
    ensures c in TotalsOf(assets) <==> c in CategoriesOf(assets)
  {
    if assets != [] {
      TotalsOfKeys(assets[..|assets| - 1], c);
    }
  }

  /** Each running total is the value of that category's assets. */
  lemma {:induction false} TotalsOfValue(assets: seq<JsAsset>, c: string)
    requires c in TotalsOf(assets)
    ensures TotalsOf(assets)[c] == SumBy(OfCategory(assets, c), AssetValue)
  {
    var init := assets[..|assets| - 1];
    var last := assets[|assets| - 1];
    var m := TotalsOf(init);
    var mine := OfCategory(init, c);
    if last.category == c {
      assert OfCategory(assets, c) == mine + [last];
      if c in m {
        TotalsOfValue(init, c);
      } else {
        TotalsOfKeys(init, c);
        OfCategoryAbsent(init, c);
      }
      SumBySnoc(mine, last, AssetValue);
    } else {
      assert OfCategory(assets, c) == mine + [];
      assert mine + [] == mine;
      TotalsOfValue(init, c);
    }
  }

  lemma {:induction false} OfCategoryAbsent(assets: seq<JsAsset>, c: string)
    requires c !in CategoriesOf(assets)
    ensures OfCategory(assets, c) == []
  {
    if assets != [] {
      var init := assets[..|assets| - 1];
      OfCategoryAbsent(init, c);
    }
  }

  /** The total of `m` over `keys`, an absent key counting 0. */
  function SumOver(keys: seq<string>, m: map<string, real>): real {
    if keys == [] then 0.0
    else SumOver(keys[..|keys| - 1], m) + (if keys[|keys| - 1] in m then m[keys[|keys| - 1]] else 0.0)
  }

  /** Changing the entry of a key listed once changes the total by the difference. */
  lemma {:induction false} SumOverUpdate(keys: seq<string>, m: map<string, real>, c: string, x: real)
    requires Distinct(keys) && c in m
    ensures SumOver(keys, m[c := x]) == SumOver(keys, m) + (if c in keys then x - m[c] else 0.0)
  {
    if keys != [] {
      var init := keys[..|keys| - 1];
      assert Distinct(init);
      SumOverUpdate(init, m, c, x);
      assert keys == init + [keys[|keys| - 1]];
    }
  }

  /** A key the list does not hold does not change the total. */
  lemma {:induction false} SumOverFresh(keys: seq<string>, m: map<string, real>, c: string, x: real)
    requires c !in keys
    ensures SumOver(keys, m[c := x]) == SumOver(keys, m)
  {
    if keys != [] {
      var init := keys[..|keys| - 1];
      assert c !in init by {
        assert forall k :: k in init ==> k in keys;
      }
      SumOverFresh(init, m, c, x);
    }
  }

  /** The category totals add up to net worth. */
  lemma {:induction false} TotalsAddUp(assets: seq<JsAsset>)
    ensures SumOver(CategoriesOf(assets), TotalsOf(assets)) == NetWorth(assets)
  {
    if assets != [] {
      var init := assets[..|assets| - 1];
      var last := assets[|assets| - 1];
      var c := last.category;
      var keys, m := CategoriesOf(init), TotalsOf(init);
      TotalsAddUp(init);
      CategoriesOfDistinct(init);
      TotalsOfKeys(init, c);
      var x := (if c in m && m[c] != 0.0 then m[c] else 0.0) + AssetValue(last);
      if c in keys {
        SumOverUpdate(keys, m, c, x);
      } else {
        SumOverFresh(keys, m, c, x);
        var k2 := keys + [c];
        assert k2[..|k2| - 1] == keys;
      }
    }
  }

  /** Grouping one asset more: its category is listed if new, and its value added to a total that is reset when unset or 0. */
  lemma GroupStep(assets: seq<JsAsset>, j: nat)
    requires j < |assets|
    ensures var c, m := assets[j].category, TotalsOf(assets[..j]);
            && CategoriesOf(assets[..j + 1]) == CategoriesOf(assets[..j]) + (if c in CategoriesOf(assets[..j]) then [] else [c])
            && TotalsOf(assets[..j + 1]) == m[c := (if c in m && m[c] != 0.0 then m[c] else 0.0) + AssetValue(assets[j])]
  {
    assert assets[..j + 1][..j] == assets[..j];
  }

  /** The grouping loop of `getAssetBreakdown`: its keys in insertion order and its totals. */
  method GroupByCategory(assets: seq<JsAsset>) returns (keys: seq<string>, totals: map<string, real>)
    ensures keys == CategoriesOf(assets) && totals == TotalsOf(assets)
  {
    keys, totals := [], map[];
    var j := 0;
    while j < |assets|
      invariant 0 <= j <= |assets|
      invariant keys == CategoriesOf(assets[..j]) && totals == TotalsOf(assets[..j])
    {
      var c := assets[j].category;
      TotalsOfKeys(assets[..j], c);
      GroupStep(assets, j);
      var value := AssetValue(assets[j]);
      ghost var before := totals;
      if !(c in totals && totals[c] != 0.0) {
        if c !in totals {
          keys := keys + [c];
        }
        totals := totals[c := 0.0];
      }
      totals := totals[c := totals[c] + value];
      assert totals == before[c := (if c in before && before[c] != 0.0 then before[c] else 0.0) + value];
      j := j + 1;
    }
    assert assets[..j] == assets;
  }

  /** Entries that carry the totals of `keys` add up to the same total. */
  lemma {:induction false} EntriesAddUp(entries: seq<BreakdownEntry>, keys: seq<string>, m: map<string, real>)
    requires |entries| == |keys|
    requires forall i :: 0 <= i < |keys| ==> keys[i] in m && entries[i].value == m[keys[i]]
    ensures SumBy(entries, ValueOf) == SumOver(keys, m)
  {
    if keys != [] {
      EntriesAddUp(entries[..|entries| - 1], keys[..|keys| - 1], m);
    }
  }

  /** Scaling every term to a percentage of `k` scales the sum the same way. */
  lemma {:induction false} SumByPercent<T>(s: seq<T>, f: T -> real, g: T -> real, k: real)
    requires k != 0.0
    requires forall i :: 0 <= i < |s| ==> g(s[i]) == f(s[i]) / k * 100.0
    ensures SumBy(s, g) == SumBy(s, f) / k * 100.0
  {
    if s != [] {
      SumByPercent(s[..|s| - 1], f, g, k);
    }
  }

  /** Reordering entries whose categories are distinct keeps them distinct. */
  lemma ReorderedEntries(entries: seq<BreakdownEntry>, r: seq<BreakdownEntry>)
    requires forall i, j :: 0 <= i < j < |entries| ==> entries[i].category != entries[j].category
    requires multiset(r) == multiset(entries)
    ensures forall i, j :: 0 <= i < j < |r| ==> r[i].category != r[j].category
    ensures forall x :: x in r <==> x in entries
  {
    assert Distinct(entries);
    DistinctPermutation(entries, r);
    forall x
      ensures x in r <==> x in entries
    {
      assert x in r <==> x in multiset(r);
    }
    forall i, j | 0 <= i < j < |r|
      ensures r[i].category != r[j].category
    {
      assert r[i] in multiset(r) && r[j] in multiset(r);
      var p :| 0 <= p < |entries| && entries[p] == r[i];
      var q :| 0 <= q < |entries| && entries[q] == r[j];
      if p < q {
        assert entries[p].category != entries[q].category;
      } else if q < p {
        assert entries[q].category != entries[p].category;
      }
    }
  }

  /**
   * `getAssetBreakdown`: one entry per category the assets use, sorted by
   * value largest first, each with its share of net worth.
   */
  method AssetBreakdown(assets: seq<JsAsset>) returns (breakdown: seq<BreakdownEntry>)
    ensures SortedDesc(breakdown, ValueOf)
    ensures forall i, j :: 0 <= i < j < |breakdown| ==> breakdown[i].category != breakdown[j].category
    ensures forall c :: Lists(breakdown, c) <==> Uses(assets, c)
    ensures forall i :: 0 <= i < |breakdown| ==>
              && breakdown[i].value == SumBy(OfCategory(assets, breakdown[i].category), AssetValue)
              && breakdown[i].name == DisplayName(breakdown[i].category)
              && breakdown[i].percentage == Share(breakdown[i].value, NetWorth(assets))
    ensures NetWorth(assets) > 0.0 ==> SumBy(breakdown, PercentageOf) == 100.0
    ensures NetWorth(assets) <= 0.0 ==> forall i :: 0 <= i < |breakdown| ==> breakdown[i].percentage == 0.0
  {
    var totalNetWorth := CalculateNetWorth(assets);
    var keys, totals := GroupByCategory(assets);
    forall c | c in keys
      ensures c in totals
    {
      TotalsOfKeys(assets, c);
    }
    var entries: seq<BreakdownEntry> := [];
    var k := 0;
    while k < |keys|
      invariant 0 <= k <= |keys|
      invariant |entries| == k
      invariant forall i :: 0 <= i < k ==> entries[i] == Entry(keys[i], totals[keys[i]], totalNetWorth)
    {
      entries := entries + [Entry(keys[k], totals[keys[k]], totalNetWorth)];
      k := k + 1;
    }
    assert BuiltFrom(entries, keys, totals, totalNetWorth);
    breakdown := SortDesc(entries, ValueOf);
    BreakdownMeaning(assets, keys, totals, totalNetWorth, entries, breakdown);
  }

  /** `entries` holds, for each of `keys` in order, its entry for the total in `totals`. */
  predicate BuiltFrom(entries: seq<BreakdownEntry>, keys: seq<string>, totals: map<string, real>, total: real) {
    && |entries| == |keys|
    && forall i :: 0 <= i < |keys| ==> keys[i] in totals && entries[i] == Entry(keys[i], totals[keys[i]], total)
  }

  /** What the sorted entries built from the grouped totals satisfy. */
  lemma BreakdownMeaning(assets: seq<JsAsset>, keys: seq<string>, totals: map<string, real>, total: real,
                         entries: seq<BreakdownEntry>, breakdown: seq<BreakdownEntry>)
    requires keys == CategoriesOf(assets) && totals == TotalsOf(assets) && total == NetWorth(assets)
    requires BuiltFrom(entries, keys, totals, total)
    requires multiset(breakdown) == multiset(entries)
    ensures forall i, j :: 0 <= i < j < |breakdown| ==> breakdown[i].category != breakdown[j].category
    ensures forall c :: Lists(breakdown, c) <==> Uses(assets, c)
    ensures forall i :: 0 <= i < |breakdown| ==>
              && breakdown[i].value == SumBy(OfCategory(assets, breakdown[i].category), AssetValue)
              && breakdown[i].name == DisplayName(breakdown[i].category)
              && breakdown[i].percentage == Share(breakdown[i].value, total)
    ensures total > 0.0 ==> SumBy(breakdown, PercentageOf) == 100.0
    ensures total <= 0.0 ==> forall i :: 0 <= i < |breakdown| ==> breakdown[i].percentage == 0.0
  {
    BreakdownCategories(assets, keys, totals, total, entries, breakdown);
    BreakdownValues(assets, keys, totals, total, entries, breakdown);
    if total > 0.0 {
      BreakdownAddsUp(assets, keys, totals, total, entries, breakdown);
    }
  }

  /** The breakdown has one entry per category the assets use. */
  lemma BreakdownCategories(assets: seq<JsAsset>, keys: seq<string>, totals: map<string, real>, total: real,
                            entries: seq<BreakdownEntry>, breakdown: seq<BreakdownEntry>)
    requires keys == CategoriesOf(assets)
    requires BuiltFrom(entries, keys, totals, total)
    requires multiset(breakdown) == multiset(entries)
    ensures forall i, j :: 0 <= i < j < |breakdown| ==> breakdown[i].category != breakdown[j].category
    ensures forall c :: Lists(breakdown, c) <==> Uses(assets, c)
  {
    CategoriesOfDistinct(assets);
    forall i, j | 0 <= i < j < |entries|
      ensures entries[i].category != entries[j].category
    {
      assert entries[i].category == keys[i] && entries[j].category == keys[j];
    }
    ReorderedEntries(entries, breakdown);
    forall c
      ensures Lists(breakdown, c) <==> Uses(assets, c)
    {
      CategoriesOfMembers(assets, c);
      if c in keys {
        var p :| 0 <= p < |keys| && keys[p] == c;
        assert entries[p] in breakdown;
        var i :| 0 <= i < |breakdown| && breakdown[i] == entries[p];
        assert breakdown[i].category == c;
      }
      if Lists(breakdown, c) {
        var i :| 0 <= i < |breakdown| && breakdown[i].category == c;
        assert breakdown[i] in entries;
        var p :| 0 <= p < |entries| && entries[p] == breakdown[i];
        assert keys[p] == c;
      }
    }
  }

  /** Each entry carries its category's total, display name and share. */
  lemma BreakdownValues(assets: seq<JsAsset>, keys: seq<string>, totals: map<string, real>, total: real,
                        entries: seq<BreakdownEntry>, breakdown: seq<BreakdownEntry>)
    requires totals == TotalsOf(assets)
    requires BuiltFrom(entries, keys, totals, total)
    requires multiset(breakdown) == multiset(entries)
    ensures forall i :: 0 <= i < |breakdown| ==>
              && breakdown[i].value == SumBy(OfCategory(assets, breakdown[i].category), AssetValue)
              && breakdown[i].name == DisplayName(breakdown[i].category)
              && breakdown[i].percentage == Share(breakdown[i].value, total)
  {
    forall i | 0 <= i < |breakdown|
      ensures breakdown[i].value == SumBy(OfCategory(assets, breakdown[i].category), AssetValue)
      ensures breakdown[i].name == DisplayName(breakdown[i].category)
      ensures breakdown[i].percentage == Share(breakdown[i].value, total)
    {
      assert breakdown[i] in multiset(entries);
      var p :| 0 <= p < |entries| && entries[p] == breakdown[i];
      TotalsOfValue(assets, keys[p]);
    }
  }

  /** With a positive net worth the shares add up to 100. */
  lemma BreakdownAddsUp(assets: seq<JsAsset>, keys: seq<string>, totals: map<string, real>, total: real,
                        entries: seq<BreakdownEntry>, breakdown: seq<BreakdownEntry>)
    requires keys == CategoriesOf(assets) && totals == TotalsOf(assets) && total == NetWorth(assets)
    requires BuiltFrom(entries, keys, totals, total)
    requires multiset(breakdown) == multiset(entries)
    requires total > 0.0
    ensures SumBy(breakdown, PercentageOf) == 100.0
  {
    EntriesAddUp(entries, keys, totals);
    TotalsAddUp(assets);
    SumByPercent(entries, ValueOf, PercentageOf, total);
    SumByPermutation(breakdown, entries, PercentageOf);
    Calculations.DivSelf(total);
  }
}
