/**
 * The web app's category registry: fourteen categories keyed by name, each
 * with its input fields and an annual growth rate in percent. Icons,
 * colours, labels and display formats are left out.
 */
module JsCategories {
  import opened Wrappers
  import opened Sequences

  /** A value held in an asset's `values` object or given as a field default. */
  datatype JsValue = JsNumber(number: real) | JsText(text: string)

  datatype FieldKind = Slider | NumberInput | DateInput | Select | TextInput

  /** An entry of a `select` field; `defaultValue` is its suggested value. */
  datatype JsOption = JsOption(value: string, defaultValue: Option<real>)

  datatype JsField = JsField(
    id: string,
    kind: FieldKind,
    min: Option<real>,
    max: Option<real>,
    step: Option<real>,
    defaultValue: Option<JsValue>,
    options: seq<JsOption>)

  /** `growthRate`: any of `min`, `max` and `default` may be missing. */
  datatype JsGrowthRate = JsGrowthRate(min: Option<real>, max: Option<real>, default: Option<real>)

  datatype JsCategory = JsCategory(key: string, name: string, fields: seq<JsField>, growthRate: Option<JsGrowthRate>)

  function Num(x: real): Option<JsValue> {
    Some(JsNumber(x))
  }

  const Blank: Option<JsValue> := Some(JsText(""))

  /** A `slider` field from 0 with the given maximum, step and default. */
  function SliderFrom(id: string, lo: real, hi: real, step: real, default: real): JsField {
    JsField(id, Slider, Some(lo), Some(hi), Some(step), Num(default), [])
  }

  /** A `number` field with the given minimum, step and default and no maximum. */
  function NumberFrom(id: string, lo: real, step: real, default: real): JsField {
    JsField(id, NumberInput, Some(lo), None, Some(step), Num(default), [])
  }

  function Range(lo: real, hi: real, default: real): Option<JsGrowthRate> {
    Some(JsGrowthRate(Some(lo), Some(hi), Some(default)))
  }

  function Rate(default: real): Option<JsGrowthRate> {
    Some(JsGrowthRate(None, None, Some(default)))
  }

  /** The kinds of personal property, each with a suggested value. */
  const PersonalAssetOptions: seq<JsOption> := [
    JsOption("bike", Some(100000.0)),
    JsOption("car", Some(800000.0)),
    JsOption("cycle", Some(10000.0)),
    JsOption("phone", Some(80000.0)),
    JsOption("laptop", Some(90000.0)),
    JsOption("pc", Some(100000.0)),
    JsOption("watch", Some(30000.0)),
    JsOption("console", Some(50000.0)),
    JsOption("shoes", Some(15000.0)),
    JsOption("watch_luxury", Some(100000.0)),
    JsOption("other", Some(10000.0))
  ]

  function StocksEntry(): JsCategory {
    JsCategory("stocks", "Stock Investments",
      [SliderFrom("stockValue", 0.0, 10000000.0, 1000.0, 0.0)], Range(15.0, 20.0, 17.5))
  }

  function MutualFundsEntry(): JsCategory {
    JsCategory("mutualFunds", "Mutual Fund Investments",
      [SliderFrom("fundValue", 0.0, 10000000.0, 1000.0, 0.0)], Range(10.0, 13.0, 11.5))
  }

  function GoldEntry(): JsCategory {
    JsCategory("gold", "Gold",
      [NumberFrom("goldQuantity", 0.0, 0.1, 0.0), NumberFrom("goldRate", 0.0, 100.0, 5000.0)],
      Range(9.0, 10.0, 9.5))
  }

  function FixedDepositsEntry(): JsCategory {
    JsCategory("fixedDeposits", "Fixed Deposits",
      [ SliderFrom("principalAmount", 0.0, 5000000.0, 1000.0, 0.0),
        JsField("interestRate", NumberInput, Some(0.0), Some(12.0), Some(0.1), Num(7.0), []),
        JsField("maturityDate", DateInput, None, None, None, Blank, []) ],
      Rate(7.0))
  }

  function PersonalAssetsEntry(): JsCategory {
    JsCategory("personalAssets", "Personal Property",
      [ JsField("assetType", Select, None, None, None, None, PersonalAssetOptions),
        JsField("assetName", TextInput, None, None, None, Blank, []),
        NumberFrom("quantity", 1.0, 1.0, 1.0),
        SliderFrom("assetValue", 0.0, 2000000.0, 1000.0, 0.0) ],
      Range(-10.0, -5.0, -7.5))
  }

  function BondsEntry(): JsCategory {
    JsCategory("bonds", "Bonds",
      [SliderFrom("bondValue", 0.0, 5000000.0, 1000.0, 0.0)], Rate(8.0))
  }

  function LandEntry(): JsCategory {
    JsCategory("land", "Land",
      [SliderFrom("landValue", 100000.0, 50000000.0, 100000.0, 1000000.0)], Rate(9.0))
  }

  function HomeEntry(): JsCategory {
    JsCategory("home", "Home (Real Estate)",
      [SliderFrom("homeValue", 500000.0, 50000000.0, 100000.0, 5000000.0)], Rate(9.0))
  }

  function SavingsEntry(): JsCategory {
    JsCategory("savings", "Savings",
      [SliderFrom("savingsBalance", 0.0, 5000000.0, 1000.0, 0.0)], Rate(4.0))
  }

  function EmergencySavingsEntry(): JsCategory {
    JsCategory("emergencySavings", "Emergency Savings",
      [SliderFrom("emergencyBalance", 0.0, 1000000.0, 1000.0, 0.0)], Rate(4.0))
  }

  function EsopEntry(): JsCategory {
    JsCategory("esop", "ESOP",
      [NumberFrom("esopCurrentValue", 0.0, 1.0, 1.0), NumberFrom("esopShares", 0.0, 1.0, 0.0)],
      Rate(15.0))
  }

  function PrivateEquityEntry(): JsCategory {
    JsCategory("privateEquity", "Private Equity",
      [SliderFrom("peValue", 0.0, 50000000.0, 10000.0, 100000.0), NumberFrom("peUnits", 0.0, 1.0, 1.0)],
      Rate(20.0))
  }

  function VpfPpfEntry(): JsCategory {
    JsCategory("vpf_ppf", "VPF/PPF",
      [SliderFrom("vpfAmount", 0.0, 10000000.0, 1000.0, 0.0)], Rate(8.5))
  }

  function SilverEntry(): JsCategory {
    JsCategory("silver", "Silver",
      [NumberFrom("silverGrams", 0.0, 1.0, 0.0), NumberFrom("silverRate", 0.0, 1.0, 85.0)],
      Rate(9.5))
  }

  /** The entries of `assetCategories`, in the order the object literal declares them. */
  const Registry: seq<JsCategory> := [
    StocksEntry(), MutualFundsEntry(), GoldEntry(), FixedDepositsEntry(), PersonalAssetsEntry(),
    BondsEntry(), LandEntry(), HomeEntry(), SavingsEntry(), EmergencySavingsEntry(),
    EsopEntry(), PrivateEquityEntry(), VpfPpfEntry(), SilverEntry()
  ]

  /** `Object.keys(assetCategories)`. */
  function Keys(cs: seq<JsCategory>): (r: seq<string>)
    ensures |r| == |cs| && forall i :: 0 <= i < |cs| ==> r[i] == cs[i].key
  {
    seq(|cs|, i requires 0 <= i < |cs| => cs[i].key)
  }

  /** The first entry of `cs` under `key`. */
  function Find(key: string, cs: seq<JsCategory>): Option<JsCategory> {
    if cs == [] then None
    else if cs[0].key == key then Some(cs[0])
    else Find(key, cs[1..])
  }

  /** The search finds an entry under `key` exactly when some entry has that key. */
  lemma {:induction false} FindMeaning(key: string, cs: seq<JsCategory>)
    ensures Find(key, cs).Some? ==> Find(key, cs).value in cs && Find(key, cs).value.key == key
    ensures Find(key, cs).None? <==> key !in Keys(cs)
  {
    if cs != [] {
      FindMeaning(key, cs[1..]);
      assert Keys(cs) == [cs[0].key] + Keys(cs[1..]);
    }
  }

  /** `assetCategories[key]`, `undefined` for an unknown key. */
  function Lookup(key: string): Option<JsCategory> {
    Find(key, Registry)
  }

  function FieldIds(fields: seq<JsField>): (r: seq<string>)
    ensures |r| == |fields| && forall i :: 0 <= i < |fields| ==> r[i] == fields[i].id
  {
    seq(|fields|, i requires 0 <= i < |fields| => fields[i].id)
  }

  /** The table has the fourteen keys, `vpf_ppf` among them. */
  lemma RegistryKeys()
    ensures Keys(Registry) == [
      "stocks", "mutualFunds", "gold", "fixedDeposits", "personalAssets", "bonds", "land",
      "home", "savings", "emergencySavings", "esop", "privateEquity", "vpf_ppf", "silver"]
    ensures |Registry| == 14 && "vpf_ppf" in Keys(Registry)
  {
  }

  /** No key is declared twice. */
  lemma KeysDistinct()
    ensures Distinct(Keys(Registry))
  {
    RegistryKeys();
  }

  /** The search finds the entry at `i` when no earlier entry has its key. */
  lemma {:induction false} FindAt(cs: seq<JsCategory>, i: nat)
    requires i < |cs|
    requires forall j :: 0 <= j < i ==> cs[j].key != cs[i].key
    ensures Find(cs[i].key, cs) == Some(cs[i])
    decreases i
  {
    if i > 0 {
      FindAt(cs[1..], i - 1);
    }
  }

  /** Every declared entry is what its key looks up. */
  lemma LookupDeclared(i: nat)
    requires i < |Registry|
    ensures Lookup(Registry[i].key) == Some(Registry[i])
  {
    KeysDistinct();
    FindAt(Registry, i);
  }

  /** Every category declares a default growth rate; `stocks`, `mutualFunds`, `gold` and `personalAssets` give a range as well. */
  lemma EveryRateHasDefault()
    ensures forall i :: 0 <= i < |Registry| ==> Registry[i].growthRate.Some? && Registry[i].growthRate.value.default.Some?
    ensures forall i :: 0 <= i < |Registry| ==>
              (Registry[i].growthRate.value.min.Some? <==> Registry[i].key in {"stocks", "mutualFunds", "gold", "personalAssets"})
    ensures forall i :: 0 <= i < |Registry| ==>
              (Registry[i].growthRate.value.max.Some? <==> Registry[i].key in {"stocks", "mutualFunds", "gold", "personalAssets"})
  {
  }

  /** Where both bounds are given they bracket the default. */
  lemma DefaultsWithinBounds()
    ensures forall i :: 0 <= i < |Registry| ==>
              var g := Registry[i].growthRate.value;
              g.min.Some? && g.max.Some? ==> g.min.value <= g.default.value <= g.max.value
  {
  }

  /** Field ids are distinct within each category. */
  lemma FieldIdsUnique()
    ensures forall i :: 0 <= i < |Registry| ==> Distinct(FieldIds(Registry[i].fields))
  {
  }

  /** The first field of personal property is the `assetType` select over the priced kinds. */
  lemma PersonalAssetsSelect()
    ensures PersonalAssetsEntry().key == "personalAssets"
    ensures PersonalAssetsEntry().fields[0].id == "assetType"
    ensures PersonalAssetsEntry().fields[0].options == PersonalAssetOptions
  {
  }

  /** Looking up personal property finds its entry. */
  lemma PersonalAssetsLookup()
    ensures Lookup(PersonalAssetsEntry().key) == Some(PersonalAssetsEntry())
  {
    assert Registry[4] == PersonalAssetsEntry();
    LookupDeclared(4);
  }

  /** Every kind of personal property comes with a suggested value. */
  lemma PersonalAssetOptionsPriced()
    ensures forall i :: 0 <= i < |PersonalAssetOptions| ==> PersonalAssetOptions[i].defaultValue.Some?
  {
  }
}
