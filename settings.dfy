/** App-wide settings: display currency, growth-rate overrides, app lock. */
module SettingsModel {
  import opened AssetCategories
  import opened CategoryDefinitions

  /** Growth-rate overrides are keyed by category raw value. */
  datatype Settings = Settings(currencyCode: string, growthRates: map<string, real>, appLockEnabled: bool)

  /** The map a loop holds after writing `value(x)` under `key(x)` for each `x` of `xs`, in order. */
  function Written<T>(xs: seq<T>, key: T -> string, value: T -> real): map<string, real> {
    if xs == [] then map[]
    else Written(xs[..|xs| - 1], key, value)[key(xs[|xs| - 1]) := value(xs[|xs| - 1])]
  }

  /** The rates map the loop in `default` holds after visiting `cs`, in order. */
  function RatesFor(cs: seq<AssetCategory>): map<string, real> {
    Written(cs, RawValue, DefaultGrowthRate)
  }

  /** The default rates: every category's default, under its raw value. */
  function DefaultRates(): map<string, real> {
    RatesFor(AllCases)
  }

  /** `Settings.default`. */
  function DefaultSettings(): Settings {
    Settings("INR", DefaultRates(), true)
  }

  /** `Settings.default`, as the source computes it: fill `rates` over all cases. */
  method Default() returns (s: Settings)
    ensures s == DefaultSettings()
    ensures s.currencyCode == "INR" && s.appLockEnabled
    ensures s.growthRates == RatesFor(AllCases)
  {
    var rates := FillRates(AllCases);
    s := Settings("INR", rates, true);
  }

  /** The loop of `Settings.default` over the categories `cs`, in order. */
  method FillRates(cs: seq<AssetCategory>) returns (rates: map<string, real>)
    ensures rates == RatesFor(cs)
  {
    rates := map[];
    var i := 0;
    while i < |cs|
      invariant 0 <= i <= |cs|
      invariant rates == RatesFor(cs[..i])
    {
      RatesForStep(cs, i);
      var c := cs[i];
      rates := rates[RawValue(c) := Definition(c).growthRateDefault];
      i := i + 1;
    }
    assert cs[..i] == cs;
  }

  lemma RatesForStep(cs: seq<AssetCategory>, i: nat)
    requires i < |cs|
    ensures RatesFor(cs[..i + 1]) == RatesFor(cs[..i])[RawValue(cs[i]) := Definition(cs[i]).growthRateDefault]
  {
    assert cs[..i + 1][..i] == cs[..i];
  }

  /** An element written under a key no other element shares ends up under that key. */
  lemma {:induction false} WrittenLookup<T>(xs: seq<T>, key: T -> string, value: T -> real, x: T)
    requires x in xs
    requires forall y :: y in xs && key(y) == key(x) ==> y == x
    ensures key(x) in Written(xs, key, value)
    ensures Written(xs, key, value)[key(x)] == value(x)
  {
    var init, last := xs[..|xs| - 1], xs[|xs| - 1];
    if last != x {
      assert x in init by {
        var i :| 0 <= i < |xs| && xs[i] == x;
        assert init[i] == x;
      }
      assert forall y :: y in init ==> y in xs;
      WrittenLookup(init, key, value, x);
    }
  }

  /** Only keys of written elements are present. */
  lemma {:induction false} WrittenKeys<T>(xs: seq<T>, key: T -> string, value: T -> real, k: string)
    requires k in Written(xs, key, value)
    ensures exists x :: x in xs && key(x) == k
  {
    var init := xs[..|xs| - 1];
    if k != key(xs[|xs| - 1]) {
      WrittenKeys(init, key, value, k);
      var x :| x in init && key(x) == k;
      assert x in xs;
    }
  }

  /** After the loop has visited `cs`, each visited category has its default under its raw value. */
  lemma RatesForLookup(cs: seq<AssetCategory>, c: AssetCategory)
    requires c in cs
    ensures RawValue(c) in RatesFor(cs)
    ensures RatesFor(cs)[RawValue(c)] == Definition(c).growthRateDefault
  {
    forall d | d in cs && RawValue(d) == RawValue(c)
      ensures d == c
    {
      RawValueInjective(d, c);
    }
    WrittenLookup(cs, RawValue, DefaultGrowthRate, c);
  }

  /** The loop writes only raw values of visited categories. */
  lemma RatesForKeys(cs: seq<AssetCategory>, k: string)
    requires k in RatesFor(cs)
    ensures exists c :: c in cs && RawValue(c) == k
  {
    WrittenKeys(cs, RawValue, DefaultGrowthRate, k);
  }

  /** Default rates hold an entry for exactly the categories' raw values, each the category default. */
  lemma DefaultRatesAreCategoryDefaults(c: AssetCategory)
    ensures RawValue(c) in DefaultRates()
    ensures DefaultRates()[RawValue(c)] == Definition(c).growthRateDefault
    ensures forall k :: k in DefaultRates() ==> FromRawValue(k).Some?
  {
    AllCasesComplete(c);
    RatesForLookup(AllCases, c);
    forall k | k in DefaultRates() ensures FromRawValue(k).Some? {
      RatesForKeys(AllCases, k);
      var d :| d in AllCases && RawValue(d) == k;
      FromRawValueOfRawValue(d);
    }
  }
}
