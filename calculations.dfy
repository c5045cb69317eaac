/**
 * Value resolution and aggregation of the iOS app: one amount per asset,
 * net worth with liabilities subtracted and insurance excluded, per-category
 * totals and summaries, and the monthly compounding projection.
 */
module Calculations {
  import opened Wrappers
  import opened AssetCategories
  import opened FieldValues
  import opened CategoryDefinitions
  import opened Assets
  import opened SettingsModel
  import opened Sequences

  function Max(a: real, b: real): real {
    if a >= b then a else b
  }

  /**
   * `assetValue`: the amount an asset stands for, by its category's formula.
   * Every debt reads its balance and every policy its coverage; the
   * fourteen wealth formulas are `WealthValue`.
   */
  function AssetValue(a: Asset): real {
    if IsDebt(a.category) then NumberValue(a, "debtBalance")
    else if IsInsurance(a.category) then NumberValue(a, "coverageAmount")
    else WealthValue(a)
  }

  function WealthValue(a: Asset): real
    requires !IsDebt(a.category) && !IsInsurance(a.category)
  {
    match a.category
    case Stocks => NumberValue(a, "stockValue")
    case MutualFunds => NumberValue(a, "fundValue")
    case Gold => NumberValue(a, "goldQuantity") * NumberValue(a, "goldRate")
    case FixedDeposits => NumberValue(a, "principalAmount")
    case PersonalAssets => NumberValue(a, "assetValue") * Max(NumberValue(a, "quantity"), 1.0)
    case Bonds => NumberValue(a, "bondValue")
    case Land => NumberValue(a, "landValue")
    case Home => NumberValue(a, "homeValue")
    case Savings => NumberValue(a, "savingsBalance")
    case EmergencySavings => NumberValue(a, "emergencyBalance")
    case Esop => NumberValue(a, "esopCurrentValue") * NumberValue(a, "esopShares")
    case PrivateEquity => NumberValue(a, "peValue")
    case Silver => NumberValue(a, "silverGrams") * NumberValue(a, "silverRate")
    case _ => NumberValue(a, "vpfAmount")
  }

  /** The field ids `assetValue` reads for each category. */
  function ValueKeys(c: AssetCategory): seq<string> {
    if IsDebt(c) then ["debtBalance"]
    else if IsInsurance(c) then ["coverageAmount"]
    else WealthValueKeys(c)
  }

  function WealthValueKeys(c: AssetCategory): seq<string>
    requires !IsDebt(c) && !IsInsurance(c)
  {
    match c
    case Stocks => ["stockValue"]
    case MutualFunds => ["fundValue"]
    case Gold => ["goldQuantity", "goldRate"]
    case FixedDeposits => ["principalAmount"]
    case PersonalAssets => ["assetValue", "quantity"]
    case Bonds => ["bondValue"]
    case Land => ["landValue"]
    case Home => ["homeValue"]
    case Savings => ["savingsBalance"]
    case EmergencySavings => ["emergencyBalance"]
    case Esop => ["esopCurrentValue", "esopShares"]
    case PrivateEquity => ["peValue"]
    case Silver => ["silverGrams", "silverRate"]
    case _ => ["vpfAmount"]
  }

  /** The categories whose amount is a product of two fields. */
  predicate IsProduct(c: AssetCategory) {
    c == Gold || c == Silver || c == Esop
  }

  /** The amount depends on no field other than the ones its category's formula reads. */
  lemma AssetValueReadsOnlyValueKeys(a: Asset, b: Asset)
    requires a.category == b.category
    requires forall k :: k in ValueKeys(a.category) ==> NumberValue(a, k) == NumberValue(b, k)
    ensures AssetValue(a) == AssetValue(b)
  {
    if IsDebt(a.category) {
      assert NumberValue(a, "debtBalance") == NumberValue(b, "debtBalance");
    } else if IsInsurance(a.category) {
      assert NumberValue(a, "coverageAmount") == NumberValue(b, "coverageAmount");
    } else {
      WealthValueReadsOnlyKeys(a, b);
    }
  }

  lemma WealthValueReadsOnlyKeys(a: Asset, b: Asset)
    requires a.category == b.category && !IsDebt(a.category) && !IsInsurance(a.category)
    requires forall k :: k in WealthValueKeys(a.category) ==> NumberValue(a, k) == NumberValue(b, k)
    ensures WealthValue(a) == WealthValue(b)
  {
    var ks := WealthValueKeys(a.category);
    if IsProduct(a.category) {
      ProductReadsOnlyKeys(a, b);
    } else if a.category == PersonalAssets {
      assert ks[0] in ks && ks[1] in ks;
      PersonalOfEquals(a, b);
    } else {
      SingleReadsOnlyKey(a, b);
    }
  }

  lemma ProductReadsOnlyKeys(a: Asset, b: Asset)
    requires a.category == b.category && IsProduct(a.category)
    requires forall k :: k in WealthValueKeys(a.category) ==> NumberValue(a, k) == NumberValue(b, k)
    ensures WealthValue(a) == WealthValue(b)
  {
    var ks := WealthValueKeys(a.category);
    assert ks[0] in ks && ks[1] in ks;
    ProductOfEquals(a, b, ks[0], ks[1]);
  }

  /** A product category's amount is the product of its two readings, so equal readings give equal amounts. */
  lemma ProductOfEquals(a: Asset, b: Asset, k0: string, k1: string)
    requires a.category == b.category && IsProduct(a.category) && WealthValueKeys(a.category) == [k0, k1]
    requires NumberValue(a, k0) == NumberValue(b, k0) && NumberValue(a, k1) == NumberValue(b, k1)
    ensures WealthValue(a) == WealthValue(b)
  {
    if a.category == Gold {
      assert WealthValue(a) == NumberValue(a, "goldQuantity") * NumberValue(a, "goldRate");
    } else if a.category == Silver {
      assert WealthValue(a) == NumberValue(a, "silverGrams") * NumberValue(a, "silverRate");
    } else {
      assert WealthValue(a) == NumberValue(a, "esopCurrentValue") * NumberValue(a, "esopShares");
    }
  }

  /** Personal property is its value times its quantity (at least 1), so equal readings give equal amounts. */
  lemma PersonalOfEquals(a: Asset, b: Asset)
    requires a.category == PersonalAssets && b.category == PersonalAssets
    requires NumberValue(a, "assetValue") == NumberValue(b, "assetValue")
    requires NumberValue(a, "quantity") == NumberValue(b, "quantity")
    ensures WealthValue(a) == WealthValue(b)
  {
  }

  lemma SingleReadsOnlyKey(a: Asset, b: Asset)
    requires a.category == b.category && !IsDebt(a.category) && !IsInsurance(a.category)
    requires !IsProduct(a.category) && a.category != PersonalAssets
    requires forall k :: k in WealthValueKeys(a.category) ==> NumberValue(a, k) == NumberValue(b, k)
    ensures WealthValue(a) == WealthValue(b)
  {
    var ks := WealthValueKeys(a.category);
    assert ks[0] in ks;
    assert WealthValue(a) == NumberValue(a, ks[0]);
    assert WealthValue(b) == NumberValue(b, ks[0]);
  }

  /**
   * Gold and silver are quantity times rate and ESOPs price times shares:
   * two stored numbers multiply, and a missing factor makes the amount 0.
   */
  lemma ProductValue(a: Asset, x: real, y: real)
    requires IsProduct(a.category)
    ensures ValueKeys(a.category)[0] !in a.values || ValueKeys(a.category)[1] !in a.values ==> AssetValue(a) == 0.0
    ensures a.values.Keys >= {ValueKeys(a.category)[0], ValueKeys(a.category)[1]}
            && a.values[ValueKeys(a.category)[0]] == Number(x)
            && a.values[ValueKeys(a.category)[1]] == Number(y)
            ==> AssetValue(a) == x * y
  {
  }

  /** Belongings count unit value times quantity, but never fewer than one unit. */
  lemma BelongingsValue(a: Asset)
    requires a.category == PersonalAssets
    ensures NumberValue(a, "quantity") <= 1.0 ==> AssetValue(a) == NumberValue(a, "assetValue")
    ensures NumberValue(a, "quantity") >= 1.0 ==>
      AssetValue(a) == NumberValue(a, "assetValue") * NumberValue(a, "quantity")
    ensures "quantity" !in a.values ==> AssetValue(a) == NumberValue(a, "assetValue")
  {
  }

  /*
   * The table's two flags are read through `IsDebt` and `IsInsurance`:
   * the contract of `Definition` says that exactly the debts are
   * liabilities and exactly the insurance policies stay out of net worth,
   * and `FlagsReadTheTable` restates the functions below in terms of the
   * table.
   */

  /** An amount with the sign of category `c` applied: negated for a liability. */
  function Signed(c: AssetCategory, x: real): real {
    if IsDebt(c) then -x else x
  }

  /** `netWorthContribution`: the amount, negated for a liability. */
  function Contribution(a: Asset): real {
    Signed(a.category, AssetValue(a))
  }

  /** Whether the asset's category counts in net worth. */
  predicate IsCounted(a: Asset) {
    !IsInsurance(a.category)
  }

  /** The sign and the net-worth filter are the table's `isLiability` and `includesInNetWorth`. */
  lemma FlagsReadTheTable(a: Asset)
    ensures Contribution(a) == if Definition(a.category).isLiability then -AssetValue(a) else AssetValue(a)
    ensures IsCounted(a) == Definition(a.category).includesInNetWorth
  {
  }

  /** The assets whose category counts in net worth, in order. */
  function Counted(s: seq<Asset>): (r: seq<Asset>)
    ensures forall a :: a in r <==> a in s && IsCounted(a)
    ensures |r| <= |s|
  {
    if s == [] then []
    else Counted(s[..|s| - 1]) + (if IsCounted(s[|s| - 1]) then [s[|s| - 1]] else [])
  }

  /** `netWorth`: the sum of contributions of the counted assets. */
  function NetWorth(s: seq<Asset>): real {
    SumBy(Counted(s), Contribution)
  }

  lemma {:induction false} CountedConcat(s: seq<Asset>, t: seq<Asset>)
    ensures Counted(s + t) == Counted(s) + Counted(t)
  {
    if t == [] {
      assert s + t == s;
    } else {
      assert (s + t)[..|s + t| - 1] == s + t[..|t| - 1];
      assert (s + t)[|s + t| - 1] == t[|t| - 1];
      CountedConcat(s, t[..|t| - 1]);
    }
  }

  /** Net worth is additive over concatenation. */
  lemma NetWorthConcat(s: seq<Asset>, t: seq<Asset>)
    ensures NetWorth(s + t) == NetWorth(s) + NetWorth(t)
  {
    CountedConcat(s, t);
    SumByConcat(Counted(s), Counted(t), Contribution);
  }

  /**
   * One asset's effect on net worth: insurance none, a debt its balance
   * subtracted, anything else its amount added.
   */
  lemma NetWorthOfOne(a: Asset)
    ensures IsInsurance(a.category) ==> NetWorth([a]) == 0.0
    ensures IsDebt(a.category) ==> NetWorth([a]) == -AssetValue(a)
    ensures !IsInsurance(a.category) && !IsDebt(a.category) ==> NetWorth([a]) == AssetValue(a)
  {
    assert [a][..0] == [];
    var e: seq<Asset> := [];
    if IsCounted(a) {
      assert Counted([a]) == [a];
      SumBySnoc(e, a, Contribution);
      assert e + [a] == [a];
      assert NetWorth([a]) == Contribution(a);
    } else {
      assert Counted([a]) == [];
    }
  }

  /** Adding an insurance policy never changes net worth; adding a debt lowers it by the balance. */
  lemma NetWorthAppend(s: seq<Asset>, a: Asset)
    ensures IsInsurance(a.category) ==> NetWorth(s + [a]) == NetWorth(s)
    ensures IsDebt(a.category) ==> NetWorth(s + [a]) == NetWorth(s) - AssetValue(a)
    ensures !IsInsurance(a.category) && !IsDebt(a.category) ==> NetWorth(s + [a]) == NetWorth(s) + AssetValue(a)
  {
    NetWorthConcat(s, [a]);
    NetWorthOfOne(a);
  }

  /** When every asset counts and none is a liability, net worth is the plain sum of amounts. */
  lemma {:induction false} NetWorthOfWealth(s: seq<Asset>)
    requires forall a :: a in s ==> IsCounted(a) && !IsDebt(a.category)
    ensures NetWorth(s) == SumBy(s, AssetValue)
  {
    if s != [] {
      var init, last := s[..|s| - 1], s[|s| - 1];
      assert s == init + [last];
      assert IsCounted(last) && !IsDebt(last.category) by {
        assert last in s;
      }
      assert NetWorth(init) == SumBy(init, AssetValue) by {
        forall a | a in init
          ensures IsCounted(a) && !IsDebt(a.category)
        {
          assert a in s;
        }
        NetWorthOfWealth(init);
      }
      WealthStep(init, last);
    }
  }

  lemma {:induction false} WealthStep(init: seq<Asset>, last: Asset)
    requires IsCounted(last) && !IsDebt(last.category)
    requires NetWorth(init) == SumBy(init, AssetValue)
    ensures NetWorth(init + [last]) == SumBy(init + [last], AssetValue)
  {
    NetWorthAppend(init, last);
    SumBySnoc(init, last, AssetValue);
  }

  // Per-category totals.

  /** The assets of one category, in order. */
  function OfCategory(s: seq<Asset>, c: AssetCategory): (r: seq<Asset>)
    ensures forall a :: a in r <==> a in s && a.category == c
  {
    if s == [] then []
    else OfCategory(s[..|s| - 1], c) + (if s[|s| - 1].category == c then [s[|s| - 1]] else [])
  }

  lemma {:induction false} OfCategoryNone(s: seq<Asset>, c: AssetCategory)
    requires forall a :: a in s ==> a.category != c
    ensures OfCategory(s, c) == []
  {
    if s != [] {
      OfCategoryNone(s[..|s| - 1], c);
    }
  }

  /** `totals[category, default: 0] += f(asset)` over `s`, in order. */
  function CategoryTotals(s: seq<Asset>, f: Asset -> real): map<AssetCategory, real> {
    if s == [] then map[]
    else
      var m := CategoryTotals(s[..|s| - 1], f);
      var c := s[|s| - 1].category;
      m[c := (if c in m then m[c] else 0.0) + f(s[|s| - 1])]
  }

  /** A category has a total exactly when some asset of it is present. */
  lemma {:induction false} CategoryTotalsKeys(s: seq<Asset>, f: Asset -> real, c: AssetCategory)
    ensures c in CategoryTotals(s, f) <==> exists a :: a in s && a.category == c
  {
    if s != [] {
      var init, last := s[..|s| - 1], s[|s| - 1];
      assert s == init + [last];
      CategoryTotalsKeys(init, f, c);
    }
  }

  /** A category's total is the sum over the assets of that category. */
  lemma {:induction false} CategoryTotalsValue(s: seq<Asset>, f: Asset -> real, c: AssetCategory)
    requires c in CategoryTotals(s, f)
    ensures CategoryTotals(s, f)[c] == SumBy(OfCategory(s, c), f)
  {
    var init, last := s[..|s| - 1], s[|s| - 1];
    var m := CategoryTotals(init, f);
    var r := OfCategory(init, c);
    if last.category == c {
      assert OfCategory(s, c) == r + [last];
      SumBySnoc(r, last, f);
      if c in m {
        CategoryTotalsValue(init, f, c);
      } else {
        CategoryTotalsKeys(init, f, c);
        OfCategoryNone(init, c);
      }
    } else {
      assert OfCategory(s, c) == r;
      CategoryTotalsValue(init, f, c);
    }
  }

  /** Both facts about a category's entry. */
  lemma CategoryTotalsMeaning(s: seq<Asset>, f: Asset -> real, c: AssetCategory)
    ensures c in CategoryTotals(s, f) <==> exists a :: a in s && a.category == c
    ensures c in CategoryTotals(s, f) ==> CategoryTotals(s, f)[c] == SumBy(OfCategory(s, c), f)
  {
    CategoryTotalsKeys(s, f, c);
    if c in CategoryTotals(s, f) {
      CategoryTotalsValue(s, f, c);
    }
  }

  /** `m[x]` when `x` is one of `keys` and mapped, else 0. */
  function Term(m: map<AssetCategory, real>, keys: set<AssetCategory>, x: AssetCategory): real {
    if x in keys && x in m then m[x] else 0.0
  }

  /** The sum of `Term` over `cs`: the total of `m` restricted to `keys`, in the order of `cs`. */
  function SumOver(cs: seq<AssetCategory>, m: map<AssetCategory, real>, keys: set<AssetCategory>): real {
    if cs == [] then 0.0 else SumOver(cs[..|cs| - 1], m, keys) + Term(m, keys, cs[|cs| - 1])
  }

  /** The sum of all values of a per-category map. */
  function MapTotal(m: map<AssetCategory, real>): real {
    SumOver(AllCases, m, m.Keys)
  }

  lemma {:induction false} SumOverAgree(cs: seq<AssetCategory>, m1: map<AssetCategory, real>, k1: set<AssetCategory>,
                                        m2: map<AssetCategory, real>, k2: set<AssetCategory>)
    requires forall x :: x in cs ==> Term(m1, k1, x) == Term(m2, k2, x)
    ensures SumOver(cs, m1, k1) == SumOver(cs, m2, k2)
  {
    if cs != [] {
      SumOverAgree(cs[..|cs| - 1], m1, k1, m2, k2);
    }
  }

  /** Changing one term, for a category listed once, changes the sum by the same amount. */
  lemma {:induction false} SumOverShift(cs: seq<AssetCategory>, m1: map<AssetCategory, real>, k1: set<AssetCategory>,
                                        m2: map<AssetCategory, real>, k2: set<AssetCategory>, c: AssetCategory, v: real)
    requires Distinct(cs) && c in cs
    requires forall x :: x in cs && x != c ==> Term(m1, k1, x) == Term(m2, k2, x)
    requires Term(m2, k2, c) == Term(m1, k1, c) + v
    ensures SumOver(cs, m2, k2) == SumOver(cs, m1, k1) + v
  {
    var init := cs[..|cs| - 1];
    assert Distinct(init);
    if cs[|cs| - 1] == c {
      assert c !in init;
      SumOverAgree(init, m1, k1, m2, k2);
    } else {
      assert c in init;
      SumOverShift(init, m1, k1, m2, k2, c, v);
    }
  }

  lemma {:induction false} SumOverNothing(cs: seq<AssetCategory>, m: map<AssetCategory, real>)
    ensures SumOver(cs, m, {}) == 0.0
  {
    if cs != [] {
      SumOverNothing(cs[..|cs| - 1], m);
    }
  }

  /** The per-category totals add up to the sum over all assets. */
  lemma {:induction false} CategoryTotalsSum(s: seq<Asset>, f: Asset -> real)
    ensures MapTotal(CategoryTotals(s, f)) == SumBy(s, f)
  {
    if s == [] {
      var m: map<AssetCategory, real> := map[];
      assert m.Keys == {};
      SumOverNothing(AllCases, m);
    } else {
      CategoryTotalsSum(s[..|s| - 1], f);
      CategoryTotalsSumStep(s, f);
    }
  }

  /** Adding one asset to its category's total adds its amount to the total of the map. */
  lemma {:induction false} CategoryTotalsSumStep(s: seq<Asset>, f: Asset -> real)
    requires s != []
    requires MapTotal(CategoryTotals(s[..|s| - 1], f)) == SumBy(s[..|s| - 1], f)
    ensures MapTotal(CategoryTotals(s, f)) == SumBy(s, f)
  {
    var init, last := s[..|s| - 1], s[|s| - 1];
    var m := CategoryTotals(init, f);
    var c := last.category;
    var m2 := CategoryTotals(s, f);
    assert m2 == m[c := (if c in m then m[c] else 0.0) + f(last)];
    assert MapTotal(m2) == MapTotal(m) + f(last) by {
      assert Term(m2, m2.Keys, c) == Term(m, m.Keys, c) + f(last);
      assert forall x :: x in AllCases && x != c ==> Term(m, m.Keys, x) == Term(m2, m2.Keys, x);
      AllCasesComplete(c);
      SumOverShift(AllCases, m, m.Keys, m2, m2.Keys, c, f(last));
    }
  }

  /** The `totals[asset.category, default: 0] += f(asset)` loop over `s`. */
  method AddUpByCategory(s: seq<Asset>, f: Asset -> real) returns (totals: map<AssetCategory, real>)
    ensures totals == CategoryTotals(s, f)
  {
    totals := map[];
    var i := 0;
    while i < |s|
      invariant 0 <= i <= |s|
      invariant totals == CategoryTotals(s[..i], f)
    {
      var a := s[i];
      assert s[..i + 1][..i] == s[..i];
      totals := totals[a.category := (if a.category in totals then totals[a.category] else 0.0) + f(a)];
      i := i + 1;
    }
    assert s[..i] == s;
  }

  /** `netWorthComponents`: the per-category contributions of the counted assets. */
  method NetWorthComponents(assets: seq<Asset>) returns (totals: map<AssetCategory, real>)
    ensures totals == CategoryTotals(Counted(assets), Contribution)
    ensures forall c :: c in totals ==> !IsInsurance(c)
    ensures forall c :: c in totals <==> exists a :: a in assets && IsCounted(a) && a.category == c
    ensures MapTotal(totals) == NetWorth(assets)
  {
    var filtered := Counted(assets);
    totals := AddUpByCategory(filtered, Contribution);
    forall c ensures c in totals <==> exists a :: a in assets && IsCounted(a) && a.category == c {
      CategoryTotalsKeys(filtered, Contribution, c);
    }
    CategoryTotalsSum(filtered, Contribution);
  }

  // Category summaries.

  datatype CategorySummary = CategorySummary(category: AssetCategory, total: real, percentage: Option<real>)

  function TotalOf(s: CategorySummary): real {
    s.total
  }

  function PercentageOf(s: CategorySummary): real {
    s.percentage.GetOr(0.0)
  }

  /** Whether some summary in `r` is for category `c`. */
  predicate Lists(r: seq<CategorySummary>, c: AssetCategory) {
    exists i :: 0 <= i < |r| && r[i].category == c
  }

  /** The asset filter of `categorySummaries`; `isLiability == None` means either. */
  predicate Matches(a: Asset, includeInNetWorth: bool, isLiability: Option<bool>) {
    && IsCounted(a) == includeInNetWorth
    && (isLiability.None? || IsDebt(a.category) == isLiability.value)
  }

  function Matching(s: seq<Asset>, includeInNetWorth: bool, isLiability: Option<bool>): (r: seq<Asset>)
    ensures forall a :: a in r <==> a in s && Matches(a, includeInNetWorth, isLiability)
  {
    if s == [] then []
    else
      Matching(s[..|s| - 1], includeInNetWorth, isLiability)
      + (if Matches(s[|s| - 1], includeInNetWorth, isLiability) then [s[|s| - 1]] else [])
  }

  /** Whether summaries carry a percentage: counted, not restricted to liabilities, positive total. */
  predicate HasShare(includeInNetWorth: bool, isLiability: Option<bool>, total: real) {
    includeInNetWorth && isLiability != Some(true) && total > 0.0
  }

  /** A summary's percentage: its value's share of `total` when summaries carry one. */
  function ShareOf(value: real, includeInNetWorth: bool, isLiability: Option<bool>, total: real): Option<real> {
    if HasShare(includeInNetWorth, isLiability, total) then Some(value / total) else None
  }

  /** One entry of `buckets.map`. */
  function Summarize(c: AssetCategory, value: real, includeInNetWorth: bool, isLiability: Option<bool>, total: real): CategorySummary {
    CategorySummary(c, value, ShareOf(value, includeInNetWorth, isLiability, total))
  }

  /** Whether `r` holds exactly one summary per key of `buckets`, each built by `Summarize`. */
  predicate SummarizesBuckets(r: seq<CategorySummary>, buckets: map<AssetCategory, real>,
                              includeInNetWorth: bool, isLiability: Option<bool>, total: real) {
    && Distinct(r)
    && (forall k :: 0 <= k < |r| ==>
          && r[k].category in buckets
          && r[k] == Summarize(r[k].category, buckets[r[k].category], includeInNetWorth, isLiability, total))
    && (forall c :: c in buckets ==> Lists(r, c))
  }

  /** `buckets.map`, visiting the keys in an unspecified order. */
  method SummarizeAll(buckets: map<AssetCategory, real>, includeInNetWorth: bool, isLiability: Option<bool>, total: real)
    returns (summaries: seq<CategorySummary>)
    ensures SummarizesBuckets(summaries, buckets, includeInNetWorth, isLiability, total)
    ensures SumBy(summaries, TotalOf) == MapTotal(buckets)
  {
    summaries := [];
    var remaining := buckets.Keys;
    while remaining != {}
      invariant remaining <= buckets.Keys
      invariant forall k :: 0 <= k < |summaries| ==>
                  && summaries[k].category in buckets && summaries[k].category !in remaining
                  && summaries[k] == Summarize(summaries[k].category, buckets[summaries[k].category], includeInNetWorth, isLiability, total)
      invariant forall c :: c in buckets ==> c in remaining || Lists(summaries, c)
      invariant Distinct(summaries)
      invariant SumBy(summaries, TotalOf) + SumOver(AllCases, buckets, remaining) == MapTotal(buckets)
      decreases |remaining|
    {
      var c :| c in remaining;
      var entry := Summarize(c, buckets[c], includeInNetWorth, isLiability, total);
      assert SumOver(AllCases, buckets, remaining) == SumOver(AllCases, buckets, remaining - {c}) + buckets[c] by {
        AllCasesComplete(c);
        SumOverShift(AllCases, buckets, remaining - {c}, buckets, remaining, c, buckets[c]);
      }
      SumBySnoc(summaries, entry, TotalOf);
      assert (summaries + [entry])[|summaries|] == entry;
      assert forall k :: 0 <= k < |summaries| ==> (summaries + [entry])[k] == summaries[k];
      summaries := summaries + [entry];
      remaining := remaining - {c};
    }
    SumOverNothing(AllCases, buckets);
  }

  /** Reordering keeps every property `SummarizesBuckets` states, and a summary's category picks it out. */
  lemma SummarizesReordered(s: seq<CategorySummary>, r: seq<CategorySummary>, buckets: map<AssetCategory, real>,
                            includeInNetWorth: bool, isLiability: Option<bool>, total: real)
    requires SummarizesBuckets(s, buckets, includeInNetWorth, isLiability, total)
    requires multiset(r) == multiset(s)
    ensures SummarizesBuckets(r, buckets, includeInNetWorth, isLiability, total)
    ensures forall i, j :: 0 <= i < j < |r| ==> r[i].category != r[j].category
  {
    DistinctPermutation(s, r);
    forall k | 0 <= k < |r|
      ensures r[k] in s
    {
      assert r[k] in multiset(r);
    }
    forall c | c in buckets
      ensures Lists(r, c)
    {
      var k :| 0 <= k < |s| && s[k].category == c;
      assert s[k] in multiset(r);
      var j :| 0 <= j < |r| && r[j] == s[k];
    }
  }

  /** `categorySummaries`. */
  method CategorySummaries(assets: seq<Asset>, includeInNetWorth: bool, isLiability: Option<bool>)
    returns (r: seq<CategorySummary>)
    ensures SortedDesc(r, TotalOf)
    ensures forall i, j :: 0 <= i < j < |r| ==> r[i].category != r[j].category
    ensures forall c :: Lists(r, c) <==>
                        (exists a :: a in assets && Matches(a, includeInNetWorth, isLiability) && a.category == c)
    ensures forall i :: 0 <= i < |r| ==>
              r[i].total == SumBy(OfCategory(Matching(assets, includeInNetWorth, isLiability), r[i].category), AssetValue)
    ensures forall i :: 0 <= i < |r| ==>
              r[i].percentage == ShareOf(r[i].total, includeInNetWorth, isLiability, NetWorth(Matching(assets, includeInNetWorth, isLiability)))
    ensures SumBy(r, TotalOf) == SumBy(Matching(assets, includeInNetWorth, isLiability), AssetValue)
  {
    var filtered := Matching(assets, includeInNetWorth, isLiability);
    var total := if includeInNetWorth && isLiability != Some(true) then NetWorth(filtered) else 0.0;
    var buckets := AddUpByCategory(filtered, AssetValue);
    var summaries := SummarizeAll(buckets, includeInNetWorth, isLiability, total);
    CategoryTotalsSum(filtered, AssetValue);
    r := SortDesc(summaries, TotalOf);
    SumByPermutation(r, summaries, TotalOf);
    SummarizesReordered(summaries, r, buckets, includeInNetWorth, isLiability, total);
    SummariesMeaning(assets, includeInNetWorth, isLiability, total, buckets, r);
  }

  /** What a list of summaries of the matching assets' buckets says about those assets. */
  lemma SummariesMeaning(assets: seq<Asset>, includeInNetWorth: bool, isLiability: Option<bool>, total: real,
                         buckets: map<AssetCategory, real>, r: seq<CategorySummary>)
    requires total == if includeInNetWorth && isLiability != Some(true) then NetWorth(Matching(assets, includeInNetWorth, isLiability)) else 0.0
    requires buckets == CategoryTotals(Matching(assets, includeInNetWorth, isLiability), AssetValue)
    requires SummarizesBuckets(r, buckets, includeInNetWorth, isLiability, total)
    ensures forall c :: Lists(r, c) <==>
                        (exists a :: a in assets && Matches(a, includeInNetWorth, isLiability) && a.category == c)
    ensures forall i :: 0 <= i < |r| ==>
              r[i].total == SumBy(OfCategory(Matching(assets, includeInNetWorth, isLiability), r[i].category), AssetValue)
    ensures forall i :: 0 <= i < |r| ==>
              r[i].percentage == ShareOf(r[i].total, includeInNetWorth, isLiability, NetWorth(Matching(assets, includeInNetWorth, isLiability)))
  {
    var filtered := Matching(assets, includeInNetWorth, isLiability);
    var n := NetWorth(filtered);
    assert HasShare(includeInNetWorth, isLiability, total) == HasShare(includeInNetWorth, isLiability, n);
    assert HasShare(includeInNetWorth, isLiability, total) ==> total == n;
    forall c ensures Lists(r, c) <==> (exists a :: a in assets && Matches(a, includeInNetWorth, isLiability) && a.category == c)
    {
      CategoryTotalsKeys(filtered, AssetValue, c);
    }
    forall i | 0 <= i < |r|
      ensures r[i].total == SumBy(OfCategory(filtered, r[i].category), AssetValue)
    {
      CategoryTotalsValue(filtered, AssetValue, r[i].category);
    }
  }

  /**
   * In the wealth view (counted, not liabilities) with a positive total,
   * the percentages add up to 1.
   */
  lemma WealthSharesSumToOne(assets: seq<Asset>, r: seq<CategorySummary>)
    requires NetWorth(Matching(assets, true, Some(false))) > 0.0
    requires forall i :: 0 <= i < |r| ==>
               r[i].percentage == ShareOf(r[i].total, true, Some(false), NetWorth(Matching(assets, true, Some(false))))
    requires SumBy(r, TotalOf) == SumBy(Matching(assets, true, Some(false)), AssetValue)
    ensures SumBy(r, PercentageOf) == 1.0
  {
    var filtered := Matching(assets, true, Some(false));
    var n := NetWorth(filtered);
    NetWorthOfWealth(filtered);
    assert SumBy(r, TotalOf) == n;
    SumByScaled(r, TotalOf, PercentageOf, n);
    DivSelf(n);
  }

  lemma DivSelf(x: real)
    requires x != 0.0
    ensures x / x == 1.0
  {
  }

  // Projection.

  datatype ProjectionPoint = ProjectionPoint(month: int, value: real)

  /** `growthRate(for:settings:)`: the override stored under the raw value, else the category default. */
  function GrowthRate(c: AssetCategory, settings: Settings): real {
    if RawValue(c) in settings.growthRates then settings.growthRates[RawValue(c)] else Definition(c).growthRateDefault
  }

  /** Under the default settings every category grows at its own default rate. */
  lemma GrowthRateUnderDefaults(c: AssetCategory)
    ensures GrowthRate(c, DefaultSettings()) == Definition(c).growthRateDefault
  {
    DefaultRatesAreCategoryDefaults(c);
  }

  function Pow(x: real, n: nat): real {
    if n == 0 then 1.0 else Pow(x, n - 1) * x
  }

  /** One asset's signed value after `month` months of monthly compounding. */
  function ProjectedValue(a: Asset, settings: Settings, month: nat): real {
    Signed(a.category, Compounded(AssetValue(a), MonthlyRate(a.category, settings), month))
  }

  /** `v` after `month` months at the monthly fraction `monthly`. */
  function Compounded(v: real, monthly: real, month: nat): real {
    v * Pow(1.0 + monthly, month)
  }

  /** The annual percentage as a monthly fraction. */
  function MonthlyRate(c: AssetCategory, settings: Settings): real {
    GrowthRate(c, settings) / 12.0 / 100.0
  }

  /** The sum of the projected values of `s` after `month` months. */
  function ProjectedTotal(s: seq<Asset>, settings: Settings, month: nat): real {
    if s == [] then 0.0 else ProjectedTotal(s[..|s| - 1], settings, month) + ProjectedValue(s[|s| - 1], settings, month)
  }

  /** The total over the whole prefix of `s` is the total over `s`. */
  lemma ProjectedTotalWhole(s: seq<Asset>, settings: Settings, month: nat)
    ensures ProjectedTotal(s[..|s|], settings, month) == ProjectedTotal(s, settings, month)
  {
    assert s[..|s|] == s;
  }

  lemma ProjectedTotalStep(s: seq<Asset>, settings: Settings, month: nat, j: nat)
    requires j < |s|
    ensures ProjectedTotal(s[..j + 1], settings, month) == ProjectedTotal(s[..j], settings, month) + ProjectedValue(s[j], settings, month)
  {
    assert s[..j + 1][..j] == s[..j];
  }

  /** At month 0 the projection formula gives net worth. */
  lemma {:induction false} ProjectedTotalAtZero(s: seq<Asset>, settings: Settings)
    ensures ProjectedTotal(s, settings, 0) == SumBy(s, Contribution)
  {
    if s != [] {
      ProjectedTotalAtZero(s[..|s| - 1], settings);
    }
  }

  /** An asset whose category grows at 0 projects to its contribution in every month. */
  lemma FlatValue(a: Asset, settings: Settings, month: nat)
    requires GrowthRate(a.category, settings) == 0.0
    ensures ProjectedValue(a, settings, month) == Contribution(a)
  {
    assert MonthlyRate(a.category, settings) == 0.0;
    NoGrowth(AssetValue(a), month);
  }

  /** At a rate of 0 an amount stays what it is. */
  lemma NoGrowth(v: real, month: nat)
    ensures Compounded(v, 0.0, month) == v
  {
    PowOne(month);
  }

  /** With every rate 0, every month's projection equals net worth. */
  lemma {:induction false} ZeroRatesStayFlat(s: seq<Asset>, settings: Settings, month: nat)
    requires forall a :: a in s ==> GrowthRate(a.category, settings) == 0.0
    ensures ProjectedTotal(s, settings, month) == SumBy(s, Contribution)
  {
    if s != [] {
      var init, last := s[..|s| - 1], s[|s| - 1];
      assert ProjectedValue(last, settings, month) == Contribution(last) by {
        assert last in s;
        FlatValue(last, settings, month);
      }
      assert ProjectedTotal(init, settings, month) == SumBy(init, Contribution) by {
        forall a | a in init
          ensures GrowthRate(a.category, settings) == 0.0
        {
          assert a in s;
        }
        ZeroRatesStayFlat(init, settings, month);
      }
    }
  }

  lemma {:induction false} PowOne(n: nat)
    ensures Pow(1.0, n) == 1.0
  {
    if n > 0 {
      PowOne(n - 1);
    }
  }

  /** Under default settings debts and insurance do not grow: their projection is their contribution. */
  lemma NonGrowingUnderDefaults(a: Asset, month: nat)
    requires IsDebt(a.category) || IsInsurance(a.category)
    ensures ProjectedValue(a, DefaultSettings(), month) == Contribution(a)
  {
    GrowthRateUnderDefaults(a.category);
    assert Definition(a.category).growthRateDefault == 0.0;
    FlatValue(a, DefaultSettings(), month);
  }

  /** `projection`: month 0 is net worth, month m the compounded total of the counted assets. */
  method Projection(assets: seq<Asset>, settings: Settings, months: int) returns (points: seq<ProjectionPoint>)
    requires months >= 1
    ensures |points| == months + 1
    ensures forall i :: 0 <= i < |points| ==> points[i].month == i
    ensures points[0].value == NetWorth(assets)
    ensures forall m :: 1 <= m <= months ==> points[m].value == ProjectedTotal(Counted(assets), settings, m)
  {
    var projected := Counted(assets);
    var current := NetWorth(projected);
    assert Counted(projected) == projected by {
      CountedOfCounted(assets);
    }
    points := [ProjectionPoint(0, current)];
    var month := 1;
    while month <= months
      invariant 1 <= month <= months + 1
      invariant |points| == month
      invariant points[0].value == NetWorth(assets)
      invariant forall i :: 0 <= i < |points| ==> points[i].month == i
      invariant forall m :: 1 <= m < month ==> points[m].value == ProjectedTotal(projected, settings, m)
    {
      var total := MonthTotal(projected, settings, month);
      points := points + [ProjectionPoint(month, total)];
      month := month + 1;
    }
  }

  /** The inner loop of `projection`: the signed compounded values of `s` at `month`, added up in order. */
  method MonthTotal(s: seq<Asset>, settings: Settings, month: nat) returns (total: real)
    ensures total == ProjectedTotal(s, settings, month)
  {
    total := 0.0;
    var j := 0;
    while j < |s|
      invariant 0 <= j <= |s|
      invariant total == ProjectedTotal(s[..j], settings, month)
    {
      ProjectedTotalStep(s, settings, month, j);
      total := total + ProjectedValue(s[j], settings, month);
      j := j + 1;
    }
    ProjectedTotalWhole(s, settings, month);
  }

  lemma {:induction false} CountedOfCounted(s: seq<Asset>)
    ensures Counted(Counted(s)) == Counted(s)
  {
    if s != [] {
      var init := s[..|s| - 1];
      CountedOfCounted(init);
      var tail := if IsCounted(s[|s| - 1]) then [s[|s| - 1]] else [];
      CountedConcat(Counted(init), tail);
      if tail != [] {
        assert [s[|s| - 1]][..0] == [];
      }
    }
  }

  /** `oneYearProjection`: the month-12 point. */
  method OneYearProjection(assets: seq<Asset>, settings: Settings) returns (value: real)
    ensures value == ProjectedTotal(Counted(assets), settings, 12)
  {
    var points := Projection(assets, settings, 12);
    value := points[|points| - 1].value;
  }

  /** Point m of the projection agrees with net worth at m = 0, so month 0 fits the same formula. */
  lemma ProjectionStartsAtNetWorth(assets: seq<Asset>, settings: Settings)
    ensures ProjectedTotal(Counted(assets), settings, 0) == NetWorth(assets)
  {
    ProjectedTotalAtZero(Counted(assets), settings);
  }
}
