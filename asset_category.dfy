/**
 * The closed set of asset and liability kinds of the iOS app.
 *
 * The enum declaration lists fourteen cases; the category definition table,
 * its display ordering and the value resolver use twenty-two. This model
 * declares all twenty-two: the fourteen in their declared order, then the
 * five debt and the three insurance kinds.
 */
module AssetCategories {
  import opened Wrappers

  datatype AssetCategory =
    | Stocks | MutualFunds | Gold | FixedDeposits | PersonalAssets | Bonds
    | Land | Home | Savings | EmergencySavings | Esop | PrivateEquity
    | VpfPpf | Silver
    | HomeLoan | CarLoan | PersonalLoan | CreditCard | OtherDebt
    | LifeInsurance | HealthInsurance | VehicleInsurance

  /** The Swift raw value: the case name, except `vpf_ppf`. */
  function RawValue(c: AssetCategory): string {
    match c
    case Stocks => "stocks"
    case MutualFunds => "mutualFunds"
    case Gold => "gold"
    case FixedDeposits => "fixedDeposits"
    case PersonalAssets => "personalAssets"
    case Bonds => "bonds"
    case Land => "land"
    case Home => "home"
    case Savings => "savings"
    case EmergencySavings => "emergencySavings"
    case Esop => "esop"
    case PrivateEquity => "privateEquity"
    case VpfPpf => "vpf_ppf"
    case Silver => "silver"
    case HomeLoan => "homeLoan"
    case CarLoan => "carLoan"
    case PersonalLoan => "personalLoan"
    case CreditCard => "creditCard"
    case OtherDebt => "otherDebt"
    case LifeInsurance => "lifeInsurance"
    case HealthInsurance => "healthInsurance"
    case VehicleInsurance => "vehicleInsurance"
  }

  /** `AllCases`, in declaration order. */
  const AllCases: seq<AssetCategory> := [
    Stocks, MutualFunds, Gold, FixedDeposits, PersonalAssets, Bonds,
    Land, Home, Savings, EmergencySavings, Esop, PrivateEquity,
    VpfPpf, Silver,
    HomeLoan, CarLoan, PersonalLoan, CreditCard, OtherDebt,
    LifeInsurance, HealthInsurance, VehicleInsurance
  ]

  /** The first case of `cs` whose raw value is `raw`, if any. */
  function FindRaw(raw: string, cs: seq<AssetCategory>): (r: Option<AssetCategory>)
    ensures r.Some? ==> r.value in cs && RawValue(r.value) == raw
    ensures r.None? ==> forall i :: 0 <= i < |cs| ==> RawValue(cs[i]) != raw
  {
    if cs == [] then None
    else if RawValue(cs[0]) == raw then Some(cs[0])
    else FindRaw(raw, cs[1..])
  }

  /** `AssetCategory(rawValue:)`: the case whose raw value is `raw`, if any. */
  function FromRawValue(raw: string): (r: Option<AssetCategory>)
    ensures r.Some? ==> RawValue(r.value) == raw
  {
    FindRaw(raw, AllCases)
  }

  lemma {:induction false} FindRawAt(raw: string, cs: seq<AssetCategory>, i: nat)
    requires i < |cs| && RawValue(cs[i]) == raw
    requires forall j :: 0 <= j < i ==> RawValue(cs[j]) != raw
    ensures FindRaw(raw, cs) == Some(cs[i])
    decreases i
  {
    if i > 0 {
      assert RawValue(cs[0]) != raw;
      FindRawAt(raw, cs[1..], i - 1);
    }
  }

  lemma RawValuesDistinct()
    ensures forall i, j :: 0 <= i < j < |AllCases| ==> RawValue(AllCases[i]) != RawValue(AllCases[j])
  {
  }

  /** Every case's raw value decodes back to that case. */
  lemma FromRawValueOfRawValue(c: AssetCategory)
    ensures FromRawValue(RawValue(c)) == Some(c)
  {
    AllCasesComplete(c);
    RawValuesDistinct();
    var i :| 0 <= i < |AllCases| && AllCases[i] == c;
    FindRawAt(RawValue(c), AllCases, i);
  }

  /** `init(rawValue:)` fails exactly on strings that are no case's raw value. */
  lemma FromRawValueComplete(raw: string)
    ensures FromRawValue(raw).None? <==> forall c: AssetCategory :: RawValue(c) != raw
  {
    if FromRawValue(raw).None? {
      forall c: AssetCategory ensures RawValue(c) != raw {
        AllCasesComplete(c);
      }
    }
  }

  /** Distinct cases have distinct raw values, so a raw value names one case. */
  lemma RawValueInjective(c: AssetCategory, d: AssetCategory)
    ensures RawValue(c) == RawValue(d) ==> c == d
  {
    FromRawValueOfRawValue(c);
    FromRawValueOfRawValue(d);
  }

  /** `AllCases` lists every case exactly once. */
  lemma AllCasesComplete(c: AssetCategory)
    ensures c in AllCases
    ensures |AllCases| == 22
    ensures forall i, j :: 0 <= i < j < |AllCases| ==> AllCases[i] != AllCases[j]
  {
  }
}
