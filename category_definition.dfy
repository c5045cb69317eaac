/**
 * The category registry: one definition per category (display name, field
 * schema, default growth rate and suggested range, and the two flags that
 * drive aggregation), a fixed display ordering, and a total lookup.
 */
module CategoryDefinitions {
  import opened Wrappers
  import opened AssetCategories
  import opened FieldValues
  import opened FieldDefinitions

  /** A closed range `lower...upper` of annual growth-rate percentages. */
  datatype GrowthRange = GrowthRange(lower: real, upper: real)

  /** Field order of the Swift initialiser, with its two flag defaults. */
  datatype AssetCategoryDefinition = AssetCategoryDefinition(
    category: AssetCategory,
    name: string,
    fields: seq<AssetFieldDefinition>,
    growthRateDefault: real,
    growthRateRange: Option<GrowthRange>,
    includesInNetWorth: bool := true,
    isLiability: bool := false)

  /** The display ordering, distinct from declaration order. */
  const Ordered: seq<AssetCategory> := [
    Stocks, MutualFunds, Gold, Silver, FixedDeposits, Bonds, Land, Home,
    Savings, EmergencySavings, Esop, PrivateEquity, VpfPpf, PersonalAssets,
    HomeLoan, CarLoan, PersonalLoan, CreditCard, OtherDebt,
    LifeInsurance, HealthInsurance, VehicleInsurance
  ]

  /** The kinds of belongings, each with a suggested value. */
  const PersonalAssetOptions: seq<AssetFieldOption> := [
    AssetFieldOption("bike", Some(100000.0)),
    AssetFieldOption("car", Some(800000.0)),
    AssetFieldOption("cycle", Some(10000.0)),
    AssetFieldOption("phone", Some(80000.0)),
    AssetFieldOption("laptop", Some(90000.0)),
    AssetFieldOption("pc", Some(100000.0)),
    AssetFieldOption("watch", Some(30000.0)),
    AssetFieldOption("console", Some(50000.0)),
    AssetFieldOption("shoes", Some(15000.0)),
    AssetFieldOption("watch_luxury", Some(100000.0)),
    AssetFieldOption("other", Some(10000.0))
  ]

  /** `options.first?.value ?? fallback`. */
  function FirstOptionValueOr(options: seq<AssetFieldOption>, fallback: string): (v: string)
    ensures options != [] ==> v == options[0].value
    ensures options == [] ==> v == fallback
  {
    if options == [] then fallback else options[0].value
  }

  /**
   * What every table entry satisfies: it describes its own key, its field
   * ids are distinct, and a suggested range contains the default rate.
   */
  predicate WellFormed(c: AssetCategory, d: AssetCategoryDefinition) {
    && d.category == c
    && UniqueIds(d.fields)
    && (d.growthRateRange.Some? ==>
          d.growthRateRange.value.lower <= d.growthRateDefault <= d.growthRateRange.value.upper)
  }

  function StocksDefinition(): (d: AssetCategoryDefinition)
    ensures WellFormed(Stocks, d) && d.growthRateDefault == 17.5
  {
    AssetCategoryDefinition(
      category := Stocks,
      name := "Stock Investments",
      fields := [
        AssetFieldDefinition(
          id := "stockValue", kind := SliderKind,
          min := Some(0.0), max := Some(10000000.0), step := Some(1000.0), defaultValue := Fixed(Number(0.0)), format := Currency)
      ],
      growthRateDefault := 17.5,
      growthRateRange := Some(GrowthRange(15.0, 20.0)),
      includesInNetWorth := true)
  }

  function MutualFundsDefinition(): (d: AssetCategoryDefinition)
    ensures WellFormed(MutualFunds, d) && d.growthRateDefault == 11.5
  {
    AssetCategoryDefinition(
      category := MutualFunds,
      name := "Mutual Fund Investments",
      fields := [
        AssetFieldDefinition(
          id := "fundValue", kind := SliderKind,
          min := Some(0.0), max := Some(10000000.0), step := Some(1000.0), defaultValue := Fixed(Number(0.0)), format := Currency)
      ],
      growthRateDefault := 11.5,
      growthRateRange := Some(GrowthRange(10.0, 13.0)),
      includesInNetWorth := true)
  }

  function GoldDefinition(): (d: AssetCategoryDefinition)
    ensures WellFormed(Gold, d) && d.growthRateDefault == 9.5
  {
    AssetCategoryDefinition(
      category := Gold,
      name := "Gold",
      fields := [
        AssetFieldDefinition(
          id := "goldQuantity", kind := NumberKind,
          min := Some(0.0), step := Some(0.1), defaultValue := Fixed(Number(0.0))),
        AssetFieldDefinition(
          id := "goldRate", kind := NumberKind,
          min := Some(0.0), step := Some(100.0), defaultValue := Fixed(Number(5000.0)))
      ],
      growthRateDefault := 9.5,
      growthRateRange := Some(GrowthRange(9.0, 10.0)),
      includesInNetWorth := true)
  }

  function SilverDefinition(): (d: AssetCategoryDefinition)
    ensures WellFormed(Silver, d) && d.growthRateDefault == 9.5
  {
    AssetCategoryDefinition(
      category := Silver,
      name := "Silver",
      fields := [
        AssetFieldDefinition(
          id := "silverGrams", kind := NumberKind,
          min := Some(0.0), step := Some(1.0), defaultValue := Fixed(Number(0.0))),
        AssetFieldDefinition(
          id := "silverRate", kind := NumberKind,
          min := Some(0.0), step := Some(1.0), defaultValue := Fixed(Number(85.0)))
      ],
      growthRateDefault := 9.5,
      growthRateRange := Some(GrowthRange(9.0, 10.0)),
      includesInNetWorth := true)
  }

  function FixedDepositsDefinition(): (d: AssetCategoryDefinition)
    ensures WellFormed(FixedDeposits, d) && d.growthRateDefault == 7.0
  {
    AssetCategoryDefinition(
      category := FixedDeposits,
      name := "Fixed Deposits",
      fields := [
        AssetFieldDefinition(
          id := "principalAmount", kind := SliderKind,
          min := Some(0.0), max := Some(5000000.0), step := Some(1000.0), defaultValue := Fixed(Number(0.0)), format := Currency),
        AssetFieldDefinition(
          id := "interestRate", kind := NumberKind,
          min := Some(0.0), max := Some(12.0), step := Some(0.1), defaultValue := Fixed(Number(7.0))),
        AssetFieldDefinition(
          id := "maturityDate", kind := DateKind,
          defaultValue := TableBuiltAt)
      ],
      growthRateDefault := 7.0,
      growthRateRange := None,
      includesInNetWorth := true)
  }

  function PersonalAssetsDefinition(): (d: AssetCategoryDefinition)
    ensures WellFormed(PersonalAssets, d) && d.growthRateDefault == -7.5
  {
    AssetCategoryDefinition(
      category := PersonalAssets,
      name := "My Belongings",
      fields := [
        AssetFieldDefinition(
          id := "assetType", kind := SelectKind,
          defaultValue := Fixed(Text(FirstOptionValueOr(PersonalAssetOptions, "other"))), options := PersonalAssetOptions),
        AssetFieldDefinition(
          id := "assetName", kind := TextKind,
          defaultValue := Fixed(Text(""))),
        AssetFieldDefinition(
          id := "quantity", kind := NumberKind,
          min := Some(1.0), step := Some(1.0), defaultValue := Fixed(Number(1.0))),
        AssetFieldDefinition(
          id := "assetValue", kind := SliderKind,
          min := Some(0.0), max := Some(2000000.0), step := Some(1000.0), defaultValue := Fixed(Number(0.0)), format := Currency)
      ],
      growthRateDefault := -7.5,
      growthRateRange := Some(GrowthRange(-10.0, -5.0)),
      includesInNetWorth := true)
  }

  function BondsDefinition(): (d: AssetCategoryDefinition)
    ensures WellFormed(Bonds, d) && d.growthRateDefault == 8.0
  {
    AssetCategoryDefinition(
      category := Bonds,
      name := "Bonds",
      fields := [
        AssetFieldDefinition(
          id := "bondValue", kind := SliderKind,
          min := Some(0.0), max := Some(5000000.0), step := Some(1000.0), defaultValue := Fixed(Number(0.0)), format := Currency)
      ],
      growthRateDefault := 8.0,
      growthRateRange := None,
      includesInNetWorth := true)
  }

  function LandDefinition(): (d: AssetCategoryDefinition)
    ensures WellFormed(Land, d) && d.growthRateDefault == 9.0
  {
    AssetCategoryDefinition(
      category := Land,
      name := "Land",
      fields := [
        AssetFieldDefinition(
          id := "landValue", kind := SliderKind,
          min := Some(100000.0), max := Some(50000000.0), step := Some(100000.0), defaultValue := Fixed(Number(1000000.0)), format := Currency)
      ],
      growthRateDefault := 9.0,
      growthRateRange := None,
      includesInNetWorth := true)
  }

  function HomeDefinition(): (d: AssetCategoryDefinition)
    ensures WellFormed(Home, d) && d.growthRateDefault == 9.0
  {
    AssetCategoryDefinition(
      category := Home,
      name := "Home (Real Estate)",
      fields := [
        AssetFieldDefinition(
          id := "homeValue", kind := SliderKind,
          min := Some(500000.0), max := Some(50000000.0), step := Some(100000.0), defaultValue := Fixed(Number(5000000.0)), format := Currency)
      ],
      growthRateDefault := 9.0,
      growthRateRange := None,
      includesInNetWorth := true)
  }

  function SavingsDefinition(): (d: AssetCategoryDefinition)
    ensures WellFormed(Savings, d) && d.growthRateDefault == 4.0
  {
    AssetCategoryDefinition(
      category := Savings,
      name := "Savings",
      fields := [
        AssetFieldDefinition(
          id := "savingsBalance", kind := SliderKind,
          min := Some(0.0), max := Some(5000000.0), step := Some(1000.0), defaultValue := Fixed(Number(0.0)), format := Currency)
      ],
      growthRateDefault := 4.0,
      growthRateRange := None,
      includesInNetWorth := true)
  }

  function EmergencySavingsDefinition(): (d: AssetCategoryDefinition)
    ensures WellFormed(EmergencySavings, d) && d.growthRateDefault == 4.0
  {
    AssetCategoryDefinition(
      category := EmergencySavings,
      name := "Emergency Savings",
      fields := [
        AssetFieldDefinition(
          id := "emergencyBalance", kind := SliderKind,
          min := Some(0.0), max := Some(1000000.0), step := Some(1000.0), defaultValue := Fixed(Number(0.0)), format := Currency)
      ],
      growthRateDefault := 4.0,
      growthRateRange := None,
      includesInNetWorth := true)
  }

  function EsopDefinition(): (d: AssetCategoryDefinition)
    ensures WellFormed(Esop, d) && d.growthRateDefault == 15.0
  {
    AssetCategoryDefinition(
      category := Esop,
      name := "ESOP",
      fields := [
        AssetFieldDefinition(
          id := "esopCurrentValue", kind := NumberKind,
          min := Some(0.0), step := Some(1.0), defaultValue := Fixed(Number(1.0))),
        AssetFieldDefinition(
          id := "esopShares", kind := NumberKind,
          min := Some(0.0), step := Some(1.0), defaultValue := Fixed(Number(0.0)))
      ],
      growthRateDefault := 15.0,
      growthRateRange := None,
      includesInNetWorth := true)
  }

  function PrivateEquityDefinition(): (d: AssetCategoryDefinition)
    ensures WellFormed(PrivateEquity, d) && d.growthRateDefault == 20.0
  {
    AssetCategoryDefinition(
      category := PrivateEquity,
      name := "Private Equity",
      fields := [
        AssetFieldDefinition(
          id := "peValue", kind := SliderKind,
          min := Some(0.0), max := Some(50000000.0), step := Some(10000.0), defaultValue := Fixed(Number(100000.0)), format := Currency),
        AssetFieldDefinition(
          id := "peUnits", kind := NumberKind,
          min := Some(0.0), step := Some(1.0), defaultValue := Fixed(Number(1.0)))
      ],
      growthRateDefault := 20.0,
      growthRateRange := None,
      includesInNetWorth := true)
  }

  function VpfPpfDefinition(): (d: AssetCategoryDefinition)
    ensures WellFormed(VpfPpf, d) && d.growthRateDefault == 8.5
  {
    AssetCategoryDefinition(
      category := VpfPpf,
      name := "VPF/PPF",
      fields := [
        AssetFieldDefinition(
          id := "vpfAmount", kind := SliderKind,
          min := Some(0.0), max := Some(10000000.0), step := Some(1000.0), defaultValue := Fixed(Number(0.0)), format := Currency)
      ],
      growthRateDefault := 8.5,
      growthRateRange := None,
      includesInNetWorth := true)
  }

  function HomeLoanDefinition(): (d: AssetCategoryDefinition)
    ensures WellFormed(HomeLoan, d)
  {
    AssetCategoryDefinition(
      category := HomeLoan,
      name := "Home Loan",
      fields := [
        AssetFieldDefinition(
          id := "debtBalance", kind := SliderKind,
          min := Some(0.0), max := Some(100000000.0), step := Some(100000.0), defaultValue := Fixed(Number(0.0)), format := Currency),
        AssetFieldDefinition(
          id := "interestRate", kind := NumberKind,
          min := Some(0.0), max := Some(20.0), step := Some(0.1), defaultValue := Fixed(Number(8.0))),
        AssetFieldDefinition(
          id := "lender", kind := TextKind,
          defaultValue := Fixed(Text(""))),
        AssetFieldDefinition(
          id := "nextPaymentDate", kind := DateKind,
          defaultValue := TableBuiltAt)
      ],
      growthRateDefault := 0.0,
      growthRateRange := None,
      includesInNetWorth := true,
      isLiability := true)
  }

  function CarLoanDefinition(): (d: AssetCategoryDefinition)
    ensures WellFormed(CarLoan, d)
  {
    AssetCategoryDefinition(
      category := CarLoan,
      name := "Car Loan",
      fields := [
        AssetFieldDefinition(
          id := "debtBalance", kind := SliderKind,
          min := Some(0.0), max := Some(10000000.0), step := Some(50000.0), defaultValue := Fixed(Number(0.0)), format := Currency),
        AssetFieldDefinition(
          id := "interestRate", kind := NumberKind,
          min := Some(0.0), max := Some(20.0), step := Some(0.1), defaultValue := Fixed(Number(9.0))),
        AssetFieldDefinition(
          id := "lender", kind := TextKind,
          defaultValue := Fixed(Text(""))),
        AssetFieldDefinition(
          id := "nextPaymentDate", kind := DateKind,
          defaultValue := TableBuiltAt)
      ],
      growthRateDefault := 0.0,
      growthRateRange := None,
      includesInNetWorth := true,
      isLiability := true)
  }

  function PersonalLoanDefinition(): (d: AssetCategoryDefinition)
    ensures WellFormed(PersonalLoan, d)
  {
    AssetCategoryDefinition(
      category := PersonalLoan,
      name := "Personal Loan",
      fields := [
        AssetFieldDefinition(
          id := "debtBalance", kind := SliderKind,
          min := Some(0.0), max := Some(10000000.0), step := Some(50000.0), defaultValue := Fixed(Number(0.0)), format := Currency),
        AssetFieldDefinition(
          id := "interestRate", kind := NumberKind,
          min := Some(0.0), max := Some(30.0), step := Some(0.1), defaultValue := Fixed(Number(12.0))),
        AssetFieldDefinition(
          id := "lender", kind := TextKind,
          defaultValue := Fixed(Text(""))),
        AssetFieldDefinition(
          id := "nextPaymentDate", kind := DateKind,
          defaultValue := TableBuiltAt)
      ],
      growthRateDefault := 0.0,
      growthRateRange := None,
      includesInNetWorth := true,
      isLiability := true)
  }

  function CreditCardDefinition(): (d: AssetCategoryDefinition)
    ensures WellFormed(CreditCard, d)
  {
    AssetCategoryDefinition(
      category := CreditCard,
      name := "Credit Card",
      fields := [
        AssetFieldDefinition(
          id := "debtBalance", kind := SliderKind,
          min := Some(0.0), max := Some(2000000.0), step := Some(10000.0), defaultValue := Fixed(Number(0.0)), format := Currency),
        AssetFieldDefinition(
          id := "interestRate", kind := NumberKind,
          min := Some(0.0), max := Some(50.0), step := Some(0.1), defaultValue := Fixed(Number(30.0))),
        AssetFieldDefinition(
          id := "issuer", kind := TextKind,
          defaultValue := Fixed(Text(""))),
        AssetFieldDefinition(
          id := "paymentDueDate", kind := DateKind,
          defaultValue := TableBuiltAt)
      ],
      growthRateDefault := 0.0,
      growthRateRange := None,
      includesInNetWorth := true,
      isLiability := true)
  }

  function OtherDebtDefinition(): (d: AssetCategoryDefinition)
    ensures WellFormed(OtherDebt, d)
  {
    AssetCategoryDefinition(
      category := OtherDebt,
      name := "Other Debt",
      fields := [
        AssetFieldDefinition(
          id := "debtBalance", kind := SliderKind,
          min := Some(0.0), max := Some(5000000.0), step := Some(25000.0), defaultValue := Fixed(Number(0.0)), format := Currency),
        AssetFieldDefinition(
          id := "interestRate", kind := NumberKind,
          min := Some(0.0), max := Some(40.0), step := Some(0.1), defaultValue := Fixed(Number(0.0))),
        AssetFieldDefinition(
          id := "notes", kind := TextKind,
          defaultValue := Fixed(Text("")))
      ],
      growthRateDefault := 0.0,
      growthRateRange := None,
      includesInNetWorth := true,
      isLiability := true)
  }

  function LifeInsuranceDefinition(): (d: AssetCategoryDefinition)
    ensures WellFormed(LifeInsurance, d)
  {
    AssetCategoryDefinition(
      category := LifeInsurance,
      name := "Life Insurance",
      fields := [
        AssetFieldDefinition(
          id := "coverageAmount", kind := SliderKind,
          min := Some(0.0), max := Some(50000000.0), step := Some(50000.0), defaultValue := Fixed(Number(0.0)), format := Currency),
        AssetFieldDefinition(
          id := "annualPremium", kind := NumberKind,
          min := Some(0.0), step := Some(500.0), defaultValue := Fixed(Number(0.0))),
        AssetFieldDefinition(
          id := "provider", kind := TextKind,
          defaultValue := Fixed(Text(""))),
        AssetFieldDefinition(
          id := "renewalDate", kind := DateKind,
          defaultValue := TableBuiltAt)
      ],
      growthRateDefault := 0.0,
      growthRateRange := None,
      includesInNetWorth := false,
      isLiability := false)
  }

  function HealthInsuranceDefinition(): (d: AssetCategoryDefinition)
    ensures WellFormed(HealthInsurance, d)
  {
    AssetCategoryDefinition(
      category := HealthInsurance,
      name := "Health Insurance",
      fields := [
        AssetFieldDefinition(
          id := "coverageAmount", kind := SliderKind,
          min := Some(0.0), max := Some(10000000.0), step := Some(50000.0), defaultValue := Fixed(Number(0.0)), format := Currency),
        AssetFieldDefinition(
          id := "annualPremium", kind := NumberKind,
          min := Some(0.0), step := Some(500.0), defaultValue := Fixed(Number(0.0))),
        AssetFieldDefinition(
          id := "provider", kind := TextKind,
          defaultValue := Fixed(Text(""))),
        AssetFieldDefinition(
          id := "renewalDate", kind := DateKind,
          defaultValue := TableBuiltAt)
      ],
      growthRateDefault := 0.0,
      growthRateRange := None,
      includesInNetWorth := false,
      isLiability := false)
  }

  function VehicleInsuranceDefinition(): (d: AssetCategoryDefinition)
    ensures WellFormed(VehicleInsurance, d)
  {
    AssetCategoryDefinition(
      category := VehicleInsurance,
      name := "Vehicle Insurance",
      fields := [
        AssetFieldDefinition(
          id := "coverageAmount", kind := SliderKind,
          min := Some(0.0), max := Some(5000000.0), step := Some(25000.0), defaultValue := Fixed(Number(0.0)), format := Currency),
        AssetFieldDefinition(
          id := "annualPremium", kind := NumberKind,
          min := Some(0.0), step := Some(500.0), defaultValue := Fixed(Number(0.0))),
        AssetFieldDefinition(
          id := "provider", kind := TextKind,
          defaultValue := Fixed(Text(""))),
        AssetFieldDefinition(
          id := "renewalDate", kind := DateKind,
          defaultValue := TableBuiltAt)
      ],
      growthRateDefault := 0.0,
      growthRateRange := None,
      includesInNetWorth := false,
      isLiability := false)
  }

  /**
   * `definition(for:)` over the `all` table. The table has an entry for
   * every category, so the lookup is total and its stocks fallback is never
   * taken; the table is written out as one case per key, grouped into the
   * wealth, debt and insurance entries. Exactly the debts are liabilities,
   * exactly the insurance policies stay out of net worth, and neither group
   * grows.
   */
  function Definition(c: AssetCategory): (d: AssetCategoryDefinition)
    ensures d.category == c
    ensures d.isLiability == IsDebt(c)
    ensures d.includesInNetWorth == !IsInsurance(c)
    ensures d.growthRateDefault == DefaultGrowthRate(c)
    ensures IsDebt(c) || IsInsurance(c) ==> d.growthRateDefault == 0.0
  {
    if IsDebt(c) then DebtDefinition(c)
    else if IsInsurance(c) then InsuranceDefinition(c)
    else WealthDefinition(c)
  }

  /** The five debt entries: liabilities that count in net worth and do not grow. */
  function DebtDefinition(c: AssetCategory): (d: AssetCategoryDefinition)
    requires IsDebt(c)
    ensures WellFormed(c, d) && d.isLiability && d.includesInNetWorth && d.growthRateDefault == 0.0
  {
    match c
    case HomeLoan => HomeLoanDefinition()
    case CarLoan => CarLoanDefinition()
    case PersonalLoan => PersonalLoanDefinition()
    case CreditCard => CreditCardDefinition()
    case _ => OtherDebtDefinition()
  }

  /** The three insurance entries: outside net worth, not liabilities, and not growing. */
  function InsuranceDefinition(c: AssetCategory): (d: AssetCategoryDefinition)
    requires IsInsurance(c)
    ensures WellFormed(c, d) && !d.isLiability && !d.includesInNetWorth && d.growthRateDefault == 0.0
  {
    match c
    case LifeInsurance => LifeInsuranceDefinition()
    case HealthInsurance => HealthInsuranceDefinition()
    case _ => VehicleInsuranceDefinition()
  }

  /** The fourteen wealth entries: counted in net worth and not liabilities. */
  function WealthDefinition(c: AssetCategory): (d: AssetCategoryDefinition)
    requires !IsDebt(c) && !IsInsurance(c)
    ensures WellFormed(c, d) && !d.isLiability && d.includesInNetWorth
    ensures d.growthRateDefault == DefaultGrowthRate(c)
  {
    match c
    case Stocks => StocksDefinition()
    case MutualFunds => MutualFundsDefinition()
    case Gold => GoldDefinition()
    case Silver => SilverDefinition()
    case FixedDeposits => FixedDepositsDefinition()
    case PersonalAssets => PersonalAssetsDefinition()
    case Bonds => BondsDefinition()
    case Land => LandDefinition()
    case Home => HomeDefinition()
    case Savings => SavingsDefinition()
    case EmergencySavings => EmergencySavingsDefinition()
    case Esop => EsopDefinition()
    case PrivateEquity => PrivateEquityDefinition()
    case _ => VpfPpfDefinition()
  }

  /** The default annual growth rate of each category, in percent; debts and insurance do not grow. */
  function DefaultGrowthRate(c: AssetCategory): real {
    match c
    case Stocks => 17.5
    case MutualFunds => 11.5
    case Gold => 9.5
    case FixedDeposits => 7.0
    case PersonalAssets => -7.5
    case Bonds => 8.0
    case Land => 9.0
    case Home => 9.0
    case Savings => 4.0
    case EmergencySavings => 4.0
    case Esop => 15.0
    case PrivateEquity => 20.0
    case VpfPpf => 8.5
    case Silver => 9.5
    case _ => 0.0
  }

  predicate IsDebt(c: AssetCategory) {
    c == HomeLoan || c == CarLoan || c == PersonalLoan || c == CreditCard || c == OtherDebt
  }

  predicate IsInsurance(c: AssetCategory) {
    c == LifeInsurance || c == HealthInsurance || c == VehicleInsurance
  }

  /** Every entry of the table is well formed. */
  lemma DefinitionWellFormed(c: AssetCategory)
    ensures WellFormed(c, Definition(c))
  {
  }

  /** The display ordering lists the 22 categories, each once. */
  lemma OrderedIsComplete(c: AssetCategory)
    ensures |Ordered| == 22
    ensures forall i, j :: 0 <= i < j < |Ordered| ==> Ordered[i] != Ordered[j]
    ensures c in Ordered
  {
  }

  /** A definition built without the two flags counts in net worth and is not a liability. */
  lemma InitFlagDefaults(c: AssetCategory, name: string,
                         fields: seq<AssetFieldDefinition>, rate: real, range: Option<GrowthRange>)
    ensures AssetCategoryDefinition(c, name, fields, rate, range).includesInNetWorth
    ensures !AssetCategoryDefinition(c, name, fields, rate, range).isLiability
  {
  }
}
