# NetWorth: a verified model of the calculation and record-keeping logic

NetWorth is a personal net-worth tracker. It comes as two separate apps:

- **The iOS app (Swift).** It keeps a list of assets, each of one of 22 categories: wealth, debts and insurance. It also keeps a category registry and app settings.
  - Each asset's value is computed from its tagged field map, using one formula per category.
  - These values are summed into net worth: debts are subtracted and insurance is left out.
  - It builds per-category summaries and a twelve-month compound-growth projection.
  - It also has:
    - an asset store with upsert, delete and newest-wins merge;
    - an app-lock state machine with a grace period;
    - a CSV export and import with a quote-aware line codec;
    - a few figures the home screen derives.
- **The older web app (JavaScript).** It has 14 categories, no liabilities and its own `||` fallbacks. It has a registry object, a calculations service (value, net worth, projection, breakdown) and a storage service over the browser's local storage (save, delete, merge, default rates, CSV row checks).

The two apps have different semantics, so they are modelled separately.

- Swift modules: `Assets`, `FieldValues`, `AssetCategories`, `FieldDefinitions`, `CategoryDefinitions`, `SettingsModel`, `NumberParsing`, `Calculations`, `Drafts`, `AssetStores`, `AppLock`, `CsvCodec`, `CsvService`, `HomeScreen`.
- JavaScript modules: `JsCategories`, `JsAssets`, `JsCalculations`, `JsStorage`.
- Shared modules: `Wrappers` (Option and Result) and `Sequences` (a stable descending insertion sort, sums, and order-preserving filtering).

How the model is built:

- Amounts are `real`. Swift `Double` and JavaScript numbers are taken as exact.
- Dates are `real` seconds on a fixed time line.
- `pow(1 + r, m)` is a recursive power over `nat`.
- The pure parts of the source are functions, and each property is a lemma about them.
- Code that changes state in the source is imperative here:
  - a loop becomes a `method` with a `while` loop, proved against the function that specifies it;
  - a store becomes a `class` whose methods state the whole new state.
- These things enter as parameters:
  - the current instant;
  - fresh ids (`UUID()`, `generateId()`);
  - the outcome of the device-owner authentication prompt;
  - JSON encoding and parsing;
  - ISO-8601 formatting and parsing;
  - the text form of a number;
  - the category's icon and colour strings.

## Model

| member | source | states |
|---|---|---|
| Assets.NumberValue | ios/NetWorthIOS/Models/Asset.swift:13-21 | `numberValue(key)`: a stored number, or stored text as `Double(text)`, else 0. `Assets.NumberValueCases` states all cases, `Assets.NumberValueOfDigitText` the digit texts, and `Assets.NumberValueAfterStore` the effect of a store. |
| Assets.TextValue | ios/NetWorthIOS/Models/Asset.swift:23-31 | `textValue(key)`: stored text, or a number's string form, else nil. `Assets.TextValueCases` states all cases. |
| Assets.DateValue | ios/NetWorthIOS/Models/Asset.swift:33-38 | `dateValue(key)`: a stored date, else nil. `Assets.DateValueCases` states all cases. |
| Assets.NumberValueCases | ios/NetWorthIOS/Models/Asset.swift:13-21 | `numberValue` returns a stored number as is and text that parses as its parsed number. A missing key, a date or unparsable text reads as 0; it never fails. |
| Assets.NumberValueOfDigitText | ios/NetWorthIOS/Models/Asset.swift:17-19 | Text made of decimal digits reads as the number those digits spell. |
| Assets.NumberValueAfterStore | ios/NetWorthIOS/Models/Asset.swift:13-16 | After a number is stored under a key, `numberValue` of that key is the number, and every other key reads as before. |
| Assets.TextValueCases | ios/NetWorthIOS/Models/Asset.swift:23-31 | `textValue` is nil exactly for a missing key or a date. Text comes back unchanged; a number comes back as its string form. |
| Assets.DateValueCases | ios/NetWorthIOS/Models/Asset.swift:33-38 | `dateValue` is present exactly when a date is stored under the key, and it is then that date. |
| NumberParsing.ParseNumber | ios/NetWorthIOS/Models/Asset.swift:17 | `Double(text)` on a decimal literal. Empty text is no number. `NumberParsing.ParseLiteral` gives the value of every literal, `NumberParsing.ParseFraction` with `NumberParsing.FractionLiteral`, and `NumberParsing.ParseScientific`, that of fractions and exponents, and `NumberParsing.ParseRejectsLeadingJunk` rejects text that cannot start a literal. |
| NumberParsing.ParseLiteral | ios/NetWorthIOS/Models/Asset.swift:17 | Every decimal literal parses to its value: an optional sign, integer digits, an optional point with digits and an optional exponent, with a digit somewhere before the exponent. The value is the sign times the mantissa times ten to the exponent. |
| NumberParsing.CutsOfParts | ios/NetWorthIOS/Models/Asset.swift:17 | A text built from a sign, integer digits, a fraction and an exponent is cut by the parser exactly at those parts. |
| NumberParsing.FractionDigits | ios/NetWorthIOS/Models/Asset.swift:17 | The digits after a point add their integer value divided by ten to the power of their count. |
| NumberParsing.FractionLiteral | ios/NetWorthIOS/Models/Asset.swift:17 | A literal made of integer digits and a fraction, without sign or exponent, is worth the integer digits plus the fraction digits divided by ten to the power of their count. |
| NumberParsing.ParseFraction | ios/NetWorthIOS/Models/Asset.swift:17 | `Double("12.5")` and the like: digits, a point and digits, with at least one digit, parse to the literal with those parts. `NumberParsing.FractionLiteral` gives its value: the integer digits plus the fraction digits divided by ten to the power of their count. |
| NumberParsing.ParseScientific | ios/NetWorthIOS/Models/Asset.swift:17 | `Double("25e3")` and the like: the digits before the `e` times ten to the power the digits after it spell. |
| NumberParsing.LiteralValue | ios/NetWorthIOS/Models/Asset.swift:17 | The value of a literal from its parts: sign, mantissa and power of ten. `NumberParsing.ParseLiteral` shows the parser computes it for every literal. |
| NumberParsing.DigitsValue | ios/NetWorthIOS/Models/Asset.swift:17 | The number a run of decimal digits spells, read left to right. `NumberParsing.ParseDigits` and `Assets.NumberValueOfDigitText` show digit text reads as it. |
| NumberParsing.Scale | ios/NetWorthIOS/Models/Asset.swift:17 | A number times ten to an integer power. `NumberParsing.FractionDigits` and `NumberParsing.ParseScientific` use it to state fractions and exponents. |
| NumberParsing.ParseWholeDigits | ios/NetWorthIOS/Models/Asset.swift:17 | An optional sign followed by digits parses to that sign times the value of the digits. |
| NumberParsing.ParseDigits | ios/NetWorthIOS/Models/Asset.swift:17 | A non-empty run of digits parses to the number it spells. |
| NumberParsing.ParseNegative | ios/NetWorthIOS/Models/Asset.swift:17 | A minus sign before digits negates their value. |
| NumberParsing.ParseRejectsLeadingJunk | ios/NetWorthIOS/Models/Asset.swift:17 | Text whose first character cannot start a literal has no number, so `numberValue` reads it as 0. |
| FieldValues.Tag | ios/NetWorthIOS/Models/FieldValue.swift:18-24 | The tag under `type` for each variant: "number", "text" or "date". `FieldValues.Encode` writes it and `FieldValues.DecodeEncode` shows decoding reads it back. |
| FieldValues.PayloadKey | ios/NetWorthIOS/Models/FieldValue.swift:8-13 | The coding key carrying each variant's payload. `FieldValues.Encode` writes the payload there and `FieldValues.DecodeMissingPayload` shows a missing one throws for that key. |
| FieldValues.Encode | ios/NetWorthIOS/Models/FieldValue.swift:30-43 | The container holds exactly two keys: `type`, carrying the variant's tag ("number", "text" or "date"), and the key of the same name carrying the payload. |
| FieldValues.Decode | ios/NetWorthIOS/Models/FieldValue.swift:15-28 | Without a `type` key decoding throws key-not-found for `type`. |
| FieldValues.DecodeEncode | ios/NetWorthIOS/Models/FieldValue.swift:15-43 | Decoding the encoding of any value gives the value back, for all three variants. |
| FieldValues.DecodeUnknownTag | ios/NetWorthIOS/Models/FieldValue.swift:25-26 | An unknown tag decodes to empty text instead of failing, whatever else the container holds. |
| FieldValues.DecodeReadsOnlyTaggedKey | ios/NetWorthIOS/Models/FieldValue.swift:18-24 | Two containers with the same tag, and the same entry under that tag's payload key, decode alike: no other key is read. |
| FieldValues.DecodeMissingPayload | ios/NetWorthIOS/Models/FieldValue.swift:19-24 | A known tag whose payload key is missing throws key-not-found for that key. |
| AssetCategories.RawValue | ios/NetWorthIOS/Models/AssetCategory.swift:3-17 | The raw value of each case: its name, except `vpf_ppf`. `AssetCategories.RawValuesDistinct` and `AssetCategories.RawValueInjective` show no two cases share one, and `AssetCategories.FromRawValueOfRawValue` shows it decodes back. |
| AssetCategories.FromRawValue | ios/NetWorthIOS/Models/AssetCategory.swift:3-17 | `init(rawValue:)`: a case it finds has exactly that raw value. |
| AssetCategories.RawValuesDistinct | ios/NetWorthIOS/Models/AssetCategory.swift:4-17 | No two of the 22 cases share a raw value. |
| AssetCategories.FromRawValueOfRawValue | ios/NetWorthIOS/Models/AssetCategory.swift:3-17 | Every case's raw value decodes back to that case. |
| AssetCategories.FromRawValueComplete | ios/NetWorthIOS/Models/AssetCategory.swift:3-17 | `init(rawValue:)` fails exactly for strings that are no case's raw value. |
| AssetCategories.RawValueInjective | ios/NetWorthIOS/Models/AssetCategory.swift:4-17 | Equal raw values mean equal cases. |
| AssetCategories.AllCasesComplete | ios/NetWorthIOS/Models/AssetCategory.swift:3 | `allCases` lists every one of the 22 cases, each once. |
| FieldDefinitions.ResolveDefault | ios/NetWorthIOS/Models/AssetCategoryDefinition.swift:204 | A `.date(.now)` default stands for the instant the table was built; every other default is its fixed value. |
| FieldDefinitions.Ids | ios/NetWorthIOS/Models/AssetFieldDefinition.swift:24 | The field ids of a list, one per field, in order. |
| FieldDefinitions.FirstFieldWithId | ios/NetWorthIOS/Models/AssetDraft.swift:59 | `first(where:)` on fields gives the first field of the list with that id: no earlier field has it. It is nil exactly when no field has the id. |
| FieldDefinitions.FirstOptionWithValue | ios/NetWorthIOS/Models/AssetDraft.swift:59 | `first(where:)` on options gives the first option with that value: no earlier option has it. It is nil exactly when no option has it. |
| CategoryDefinitions.FirstOptionValueOr | ios/NetWorthIOS/Models/AssetCategoryDefinition.swift:221 | `options.first?.value ?? fallback`: the first option's value, or the fallback for no options. |
| CategoryDefinitions.StocksDefinition | ios/NetWorthIOS/Models/AssetCategoryDefinition.swift:79-99 | The stocks entry is well formed and grows at 17.5% by default. Well formed means: it describes its own category, its field ids are distinct, and its range holds its default. |
| CategoryDefinitions.MutualFundsDefinition | ios/NetWorthIOS/Models/AssetCategoryDefinition.swift:100-120 | Well formed, default 11.5%. |
| CategoryDefinitions.GoldDefinition | ios/NetWorthIOS/Models/AssetCategoryDefinition.swift:121-147 | Well formed, default 9.5%. |
| CategoryDefinitions.SilverDefinition | ios/NetWorthIOS/Models/AssetCategoryDefinition.swift:148-174 | Well formed, default 9.5%. |
| CategoryDefinitions.FixedDepositsDefinition | ios/NetWorthIOS/Models/AssetCategoryDefinition.swift:175-210 | Well formed, default 7%. |
| CategoryDefinitions.PersonalAssetsDefinition | ios/NetWorthIOS/Models/AssetCategoryDefinition.swift:211-252 | Well formed, default -7.5%: belongings lose value. |
| CategoryDefinitions.BondsDefinition | ios/NetWorthIOS/Models/AssetCategoryDefinition.swift:253-273 | Well formed, default 8%. |
| CategoryDefinitions.LandDefinition | ios/NetWorthIOS/Models/AssetCategoryDefinition.swift:274-294 | Well formed, default 9%. |
| CategoryDefinitions.HomeDefinition | ios/NetWorthIOS/Models/AssetCategoryDefinition.swift:295-315 | Well formed, default 9%. |
| CategoryDefinitions.SavingsDefinition | ios/NetWorthIOS/Models/AssetCategoryDefinition.swift:316-336 | Well formed, default 4%. |
| CategoryDefinitions.EmergencySavingsDefinition | ios/NetWorthIOS/Models/AssetCategoryDefinition.swift:337-357 | Well formed, default 4%. |
| CategoryDefinitions.EsopDefinition | ios/NetWorthIOS/Models/AssetCategoryDefinition.swift:358-384 | Well formed, default 15%. |
| CategoryDefinitions.PrivateEquityDefinition | ios/NetWorthIOS/Models/AssetCategoryDefinition.swift:385-413 | Well formed, default 20%. |
| CategoryDefinitions.VpfPpfDefinition | ios/NetWorthIOS/Models/AssetCategoryDefinition.swift:414-434 | Well formed, default 8.5%. |
| CategoryDefinitions.HomeLoanDefinition | ios/NetWorthIOS/Models/AssetCategoryDefinition.swift:435-477 | The home-loan entry is well formed. |
| CategoryDefinitions.CarLoanDefinition | ios/NetWorthIOS/Models/AssetCategoryDefinition.swift:478-520 | The car-loan entry is well formed. |
| CategoryDefinitions.PersonalLoanDefinition | ios/NetWorthIOS/Models/AssetCategoryDefinition.swift:521-563 | The personal-loan entry is well formed. |
| CategoryDefinitions.CreditCardDefinition | ios/NetWorthIOS/Models/AssetCategoryDefinition.swift:564-606 | The credit-card entry is well formed. |
| CategoryDefinitions.OtherDebtDefinition | ios/NetWorthIOS/Models/AssetCategoryDefinition.swift:607-643 | The other-debt entry is well formed. |
| CategoryDefinitions.LifeInsuranceDefinition | ios/NetWorthIOS/Models/AssetCategoryDefinition.swift:644-685 | The life-insurance entry is well formed. |
| CategoryDefinitions.HealthInsuranceDefinition | ios/NetWorthIOS/Models/AssetCategoryDefinition.swift:686-727 | The health-insurance entry is well formed. |
| CategoryDefinitions.VehicleInsuranceDefinition | ios/NetWorthIOS/Models/AssetCategoryDefinition.swift:728-769 | The vehicle-insurance entry is well formed. |
| CategoryDefinitions.WellFormed | ios/NetWorthIOS/Models/AssetCategoryDefinition.swift:3-12 | What every table entry satisfies: it describes its own category, its field ids are distinct and a given range contains the default rate. `CategoryDefinitions.DefinitionWellFormed` and each `…Definition` entry prove it. |
| CategoryDefinitions.IsDebt | ios/NetWorthIOS/Models/AssetCategoryDefinition.swift:435-643 | The five debt categories. `CategoryDefinitions.Definition` shows they are exactly the entries with `isLiability`. |
| CategoryDefinitions.IsInsurance | ios/NetWorthIOS/Models/AssetCategoryDefinition.swift:644-769 | The three insurance categories. `CategoryDefinitions.Definition` shows they are exactly the entries without `includesInNetWorth`. |
| CategoryDefinitions.DefaultGrowthRate | ios/NetWorthIOS/Models/AssetCategoryDefinition.swift:79-769 | Each category's `growthRateDefault`, in percent, with 0 for debts and insurance. `CategoryDefinitions.Definition` and `CategoryDefinitions.WealthDefinition` show it is the table's value entry by entry. |
| CategoryDefinitions.Definition | ios/NetWorthIOS/Models/AssetCategoryDefinition.swift:773-775 | `definition(for:)` is total. Each category's entry describes that category. It is a liability exactly for the five debts and counts in net worth exactly unless it is insurance. Its default rate is the category's rate, and 0 for debts and insurance. |
| CategoryDefinitions.DebtDefinition | ios/NetWorthIOS/Models/AssetCategoryDefinition.swift:435-643 | The five debt entries are well formed liabilities that count in net worth and do not grow. |
| CategoryDefinitions.InsuranceDefinition | ios/NetWorthIOS/Models/AssetCategoryDefinition.swift:644-769 | The three insurance entries are well formed. They are not liabilities, are left out of net worth and do not grow. |
| CategoryDefinitions.WealthDefinition | ios/NetWorthIOS/Models/AssetCategoryDefinition.swift:79-434 | The fourteen wealth entries are well formed assets that count in net worth, each with its own default rate. |
| CategoryDefinitions.DefinitionWellFormed | ios/NetWorthIOS/Models/AssetCategoryDefinition.swift:78-770 | Every entry of the table is well formed: it describes its own category, has distinct field ids, and any range holds the default. |
| CategoryDefinitions.OrderedIsComplete | ios/NetWorthIOS/Models/AssetCategoryDefinition.swift:38-61 | `ordered` lists all 22 categories, each once. |
| CategoryDefinitions.InitFlagDefaults | ios/NetWorthIOS/Models/AssetCategoryDefinition.swift:14-34 | An entry built without the two flags counts in net worth and is not a liability. |
| SettingsModel.DefaultSettings | ios/NetWorthIOS/Models/Settings.swift:8-18 | `Settings.default`: INR, app lock on and the default rates. `SettingsModel.Default` is proved against it. |
| SettingsModel.DefaultRates | ios/NetWorthIOS/Models/Settings.swift:9-12 | The rates `default` fills in over all cases. `SettingsModel.DefaultRatesAreCategoryDefaults` shows every raw value maps to its category's default. |
| SettingsModel.RatesFor | ios/NetWorthIOS/Models/Settings.swift:9-12 | The rates map after the loop has visited some categories in order. `SettingsModel.RatesForStep`, `SettingsModel.RatesForLookup` and `SettingsModel.RatesForKeys` state its steps, entries and keys; `SettingsModel.FillRates` is proved against it. |
| SettingsModel.Default | ios/NetWorthIOS/Models/Settings.swift:8-18 | The default settings are currency "INR", app lock on, and the rates the loop writes over all cases. |
| SettingsModel.FillRates | ios/NetWorthIOS/Models/Settings.swift:9-12 | The `rates` loop over a list of categories leaves the map that writing each category's default under its raw value, in order, gives. |
| SettingsModel.RatesForStep | ios/NetWorthIOS/Models/Settings.swift:10-12 | One more loop iteration writes that category's default under its raw value. |
| SettingsModel.RatesForLookup | ios/NetWorthIOS/Models/Settings.swift:9-12 | After the loop, each visited category has an entry under its raw value, and that entry is its default. |
| SettingsModel.RatesForKeys | ios/NetWorthIOS/Models/Settings.swift:9-12 | The loop writes only raw values of visited categories. |
| SettingsModel.DefaultRatesAreCategoryDefaults | ios/NetWorthIOS/Models/Settings.swift:8-18 | The default rates hold an entry for every category's raw value, that entry is the category's default, and every key names a category. |
| Calculations.AssetValue | ios/NetWorthIOS/Services/CalculationsService.swift:4-41 | `assetValue`: one formula per category. Debts read `debtBalance`, insurance `coverageAmount`, and wealth its own field or product. `Calculations.AssetValueReadsOnlyValueKeys`, `Calculations.ProductValue` and `Calculations.BelongingsValue` state what it reads and computes. |
| Calculations.WealthValue | ios/NetWorthIOS/Services/CalculationsService.swift:6-35 | The fourteen wealth formulas of `assetValue`: one field each, a product for gold, silver and ESOP, and value × max(quantity, 1) for belongings. `Calculations.ProductValue` and `Calculations.BelongingsValue` state the non-trivial ones. |
| Calculations.ValueKeys | ios/NetWorthIOS/Services/CalculationsService.swift:4-41 | The field ids each category's formula reads. `Calculations.AssetValueReadsOnlyValueKeys` shows the amount depends on those readings only. |
| Calculations.AssetValueReadsOnlyValueKeys | ios/NetWorthIOS/Services/CalculationsService.swift:4-41 | An asset's amount depends only on the readings of the fields its category's formula names. Two assets of one category that agree on those fields have equal amounts. |
| Calculations.ProductValue | ios/NetWorthIOS/Services/CalculationsService.swift:10-35 | Gold, silver and ESOP are the product of their two fields, so a missing factor makes the amount 0. |
| Calculations.BelongingsValue | ios/NetWorthIOS/Services/CalculationsService.swift:14-17 | Belongings are unit value times `max(quantity, 1)`, so a zero, negative or unset quantity yields the unit value. |
| Calculations.Contribution | ios/NetWorthIOS/Services/CalculationsService.swift:49-52 | `netWorthContribution`: the amount, negated for a liability. `Calculations.FlagsReadTheTable` ties the sign to the table's `isLiability`, and `Calculations.NetWorthOfOne` gives its effect on net worth. |
| Calculations.IsCounted | ios/NetWorthIOS/Services/CalculationsService.swift:45 | The `includesInNetWorth` filter: every category but insurance. `Calculations.FlagsReadTheTable` shows it is the table's flag, and `Calculations.Counted` shows the filter keeps exactly those assets. |
| Calculations.NetWorth | ios/NetWorthIOS/Services/CalculationsService.swift:43-47 | `netWorth`: the sum of contributions of the counted assets. `Calculations.NetWorthConcat`, `Calculations.NetWorthOfOne`, `Calculations.NetWorthAppend` and `Calculations.NetWorthOfWealth` state its additivity and its value on one asset. |
| Calculations.FlagsReadTheTable | ios/NetWorthIOS/Services/CalculationsService.swift:45-52 | A contribution is the amount negated exactly for the table's liabilities. An asset is counted exactly when its entry has `includesInNetWorth`. |
| Calculations.Counted | ios/NetWorthIOS/Services/CalculationsService.swift:44-45 | The filter keeps exactly the assets whose category counts in net worth. |
| Calculations.NetWorthConcat | ios/NetWorthIOS/Services/CalculationsService.swift:43-47 | Net worth of two lists joined is the sum of their net worths. |
| Calculations.NetWorthOfOne | ios/NetWorthIOS/Services/CalculationsService.swift:43-52 | One asset on its own contributes 0 if insurance, minus its amount if a debt, and its amount otherwise. |
| Calculations.NetWorthAppend | ios/NetWorthIOS/Services/CalculationsService.swift:43-52 | Adding an insurance policy never changes net worth. Adding a debt lowers it by the balance; adding wealth raises it by the amount. |
| Calculations.NetWorthOfWealth | ios/NetWorthIOS/Services/CalculationsService.swift:43-52 | When every asset is counted wealth, net worth is the plain sum of amounts. |
| Calculations.CategoryTotals | ios/NetWorthIOS/Services/CalculationsService.swift:56-59 | `totals[category, default: 0] += f(asset)` over the assets in order. `Calculations.CategoryTotalsKeys`, `Calculations.CategoryTotalsValue`, `Calculations.CategoryTotalsMeaning` and `Calculations.CategoryTotalsSum` state its keys, entries and sum; `Calculations.AddUpByCategory` is proved against it. |
| Calculations.CategoryTotalsKeys | ios/NetWorthIOS/Services/CalculationsService.swift:56-59 | The `totals[category, default: 0] +=` loop gives a category an entry exactly when some asset has it. |
| Calculations.CategoryTotalsValue | ios/NetWorthIOS/Services/CalculationsService.swift:56-59 | A category's entry is the sum over that category's assets, in order. |
| Calculations.CategoryTotalsMeaning | ios/NetWorthIOS/Services/CalculationsService.swift:56-59 | Both facts above, together. |
| Calculations.CategoryTotalsSum | ios/NetWorthIOS/Services/CalculationsService.swift:56-59 | The per-category totals add up to the sum over all the assets. |
| Calculations.AddUpByCategory | ios/NetWorthIOS/Services/CalculationsService.swift:56-59 | The dictionary-filling loop computes the per-category totals. |
| Calculations.NetWorthComponents | ios/NetWorthIOS/Services/CalculationsService.swift:54-61 | `netWorthComponents`: its keys are exactly the categories of counted assets and never insurance, and its values sum to `netWorth` of the same list. |
| Calculations.Matches | ios/NetWorthIOS/Services/CalculationsService.swift:64-67 | The summary filter on one asset: its counted flag is the one asked for and, when a liability flag is given, its liability flag matches. `Calculations.Matching` shows the filter keeps exactly these assets. |
| Calculations.Matching | ios/NetWorthIOS/Services/CalculationsService.swift:64-67 | The summary filter keeps exactly the assets whose counted flag is the one asked for and, when a liability flag is given, whose liability flag matches. |
| Calculations.ShareOf | ios/NetWorthIOS/Services/CalculationsService.swift:77 | A summary's percentage: `value / total` when counted, not restricted to liabilities and the total is positive, else nil. `Calculations.SummariesMeaning` and `Calculations.WealthSharesSumToOne` state what the shares mean. |
| Calculations.Summarize | ios/NetWorthIOS/Services/CalculationsService.swift:73-79 | One entry of `buckets.map`: the category, its bucket total and its share. `Calculations.SummarizeAll` shows the map builds one per bucket. |
| Calculations.SummarizeAll | ios/NetWorthIOS/Services/CalculationsService.swift:73-79 | `buckets.map` gives one summary per bucket, in some order. Each carries the bucket's value and its percentage rule, and the totals add up to the buckets' total. |
| Calculations.SummarizesReordered | ios/NetWorthIOS/Services/CalculationsService.swift:80 | Sorting keeps one summary per bucket, and no category is listed twice. |
| Calculations.CategorySummaries | ios/NetWorthIOS/Services/CalculationsService.swift:63-81 | `categorySummaries` lists each category exactly when some matching asset has it. Each category appears once, sorted by non-increasing total, with the unsigned sum of its amounts. A percentage is present iff the view is counted, not liabilities only, and the group total is positive; it is then the total's share. The totals add up to the matching assets' amounts. |
| Calculations.SummariesMeaning | ios/NetWorthIOS/Services/CalculationsService.swift:63-79 | What any list of summaries built from the matching assets' buckets says about those assets: which categories, which totals, which percentages. |
| Calculations.WealthSharesSumToOne | ios/NetWorthIOS/Services/CalculationsService.swift:68-77 | In the wealth view with a positive total, the percentages sum to 1. |
| Calculations.GrowthRate | ios/NetWorthIOS/Services/CalculationsService.swift:106-108 | `growthRate(for:settings:)`: the override under the raw value, else the category default. `Calculations.GrowthRateUnderDefaults` shows default settings give the default. |
| Calculations.MonthlyRate | ios/NetWorthIOS/Services/CalculationsService.swift:91-92 | `rate / 12 / 100`: the annual percentage as a monthly fraction. `Calculations.FlatValue` shows an annual rate of 0 leaves an asset at its contribution in every month. |
| Calculations.Pow | ios/NetWorthIOS/Services/CalculationsService.swift:93 | `pow(1 + monthly, Double(month))` for a whole number of months, as repeated multiplication. `Calculations.NoGrowth` shows a base of exactly 1 leaves an amount unchanged in every month. |
| Calculations.Compounded | ios/NetWorthIOS/Services/CalculationsService.swift:93 | `currentValue * pow(1 + monthly, month)`. `Calculations.NoGrowth` shows a zero rate keeps the amount. |
| Calculations.ProjectedValue | ios/NetWorthIOS/Services/CalculationsService.swift:90-95 | One asset's signed value after `month` months. `Calculations.FlatValue` shows a zero rate gives its contribution, and `Calculations.NonGrowingUnderDefaults` that debts and insurance stay flat under default settings. |
| Calculations.ProjectedTotal | ios/NetWorthIOS/Services/CalculationsService.swift:88-96 | The total of the inner loop for month `month`. `Calculations.ProjectedTotalStep` and `Calculations.ProjectedTotalAtZero` state its recurrence and month 0; `Calculations.MonthTotal` and `Calculations.Projection` are proved against it. |
| Calculations.GrowthRateUnderDefaults | ios/NetWorthIOS/Services/CalculationsService.swift:106-108 | Under the default settings every category grows at its own default rate. |
| Calculations.ProjectedTotalStep | ios/NetWorthIOS/Services/CalculationsService.swift:88-96 | One more asset in the inner loop adds its signed compounded value. |
| Calculations.ProjectedTotalAtZero | ios/NetWorthIOS/Services/CalculationsService.swift:83-96 | At month 0 the projection formula gives the sum of contributions. |
| Calculations.FlatValue | ios/NetWorthIOS/Services/CalculationsService.swift:90-95 | An asset whose category grows at 0 projects to its contribution in every month. |
| Calculations.NoGrowth | ios/NetWorthIOS/Services/CalculationsService.swift:93 | At a monthly rate of 0 an amount compounds to itself. |
| Calculations.ZeroRatesStayFlat | ios/NetWorthIOS/Services/CalculationsService.swift:87-98 | With every rate 0, every month's point equals net worth. |
| Calculations.NonGrowingUnderDefaults | ios/NetWorthIOS/Services/CalculationsService.swift:90-95 | Under the default settings, debts and insurance project to their contribution in every month. |
| Calculations.Projection | ios/NetWorthIOS/Services/CalculationsService.swift:83-100 | Needs months >= 1, since `1...months` traps otherwise. Gives months+1 points with month = index. Point 0 is net worth. Point m is the sum, over counted assets, of sign × amount × (1 + rate/1200)^m, where the rate is the override if set, else the category default. |
| Calculations.MonthTotal | ios/NetWorthIOS/Services/CalculationsService.swift:88-96 | The inner loop adds up the signed compounded values of the assets at that month. |
| Calculations.OneYearProjection | ios/NetWorthIOS/Services/CalculationsService.swift:102-104 | `oneYearProjection` is the month-12 point. |
| Calculations.ProjectionStartsAtNetWorth | ios/NetWorthIOS/Services/CalculationsService.swift:83-98 | Point 0, net worth, also fits the month-m formula at m = 0. |
| Sequences.SortDesc | ios/NetWorthIOS/Services/CalculationsService.swift:80 | `sorted { $0.total > $1.total }`: the result is sorted by non-increasing key and is a permutation of the input. |
| Drafts.DefaultValuesOf | ios/NetWorthIOS/Models/AssetDraft.swift:52-65 | `defaultValues(for:)`: each field's default under its id, and for belongings the selected type's suggested value as `assetValue`. `Drafts.DefaultValues` ties the method to it; `Drafts.DefaultValuesKeys`, `Drafts.DefaultValuesAgree`, `Drafts.BelongingsSeed` and `Drafts.OnlyBelongingsPatched` state its content. |
| Drafts.FieldDefaults | ios/NetWorthIOS/Models/AssetDraft.swift:53-56 | The loop writing `defaults[field.id] = field.defaultValue`, where a later field with the same id wins. `Drafts.FieldDefaultsKeys` and `Drafts.FieldDefaultsValues` give its keys and entries. |
| Drafts.Suggestion | ios/NetWorthIOS/Models/AssetDraft.swift:57-60 | The suggested number of the option that `assetType` selects, when the stored type is text, a declared option matches it and that option has one. `Drafts.BelongingsSeed` shows it is 100000 for new belongings. |
| Drafts.Patched | ios/NetWorthIOS/Models/AssetDraft.swift:57-63 | The belongings patch: `assetValue` becomes the suggestion when there is one, and other categories are unchanged. `Drafts.PatchedKeys` shows it adds no key and `Drafts.PatchedValues` that only belongings' `assetValue` may change. |
| Drafts.DefaultValues | ios/NetWorthIOS/Models/AssetDraft.swift:52-65 | `defaultValues(for:)` computes the category's seeded map. |
| Drafts.SeedFields | ios/NetWorthIOS/Models/AssetDraft.swift:53-64 | The loop writes every field's default under its id, then applies the belongings patch. |
| Drafts.New | ios/NetWorthIOS/Models/AssetDraft.swift:14-23 | `new(category:)` has the given category and fresh id. Both of its times are one parameter instant, and its values are the seeded defaults. |
| Drafts.FieldDefaultsKeys | ios/NetWorthIOS/Models/AssetDraft.swift:53-56 | The loop leaves an entry for exactly the ids of the fields. |
| Drafts.FieldDefaultsValues | ios/NetWorthIOS/Models/AssetDraft.swift:53-56 | With unique ids, each field's entry is its own resolved default. |
| Drafts.BelongingsFieldIds | ios/NetWorthIOS/Models/AssetCategoryDefinition.swift:211-252 | Belongings declare `assetType`, `assetName`, `quantity` and `assetValue`, in that order. |
| Drafts.PatchedKeys | ios/NetWorthIOS/Models/AssetDraft.swift:57-63 | The patch adds no key: the seeded map holds exactly the field ids. |
| Drafts.PatchedValues | ios/NetWorthIOS/Models/AssetDraft.swift:57-63 | The patch rewrites at most belongings' `assetValue`; every other field holds its own default. |
| Drafts.DefaultValuesKeys | ios/NetWorthIOS/Models/AssetDraft.swift:52-65 | A seeded draft has an entry for exactly the category's field ids. |
| Drafts.PatchFieldDeclared | ios/NetWorthIOS/Models/AssetDraft.swift:57-63 | The field the belongings patch writes is declared by belongings. |
| Drafts.DefaultValuesAgree | ios/NetWorthIOS/Models/AssetDraft.swift:52-56 | Each entry of a seeded draft is its field's default, except belongings' `assetValue`. |
| Drafts.BelongingsSeed | ios/NetWorthIOS/Models/AssetDraft.swift:57-63 | New belongings start as a bike, valued at the bike's suggested 100000. |
| Drafts.OnlyBelongingsPatched | ios/NetWorthIOS/Models/AssetDraft.swift:57-63 | Every other category is seeded with the plain field defaults. |
| Drafts.Name | ios/NetWorthIOS/Models/AssetDraft.swift:10-12 | `name`: the display name of the draft's category. `Drafts.AssetRoundTrip` shows a saved draft is named this way. |
| Drafts.FromAsset | ios/NetWorthIOS/Models/AssetDraft.swift:33-39 | `init(asset:)`: the asset's id, category, values and both stamps. `Drafts.AssetRoundTrip` and `Drafts.DraftRoundTrip` pair it with `asAsset`. |
| Drafts.AsAsset | ios/NetWorthIOS/Models/AssetDraft.swift:41-50 | `asAsset(updatedAt:)`: the draft's parts, named after its category and stamped with the given instant. `Drafts.AssetRoundTrip` and `Drafts.DraftRoundTrip` pair it with `init(asset:)`. |
| Drafts.AssetRoundTrip | ios/NetWorthIOS/Models/AssetDraft.swift:33-50 | Saving a draft opened from an asset keeps id, category, values and creation time. It stamps the new time, and the name becomes the category's name. |
| Drafts.DraftRoundTrip | ios/NetWorthIOS/Models/AssetDraft.swift:33-50 | Reopening a saved draft gives the draft back, with the save time. |
| AssetStores.UniqueAssetIds | ios/NetWorthIOS/Stores/AssetStore.swift:38-63 | No two assets of the list share an id. `AssetStores.UpsertKeepsIdsUnique`, `AssetStores.MergeOneIds` and `AssetStores.MergedIds` show upsert and merge keep it. |
| AssetStores.FirstIndexOfId | ios/NetWorthIOS/Stores/AssetStore.swift:39 | `firstIndex(where:)` gives the first position holding the id; it is nil exactly when the id is absent. |
| AssetStores.Upserted | ios/NetWorthIOS/Stores/AssetStore.swift:38-43 | `upsert`: the first asset with the id is replaced, or the asset is appended. `AssetStores.UpsertExisting`, `AssetStores.UpsertNew` and `AssetStores.UpsertKeepsIdsUnique` state both cases and the kept invariant; `AssetStores.AssetStore.Upsert` is proved against it. |
| AssetStores.UpsertExisting | ios/NetWorthIOS/Stores/AssetStore.swift:38-41 | An existing id: only its first occurrence is replaced, the length is kept and nothing else moves. |
| AssetStores.UpsertNew | ios/NetWorthIOS/Stores/AssetStore.swift:42-43 | A new id: the asset is appended, and the length grows by one. |
| AssetStores.UpsertKeepsIdsUnique | ios/NetWorthIOS/Stores/AssetStore.swift:38-45 | Upserting into a list with unique ids keeps them unique, and the asset is then in the list. |
| AssetStores.Without | ios/NetWorthIOS/Stores/AssetStore.swift:48 | `removeAll` keeps exactly the assets with other ids. |
| AssetStores.WithoutConcat | ios/NetWorthIOS/Stores/AssetStore.swift:48 | Removal distributes over concatenation, so the kept assets keep their order. |
| AssetStores.WithoutAbsent | ios/NetWorthIOS/Stores/AssetStore.swift:48 | Deleting an id nobody has changes nothing. |
| AssetStores.WithoutRemovesId | ios/NetWorthIOS/Stores/AssetStore.swift:48 | After a delete no asset has the id. |
| AssetStores.MergeOne | ios/NetWorthIOS/Stores/AssetStore.swift:55-61 | One step of `merge`. A known id is replaced only by a strictly newer asset; an unknown one is appended. `AssetStores.MergeOneExisting`, `AssetStores.MergeOneNew` and `AssetStores.MergeOneIds` state this. |
| AssetStores.Merged | ios/NetWorthIOS/Stores/AssetStore.swift:52-63 | `merge`: the incoming assets folded in order with `MergeOne`. `AssetStores.MergedKeepsBase`, `AssetStores.MergedIds` and `AssetStores.MergedUnseen` state what it keeps and adds; `AssetStores.AssetStore.Merge` is proved against it. |
| AssetStores.MergeOneExisting | ios/NetWorthIOS/Stores/AssetStore.swift:55-58 | A present id is replaced only when the incoming `updatedAt` is strictly later. |
| AssetStores.MergeOneNew | ios/NetWorthIOS/Stores/AssetStore.swift:59-61 | An unseen id is appended. |
| AssetStores.MergeOneIds | ios/NetWorthIOS/Stores/AssetStore.swift:54-62 | One merge step removes and moves nothing, never makes an asset older, adds only the incoming asset, and keeps ids unique. |
| AssetStores.MergedKeepsBase | ios/NetWorthIOS/Stores/AssetStore.swift:52-63 | After a merge every stored asset's id stays in its place, with an `updatedAt` at least as late. |
| AssetStores.MergedIds | ios/NetWorthIOS/Stores/AssetStore.swift:52-63 | After a merge every incoming id is present, and unique ids stay unique. |
| AssetStores.MergedUnseen | ios/NetWorthIOS/Stores/AssetStore.swift:53-63 | Incoming assets that are all unseen and distinct are appended in input order. |
| AssetStores.AssetStore.constructor | ios/NetWorthIOS/Stores/AssetStore.swift:7-15 | A new store has no assets, the default settings, and is not loaded. |
| AssetStores.AssetStore.Load | ios/NetWorthIOS/Stores/AssetStore.swift:17-28 | `load` acts at most once. The first call takes the stored state, or resets to no assets and default settings when reading fails. Either way it marks the store loaded. |
| AssetStores.AssetStore.Upsert | ios/NetWorthIOS/Stores/AssetStore.swift:38-45 | `upsert` replaces the first asset with the id, or appends. Settings are untouched. |
| AssetStores.AssetStore.Delete | ios/NetWorthIOS/Stores/AssetStore.swift:47-50 | `delete` removes every asset with the id, keeping the rest in order. |
| AssetStores.AssetStore.Merge | ios/NetWorthIOS/Stores/AssetStore.swift:52-65 | `merge` loops over a copy: newest wins for known ids and unseen ids are appended in order. |
| AssetStores.AssetStore.SetGrowthRate | ios/NetWorthIOS/Stores/AssetStore.swift:71-74 | After `setGrowthRate(v, c)`, `growthRate(for: c)` is v. Every other category's rate and the assets are unchanged. |
| AssetStores.OverrideEffect | ios/NetWorthIOS/Stores/AssetStore.swift:67-74 | An override for c changes the rate of c to the new value and no other category's rate. |
| AssetStores.AssetStore.GrowthRate | ios/NetWorthIOS/Stores/AssetStore.swift:67-69 | `growthRate(for:)`: the stored override under the raw value, else the category's default. `AssetStores.RateFallback` and `AssetStores.OverrideEffect` state both cases. |
| AssetStores.RateFallback | ios/NetWorthIOS/Stores/AssetStore.swift:67-69 | An absent override falls back to the category default; a present one is used as stored. |
| AppLock.AppLockStore.constructor | ios/NetWorthIOS/Stores/AppLockStore.swift:8-12 | A new store is enabled and locked, has no grace period, has never been unlocked, and requires unlocking. |
| AppLock.AppLockStore.IsLocked | ios/NetWorthIOS/Stores/AppLockStore.swift:14-16 | `isLocked` holds iff the lock is enabled and the store is not unlocked. |
| AppLock.AppLockStore.Lock | ios/NetWorthIOS/Stores/AppLockStore.swift:18-21 | `lock` sets `requiresUnlock` and clears `isUnlocked`, touching nothing else. |
| AppLock.AppLockStore.MarkBackgrounded | ios/NetWorthIOS/Stores/AppLockStore.swift:62-65 | `markBackgrounded` has the same effect as `lock`. |
| AppLock.AppLockStore.Unlock | ios/NetWorthIOS/Stores/AppLockStore.swift:39-60 | `unlock` takes the state to its outcome's transition. Without a usable policy it unlocks. A granted prompt unlocks, stamps the instant and clears the requirement. A refusal or an error locks. |
| AppLock.AppLockStore.UnlockIfNeeded | ios/NetWorthIOS/Stores/AppLockStore.swift:23-37 | `unlockIfNeeded` goes through its guards in source order: disabled, already settled, within the grace period, then the prompt. |
| AppLock.LockedOut | ios/NetWorthIOS/Stores/AppLockStore.swift:14-16 | `isLocked`: the lock is enabled and the app is not unlocked. `AppLock.LockedMeaning`, `AppLock.InitiallyLocked` and `AppLock.DisabledOpens` state when it holds. |
| AppLock.Locked | ios/NetWorthIOS/Stores/AppLockStore.swift:18-21 | `lock()` and `markBackgrounded()`: unlock is required again and the app is not unlocked, and nothing else changes. `AppLock.LockedMeaning` shows the result is locked whenever the lock is enabled; `AppLock.RelockWithinGrace` shows a relock inside the grace period opens again without a prompt. |
| AppLock.Unlocked | ios/NetWorthIOS/Stores/AppLockStore.swift:39-60 | `unlock()` for one authentication outcome. No policy opens the app; a grant opens it, stamps `lastUnlockDate` and clears `requiresUnlock`; a denial or a throw leaves it shut. `AppLock.UnavailableFailsOpen` and `AppLock.OutcomeEffects` state these cases. |
| AppLock.WithinGrace | ios/NetWorthIOS/Stores/AppLockStore.swift:29-31 | The last unlock exists and at most `gracePeriodSeconds` have passed since it. `AppLock.GraceOpens` shows this opens the app without a prompt. |
| AppLock.UnlockedIfNeeded | ios/NetWorthIOS/Stores/AppLockStore.swift:23-37 | `unlockIfNeeded()`: a disabled lock opens; a settled unlocked store is left alone; the grace period opens; otherwise the prompt's outcome decides. `AppLock.DisabledOpens`, `AppLock.SettledUnchanged`, `AppLock.GraceOpens`, `AppLock.PromptDecides`, `AppLock.UnlockedIff` and `AppLock.OnlyGrantStamps` state this case by case. |
| AppLock.Prompts | ios/NetWorthIOS/Stores/AppLockStore.swift:24-36 | The prompt is shown exactly when the lock is enabled, the store is not settled and unlocked, and the grace period has run out. `AppLock.DisabledOpens` and `AppLock.GraceOpens` state where it does not hold; `AppLock.PromptDecides` shows the outcome then decides. |
| AppLock.InitiallyLocked | ios/NetWorthIOS/Stores/AppLockStore.swift:8-37 | A new store is locked, and its first `unlockIfNeeded` prompts. |
| AppLock.LockedMeaning | ios/NetWorthIOS/Stores/AppLockStore.swift:14-21 | After `lock` the store is locked exactly when the lock is enabled. It then requires unlocking, and the last unlock date is kept. |
| AppLock.DisabledOpens | ios/NetWorthIOS/Stores/AppLockStore.swift:24-27 | With the lock disabled, `unlockIfNeeded` unlocks without prompting. |
| AppLock.SettledUnchanged | ios/NetWorthIOS/Stores/AppLockStore.swift:28 | An unlocked store that does not require unlocking is left exactly as it is. |
| AppLock.GraceOpens | ios/NetWorthIOS/Stores/AppLockStore.swift:29-35 | Within the grace period the store unlocks without prompting, and `requiresUnlock` is left as it was. |
| AppLock.PromptDecides | ios/NetWorthIOS/Stores/AppLockStore.swift:36 | Once the prompt is shown, its outcome alone decides the new state. |
| AppLock.UnavailableFailsOpen | ios/NetWorthIOS/Stores/AppLockStore.swift:42-45 | Without a usable policy, `unlock` fails open and changes nothing else. |
| AppLock.OutcomeEffects | ios/NetWorthIOS/Stores/AppLockStore.swift:47-59 | A granted prompt unlocks, stamps its instant and clears the requirement. A denied or failed one locks and changes nothing else. |
| AppLock.UnlockedIff | ios/NetWorthIOS/Stores/AppLockStore.swift:23-60 | `unlockIfNeeded` leaves the store unlocked exactly when one of these holds: the lock is off, the store was settled, the grace period covers now, or the outcome lets it in. |
| AppLock.OnlyGrantStamps | ios/NetWorthIOS/Stores/AppLockStore.swift:23-60 | Only a granted prompt moves `lastUnlockDate` or clears `requiresUnlock`. |
| AppLock.RelockWithinGrace | ios/NetWorthIOS/Stores/AppLockStore.swift:29-35 | After a granted prompt and a trip to the background, coming back within the grace period needs no prompt. |
| AppLock.GrantedThenSettled | ios/NetWorthIOS/Stores/AppLockStore.swift:28 | Once a prompt on the enabled store is granted, `unlockIfNeeded` at any later instant changes nothing. |
| CsvCodec.DoubleQuotes | ios/NetWorthIOS/Services/CSVService.swift:155 | Doubling quotes leaves quote-free text alone and never shortens it. |
| CsvCodec.NeedsQuotes | ios/NetWorthIOS/Services/CSVService.swift:154 | A value needs quotes when it holds a comma, a quote or a line feed. `CsvCodec.Escape` quotes exactly those values. |
| CsvCodec.Join | ios/NetWorthIOS/Services/CSVService.swift:17 | `joined(separator:)`. `CsvCodec.PlainLine` and `CsvCodec.LinesOfJoin` show how lines and fields joined this way are read back. |
| CsvCodec.EncodeLine | ios/NetWorthIOS/Services/CSVService.swift:31 | One exported line: the escaped fields, comma-separated. `CsvCodec.LineRoundTrip` shows `parseCSVLine` gives the fields back, and `CsvCodec.EmptyListComesBackAsOneField` shows the one exception, an empty list. |
| CsvCodec.Escape | ios/NetWorthIOS/Services/CSVService.swift:153-157 | `csvEscape` wraps the value in quotes iff it holds a comma, a quote or a line feed; otherwise the value is unchanged. |
| CsvCodec.ParseFrom | ios/NetWorthIOS/Services/CSVService.swift:131-150 | The `parseCSVLine` state machine from a given state. `CsvCodec.DoubledQuote`, `CsvCodec.ClosingQuote`, `CsvCodec.QuotedChar`, `CsvCodec.ParseFromGrows` and `CsvCodec.EscapedField` state its steps. |
| CsvCodec.ParseLine | ios/NetWorthIOS/Services/CSVService.swift:125-151 | What `parseCSVLine` returns. `CsvCodec.ParseCsvLine` is proved against it; `CsvCodec.ParseNeverEmpty`, `CsvCodec.PlainLine` and `CsvCodec.LineRoundTrip` state its result. |
| CsvCodec.ParseCsvLine | ios/NetWorthIOS/Services/CSVService.swift:125-151 | The `while` state machine over the line computes the fields the line reads as. |
| CsvCodec.ParseFromGrows | ios/NetWorthIOS/Services/CSVService.swift:149 | Reading on only adds fields: there is always at least one more. |
| CsvCodec.ParseNeverEmpty | ios/NetWorthIOS/Services/CSVService.swift:149-150 | Every line, the empty one included, parses to at least one field. |
| CsvCodec.DoubledQuote | ios/NetWorthIOS/Services/CSVService.swift:133-137 | Inside quotes, a doubled quote is one literal quote. |
| CsvCodec.QuotedChar | ios/NetWorthIOS/Services/CSVService.swift:141-146 | Inside quotes, any other character, a comma included, joins the field. |
| CsvCodec.ClosingQuote | ios/NetWorthIOS/Services/CSVService.swift:138-140 | A quote inside quotes that is not followed by another ends the quoted part. |
| CsvCodec.PlainLine | ios/NetWorthIOS/Services/CSVService.swift:125-150 | A line without quotes and with k commas gives k+1 fields. None of them holds a comma, and rejoined they give the line back. |
| CsvCodec.EscapedField | ios/NetWorthIOS/Services/CSVService.swift:125-157 | An escaped field followed by a comma or the end of the line reads back as the field. |
| CsvCodec.LineRoundTrip | ios/NetWorthIOS/Services/CSVService.swift:125-157 | For any non-empty field list, parsing the comma-joined escaped fields gives the list back. |
| CsvCodec.EmptyListComesBackAsOneField | ios/NetWorthIOS/Services/CSVService.swift:149-150 | The empty list is the one exception: its line is empty, and that parses to one empty field. |
| CsvCodec.IsNewline | ios/NetWorthIOS/Services/CSVService.swift:38 | The characters `isNewline` accepts, one character each. `CsvCodec.LinesShape` shows no line holds one. |
| CsvCodec.Lines | ios/NetWorthIOS/Services/CSVService.swift:38 | `split(whereSeparator: \.isNewline)`, empty pieces dropped. `CsvCodec.LinesShape` shows every line is non-empty and break-free, and `CsvCodec.LinesOfJoin` shows lines joined by "\n" come back. |
| CsvCodec.LinesShape | ios/NetWorthIOS/Services/CSVService.swift:38 | `split(whereSeparator: \.isNewline)` yields only non-empty lines without line breaks. |
| CsvCodec.LinesOfJoin | ios/NetWorthIOS/Services/CSVService.swift:34-38 | Splitting undoes joining with line feeds, for non-empty rows without line breaks. |
| CsvService.ExportFields | ios/NetWorthIOS/Services/CSVService.swift:21-30 | One asset is written as eight fields, in header order. |
| CsvService.ExportRows | ios/NetWorthIOS/Services/CSVService.swift:16-32 | The export has the header line and then one line per asset. |
| CsvService.ExportOf | ios/NetWorthIOS/Services/CSVService.swift:15-35 | What `exportCSV` returns: the header line, then one encoded line per asset, joined by "\n". `CsvService.ExportCsv` is proved against it; `CsvService.ExportLayout` and `CsvService.ExportImport` state what it reads back as. |
| CsvService.ExportCsv | ios/NetWorthIOS/Services/CSVService.swift:15-35 | `exportCSV` gives the lines joined by line feeds. |
| CsvService.ImportOf | ios/NetWorthIOS/Services/CSVService.swift:37-71 | What `importCSV` returns: nothing without a matching header, else the imported rows. `CsvService.ImportCsv` is proved against it; `CsvService.ImportRejects` and `CsvService.ExportImport` state its result. |
| CsvService.ImportCsv | ios/NetWorthIOS/Services/CSVService.swift:37-71 | `importCSV` computes the import of the content. |
| CsvService.RowAsset | ios/NetWorthIOS/Services/CSVService.swift:46-66 | The asset a data line becomes, or none for a short line or an unknown category. `CsvService.RowAccepted` and `CsvService.RowAssetFields` state when it is kept and what it holds. |
| CsvService.ImportedRows | ios/NetWorthIOS/Services/CSVService.swift:45-68 | The assets the data lines yield, in order. `CsvService.ImportedRowsMeaning` shows they are exactly the kept lines' assets. |
| CsvService.ReadRow | ios/NetWorthIOS/Services/CSVService.swift:46-67 | The loop body for one data line gives the asset it appends, or nothing where it `continue`s. |
| CsvService.ImportRejects | ios/NetWorthIOS/Services/CSVService.swift:39-41 | Empty content, or a first line that is not exactly the eight headers, imports nothing. |
| CsvService.RowAccepted | ios/NetWorthIOS/Services/CSVService.swift:47-56 | A line is kept exactly when it has at least eight fields and its second one is a category's raw value. |
| CsvService.RowAssetFields | ios/NetWorthIOS/Services/CSVService.swift:49-66 | A kept line's asset has the named category. An empty id becomes the fresh id and an empty name the category's name; values and dates come from the row's decoders. |
| CsvService.ImportedRowsMeaning | ios/NetWorthIOS/Services/CSVService.swift:45-68 | At most one asset per data line, in file order. When every line is kept, the i-th asset is that of the i-th line. |
| CsvService.EscapeNoNewline | ios/NetWorthIOS/Services/CSVService.swift:153-157 | Escaping adds no line break. |
| CsvService.HeaderLine | ios/NetWorthIOS/Services/CSVService.swift:4-17 | The header row, `headers.joined(separator: ",")`. `CsvService.HeaderLineRoundTrip` shows `parseCSVLine` reads it back as the header list. |
| CsvService.HeaderLineRoundTrip | ios/NetWorthIOS/Services/CSVService.swift:37-41 | The header line the export writes reads back as the headers, so an export always passes the header check. |
| CsvService.ExportLayout | ios/NetWorthIOS/Services/CSVService.swift:15-35 | When no written field holds a line break, the export splits into the header line and then exactly one line per asset, in order. Each line reads back as that asset's fields. |
| CsvService.ExportedRowReads | ios/NetWorthIOS/Services/CSVService.swift:45-67 | A line the export writes for an asset is kept on import and gives back the reimported asset. |
| CsvService.ExportImport | ios/NetWorthIOS/Services/CSVService.swift:15-71 | Importing an export without line breaks in its fields gives one asset per exported asset, in order. Each keeps its id (or a fresh one for an empty id), its category and non-empty name, and the decoded values and dates. |
| HomeScreen.PercentGrowth | ios/NetWorthIOS/Views/HomeView.swift:96-99 | `percentGrowth` is 0 for a net worth of at most 0. Otherwise current + growth × current is the projection. |
| HomeScreen.GrowthSign | ios/NetWorthIOS/Views/HomeView.swift:96-99 | With a positive net worth, the growth is positive or zero exactly as the projection is above or at it. |
| HomeScreen.ProjectedGrowth | ios/NetWorthIOS/Views/HomeView.swift:9-14 | The home screen's growth compares net worth with the month-12 point of the counted assets' projection. |
| HomeScreen.FlatProjectionNoGrowth | ios/NetWorthIOS/Views/HomeView.swift:96-99 | When no counted asset grows, the home screen shows no growth. |
| HomeScreen.HasWealth | ios/NetWorthIOS/Views/HomeView.swift:17-18 | Some counted wealth asset is of the category. `HomeScreen.TopCategories` shows every listed category has one. |
| HomeScreen.WealthTotal | ios/NetWorthIOS/Views/HomeView.swift:17-18 | The value of the counted wealth assets of one category. `HomeScreen.TopCategories` shows each listed total is this value. |
| HomeScreen.TopCategories | ios/NetWorthIOS/Views/HomeView.swift:17-23 | `topCategories` holds at most three wealth summaries, sorted by total, each naming a different category. Each carries its category's wealth total and that total's share of the counted wealth. It lists only categories with wealth, and any category left out has a total no larger than each of the three, so it holds the first min(3, n) of the n wealth categories. |
| HomeScreen.PrefixOfSummaries | ios/NetWorthIOS/Views/HomeView.swift:21-23 | A prefix of sorted summaries keeps their totals. Every category it leaves out comes later, with no larger total. |
| HomeScreen.TopAssets | ios/NetWorthIOS/Views/HomeView.swift:25-27 | `topAssets`: the assets sorted by value, largest first, then the first three. `HomeScreen.TopAssetsMeaning` states its length, order and that no asset left out is worth more than one kept. |
| HomeScreen.TopAssetsMeaning | ios/NetWorthIOS/Views/HomeView.swift:25-27 | `topAssets` holds min(3, n) of the store's assets in non-increasing value order. No asset left out is worth more than one kept. |
| HomeScreen.LastUpdated | ios/NetWorthIOS/Views/HomeView.swift:101-103 | `lastUpdated` is nil iff there are no assets. Otherwise it is an asset's `updatedAt` that no other asset's exceeds. |
| HomeScreen.DeltaSinceLast | ios/NetWorthIOS/Views/HomeView.swift:105-112 | `deltaSinceLast` is nil exactly with fewer than two snapshots. |
| HomeScreen.DeltaMeaning | ios/NetWorthIOS/Views/HomeView.swift:105-112 | The amount is the change from the previous snapshot to the last. The percent is that change relative to a positive previous net worth, and 0 otherwise. |
| HomeScreen.DeltaOfLastTwo | ios/NetWorthIOS/Views/HomeView.swift:105-112 | Only the last two snapshots matter to the delta. |
| HomeScreen.TrendPoints | ios/NetWorthIOS/Views/HomeView.swift:114-116 | `trendPoints` is the last min(12, n) snapshots, in their original order. |
| HomeScreen.TrendAppend | ios/NetWorthIOS/Views/HomeView.swift:114-116 | Recording one more snapshot appends it to the trend and, once twelve are shown, drops the oldest. |
| JsCategories.Find | js/assetCategories.js:5-370 | The first entry under a key. `JsCategories.FindMeaning` shows it is found exactly when some entry has the key, and `JsCategories.FindAt` which entry it is. |
| JsCategories.Lookup | js/calculations.js:115 | `assetCategories[key]`, undefined for an unknown key. `JsCategories.LookupDeclared` and `JsCategories.PersonalAssetsLookup` show every declared entry is what its key finds. |
| JsCategories.FindMeaning | js/calculations.js:115 | `assetCategories[key]` finds an entry with that key, and is undefined exactly when no entry has it. |
| JsCategories.StocksEntry | js/assetCategories.js:6-27 | Stocks: one slider `stockValue`, growing 15 to 20 percent, 17.5 by default. `JsCategories.EveryRateHasDefault` and `JsCategories.DefaultsWithinBounds` state its rates. |
| JsCategories.MutualFundsEntry | js/assetCategories.js:28-49 | Mutual funds: one slider `fundValue`, growing 10 to 13 percent, 11.5 by default. `JsCategories.EveryRateHasDefault` and `JsCategories.DefaultsWithinBounds` state its rates. |
| JsCategories.GoldEntry | js/assetCategories.js:50-77 | Gold: `goldQuantity` and `goldRate` (5000 by default), growing 9 to 10 percent, 9.5 by default. `JsCategories.EveryRateHasDefault` and `JsCategories.DefaultsWithinBounds` state its rates. |
| JsCategories.FixedDepositsEntry | js/assetCategories.js:78-112 | Fixed deposits: `principalAmount`, `interestRate` (0 to 12, 7 by default) and `maturityDate`, growing 7 percent. `JsCategories.FieldIdsUnique` shows the ids are distinct. |
| JsCategories.PersonalAssetsEntry | js/assetCategories.js:113-170 | Personal property: the `assetType` select, `assetName`, `quantity` from 1 and `assetValue`, shrinking 5 to 10 percent, 7.5 by default. `JsCategories.PersonalAssetsSelect` and `JsCategories.PersonalAssetOptionsPriced` state its select. |
| JsCategories.BondsEntry | js/assetCategories.js:171-190 | Bonds: one slider `bondValue`, growing 8 percent. `JsCategories.EveryRateHasDefault` states it has no range. |
| JsCategories.LandEntry | js/assetCategories.js:191-210 | Land: one slider `landValue` from 100000, 1000000 by default, growing 9 percent. `JsCategories.EveryRateHasDefault` states it has no range. |
| JsCategories.HomeEntry | js/assetCategories.js:211-230 | Home: one slider `homeValue` from 500000, 5000000 by default, growing 9 percent. `JsCategories.EveryRateHasDefault` states it has no range. |
| JsCategories.SavingsEntry | js/assetCategories.js:231-250 | Savings: one slider `savingsBalance`, growing 4 percent. `JsCategories.EveryRateHasDefault` states it has no range. |
| JsCategories.EmergencySavingsEntry | js/assetCategories.js:251-273 | Emergency savings: one slider `emergencyBalance` up to 1000000, growing 4 percent. `JsCategories.EveryRateHasDefault` states it has no range. |
| JsCategories.EsopEntry | js/assetCategories.js:274-297 | ESOP: `esopCurrentValue` (1 by default) and `esopShares`, growing 15 percent. `JsCategories.FieldIdsUnique` shows the ids are distinct. |
| JsCategories.PrivateEquityEntry | js/assetCategories.js:298-323 | Private equity: the slider `peValue` (100000 by default) and `peUnits`, growing 20 percent. `JsCategories.FieldIdsUnique` shows the ids are distinct. |
| JsCategories.VpfPpfEntry | js/assetCategories.js:324-342 | VPF/PPF: one slider `vpfAmount`, growing 8.5 percent. `JsCategories.RegistryKeys` shows its key `vpf_ppf` is declared. |
| JsCategories.SilverEntry | js/assetCategories.js:343-369 | Silver: `silverGrams` and `silverRate` (85 by default), growing 9.5 percent. `JsCategories.FieldIdsUnique` shows the ids are distinct. |
| JsCategories.RegistryKeys | js/assetCategories.js:5-370 | The table has exactly fourteen keys, in declaration order, `vpf_ppf` among them. |
| JsCategories.KeysDistinct | js/assetCategories.js:5-370 | No key is declared twice. |
| JsCategories.LookupDeclared | js/assetCategories.js:5-370 | Each declared entry is what its key looks up. |
| JsCategories.EveryRateHasDefault | js/assetCategories.js:22-366 | Every category declares `growthRate.default`. Exactly `stocks`, `mutualFunds`, `gold` and `personalAssets` also give `min` and `max`. |
| JsCategories.DefaultsWithinBounds | js/assetCategories.js:22-169 | Wherever both `min` and `max` are given, the default lies between them. |
| JsCategories.FieldIdsUnique | js/assetCategories.js:5-370 | Field ids are distinct within each category. |
| JsCategories.PersonalAssetsSelect | js/assetCategories.js:113-140 | The first field of personal property is the `assetType` select over the priced kinds. |
| JsCategories.PersonalAssetsLookup | js/assetCategories.js:113-170 | Looking up `personalAssets` finds its entry. |
| JsCategories.PersonalAssetOptionsPriced | js/assetCategories.js:122-139 | Every kind of personal property carries a suggested value. |
| JsAssets.Falsy | js/calculations.js:35 | The readings `\|\|` treats as false: an absent field, the number 0 and the empty string. `JsAssets.NumberOr` shows each gives the fallback. |
| JsAssets.Get | js/calculations.js:35 | `values[key]`: the stored value, or undefined for an absent key. `JsAssets.NumberOr` states what a numeric read makes of it. |
| JsAssets.NumberOr | js/calculations.js:35 | `values.f \|\| fallback`: a falsy reading gives the fallback, and a non-zero number gives itself. |
| JsCalculations.Select | js/calculations.js:33-80 | The `switch` on the category: the arm of the first case carrying the label, else the `default` arm. `JsCalculations.SelectMeaning` shows an arm is chosen exactly when some case carries the label. |
| JsCalculations.Labels | js/calculations.js:34-74 | The switch's case labels in order. `JsCalculations.SwitchFollowsRegistry` shows they are the registry's keys. |
| JsCalculations.ValuationOf | js/calculations.js:33-80 | The arm `getAssetValue` takes for a category. `JsCalculations.ValuationsFollowRegistry` shows there is one exactly for the registry's keys. |
| JsCalculations.SelectMeaning | js/calculations.js:33-80 | The switch picks an arm exactly when some case carries the label. |
| JsCalculations.SwitchFollowsRegistry | js/calculations.js:33-80 | The switch's case labels are exactly the registry's keys, in the same order. |
| JsCalculations.ValuationsFollowRegistry | js/calculations.js:33-80 | A category has a valuation exactly when the registry knows it. |
| JsCalculations.ReadFieldsDeclaredA | js/calculations.js:34-44 | Stocks, mutual funds, gold and fixed deposits read only fields they declare. |
| JsCalculations.ReadFieldsDeclaredB | js/calculations.js:46-56 | Personal property, bonds, land and home read only fields they declare. |
| JsCalculations.ReadFieldsDeclaredC | js/calculations.js:58-67 | Both savings kinds and ESOP read only fields they declare. |
| JsCalculations.ReadFieldsDeclaredD | js/calculations.js:68-74 | Private equity, VPF/PPF and silver read only fields they declare. |
| JsCalculations.AssetValue | js/calculations.js:30-81 | `getAssetValue`: the chosen arm's field, or product of two fields, with a falsy reading counted as 0 (as 1 for `quantity`), and 0 for an unknown category. `JsCalculations.UnknownIsZero`, `JsCalculations.SingleFieldCategories`, `JsCalculations.GoldValue`, `JsCalculations.EsopValue`, `JsCalculations.SilverValue`, `JsCalculations.PersonalAssetsValue` and `JsCalculations.ValueNonNegative` state it arm by arm. |
| JsCalculations.UnknownIsZero | js/calculations.js:78-79 | A category the registry does not know is worth 0. |
| JsCalculations.SingleFieldCategories | js/calculations.js:34-72 | Each single-field category is worth its one field, a falsy field read as 0. |
| JsCalculations.GoldValue | js/calculations.js:40-41 | Gold is quantity times rate, a falsy field read as 0. |
| JsCalculations.EsopValue | js/calculations.js:65-67 | ESOP is current value times shares, a falsy field read as 0. |
| JsCalculations.SilverValue | js/calculations.js:73-74 | Silver is grams times rate, a falsy field read as 0. |
| JsCalculations.PersonalAssetsValue | js/calculations.js:46-47 | Personal property is value times quantity, and a zero or missing quantity counts as one. |
| JsCalculations.ValueNonNegative | js/calculations.js:30-81 | With no negative field an asset is worth at least 0: nothing in the web app is a liability. |
| JsCalculations.NetWorth | js/calculations.js:14-23 | The sum of the asset values. `JsCalculations.CalculateNetWorth` ties the `forEach` to it and `JsCalculations.NetWorthNonNegative` bounds it. |
| JsCalculations.CalculateNetWorth | js/calculations.js:14-23 | `calculateNetWorth` is the plain sum of asset values, with no sign for liabilities. |
| JsCalculations.NetWorthNonNegative | js/calculations.js:14-23 | With no negative field anywhere, net worth is never negative. |
| JsCalculations.AnnualRate | js/calculations.js:112-115 | The setting when one is given, else the registry default, else 0. `JsCalculations.RateFallsBackToDefault` and `JsCalculations.UnknownRateIsZero` state the two fallbacks. |
| JsCalculations.MonthlyRate | js/calculations.js:118 | `annualRate / 12 / 100`. `JsCalculations.ZeroRatesStayFlat` shows a zero rate gives no growth. |
| JsCalculations.RateFallsBackToDefault | js/calculations.js:112-115 | Without a setting, a registered category grows at its registry default. |
| JsCalculations.UnknownRateIsZero | js/calculations.js:112-115 | An unknown category without a setting does not grow. |
| JsCalculations.ProjectNetWorth | js/calculations.js:88-134 | Gives an array of months+1 points with month = index. Point 0 is net worth. Point i is the sum of value × (1 + rate/1200)^i, where the rate is the settings entry, else the registry default, else 0. |
| JsCalculations.ProjectedValue | js/calculations.js:122 | `currentValue * Math.pow(1 + monthlyRate, i)`. `JsCalculations.AddProjection` shows the loop adds it to each point from 1 on, and `JsCalculations.SavingsScenario` gives one concrete value. |
| JsCalculations.ProjectedTotal | js/calculations.js:104-125 | The sum over the assets of their projected values at a month. `JsCalculations.ProjectNetWorth`, `JsCalculations.ProjectedTotalStep`, `JsCalculations.ProjectedTotalAtZero`, `JsCalculations.ZeroRatesStayFlat` and `JsCalculations.OneYearProjection` tie the projection to it. |
| JsCalculations.AddProjection | js/calculations.js:107-125 | One asset's callback adds its compounded value to points 1 and on, and leaves point 0 alone. |
| JsCalculations.ProjectedTotalStep | js/calculations.js:107-125 | One more asset adds its compounded value to the point. |
| JsCalculations.ProjectedTotalAtZero | js/calculations.js:104-124 | The month-0 case of the formula is net worth, so point 0 fits it too. |
| JsCalculations.ZeroRatesStayFlat | js/calculations.js:104-124 | With every rate 0 the projection stays at net worth. |
| JsCalculations.OneYearProjection | js/calculations.js:140-143 | `getOneYearProjection` is point 12. |
| JsCalculations.GrowthPercentage | js/calculations.js:203-206 | The growth percentage is 0 from a zero start. Otherwise start plus that percentage of start is the end value. |
| JsCalculations.SavingsScenario | js/calculations.js:107-125 | A savings balance of 100000 at 12% a year is worth 100000 × 1.01^12 after twelve months. |
| JsCalculations.CategoriesOf | js/calculations.js:218-229 | The keys of `assetsByCategory` in insertion order. `JsCalculations.CategoriesOfDistinct` and `JsCalculations.CategoriesOfMembers` show each category the assets use is listed once. |
| JsCalculations.TotalsOf | js/calculations.js:218-229 | `assetsByCategory` after the loop, where a falsy running total restarts from 0. `JsCalculations.TotalsOfKeys`, `JsCalculations.TotalsOfValue`, `JsCalculations.TotalsAddUp` and `JsCalculations.GroupStep` give its keys and values. |
| JsCalculations.DisplayName | js/calculations.js:237 | `assetCategories[category]?.name \|\| category`. `JsCalculations.BreakdownValues` shows each entry carries it. |
| JsCalculations.Share | js/calculations.js:233 | The percentage of net worth, 0 unless net worth is positive. `JsCalculations.BreakdownValues` and `JsCalculations.BreakdownAddsUp` state the shares. |
| JsCalculations.CategoriesOfDistinct | js/calculations.js:218-229 | The grouping lists no category twice. |
| JsCalculations.CategoriesOfMembers | js/calculations.js:218-229 | A category is listed exactly when some asset has it. |
| JsCalculations.TotalsOfKeys | js/calculations.js:218-229 | `assetsByCategory` has an entry for exactly the listed categories. |
| JsCalculations.TotalsOfValue | js/calculations.js:218-229 | Each entry is the sum of that category's asset values. |
| JsCalculations.TotalsAddUp | js/calculations.js:212-229 | The category totals add up to net worth. |
| JsCalculations.GroupStep | js/calculations.js:220-229 | Grouping one asset more lists its category if it is new. It adds the asset's value to a total, and a total that is unset or 0 restarts from 0. |
| JsCalculations.GroupByCategory | js/calculations.js:218-229 | The grouping loop computes the keys in insertion order and the totals. |
| JsCalculations.ReorderedEntries | js/calculations.js:244 | Sorting entries with distinct categories keeps them distinct, and keeps the same entries. |
| JsCalculations.AssetBreakdown | js/calculations.js:212-247 | `getAssetBreakdown` has one entry per category the assets use, sorted by non-increasing value. Each entry carries its category's total, display name and share. For a positive net worth the percentages sum to 100; otherwise all are 0. |
| JsCalculations.BreakdownMeaning | js/calculations.js:231-246 | Any sorting of the entries built from the grouped totals satisfies everything `getAssetBreakdown` promises. |
| JsCalculations.BreakdownCategories | js/calculations.js:231-246 | The breakdown has exactly one entry per category the assets use. |
| JsCalculations.BreakdownValues | js/calculations.js:232-240 | Each entry carries its category's total, its display name and its share of net worth. |
| JsCalculations.BreakdownAddsUp | js/calculations.js:233 | With a positive net worth the shares add up to 100. |
| JsStorage.UniqueIds | js/storage.js:46-121 | No two stored assets share an id. `JsStorage.MergedIds` and `JsStorage.SaveKeepsIdsUnique` show merging and saving keep it. |
| JsStorage.Later | js/storage.js:55-56 | `new Date(x) > new Date(y)`, false when either date is invalid. `JsStorage.MergeOneExisting` shows it decides a replacement. |
| JsStorage.MergeOne | js/storage.js:50-64 | The `forEach` body: a present id is replaced when the incoming update is later, an unseen one appended. `JsStorage.MergeOneExisting`, `JsStorage.MergeOneNew` and `JsStorage.MergeOneKeeps` state both cases. |
| JsStorage.Merged | js/storage.js:46-68 | `mergeAssets`: the merge steps over the incoming assets in order. `JsStorage.MergedKeepsCurrent`, `JsStorage.MergedIds` and `JsStorage.MergedUnseen` state what it keeps and adds. |
| JsStorage.IndexOfId | js/storage.js:51 | `findIndex` gives the first position holding the id, and -1 (None) exactly when the id is absent. |
| JsStorage.MergeOneExisting | js/storage.js:51-59 | A present id is replaced, in place, only when the incoming update is strictly later. |
| JsStorage.MergeOneNew | js/storage.js:60-63 | An unseen id is appended. |
| JsStorage.MergeOneKeeps | js/storage.js:50-64 | One merge step removes and moves nothing, never makes an asset older, adds only the incoming asset, and keeps ids unique. |
| JsStorage.MergedKeepsCurrent | js/storage.js:46-68 | After a merge every stored id keeps its place. Everything after the stored list comes from the incoming list. |
| JsStorage.MergedIds | js/storage.js:46-68 | After a merge every incoming id is present, and unique ids stay unique. |
| JsStorage.MergedUnseen | js/storage.js:46-68 | Incoming assets that are all unseen and distinct are appended in input order. |
| JsStorage.Stamped | js/storage.js:109-111 | An asset without an id gets the generated one; nothing else about it changes. |
| JsStorage.SavedList | js/storage.js:101-116 | The list `saveAsset` stores: the first asset with the id replaced, or the asset appended with its id assigned. `JsStorage.SaveExisting`, `JsStorage.SaveNew` and `JsStorage.SaveKeepsIdsUnique` state both cases. |
| JsStorage.SavedAsset | js/storage.js:104-120 | The asset `saveAsset` returns: as given for a stored id, else with its id assigned. `JsStorage.SaveExisting` and `JsStorage.SaveNew` state both cases. |
| JsStorage.SaveExisting | js/storage.js:104-107 | A stored id: only its first occurrence is replaced, the length is kept, and the asset is returned as given. |
| JsStorage.SaveNew | js/storage.js:108-116 | A new asset is appended with an id assigned when it had none, and is otherwise as given. |
| JsStorage.SaveKeepsIdsUnique | js/storage.js:101-121 | Saving into a list with unique ids, under a fresh generated id, keeps them unique, and the saved asset is stored. |
| JsStorage.Without | js/storage.js:131 | `filter(a => a.id !== id)`. `JsStorage.WithoutMeaning` and `JsStorage.WithoutRemovesId` show it keeps exactly the other ids, in order. |
| JsStorage.WithoutMeaning | js/storage.js:128-142 | The filter keeps exactly the other ids. It is shorter exactly when some asset had the id, and equal to the list otherwise. |
| JsStorage.WithoutRemovesId | js/storage.js:131 | After a delete no asset has the id. |
| JsStorage.DefaultRate | js/storage.js:400-408 | A category's rate: its default when given, else the midpoint of `min` and `max \|\| min`, else 0. `JsStorage.MidpointFallback` states the fallback. |
| JsStorage.RatesOf | js/storage.js:397-412 | The `rates` object after the loop, a later entry overwriting. `JsStorage.RatesOfKeys`, `JsStorage.RatesOfAt` and `JsStorage.RegistryRates` give its keys and values. |
| JsStorage.RatesOfKeys | js/storage.js:397-412 | A key gets a rate exactly when some entry under it has a growth rate. |
| JsStorage.RatesOfAt | js/storage.js:397-412 | With distinct keys, the rate under an entry's key is that entry's rate. |
| JsStorage.RegistryRates | js/storage.js:397-412 | For the registry, every key gets a rate, and it is that category's declared default. |
| JsStorage.GetDefaultGrowthRates | js/storage.js:397-412 | `getDefaultGrowthRates` computes the registry's rate map. |
| JsStorage.FillRates | js/storage.js:398-411 | The loop over entries leaves the rate map of those entries, a later entry overwriting an earlier one. |
| JsStorage.MidpointFallback | js/storage.js:402-409 | A rate given only as a range falls back to the midpoint, with a missing or zero maximum read as the minimum. Without a minimum it is 0. |
| JsStorage.HeaderMatches | js/storage.js:238 | The first eight header fields are the expected headers; more may follow. `JsStorage.ImportNeedsHeaders` shows it decides whether a file is accepted. |
| JsStorage.Blank | js/storage.js:289-292 | `!name \|\| name.trim() === ""`: every character is white space. `JsStorage.RowAccepted` shows a blank name rejects the row. |
| JsStorage.WideRows | js/storage.js:208-223 | The rows with at least eight fields, in order. `JsStorage.WideRowsMeaning` and `JsStorage.WideRowsOf` state it. |
| JsStorage.RowAsset | js/storage.js:253-310 | One row's asset, or `null` for a short row, unparsable values, a blank name or an unknown category. `JsStorage.RowAccepted` states when a row is accepted and `JsStorage.ReadRow` ties the callback to it. |
| JsStorage.ImportOf | js/storage.js:227-311 | `importFromCSV`'s outcome: a file without a wide row, or whose first wide row does not start with the headers, is rejected; otherwise it gives the accepted rows' assets. `JsStorage.ImportNeedsHeaders`, `JsStorage.ImportedMeaning` and `JsStorage.StorageService.ImportFromCsv` state it. |
| JsStorage.RowAccepted | js/storage.js:253-302 | A row is accepted exactly when it is as wide as the headers, its values parse, its name is not blank and its category is a registry key. The asset then carries the row's fields, with empty ones filled in. |
| JsStorage.WideRowsMeaning | js/storage.js:208-223 | Every row kept by the line filter has at least eight fields and is an input row. |
| JsStorage.ImportNeedsHeaders | js/storage.js:227-243 | A file is accepted exactly when its first wide row starts with the eight expected headers. With no wide row it is rejected. |
| JsStorage.ImportedMeaning | js/storage.js:251-311 | The imported assets are fewer than the rows, and each has a registry category and a non-blank name. |
| JsStorage.StorageService.constructor | js/storage.js:6-15 | New storage holds no assets and no last-modified stamp. |
| JsStorage.StorageService.SaveAssets | js/storage.js:88-95 | `saveAssets` stores the list and stamps the current time. |
| JsStorage.StorageService.MergeAssets | js/storage.js:46-68 | `mergeAssets` stores and returns the merged list. |
| JsStorage.StorageService.SaveAsset | js/storage.js:101-121 | `saveAsset` stores the saved list and returns the saved asset. |
| JsStorage.StorageService.DeleteAsset | js/storage.js:128-142 | `deleteAsset` returns true iff some asset had the id, and then removes all of them. When it returns false, storage is untouched. |
| JsStorage.StorageService.ImportFromCsv | js/storage.js:227-317 | A rejected file changes nothing. An accepted one returns the number of accepted rows, appending them after the stored assets without de-duplication when there are any. |
| JsStorage.WideRowsOf | js/storage.js:207-223 | The line loop keeps the rows with at least eight fields, in order. |
| JsStorage.ReadRows | js/storage.js:251-311 | `slice(1).map(...).filter(...)` keeps the accepted data rows' assets, in order. |
| JsStorage.ReadRow | js/storage.js:253-310 | The `map` callback gives a row's asset, or `null`. |

## Left out

- Persistence, JSON and time are parameters and are not modelled:
  - file I/O, encryption and the keychain behind `load` and `save`;
  - JSON serialisation (`jsonString`, `parseValues`, `JSON.parse`);
  - ISO-8601 and `yyyy-MM-dd` date formatting and parsing;
  - `UUID()`, `Date()`, `Date.now()` and `Math.random()`.

  These enter as parameters or function arguments. No round trip of the values map through CSV is claimed, because the export writes untagged JSON and the import re-infers dates from strings.
- `Drafts.New` gives `createdAt` and `updatedAt` one parameter instant. `new(category:)` calls `Date()` twice (ios/NetWorthIOS/Models/AssetDraft.swift:20-21), so in the source the two may differ by the time between the calls.
- `CsvService.RowAsset` and `CsvService.ImportCsv` use one parameter `now` as the fallback for every row's missing `createdAt` and `updatedAt`. `importCSV` evaluates a new `Date()` for each date it cannot parse (ios/NetWorthIOS/Services/CSVService.swift:52-53), so in the source the fallbacks may differ slightly between rows and between the two fields.
- `AssetStore.save` is taken as a no-op; the store's state is the whole state.
- Display-only data is not modelled: category names other than their use as asset names, symbol names, colours, field labels and formats, option labels, and the CSV `icon` and `color` strings (a parameter). `formatCurrency` and `formatCurrency2` are left out because they rely on locale number formatting.
- Floating point is not modelled: amounts and rates are exact reals. IEEE rounding, NaN, infinities and overflow are not captured.
  - `Double(text)` is modelled as a concrete decimal-literal parser: an optional sign, digits, an optional fraction and an optional exponent. Hexadecimal literals and the words `inf` and `nan` are not modelled.
  - A number's string form in `textValue` is a parameter.
- String characters are Dafny characters, not Swift grapheme clusters. `isNewline` is the set of line-break characters Swift accepts, one character each; a "\r\n" pair is two separators, which gives the same non-empty pieces.
- `CategoryDefinitions.Definition`: the `?? all[.stocks]!` fallback of `definition(for:)` cannot be reached. The table covers all 22 cases, so the model is a total match without it.
- `Calculations.AssetValue` and `CategoryDefinitions.Definition` group the debt, insurance and wealth cases into three sub-functions. This is an encoding choice; the formulas and entries are the source's.
- `CategoryDefinitions.DefaultGrowthRate` restates the table's rates as a small match. `Definition`'s contract ties it to the table, entry by entry.
- `AssetCategories.FromRawValue` is a search over `allCases`, standing for the synthesised `init(rawValue:)`.
- `Calculations.CategorySummaries` visits the dictionary's keys in an order that is not specified, modelled as an arbitrary choice. Swift's `sorted` is not guaranteed to be stable, but the model sorts with a stable insertion sort. Its contract says only "sorted and a permutation", so it does not depend on that choice.
- `JsCalculations.AssetBreakdown` groups in the order `Object.entries` visits the keys, which is insertion order, and sorts stably, as `Array.prototype.sort` must. Keys that look like integers, which `Object.entries` would visit first in numeric order, are not modelled; that would change only the order of entries with equal totals.
- `HomeScreen.TopAssets` replaces Swift's `sorted` (ios/NetWorthIOS/Views/HomeView.swift:26) with the stable `Sequences.SortDesc`. When several assets tie in value around the third place, the model decides which of them are kept; Swift's sort, not guaranteed to be stable, may keep others.
- `Calculations.MonthTotal` is the inner loop of `projection`, taken out as its own method.
- `HomeScreen` takes the snapshot list as a parameter. No shown code records or prunes snapshots. `CalculationsService.projectionSeries`, used by the home chart, is not part of this model.
- The biometric prompt and `async` are not modelled.
  - `AppLock`: the outcome of `evaluatePolicy`, with the instant it returned, is a parameter, and the two awaits are atomic steps.
  - `AppLock.AppLockStore.Unlock`: `lastUnlockDate` is stamped with the instant the prompt returned, which stands for `Date()` after the await.
- `CsvService.ExportLayout` and `CsvService.ExportImport` are stated only for exports whose fields hold no line break. `csvEscape` quotes a line feed, but `importCSV` splits the content at every line break, quoted or not. A field with a line feed therefore does not come back.
- `JsStorage` models the web app's import from the split rows on.
  - Left out: the file type check, `FileReader`, the `split("\n")` and `trim` line filter, and the regular-expression field splitter. These are DOM and regex machinery.
  - The rows arrive already split into fields. `JSON.parse` is a parameter that may fail.
  - The promise's resolve and reject are the `Result` returned.
- The storage `try`/`catch` paths are not modelled. `getAssets` failing on unparsable JSON, `localStorage` quota errors and the cross-context `storage` event listener are left out; the stored list is a field of the class. `exportToCSV` is left out: it builds a download through the DOM.
- `JsAssets.NumberOr`: a non-empty string stored in a numeric field reads as its fallback: 0, or 1 for `quantity`. JavaScript would coerce it in `*` (`"3"` counts as 3, js/calculations.js:47) or concatenate it in `+`; the web app's forms store numbers.
- `JsCategories`: the registry keeps its declaration order, which is the order `Object.keys` and `Object.entries` visit string keys.
- `JsCalculations.ProjectNetWorth` takes `months` as a `nat`. A negative count makes `Array(months + 1)` throw, and that path is not modelled.
- `JsStorage.StorageService.SaveAsset` does not prove that `generateId()` is fresh. The model takes the generated id as a parameter, and uniqueness is stated only for a fresh one (`JsStorage.SaveKeepsIdsUnique`).
- `JsStorage.MidpointFallback`: the midpoint branch is reachable only for a category without a default. Every registry category declares one (`JsCategories.EveryRateHasDefault`).
