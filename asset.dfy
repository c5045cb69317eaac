/** The asset record and its defensive field readers. */
module Assets {
  import opened Wrappers
  import opened AssetCategories
  import opened FieldValues
  import opened NumberParsing

  datatype Asset = Asset(
    id: string,
    category: AssetCategory,
    name: string,
    values: map<string, FieldValue>,
    createdAt: Date,
    updatedAt: Date)

  /**
   * `numberValue`: a stored number, or a stored text that reads as a number;
   * anything else (no entry, a date, unreadable text) reads as 0.
   */
  function NumberValue(a: Asset, key: string): real {
    if key in a.values && a.values[key].Number? then a.values[key].number
    else if key in a.values && a.values[key].Text? && ParseNumber(a.values[key].text).Some? then
      ParseNumber(a.values[key].text).value
    else 0.0
  }

  /**
   * `textValue`: stored text unchanged, a stored number rendered by
   * `describe` (Swift's `String(Double)`), nothing for a date or no entry.
   */
  function TextValue(a: Asset, key: string, describe: real -> string): Option<string> {
    if key in a.values && a.values[key].Text? then Some(a.values[key].text)
    else if key in a.values && a.values[key].Number? then Some(describe(a.values[key].number))
    else None
  }

  /** `dateValue`: only a stored date. */
  function DateValue(a: Asset, key: string): Option<Date> {
    if key in a.values && a.values[key].Date? then Some(a.values[key].date) else None
  }

  /** The three outcomes of `numberValue`, each tied to what is stored under the key. */
  lemma NumberValueCases(a: Asset, key: string)
    ensures key in a.values && a.values[key].Number? ==> NumberValue(a, key) == a.values[key].number
    ensures key in a.values && a.values[key].Text? && ParseNumber(a.values[key].text).Some? ==>
              NumberValue(a, key) == ParseNumber(a.values[key].text).value
    ensures (|| key !in a.values
             || a.values[key].Date?
             || (a.values[key].Text? && ParseNumber(a.values[key].text).None?))
            ==> NumberValue(a, key) == 0.0
  {
  }

  /** Text made of digits reads as the decimal number it spells. */
  lemma NumberValueOfDigitText(a: Asset, key: string)
    requires key in a.values && a.values[key].Text?
    requires a.values[key].text != [] && AllDigits(a.values[key].text)
    ensures NumberValue(a, key) == DigitsValue(a.values[key].text) as real
  {
    ParseDigits(a.values[key].text);
  }

  /**
   * Storing a number under one key is read back by `numberValue`, and
   * leaves the reading of every other key as it was.
   */
  lemma NumberValueAfterStore(a: Asset, key: string, x: real, other: string)
    ensures NumberValue(a.(values := a.values[key := Number(x)]), key) == x
    ensures other != key ==>
      NumberValue(a.(values := a.values[key := Number(x)]), other) == NumberValue(a, other)
  {
  }

  /** `textValue` is absent exactly for a date or a missing key, and returns text unchanged. */
  lemma TextValueCases(a: Asset, key: string, describe: real -> string)
    ensures TextValue(a, key, describe).None? <==> key !in a.values || a.values[key].Date?
    ensures key in a.values && a.values[key].Text? ==> TextValue(a, key, describe) == Some(a.values[key].text)
    ensures key in a.values && a.values[key].Number? ==>
              TextValue(a, key, describe) == Some(describe(a.values[key].number))
  {
  }

  /** `dateValue` is present exactly for a stored date, and then it is that date. */
  lemma DateValueCases(a: Asset, key: string)
    ensures DateValue(a, key).Some? <==> key in a.values && a.values[key].Date?
    ensures DateValue(a, key).Some? ==> DateValue(a, key).value == a.values[key].date
  {
  }
}
