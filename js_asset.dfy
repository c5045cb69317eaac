/** The web app's stored asset record and how its numeric fields are read. */
module JsAssets {
  import opened Wrappers
  import opened JsCategories

  /** An asset as stored: timestamps are ISO-8601 strings. */
  datatype JsAsset = JsAsset(
    id: string,
    category: string,
    name: string,
    icon: string,
    color: string,
    values: map<string, JsValue>,
    createdAt: string,
    updatedAt: string)

  /** A value JavaScript treats as false: `undefined`, 0 and the empty string. */
  predicate Falsy(v: Option<JsValue>) {
    v.None? || v == Some(JsNumber(0.0)) || v == Some(JsText(""))
  }

  /** `values[key]`, `undefined` when absent. */
  function Get(values: map<string, JsValue>, key: string): Option<JsValue> {
    if key in values then Some(values[key]) else None
  }

  /**
   * `values[key] || fallback` where the result is used as a number: a
   * number that is not 0 is itself, anything falsy gives `fallback`.
   */
  function NumberOr(values: map<string, JsValue>, key: string, fallback: real): (r: real)
    ensures Falsy(Get(values, key)) ==> r == fallback
    ensures Get(values, key).Some? && Get(values, key).value.JsNumber? && !Falsy(Get(values, key))
            ==> r == values[key].number
  {
    if key in values && values[key].JsNumber? && values[key].number != 0.0 then values[key].number else fallback
  }
}
