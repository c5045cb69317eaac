/** The input slots a category declares, with their defaults. */
module FieldDefinitions {
  import opened Wrappers
  import opened FieldValues

  datatype AssetFieldKind = SliderKind | NumberKind | TextKind | SelectKind | DateKind

  datatype FieldFormat = Currency | Plain

  datatype AssetFieldOption = AssetFieldOption(value: string, defaultNumber: Option<real>)

  /**
   * A field's default: a fixed value, or `.date(.now)` evaluated when the
   * definition table is first built.
   */
  datatype FieldDefault = Fixed(value: FieldValue) | TableBuiltAt

  datatype AssetFieldDefinition = AssetFieldDefinition(
    id: string,
    kind: AssetFieldKind,
    min: Option<real> := None,
    max: Option<real> := None,
    step: Option<real> := None,
    defaultValue: FieldDefault,
    format: FieldFormat := Plain,
    options: seq<AssetFieldOption> := [])

  /** The value a default stands for, given the instant the table was built. */
  function ResolveDefault(d: FieldDefault, tableBuiltAt: Date): (v: FieldValue)
    ensures d.TableBuiltAt? ==> v == Date(tableBuiltAt)
    ensures d.Fixed? ==> v == d.value
  {
    match d
    case Fixed(v) => v
    case TableBuiltAt => Date(tableBuiltAt)
  }

  /** No two fields of the list share an id. */
  predicate UniqueIds(fields: seq<AssetFieldDefinition>) {
    forall i, j :: 0 <= i < j < |fields| ==> fields[i].id != fields[j].id
  }

  /** The ids of a field list, in order. */
  function Ids(fields: seq<AssetFieldDefinition>): (ids: seq<string>)
    ensures |ids| == |fields|
    ensures forall i :: 0 <= i < |fields| ==> ids[i] == fields[i].id
  {
    if fields == [] then [] else [fields[0].id] + Ids(fields[1..])
  }

  /** `first(where:)` over fields: the first field with the given id. */
  function FirstFieldWithId(fields: seq<AssetFieldDefinition>, id: string): (r: Option<AssetFieldDefinition>)
    ensures r.Some? ==> r.value in fields && r.value.id == id
    ensures r.Some? ==> exists i :: 0 <= i < |fields| && fields[i] == r.value && forall j :: 0 <= j < i ==> fields[j].id != id
    ensures r.None? <==> forall i :: 0 <= i < |fields| ==> fields[i].id != id
  {
    if fields == [] then None
    else if fields[0].id == id then Some(fields[0])
    else FirstFieldWithId(fields[1..], id)
  }

  /** `first(where:)` over options: the first option with the given value. */
  function FirstOptionWithValue(options: seq<AssetFieldOption>, value: string): (r: Option<AssetFieldOption>)
    ensures r.Some? ==> r.value in options && r.value.value == value
    ensures r.Some? ==> exists i :: 0 <= i < |options| && options[i] == r.value && forall j :: 0 <= j < i ==> options[j].value != value
    ensures r.None? <==> forall i :: 0 <= i < |options| ==> options[i].value != value
  {
    if options == [] then None
    else if options[0].value == value then Some(options[0])
    else FirstOptionWithValue(options[1..], value)
  }
}
