/**
 * The editable form of an asset: a new draft is seeded with every field's
 * default, and belongings additionally get the suggested value of the
 * selected kind of item.
 */
module Drafts {
  import opened Wrappers
  import opened AssetCategories
  import opened FieldValues
  import opened FieldDefinitions
  import opened CategoryDefinitions
  import opened Assets

  datatype AssetDraft = AssetDraft(
    id: string,
    category: AssetCategory,
    values: map<string, FieldValue>,
    createdAt: Date,
    updatedAt: Date)

  /** `name`: the display name of the draft's category. */
  function Name(d: AssetDraft): string {
    Definition(d.category).name
  }

  /** `init(asset:)`: every stored part of the asset except its name. */
  function FromAsset(a: Asset): AssetDraft {
    AssetDraft(a.id, a.category, a.values, a.createdAt, a.updatedAt)
  }

  /** `asAsset(updatedAt:)`: the asset the draft saves as, named after its category. */
  function AsAsset(d: AssetDraft, updatedAt: Date): Asset {
    Asset(d.id, d.category, Name(d), d.values, d.createdAt, updatedAt)
  }

  /** The `defaults[field.id] = field.defaultValue` loop over `fields`: a later field with the same id wins. */
  function FieldDefaults(fields: seq<AssetFieldDefinition>, tableBuiltAt: Date): map<string, FieldValue> {
    if fields == [] then map[]
    else
      var f := fields[|fields| - 1];
      FieldDefaults(fields[..|fields| - 1], tableBuiltAt)[f.id := ResolveDefault(f.defaultValue, tableBuiltAt)]
  }

  /** The suggested value of the option `defaults` selects under `assetType`, if that option has one. */
  function Suggestion(fields: seq<AssetFieldDefinition>, defaults: map<string, FieldValue>): Option<real> {
    if "assetType" in defaults && defaults["assetType"].Text? then
      match FirstFieldWithId(fields, "assetType")
      case None => None
      case Some(f) =>
        match FirstOptionWithValue(f.options, defaults["assetType"].text)
        case None => None
        case Some(o) => o.defaultNumber
    else None
  }

  /** The belongings patch: `assetValue` takes the selected option's suggested value. */
  function Patched(c: AssetCategory, fields: seq<AssetFieldDefinition>, defaults: map<string, FieldValue>): map<string, FieldValue> {
    if c == PersonalAssets && Suggestion(fields, defaults).Some? then
      defaults["assetValue" := Number(Suggestion(fields, defaults).value)]
    else defaults
  }

  /** What `defaultValues(for:)` returns for category `c`. */
  function DefaultValuesOf(c: AssetCategory, tableBuiltAt: Date): map<string, FieldValue> {
    Patched(c, Definition(c).fields, FieldDefaults(Definition(c).fields, tableBuiltAt))
  }

  /** `defaultValues(for:)`: one entry per declared field, then the belongings patch. */
  method DefaultValues(category: AssetCategory, tableBuiltAt: Date) returns (defaults: map<string, FieldValue>)
    ensures defaults == DefaultValuesOf(category, tableBuiltAt)
  {
    defaults := SeedFields(category, Definition(category).fields, tableBuiltAt);
  }

  /** The body of `defaultValues(for:)` over the category's field list `fields`. */
  method SeedFields(category: AssetCategory, fields: seq<AssetFieldDefinition>, tableBuiltAt: Date)
    returns (defaults: map<string, FieldValue>)
    ensures defaults == Patched(category, fields, FieldDefaults(fields, tableBuiltAt))
  {
    defaults := map[];
    var i := 0;
    while i < |fields|
      invariant 0 <= i <= |fields|
      invariant defaults == FieldDefaults(fields[..i], tableBuiltAt)
    {
      assert fields[..i + 1][..i] == fields[..i];
      defaults := defaults[fields[i].id := ResolveDefault(fields[i].defaultValue, tableBuiltAt)];
      i := i + 1;
    }
    assert fields[..i] == fields;
    if category == PersonalAssets && "assetType" in defaults && defaults["assetType"].Text? {
      var selected := defaults["assetType"].text;
      var field := FirstFieldWithId(fields, "assetType");
      if field.Some? {
        var option := FirstOptionWithValue(field.value.options, selected);
        if option.Some? && option.value.defaultNumber.Some? {
          defaults := defaults["assetValue" := Number(option.value.defaultNumber.value)];
        }
      }
    }
  }

  /** `new(category:)`, with the fresh id, the current instant and the table's build instant passed in. */
  method New(category: AssetCategory, id: string, now: Date, tableBuiltAt: Date) returns (d: AssetDraft)
    ensures d.category == category && d.id == id
    ensures d.createdAt == now && d.updatedAt == now
    ensures d.values == DefaultValuesOf(category, tableBuiltAt)
  {
    var defaults := DefaultValues(category, tableBuiltAt);
    d := AssetDraft(id, category, defaults, now, now);
  }

  /** The fold has an entry for exactly the ids of the fields. */
  lemma {:induction false} FieldDefaultsKeys(fields: seq<AssetFieldDefinition>, tableBuiltAt: Date)
    ensures forall k :: k in FieldDefaults(fields, tableBuiltAt) <==> k in Ids(fields)
  {
    if fields != [] {
      var init := fields[..|fields| - 1];
      FieldDefaultsKeys(init, tableBuiltAt);
      assert Ids(fields) == Ids(init) + [fields[|fields| - 1].id];
    }
  }

  /** With unique ids, each field's entry is its own resolved default. */
  lemma {:induction false} FieldDefaultsValues(fields: seq<AssetFieldDefinition>, tableBuiltAt: Date)
    requires UniqueIds(fields)
    ensures forall i :: 0 <= i < |fields| ==>
              fields[i].id in FieldDefaults(fields, tableBuiltAt)
              && FieldDefaults(fields, tableBuiltAt)[fields[i].id] == ResolveDefault(fields[i].defaultValue, tableBuiltAt)
  {
    if fields != [] {
      var init := fields[..|fields| - 1];
      assert UniqueIds(init);
      FieldDefaultsValues(init, tableBuiltAt);
    }
  }

  /** In the belongings list the patched field `assetValue` is declared, fourth. */
  lemma BelongingsFieldIds()
    ensures Ids(Definition(PersonalAssets).fields) == ["assetType", "assetName", "quantity", "assetValue"]
  {
    assert Definition(PersonalAssets) == PersonalAssetsDefinition();
  }

  /** Over a list with unique ids, the seeded map has an entry for exactly the ids. */
  lemma PatchedKeys(c: AssetCategory, fields: seq<AssetFieldDefinition>, tableBuiltAt: Date)
    requires c == PersonalAssets ==> "assetValue" in Ids(fields)
    ensures forall k :: k in Patched(c, fields, FieldDefaults(fields, tableBuiltAt)) <==> k in Ids(fields)
  {
    FieldDefaultsKeys(fields, tableBuiltAt);
  }

  /** The patch rewrites at most `assetValue`: every other field holds its own default. */
  lemma PatchedValues(c: AssetCategory, fields: seq<AssetFieldDefinition>, tableBuiltAt: Date)
    requires UniqueIds(fields)
    ensures forall i :: 0 <= i < |fields| && !(c == PersonalAssets && fields[i].id == "assetValue") ==>
              && fields[i].id in Patched(c, fields, FieldDefaults(fields, tableBuiltAt))
              && Patched(c, fields, FieldDefaults(fields, tableBuiltAt))[fields[i].id]
              == ResolveDefault(fields[i].defaultValue, tableBuiltAt)
  {
    FieldDefaultsValues(fields, tableBuiltAt);
  }

  /** A seeded draft has an entry for exactly the category's field ids. */
  lemma DefaultValuesKeys(c: AssetCategory, tableBuiltAt: Date)
    ensures forall k :: k in DefaultValuesOf(c, tableBuiltAt) <==> k in Ids(Definition(c).fields)
  {
    PatchFieldDeclared(c);
    PatchedKeys(c, Definition(c).fields, tableBuiltAt);
  }

  /** The field the belongings patch writes is one the category declares. */
  lemma PatchFieldDeclared(c: AssetCategory)
    ensures c == PersonalAssets ==> "assetValue" in Ids(Definition(c).fields)
  {
    if c == PersonalAssets {
      BelongingsFieldIds();
    }
  }

  /** Each entry of a seeded draft holds its field's default, except belongings' `assetValue`. */
  lemma DefaultValuesAgree(c: AssetCategory, tableBuiltAt: Date)
    ensures forall i :: 0 <= i < |Definition(c).fields| && !(c == PersonalAssets && Definition(c).fields[i].id == "assetValue") ==>
              && Definition(c).fields[i].id in DefaultValuesOf(c, tableBuiltAt)
              && DefaultValuesOf(c, tableBuiltAt)[Definition(c).fields[i].id]
              == ResolveDefault(Definition(c).fields[i].defaultValue, tableBuiltAt)
  {
    DefinitionWellFormed(c);
    PatchedValues(c, Definition(c).fields, tableBuiltAt);
  }

  /** Belongings start as a bike, valued at the bike's suggested 100000. */
  lemma BelongingsSeed(tableBuiltAt: Date)
    ensures "assetType" in DefaultValuesOf(PersonalAssets, tableBuiltAt)
    ensures DefaultValuesOf(PersonalAssets, tableBuiltAt)["assetType"] == Text("bike")
    ensures DefaultValuesOf(PersonalAssets, tableBuiltAt)["assetValue"] == Number(100000.0)
  {
    var fields := Definition(PersonalAssets).fields;
    DefinitionWellFormed(PersonalAssets);
    FieldDefaultsValues(fields, tableBuiltAt);
    var defaults := FieldDefaults(fields, tableBuiltAt);
    assert fields[0].id == "assetType";
    assert defaults["assetType"] == Text("bike");
    assert FirstFieldWithId(fields, "assetType") == Some(fields[0]);
    assert FirstOptionWithValue(PersonalAssetOptions, "bike") == Some(PersonalAssetOptions[0]);
  }

  /** Other categories are seeded with the plain defaults. */
  lemma OnlyBelongingsPatched(c: AssetCategory, tableBuiltAt: Date)
    requires c != PersonalAssets
    ensures DefaultValuesOf(c, tableBuiltAt) == FieldDefaults(Definition(c).fields, tableBuiltAt)
  {
  }

  /** Saving a draft opened from an asset keeps id, category, values and creation time, stamps the new time and renames it after its category. */
  lemma AssetRoundTrip(a: Asset, t: Date)
    ensures AsAsset(FromAsset(a), t) == a.(name := Definition(a.category).name, updatedAt := t)
    ensures AsAsset(FromAsset(a), t).name == Name(FromAsset(a))
  {
  }

  /** Reopening a saved draft gives the draft back, with the save time. */
  lemma DraftRoundTrip(d: AssetDraft, t: Date)
    ensures FromAsset(AsAsset(d, t)) == d.(updatedAt := t)
  {
  }
}
