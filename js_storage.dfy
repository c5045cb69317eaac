/**
 * The web app's storage service: the asset list and the last-modified
 * stamp kept in the browser's local storage, with save, delete,
 * newest-wins merge, the default growth rates and the checks CSV import
 * makes on rows already split into fields. The current time, date
 * parsing, JSON parsing and id generation are parameters.
 */
module JsStorage {
  import opened Wrappers
  import opened Sequences
  import opened JsCategories
  import opened JsAssets

  /** No two assets of the list share an id. */
  predicate UniqueIds(s: seq<JsAsset>) {
    forall i, j :: 0 <= i < j < |s| ==> s[i].id != s[j].id
  }

  /** Whether some asset of `s` has id `id`. */
  predicate HasId(s: seq<JsAsset>, id: string) {
    exists i :: 0 <= i < |s| && s[i].id == id
  }

  /** `findIndex(a => a.id === id)`, with `None` for -1. */
  function IndexOfId(s: seq<JsAsset>, id: string): (r: Option<nat>)
    ensures r.Some? ==> r.value < |s| && s[r.value].id == id && forall j :: 0 <= j < r.value ==> s[j].id != id
    ensures r.None? <==> !HasId(s, id)
  {
    if s == [] then None
    else if s[0].id == id then Some(0)
    else
      match IndexOfId(s[1..], id)
      case None =>
        assert forall j :: 1 <= j < |s| ==> s[j] == s[1..][j - 1];
        None
      case Some(i) => Some(i + 1)
  }

  /**
   * `new Date(x) > new Date(y)`, where `instant` is what `new Date` makes
   * of an ISO string and `None` an invalid date: an invalid date is never
   * later than anything, and nothing is later than it.
   */
  predicate Later(x: string, y: string, instant: string -> Option<real>) {
    instant(x).Some? && instant(y).Some? && instant(x).value > instant(y).value
  }

  // mergeAssets

  /** The `forEach` body of `mergeAssets` for one incoming asset. */
  function MergeOne(m: seq<JsAsset>, a: JsAsset, instant: string -> Option<real>): seq<JsAsset> {
    match IndexOfId(m, a.id)
    case Some(i) => if Later(a.updatedAt, m[i].updatedAt, instant) then m[i := a] else m
    case None => m + [a]
  }

  /** `mergeAssets`: the `forEach` over `incoming`, in order, starting from the stored list. */
  function Merged(current: seq<JsAsset>, incoming: seq<JsAsset>, instant: string -> Option<real>): seq<JsAsset> {
    if incoming == [] then current
    else MergeOne(Merged(current, incoming[..|incoming| - 1], instant), incoming[|incoming| - 1], instant)
  }

  /** A present id is replaced, in place, exactly when the incoming asset's update is strictly later. */
  lemma MergeOneExisting(m: seq<JsAsset>, a: JsAsset, i: nat, instant: string -> Option<real>)
    requires i < |m| && m[i].id == a.id
    requires forall j :: 0 <= j < i ==> m[j].id != a.id
    ensures MergeOne(m, a, instant) == if Later(a.updatedAt, m[i].updatedAt, instant) then m[i := a] else m
  {
    var r := IndexOfId(m, a.id);
    if r.value < i {
    } else if r.value > i {
    }
  }

  /** An unseen id is appended. */
  lemma MergeOneNew(m: seq<JsAsset>, a: JsAsset, instant: string -> Option<real>)
    requires !HasId(m, a.id)
    ensures MergeOne(m, a, instant) == m + [a]
  {
  }

  /**
   * One merge step never removes or moves an asset: every position keeps
   * its id and is either unchanged or now holds `a`, strictly later; what
   * is added is `a`, and `a`'s id is present afterwards.
   */
  lemma MergeOneKeeps(m: seq<JsAsset>, a: JsAsset, instant: string -> Option<real>)
    ensures |MergeOne(m, a, instant)| >= |m|
    ensures forall i :: 0 <= i < |m| ==> MergeOne(m, a, instant)[i].id == m[i].id
    ensures forall i :: 0 <= i < |m| ==>
              MergeOne(m, a, instant)[i] == m[i] ||
              (MergeOne(m, a, instant)[i] == a && Later(a.updatedAt, m[i].updatedAt, instant))
    ensures forall i :: |m| <= i < |MergeOne(m, a, instant)| ==> MergeOne(m, a, instant)[i] == a
    ensures HasId(MergeOne(m, a, instant), a.id)
    ensures UniqueIds(m) ==> UniqueIds(MergeOne(m, a, instant))
  {
    match IndexOfId(m, a.id)
    case Some(i) =>
      assert MergeOne(m, a, instant)[i].id == a.id;
    case None =>
      assert MergeOne(m, a, instant)[|m|] == a;
  }

  /**
   * Merging removes and reorders nothing: every stored position keeps its
   * id and either keeps its asset or holds an incoming asset updated
   * strictly later than the stored one; every position added holds an
   * incoming asset.
   */
  lemma {:induction false} MergedKeepsCurrent(current: seq<JsAsset>, incoming: seq<JsAsset>, instant: string -> Option<real>)
    ensures |Merged(current, incoming, instant)| >= |current|
    ensures forall i :: 0 <= i < |current| ==> Merged(current, incoming, instant)[i].id == current[i].id
    ensures forall i :: 0 <= i < |current| ==>
              Merged(current, incoming, instant)[i] == current[i] ||
              (Merged(current, incoming, instant)[i] in incoming &&
               Later(Merged(current, incoming, instant)[i].updatedAt, current[i].updatedAt, instant))
    ensures forall i :: |current| <= i < |Merged(current, incoming, instant)| ==> Merged(current, incoming, instant)[i] in incoming
  {
    if incoming != [] {
      var init := incoming[..|incoming| - 1];
      var last := incoming[|incoming| - 1];
      var m := Merged(current, init, instant);
      MergedKeepsCurrent(current, init, instant);
      MergeOneKeeps(m, last, instant);
      assert forall x :: x in init ==> x in incoming;
      var r := MergeOne(m, last, instant);
      forall i | |current| <= i < |r|
        ensures r[i] in incoming
      {
        if i < |m| {
          assert r[i] == m[i] || r[i] == last;
        }
      }
    }
  }

  /** After a merge every incoming id is present, and unique ids stay unique. */
  lemma {:induction false} MergedIds(current: seq<JsAsset>, incoming: seq<JsAsset>, instant: string -> Option<real>)
    ensures forall k :: 0 <= k < |incoming| ==> HasId(Merged(current, incoming, instant), incoming[k].id)
    ensures UniqueIds(current) ==> UniqueIds(Merged(current, incoming, instant))
  {
    if incoming != [] {
      var init := incoming[..|incoming| - 1];
      var last := incoming[|incoming| - 1];
      var m := Merged(current, init, instant);
      MergedIds(current, init, instant);
      MergeOneKeeps(m, last, instant);
      forall k | 0 <= k < |incoming|
        ensures HasId(MergeOne(m, last, instant), incoming[k].id)
      {
        if k < |init| {
          assert incoming[k] == init[k];
          var j :| 0 <= j < |m| && m[j].id == init[k].id;
          assert MergeOne(m, last, instant)[j].id == init[k].id;
        }
      }
    }
  }

  /** A merge whose incoming assets are all unseen and distinct appends them in input order. */
  lemma {:induction false} MergedUnseen(current: seq<JsAsset>, incoming: seq<JsAsset>, instant: string -> Option<real>)
    requires forall k :: 0 <= k < |incoming| ==> !HasId(current, incoming[k].id)
    requires UniqueIds(incoming)
    ensures Merged(current, incoming, instant) == current + incoming
  {
    if incoming != [] {
      var init := incoming[..|incoming| - 1];
      var last := incoming[|incoming| - 1];
      assert UniqueIds(init);
      MergedUnseen(current, init, instant);
      assert forall j :: 0 <= j < |init| ==> init[j] == incoming[j];
      assert !HasId(current + init, last.id);
      MergeOneNew(current + init, last, instant);
      assert current + init + [last] == current + incoming;
    }
  }

  // saveAsset

  /** `asset` with `newId` as its id when its own id is empty (`!asset.id`). */
  function Stamped(asset: JsAsset, newId: string): (r: JsAsset)
    ensures r.id == (if asset.id == "" then newId else asset.id)
    ensures r.(id := asset.id) == asset
  {
    if asset.id == "" then asset.(id := newId) else asset
  }

  /** The list `saveAsset` stores: the first asset with the id replaced, or the stamped asset appended. */
  function SavedList(s: seq<JsAsset>, asset: JsAsset, newId: string): seq<JsAsset> {
    match IndexOfId(s, asset.id)
    case Some(i) => s[i := asset]
    case None => s + [Stamped(asset, newId)]
  }

  /** The asset `saveAsset` returns: as given when its id is stored, else stamped. */
  function SavedAsset(s: seq<JsAsset>, asset: JsAsset, newId: string): JsAsset {
    if HasId(s, asset.id) then asset else Stamped(asset, newId)
  }

  /** An id already stored: only its first occurrence is replaced, and nothing moves. */
  lemma SaveExisting(s: seq<JsAsset>, asset: JsAsset, newId: string, i: nat)
    requires i < |s| && s[i].id == asset.id
    requires forall j :: 0 <= j < i ==> s[j].id != asset.id
    ensures SavedList(s, asset, newId) == s[i := asset]
    ensures |SavedList(s, asset, newId)| == |s|
    ensures forall j :: 0 <= j < |s| && j != i ==> SavedList(s, asset, newId)[j] == s[j]
    ensures SavedAsset(s, asset, newId) == asset
  {
    var r := IndexOfId(s, asset.id);
    if r.value < i {
    } else if r.value > i {
    }
  }

  /** A new asset is appended, with an id whenever `newId` is not empty, and is otherwise as given. */
  lemma SaveNew(s: seq<JsAsset>, asset: JsAsset, newId: string)
    requires !HasId(s, asset.id)
    ensures SavedList(s, asset, newId) == s + [SavedAsset(s, asset, newId)]
    ensures newId != "" ==> SavedAsset(s, asset, newId).id != ""
    ensures SavedAsset(s, asset, newId).(id := asset.id) == asset
  {
  }

  /** Saving into a list of unique ids keeps them unique, and the saved asset is then stored. */
  lemma SaveKeepsIdsUnique(s: seq<JsAsset>, asset: JsAsset, newId: string)
    requires UniqueIds(s) && !HasId(s, newId)
    ensures UniqueIds(SavedList(s, asset, newId))
    ensures SavedAsset(s, asset, newId) in SavedList(s, asset, newId)
  {
    match IndexOfId(s, asset.id)
    case Some(i) =>
      assert SavedList(s, asset, newId)[i] == asset;
    case None =>
      var r := SavedList(s, asset, newId);
      assert r[|s|] == Stamped(asset, newId);
      assert forall j :: 0 <= j < |s| ==> r[j] == s[j];
  }

  // deleteAsset

  /** `filter(a => a.id !== id)`: the assets with other ids, in their order. */
  function Without(s: seq<JsAsset>, id: string): seq<JsAsset> {
    if s == [] then []
    else Without(s[..|s| - 1], id) + (if s[|s| - 1].id != id then [s[|s| - 1]] else [])
  }

  /**
   * The filter keeps exactly the assets with another id, and it is shorter
   * than the list exactly when some asset has the id.
   */
  lemma {:induction false} WithoutMeaning(s: seq<JsAsset>, id: string)
    ensures forall a :: a in Without(s, id) <==> a in s && a.id != id
    ensures |Without(s, id)| <= |s|
    ensures |Without(s, id)| < |s| <==> HasId(s, id)
    ensures !HasId(s, id) ==> Without(s, id) == s
  {
    if s != [] {
      var init := s[..|s| - 1];
      var last := s[|s| - 1];
      WithoutMeaning(init, id);
      assert s == init + [last];
      assert HasId(s, id) <==> HasId(init, id) || last.id == id by {
        if HasId(s, id) {
          var i :| 0 <= i < |s| && s[i].id == id;
          if i < |init| {
            assert init[i] == s[i];
          }
        }
        if HasId(init, id) {
          var i :| 0 <= i < |init| && init[i].id == id;
          assert s[i] == init[i];
        }
      }
    }
  }

  /** After a delete no asset has the id. */
  lemma WithoutRemovesId(s: seq<JsAsset>, id: string)
    ensures !HasId(Without(s, id), id)
  {
    WithoutMeaning(s, id);
  }

  // getDefaultGrowthRates

  /**
   * The rate `getDefaultGrowthRates` records for a category: its default
   * when given, else the midpoint of `min` and `max || min` when `min` is,
   * else 0; `None` when the category has no growth rate at all.
   */
  function DefaultRate(c: JsCategory): Option<real> {
    match c.growthRate
    case None => None
    case Some(g) =>
      if g.default.Some? then Some(g.default.value)
      else if g.min.Some? then
        Some((g.min.value + (if g.max.Some? && g.max.value != 0.0 then g.max.value else g.min.value)) / 2.0)
      else Some(0.0)
  }

  /** The `rates` object after the loop over `entries`; a later entry with the same key overwrites. */
  function RatesOf(entries: seq<JsCategory>): map<string, real> {
    if entries == [] then map[]
    else
      var last := entries[|entries| - 1];
      var rates := RatesOf(entries[..|entries| - 1]);
      match DefaultRate(last)
      case None => rates
      case Some(x) => rates[last.key := x]
  }

  /** Some entry under `key` has a growth rate. */
  predicate Rated(entries: seq<JsCategory>, key: string) {
    exists i :: 0 <= i < |entries| && entries[i].key == key && DefaultRate(entries[i]).Some?
  }

  /** A key gets a rate exactly when some entry under it has a growth rate. */
  lemma {:induction false} RatesOfKeys(entries: seq<JsCategory>, key: string)
    ensures key in RatesOf(entries) <==> Rated(entries, key)
  {
    if entries != [] {
      var init := entries[..|entries| - 1];
      var last := entries[|entries| - 1];
      RatesOfKeys(init, key);
      if Rated(init, key) {
        var i :| 0 <= i < |init| && init[i].key == key && DefaultRate(init[i]).Some?;
        assert entries[i] == init[i];
      }
      if Rated(entries, key) && !(last.key == key && DefaultRate(last).Some?) {
        var i :| 0 <= i < |entries| && entries[i].key == key && DefaultRate(entries[i]).Some?;
        assert i < |init| && init[i] == entries[i];
      }
    }
  }

  /** With distinct keys, the rate under an entry's key is that entry's rate. */
  lemma {:induction false} RatesOfAt(entries: seq<JsCategory>, i: nat)
    requires Distinct(Keys(entries))
    requires i < |entries| && DefaultRate(entries[i]).Some?
    ensures entries[i].key in RatesOf(entries)
    ensures RatesOf(entries)[entries[i].key] == DefaultRate(entries[i]).value
  {
    var init := entries[..|entries| - 1];
    var last := entries[|entries| - 1];
    if i < |init| {
      assert Keys(init) == Keys(entries)[..|init|];
      assert Distinct(Keys(init));
      assert init[i] == entries[i];
      RatesOfAt(init, i);
      assert Keys(entries)[i] != Keys(entries)[|entries| - 1];
    }
  }

  /**
   * The default growth rates of the registry: every one of the fourteen
   * keys, and no other, gets its category's declared default.
   */
  lemma RegistryRates()
    ensures forall key :: key in RatesOf(Registry) <==> key in Keys(Registry)
    ensures forall i :: 0 <= i < |Registry| ==>
              RatesOf(Registry)[Registry[i].key] == Registry[i].growthRate.value.default.value
  {
    KeysDistinct();
    EveryRateHasDefault();
    forall i | 0 <= i < |Registry|
      ensures Registry[i].key in RatesOf(Registry)
      ensures RatesOf(Registry)[Registry[i].key] == Registry[i].growthRate.value.default.value
    {
      RatesOfAt(Registry, i);
    }
    forall key
      ensures key in RatesOf(Registry) <==> key in Keys(Registry)
    {
      RatesOfKeys(Registry, key);
      if key in Keys(Registry) {
        var i :| 0 <= i < |Registry| && Keys(Registry)[i] == key;
        assert Registry[i].key == key;
      }
    }
  }

  /** `getDefaultGrowthRates`: the loop over the registry entries. */
  method GetDefaultGrowthRates() returns (rates: map<string, real>)
    ensures rates == RatesOf(Registry)
  {
    rates := FillRates(Registry);
  }

  /** The loop of `getDefaultGrowthRates` over `entries`, in order. */
  method FillRates(entries: seq<JsCategory>) returns (rates: map<string, real>)
    ensures rates == RatesOf(entries)
  {
    rates := map[];
    var k := 0;
    while k < |entries|
      invariant 0 <= k <= |entries|
      invariant rates == RatesOf(entries[..k])
    {
      assert entries[..k + 1][..k] == entries[..k];
      var category := entries[k];
      if category.growthRate.Some? && category.growthRate.value.default.Some? {
        rates := rates[category.key := category.growthRate.value.default.value];
      } else if category.growthRate.Some? {
        var g := category.growthRate.value;
        rates := rates[category.key :=
          if g.min.Some? then (g.min.value + (if g.max.Some? && g.max.value != 0.0 then g.max.value else g.min.value)) / 2.0
          else 0.0];
      }
      k := k + 1;
    }
    assert entries[..k] == entries;
  }

  /** A rate given only as a range falls back to the midpoint, and a missing or zero maximum to the minimum. */
  lemma MidpointFallback(key: string, lo: real, hi: Option<real>)
    ensures DefaultRate(JsCategory(key, "", [], Some(JsGrowthRate(Some(lo), hi, None))))
            == Some(if hi.Some? && hi.value != 0.0 then (lo + hi.value) / 2.0 else lo)
    ensures DefaultRate(JsCategory(key, "", [], Some(JsGrowthRate(None, hi, None)))) == Some(0.0)
  {
  }

  // importFromCSV

  /** The headers the first row must start with, in order. */
  const ExpectedHeaders: seq<string> := ["id", "category", "name", "icon", "color", "values", "createdAt", "updatedAt"]

  /** Why an import is rejected: no row at all (reading `headers[i]` of `undefined`), or the wrong headers. */
  datatype ImportError = MissingHeader | InvalidFormat

  /** White space and line terminators as `String.prototype.trim` removes them. */
  predicate IsJsSpace(ch: char) {
    ch in {' ', '\t', '\n', '\r', '\U{000B}', '\U{000C}', '\U{00A0}', '\U{1680}', '\U{2000}', '\U{2001}',
           '\U{2002}', '\U{2003}', '\U{2004}', '\U{2005}', '\U{2006}', '\U{2007}', '\U{2008}', '\U{2009}',
           '\U{200A}', '\U{2028}', '\U{2029}', '\U{202F}', '\U{205F}', '\U{3000}', '\U{FEFF}'}
  }

  /** `!name || name.trim() === ""`. */
  predicate Blank(name: string) {
    forall i :: 0 <= i < |name| ==> IsJsSpace(name[i])
  }

  /** `expectedHeaders.every((h, i) => h === headers[i])`: the first eight fields are the headers; more may follow. */
  predicate HeaderMatches(headers: seq<string>) {
    |headers| >= |ExpectedHeaders| && headers[..|ExpectedHeaders|] == ExpectedHeaders
  }

  /** The line filter `fields.length >= 8`, as a reader keeping wide rows. */
  function WideReader(): (seq<string>, nat) -> Option<seq<string>> {
    (row: seq<string>, i: nat) => if |row| >= 8 then Some(row) else None
  }

  /** The rows the line parser keeps: those with at least eight fields, in order. */
  function WideRows(rows: seq<seq<string>>): seq<seq<string>> {
    KeptBy(rows, WideReader())
  }

  /**
   * What the `map` callback makes of a data row under headers `width`
   * fields wide; `freshId` stands for `generateId()`, `now` for the current
   * ISO time and `parseValues` for `JSON.parse` (`None` where it throws).
   * Every row already has eight fields, so the second length test never
   * decides.
   */
  function RowAsset(row: seq<string>, width: nat, parseValues: string -> Option<map<string, JsValue>>,
                    freshId: string, now: string): Option<JsAsset>
  {
    if |row| < width || |row| < |ExpectedHeaders| then None
    else
      var values := if row[5] == "" then Some(map[]) else parseValues(row[5]);
      if values.None? then None
      else if Blank(row[2]) then None
      else if row[1] !in Keys(Registry) then None
      else Some(JsAsset(
        if row[0] == "" then freshId else row[0],
        row[1], row[2], row[3], row[4], values.value,
        if row[6] == "" then now else row[6],
        if row[7] == "" then now else row[7]))
  }

  /** The row callback, with the row's index choosing the generated id. */
  function RowReader(width: nat, parseValues: string -> Option<map<string, JsValue>>,
                     newId: nat -> string, now: string): (seq<string>, nat) -> Option<JsAsset>
  {
    (row: seq<string>, i: nat) => RowAsset(row, width, parseValues, newId(i), now)
  }

  /** The assets `importFromCSV` adds, or why it rejects the file. */
  function ImportOf(rows: seq<seq<string>>, parseValues: string -> Option<map<string, JsValue>>,
                    newId: nat -> string, now: string): Result<seq<JsAsset>, ImportError>
  {
    var kept := WideRows(rows);
    if kept == [] then Failure(MissingHeader)
    else if !HeaderMatches(kept[0]) then Failure(InvalidFormat)
    else Success(KeptBy(kept[1..], RowReader(|kept[0]|, parseValues, newId, now)))
  }

  /**
   * A row is accepted exactly when it is as wide as the headers, its
   * values parse, its name is not blank and its category is a registry
   * key; the asset then carries the row's fields, empty ones filled in.
   */
  lemma RowAccepted(row: seq<string>, width: nat, parseValues: string -> Option<map<string, JsValue>>,
                    freshId: string, now: string)
    ensures RowAsset(row, width, parseValues, freshId, now).Some? <==>
              |row| >= width && |row| >= 8 &&
              (row[5] == "" || parseValues(row[5]).Some?) &&
              !Blank(row[2]) && Lookup(row[1]).Some?
    ensures RowAsset(row, width, parseValues, freshId, now).Some? ==>
              var a := RowAsset(row, width, parseValues, freshId, now).value;
              a.id == (if row[0] == "" then freshId else row[0]) &&
              a.category == row[1] && a.name == row[2] && a.icon == row[3] && a.color == row[4] &&
              a.values == (if row[5] == "" then map[] else parseValues(row[5]).value) &&
              a.createdAt == (if row[6] == "" then now else row[6]) &&
              a.updatedAt == (if row[7] == "" then now else row[7])
  {
    if |row| >= 8 {
      FindMeaning(row[1], Registry);
    }
  }

  /** Every row kept by the line filter has at least eight fields and is an input row, in order. */
  lemma WideRowsMeaning(rows: seq<seq<string>>)
    ensures |WideRows(rows)| <= |rows|
    ensures forall j :: 0 <= j < |WideRows(rows)| ==> |WideRows(rows)[j]| >= 8 && WideRows(rows)[j] in rows
  {
    KeptByFromElements(rows, WideReader());
    forall j | 0 <= j < |WideRows(rows)|
      ensures |WideRows(rows)[j]| >= 8 && WideRows(rows)[j] in rows
    {
      var x := WideRows(rows)[j];
      var i :| 0 <= i < |rows| && ReadAll(rows, WideReader())[i] == Some(x);
      assert WideReader()(rows[i], i) == Some(x);
    }
  }

  /** A file with no wide row, or whose first wide row does not start with the headers, is rejected. */
  lemma ImportNeedsHeaders(rows: seq<seq<string>>, parseValues: string -> Option<map<string, JsValue>>,
                           newId: nat -> string, now: string)
    ensures ImportOf(rows, parseValues, newId, now).Success? <==>
              WideRows(rows) != [] && HeaderMatches(WideRows(rows)[0])
    ensures WideRows(rows) == [] ==> ImportOf(rows, parseValues, newId, now) == Failure(MissingHeader)
  {
  }

  /**
   * Every imported asset comes from its own data row: at most one per row,
   * each with a registry category and a non-blank name.
   */
  lemma ImportedMeaning(rows: seq<seq<string>>, parseValues: string -> Option<map<string, JsValue>>,
                        newId: nat -> string, now: string)
    requires ImportOf(rows, parseValues, newId, now).Success?
    ensures |ImportOf(rows, parseValues, newId, now).value| < |rows|
    ensures forall a :: a in ImportOf(rows, parseValues, newId, now).value ==>
              Lookup(a.category).Some? && !Blank(a.name)
  {
    var kept := WideRows(rows);
    WideRowsMeaning(rows);
    var data := kept[1..];
    var read := RowReader(|kept[0]|, parseValues, newId, now);
    var added := KeptBy(data, read);
    KeptByFromElements(data, read);
    forall a | a in added
      ensures Lookup(a.category).Some? && !Blank(a.name)
    {
      var j :| 0 <= j < |added| && added[j] == a;
      var i :| 0 <= i < |data| && ReadAll(data, read)[i] == Some(a);
      RowAccepted(data[i], |kept[0]|, parseValues, newId(i), now);
    }
  }

  /** The storage service: local storage's asset list and last-modified stamp. */
  class StorageService {
    /** The parsed `networthvault_assets` item. */
    var assets: seq<JsAsset>
    /** The `networthvault_lastUpdated` item, `None` until the first save. */
    var lastUpdated: Option<string>

    /** Empty storage. */
    constructor()
      ensures assets == [] && lastUpdated == None
    {
      assets := [];
      lastUpdated := None;
    }

    /** `saveAssets` followed by `updateLastModified`, at ISO time `now`. */
    method SaveAssets(list: seq<JsAsset>, now: string)
      modifies this
      ensures assets == list && lastUpdated == Some(now)
    {
      assets := list;
      lastUpdated := Some(now);
    }

    /** `mergeAssets`: newest wins for stored ids, unseen ids are appended; the merged list is stored and returned. */
    method MergeAssets(newAssets: seq<JsAsset>, instant: string -> Option<real>, now: string) returns (merged: seq<JsAsset>)
      modifies this
      ensures merged == Merged(old(assets), newAssets, instant)
      ensures assets == merged && lastUpdated == Some(now)
    {
      var current := assets;
      merged := current;
      var k := 0;
      while k < |newAssets|
        invariant 0 <= k <= |newAssets|
        invariant merged == Merged(current, newAssets[..k], instant)
      {
        assert newAssets[..k + 1][..k] == newAssets[..k];
        var newAsset := newAssets[k];
        var existingIndex := IndexOfId(merged, newAsset.id);
        if existingIndex.Some? {
          if Later(newAsset.updatedAt, merged[existingIndex.value].updatedAt, instant) {
            merged := merged[existingIndex.value := newAsset];
          }
        } else {
          merged := merged + [newAsset];
        }
        k := k + 1;
      }
      assert newAssets[..k] == newAssets;
      SaveAssets(merged, now);
    }

    /** `saveAsset`: replace the stored asset with the id, or append the asset, given `newId` when it has no id. */
    method SaveAsset(asset: JsAsset, newId: string, now: string) returns (saved: JsAsset)
      modifies this
      ensures saved == SavedAsset(old(assets), asset, newId)
      ensures assets == SavedList(old(assets), asset, newId) && lastUpdated == Some(now)
    {
      var list := assets;
      var existingIndex := IndexOfId(list, asset.id);
      saved := asset;
      if existingIndex.Some? {
        list := list[existingIndex.value := asset];
      } else {
        if saved.id == "" {
          saved := saved.(id := newId);
        }
        list := list + [saved];
      }
      SaveAssets(list, now);
    }

    /** `deleteAsset`: every asset with the id goes, and storage is written only when one did. */
    method DeleteAsset(assetId: string, now: string) returns (deleted: bool)
      modifies this
      ensures deleted <==> HasId(old(assets), assetId)
      ensures deleted ==> assets == Without(old(assets), assetId) && lastUpdated == Some(now)
      ensures !deleted ==> assets == old(assets) && lastUpdated == old(lastUpdated)
    {
      var updatedAssets := Without(assets, assetId);
      WithoutMeaning(assets, assetId);
      if |updatedAssets| != |assets| {
        SaveAssets(updatedAssets, now);
        deleted := true;
      } else {
        deleted := false;
      }
    }

    /**
     * `importFromCSV` from the point where the text is split: the wide
     * rows, the header check, the row callback, and the save of the stored
     * assets followed by the accepted ones when there are any.
     */
    method ImportFromCsv(rows: seq<seq<string>>, parseValues: string -> Option<map<string, JsValue>>,
                         newId: nat -> string, now: string) returns (result: Result<nat, ImportError>)
      modifies this
      ensures ImportOf(rows, parseValues, newId, now).Failure? ==>
                result == Failure(ImportOf(rows, parseValues, newId, now).error) &&
                assets == old(assets) && lastUpdated == old(lastUpdated)
      ensures ImportOf(rows, parseValues, newId, now).Success? ==>
                var added := ImportOf(rows, parseValues, newId, now).value;
                result == Success(|added|) &&
                (added != [] ==> assets == old(assets) + added && lastUpdated == Some(now)) &&
                (added == [] ==> assets == old(assets) && lastUpdated == old(lastUpdated))
    {
      var kept := WideRowsOf(rows);
      if kept == [] {
        return Failure(MissingHeader);
      }
      var headers := kept[0];
      if !HeaderMatches(headers) {
        return Failure(InvalidFormat);
      }
      var newAssets := ReadRows(kept[1..], |headers|, parseValues, newId, now);
      if |newAssets| > 0 {
        SaveAssets(assets + newAssets, now);
      }
      result := Success(|newAssets|);
    }
  }

  /** The line loop of `importFromCSV`: the rows with at least eight fields. */
  method WideRowsOf(rows: seq<seq<string>>) returns (kept: seq<seq<string>>)
    ensures kept == WideRows(rows)
  {
    kept := [];
    var i := 0;
    while i < |rows|
      invariant 0 <= i <= |rows|
      invariant kept == WideRows(rows[..i])
    {
      assert rows[..i + 1][..i] == rows[..i];
      if |rows[i]| >= 8 {
        kept := kept + [rows[i]];
      }
      i := i + 1;
    }
    assert rows[..i] == rows;
  }

  /** `rows.slice(1).map(...).filter(asset => asset !== null)`: the accepted data rows' assets, in order. */
  method ReadRows(data: seq<seq<string>>, width: nat, parseValues: string -> Option<map<string, JsValue>>,
                  newId: nat -> string, now: string) returns (newAssets: seq<JsAsset>)
    ensures newAssets == KeptBy(data, RowReader(width, parseValues, newId, now))
  {
    newAssets := [];
    var j := 0;
    while j < |data|
      invariant 0 <= j <= |data|
      invariant newAssets == KeptBy(data[..j], RowReader(width, parseValues, newId, now))
    {
      assert data[..j + 1][..j] == data[..j];
      var asset := ReadRow(data[j], width, parseValues, newId(j), now);
      assert RowReader(width, parseValues, newId, now)(data[j], j) == asset;
      if asset.Some? {
        newAssets := newAssets + [asset.value];
      }
      j := j + 1;
    }
    assert data[..j] == data;
  }

  /** The `map` callback of `importFromCSV` for one data row: the asset, or `None` where it returns `null`. */
  method ReadRow(row: seq<string>, width: nat, parseValues: string -> Option<map<string, JsValue>>,
                 freshId: string, now: string) returns (asset: Option<JsAsset>)
    ensures asset == RowAsset(row, width, parseValues, freshId, now)
  {
    if |row| < width || |row| < |ExpectedHeaders| {
      return None;
    }
    var valuesStr := row[5];
    var values: map<string, JsValue>;
    if valuesStr == "" {
      values := map[];
    } else {
      var parsed := parseValues(valuesStr);
      if parsed.None? {
        return None;
      }
      values := parsed.value;
    }
    var a := JsAsset(
      if row[0] == "" then freshId else row[0],
      row[1], row[2], row[3], row[4], values,
      if row[6] == "" then now else row[6],
      if row[7] == "" then now else row[7]);
    if Blank(a.name) {
      return None;
    }
    if a.category !in Keys(Registry) {
      return None;
    }
    asset := Some(a);
  }
}
