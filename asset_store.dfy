/**
 * The in-memory store of the iOS app: the asset list and the settings,
 * updated in place by upsert, delete, newest-wins merge and growth-rate
 * overrides. Saving goes to persistence, which is not part of this model.
 */
module AssetStores {
  import opened Wrappers
  import opened AssetCategories
  import opened Assets
  import opened CategoryDefinitions
  import opened SettingsModel
  import opened Sequences
  import Calculations

  /** No two assets of the list share an id. */
  predicate UniqueAssetIds(s: seq<Asset>) {
    forall i, j :: 0 <= i < j < |s| ==> s[i].id != s[j].id
  }

  /** Whether some asset of `s` has id `id`. */
  predicate HasId(s: seq<Asset>, id: string) {
    exists i :: 0 <= i < |s| && s[i].id == id
  }

  /** `firstIndex(where: { $0.id == id })`. */
  function FirstIndexOfId(s: seq<Asset>, id: string): (r: Option<nat>)
    ensures r.Some? ==> r.value < |s| && s[r.value].id == id && forall j :: 0 <= j < r.value ==> s[j].id != id
    ensures r.None? <==> !HasId(s, id)
  {
    if s == [] then None
    else if s[0].id == id then Some(0)
    else
      match FirstIndexOfId(s[1..], id)
      case None =>
        assert forall j :: 1 <= j < |s| ==> s[j] == s[1..][j - 1];
        None
      case Some(i) => Some(i + 1)
  }

  // upsert

  /** The list after `upsert(a)`: the first asset with `a`'s id replaced, or `a` appended. */
  function Upserted(s: seq<Asset>, a: Asset): seq<Asset> {
    match FirstIndexOfId(s, a.id)
    case Some(i) => s[i := a]
    case None => s + [a]
  }

  /** An id already present: only its first occurrence is replaced, nothing moves. */
  lemma UpsertExisting(s: seq<Asset>, a: Asset, i: nat)
    requires i < |s| && s[i].id == a.id
    requires forall j :: 0 <= j < i ==> s[j].id != a.id
    ensures Upserted(s, a) == s[i := a]
    ensures |Upserted(s, a)| == |s|
    ensures forall j :: 0 <= j < |s| && j != i ==> Upserted(s, a)[j] == s[j]
  {
    var r := FirstIndexOfId(s, a.id);
    assert r.Some?;
    if r.value < i {
    } else if r.value > i {
    }
  }

  /** A new id: `a` is appended. */
  lemma UpsertNew(s: seq<Asset>, a: Asset)
    requires !HasId(s, a.id)
    ensures Upserted(s, a) == s + [a]
    ensures |Upserted(s, a)| == |s| + 1
  {
  }

  /** Upserting keeps ids unique and leaves `a` in the list. */
  lemma UpsertKeepsIdsUnique(s: seq<Asset>, a: Asset)
    requires UniqueAssetIds(s)
    ensures UniqueAssetIds(Upserted(s, a))
    ensures a in Upserted(s, a)
  {
    match FirstIndexOfId(s, a.id)
    case Some(i) =>
      assert Upserted(s, a)[i] == a;
    case None =>
      assert Upserted(s, a)[|s|] == a;
  }

  // delete

  /** `removeAll { $0.id == id }`: the assets with other ids, in their order. */
  function Without(s: seq<Asset>, id: string): (r: seq<Asset>)
    ensures forall a :: a in r <==> a in s && a.id != id
    ensures |r| <= |s|
  {
    if s == [] then []
    else Without(s[..|s| - 1], id) + (if s[|s| - 1].id != id then [s[|s| - 1]] else [])
  }

  /** Deleting distributes over concatenation, so every kept asset keeps its relative order. */
  lemma {:induction false} WithoutConcat(s: seq<Asset>, t: seq<Asset>, id: string)
    ensures Without(s + t, id) == Without(s, id) + Without(t, id)
  {
    if t == [] {
      assert s + t == s;
    } else {
      assert (s + t)[..|s + t| - 1] == s + t[..|t| - 1];
      WithoutConcat(s, t[..|t| - 1], id);
    }
  }

  /** Deleting an id nobody has changes nothing. */
  lemma {:induction false} WithoutAbsent(s: seq<Asset>, id: string)
    requires !HasId(s, id)
    ensures Without(s, id) == s
  {
    if s != [] {
      var init := s[..|s| - 1];
      assert !HasId(init, id) by {
        forall i | 0 <= i < |init|
          ensures init[i].id != id
        {
          assert init[i] == s[i];
        }
      }
      WithoutAbsent(init, id);
      assert Without(s, id) == s by {
        var last := s[|s| - 1];
        assert last.id != id;
        LastSplit(s);
        WithoutSnoc(init, last, id);
      }
    }
  }

  /** Deleting from a list with one asset more deletes from the rest and keeps that asset unless it has the id. */
  lemma WithoutSnoc(init: seq<Asset>, last: Asset, id: string)
    ensures Without(init + [last], id) == Without(init, id) + (if last.id != id then [last] else [])
  {
    assert (init + [last])[..|init|] == init;
  }

  /** After a delete no asset has the id. */
  lemma WithoutRemovesId(s: seq<Asset>, id: string)
    ensures !HasId(Without(s, id), id)
  {
  }

  // merge

  /** One step of `merge`: replace the first asset with the id only if the incoming one is strictly newer, else append. */
  function MergeOne(m: seq<Asset>, a: Asset): seq<Asset> {
    match FirstIndexOfId(m, a.id)
    case Some(i) => if m[i].updatedAt < a.updatedAt then m[i := a] else m
    case None => m + [a]
  }

  /** `merge`: the loop over `incoming`, in order. */
  function Merged(base: seq<Asset>, incoming: seq<Asset>): seq<Asset> {
    if incoming == [] then base
    else MergeOne(Merged(base, incoming[..|incoming| - 1]), incoming[|incoming| - 1])
  }

  /** A present id is replaced exactly when the incoming asset is strictly newer. */
  lemma MergeOneExisting(m: seq<Asset>, a: Asset, i: nat)
    requires i < |m| && m[i].id == a.id
    requires forall j :: 0 <= j < i ==> m[j].id != a.id
    ensures MergeOne(m, a) == if m[i].updatedAt < a.updatedAt then m[i := a] else m
  {
    var r := FirstIndexOfId(m, a.id);
    if r.value < i {
    } else if r.value > i {
    }
  }

  /** An unseen id is appended. */
  lemma MergeOneNew(m: seq<Asset>, a: Asset)
    requires !HasId(m, a.id)
    ensures MergeOne(m, a) == m + [a]
  {
  }

  /** One merge step never removes an id or moves an asset, and it adds only `a`'s id. */
  lemma MergeOneIds(m: seq<Asset>, a: Asset)
    ensures |MergeOne(m, a)| >= |m|
    ensures forall i :: 0 <= i < |m| ==> MergeOne(m, a)[i].id == m[i].id
    ensures forall i :: 0 <= i < |m| ==> MergeOne(m, a)[i].updatedAt >= m[i].updatedAt
    ensures forall i :: |m| <= i < |MergeOne(m, a)| ==> MergeOne(m, a)[i] == a
    ensures HasId(MergeOne(m, a), a.id)
    ensures UniqueAssetIds(m) ==> UniqueAssetIds(MergeOne(m, a))
  {
    match FirstIndexOfId(m, a.id)
    case Some(i) =>
      assert MergeOne(m, a)[i].id == a.id;
    case None =>
      assert MergeOne(m, a)[|m|] == a;
  }

  /**
   * Merging never removes or reorders what was there: every original
   * position keeps its id and never becomes older, and the list only grows.
   */
  lemma {:induction false} MergedKeepsBase(base: seq<Asset>, incoming: seq<Asset>)
    ensures |Merged(base, incoming)| >= |base|
    ensures forall i :: 0 <= i < |base| ==> Merged(base, incoming)[i].id == base[i].id
    ensures forall i :: 0 <= i < |base| ==> Merged(base, incoming)[i].updatedAt >= base[i].updatedAt
  {
    if incoming != [] {
      var init := incoming[..|incoming| - 1];
      MergedKeepsBase(base, init);
      MergeOneIds(Merged(base, init), incoming[|incoming| - 1]);
    }
  }

  /** After a merge every incoming id is present, and unique ids stay unique. */
  lemma {:induction false} MergedIds(base: seq<Asset>, incoming: seq<Asset>)
    ensures forall k :: 0 <= k < |incoming| ==> HasId(Merged(base, incoming), incoming[k].id)
    ensures UniqueAssetIds(base) ==> UniqueAssetIds(Merged(base, incoming))
  {
    if incoming != [] {
      var init := incoming[..|incoming| - 1];
      var last := incoming[|incoming| - 1];
      var m := Merged(base, init);
      MergedIds(base, init);
      MergeOneIds(m, last);
      forall k | 0 <= k < |incoming|
        ensures HasId(MergeOne(m, last), incoming[k].id)
      {
        if k < |init| {
          assert incoming[k] == init[k];
          var j :| 0 <= j < |m| && m[j].id == init[k].id;
          assert MergeOne(m, last)[j].id == init[k].id;
        }
      }
    }
  }

  /** A merge whose incoming assets are all unseen and distinct appends them in input order. */
  lemma {:induction false} MergedUnseen(base: seq<Asset>, incoming: seq<Asset>)
    requires forall k :: 0 <= k < |incoming| ==> !HasId(base, incoming[k].id)
    requires UniqueAssetIds(incoming)
    ensures Merged(base, incoming) == base + incoming
  {
    if incoming != [] {
      var init := incoming[..|incoming| - 1];
      var last := incoming[|incoming| - 1];
      assert UniqueAssetIds(init);
      MergedUnseen(base, init);
      assert forall j :: 0 <= j < |init| ==> init[j] == incoming[j];
      assert !HasId(base + init, last.id);
      MergeOneNew(base + init, last);
      assert base + init + [last] == base + incoming;
    }
  }

  /** The persisted snapshot `load` reads. */
  datatype PersistedState = PersistedState(assets: seq<Asset>, settings: Settings)

  class AssetStore {
    var assets: seq<Asset>
    var settings: Settings
    var isLoaded: bool

    /** A fresh store: no assets, default settings, not loaded yet. */
    constructor()
      ensures assets == [] && !isLoaded
      ensures settings == DefaultSettings()
    {
      assets := [];
      settings := DefaultSettings();
      isLoaded := false;
    }

    /**
     * `load`: the first call installs the persisted state, or resets to no
     * assets and default settings when reading failed (`stored == None`);
     * later calls do nothing.
     */
    method Load(stored: Option<PersistedState>)
      modifies this
      ensures isLoaded
      ensures old(isLoaded) ==> assets == old(assets) && settings == old(settings)
      ensures !old(isLoaded) && stored.Some? ==> assets == stored.value.assets && settings == stored.value.settings
      ensures !old(isLoaded) && stored.None? ==> assets == [] && settings == DefaultSettings()
    {
      if isLoaded {
        return;
      }
      match stored {
        case Some(state) =>
          assets := state.assets;
          settings := state.settings;
        case None =>
          assets := [];
          settings := Default();
      }
      isLoaded := true;
    }

    /** `upsert`. */
    method Upsert(asset: Asset)
      modifies this
      ensures assets == Upserted(old(assets), asset)
      ensures settings == old(settings) && isLoaded == old(isLoaded)
    {
      var index := FirstIndexOfId(assets, asset.id);
      if index.Some? {
        assets := assets[index.value := asset];
      } else {
        assets := assets + [asset];
      }
    }

    /** `delete`: every asset with the id goes. */
    method Delete(asset: Asset)
      modifies this
      ensures assets == Without(old(assets), asset.id)
      ensures settings == old(settings) && isLoaded == old(isLoaded)
    {
      assets := Without(assets, asset.id);
    }

    /** `merge`: newest wins for known ids, unseen ids are appended in input order. */
    method Merge(newAssets: seq<Asset>)
      modifies this
      ensures assets == Merged(old(assets), newAssets)
      ensures settings == old(settings) && isLoaded == old(isLoaded)
    {
      var merged := assets;
      var k := 0;
      while k < |newAssets|
        invariant 0 <= k <= |newAssets|
        invariant merged == Merged(assets, newAssets[..k])
      {
        var asset := newAssets[k];
        assert newAssets[..k + 1][..k] == newAssets[..k];
        var index := FirstIndexOfId(merged, asset.id);
        if index.Some? {
          if merged[index.value].updatedAt < asset.updatedAt {
            merged := merged[index.value := asset];
          }
        } else {
          merged := merged + [asset];
        }
        k := k + 1;
      }
      assert newAssets[..k] == newAssets;
      assets := merged;
    }

    /** `growthRate(for:)`: the stored override, else the category default. */
    function GrowthRate(c: AssetCategory): real
      reads this
    {
      Calculations.GrowthRate(c, settings)
    }

    /** `setGrowthRate`: the override for `c` becomes `value`; every other rate and the assets are untouched. */
    method SetGrowthRate(value: real, c: AssetCategory)
      modifies this
      ensures GrowthRate(c) == value
      ensures forall d :: d != c ==> GrowthRate(d) == old(GrowthRate(d))
      ensures settings == old(settings).(growthRates := old(settings).growthRates[RawValue(c) := value])
      ensures assets == old(assets) && isLoaded == old(isLoaded)
    {
      var before := settings;
      settings := settings.(growthRates := settings.growthRates[RawValue(c) := value]);
      forall d
        ensures Calculations.GrowthRate(d, settings) == if d == c then value else Calculations.GrowthRate(d, before)
      {
        OverrideEffect(before, c, value, d);
      }
    }
  }

  /** Overriding the rate of `c` sets that rate and leaves every other category's rate as it was. */
  lemma OverrideEffect(s: Settings, c: AssetCategory, value: real, d: AssetCategory)
    ensures Calculations.GrowthRate(d, s.(growthRates := s.growthRates[RawValue(c) := value]))
            == if d == c then value else Calculations.GrowthRate(d, s)
  {
    if d != c {
      RawValueInjective(c, d);
    }
  }

  /** An absent override falls back to the category default; a present one is used as stored. */
  lemma RateFallback(s: Settings, c: AssetCategory)
    ensures RawValue(c) !in s.growthRates ==> Calculations.GrowthRate(c, s) == Definition(c).growthRateDefault
    ensures RawValue(c) in s.growthRates ==> Calculations.GrowthRate(c, s) == s.growthRates[RawValue(c)]
  {
  }
}
