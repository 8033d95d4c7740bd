/**
 * How the mixers fill their tables from the configuration and from the store, and
 * how they write them back: the key names, the write pass and the read pass.
 */
module Persistence {
  import opened Wrappers
  import opened AudioCategories
  import opened Prefs
  import opened Mixing
  import opened Settings

  const VolumePrefix: string := "AudioManager_Volume_"
  const MutePrefix: string := "AudioManager_Mute_"

  function VolumeKey(c: Category): string
  {
    VolumePrefix + Name(c)
  }

  function MuteKey(c: Category): string
  {
    MutePrefix + Name(c)
  }

  /** The key the legacy player stores a category's volume under. */
  function LegacyVolumeKey(c: Category): string
  {
    "AudioManager_" + Name(c) + "_Volume"
  }

  lemma PrefixCancels(p: string, a: string, b: string)
    requires p + a == p + b
    ensures a == b
  {
    assert a == (p + a)[|p|..];
    assert b == (p + b)[|p|..];
  }

  lemma SuffixCancels(a: string, b: string, q: string)
    requires a + q == b + q
    ensures a == b
  {
    assert a == (a + q)[..|a|];
    assert b == (b + q)[..|b|];
  }

  /** No two categories share a key, and no volume key is a mute key. */
  lemma KeysDistinct(a: Category, b: Category)
    ensures VolumeKey(a) == VolumeKey(b) ==> a == b
    ensures MuteKey(a) == MuteKey(b) ==> a == b
    ensures LegacyVolumeKey(a) == LegacyVolumeKey(b) ==> a == b
    ensures VolumeKey(a) != MuteKey(b)
  {
    NameInjective(a, b);
    if VolumeKey(a) == VolumeKey(b) {
      PrefixCancels(VolumePrefix, Name(a), Name(b));
    }
    if MuteKey(a) == MuteKey(b) {
      PrefixCancels(MutePrefix, Name(a), Name(b));
    }
    if LegacyVolumeKey(a) == LegacyVolumeKey(b) {
      SuffixCancels("AudioManager_" + Name(a), "AudioManager_" + Name(b), "_Volume");
      PrefixCancels("AudioManager_", Name(a), Name(b));
    }
    assert VolumeKey(a)[13] == 'V';
    assert MuteKey(b)[13] == 'M';
  }

  predicate Injective(key: Category -> string)
  {
    forall a: Category, b: Category :: key(a) == key(b) ==> a == b
  }

  lemma KeyFunctionsInjective()
    ensures Injective(VolumeKey) && Injective(MuteKey) && Injective(LegacyVolumeKey)
  {
    forall a: Category, b: Category
      ensures VolumeKey(a) == VolumeKey(b) ==> a == b
      ensures MuteKey(a) == MuteKey(b) ==> a == b
      ensures LegacyVolumeKey(a) == LegacyVolumeKey(b) ==> a == b
    {
      KeysDistinct(a, b);
    }
  }

  /** The entry a table asks to have written for a category, if it holds one. */
  function VolumeEntries(vols: VolumeTable): Category -> Option<PrefValue>
  {
    c => if c in vols then Some(FloatPref(vols[c])) else None
  }

  /** Mute flags are written as the integers 1 and 0. */
  function MuteEntries(mutes: MuteTable): Category -> Option<PrefValue>
  {
    c => if c in mutes then Some(IntPref(if mutes[c] then 1 else 0)) else None
  }

  /** One write pass over the categories `cs`, in order: each category with an entry
      has it stored under its key. */
  function WriteAll(m: Store, cs: seq<Category>, key: Category -> string,
                    entry: Category -> Option<PrefValue>): Store
    decreases |cs|
  {
    if cs == [] then m
    else
      var e := entry(cs[0]);
      WriteAll(if e.Some? then m[key(cs[0]) := e.value] else m, cs[1..], key, entry)
  }

  /** After a write pass, the key of each category with an entry holds that entry. */
  lemma {:induction false} WriteAllWritten(m: Store, cs: seq<Category>, key: Category -> string,
                                           entry: Category -> Option<PrefValue>, c: Category)
    requires Injective(key)
    requires c in cs && entry(c).Some?
    ensures key(c) in WriteAll(m, cs, key, entry)
    ensures WriteAll(m, cs, key, entry)[key(c)] == entry(c).value
    decreases |cs|
  {
    var e := entry(cs[0]);
    var next := if e.Some? then m[key(cs[0]) := e.value] else m;
    if c in cs[1..] {
      WriteAllWritten(next, cs[1..], key, entry, c);
    } else {
      assert c == cs[0];
      WriteAllUntouched(next, cs[1..], key, entry, key(c));
    }
  }

  /** A write pass leaves every key it does not write as it was. */
  lemma {:induction false} WriteAllUntouched(m: Store, cs: seq<Category>, key: Category -> string,
                                             entry: Category -> Option<PrefValue>, k: string)
    requires forall c :: c in cs && entry(c).Some? ==> key(c) != k
    ensures k in WriteAll(m, cs, key, entry) <==> k in m
    ensures k in m ==> WriteAll(m, cs, key, entry)[k] == m[k]
    decreases |cs|
  {
    if cs != [] {
      var e := entry(cs[0]);
      assert cs[0] in cs;
      var next := if e.Some? then m[key(cs[0]) := e.value] else m;
      assert forall c :: c in cs[1..] ==> c in cs;
      WriteAllUntouched(next, cs[1..], key, entry, k);
    }
  }

  /** What the controllers' save writes: every volume, then every mute flag. */
  function SavedTables(m: Store, vols: VolumeTable, mutes: MuteTable): Store
  {
    WriteAll(WriteAll(m, AllCategories, VolumeKey, VolumeEntries(vols)), AllCategories, MuteKey, MuteEntries(mutes))
  }

  /** After a save, each stored volume sits under its volume key as a float, each mute
      flag under its mute key as 1 or 0, and every other key is as it was. */
  lemma SavedTablesContents(m: Store, vols: VolumeTable, mutes: MuteTable)
    ensures forall c :: c in vols ==>
              VolumeKey(c) in SavedTables(m, vols, mutes) &&
              SavedTables(m, vols, mutes)[VolumeKey(c)] == FloatPref(vols[c])
    ensures forall c :: c in mutes ==>
              MuteKey(c) in SavedTables(m, vols, mutes) &&
              SavedTables(m, vols, mutes)[MuteKey(c)] == IntPref(if mutes[c] then 1 else 0)
    ensures forall k :: (forall c: Category :: k != VolumeKey(c) && k != MuteKey(c)) ==>
              (k in SavedTables(m, vols, mutes) <==> k in m) &&
              (k in m ==> SavedTables(m, vols, mutes)[k] == m[k])
  {
    KeyFunctionsInjective();
    var m1 := WriteAll(m, AllCategories, VolumeKey, VolumeEntries(vols));
    forall c | c in vols
      ensures VolumeKey(c) in SavedTables(m, vols, mutes)
      ensures SavedTables(m, vols, mutes)[VolumeKey(c)] == FloatPref(vols[c])
    {
      AllCategoriesComplete(c);
      WriteAllWritten(m, AllCategories, VolumeKey, VolumeEntries(vols), c);
      forall c' ensures MuteKey(c') != VolumeKey(c) {
        KeysDistinct(c, c');
      }
      WriteAllUntouched(m1, AllCategories, MuteKey, MuteEntries(mutes), VolumeKey(c));
    }
    forall c | c in mutes
      ensures MuteKey(c) in SavedTables(m, vols, mutes)
      ensures SavedTables(m, vols, mutes)[MuteKey(c)] == IntPref(if mutes[c] then 1 else 0)
    {
      AllCategoriesComplete(c);
      WriteAllWritten(m1, AllCategories, MuteKey, MuteEntries(mutes), c);
    }
    forall k | (forall c: Category :: k != VolumeKey(c) && k != MuteKey(c))
      ensures k in SavedTables(m, vols, mutes) <==> k in m
      ensures k in m ==> SavedTables(m, vols, mutes)[k] == m[k]
    {
      WriteAllUntouched(m, AllCategories, VolumeKey, VolumeEntries(vols), k);
      WriteAllUntouched(m1, AllCategories, MuteKey, MuteEntries(mutes), k);
    }
  }

  /** What the legacy player's save writes: every volume under its legacy key. */
  function LegacySaved(m: Store, vols: VolumeTable): Store
  {
    WriteAll(m, AllCategories, LegacyVolumeKey, VolumeEntries(vols))
  }

  /** The volume table built from the configuration entries, one entry at a time, so
      that a later entry for the same category replaces an earlier one. */
  function InitialVolumes(list: seq<CategorySettings>): VolumeTable
  {
    if list == [] then map[]
    else InitialVolumes(list[..|list| - 1])[list[|list| - 1].category := list[|list| - 1].volume]
  }

  function InitialMutes(list: seq<CategorySettings>): MuteTable
  {
    if list == [] then map[]
    else InitialMutes(list[..|list| - 1])[list[|list| - 1].category := list[|list| - 1].muted]
  }

  /** Both tables hold exactly the configured categories. */
  lemma {:induction false} InitialTablesKeys(list: seq<CategorySettings>, c: Category)
    ensures c in InitialVolumes(list) <==> HasEntry(list, c)
    ensures c in InitialMutes(list) <==> HasEntry(list, c)
  {
    if list != [] {
      var n := |list| - 1;
      InitialTablesKeys(list[..n], c);
      if HasEntry(list, c) && list[n].category != c {
        var k :| 0 <= k < |list| && list[k].category == c;
        assert list[..n][k].category == c;
      }
      if HasEntry(list[..n], c) {
        var k :| 0 <= k < n && list[..n][k].category == c;
        assert list[k].category == c;
      }
    }
  }

  /** Each configured category holds the volume and the mute flag of its last entry. */
  lemma {:induction false} InitialTablesLastEntry(list: seq<CategorySettings>, c: Category, i: int)
    requires 0 <= i < |list| && list[i].category == c
    requires forall j :: i < j < |list| ==> list[j].category != c
    ensures c in InitialVolumes(list) && InitialVolumes(list)[c] == list[i].volume
    ensures c in InitialMutes(list) && InitialMutes(list)[c] == list[i].muted
  {
    var n := |list| - 1;
    if i < n {
      var front := list[..n];
      assert front[i] == list[i];
      assert forall j :: i < j < n ==> front[j] == list[j];
      InitialTablesLastEntry(front, c, i);
    }
  }

  /** Reading one more configuration entry updates that entry's category. */
  lemma InitialTablesStep(list: seq<CategorySettings>, i: int)
    requires 0 <= i < |list|
    ensures InitialVolumes(list[..i + 1]) == InitialVolumes(list[..i])[list[i].category := list[i].volume]
    ensures InitialMutes(list[..i + 1]) == InitialMutes(list[..i])[list[i].category := list[i].muted]
  {
    assert list[..i + 1][..i] == list[..i];
  }

  lemma UnionUpdate<K, V>(a: map<K, V>, b: map<K, V>, k: K, v: V)
    ensures (a + b)[k := v] == a + b[k := v]
  {
  }

  /** The controllers' load: a persisted volume replaces the table's value for each
      category already in the volume table whose key is present. */
  function LoadedVolumes(m: Store, vols: VolumeTable): VolumeTable
  {
    map c | c in vols :: if VolumeKey(c) in m then FloatAt(m, VolumeKey(c)) else vols[c]
  }

  /** The controllers' load of mute flags, for the categories of the volume table: a
      persisted flag reads as muted exactly when the stored integer is 1. */
  function LoadedMutes(m: Store, vols: VolumeTable, mutes: MuteTable): MuteTable
  {
    map c | c in mutes || (c in vols && MuteKey(c) in m) ::
      if c in vols && MuteKey(c) in m then IntAt(m, MuteKey(c)) == 1 else mutes[c]
  }

  /** The load pass after it has visited the categories of `done`. */
  function LoadedVolumesFor(m: Store, vols: VolumeTable, done: set<Category>): VolumeTable
  {
    map c | c in vols :: if c in done && VolumeKey(c) in m then FloatAt(m, VolumeKey(c)) else vols[c]
  }

  function LoadedMutesFor(m: Store, vols: VolumeTable, mutes: MuteTable, done: set<Category>): MuteTable
  {
    map c | c in mutes || (c in done && c in vols && MuteKey(c) in m) ::
      if c in done && c in vols && MuteKey(c) in m then IntAt(m, MuteKey(c)) == 1 else mutes[c]
  }

  /** Visiting one more category changes its own entries and no other. */
  lemma LoadOneMore(m: Store, vols: VolumeTable, mutes: MuteTable, done: set<Category>, c: Category)
    requires c !in done
    ensures LoadedVolumesFor(m, vols, done + {c}) ==
              if c in vols && VolumeKey(c) in m
              then LoadedVolumesFor(m, vols, done)[c := FloatAt(m, VolumeKey(c))]
              else LoadedVolumesFor(m, vols, done)
    ensures LoadedMutesFor(m, vols, mutes, done + {c}) ==
              if c in vols && MuteKey(c) in m
              then LoadedMutesFor(m, vols, mutes, done)[c := IntAt(m, MuteKey(c)) == 1]
              else LoadedMutesFor(m, vols, mutes, done)
  {
  }

  lemma LoadedForAll(m: Store, vols: VolumeTable, mutes: MuteTable, done: set<Category>)
    requires forall c: Category :: c in done
    ensures LoadedVolumesFor(m, vols, done) == LoadedVolumes(m, vols)
    ensures LoadedMutesFor(m, vols, mutes, done) == LoadedMutes(m, vols, mutes)
  {
  }

  /** The legacy player's load, under its own keys. */
  function LegacyLoaded(m: Store, vols: VolumeTable): VolumeTable
  {
    map c | c in vols :: if LegacyVolumeKey(c) in m then FloatAt(m, LegacyVolumeKey(c)) else vols[c]
  }

  /** The legacy load pass after it has visited the categories of `done`. */
  function LegacyLoadedFor(m: Store, vols: VolumeTable, done: set<Category>): VolumeTable
  {
    map c | c in vols :: if c in done && LegacyVolumeKey(c) in m then FloatAt(m, LegacyVolumeKey(c)) else vols[c]
  }

  /** Visiting one more category changes its own entry and no other. */
  lemma LegacyLoadOneMore(m: Store, vols: VolumeTable, done: set<Category>, c: Category)
    requires c !in done
    ensures LegacyLoadedFor(m, vols, done + {c}) ==
              if c in vols && LegacyVolumeKey(c) in m
              then LegacyLoadedFor(m, vols, done)[c := FloatAt(m, LegacyVolumeKey(c))]
              else LegacyLoadedFor(m, vols, done)
  {
  }

  /** What one session saves, the next session loads back: for every category the new
      session's configuration lists, the volume and mute flag read back are the ones
      the previous session held. */
  lemma SaveThenLoad(m: Store, vols: VolumeTable, mutes: MuteTable, listed: VolumeTable, listedMutes: MuteTable)
    ensures forall c :: c in listed && c in vols ==>
              LoadedVolumes(SavedTables(m, vols, mutes), listed)[c] == vols[c]
    ensures forall c :: c in listed && c in mutes ==>
              c in LoadedMutes(SavedTables(m, vols, mutes), listed, listedMutes) &&
              LoadedMutes(SavedTables(m, vols, mutes), listed, listedMutes)[c] == mutes[c]
  {
    SavedTablesContents(m, vols, mutes);
  }

  lemma LegacySaveThenLoad(m: Store, vols: VolumeTable, listed: VolumeTable)
    ensures forall c :: c in listed && c in vols ==> LegacyLoaded(LegacySaved(m, vols), listed)[c] == vols[c]
  {
    KeyFunctionsInjective();
    forall c | c in listed && c in vols
      ensures LegacyLoaded(LegacySaved(m, vols), listed)[c] == vols[c]
    {
      AllCategoriesComplete(c);
      WriteAllWritten(m, AllCategories, LegacyVolumeKey, VolumeEntries(vols), c);
    }
  }
}
