/**
 * The guarded variant of the mixer: the same tables, keys and persistence as the
 * coordinator's mixer, but it accepts missing settings and a missing voice list,
 * and it divides by the stored category volume only when that is positive.
 */
module GuardedMixer {
  import opened Wrappers
  import opened AudioCategories
  import opened Mathf
  import opened Prefs
  import opened Sources
  import opened Mixing
  import opened Settings
  import opened Persistence

  /** The configuration entries the mixer starts from: none without settings. */
  function ConfiguredEntries(settings: AudioSettings?): seq<CategorySettings>
    reads settings
  {
    if settings == null then [] else settings.categorySettings
  }

  /** How many times a voice occurs in a list. */
  function Occurrences(sources: seq<AudioSource?>, s: AudioSource?): nat
  {
    if sources == [] then 0
    else Occurrences(sources[..|sources| - 1], s) + (if sources[|sources| - 1] == s then 1 else 0)
  }

  /** One voice of the rescale loop: its volume relative to the stored category
      volume (when that is positive), times the category's volume. */
  method ScaleVoice(source: AudioSource, storedVolume: real, categoryVolume: real,
                    ghost vols: VolumeTable, ghost mutes: MuteTable, ghost c: Category)
    requires storedVolume == StoredVolume(vols, c) && categoryVolume == EffectiveVolume(vols, mutes, c)
    modifies source
    ensures source.volume == GuardedRescale(old(source.volume), vols, mutes, c)
    ensures source.state == old(source.state) && source.GetSetup() == old(source.GetSetup())
  {
    var relativeVolume := if storedVolume > 0.0 then source.volume / storedVolume else source.volume;
    source.volume := relativeVolume * categoryVolume;
  }

  lemma OccurrencesStep(sources: seq<AudioSource?>, i: int)
    requires 0 <= i < |sources|
    ensures forall s :: Occurrences(sources[..i + 1], s) ==
                          Occurrences(sources[..i], s) + (if sources[i] == s then 1 else 0)
  {
    assert sources[..i + 1][..i] == sources[..i];
  }

  lemma {:induction false} OccurrencesPositive(sources: seq<AudioSource?>, j: int)
    requires 0 <= j < |sources|
    ensures Occurrences(sources, sources[j]) > 0
  {
    var n := |sources| - 1;
    if j < n {
      OccurrencesPositive(sources[..n], j);
    }
  }

  class AudioVolume {
    var categoryVolumes: VolumeTable
    var categoryMuteStates: MuteTable
    const settings: AudioSettings?
    /** The process-wide store, passed in rather than reached as a global. */
    const prefs: PlayerPrefs

    /** Fills the tables from the configuration entries, if there are settings, then
        overrides them with the persisted values of the categories already present. */
    constructor (settings: AudioSettings?, prefs: PlayerPrefs)
      ensures this.settings == settings && this.prefs == prefs
      ensures categoryVolumes == LoadedVolumes(prefs.entries, InitialVolumes(ConfiguredEntries(settings)))
      ensures categoryMuteStates ==
                LoadedMutes(prefs.entries, InitialVolumes(ConfiguredEntries(settings)),
                            InitialMutes(ConfiguredEntries(settings)))
      ensures settings == null ==>
                forall c :: GetCategoryVolume(c) == 1.0 && !IsCategoryMuted(c)
    {
      this.settings := settings;
      this.prefs := prefs;
      categoryVolumes := map[];
      categoryMuteStates := map[];
      new;
      InitializeVolumes();
      assert categoryVolumes == InitialVolumes(ConfiguredEntries(settings));
      assert categoryMuteStates == InitialMutes(ConfiguredEntries(settings));
      LoadVolumeSettings();
    }

    /** 0 for a muted category, else its stored volume (1 when none is stored). */
    function GetCategoryVolume(category: Category): (r: real)
      reads this
      ensures IsCategoryMuted(category) ==> r == 0.0
      ensures !IsCategoryMuted(category) ==> r == GetStoredCategoryVolume(category)
    {
      if category in categoryMuteStates && categoryMuteStates[category] then 0.0
      else if category in categoryVolumes then categoryVolumes[category] else 1.0
    }

    /** A category with no mute entry is not muted; otherwise its flag decides. */
    predicate IsCategoryMuted(category: Category)
      reads this
      ensures category !in categoryMuteStates ==> !IsCategoryMuted(category)
      ensures category in categoryMuteStates ==> (IsCategoryMuted(category) <==> categoryMuteStates[category])
    {
      category in categoryMuteStates && categoryMuteStates[category]
    }

    /** The stored volume, ignoring the mute flag. */
    function GetStoredCategoryVolume(category: Category): (r: real)
      reads this
      ensures category in categoryVolumes ==> r == categoryVolumes[category]
      ensures category !in categoryVolumes ==> r == 1.0
    {
      if category in categoryVolumes then categoryVolumes[category] else 1.0
    }

    /** Stores the clamped volume for one category and saves both tables. */
    method SetCategoryVolume(category: Category, volume: real)
      modifies this, prefs
      ensures categoryVolumes == old(categoryVolumes)[category := Clamp01(volume)]
      ensures categoryMuteStates == old(categoryMuteStates)
      ensures prefs.entries == SavedTables(old(prefs.entries), categoryVolumes, categoryMuteStates)
      ensures GetCategoryVolume(category) == (if IsCategoryMuted(category) then 0.0 else Clamp01(volume))
      ensures forall other :: other != category ==> GetCategoryVolume(other) == old(GetCategoryVolume(other))
    {
      var v := Clamp01(volume);
      categoryVolumes := categoryVolumes[category := v];
      SaveVolumeSettings();
    }

    /** Stores one category's mute flag and saves both tables. */
    method SetCategoryMute(category: Category, muted: bool)
      modifies this, prefs
      ensures categoryMuteStates == old(categoryMuteStates)[category := muted]
      ensures categoryVolumes == old(categoryVolumes)
      ensures prefs.entries == SavedTables(old(prefs.entries), categoryVolumes, categoryMuteStates)
      ensures IsCategoryMuted(category) == muted
      ensures muted ==> GetCategoryVolume(category) == 0.0
      ensures !muted ==> GetCategoryVolume(category) == GetStoredCategoryVolume(category)
      ensures forall other :: other != category ==> GetCategoryVolume(other) == old(GetCategoryVolume(other))
    {
      categoryMuteStates := categoryMuteStates[category := muted];
      SaveVolumeSettings();
    }

    /** Rescales every live voice of the list, once per occurrence, dividing by the
        stored volume only when it is positive. No list means no change. With a
        positive stored volume an audible category leaves each voice as it was and a
        muted one silences it; with a stored volume of 0 every listed voice is silenced. */
    method ApplyVolumeToSources(category: Category, sources: Option<seq<AudioSource?>>)
      modifies if sources.Some? then Referenced(sources.value) else {}
      ensures sources.Some? ==>
                forall j :: 0 <= j < |sources.value| && sources.value[j] != null ==>
                  sources.value[j].volume ==
                    (if old(sources.value[j].valid)
                     then RepeatedRescale(old(sources.value[j].volume), categoryVolumes, categoryMuteStates,
                                          category, Occurrences(sources.value, sources.value[j]))
                     else old(sources.value[j].volume))
      ensures sources.Some? ==>
                forall j :: 0 <= j < |sources.value| && sources.value[j] != null && old(sources.value[j].valid) ==>
                  && (GetStoredCategoryVolume(category) > 0.0 && !IsCategoryMuted(category) ==>
                        sources.value[j].volume == old(sources.value[j].volume))
                  && (GetCategoryVolume(category) == 0.0 ==> sources.value[j].volume == 0.0)
      ensures sources.Some? ==>
                forall j :: 0 <= j < |sources.value| && sources.value[j] != null ==>
                  sources.value[j].state == old(sources.value[j].state) &&
                  sources.value[j].GetSetup() == old(sources.value[j].GetSetup())
    {
      if sources.None? {
        return;
      }
      var list := sources.value;
      RescaleEach(category, list);
      forall j | 0 <= j < |list| && list[j] != null && old(list[j].valid)
        ensures GetStoredCategoryVolume(category) > 0.0 && !IsCategoryMuted(category) ==>
                  list[j].volume == old(list[j].volume)
        ensures GetCategoryVolume(category) == 0.0 ==> list[j].volume == 0.0
      {
        OccurrencesPositive(list, j);
        if GetStoredCategoryVolume(category) > 0.0 && !IsCategoryMuted(category) {
          RepeatedRescaleAudible(old(list[j].volume), categoryVolumes, categoryMuteStates, category,
                                 Occurrences(list, list[j]));
        }
        if GetCategoryVolume(category) == 0.0 {
          RepeatedRescaleSilent(old(list[j].volume), categoryVolumes, categoryMuteStates, category,
                                Occurrences(list, list[j]));
        }
      }
    }

    /** The loop of `ApplyVolumeToSources` over a list that is present. */
    method RescaleEach(category: Category, list: seq<AudioSource?>)
      modifies Referenced(list)
      ensures forall j :: 0 <= j < |list| && list[j] != null ==>
                list[j].volume ==
                  (if old(list[j].valid)
                   then RepeatedRescale(old(list[j].volume), categoryVolumes, categoryMuteStates,
                                        category, Occurrences(list, list[j]))
                   else old(list[j].volume))
      ensures forall j :: 0 <= j < |list| && list[j] != null ==>
                list[j].state == old(list[j].state) && list[j].GetSetup() == old(list[j].GetSetup())
    {
      var categoryVolume := GetCategoryVolume(category);
      var storedVolume := GetStoredCategoryVolume(category);
      assert categoryVolume == EffectiveVolume(categoryVolumes, categoryMuteStates, category);
      assert storedVolume == StoredVolume(categoryVolumes, category);
      var i := 0;
      while i < |list|
        invariant 0 <= i <= |list|
        invariant forall j :: 0 <= j < |list| && list[j] != null ==>
                    list[j].state == old(list[j].state) && list[j].GetSetup() == old(list[j].GetSetup())
        invariant forall j :: 0 <= j < |list| && list[j] != null ==>
                    list[j].volume ==
                      (if old(list[j].valid)
                       then RepeatedRescale(old(list[j].volume), categoryVolumes, categoryMuteStates,
                                            category, Occurrences(list[..i], list[j]))
                       else old(list[j].volume))
      {
        var source := list[i];
        OccurrencesStep(list, i);
        if source != null && source.valid {
          assert source in Referenced(list);
          ghost var n := Occurrences(list[..i], source);
          ghost var before := RepeatedRescale(old(source.volume), categoryVolumes, categoryMuteStates, category, n);
          assert source.volume == before;
          ScaleVoice(source, storedVolume, categoryVolume, categoryVolumes, categoryMuteStates, category);
          assert source.volume ==
                 RepeatedRescale(old(source.volume), categoryVolumes, categoryMuteStates, category, n + 1);
        }
        i := i + 1;
      }
      assert list[..|list|] == list;
    }

    /** Sets every table entry from the configuration entries, in list order; nothing
        without settings. */
    method InitializeVolumes()
      modifies this
      ensures categoryVolumes == old(categoryVolumes) + InitialVolumes(ConfiguredEntries(settings))
      ensures categoryMuteStates == old(categoryMuteStates) + InitialMutes(ConfiguredEntries(settings))
    {
      if settings == null {
        return;
      }
      var list := settings.categorySettings;
      ghost var vols := categoryVolumes;
      ghost var mutes := categoryMuteStates;
      for i := 0 to |list|
        invariant categoryVolumes == vols + InitialVolumes(list[..i])
        invariant categoryMuteStates == mutes + InitialMutes(list[..i])
      {
        var entry := list[i];
        InitialTablesStep(list, i);
        UnionUpdate(vols, InitialVolumes(list[..i]), entry.category, entry.volume);
        UnionUpdate(mutes, InitialMutes(list[..i]), entry.category, entry.muted);
        categoryVolumes := categoryVolumes[entry.category := entry.volume];
        categoryMuteStates := categoryMuteStates[entry.category := entry.muted];
      }
      assert list[..|list|] == list;
    }

    /** Writes every stored volume under its volume key, then every mute flag under its
        mute key as 1 or 0, in declaration order. */
    method SaveVolumeSettings()
      modifies prefs
      ensures prefs.entries == SavedTables(old(prefs.entries), categoryVolumes, categoryMuteStates)
    {
      var categories := AllCategories;
      for k := 0 to |categories|
        invariant WriteAll(prefs.entries, categories[k..], VolumeKey, VolumeEntries(categoryVolumes))
                  == WriteAll(old(prefs.entries), categories, VolumeKey, VolumeEntries(categoryVolumes))
      {
        var category := categories[k];
        assert categories[k..][1..] == categories[k + 1..];
        if category in categoryVolumes {
          prefs.SetFloat(VolumeKey(category), categoryVolumes[category]);
        }
      }
      ghost var written := prefs.entries;
      for k := 0 to |categories|
        invariant WriteAll(prefs.entries, categories[k..], MuteKey, MuteEntries(categoryMuteStates))
                  == WriteAll(written, categories, MuteKey, MuteEntries(categoryMuteStates))
      {
        var category := categories[k];
        assert categories[k..][1..] == categories[k + 1..];
        if category in categoryMuteStates {
          prefs.SetInt(MuteKey(category), if categoryMuteStates[category] then 1 else 0);
        }
      }
    }

    /** For each category of the volume table, a persisted volume replaces the table's
        value and a persisted mute flag is read as muted exactly when it is 1. */
    method LoadVolumeSettings()
      modifies this
      ensures categoryVolumes == LoadedVolumes(prefs.entries, old(categoryVolumes))
      ensures categoryMuteStates == LoadedMutes(prefs.entries, old(categoryVolumes), old(categoryMuteStates))
    {
      var categories := AllCategories;
      ghost var vols := categoryVolumes;
      ghost var mutes := categoryMuteStates;
      ghost var done: set<Category> := {};
      for k := 0 to |categories|
        invariant done == set c | c in categories[..k]
        invariant categoryVolumes == LoadedVolumesFor(prefs.entries, vols, done)
        invariant categoryMuteStates == LoadedMutesFor(prefs.entries, vols, mutes, done)
      {
        var category := categories[k];
        assert categories[..k + 1] == categories[..k] + [category];
        if category in categoryVolumes {
          var volumeKey := VolumeKey(category);
          if prefs.HasKey(volumeKey) {
            categoryVolumes := categoryVolumes[category := prefs.GetFloat(volumeKey)];
          }
          var muteKey := MuteKey(category);
          if prefs.HasKey(muteKey) {
            categoryMuteStates := categoryMuteStates[category := prefs.GetInt(muteKey) == 1];
          }
        }
        AllCategoriesDistinct();
        LoadOneMore(prefs.entries, vols, mutes, done, category);
        done := done + {category};
      }
      forall c ensures c in done {
        AllCategoriesComplete(c);
        assert categories[..|categories|] == categories;
      }
      LoadedForAll(prefs.entries, vols, mutes, done);
    }
  }
}
