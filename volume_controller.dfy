/**
 * The coordinator's mixer: per-category volume and mute tables, filled from the
 * configuration and then from the store, written back to the store on every change,
 * and applied to a list of voices by rescaling each voice's volume.
 */
module VolumeControl {
  import opened AudioCategories
  import opened Mathf
  import opened Prefs
  import opened Sources
  import opened Mixing
  import opened Settings
  import opened Persistence

  /** One voice of the rescale loop: its volume relative to the stored category
      volume, times the category's volume. Because the stored volume is what the
      category reads when audible, the voice keeps its volume unless the category
      reads 0. */
  method RescaleVoice(source: AudioSource, storedVolume: real, categoryVolume: real,
                      ghost vols: VolumeTable, ghost mutes: MuteTable, ghost c: Category)
    requires storedVolume == StoredVolume(vols, c) && categoryVolume == EffectiveVolume(vols, mutes, c)
    modifies source
    ensures source.volume == (if categoryVolume == 0.0 then 0.0 else old(source.volume))
    ensures source.state == old(source.state) && source.GetSetup() == old(source.GetSetup())
  {
    var relativeVolume := ControllerRelative(source.volume, storedVolume);
    ControllerRescaleOutcome(source.volume, vols, mutes, c);
    source.volume := relativeVolume * categoryVolume;
  }

  class AudioVolumeController {
    var categoryVolumes: VolumeTable
    var categoryMuteStates: MuteTable
    const settings: AudioSettings
    /** The process-wide store, passed in rather than reached as a global. */
    const prefs: PlayerPrefs

    /** Fills the tables from the configuration entries, then overrides them with the
        values persisted for the categories the configuration lists. */
    constructor (settings: AudioSettings, prefs: PlayerPrefs)
      ensures this.settings == settings && this.prefs == prefs
      ensures categoryVolumes == LoadedVolumes(prefs.entries, InitialVolumes(settings.categorySettings))
      ensures categoryMuteStates ==
                LoadedMutes(prefs.entries, InitialVolumes(settings.categorySettings),
                            InitialMutes(settings.categorySettings))
    {
      this.settings := settings;
      this.prefs := prefs;
      categoryVolumes := map[];
      categoryMuteStates := map[];
      new;
      InitializeVolumes();
      assert categoryVolumes == InitialVolumes(settings.categorySettings);
      assert categoryMuteStates == InitialMutes(settings.categorySettings);
      LoadVolumeSettings();
    }

    /** 0 for a muted category, else its stored volume (1 when none is stored). */
    function GetCategoryVolume(category: Category): (r: real)
      reads this
      ensures IsCategoryMuted(category) ==> r == 0.0
      ensures !IsCategoryMuted(category) ==> r == GetStoredCategoryVolume(category)
    {
      if category in categoryMuteStates && categoryMuteStates[category] then 0.0
      else if category in categoryVolumes then categoryVolumes[category] else 1.0
    }

    /** A category with no mute entry is not muted; otherwise its flag decides. */
    predicate IsCategoryMuted(category: Category)
      reads this
      ensures category !in categoryMuteStates ==> !IsCategoryMuted(category)
      ensures category in categoryMuteStates ==> (IsCategoryMuted(category) <==> categoryMuteStates[category])
    {
      category in categoryMuteStates && categoryMuteStates[category]
    }

    /** The stored volume, ignoring the mute flag. */
    function GetStoredCategoryVolume(category: Category): (r: real)
      reads this
      ensures category in categoryVolumes ==> r == categoryVolumes[category]
      ensures category !in categoryVolumes ==> r == 1.0
    {
      if category in categoryVolumes then categoryVolumes[category] else 1.0
    }

    /** Stores the clamped volume for one category and saves both tables. */
    method SetCategoryVolume(category: Category, volume: real)
      modifies this, prefs
      ensures categoryVolumes == old(categoryVolumes)[category := Clamp01(volume)]
      ensures categoryMuteStates == old(categoryMuteStates)
      ensures prefs.entries == SavedTables(old(prefs.entries), categoryVolumes, categoryMuteStates)
      ensures GetCategoryVolume(category) == (if IsCategoryMuted(category) then 0.0 else Clamp01(volume))
      ensures forall other :: other != category ==> GetCategoryVolume(other) == old(GetCategoryVolume(other))
    {
      var v := Clamp01(volume);
      categoryVolumes := categoryVolumes[category := v];
      SaveVolumeSettings();
    }

    /** Stores one category's mute flag and saves both tables. */
    method SetCategoryMute(category: Category, muted: bool)
      modifies this, prefs
      ensures categoryMuteStates == old(categoryMuteStates)[category := muted]
      ensures categoryVolumes == old(categoryVolumes)
      ensures prefs.entries == SavedTables(old(prefs.entries), categoryVolumes, categoryMuteStates)
      ensures IsCategoryMuted(category) == muted
      ensures muted ==> GetCategoryVolume(category) == 0.0
      ensures !muted ==> GetCategoryVolume(category) == GetStoredCategoryVolume(category)
      ensures forall other :: other != category ==> GetCategoryVolume(other) == old(GetCategoryVolume(other))
    {
      categoryMuteStates := categoryMuteStates[category := muted];
      SaveVolumeSettings();
    }

    /** Rescales every live voice of the list by the category's volume, keeping its
        volume relative to the stored category volume. Since the stored volume is the
        value the category reads when audible, an audible category leaves each voice
        as it was and a silent one (muted, or stored at 0) silences it. Null entries
        and destroyed voices are skipped. */
    method ApplyVolumeToSources(category: Category, sources: seq<AudioSource?>)
      modifies Referenced(sources)
      ensures forall j :: 0 <= j < |sources| && sources[j] != null ==>
                sources[j].volume ==
                  (if old(sources[j].valid) && GetCategoryVolume(category) == 0.0 then 0.0
                   else old(sources[j].volume))
      ensures forall j :: 0 <= j < |sources| && sources[j] != null ==>
                sources[j].state == old(sources[j].state) && sources[j].GetSetup() == old(sources[j].GetSetup())
    {
      var categoryVolume := GetCategoryVolume(category);
      var stored := GetStoredCategoryVolume(category);
      assert categoryVolume == EffectiveVolume(categoryVolumes, categoryMuteStates, category);
      assert stored == StoredVolume(categoryVolumes, category);
      var i := 0;
      while i < |sources|
        invariant 0 <= i <= |sources|
        invariant forall j :: 0 <= j < |sources| && sources[j] != null ==>
                    sources[j].state == old(sources[j].state) && sources[j].GetSetup() == old(sources[j].GetSetup())
        invariant forall j :: 0 <= j < |sources| && sources[j] != null ==>
                    sources[j].volume ==
                      (if sources[j] in sources[..i] && old(sources[j].valid) && categoryVolume == 0.0 then 0.0
                       else old(sources[j].volume))
      {
        var source := sources[i];
        if source != null && source.valid {
          assert source in Referenced(sources);
          RescaleVoice(source, stored, categoryVolume, categoryVolumes, categoryMuteStates, category);
        }
        assert sources[..i + 1] == sources[..i] + [sources[i]];
        i := i + 1;
      }
    }

    /** Sets every table entry from the configuration entries, in list order. */
    method InitializeVolumes()
      modifies this
      ensures categoryVolumes == old(categoryVolumes) + InitialVolumes(settings.categorySettings)
      ensures categoryMuteStates == old(categoryMuteStates) + InitialMutes(settings.categorySettings)
    {
      var list := settings.categorySettings;
      ghost var vols := categoryVolumes;
      ghost var mutes := categoryMuteStates;
      for i := 0 to |list|
        invariant categoryVolumes == vols + InitialVolumes(list[..i])
        invariant categoryMuteStates == mutes + InitialMutes(list[..i])
      {
        var entry := list[i];
        InitialTablesStep(list, i);
        UnionUpdate(vols, InitialVolumes(list[..i]), entry.category, entry.volume);
        UnionUpdate(mutes, InitialMutes(list[..i]), entry.category, entry.muted);
        categoryVolumes := categoryVolumes[entry.category := entry.volume];
        categoryMuteStates := categoryMuteStates[entry.category := entry.muted];
      }
      assert list[..|list|] == list;
    }

    /** Writes every stored volume under its volume key, then every mute flag under its
        mute key as 1 or 0. The keys are distinct, so the order of the writes does not
        matter; they are made in declaration order. */
    method SaveVolumeSettings()
      modifies prefs
      ensures prefs.entries == SavedTables(old(prefs.entries), categoryVolumes, categoryMuteStates)
    {
      var categories := AllCategories;
      for k := 0 to |categories|
        invariant WriteAll(prefs.entries, categories[k..], VolumeKey, VolumeEntries(categoryVolumes))
                  == WriteAll(old(prefs.entries), categories, VolumeKey, VolumeEntries(categoryVolumes))
      {
        var category := categories[k];
        assert categories[k..][1..] == categories[k + 1..];
        if category in categoryVolumes {
          prefs.SetFloat(VolumeKey(category), categoryVolumes[category]);
        }
      }
      ghost var written := prefs.entries;
      for k := 0 to |categories|
        invariant WriteAll(prefs.entries, categories[k..], MuteKey, MuteEntries(categoryMuteStates))
                  == WriteAll(written, categories, MuteKey, MuteEntries(categoryMuteStates))
      {
        var category := categories[k];
        assert categories[k..][1..] == categories[k + 1..];
        if category in categoryMuteStates {
          prefs.SetInt(MuteKey(category), if categoryMuteStates[category] then 1 else 0);
        }
      }
    }

    /** For each category of the volume table, a persisted volume replaces the table's
        value and a persisted mute flag is read as muted exactly when it is 1. */
    method LoadVolumeSettings()
      modifies this
      ensures categoryVolumes == LoadedVolumes(prefs.entries, old(categoryVolumes))
      ensures categoryMuteStates == LoadedMutes(prefs.entries, old(categoryVolumes), old(categoryMuteStates))
    {
      var categories := AllCategories;
      ghost var vols := categoryVolumes;
      ghost var mutes := categoryMuteStates;
      ghost var done: set<Category> := {};
      for k := 0 to |categories|
        invariant done == set c | c in categories[..k]
        invariant categoryVolumes == LoadedVolumesFor(prefs.entries, vols, done)
        invariant categoryMuteStates == LoadedMutesFor(prefs.entries, vols, mutes, done)
      {
        var category := categories[k];
        assert categories[..k + 1] == categories[..k] + [category];
        if category in categoryVolumes {
          var volumeKey := VolumeKey(category);
          if prefs.HasKey(volumeKey) {
            categoryVolumes := categoryVolumes[category := prefs.GetFloat(volumeKey)];
          }
          var muteKey := MuteKey(category);
          if prefs.HasKey(muteKey) {
            categoryMuteStates := categoryMuteStates[category := prefs.GetInt(muteKey) == 1];
          }
        }
        AllCategoriesDistinct();
        LoadOneMore(prefs.entries, vols, mutes, done, category);
        done := done + {category};
      }
      forall c ensures c in done {
        AllCategoriesComplete(c);
        assert categories[..|categories|] == categories;
      }
      LoadedForAll(prefs.entries, vols, mutes, done);
    }
  }
}
