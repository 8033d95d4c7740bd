/**
 * The coordinator: owns the voice pool, the mixer and one list of sounding voices
 * per category. It starts voices, hands finished one-shot voices back to the pool,
 * and applies category-wide stop, pause, resume and volume changes to the lists.
 *
 * The engine's completion coroutines become an explicit list of watches, each
 * resumed on its own by `ResumeWatch`; a fade becomes a loop over the frames it
 * lasts.
 */
module Coordinator {
  import opened Wrappers
  import opened AudioCategories
  import opened Mathf
  import opened Prefs
  import opened Sources
  import opened SourcePool
  import opened Settings
  import opened Mixing
  import opened Persistence
  import opened Effects
  import opened Sweeps
  import opened VolumeControl
  import opened ActiveLists

  class AudioSystem {
    const settings: AudioSettings
    const pool: AudioSourcePool
    const volumeController: AudioVolumeController
    var activeSources: Lists
    /** The completion watches started and not yet finished, oldest first. */
    var watches: seq<Watch>

    /** Every voice the coordinator refers to was created by its pool, and every
        watch's category has a list. */
    ghost predicate Valid()
      reads this, pool
    {
      && (forall c, s :: c in activeSources && s in activeSources[c] ==> s in pool.children)
      && (forall w :: w in watches ==> w.source in pool.children && w.category in activeSources)
      && (forall s :: s in pool.available ==> s in pool.children)
    }

    /** Builds the pool with its initial voices and its ceiling, the mixer (which
        reads the store), and an empty list for every configured category. */
    constructor (settings: AudioSettings, prefs: PlayerPrefs)
      ensures this.settings == settings
      ensures fresh(pool) && pool.maxPoolSize == settings.maxPoolSize
      ensures |pool.children| == Max(settings.initialPoolSize, 0) && pool.available == pool.children
      ensures forall i :: 0 <= i < |pool.children| ==> pool.children[i].valid && Neutral(pool.children[i])
      ensures fresh(volumeController) && volumeController.settings == settings && volumeController.prefs == prefs
      ensures volumeController.categoryVolumes ==
                LoadedVolumes(prefs.entries, InitialVolumes(settings.categorySettings))
      ensures volumeController.categoryMuteStates ==
                LoadedMutes(prefs.entries, InitialVolumes(settings.categorySettings),
                            InitialMutes(settings.categorySettings))
      ensures activeSources == CategoryLists(settings.categorySettings)
      ensures watches == []
      ensures Valid()
    {
      this.settings := settings;
      pool := new AudioSourcePool(settings.initialPoolSize, settings.maxPoolSize);
      volumeController := new AudioVolumeController(settings, prefs);
      activeSources := map[];
      watches := [];
      new;
      assert Valid() by {
        assert pool.available == pool.children;
      }
      InitializeCategories();
      EmptyUnion(CategoryLists(settings.categorySettings));
    }

    /** Creates an empty list for each configured category, in list order. */
    method InitializeCategories()
      requires Valid()
      modifies this
      ensures activeSources == old(activeSources) + CategoryLists(settings.categorySettings)
      ensures watches == old(watches)
      ensures Valid()
    {
      var list := settings.categorySettings;
      ghost var before := activeSources;
      for i := 0 to |list|
        invariant activeSources == before + CategoryLists(list[..i])
        invariant watches == old(watches)
        invariant Valid()
      {
        var category := list[i].category;
        assert list[..i + 1][..i] == list[..i];
        UnionUpdate(before, CategoryLists(list[..i]), category, []);
        activeSources := activeSources[category := []];
      }
      assert list[..|list|] == list;
    }

    /** Sets a started voice up: its clip, looping, its volume scaled by the
        category's volume, and 2D playback. */
    method ConfigureAudioSource(source: AudioSource, clip: Clip, loop: bool, volume: real, category: Category)
      modifies source
      ensures source.clip == Some(clip) && source.loop == loop && source.spatialBlend == 0.0
      ensures source.volume == volume * volumeController.GetCategoryVolume(category)
      ensures source.valid == old(source.valid) && source.state == old(source.state)
      ensures source.pitch == old(source.pitch) && source.playOnAwake == old(source.playOnAwake)
      ensures source.localPosition == old(source.localPosition)
    {
      source.clip := Some(clip);
      source.loop := loop;
      source.volume := volume * volumeController.GetCategoryVolume(category);
      source.spatialBlend := 0.0;
    }

    /** Plays a clip in a category. Nothing happens without a clip; a pool that yields
        no live voice starts nothing. A category without a list raises an exception
        after the voice was taken and configured, so that voice is lost to the pool.
        Otherwise the voice is listed, started, and watched unless it loops. `taken`
        is the voice the pool handed out, null when it handed out none; no other
        voice is touched. */
    method PlayInternal(clip: Option<Clip>, category: Category, loop: bool, volume: real)
      returns (result: PlayResult, ghost taken: AudioSource?)
      requires Valid()
      modifies this, pool, pool.children
      ensures Valid()
      ensures clip.None? ==>
                result == NotStarted && taken == null &&
                pool.available == old(pool.available) && pool.children == old(pool.children)
      ensures clip.Some? ==>
                HandedOut(old(pool.available), old(pool.children), pool.maxPoolSize,
                          old(VoiceAt(pool.children, FirstInactive(pool.children))),
                          pool.available, pool.children, taken)
      ensures taken != null && taken !in old(pool.children) ==> fresh(taken)
      ensures forall v :: v in old(pool.children) && v != taken ==> unchanged(v)
      ensures result.Started? <==>
                taken != null && (taken in old(pool.children) ==> old(taken.valid)) && category in old(activeSources)
      ensures result.Threw? <==>
                taken != null && (taken in old(pool.children) ==> old(taken.valid)) && category !in old(activeSources)
      ensures result.Threw? ==>
                && taken.clip == clip && taken.loop == loop && taken.spatialBlend == 0.0
                && taken.volume == volume * old(volumeController.GetCategoryVolume(category))
      ensures !result.Started? ==> activeSources == old(activeSources) && watches == old(watches)
      ensures result.Started? ==>
                var s := result.source;
                && s == taken
                && activeSources == old(activeSources)[category := old(activeSources[category]) + [s]]
                && watches == old(watches) + (if loop then [] else [Watch(s, category)])
                && s.valid && s.state == Playing && s.clip == clip && s.loop == loop
                && s.volume == volume * old(volumeController.GetCategoryVolume(category))
                && s.spatialBlend == 0.0
    {
      taken := null;
      if clip.None? {
        return NotStarted, taken;
      }
      var source := pool.GetSource();
      taken := source;
      if source == null || !source.valid {
        return NotStarted, taken;
      }
      result := Launch(source, clip.value, category, loop, volume);
    }

    /** Sets a live handed-out voice up, then lists, starts and watches it when its
        category has a list; without one the call raises and the voice stays set up. */
    method Launch(source: AudioSource, clip: Clip, category: Category, loop: bool, volume: real)
      returns (result: PlayResult)
      requires Valid() && source in pool.children && source.valid
      modifies this, source
      ensures Valid()
      ensures result == (if category in old(activeSources) then Started(source) else Threw)
      ensures source.valid && source.clip == Some(clip) && source.loop == loop && source.spatialBlend == 0.0
      ensures source.volume == volume * old(volumeController.GetCategoryVolume(category))
      ensures result.Threw? ==> activeSources == old(activeSources) && watches == old(watches)
      ensures result.Started? ==>
                && activeSources == old(activeSources)[category := old(activeSources[category]) + [source]]
                && watches == old(watches) + (if loop then [] else [Watch(source, category)])
                && source.state == Playing
    {
      ConfigureAudioSource(source, clip, loop, volume, category);
      if category !in activeSources {
        return Threw;
      }
      Enlist(source, category, loop);
      return Started(source);
    }

    /** Lists a set-up voice under its category, starts it, and watches it unless it
        loops. */
    method Enlist(source: AudioSource, category: Category, loop: bool)
      requires Valid() && source in pool.children && category in activeSources
      modifies this, source
      ensures Valid()
      ensures activeSources == old(activeSources)[category := old(activeSources[category]) + [source]]
      ensures watches == old(watches) + (if loop then [] else [Watch(source, category)])
      ensures source.state == (if source.clip.Some? then Playing else old(source.state))
      ensures source.volume == old(source.volume) && source.GetSetup() == old(source.GetSetup())
    {
      activeSources := activeSources[category := activeSources[category] + [source]];
      source.Play();
      if !loop {
        watches := watches + [Watch(source, category)];
      }
    }

    /** The resumption of the completion coroutine of watch `i`. While its voice is
        alive and playing the wait goes on and nothing changes. Once the voice is not
        playing (finished, stopped or paused) the coroutine ends: a live voice is taken
        out of its category's list, its first occurrence only, and handed back to the
        pool; a destroyed voice is left alone. */
    method ResumeWatch(i: nat) returns (ended: bool)
      requires Valid() && i < |watches|
      modifies this, pool, watches[i].source
      ensures Valid()
      ensures ended <==> old(FateOf(watches[i])) != KeepWaiting
      ensures pool.children == old(pool.children)
      ensures !ended ==> watches == old(watches) && activeSources == old(activeSources) &&
                         pool.available == old(pool.available) && unchanged(old(watches[i].source))
      ensures ended ==> watches == old(watches[..i] + watches[i + 1..])
      ensures old(FateOf(watches[i])) == Drop ==>
                activeSources == old(activeSources) && pool.available == old(pool.available) &&
                unchanged(old(watches[i].source))
      ensures old(FateOf(watches[i])) == Reclaim ==>
                var w := old(watches[i]);
                && activeSources == old(activeSources)[w.category := RemoveFirst(old(activeSources[w.category]), w.source)]
                && pool.available == old(pool.available) + [w.source]
                && w.source.valid && Neutral(w.source)
                && w.source.playOnAwake == old(w.source.playOnAwake)
    {
      var w := watches[i];
      var source := w.source;
      if source.valid && source.IsPlaying() {
        return false;
      }
      assert forall x :: x in watches[..i] + watches[i + 1..] ==> x in watches;
      watches := watches[..i] + watches[i + 1..];
      if source.valid {
        activeSources := activeSources[w.category := RemoveFirst(activeSources[w.category], source)];
        pool.ReturnSource(source);
      }
      return true;
    }

    /** Re-applies the category's volume to the voices of its list, when it has one. */
    method UpdateActiveSources(category: Category)
      requires Valid()
      modifies pool.children
      ensures category in activeSources ==>
                forall j :: 0 <= j < |activeSources[category]| ==>
                  activeSources[category][j].volume ==
                    (if old(activeSources[category][j].valid) && volumeController.GetCategoryVolume(category) == 0.0
                     then 0.0 else old(activeSources[category][j].volume))
      ensures forall v :: v in pool.children && (category !in activeSources || v !in activeSources[category]) ==>
                v.volume == old(v.volume)
      ensures forall v :: v in pool.children ==>
                v.state == old(v.state) && v.GetSetup() == old(v.GetSetup())
    {
      if category in activeSources {
        var list := activeSources[category];
        assert forall v :: v in Referenced(list) ==> v in list && v in pool.children;
        volumeController.ApplyVolumeToSources(category, list);
      }
    }

    /** Stores a category's volume (clamped), saves the tables, and re-applies the
        category to its voices. Since the re-apply divides by the value just stored,
        an audible voice keeps its volume and a category that now reads 0 silences its
        voices. */
    method SetCategoryVolume(category: Category, volume: real)
      requires Valid()
      modifies volumeController, volumeController.prefs, pool.children
      ensures volumeController.categoryVolumes == old(volumeController.categoryVolumes)[category := Clamp01(volume)]
      ensures volumeController.categoryMuteStates == old(volumeController.categoryMuteStates)
      ensures volumeController.prefs.entries ==
                SavedTables(old(volumeController.prefs.entries), volumeController.categoryVolumes,
                            volumeController.categoryMuteStates)
      ensures category in activeSources ==>
                forall j :: 0 <= j < |activeSources[category]| ==>
                  activeSources[category][j].volume ==
                    (if old(activeSources[category][j].valid) && volumeController.GetCategoryVolume(category) == 0.0
                     then 0.0 else old(activeSources[category][j].volume))
      ensures forall v :: v in pool.children && (category !in activeSources || v !in activeSources[category]) ==>
                v.volume == old(v.volume)
      ensures forall v :: v in pool.children ==>
                v.state == old(v.state) && v.GetSetup() == old(v.GetSetup())
    {
      volumeController.SetCategoryVolume(category, volume);
      UpdateActiveSources(category);
    }

    /** Stores a category's mute flag, saves the tables, and re-applies the category:
        muting silences its live voices; unmuting leaves them as they are when the
        stored volume is positive and silences them when it is 0. */
    method SetCategoryMute(category: Category, muted: bool)
      requires Valid()
      modifies volumeController, volumeController.prefs, pool.children
      ensures volumeController.categoryMuteStates == old(volumeController.categoryMuteStates)[category := muted]
      ensures volumeController.categoryVolumes == old(volumeController.categoryVolumes)
      ensures volumeController.prefs.entries ==
                SavedTables(old(volumeController.prefs.entries), volumeController.categoryVolumes,
                            volumeController.categoryMuteStates)
      ensures category in activeSources ==>
                forall j :: 0 <= j < |activeSources[category]| ==>
                  activeSources[category][j].volume ==
                    (if old(activeSources[category][j].valid) && volumeController.GetCategoryVolume(category) == 0.0
                     then 0.0 else old(activeSources[category][j].volume))
      ensures forall v :: v in pool.children && (category !in activeSources || v !in activeSources[category]) ==>
                v.volume == old(v.volume)
      ensures forall v :: v in pool.children ==>
                v.state == old(v.state) && v.GetSetup() == old(v.GetSetup())
    {
      volumeController.SetCategoryMute(category, muted);
      UpdateActiveSources(category);
    }

    /** Stops every live voice of a category's list and empties the list. The voices
        are not handed back to the pool here; a one-shot voice goes back when its
        completion watch sees it stopped, a looping one never does. */
    method StopSourcesInList(category: Category)
      requires Valid() && category in activeSources
      modifies this, pool.children
      ensures Valid() && watches == old(watches)
      ensures activeSources == old(activeSources)[category := []]
      ensures forall v :: v in old(activeSources[category]) ==> v.state == (if v.valid then Stopped else old(v.state))
      ensures forall v :: v in pool.children && v !in old(activeSources[category]) ==> v.state == old(v.state)
      ensures forall v :: v in pool.children ==>
                v.valid == old(v.valid) && v.volume == old(v.volume) && v.GetSetup() == old(v.GetSetup())
    {
      var list := activeSources[category];
      assert forall v :: v in list ==> v in pool.children;
      ApplyToEach(list, StopVoice);
      activeSources := activeSources[category := []];
    }

    /** Stops one category; a category without a list is ignored. */
    method StopCategory(category: Category)
      requires Valid()
      modifies this, pool.children
      ensures Valid() && watches == old(watches)
      ensures activeSources == (if category in old(activeSources) then old(activeSources)[category := []]
                                else old(activeSources))
      ensures category in old(activeSources) ==>
                forall v :: v in old(activeSources[category]) ==> v.state == (if v.valid then Stopped else old(v.state))
      ensures forall v :: v in pool.children && (category !in old(activeSources) || v !in old(activeSources[category])) ==>
                v.state == old(v.state)
      ensures forall v :: v in pool.children ==>
                v.valid == old(v.valid) && v.volume == old(v.volume) && v.GetSetup() == old(v.GetSetup())
    {
      if category in activeSources {
        StopSourcesInList(category);
      }
    }

    /** Stops the voices of every list and empties every list. */
    method StopAll()
      requires Valid()
      modifies this, pool.children
      ensures Valid() && watches == old(watches)
      ensures activeSources.Keys == old(activeSources).Keys
      ensures forall c :: c in activeSources ==> activeSources[c] == []
      ensures forall v :: v in pool.children ==>
                v.state == (if v in ListedVoices(old(activeSources), AllCategories) && v.valid then Stopped
                            else old(v.state))
      ensures forall v :: v in pool.children ==>
                v.valid == old(v.valid) && v.volume == old(v.volume) && v.GetSetup() == old(v.GetSetup())
    {
      forall v | v in ListedVoices(activeSources, AllCategories) ensures v in pool.children {
        ListedVoicesAll(activeSources, v);
      }
      ghost var before := activeSources;
      StopListed(activeSources);
      forall v | v in ListedVoices(before, AllCategories)
        ensures v.state == (if v.valid then Stopped else old(v.state))
        ensures v.valid == old(v.valid) && v.volume == old(v.volume) && v.GetSetup() == old(v.GetSetup())
      {
        ListedVoicesAll(before, v);
      }
      activeSources := map c | c in activeSources :: [];
    }

    /** Pauses the playing voices of a category's list; the list is kept. */
    method PauseCategory(category: Category)
      requires Valid()
      modifies pool.children
      ensures category in activeSources ==>
                forall v :: v in activeSources[category] ==>
                  v.state == (if v.valid && old(v.state) == Playing then Paused else old(v.state))
      ensures forall v :: v in pool.children && (category !in activeSources || v !in activeSources[category]) ==>
                v.state == old(v.state)
      ensures forall v :: v in pool.children ==> v.volume == old(v.volume) && v.GetSetup() == old(v.GetSetup())
    {
      if category in activeSources {
        var list := activeSources[category];
        assert forall v :: v in list ==> v in pool.children;
        ApplyToEach(list, PauseVoice);
      }
    }

    /** Unpauses the paused voices of a category's list; the list is kept. */
    method ResumeCategory(category: Category)
      requires Valid()
      modifies pool.children
      ensures category in activeSources ==>
                forall v :: v in activeSources[category] ==>
                  v.state == (if v.valid && old(v.state) == Paused then Playing else old(v.state))
      ensures forall v :: v in pool.children && (category !in activeSources || v !in activeSources[category]) ==>
                v.state == old(v.state)
      ensures forall v :: v in pool.children ==> v.volume == old(v.volume) && v.GetSetup() == old(v.GetSetup())
    {
      if category in activeSources {
        var list := activeSources[category];
        assert forall v :: v in list ==> v in pool.children;
        ApplyToEach(list, ResumeVoice);
      }
    }

    /** Plays a one-shot clip at a position, as a 3D sound. The voice sits under the
        coordinator's object, which is taken to be at the origin, so its local
        position is the requested position. */
    method PlayAtPosition(clip: Option<Clip>, position: Vec3, category: Category, volume: real)
      returns (result: PlayResult, ghost taken: AudioSource?)
      requires Valid()
      modifies this, pool, pool.children
      ensures Valid()
      ensures clip.None? ==>
                result == NotStarted && taken == null &&
                pool.available == old(pool.available) && pool.children == old(pool.children)
      ensures clip.Some? ==>
                HandedOut(old(pool.available), old(pool.children), pool.maxPoolSize,
                          old(VoiceAt(pool.children, FirstInactive(pool.children))),
                          pool.available, pool.children, taken)
      ensures taken != null && taken !in old(pool.children) ==> fresh(taken)
      ensures forall v :: v in old(pool.children) && v != taken ==> unchanged(v)
      ensures result.Started? <==>
                taken != null && (taken in old(pool.children) ==> old(taken.valid)) && category in old(activeSources)
      ensures result.Threw? <==>
                taken != null && (taken in old(pool.children) ==> old(taken.valid)) && category !in old(activeSources)
      ensures result.Threw? ==>
                && taken.clip == clip && !taken.loop && taken.spatialBlend == 0.0
                && taken.volume == volume * old(volumeController.GetCategoryVolume(category))
      ensures !result.Started? ==> activeSources == old(activeSources) && watches == old(watches)
      ensures result.Started? ==>
                var s := result.source;
                && s == taken
                && activeSources == old(activeSources)[category := old(activeSources[category]) + [s]]
                && watches == old(watches) + [Watch(s, category)]
                && s.valid && s.state == Playing && s.clip == clip && !s.loop
                && s.volume == volume * old(volumeController.GetCategoryVolume(category))
                && s.localPosition == position && s.spatialBlend == 1.0
    {
      result, taken := PlayInternal(clip, category, false, volume);
      if result.Started? {
        var source := result.source;
        source.localPosition := position;
        source.spatialBlend := 1.0;
      }
    }

    /** Plays a one-shot clip from silence and fades it in to the category's volume
        over `fadeTime` seconds (the configured default when negative), one step per
        frame. */
    method PlayWithFadeIn(clip: Option<Clip>, category: Category, fadeTime: real, frames: seq<Frame>)
      returns (result: PlayResult, finished: bool, ghost taken: AudioSource?)
      requires Valid() && PositiveDeltas(frames)
      modifies this, pool, pool.children
      ensures Valid()
      ensures clip.None? ==>
                result == NotStarted && taken == null &&
                pool.available == old(pool.available) && pool.children == old(pool.children)
      ensures clip.Some? ==>
                HandedOut(old(pool.available), old(pool.children), pool.maxPoolSize,
                          old(VoiceAt(pool.children, FirstInactive(pool.children))),
                          pool.available, pool.children, taken)
      ensures taken != null && taken !in old(pool.children) ==> fresh(taken)
      ensures forall v :: v in old(pool.children) && v != taken ==> unchanged(v)
      ensures result.Started? <==>
                taken != null && (taken in old(pool.children) ==> old(taken.valid)) && category in old(activeSources)
      ensures result.Threw? <==>
                taken != null && (taken in old(pool.children) ==> old(taken.valid)) && category !in old(activeSources)
      ensures result.Threw? ==>
                taken.clip == clip && !taken.loop && taken.spatialBlend == 0.0 && taken.volume == 0.0
      ensures !result.Started? ==> activeSources == old(activeSources) && watches == old(watches)
      ensures result.Started? ==>
                var s := result.source;
                && s == taken
                && activeSources == old(activeSources)[category := old(activeSources[category]) + [s]]
                && watches == old(watches) + [Watch(s, category)]
                && s.clip == clip && !s.loop && s.spatialBlend == 0.0
                && Between(s.volume, 0.0, volumeController.GetCategoryVolume(category))
                && (finished && s.valid ==> s.volume == volumeController.GetCategoryVolume(category))
                && (!finished ==> s.valid)
                && (NoneDestroyed(frames) ==> s.valid)
                && (AllIdle(frames) ==> s.state == Playing)
      ensures result.Started? && Elapsed(frames) >= (if fadeTime < 0.0 then settings.defaultFadeInTime else fadeTime) ==>
                finished
    {
      var time := if fadeTime < 0.0 then settings.defaultFadeInTime else fadeTime;
      finished := true;
      result, taken := PlayInternal(clip, category, false, 0.0);
      if result.Started? {
        var source := result.source;
        var targetVolume := volumeController.GetCategoryVolume(category);
        ghost var levels: seq<real>;
        finished, levels := Effects.FadeIn(source, time, targetVolume, frames);
        if !(finished && source.valid) && levels != [] {
          assert Between(levels[|levels| - 1], 0.0, targetVolume);
        }
      }
    }

    /** Fades a voice out over `fadeTime` seconds (the configured default when
        negative), then stops it and puts its volume back. A null voice is ignored. */
    method FadeOut(source: AudioSource?, fadeTime: real, frames: seq<Frame>) returns (finished: bool)
      requires PositiveDeltas(frames)
      modifies source
      ensures source == null ==> finished
      ensures source != null && finished && source.valid ==>
                source.state == Stopped && source.volume == old(source.volume)
      ensures source != null ==> source.GetSetup() == old(source.GetSetup()).(valid := source.valid)
      ensures source != null && NoneDestroyed(frames) ==> source.valid == old(source.valid)
      ensures source != null && old(source.valid) && AllIdle(frames) ==>
                source.state == (if finished then Stopped else old(source.state))
      ensures Elapsed(frames) >= (if fadeTime < 0.0 then settings.defaultFadeOutTime else fadeTime) ==> finished
    {
      if source == null {
        return true;
      }
      var time := if fadeTime < 0.0 then settings.defaultFadeOutTime else fadeTime;
      ghost var levels: seq<real>;
      finished, levels := Effects.FadeOut(source, time, frames);
    }
  }
}
