/**
 * The legacy player: the older single-class manager with its own idle queue of
 * voices, one volume table (no separate mute flags), one list of sounding voices
 * per category, completion watches and fades. It differs from the coordinator in
 * ways the contracts below make explicit: muting overwrites the stored volume, the
 * re-apply divides by the value just stored, a returned voice keeps its spatial
 * blend, and a fade-out leaves the voice silent.
 *
 * An exception the engine would raise (reading a destroyed voice, a category
 * without a list) ends the operation at that point: a play reports `Threw`, a
 * volume change reports `threw`, a fade or a watch simply ends.
 */
module LegacyPlayer {
  import opened Wrappers
  import opened AudioCategories
  import opened Mathf
  import opened Prefs
  import opened Sources
  import opened SourcePool
  import opened Settings
  import opened Mixing
  import opened Persistence
  import opened Effects
  import opened Sweeps
  import opened ActiveLists

  /** Where the recycle scan stops: at the first child that is destroyed (asking it
      whether it plays raises an exception) or that is not playing. */
  function FirstStop(children: seq<AudioSource>): (r: Option<nat>)
    reads children
    ensures r.Some? ==> r.value < |children| && !(children[r.value].valid && children[r.value].IsPlaying())
    ensures r.Some? ==> forall j :: 0 <= j < r.value ==> children[j].valid && children[j].IsPlaying()
    ensures r.None? <==> forall j :: 0 <= j < |children| ==> children[j].valid && children[j].IsPlaying()
  {
    if children == [] then None
    else if !(children[0].valid && children[0].IsPlaying()) then Some(0)
    else match FirstStop(children[1..])
      case None => None
      case Some(i) => Some(i + 1)
  }

  /** The recycle scan raises: the child it stops at is destroyed. */
  predicate ScanThrows(children: seq<AudioSource>)
    reads children
  {
    FirstStop(children).Some? && !children[FirstStop(children).value].valid
  }

  /** The voice the recycle scan hands out: the child it stops at when that one is
      alive, else null. */
  function ScanPick(children: seq<AudioSource>): (r: AudioSource?)
    reads children
    ensures r != null ==> r in children && r.valid && !r.IsPlaying()
    ensures r == null <==> FirstStop(children).None? || ScanThrows(children)
  {
    if ScanThrows(children) then null else VoiceAt(children, FirstStop(children))
  }

  /** The list of configuration entries with the mute flag of the first entry for
      `c` set: the entries are shared objects, so the lookup's result is the entry
      itself. Without an entry the lookup makes a fresh one and the list is kept. */
  function MarkMuted(list: seq<CategorySettings>, c: Category, muted: bool): (r: seq<CategorySettings>)
    ensures |r| == |list|
    ensures FindFirst(list, c).Some? ==>
              var i := FindFirst(list, c).value;
              r[i] == list[i].(muted := muted) && FindFirst(r, c) == FindFirst(list, c)
    ensures forall j :: 0 <= j < |list| && FindFirst(list, c) != Some(j) ==> r[j] == list[j]
  {
    match FindFirst(list, c)
    case Some(i) =>
      var r := list[i := list[i].(muted := muted)];
      assert FindFirst(r, c) == FindFirst(list, c) by {
        RelabelKeepsFirst(list, r, c, i);
      }
      r
    case None => list
  }

  lemma RelabelKeepsFirst(list: seq<CategorySettings>, r: seq<CategorySettings>, c: Category, i: nat)
    requires FindFirst(list, c) == Some(i)
    requires |r| == |list| && forall j :: 0 <= j < |list| ==> r[j].category == list[j].category
    ensures FindFirst(r, c) == Some(i)
  {
    assert r[i].category == c;
  }

  /** One voice of the re-apply loop: its volume divided by the category's new
      volume, times that volume. The division falls back to the raw volume at 0. */
  method RescaleVoice(source: AudioSource, newVolume: real)
    modifies source
    ensures source.volume == (if newVolume == 0.0 then 0.0 else old(source.volume))
    ensures source.state == old(source.state) && source.GetSetup() == old(source.GetSetup())
  {
    var relativeVolume := ControllerRelative(source.volume, newVolume);
    RelativeThenScale(source.volume, newVolume);
    source.volume := relativeVolume * newVolume;
  }

  /** Re-applies a new category volume to each live voice of a list, in order. */
  method RescaleList(list: seq<AudioSource>, newVolume: real)
    modifies set v | v in list
    ensures forall v :: v in list ==>
              v.volume == (if old(v.valid) && newVolume == 0.0 then 0.0 else old(v.volume))
    ensures forall v :: v in list ==> v.state == old(v.state) && v.GetSetup() == old(v.GetSetup())
  {
    for i := 0 to |list|
      invariant forall v :: v in list ==>
                  v.volume == (if v in list[..i] && old(v.valid) && newVolume == 0.0 then 0.0 else old(v.volume))
      invariant forall v :: v in list ==> v.state == old(v.state) && v.GetSetup() == old(v.GetSetup())
    {
      var source := list[i];
      assert list[..i + 1] == list[..i] + [source];
      if source.valid {
        RescaleVoice(source, newVolume);
      }
    }
    assert list[..|list|] == list;
  }

  class AudioPlayer {
    const settings: AudioSettings
    /** The process-wide store, passed in rather than reached as a global. */
    const prefs: PlayerPrefs
    var activeSources: Lists
    /** Idle voices, front of the queue first. */
    var audioSourcePool: seq<AudioSource>
    /** Every voice created, in creation order (the player object's children). */
    var children: seq<AudioSource>
    var categoryVolumes: VolumeTable
    /** The completion watches started and not yet finished, oldest first. */
    var watches: seq<Watch>

    /** Every voice the player refers to is one of its children, and every watch's
        category has a list. */
    ghost predicate Valid()
      reads this
    {
      && (forall c, s :: c in activeSources && s in activeSources[c] ==> s in children)
      && (forall w :: w in watches ==> w.source in children && w.category in activeSources)
      && (forall s :: s in audioSourcePool ==> s in children)
    }

    /** Builds the player from its configuration: the volume table and an empty list
        per configured category, the initial idle voices, then the persisted volumes. */
    constructor (settings: AudioSettings, prefs: PlayerPrefs)
      ensures this.settings == settings && this.prefs == prefs
      ensures categoryVolumes == LegacyLoaded(prefs.entries, InitialVolumes(settings.categorySettings))
      ensures activeSources == CategoryLists(settings.categorySettings)
      ensures |children| == Max(settings.initialPoolSize, 0) && audioSourcePool == children
      ensures forall i :: 0 <= i < |children| ==>
                fresh(children[i]) && children[i].valid && Neutral(children[i]) && !children[i].playOnAwake
      ensures watches == []
      ensures Valid()
    {
      this.settings := settings;
      this.prefs := prefs;
      activeSources := map[];
      audioSourcePool := [];
      children := [];
      categoryVolumes := map[];
      watches := [];
      new;
      InitializeManager();
    }

    method InitializeManager()
      requires categoryVolumes == map[] && activeSources == map[]
      requires children == [] && audioSourcePool == [] && watches == []
      modifies this
      ensures categoryVolumes == LegacyLoaded(prefs.entries, InitialVolumes(settings.categorySettings))
      ensures activeSources == CategoryLists(settings.categorySettings)
      ensures |children| == Max(settings.initialPoolSize, 0) && audioSourcePool == children
      ensures forall i :: 0 <= i < |children| ==>
                fresh(children[i]) && children[i].valid && Neutral(children[i]) && !children[i].playOnAwake
      ensures watches == []
      ensures Valid()
    {
      var list := settings.categorySettings;
      for i := 0 to |list|
        invariant categoryVolumes == InitialVolumes(list[..i])
        invariant activeSources == CategoryLists(list[..i])
        invariant children == [] && audioSourcePool == [] && watches == []
      {
        var entry := list[i];
        InitialTablesStep(list, i);
        assert list[..i + 1][..i] == list[..i];
        categoryVolumes := categoryVolumes[entry.category := entry.volume];
        activeSources := activeSources[entry.category := []];
      }
      assert list[..|list|] == list;
      var n := 0;
      while n < settings.initialPoolSize
        invariant 0 <= n <= Max(settings.initialPoolSize, 0)
        invariant |children| == n && audioSourcePool == children
        invariant forall i :: 0 <= i < n ==>
                    fresh(children[i]) && children[i].valid && Neutral(children[i]) && !children[i].playOnAwake
        invariant categoryVolumes == InitialVolumes(list) && activeSources == CategoryLists(list) && watches == []
      {
        var source := CreateAudioSource();
        n := n + 1;
      }
      LoadVolumeSettings();
      forall c | c in activeSources ensures activeSources[c] == [] {
        CategoryListsKeys(list, c);
      }
    }

    /** Adds one new voice to the children and to the back of the idle queue. */
    method CreateAudioSource() returns (source: AudioSource)
      modifies this
      ensures fresh(source)
      ensures children == old(children) + [source] && audioSourcePool == old(audioSourcePool) + [source]
      ensures source.valid && Neutral(source) && !source.playOnAwake
      ensures activeSources == old(activeSources) && categoryVolumes == old(categoryVolumes)
      ensures watches == old(watches)
    {
      source := new AudioSource();
      source.playOnAwake := false;
      children := children + [source];
      audioSourcePool := audioSourcePool + [source];
    }

    /** The recycle scan over the children in creation order: the first voice that is
        not playing, handed out as it is; or an exception at a destroyed voice met
        first; or null when every voice plays. */
    method ScanChildren() returns (source: AudioSource?, threw: bool)
      ensures threw <==> FirstStop(children).Some? && !children[FirstStop(children).value].valid
      ensures !threw ==> source == VoiceAt(children, FirstStop(children))
      ensures source != null ==> !threw && source in children && source.valid && !source.IsPlaying()
    {
      for i := 0 to |children|
        invariant forall j :: 0 <= j < i ==> children[j].valid && children[j].IsPlaying()
      {
        var s := children[i];
        if !s.valid {
          return null, true;
        }
        if !s.IsPlaying() {
          return s, false;
        }
      }
      return null, false;
    }

    /** Hands out a voice: the front of the idle queue; else a new voice while the
        children are fewer than the configured ceiling; else the result of the
        recycle scan, which dequeues nothing. */
    method GetAudioSource() returns (source: AudioSource?, threw: bool)
      requires Valid()
      modifies this
      ensures Valid()
      ensures activeSources == old(activeSources) && categoryVolumes == old(categoryVolumes)
      ensures watches == old(watches)
      ensures old(|audioSourcePool|) > 0 ==>
                && !threw && source == old(audioSourcePool[0])
                && audioSourcePool == old(audioSourcePool[1..]) && children == old(children)
      ensures old(|audioSourcePool|) == 0 && old(|children|) < settings.maxPoolSize ==>
                && !threw && source != null && fresh(source)
                && children == old(children) + [source] && audioSourcePool == []
                && source.valid && Neutral(source) && !source.playOnAwake
      ensures old(|audioSourcePool|) == 0 && old(|children|) >= settings.maxPoolSize ==>
                && children == old(children) && audioSourcePool == old(audioSourcePool)
                && (threw <==> FirstStop(children).Some? && !children[FirstStop(children).value].valid)
                && (!threw ==> source == VoiceAt(children, FirstStop(children)))
      ensures source != null && !fresh(source) ==> source in old(children)
      ensures !threw ==> HandedOut(old(audioSourcePool), old(children), settings.maxPoolSize,
                                   old(ScanPick(children)), audioSourcePool, children, source)
    {
      if |audioSourcePool| == 0 {
        if |children| >= settings.maxPoolSize {
          source, threw := ScanChildren();
          return;
        }
        var created := CreateAudioSource();
      }
      source := audioSourcePool[0];
      audioSourcePool := audioSourcePool[1..];
      threw := false;
    }

    /** Resets a live voice and queues it again: stopped, no clip, not looping,
        volume and pitch 1. Its spatial blend and position are kept. A null or
        destroyed voice is ignored. */
    method ReturnAudioSource(source: AudioSource?)
      modifies this, source
      ensures children == old(children) && activeSources == old(activeSources)
      ensures categoryVolumes == old(categoryVolumes) && watches == old(watches)
      ensures source == null || !old(source.valid) ==>
                audioSourcePool == old(audioSourcePool) && (source != null ==> unchanged(source))
      ensures source != null && old(source.valid) ==>
                && audioSourcePool == old(audioSourcePool) + [source]
                && source.valid && source.state == Stopped && source.clip == None && !source.loop
                && source.volume == 1.0 && source.pitch == 1.0
                && source.spatialBlend == old(source.spatialBlend) && source.localPosition == old(source.localPosition)
                && source.playOnAwake == old(source.playOnAwake)
    {
      if source != null && source.valid {
        source.Stop();
        source.clip := None;
        source.loop := false;
        source.volume := 1.0;
        source.pitch := 1.0;
        audioSourcePool := audioSourcePool + [source];
      }
    }

    /** The stored volume of a category, 1 when none is stored. */
    function GetCategoryVolumeInternal(category: Category): (r: real)
      reads this
      ensures category in categoryVolumes ==> r == categoryVolumes[category]
      ensures category !in categoryVolumes ==> r == 1.0
    {
      if category in categoryVolumes then categoryVolumes[category] else 1.0
    }

    /** Sets a handed-out voice up for a play: its clip, looping, its volume and 2D
        playback. */
    static method Configure(source: AudioSource, clip: Option<Clip>, loop: bool, volume: real)
      modifies source
      ensures source.clip == clip && source.loop == loop && source.volume == volume && source.spatialBlend == 0.0
      ensures source.valid == old(source.valid) && source.state == old(source.state)
      ensures source.pitch == old(source.pitch) && source.playOnAwake == old(source.playOnAwake)
      ensures source.localPosition == old(source.localPosition)
    {
      source.clip := clip;
      source.loop := loop;
      source.volume := volume;
      source.spatialBlend := 0.0;
    }

    /** Sets a live handed-out voice up, then lists, starts and watches it when its
        category has a list; without one the call raises and the voice stays set up. */
    method Launch(source: AudioSource, clip: Clip, category: Category, loop: bool, volume: real)
      returns (result: PlayResult)
      requires Valid() && source in children && source.valid
      modifies this, source
      ensures Valid()
      ensures audioSourcePool == old(audioSourcePool) && children == old(children)
      ensures categoryVolumes == old(categoryVolumes)
      ensures result == (if category in old(activeSources) then Started(source) else Threw)
      ensures source.valid && source.clip == Some(clip) && source.loop == loop && source.spatialBlend == 0.0
      ensures source.volume == volume * old(GetCategoryVolumeInternal(category))
      ensures result.Threw? ==> activeSources == old(activeSources) && watches == old(watches)
      ensures result.Started? ==>
                && activeSources == old(activeSources)[category := old(activeSources[category]) + [source]]
                && watches == old(watches) + (if loop then [] else [Watch(source, category)])
                && source.state == Playing
    {
      Configure(source, Some(clip), loop, volume * GetCategoryVolumeInternal(category));
      if category !in activeSources {
        return Threw;
      }
      activeSources := activeSources[category := activeSources[category] + [source]];
      source.Play();
      if !loop {
        watches := watches + [Watch(source, category)];
      }
      return Started(source);
    }

    /** Plays a clip in a category. Nothing happens without a clip or without a live
        voice; an exception in the recycle scan ends the call. A category without a
        list raises after the voice was taken and set up, so that voice is lost to
        the queue. Otherwise the voice is listed, started, and watched unless it
        loops. */
    method PlayInternal(clip: Option<Clip>, category: Category, loop: bool, volume: real)
      returns (result: PlayResult, ghost taken: AudioSource?)
      requires Valid()
      modifies this, children
      ensures Valid()
      ensures categoryVolumes == old(categoryVolumes)
      ensures clip.None? ==>
                result == NotStarted && taken == null &&
                audioSourcePool == old(audioSourcePool) && children == old(children)
      ensures clip.Some? ==>
                HandedOut(old(audioSourcePool), old(children), settings.maxPoolSize, old(ScanPick(children)),
                          audioSourcePool, children, taken)
      ensures taken != null && taken !in old(children) ==> fresh(taken)
      ensures forall v :: v in old(children) && v != taken ==> unchanged(v)
      ensures result.Started? <==>
                taken != null && (taken in old(children) ==> old(taken.valid)) && category in old(activeSources)
      ensures result.Threw? <==>
                || (clip.Some? && old(|audioSourcePool|) == 0 && old(|children|) >= settings.maxPoolSize &&
                    old(ScanThrows(children)))
                || (taken != null && (taken in old(children) ==> old(taken.valid)) && category !in old(activeSources))
      ensures result.Threw? && taken != null ==>
                && taken.clip == clip && taken.loop == loop && taken.spatialBlend == 0.0
                && taken.volume == volume * old(GetCategoryVolumeInternal(category))
      ensures !result.Started? ==> activeSources == old(activeSources) && watches == old(watches)
      ensures result.Started? ==>
                var s := result.source;
                && s == taken
                && activeSources == old(activeSources)[category := old(activeSources[category]) + [s]]
                && watches == old(watches) + (if loop then [] else [Watch(s, category)])
                && s.valid && s.state == Playing && s.clip == clip && s.loop == loop
                && s.volume == volume * old(GetCategoryVolumeInternal(category))
                && s.spatialBlend == 0.0
    {
      taken := null;
      if clip.None? {
        return NotStarted, taken;
      }
      var source, threw := GetAudioSource();
      if threw {
        return Threw, taken;
      }
      taken := source;
      if source == null || !source.valid {
        return NotStarted, taken;
      }
      result := Launch(source, clip.value, category, loop, volume);
    }

    /** Plays a one-shot clip at a position, as a 3D sound. The player's object is
        taken to be at the origin, so the voice's local position is the requested
        position. */
    method PlayAtPosition(clip: Option<Clip>, position: Vec3, category: Category, volume: real)
      returns (result: PlayResult, ghost taken: AudioSource?)
      requires Valid()
      modifies this, children
      ensures Valid()
      ensures categoryVolumes == old(categoryVolumes)
      ensures clip.None? ==>
                result == NotStarted && taken == null &&
                audioSourcePool == old(audioSourcePool) && children == old(children)
      ensures clip.Some? ==>
                HandedOut(old(audioSourcePool), old(children), settings.maxPoolSize, old(ScanPick(children)),
                          audioSourcePool, children, taken)
      ensures taken != null && taken !in old(children) ==> fresh(taken)
      ensures forall v :: v in old(children) && v != taken ==> unchanged(v)
      ensures result.Started? <==>
                taken != null && (taken in old(children) ==> old(taken.valid)) && category in old(activeSources)
      ensures result.Threw? <==>
                || (clip.Some? && old(|audioSourcePool|) == 0 && old(|children|) >= settings.maxPoolSize &&
                    old(ScanThrows(children)))
                || (taken != null && (taken in old(children) ==> old(taken.valid)) && category !in old(activeSources))
      ensures result.Threw? && taken != null ==>
                && taken.clip == clip && !taken.loop && taken.spatialBlend == 0.0
                && taken.volume == volume * old(GetCategoryVolumeInternal(category))
      ensures !result.Started? ==> activeSources == old(activeSources) && watches == old(watches)
      ensures result.Started? ==>
                var s := result.source;
                && s == taken
                && activeSources == old(activeSources)[category := old(activeSources[category]) + [s]]
                && watches == old(watches) + [Watch(s, category)]
                && s.valid && s.state == Playing && s.clip == clip && !s.loop
                && s.volume == volume * old(GetCategoryVolumeInternal(category))
                && s.localPosition == position && s.spatialBlend == 1.0
    {
      result, taken := PlayInternal(clip, category, false, volume);
      if result.Started? {
        var source := result.source;
        source.localPosition := position;
        source.spatialBlend := 1.0;
      }
    }

    /** Plays a one-shot clip at volume 0 and fades it in to the category's stored
        volume over `fadeTime` seconds (the configured default when negative). */
    method PlayWithFadeIn(clip: Option<Clip>, category: Category, fadeTime: real, frames: seq<Frame>)
      returns (result: PlayResult, finished: bool, ghost taken: AudioSource?)
      requires Valid() && PositiveDeltas(frames)
      modifies this, children
      ensures Valid()
      ensures categoryVolumes == old(categoryVolumes)
      ensures clip.None? ==>
                result == NotStarted && taken == null &&
                audioSourcePool == old(audioSourcePool) && children == old(children)
      ensures clip.Some? ==>
                HandedOut(old(audioSourcePool), old(children), settings.maxPoolSize, old(ScanPick(children)),
                          audioSourcePool, children, taken)
      ensures taken != null && taken !in old(children) ==> fresh(taken)
      ensures forall v :: v in old(children) && v != taken ==> unchanged(v)
      ensures result.Started? <==>
                taken != null && (taken in old(children) ==> old(taken.valid)) && category in old(activeSources)
      ensures result.Threw? <==>
                || (clip.Some? && old(|audioSourcePool|) == 0 && old(|children|) >= settings.maxPoolSize &&
                    old(ScanThrows(children)))
                || (taken != null && (taken in old(children) ==> old(taken.valid)) && category !in old(activeSources))
      ensures result.Threw? && taken != null ==>
                taken.clip == clip && !taken.loop && taken.spatialBlend == 0.0 && taken.volume == 0.0
      ensures !result.Started? ==> activeSources == old(activeSources) && watches == old(watches)
      ensures result.Started? ==>
                var s := result.source;
                var time := if fadeTime < 0.0 then settings.defaultFadeInTime else fadeTime;
                var target := old(GetCategoryVolumeInternal(category));
                && s == taken
                && activeSources == old(activeSources)[category := old(activeSources[category]) + [s]]
                && watches == old(watches) + [Watch(s, category)]
                && s.clip == clip && !s.loop && s.spatialBlend == 0.0
                && Between(s.volume, 0.0, target)
                && (time <= 0.0 ==> finished && s.volume == 0.0)
                && (finished && s.valid && time > 0.0 ==> s.volume == target)
                && (Elapsed(frames) >= time ==> finished)
                && (NoneDestroyed(frames) ==> s.valid)
                && (AllIdle(frames) ==> s.state == Playing)
    {
      var time := if fadeTime < 0.0 then settings.defaultFadeInTime else fadeTime;
      finished := true;
      result, taken := PlayInternal(clip, category, false, 0.0);
      if result.Started? {
        var source := result.source;
        var target := GetCategoryVolumeInternal(category);
        ghost var levels: seq<real>;
        finished, levels := FadeIn(source, time, target, frames);
        if levels != [] {
          assert Between(levels[|levels| - 1], 0.0, target);
        }
      }
    }

    /** Fades a live voice out over `fadeTime` seconds (the configured default when
        negative) and stops it. A null or destroyed voice is ignored. */
    method FadeOut(source: AudioSource?, fadeTime: real, frames: seq<Frame>) returns (finished: bool)
      requires PositiveDeltas(frames)
      modifies source
      ensures source == null || !old(source.valid) ==> finished && (source != null ==> unchanged(source))
      ensures source != null && finished && source.valid ==>
                && source.state == Stopped
                && source.volume ==
                     (if (if fadeTime < 0.0 then settings.defaultFadeOutTime else fadeTime) > 0.0 then 0.0
                      else old(source.volume))
      ensures source != null ==> source.GetSetup() == old(source.GetSetup()).(valid := source.valid)
      ensures source != null && NoneDestroyed(frames) ==> source.valid == old(source.valid)
      ensures source != null && old(source.valid) && AllIdle(frames) ==>
                source.state == (if finished then Stopped else old(source.state))
      ensures Elapsed(frames) >= (if fadeTime < 0.0 then settings.defaultFadeOutTime else fadeTime) ==> finished
    {
      if source == null || !source.valid {
        return true;
      }
      var time := if fadeTime < 0.0 then settings.defaultFadeOutTime else fadeTime;
      ghost var levels: seq<real>;
      finished, levels := FadeOutCoroutine(source, time, frames);
    }

    /** The completion coroutine of watch `i`, resumed once. While its voice is alive
        and playing the wait goes on. Once it is not playing (finished, stopped or
        paused) the voice is taken out of its category's list, its first occurrence
        only, and queued again. For a destroyed voice the wait itself raises, which
        ends the coroutine with nothing else done. */
    method ResumeWatch(i: nat) returns (ended: bool)
      requires Valid() && i < |watches|
      modifies this, watches[i].source
      ensures Valid()
      ensures ended <==> old(FateOf(watches[i])) != KeepWaiting
      ensures children == old(children) && categoryVolumes == old(categoryVolumes)
      ensures !ended ==> watches == old(watches) && activeSources == old(activeSources) &&
                         audioSourcePool == old(audioSourcePool) && unchanged(old(watches[i].source))
      ensures ended ==> watches == old(watches[..i] + watches[i + 1..])
      ensures old(FateOf(watches[i])) == Drop ==>
                activeSources == old(activeSources) && audioSourcePool == old(audioSourcePool) &&
                unchanged(old(watches[i].source))
      ensures old(FateOf(watches[i])) == Reclaim ==>
                var w := old(watches[i]);
                && activeSources == old(activeSources)[w.category := RemoveFirst(old(activeSources[w.category]), w.source)]
                && audioSourcePool == old(audioSourcePool) + [w.source]
                && w.source.state == Stopped && w.source.clip == None && !w.source.loop
                && w.source.volume == 1.0 && w.source.pitch == 1.0 && w.source.valid
                && w.source.spatialBlend == old(w.source.spatialBlend)
                && w.source.localPosition == old(w.source.localPosition)
                && w.source.playOnAwake == old(w.source.playOnAwake)
    {
      var w := watches[i];
      var source := w.source;
      if source.valid && source.IsPlaying() {
        return false;
      }
      assert forall x :: x in watches[..i] + watches[i + 1..] ==> x in watches;
      watches := watches[..i] + watches[i + 1..];
      if source.valid {
        activeSources := activeSources[w.category := RemoveFirst(activeSources[w.category], source)];
        ReturnAudioSource(source);
      }
      return true;
    }

    /** Ramps a voice's volume from 0, whatever it was, up to `targetVolume` over
        `fadeTime`; with no time to fade the voice is left as it is. There is no
        final step: the last ramp step lands on the target. Setting the volume of a
        destroyed voice raises, which ends the fade at the next step; a voice found
        destroyed ends it here. `levels` are the volumes set. */
    method FadeIn(source: AudioSource, fadeTime: real, targetVolume: real, frames: seq<Frame>)
      returns (finished: bool, ghost levels: seq<real>)
      requires PositiveDeltas(frames)
      modifies source
      ensures fadeTime <= 0.0 || !old(source.valid) ==> finished && levels == [] && source.volume == old(source.volume)
      ensures source.GetSetup() == old(source.GetSetup()).(valid := source.valid)
      ensures Ramp(levels, 0.0, targetVolume)
      ensures source.volume == (if levels == [] then old(source.volume) else levels[|levels| - 1])
      ensures finished && source.valid && fadeTime > 0.0 ==> source.volume == targetVolume
      ensures !finished ==> source.valid && |levels| == |frames| && Elapsed(frames) < fadeTime
      ensures Elapsed(frames) >= fadeTime ==> finished
      ensures NoneDestroyed(frames) ==> source.valid == old(source.valid)
      ensures AllIdle(frames) ==> source.state == old(source.state)
    {
      levels := [];
      var currentTime := 0.0;
      var k := 0;
      while currentTime < fadeTime && source.valid && k < |frames|
        invariant 0 <= k <= |frames| && |levels| == k
        invariant currentTime == Elapsed(frames[..k])
        invariant k > 0 ==> currentTime > 0.0 && fadeTime > 0.0
        invariant Ramp(levels, 0.0, targetVolume)
        invariant k > 0 ==> levels[k - 1] == Lerp(0.0, targetVolume, currentTime / fadeTime)
        invariant source.volume == if k == 0 then old(source.volume) else levels[k - 1]
        invariant !old(source.valid) ==> k == 0 && !source.valid
        invariant NoneDestroyed(frames) && old(source.valid) ==> source.valid
        invariant AllIdle(frames) ==> source.state == old(source.state)
        invariant source.GetSetup() == old(source.GetSetup()).(valid := source.valid)
        decreases |frames| - k
      {
        ghost var previous := if fadeTime > 0.0 then currentTime / fadeTime else 0.0;
        ElapsedStep(frames, k);
        currentTime := currentTime + frames[k].delta;
        var progress := currentTime / fadeTime;
        assert k > 0 ==> previous <= progress by {
          if k > 0 {
            DivideMonotone(currentTime - frames[k].delta, currentTime, fadeTime);
          }
        }
        RampExtend(levels, 0.0, targetVolume, previous, progress);
        Step(source, Lerp(0.0, targetVolume, progress), frames[k].event);
        levels := levels + [source.volume];
        k := k + 1;
      }
      assert frames[..|frames|] == frames;
      finished := currentTime >= fadeTime || !source.valid;
      if source.valid && currentTime >= fadeTime && k > 0 {
        RampEnds(0.0, targetVolume, currentTime, fadeTime);
      }
    }

    /** Ramps a voice's volume from its current value down to 0 over `fadeTime`,
        then stops it; the volume is not put back. Reading or setting a destroyed
        voice raises, which ends the fade. `levels` are the volumes set. */
    method FadeOutCoroutine(source: AudioSource, fadeTime: real, frames: seq<Frame>)
      returns (finished: bool, ghost levels: seq<real>)
      requires PositiveDeltas(frames)
      modifies source
      ensures !old(source.valid) ==> finished && levels == [] && unchanged(source)
      ensures source.GetSetup() == old(source.GetSetup()).(valid := source.valid)
      ensures Ramp(levels, old(source.volume), 0.0)
      ensures source.volume == (if levels == [] then old(source.volume) else levels[|levels| - 1])
      ensures finished && source.valid ==>
                source.state == Stopped && source.volume == (if fadeTime > 0.0 then 0.0 else old(source.volume))
      ensures fadeTime <= 0.0 && old(source.valid) ==> finished && levels == [] && source.state == Stopped
      ensures !finished ==> old(source.valid) && |levels| == |frames| && Elapsed(frames) < fadeTime
      ensures Elapsed(frames) >= fadeTime ==> finished
      ensures NoneDestroyed(frames) ==> source.valid == old(source.valid)
      ensures old(source.valid) && AllIdle(frames) ==>
                source.state == (if finished then Stopped else old(source.state))
    {
      levels := [];
      if !source.valid {
        return true, levels;
      }
      var startVolume := source.volume;
      var currentTime := 0.0;
      var k := 0;
      while currentTime < fadeTime && k < |frames|
        invariant 0 <= k <= |frames| && |levels| == k
        invariant currentTime == Elapsed(frames[..k])
        invariant k > 0 ==> currentTime > 0.0 && fadeTime > 0.0
        invariant Ramp(levels, startVolume, 0.0)
        invariant k > 0 ==> levels[k - 1] == Lerp(startVolume, 0.0, currentTime / fadeTime)
        invariant k == 0 ==> source.valid && source.state == old(source.state)
        invariant NoneDestroyed(frames) ==> source.valid
        invariant AllIdle(frames) ==> source.state == old(source.state)
        invariant source.volume == if k == 0 then startVolume else levels[k - 1]
        invariant source.GetSetup() == old(source.GetSetup()).(valid := source.valid)
        decreases |frames| - k
      {
        ghost var previous := if fadeTime > 0.0 then currentTime / fadeTime else 0.0;
        ElapsedStep(frames, k);
        currentTime := currentTime + frames[k].delta;
        if !source.valid {
          return true, levels;
        }
        var progress := currentTime / fadeTime;
        assert k > 0 ==> previous <= progress by {
          if k > 0 {
            DivideMonotone(currentTime - frames[k].delta, currentTime, fadeTime);
          }
        }
        RampExtend(levels, startVolume, 0.0, previous, progress);
        Step(source, Lerp(startVolume, 0.0, progress), frames[k].event);
        levels := levels + [source.volume];
        k := k + 1;
      }
      assert frames[..|frames|] == frames;
      finished := currentTime >= fadeTime;
      if finished && k > 0 {
        RampEnds(startVolume, 0.0, currentTime, fadeTime);
      }
      if finished && source.valid {
        source.Stop();
      }
    }

    /** Stores the clamped volume, then re-applies it to the category's live voices
        by dividing each voice's volume by the value just stored and multiplying it
        back, so an audible voice keeps its volume and a volume of 0 silences it;
        then saves the table. A category without a list raises after the volume was
        stored and before anything is saved. */
    method SetCategoryVolumeInternal(category: Category, volume: real) returns (threw: bool)
      requires Valid()
      modifies this, prefs, children
      ensures Valid()
      ensures activeSources == old(activeSources) && watches == old(watches)
      ensures audioSourcePool == old(audioSourcePool) && children == old(children)
      ensures categoryVolumes == old(categoryVolumes)[category := Clamp01(volume)]
      ensures threw <==> category !in activeSources
      ensures prefs.entries == (if threw then old(prefs.entries) else LegacySaved(old(prefs.entries), categoryVolumes))
      ensures category in activeSources ==>
                forall v :: v in activeSources[category] ==>
                  v.volume == (if old(v.valid) && Clamp01(volume) == 0.0 then 0.0 else old(v.volume))
      ensures forall v :: v in children && (category !in activeSources || v !in activeSources[category]) ==>
                v.volume == old(v.volume)
      ensures forall v :: v in children ==> v.state == old(v.state) && v.GetSetup() == old(v.GetSetup())
    {
      var newVolume := Clamp01(volume);
      categoryVolumes := categoryVolumes[category := newVolume];
      if category !in activeSources {
        return true;
      }
      var list := activeSources[category];
      assert forall v :: v in list ==> v in children;
      RescaleList(list, newVolume);
      SaveVolumeSettings();
      return false;
    }

    /** Mutes by storing a volume of 0; unmutes by storing the volume of the
        category's configuration entry, not the last volume set. The mute flag is
        written into the first configuration entry for the category, when it has one. */
    method SetCategoryMuteInternal(category: Category, muted: bool) returns (threw: bool)
      requires Valid()
      modifies this, prefs, children, settings
      ensures Valid()
      ensures activeSources == old(activeSources) && watches == old(watches)
      ensures audioSourcePool == old(audioSourcePool) && children == old(children)
      ensures settings.categorySettings == MarkMuted(old(settings.categorySettings), category, muted)
      ensures settings.initialPoolSize == old(settings.initialPoolSize) && settings.maxPoolSize == old(settings.maxPoolSize)
      ensures settings.defaultFadeInTime == old(settings.defaultFadeInTime)
      ensures settings.defaultFadeOutTime == old(settings.defaultFadeOutTime)
      ensures categoryVolumes ==
                old(categoryVolumes)[category := if muted then 0.0 else Clamp01(old(settings.GetCategorySettings(category)).volume)]
      ensures threw <==> category !in activeSources
      ensures prefs.entries == (if threw then old(prefs.entries) else LegacySaved(old(prefs.entries), categoryVolumes))
      ensures category in activeSources ==>
                forall v :: v in activeSources[category] ==>
                  v.volume == (if old(v.valid) && categoryVolumes[category] == 0.0 then 0.0 else old(v.volume))
      ensures forall v :: v in children && (category !in activeSources || v !in activeSources[category]) ==>
                v.volume == old(v.volume)
      ensures forall v :: v in children ==> v.state == old(v.state) && v.GetSetup() == old(v.GetSetup())
    {
      var entry := settings.GetCategorySettings(category);
      settings.categorySettings := MarkMuted(settings.categorySettings, category, muted);
      var volume := if muted then 0.0 else entry.volume;
      threw := SetCategoryVolumeInternal(category, volume);
    }

    /** Stops the live voices of every list and empties every list. */
    method StopAllInternal()
      requires Valid()
      modifies this, children
      ensures Valid() && watches == old(watches)
      ensures audioSourcePool == old(audioSourcePool) && children == old(children)
      ensures categoryVolumes == old(categoryVolumes)
      ensures activeSources.Keys == old(activeSources).Keys
      ensures forall c :: c in activeSources ==> activeSources[c] == []
      ensures forall v :: v in children ==>
                v.state == (if v in ListedVoices(old(activeSources), AllCategories) && v.valid then Stopped
                            else old(v.state))
      ensures forall v :: v in children ==>
                v.valid == old(v.valid) && v.volume == old(v.volume) && v.GetSetup() == old(v.GetSetup())
    {
      forall v | v in ListedVoices(activeSources, AllCategories) ensures v in children {
        ListedVoicesAll(activeSources, v);
      }
      ghost var before := activeSources;
      StopListed(activeSources);
      forall v | v in ListedVoices(before, AllCategories)
        ensures v.state == (if v.valid then Stopped else old(v.state))
        ensures v.valid == old(v.valid) && v.volume == old(v.volume) && v.GetSetup() == old(v.GetSetup())
      {
        ListedVoicesAll(before, v);
      }
      activeSources := map c | c in activeSources :: [];
    }

    /** Stops the live voices of one category's list and empties it; a category
        without a list is ignored. */
    method StopCategoryInternal(category: Category)
      requires Valid()
      modifies this, children
      ensures Valid() && watches == old(watches)
      ensures audioSourcePool == old(audioSourcePool) && children == old(children)
      ensures categoryVolumes == old(categoryVolumes)
      ensures activeSources == (if category in old(activeSources) then old(activeSources)[category := []]
                                else old(activeSources))
      ensures category in old(activeSources) ==>
                forall v :: v in old(activeSources[category]) ==> v.state == (if v.valid then Stopped else old(v.state))
      ensures forall v :: v in children && (category !in old(activeSources) || v !in old(activeSources[category])) ==>
                v.state == old(v.state)
      ensures forall v :: v in children ==>
                v.valid == old(v.valid) && v.volume == old(v.volume) && v.GetSetup() == old(v.GetSetup())
    {
      if category in activeSources {
        var list := activeSources[category];
        assert forall v :: v in list ==> v in children;
        ApplyToEach(list, StopVoice);
        activeSources := activeSources[category := []];
      }
    }

    /** Writes every stored volume under its key. The keys are distinct, so the order
        of the writes does not matter; they are made in declaration order. */
    method SaveVolumeSettings()
      modifies prefs
      ensures prefs.entries == LegacySaved(old(prefs.entries), categoryVolumes)
    {
      var categories := AllCategories;
      for k := 0 to |categories|
        invariant WriteAll(prefs.entries, categories[k..], LegacyVolumeKey, VolumeEntries(categoryVolumes))
                  == WriteAll(old(prefs.entries), categories, LegacyVolumeKey, VolumeEntries(categoryVolumes))
      {
        var category := categories[k];
        assert categories[k..][1..] == categories[k + 1..];
        if category in categoryVolumes {
          prefs.SetFloat(LegacyVolumeKey(category), categoryVolumes[category]);
        }
      }
    }

    /** For each category of the table, a persisted volume replaces the stored one. */
    method LoadVolumeSettings()
      modifies this
      ensures categoryVolumes == LegacyLoaded(prefs.entries, old(categoryVolumes))
      ensures activeSources == old(activeSources) && watches == old(watches)
      ensures audioSourcePool == old(audioSourcePool) && children == old(children)
    {
      var categories := AllCategories;
      ghost var vols := categoryVolumes;
      ghost var done: set<Category> := {};
      for k := 0 to |categories|
        invariant done == set c | c in categories[..k]
        invariant categoryVolumes == LegacyLoadedFor(prefs.entries, vols, done)
        invariant activeSources == old(activeSources) && watches == old(watches)
        invariant audioSourcePool == old(audioSourcePool) && children == old(children)
      {
        var category := categories[k];
        assert categories[..k + 1] == categories[..k] + [category];
        AllCategoriesDistinct();
        LegacyLoadOneMore(prefs.entries, vols, done, category);
        if category in categoryVolumes {
          var key := LegacyVolumeKey(category);
          if prefs.HasKey(key) {
            categoryVolumes := categoryVolumes[category := prefs.GetFloat(key)];
          }
        }
        done := done + {category};
      }
      forall c ensures c in done {
        AllCategoriesComplete(c);
        assert categories[..|categories|] == categories;
      }
    }
  }
}
