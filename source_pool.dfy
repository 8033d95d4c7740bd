/**
 * The voice pool: a FIFO queue of idle voices, the creation-ordered list of every
 * voice it has created, and a ceiling on how many it creates on demand.
 */
module SourcePool {
  import opened Wrappers
  import opened Sources

  function Max(a: int, b: int): int
  {
    if a < b then b else a
  }

  /** A voice the recycle scan may hand out: alive and not reported as playing. */
  predicate Inactive(s: AudioSource)
    reads s
  {
    s.valid && !s.IsPlaying()
  }

  /** The state a returned voice is put into before it is queued again. */
  predicate Neutral(s: AudioSource)
    reads s
  {
    && s.state == Stopped && s.clip == None && !s.loop
    && s.volume == 1.0 && s.pitch == 1.0 && s.spatialBlend == 0.0
    && s.localPosition == Origin
  }

  /** The position of the first inactive voice of a list, scanning from the front. */
  function FirstInactive(sources: seq<AudioSource>): (r: Option<nat>)
    reads sources
    ensures r.Some? ==> r.value < |sources| && Inactive(sources[r.value])
    ensures r.Some? ==> forall j :: 0 <= j < r.value ==> !Inactive(sources[j])
    ensures r.None? <==> forall j :: 0 <= j < |sources| ==> !Inactive(sources[j])
  {
    if sources == [] then None
    else if Inactive(sources[0]) then Some(0)
    else match FirstInactive(sources[1..])
      case None => None
      case Some(i) => Some(i + 1)
  }

  /** The voice at a scan result, or null when the scan found none. */
  function VoiceAt(sources: seq<AudioSource>, found: Option<nat>): AudioSource?
  {
    if found.Some? && found.value < |sources| then sources[found.value] else null
  }

  /** How one hand-out moves a queue and a list of children: the front of the queue
      is taken; else, below the ceiling, a new voice is appended to the children and
      taken; else `scanned`, the recycle scan's pick (null when there is none), is
      taken and nothing moves. The primed sequences are the state afterwards. */
  ghost predicate HandedOut(available: seq<AudioSource>, children: seq<AudioSource>, maxSize: int,
                            scanned: AudioSource?, available': seq<AudioSource>,
                            children': seq<AudioSource>, taken: AudioSource?)
  {
    if |available| > 0 then
      taken == available[0] && available' == available[1..] && children' == children
    else if |children| < maxSize then
      taken != null && taken !in children && children' == children + [taken] && available' == []
    else
      taken == scanned && available' == available && children' == children
  }

  class AudioSourcePool {
    /** Idle voices, front of the queue first. */
    var available: seq<AudioSource>
    /** Every voice created, in creation order (the pool object's children). */
    var children: seq<AudioSource>
    const maxPoolSize: int

    function ActiveSourcesCount(): int
      reads this
    {
      |children| - |available|
    }

    function AvailableSourcesCount(): int
      reads this
    {
      |available|
    }

    /** Builds the pool and creates `initialSize` idle voices at once, whatever the ceiling. */
    constructor (initialSize: int, maxSize: int)
      ensures maxPoolSize == maxSize
      ensures |children| == Max(initialSize, 0) && available == children
      ensures forall i :: 0 <= i < |children| ==> fresh(children[i])
      ensures forall i :: 0 <= i < |children| ==>
                children[i].valid && Neutral(children[i]) && !children[i].playOnAwake
    {
      maxPoolSize := maxSize;
      available := [];
      children := [];
      new;
      PrewarmPool(initialSize);
    }

    /** Creates `count` voices (none for a negative count), with no ceiling check. */
    method PrewarmPool(count: int)
      modifies this
      ensures |children| == old(|children|) + Max(count, 0)
      ensures children[..old(|children|)] == old(children)
      ensures available == old(available) + children[old(|children|)..]
      ensures forall i :: old(|children|) <= i < |children| ==>
                fresh(children[i]) && children[i].valid && Neutral(children[i]) && !children[i].playOnAwake
    {
      var i := 0;
      while i < count
        invariant 0 <= i <= Max(count, 0)
        invariant |children| == old(|children|) + i
        invariant children[..old(|children|)] == old(children)
        invariant available == old(available) + children[old(|children|)..]
        invariant forall k :: old(|children|) <= k < |children| ==>
                    fresh(children[k]) && children[k].valid && Neutral(children[k]) && !children[k].playOnAwake
      {
        var s := CreateNewSource();
        i := i + 1;
      }
    }

    /** Adds one new voice to the children and to the back of the idle queue. */
    method CreateNewSource() returns (source: AudioSource)
      modifies this
      ensures fresh(source)
      ensures children == old(children) + [source] && available == old(available) + [source]
      ensures source.valid && Neutral(source) && !source.playOnAwake
    {
      source := new AudioSource();
      source.playOnAwake := false;
      children := children + [source];
      available := available + [source];
    }

    /** Scans the children in creation order for the first voice that is alive and
        not playing. It is handed out as it is: not reset and not dequeued. */
    method RecycleOldestInactiveSource() returns (source: AudioSource?)
      ensures source == VoiceAt(children, FirstInactive(children))
      ensures source == null <==> forall j :: 0 <= j < |children| ==> !Inactive(children[j])
    {
      var i := 0;
      while i < |children|
        invariant 0 <= i <= |children|
        invariant forall j :: 0 <= j < i ==> !Inactive(children[j])
      {
        var s := children[i];
        if s.valid && !s.IsPlaying() {
          return s;
        }
        i := i + 1;
      }
      return null;
    }

    /** Hands out a voice: the front of the idle queue; else a new voice while below
        the ceiling; else the first created voice that is not playing, or null. */
    method GetSource() returns (source: AudioSource?)
      modifies this
      ensures old(|available|) > 0 ==>
                source == old(available[0]) && available == old(available[1..]) && children == old(children)
      ensures old(|available|) == 0 && old(|children|) < maxPoolSize ==>
                && source != null && fresh(source)
                && children == old(children) + [source] && available == []
                && source.valid && Neutral(source) && !source.playOnAwake
      ensures old(|available|) == 0 && old(|children|) >= maxPoolSize ==>
                && children == old(children) && available == old(available)
                && source == VoiceAt(children, FirstInactive(children))
      ensures HandedOut(old(available), old(children), maxPoolSize,
                        old(VoiceAt(children, FirstInactive(children))), available, children, source)
      ensures |children| <= Max(old(|children|), maxPoolSize)
      ensures source != null ==> source in old(available) || source in old(children) || fresh(source)
    {
      if |available| == 0 {
        if |children| >= maxPoolSize {
          source := RecycleOldestInactiveSource();
          return;
        }
        var created := CreateNewSource();
      }
      source := available[0];
      available := available[1..];
    }

    /** Resets a voice and queues it again. A null or destroyed voice is ignored; a
        voice already queued is queued a second time. */
    method ReturnSource(source: AudioSource?)
      modifies this, source
      ensures children == old(children)
      ensures source == null || !old(source.valid) ==> available == old(available)
      ensures source != null && !old(source.valid) ==> unchanged(source)
      ensures source != null && old(source.valid) ==>
                && available == old(available) + [source]
                && Neutral(source) && source.valid && source.playOnAwake == old(source.playOnAwake)
    {
      if source == null || !source.valid {
        return;
      }
      ResetSource(source);
      available := available + [source];
    }

    method ResetSource(source: AudioSource)
      modifies source
      ensures Neutral(source)
      ensures source.valid == old(source.valid) && source.playOnAwake == old(source.playOnAwake)
    {
      source.Stop();
      source.clip := None;
      source.loop := false;
      source.volume := 1.0;
      source.pitch := 1.0;
      source.spatialBlend := 0.0;
      source.localPosition := Origin;
    }
  }
}
