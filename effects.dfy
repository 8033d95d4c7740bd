/**
 * The fades: linear volume ramps that advance once per frame by the frame's
 * unscaled time. A running fade is modelled as a loop over the frames it is given;
 * after each step the host may end the voice's clip or destroy the voice. A fade
 * that runs out of frames before it ends is reported as unfinished.
 */
module Effects {
  import opened Mathf
  import opened Sources

  /** The time that passes over a run of frames. */
  function Elapsed(frames: seq<Frame>): real
  {
    if frames == [] then 0.0 else Elapsed(frames[..|frames| - 1]) + frames[|frames| - 1].delta
  }

  /** The host's frame times are positive. */
  predicate PositiveDeltas(frames: seq<Frame>)
  {
    forall k :: 0 <= k < |frames| ==> frames[k].delta > 0.0
  }

  /** The host destroys the voice in none of the frames. */
  predicate NoneDestroyed(frames: seq<Frame>)
  {
    forall k :: 0 <= k < |frames| ==> frames[k].event != Destroyed
  }

  /** The host does nothing to the voice in any of the frames. */
  predicate AllIdle(frames: seq<Frame>)
  {
    forall k :: 0 <= k < |frames| ==> frames[k].event == Idle
  }

  /** One frame of a fade: the voice's volume is set to `level`, then the host acts
      on the voice. */
  method Step(source: AudioSource, level: real, e: HostEvent)
    modifies source
    ensures source.volume == level
    ensures source.GetSetup() == old(source.GetSetup()).(valid := source.valid)
    ensures source.valid == (old(source.valid) && e != Destroyed)
    ensures source.state ==
              if e == ClipEnded && old(source.state) == Playing && !source.loop then Stopped else old(source.state)
  {
    source.volume := level;
    source.HostAct(e);
  }

  /** Successive levels move from `a` towards `b`: never back, never past `b`. */
  predicate Ramp(levels: seq<real>, a: real, b: real)
  {
    && (forall i :: 0 <= i < |levels| ==> Between(levels[i], a, b))
    && (forall i :: 0 < i < |levels| ==> Between(levels[i], levels[i - 1], b))
  }

  lemma ElapsedStep(frames: seq<Frame>, k: int)
    requires 0 <= k < |frames|
    ensures Elapsed(frames[..k + 1]) == Elapsed(frames[..k]) + frames[k].delta
  {
    assert frames[..k + 1][..k] == frames[..k];
  }

  /** Adding the level at a later parameter keeps a ramp a ramp. */
  lemma RampExtend(levels: seq<real>, a: real, b: real, t1: real, t2: real)
    requires Ramp(levels, a, b)
    requires |levels| > 0 ==> levels[|levels| - 1] == Lerp(a, b, t1) && t1 <= t2
    ensures Ramp(levels + [Lerp(a, b, t2)], a, b)
  {
    if |levels| > 0 {
      LerpMonotone(a, b, t1, t2);
    }
  }

  /** Ramps the voice's volume from its current value to `targetVolume` over
      `duration`, then pins it at `targetVolume` if the voice is still alive. No voice,
      or a destroyed one, means no fade. `levels` are the volumes set step by step. */
  method FadeIn(source: AudioSource?, duration: real, targetVolume: real, frames: seq<Frame>)
    returns (finished: bool, ghost levels: seq<real>)
    requires PositiveDeltas(frames)
    modifies source
    ensures source == null || !old(source.valid) ==> finished && levels == [] && (source != null ==> unchanged(source))
    ensures source != null ==> source.GetSetup() == old(source.GetSetup()).(valid := source.valid)
    ensures source != null ==> Ramp(levels, old(source.volume), targetVolume)
    ensures source != null && finished && source.valid ==> source.volume == targetVolume
    ensures source != null && NoneDestroyed(frames) ==> source.valid == old(source.valid)
    ensures source != null && AllIdle(frames) ==> source.state == old(source.state)
    ensures source != null && !finished ==>
              && old(source.valid) && source.valid && |levels| == |frames|
              && Elapsed(frames) < duration
    ensures source != null && !(finished && source.valid) ==>
              source.volume == (if levels == [] then old(source.volume) else levels[|levels| - 1])
    ensures Elapsed(frames) >= duration ==> finished
    ensures duration <= 0.0 ==> finished && levels == []
  {
    levels := [];
    if source == null || !source.valid {
      return true, levels;
    }
    var currentTime := 0.0;
    var startVolume := source.volume;
    var k := 0;
    while currentTime < duration && source.valid && k < |frames|
      invariant 0 <= k <= |frames| && |levels| == k
      invariant currentTime == Elapsed(frames[..k])
      invariant k > 0 ==> currentTime > 0.0 && duration > 0.0
      invariant Ramp(levels, startVolume, targetVolume)
      invariant k > 0 ==> levels[k - 1] == Lerp(startVolume, targetVolume, currentTime / duration)
      invariant source.volume == if k == 0 then startVolume else levels[k - 1]
      invariant !source.valid ==> k > 0
      invariant NoneDestroyed(frames) ==> source.valid
      invariant AllIdle(frames) ==> source.state == old(source.state)
      invariant source.GetSetup() == old(source.GetSetup()).(valid := source.valid)
      decreases |frames| - k
    {
      ghost var previous := if duration > 0.0 then currentTime / duration else 0.0;
      ElapsedStep(frames, k);
      currentTime := currentTime + frames[k].delta;
      var progress := currentTime / duration;
      assert k > 0 ==> previous <= progress by {
        if k > 0 {
          DivideMonotone(currentTime - frames[k].delta, currentTime, duration);
        }
      }
      RampExtend(levels, startVolume, targetVolume, previous, progress);
      Step(source, Lerp(startVolume, targetVolume, progress), frames[k].event);
      levels := levels + [source.volume];
      k := k + 1;
    }
    assert frames[..|frames|] == frames;
    finished := !(currentTime < duration && source.valid);
    if finished && source.valid {
      source.volume := targetVolume;
    }
  }

  /** Ramps the voice's volume down to 0 over `duration` while it is alive and playing,
      then stops it and puts back the volume it had when the fade began. No voice, or a
      destroyed one, means no fade; a voice that is not playing (a paused one included)
      is stopped at once. */
  method FadeOut(source: AudioSource?, duration: real, frames: seq<Frame>)
    returns (finished: bool, ghost levels: seq<real>)
    requires PositiveDeltas(frames)
    modifies source
    ensures source == null || !old(source.valid) ==> finished && levels == [] && (source != null ==> unchanged(source))
    ensures source != null ==> source.GetSetup() == old(source.GetSetup()).(valid := source.valid)
    ensures source != null ==> Ramp(levels, old(source.volume), 0.0)
    ensures source != null && finished && source.valid ==>
              source.state == Stopped && source.volume == old(source.volume)
    ensures source != null && NoneDestroyed(frames) ==> source.valid == old(source.valid)
    ensures source != null && old(source.valid) && AllIdle(frames) ==>
              source.state == (if finished then Stopped else old(source.state))
    ensures source != null && old(source.valid) && old(source.state) != Playing ==> finished && levels == []
    ensures source != null && !finished ==>
              && old(source.valid) && source.valid && source.IsPlaying() && |levels| == |frames|
              && Elapsed(frames) < duration
    ensures source != null && !(finished && source.valid) ==>
              source.volume == (if levels == [] then old(source.volume) else levels[|levels| - 1])
    ensures Elapsed(frames) >= duration ==> finished
    ensures duration <= 0.0 ==> finished && levels == []
  {
    levels := [];
    if source == null || !source.valid {
      return true, levels;
    }
    var startVolume := source.volume;
    var currentTime := 0.0;
    var k := 0;
    while currentTime < duration && source.valid && source.IsPlaying() && k < |frames|
      invariant 0 <= k <= |frames| && |levels| == k
      invariant currentTime == Elapsed(frames[..k])
      invariant k > 0 ==> currentTime > 0.0 && duration > 0.0
      invariant Ramp(levels, startVolume, 0.0)
      invariant k > 0 ==> levels[k - 1] == Lerp(startVolume, 0.0, currentTime / duration)
      invariant source.volume == if k == 0 then startVolume else levels[k - 1]
      invariant !source.valid ==> k > 0
      invariant k == 0 ==> source.state == old(source.state)
      invariant k > 0 ==> old(source.state) == Playing
      invariant NoneDestroyed(frames) ==> source.valid
      invariant AllIdle(frames) ==> source.state == old(source.state)
      invariant source.GetSetup() == old(source.GetSetup()).(valid := source.valid)
      decreases |frames| - k
    {
      ghost var previous := if duration > 0.0 then currentTime / duration else 0.0;
      ElapsedStep(frames, k);
      currentTime := currentTime + frames[k].delta;
      var progress := currentTime / duration;
      assert k > 0 ==> previous <= progress by {
        if k > 0 {
          DivideMonotone(currentTime - frames[k].delta, currentTime, duration);
        }
      }
      RampExtend(levels, startVolume, 0.0, previous, progress);
      Step(source, Lerp(startVolume, 0.0, progress), frames[k].event);
      levels := levels + [source.volume];
      k := k + 1;
    }
    assert frames[..|frames|] == frames;
    finished := !(currentTime < duration && source.valid && source.IsPlaying());
    if finished && source.valid {
      source.Stop();
      source.volume := startVolume;
    }
  }

  /** Fades one voice out and another in over the same time, the incoming one towards
      the volume it already has. The two fades run one after the other here; on two
      different voices they touch disjoint state, so the order does not matter. */
  method CrossFade(sourceOut: AudioSource?, sourceIn: AudioSource?, duration: real,
                   framesOut: seq<Frame>, framesIn: seq<Frame>)
    returns (outFinished: bool, inFinished: bool)
    requires PositiveDeltas(framesOut) && PositiveDeltas(framesIn)
    requires sourceOut != sourceIn || sourceOut == null
    modifies sourceOut, sourceIn
    ensures sourceIn != null ==> sourceIn.volume == old(sourceIn.volume)
    ensures sourceIn != null ==> sourceIn.GetSetup() == old(sourceIn.GetSetup()).(valid := sourceIn.valid)
    ensures sourceOut != null && outFinished && sourceOut.valid ==>
              sourceOut.state == Stopped && sourceOut.volume == old(sourceOut.volume)
    ensures sourceOut != null ==> sourceOut.GetSetup() == old(sourceOut.GetSetup()).(valid := sourceOut.valid)
    ensures sourceOut != null && NoneDestroyed(framesOut) ==> sourceOut.valid == old(sourceOut.valid)
    ensures sourceOut != null && old(sourceOut.valid) && AllIdle(framesOut) ==>
              sourceOut.state == (if outFinished then Stopped else old(sourceOut.state))
    ensures sourceIn != null && NoneDestroyed(framesIn) ==> sourceIn.valid == old(sourceIn.valid)
    ensures sourceIn != null && AllIdle(framesIn) ==> sourceIn.state == old(sourceIn.state)
  {
    ghost var levelsOut, levelsIn;
    outFinished, levelsOut := true, [];
    if sourceOut != null {
      outFinished, levelsOut := FadeOut(sourceOut, duration, framesOut);
    }
    inFinished, levelsIn := true, [];
    if sourceIn != null {
      var target := sourceIn.volume;
      inFinished, levelsIn := FadeIn(sourceIn, duration, target, framesIn);
    }
  }

  /** Once the elapsed time reaches the duration, the ramp sits at its end. */
  lemma RampEnds(a: real, b: real, t: real, d: real)
    requires d > 0.0 && t >= d
    ensures Lerp(a, b, t / d) == b
  {
    DivideMonotone(d, t, d);
  }

  lemma DivideMonotone(x: real, y: real, d: real)
    requires x <= y && d > 0.0
    ensures x / d <= y / d
  {
    assert y / d - x / d == (y - x) / d;
  }
}
