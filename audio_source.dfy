/**
 * The host's playback voice, reduced to the fields the core reads and writes.
 * `valid` stands for "the component has not been destroyed": the engine makes a
 * destroyed component compare equal to null, and every null check in the core
 * is modelled as a check of `valid`.
 */
module Sources {
  import opened Wrappers

  datatype Clip = Clip(name: string)

  datatype Vec3 = Vec3(x: real, y: real, z: real)

  const Origin := Vec3(0.0, 0.0, 0.0)

  /** The engine reports `isPlaying` false while a voice is paused. */
  datatype PlayState = Stopped | Playing | Paused

  /** What the host may do to a voice between two frames. */
  datatype HostEvent = Idle | ClipEnded | Destroyed

  /** One frame as a running fade sees it: the unscaled time since the previous
      frame, and what the host did to the faded voice after the fade yielded. */
  datatype Frame = Frame(delta: real, event: HostEvent)

  /** The outcome of a play request: a started voice, a silent failure (no clip or
      no voice), or an exception escaping the call. */
  datatype PlayResult = Started(source: AudioSource) | NotStarted | Threw

  /** The fields that playback control and volume changes leave alone. */
  datatype Setup = Setup(valid: bool, clip: Option<Clip>, loop: bool, pitch: real,
                         spatialBlend: real, playOnAwake: bool, localPosition: Vec3)

  class AudioSource {
    var valid: bool
    var state: PlayState
    var volume: real
    var clip: Option<Clip>
    var loop: bool
    var pitch: real
    var spatialBlend: real
    var playOnAwake: bool
    var localPosition: Vec3

    /** A freshly added component, with the engine's defaults. */
    constructor ()
      ensures valid && state == Stopped && volume == 1.0 && clip == None && !loop
      ensures pitch == 1.0 && spatialBlend == 0.0 && playOnAwake && localPosition == Origin
    {
      valid := true;
      state := Stopped;
      volume := 1.0;
      clip := None;
      loop := false;
      pitch := 1.0;
      spatialBlend := 0.0;
      playOnAwake := true;
      localPosition := Origin;
    }

    predicate IsPlaying()
      reads this
    {
      state == Playing
    }

    function GetSetup(): Setup
      reads this
    {
      Setup(valid, clip, loop, pitch, spatialBlend, playOnAwake, localPosition)
    }

    /** Starts playback; a voice without a clip stays as it is. */
    method Play()
      modifies this
      ensures state == (if clip.Some? then Playing else old(state))
      ensures volume == old(volume) && GetSetup() == old(GetSetup())
    {
      if clip.Some? {
        state := Playing;
      }
    }

    method Stop()
      modifies this
      ensures state == Stopped
      ensures volume == old(volume) && GetSetup() == old(GetSetup())
    {
      state := Stopped;
    }

    /** Pausing only affects a playing voice. */
    method Pause()
      modifies this
      ensures state == (if old(state) == Playing then Paused else old(state))
      ensures volume == old(volume) && GetSetup() == old(GetSetup())
    {
      if state == Playing {
        state := Paused;
      }
    }

    /** Unpausing only affects a paused voice. */
    method UnPause()
      modifies this
      ensures state == (if old(state) == Paused then Playing else old(state))
      ensures volume == old(volume) && GetSetup() == old(GetSetup())
    {
      if state == Paused {
        state := Playing;
      }
    }

    /** The host acting on the voice: a non-looping clip reaching its end, or the
        component being destroyed. */
    method HostAct(e: HostEvent)
      modifies this
      ensures e == Idle ==> state == old(state) && valid == old(valid)
      ensures e == ClipEnded ==> valid == old(valid) &&
                                 state == (if old(state) == Playing && !loop then Stopped else old(state))
      ensures e == Destroyed ==> !valid && state == old(state)
      ensures volume == old(volume)
      ensures clip == old(clip) && loop == old(loop) && pitch == old(pitch)
      ensures spatialBlend == old(spatialBlend) && playOnAwake == old(playOnAwake)
      ensures localPosition == old(localPosition)
    {
      match e
      case Idle =>
      case ClipEnded =>
        if state == Playing && !loop {
          state := Stopped;
        }
      case Destroyed =>
        valid := false;
    }
  }

  /** The set of non-null voices a list refers to. */
  ghost function Referenced(sources: seq<AudioSource?>): set<AudioSource>
  {
    set i | 0 <= i < |sources| && sources[i] != null :: sources[i]
  }
}
