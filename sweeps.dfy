/**
 * The loops that stop, pause or resume every voice of a list. A destroyed voice
 * reads as null to the engine and is skipped.
 */
module Sweeps {
  import opened Sources

  datatype VoiceOp = StopVoice | PauseVoice | ResumeVoice

  /** A live voice's play state after the operation. */
  function After(op: VoiceOp, s: PlayState): PlayState
  {
    match op
    case StopVoice => Stopped
    case PauseVoice => if s == Playing then Paused else s
    case ResumeVoice => if s == Paused then Playing else s
  }

  /** Applies the operation to each live voice of the list, in order. Pausing only
      pauses a voice reported as playing. A voice listed twice gets the operation
      twice, which leaves it as once would. */
  method ApplyToEach(list: seq<AudioSource>, op: VoiceOp)
    modifies set v | v in list
    ensures forall v :: v in list ==>
              v.state == (if old(v.valid) then After(op, old(v.state)) else old(v.state))
    ensures forall v :: v in list ==> v.volume == old(v.volume) && v.GetSetup() == old(v.GetSetup())
  {
    for i := 0 to |list|
      invariant forall v :: v in list ==>
                  v.state == (if v in list[..i] && old(v.valid) then After(op, old(v.state)) else old(v.state))
      invariant forall v :: v in list ==> v.volume == old(v.volume) && v.GetSetup() == old(v.GetSetup())
    {
      var source := list[i];
      assert list[..i + 1] == list[..i] + [source];
      if source.valid {
        match op
        case StopVoice =>
          source.Stop();
        case PauseVoice =>
          if source.IsPlaying() {
            source.Pause();
          }
        case ResumeVoice =>
          source.UnPause();
      }
    }
    assert list[..|list|] == list;
  }
}
