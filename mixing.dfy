/**
 * The mixer's arithmetic on the two category tables (volume and mute), shared by
 * the controller, its guarded variant, the coordinator and the legacy player.
 */
module Mixing {
  import opened Wrappers
  import opened AudioCategories
  import opened Mathf

  type VolumeTable = map<Category, real>
  type MuteTable = map<Category, bool>

  /** The volume stored for a category, 1 when none is stored. */
  function StoredVolume(vols: VolumeTable, c: Category): real
  {
    if c in vols then vols[c] else 1.0
  }

  /** A category is muted only when its flag is present and set. */
  predicate Muted(mutes: MuteTable, c: Category)
  {
    c in mutes && mutes[c]
  }

  /** What a category actually sounds at: 0 when muted, else the stored volume. */
  function EffectiveVolume(vols: VolumeTable, mutes: MuteTable, c: Category): real
  {
    if Muted(mutes, c) then 0.0 else StoredVolume(vols, c)
  }

  /** Setting a volume stores the clamped value for that category alone; reading it
      back gives that value unless the category is muted. */
  lemma SetVolumeReadBack(vols: VolumeTable, mutes: MuteTable, c: Category, v: real, other: Category)
    ensures EffectiveVolume(vols[c := Clamp01(v)], mutes, c) == (if Muted(mutes, c) then 0.0 else Clamp01(v))
    ensures other != c ==> EffectiveVolume(vols[c := Clamp01(v)], mutes, other) == EffectiveVolume(vols, mutes, other)
  {
  }

  /** Muting and then unmuting a category that was audible restores its effective volume. */
  lemma MuteUnmuteRestores(vols: VolumeTable, mutes: MuteTable, c: Category)
    requires !Muted(mutes, c)
    ensures EffectiveVolume(vols, mutes[c := true], c) == 0.0
    ensures EffectiveVolume(vols, mutes[c := true][c := false], c) == EffectiveVolume(vols, mutes, c)
  {
  }

  /** The relative volume the controller computes as written: `v / stored` in IEEE
      arithmetic, which has no real value (NaN or an infinity) when `stored` is 0. */
  function UnguardedRelative(v: real, stored: real): Option<real>
  {
    if stored == 0.0 then None else Some(v / stored)
  }

  /** The relative volume with a fallback to the raw volume when the stored volume is
      0: the corrected form of `UnguardedRelative`, defined on every input and equal to
      it wherever it is defined. */
  function ControllerRelative(v: real, stored: real): (r: real)
    ensures UnguardedRelative(v, stored).Some? ==> r == UnguardedRelative(v, stored).value
    ensures stored == 0.0 ==> r == v
  {
    if stored == 0.0 then v else v / stored
  }

  /** The relative volume of the guarded variant: a division only by a positive value. */
  function GuardedRelative(v: real, stored: real): real
  {
    if stored > 0.0 then v / stored else v
  }

  /** A voice's new volume: its relative volume times the category's effective volume. */
  function ControllerRescale(v: real, vols: VolumeTable, mutes: MuteTable, c: Category): real
  {
    ControllerRelative(v, StoredVolume(vols, c)) * EffectiveVolume(vols, mutes, c)
  }

  function GuardedRescale(v: real, vols: VolumeTable, mutes: MuteTable, c: Category): real
  {
    GuardedRelative(v, StoredVolume(vols, c)) * EffectiveVolume(vols, mutes, c)
  }

  /** The guarded rescale applied `n` times, as a voice listed `n` times receives it. */
  function RepeatedRescale(v: real, vols: VolumeTable, mutes: MuteTable, c: Category, n: nat): real
  {
    if n == 0 then v else GuardedRescale(RepeatedRescale(v, vols, mutes, c, n - 1), vols, mutes, c)
  }

  lemma DivideThenMultiply(v: real, s: real)
    requires s != 0.0
    ensures v / s * s == v
  {
  }

  /** Because the stored volume is the one just set, the rescale never changes an audible
      voice: it leaves the volume as it was, and silences it when the category reads 0. */
  lemma ControllerRescaleOutcome(v: real, vols: VolumeTable, mutes: MuteTable, c: Category)
    ensures ControllerRescale(v, vols, mutes, c) == (if EffectiveVolume(vols, mutes, c) == 0.0 then 0.0 else v)
  {
    var stored := StoredVolume(vols, c);
    if stored != 0.0 {
      DivideThenMultiply(v, stored);
    }
  }

  /** The guarded rescale, applied any number of times, to a category with a positive
      stored volume that is not muted leaves the voice's volume as it was. */
  lemma {:induction false} RepeatedRescaleAudible(v: real, vols: VolumeTable, mutes: MuteTable, c: Category, n: nat)
    requires StoredVolume(vols, c) > 0.0 && !Muted(mutes, c)
    ensures RepeatedRescale(v, vols, mutes, c, n) == v
  {
    if n > 0 {
      var stored := StoredVolume(vols, c);
      RepeatedRescaleAudible(v, vols, mutes, c, n - 1);
      assert RepeatedRescale(v, vols, mutes, c, n) == GuardedRelative(v, stored) * stored;
      DivideThenMultiply(v, stored);
    }
  }

  /** Applied at least once to a muted category, or to one whose stored volume is 0,
      the guarded rescale silences the voice. */
  lemma RepeatedRescaleSilent(v: real, vols: VolumeTable, mutes: MuteTable, c: Category, n: nat)
    requires n > 0
    requires Muted(mutes, c) || StoredVolume(vols, c) == 0.0
    ensures RepeatedRescale(v, vols, mutes, c, n) == 0.0
  {
    assert EffectiveVolume(vols, mutes, c) == 0.0;
  }

  /** Dividing by a new volume (with the fallback at 0) and multiplying back by it:
      a voice keeps its volume unless the new volume is 0, which silences it. */
  lemma RelativeThenScale(v: real, s: real)
    ensures ControllerRelative(v, s) * s == (if s == 0.0 then 0.0 else v)
  {
    if s != 0.0 {
      DivideThenMultiply(v, s);
    }
  }

  /** Setting a volume of 0 or less stores 0, and the division that follows has no
      real value, while the fallback yields the silence that volume asks for. */
  lemma ZeroVolumeDivision(v: real, volume: real)
    requires volume <= 0.0
    ensures UnguardedRelative(v, Clamp01(volume)).None?
    ensures ControllerRelative(v, Clamp01(volume)) * Clamp01(volume) == 0.0
  {
  }
}
