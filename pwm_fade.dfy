/** The LED fade table of the looping PWM DMA demo. For each of 512 fade
    steps the table holds eight 32-bit compare words, one per DMA slot: the
    k-th word of a step is written to PWM slice `pwm_slices[k]`. A compare
    word carries channel A's level in its low half and channel B's in its
    high half. The level rises as fade² for the first 256 steps and falls
    symmetrically for the next 256. The table is filled by
    `fill_pwm_data`, written against slice count 8. */
module PwmFade {
  import VgaSprites

  const FadeSteps: nat := 512
  const Slices: nat := 8
  const TableSize: nat := 4096

  /** `pwm_slices`: DMA slot k of every fade step goes to this PWM slice. */
  const PwmSlices: seq<nat> := [0, 1, 2, 3, 5, 7, 6, 4]

  /** `fade > 255 ? 511 - fade : fade`. */
  function FadeLevel(fade: int): int {
    if fade > 255 then 511 - fade else fade
  }

  /** The stored level, `level * level`. */
  function Level(fade: int): int {
    FadeLevel(fade) * FadeLevel(fade)
  }

  /** `v << 16` stored into a `uint32_t` word. */
  function Shl16(v: nat): nat {
    (v * 0x1_0000) % 0x1_0000_0000
  }

  /** `(v << 16) | v` for a value below 2^16: both halves hold v. */
  function BothHalves(v: nat): nat
    requires v < 0x1_0000
  {
    Shl16(v) + v
  }

  /** The word `fill_pwm_data` stores in DMA slot `slot` of step `fade`. */
  function PwmWord(fade: int, slot: nat): nat
    requires 0 <= fade < 512 && slot < 8
  {
    var level := Level(fade);
    assert 0 <= FadeLevel(fade) <= 255;
    if fade > 255 then
      [0, level, level, level, 0, Shl16(level), Shl16(level), BothHalves(level)][slot]
    else
      [level, 0, level, 0, Shl16(level), Shl16(level), Shl16(level), BothHalves(level)][slot]
  }

  /** Channel A (low half) and channel B (high half) of a compare word. */
  function ChannelA(w: nat): nat { w % 0x1_0000 }
  function ChannelB(w: nat): nat { (w / 0x1_0000) % 0x1_0000 }

  /** The ramp is symmetric and stays within a byte before squaring. */
  lemma FadeLevelRange(fade: int)
    requires 0 <= fade < 512
    ensures 0 <= FadeLevel(fade) <= 255
    ensures FadeLevel(fade) == FadeLevel(511 - fade)
    ensures Level(fade) == Level(511 - fade)
  {
  }

  /** The squared level fits the 16-bit half of a compare word. */
  lemma LevelFits(fade: int)
    requires 0 <= fade < 512
    ensures 0 <= Level(fade) <= 65025 < 0x1_0000
  {
    var l := FadeLevel(fade);
    assert 0 <= l <= 255;
    VgaSprites.MulMono(l, 255, l);
    VgaSprites.MulMono(l, 255, 255);
  }

  /** A level below 2^16 shifted into the high half loses nothing, and the
      two halves of each word decode separately. */
  lemma HalvesDecode(v: nat)
    requires v < 0x1_0000
    ensures Shl16(v) == v * 0x1_0000
    ensures ChannelA(Shl16(v)) == 0 && ChannelB(Shl16(v)) == v
    ensures ChannelA(BothHalves(v)) == v && ChannelB(BothHalves(v)) == v
    ensures ChannelA(v) == v && ChannelB(v) == 0
  {
    assert v * 0x1_0000 < 0x1_0000_0000;
  }

  /** Which channels of which DMA slots are lit in each half of the fade.
      Rising half: slots 0 and 2 on channel A, slot 4 on channel B.
      Falling half: slots 1, 2 and 3 on channel A. In both halves slots
      5 and 6 carry the level on channel B and slot 7 on both channels. */
  lemma PwmWordChannels(fade: int, slot: nat)
    requires 0 <= fade < 512 && slot < 8
    ensures ChannelA(PwmWord(fade, slot)) ==
      if (fade <= 255 && slot in {0, 2}) || (fade > 255 && slot in {1, 2, 3}) || slot == 7 then Level(fade) else 0
    ensures ChannelB(PwmWord(fade, slot)) ==
      if (fade <= 255 && slot == 4) || slot in {5, 6, 7} then Level(fade) else 0
    ensures PwmWord(fade, slot) < 0x1_0000_0000
  {
    LevelFits(fade);
    HalvesDecode(Level(fade));
    HalvesDecode(0);
  }

  /** The DMA slots reach every one of the eight slices exactly once. */
  lemma SlotsCoverSlices()
    ensures |PwmSlices| == Slices
    ensures forall k :: 0 <= k < Slices ==> PwmSlices[k] < Slices
    ensures forall k, l :: 0 <= k < l < Slices ==> PwmSlices[k] != PwmSlices[l]
    ensures forall slice :: 0 <= slice < Slices ==> slice in PwmSlices
  {
    assert PwmSlices[0] == 0 && PwmSlices[1] == 1 && PwmSlices[2] == 2 && PwmSlices[3] == 3;
    assert PwmSlices[7] == 4 && PwmSlices[4] == 5 && PwmSlices[6] == 6 && PwmSlices[5] == 7;
  }

  /** The fade as the LEDs see it, by real PWM slice. Rising half: slices
      0, 2 and 4 on channel A and slices 4..7 on channel B. Falling half:
      slices 1..4 on channel A and slices 4, 6 and 7 on channel B. */
  lemma SliceChannels(fade: int, slot: nat)
    requires 0 <= fade < 512 && slot < 8
    ensures ChannelA(PwmWord(fade, slot)) ==
      if (fade <= 255 && PwmSlices[slot] in {0, 2, 4}) || (fade > 255 && PwmSlices[slot] in {1, 2, 3, 4}) then Level(fade) else 0
    ensures ChannelB(PwmWord(fade, slot)) ==
      if (fade <= 255 && PwmSlices[slot] in {4, 5, 6, 7}) || (fade > 255 && PwmSlices[slot] in {4, 6, 7}) then Level(fade) else 0
  {
    PwmWordChannels(fade, slot);
  }

  /** Iteration `fade` of `fill_pwm_data` writes entries fade*8 ..
      fade*8+7: those are exactly the entries i with i / 8 == fade, they lie
      inside the 4096-entry table, and every table entry belongs to one of
      the 512 iterations. */
  lemma EntryOwner(fade: nat, i: nat)
    requires fade < FadeSteps
    ensures fade * Slices + Slices <= TableSize
    ensures fade * Slices <= i < fade * Slices + Slices <==> i / Slices == fade
    ensures i < TableSize ==> i / Slices < FadeSteps
  {
  }

  /** `fill_pwm_data`: for every fade step, the eight compare words of the
      step's half. */
  method FillPwmData(pwmData: array<nat>)
    requires pwmData.Length == TableSize
    modifies pwmData
    ensures forall i :: 0 <= i < TableSize ==> pwmData[i] == PwmWord(i / 8, i % 8)
  {
    var fade := 0;
    while fade < 512
      invariant 0 <= fade <= 512
      invariant forall i :: 0 <= i < fade * 8 ==> pwmData[i] == PwmWord(i / 8, i % 8)
    {
      var level := if fade > 255 then 511 - fade else fade;
      level := level * level;
      assert level == Level(fade);
      LevelFits(fade);
      var base := fade * 8;
      if fade > 255 {
        pwmData[base] := 0;
        pwmData[base + 1] := level;
        pwmData[base + 2] := level;
        pwmData[base + 3] := level;
        pwmData[base + 4] := 0;

        pwmData[base + 5] := Shl16(level);
        pwmData[base + 6] := Shl16(level);
        pwmData[base + 7] := BothHalves(level);
      } else {
        pwmData[base] := level;
        pwmData[base + 1] := 0;
        pwmData[base + 2] := level;
        pwmData[base + 3] := 0;
        pwmData[base + 4] := Shl16(level);

        pwmData[base + 5] := Shl16(level);
        pwmData[base + 6] := Shl16(level);
        pwmData[base + 7] := BothHalves(level);
      }
      forall i | base <= i < base + 8
        ensures i / 8 == fade && pwmData[i] == PwmWord(fade, i % 8)
      {
      }
      fade := fade + 1;
    }
  }

  /** The source computes `level << 16` on a signed `int`. The shift is
      defined only while the result fits in 31 bits; this is the value it
      yields, or None where the C standard leaves it undefined. */
  function SignedShl16(level: int): (r: Option)
    requires level >= 0
  {
    if level * 0x1_0000 <= 0x7fff_ffff then Some(level * 0x1_0000) else None
  }

  datatype Option = None | Some(value: int)

  /** From fade 182 (level 33124) to fade 329 the signed shift overflows. */
  lemma SignedShiftOverflows(fade: int)
    requires 182 <= fade <= 329
    ensures Level(fade) >= 0x8000
    ensures SignedShl16(Level(fade)) == None
  {
    var l := FadeLevel(fade);
    assert l >= 182;
    assert l * l >= 182 * l >= 182 * 182;
  }

  /** Below that range the signed shift is defined and agrees with the
      unsigned one the table uses. */
  lemma SignedShiftAgreesBelow(fade: int)
    requires 0 <= fade < 512 && Level(fade) < 0x8000
    ensures SignedShl16(Level(fade)) == Some(Shl16(Level(fade)))
  {
    LevelFits(fade);
    HalvesDecode(Level(fade));
  }
}
