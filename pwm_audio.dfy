/** The interrupt-driven audio player: on every PWM wrap interrupt the
    handler writes the current 8-bit sample as the PWM level, shows it on a
    five-LED bar meter, and advances a counter that plays each sample on
    four consecutive interrupts before wrapping to the start of the clip.
    The clip (`audio_buffer`, AUDIO_SAMPLES entries) is a parameter; GPIO
    writes are modelled as the recorded LED levels. */
module PwmAudio {

  /** Sample levels above which LED 0 .. 4 light. */
  const LedThresholds: seq<int> := [128, 137, 147, 157, 168]

  /** The five LED levels for one sample. */
  function LedBar(sample: int): (leds: seq<bool>)
    ensures |leds| == 5
  {
    seq(5, k requires 0 <= k < 5 => sample > LedThresholds[k])
  }

  /** Number of thresholds the sample exceeds. */
  function LitCount(sample: int): (n: nat)
    ensures n <= 5
  {
    if sample > 168 then 5
    else if sample > 157 then 4
    else if sample > 147 then 3
    else if sample > 137 then 2
    else if sample > 128 then 1
    else 0
  }

  /** The meter is a bar: LED k is lit exactly when k is below the number
      of thresholds passed, so a lit LED implies every LED before it is
      lit, and a louder sample never lights fewer LEDs. */
  lemma LedBarIsBar(sample: int, k: nat)
    requires k < 5
    ensures LedBar(sample)[k] <==> k < LitCount(sample)
  {
  }

  lemma LedBarMonotone(sample: int, sample': int, j: nat, k: nat)
    requires j <= k < 5
    requires sample <= sample'
    ensures LedBar(sample)[k] ==> LedBar(sample)[j]
    ensures LitCount(sample) <= LitCount(sample')
  {
    LedBarIsBar(sample, j);
    LedBarIsBar(sample, k);
  }

  /** The counter step: `cur_sample` advances until 4*n - 1, then wraps. */
  function NextSample(cur: int, n: nat): int {
    if cur < n * 4 - 1 then cur + 1 else 0
  }

  /** The counter after `k` interrupts from 0. */
  function SampleAfter(k: nat, n: nat): int {
    if k == 0 then 0 else NextSample(SampleAfter(k - 1, n), n)
  }

  /** Interrupt r of any pass through the clip finds the counter at r. */
  lemma {:induction false} SampleAfterInPass(k: nat, pass: nat, r: nat, n: nat)
    requires n > 0 && r < 4 * n && k == pass * (4 * n) + r
    ensures SampleAfter(k, n) == r
    decreases k
  {
    var m := 4 * n;
    if r > 0 {
      SampleAfterInPass(k - 1, pass, r - 1, n);
    } else if pass > 0 {
      assert k - 1 == (pass - 1) * m + (m - 1);
      SampleAfterInPass(k - 1, pass - 1, m - 1, n);
    }
  }

  /** The interrupt count as whole passes of period m plus an offset. */
  lemma PassAndOffset(k: nat, m: nat) returns (pass: nat, r: nat)
    requires m > 0
    ensures r == k % m && k == pass * m + r
  {
    pass, r := k / m, k % m;
  }

  /** The counter is the interrupt count modulo 4n. */
  lemma SampleAfterIsModular(k: nat, n: nat)
    requires n > 0
    ensures SampleAfter(k, n) == k % (4 * n)
  {
    var pass, r := PassAndOffset(k, 4 * n);
    SampleAfterInPass(k, pass, r, n);
  }

  /** Sample j (j < n) is played by interrupts 4j .. 4j+3 of every pass
      through the clip, and the index read is always inside the clip. */
  lemma EachSampleFourTimes(n: nat, pass: nat, j: nat, r: nat)
    requires n > 0 && j < n && r < 4
    ensures SampleAfter(pass * (4 * n) + 4 * j + r, n) / 4 == j
  {
    SampleAfterInPass(pass * (4 * n) + 4 * j + r, pass, 4 * j + r, n);
  }

  class AudioPlayer {
    /** The clip, one 8-bit sample per entry. */
    const audio: seq<int>
    var curSample: int
    /** Levels last written to the five LED pins. */
    var leds: seq<bool>
    /** Level last written to the audio PWM pin. */
    var pwmLevel: int

    ghost predicate Valid()
      reads this
    {
      |audio| > 0 && (forall i :: 0 <= i < |audio| ==> 0 <= audio[i] < 256)
      && 0 <= curSample < 4 * |audio| && |leds| == 5
    }

    /** `main`'s set-up: all LEDs on, PWM level 0, counter 0. */
    constructor (clip: seq<int>)
      requires |clip| > 0 && forall i :: 0 <= i < |clip| ==> 0 <= clip[i] < 256
      ensures Valid() && audio == clip
      ensures curSample == 0 && leds == [true, true, true, true, true] && pwmLevel == 0
    {
      audio := clip;
      curSample := 0;
      leds := [true, true, true, true, true];
      pwmLevel := 0;
    }

    /** `pwm_irh`: play, meter, advance. */
    method PwmIrh()
      requires Valid()
      modifies this
      ensures Valid()
      ensures pwmLevel == audio[old(curSample) / 4]
      ensures leds == LedBar(pwmLevel)
      ensures curSample == NextSample(old(curSample), |audio|)
    {
      pwmLevel := audio[curSample / 4];
      var sample := audio[curSample / 4];

      if sample > 128 { leds := leds[0 := true]; } else { leds := leds[0 := false]; }
      if sample > 137 { leds := leds[1 := true]; } else { leds := leds[1 := false]; }
      if sample > 147 { leds := leds[2 := true]; } else { leds := leds[2 := false]; }
      if sample > 157 { leds := leds[3 := true]; } else { leds := leds[3 := false]; }
      if sample > 168 { leds := leds[4 := true]; } else { leds := leds[4 := false]; }

      if curSample < |audio| * 4 - 1 {
        curSample := curSample + 1;
      } else {
        curSample := 0;
      }
    }
  }
}
