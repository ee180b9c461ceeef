/** The second VGA variant: fixed pixel buffers instead of rendered lines.
    Its sync buffers are the ones `VgaTiming` builds; its handler differs
    from the later variants in the porch boundary and in a display counter
    that simply cycles over the 480 visible lines, choosing between an
    all-white line and a colour-pattern line. */
module VgaSecond {
  import VgaTiming
  import VgaGradient

  const DisplayLines: nat := 480
  /** 32-bit words per line: two 16-bit pixels each. */
  const LineWords: nat := 160

  /** The buffer streamed for timing line `t`; the back porch runs up to 34. */
  function PatternFor(t: int): VgaTiming.SyncBuffer {
    if t == 0 || t == 1 then VgaTiming.VblankSync
    else if t < 35 then VgaTiming.VblankPorch
    else if t < 515 then VgaTiming.VisibleLine
    else VgaTiming.VblankPorch
  }

  lemma PatternRanges(t: int)
    requires 0 <= t < VgaTiming.TimingLines
    ensures PatternFor(t) == VgaTiming.VblankSync <==> t <= 1
    ensures PatternFor(t) == VgaTiming.VblankPorch <==> (2 <= t <= 34 || 515 <= t)
    ensures PatternFor(t) == VgaTiming.VisibleLine <==> 35 <= t <= 514
  {
  }

  function VisibleLinesBelow(n: nat): nat {
    if n == 0 then 0
    else VisibleLinesBelow(n - 1) + (if PatternFor(n - 1) == VgaTiming.VisibleLine then 1 else 0)
  }

  lemma {:induction false} VisibleLinesBelowClosedForm(n: nat)
    requires n <= VgaTiming.TimingLines
    ensures VisibleLinesBelow(n) == if n <= 35 then 0 else if n <= 515 then n - 35 else 480
  {
    if n > 0 {
      VisibleLinesBelowClosedForm(n - 1);
    }
  }

  /** Exactly as many timing lines start a pixel line as the display counter
      has values, so one frame of sync lines drives one cycle of it. */
  lemma VisibleLinesPerFrame()
    ensures VisibleLinesBelow(VgaTiming.TimingLines) == DisplayLines
  {
    VisibleLinesBelowClosedForm(VgaTiming.TimingLines);
  }

  /** The two pixel buffers the line channel can stream. */
  datatype LineData = WhiteData | PatternData

  /** White for the two top and two bottom display lines, which are screen
      rows 0 and 239 with each row shown twice. */
  function LineDataFor(d: int): LineData {
    if d <= 1 || d >= 478 then WhiteData else PatternData
  }

  lemma LineDataIsBorder(d: int)
    requires 0 <= d < DisplayLines
    ensures LineDataFor(d) == WhiteData <==> d in {0, 1, 478, 479}
    ensures LineDataFor(d) == WhiteData <==> (d / 2 == 0 || d / 2 == 239)
  {
  }

  /** The display counter after `n` line completions starting from `d`. */
  function AdvanceDisplay(d: int, n: nat): int
    decreases n
  {
    if n == 0 then d else AdvanceDisplay(if d < 479 then d + 1 else 0, n - 1)
  }

  lemma {:induction false} AdvanceDisplayIsModular(d: int, n: nat)
    requires 0 <= d < DisplayLines
    ensures AdvanceDisplay(d, n) == (d + n) % DisplayLines
    decreases n
  {
    if n > 0 {
      var d' := if d < 479 then d + 1 else 0;
      AdvanceDisplayIsModular(d', n - 1);
      assert d' == (d + 1) % DisplayLines;
    }
  }

  /** Every display line is reached, and the counter first comes back to
      its starting value after exactly 480 completions. */
  lemma DisplayPeriod(d: int, n: nat)
    requires 0 <= d < DisplayLines && 0 < n <= DisplayLines
    ensures AdvanceDisplay(d, n) == d <==> n == DisplayLines
    ensures AdvanceDisplay(0, d) == d
  {
    AdvanceDisplayIsModular(d, n);
    AdvanceDisplayIsModular(0, d);
  }

  /** Word `i` of the pattern buffer before the two end pixels are whitened:
      red and green pixels in even words, blue and black in odd ones. */
  function PatternBase(i: nat): bv32 {
    if i % 2 == 1 then 0x7c00 else 0x001f | (0x03e0 << 16)
  }

  function PatternWord(i: nat): bv32 {
    PatternBase(i) | (if i == 0 then 0x0000ffff else 0) | (if i == LineWords - 1 then 0xffff0000 else 0)
  }

  function PatternLine(): seq<bv32> { seq(LineWords, (i: int) requires 0 <= i => PatternWord(i)) }
  function WhiteWords(): seq<bv32> { seq(LineWords, _ => 0xffffffff) }

  /** The line machine shifts words out low half first, so pixel `p` is the
      low half of word p/2 for even `p` and its high half for odd `p`. */
  function PixelOf(words: seq<bv32>, p: nat): bv32
    requires p < 2 * |words|
  {
    if p % 2 == 0 then words[p / 2] & 0xffff else words[p / 2] >> 16
  }

  /** The pattern line shows red, green, blue, black repeatedly, with its
      first and last pixels white. */
  lemma PatternLinePixels(p: nat)
    requires p < 2 * LineWords
    ensures PixelOf(PatternLine(), p) as int ==
      if p == 0 || p == 2 * LineWords - 1 then VgaGradient.White
      else [VgaGradient.EncodeRgb(31, 0, 0), VgaGradient.EncodeRgb(0, 31, 0), VgaGradient.EncodeRgb(0, 0, 31), 0][p % 4]
  {
    var i := p / 2;
    assert PatternLine()[i] == PatternWord(i);
    assert (p / 2) % 2 == 1 <==> p % 4 >= 2;
    assert VgaGradient.EncodeRgb(31, 0, 0) == 0x001f;
    assert VgaGradient.EncodeRgb(0, 31, 0) == 0x03e0;
    assert VgaGradient.EncodeRgb(0, 0, 31) == 0x7c00;
  }

  lemma WhiteLinePixels(p: nat)
    requires p < 2 * LineWords
    ensures PixelOf(WhiteWords(), p) as int == VgaGradient.White
  {
    assert WhiteWords()[p / 2] == 0xffffffff;
  }

  /** Fills the pattern and white buffers word by word, then whitens the
      first pixel of the pattern line and its last. */
  method SetupLineDataBuffers(pattern: array<bv32>, white: array<bv32>)
    requires pattern.Length == LineWords && white.Length == LineWords
    requires pattern != white
    modifies pattern, white
    ensures pattern[..] == PatternLine()
    ensures white[..] == WhiteWords()
  {
    for i := 0 to LineWords
      invariant forall k :: 0 <= k < i ==> pattern[k] == PatternBase(k)
      invariant forall k :: 0 <= k < i ==> white[k] == 0xffffffff
    {
      if i % 2 == 1 {
        pattern[i] := 0x7c00;
      } else {
        pattern[i] := 0x001f | (0x03e0 << 16);
      }
      white[i] := 0xffffffff;
    }
    pattern[0] := pattern[0] | 0x0000ffff;
    pattern[LineWords - 1] := pattern[LineWords - 1] | 0xffff0000;
    assert forall k :: 0 <= k < LineWords ==> pattern[k] == PatternWord(k);
  }

  /** The handler state: the timing line and the display line whose words
      are being streamed, and the buffer each channel was pointed at. */
  class SecondVideo {
    var timingLine: int
    var displayLine: int
    var syncBuffer: VgaTiming.SyncBuffer
    var lineData: LineData

    ghost predicate Valid()
      reads this
    {
      && 0 <= timingLine < VgaTiming.TimingLines
      && syncBuffer == PatternFor(timingLine)
      && 0 <= displayLine < DisplayLines
      && lineData == LineDataFor(displayLine)
    }

    /** Both counters start at 0; the channels start on the vsync-pulse
        buffer and the white line. */
    constructor ()
      ensures Valid()
      ensures timingLine == 0 && displayLine == 0
      ensures syncBuffer == VgaTiming.VblankSync && lineData == WhiteData
    {
      timingLine := 0;
      displayLine := 0;
      syncBuffer := VgaTiming.VblankSync;
      lineData := WhiteData;
    }

    /** The sync channel finished a line's four command words. */
    method OnSyncComplete()
      requires Valid()
      modifies this
      ensures Valid()
      ensures timingLine == VgaTiming.AdvanceTiming(old(timingLine), 1)
      ensures displayLine == old(displayLine) && lineData == old(lineData)
    {
      if timingLine < 524 {
        timingLine := timingLine + 1;
      } else {
        timingLine := 0;
      }

      if timingLine == 0 || timingLine == 1 {
        syncBuffer := VgaTiming.VblankSync;
      } else if timingLine < 35 {
        syncBuffer := VgaTiming.VblankPorch;
      } else if timingLine < 515 {
        syncBuffer := VgaTiming.VisibleLine;
      } else {
        syncBuffer := VgaTiming.VblankPorch;
      }
    }

    /** The line channel finished a line's 160 pixel words. */
    method OnLineComplete()
      requires Valid()
      modifies this
      ensures Valid()
      ensures displayLine == AdvanceDisplay(old(displayLine), 1)
      ensures timingLine == old(timingLine) && syncBuffer == old(syncBuffer)
    {
      if displayLine < 479 {
        displayLine := displayLine + 1;
      } else {
        displayLine := 0;
      }

      if displayLine <= 1 || displayLine >= 478 {
        lineData := WhiteData;
      } else {
        lineData := PatternData;
      }
    }
  }
}
