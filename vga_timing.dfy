/** The sync half of the VGA engine: the 32-bit command words streamed to the
    sync state machine and the sequencer that picks one of three 4-word
    command buffers for each of the 525 timing lines of a frame. The same
    handler appears unchanged in the third, fourth and fifth variants. */
module VgaTiming {

  /** The three command buffers a timing line can stream. */
  datatype SyncBuffer = VblankSync | VblankPorch | VisibleLine

  const TimingLines: nat := 525

  /** One sync command word: the instruction the state machine executes in
      the upper half, a delay count above the two sync-signal bits. */
  function SyncWord(instr: bv16, delay: bv32, signals: bv32): bv32 {
    (instr as bv32 << 16) | (delay << 2) | signals
  }

  function SyncInstr(w: bv32): bv16 { (w >> 16) as bv16 }
  function SyncDelay(w: bv32): bv32 { (w >> 2) & 0x3fff }
  function HSync(w: bv32): bv32 { w & 1 }
  function VSync(w: bv32): bv32 { (w >> 1) & 1 }

  /** The fields of a sync word can be read back as long as the delay fits
      in the 14 bits between the signals and the instruction. */
  lemma SyncWordFields(instr: bv16, delay: bv32, vsync: bv32, hsync: bv32)
    requires delay < 0x4000 && vsync < 2 && hsync < 2
    ensures SyncInstr(SyncWord(instr, delay, (vsync << 1) | hsync)) == instr
    ensures SyncDelay(SyncWord(instr, delay, (vsync << 1) | hsync)) == delay
    ensures VSync(SyncWord(instr, delay, (vsync << 1) | hsync)) == vsync
    ensures HSync(SyncWord(instr, delay, (vsync << 1) | hsync)) == hsync
  {
  }

  /** The delays of the four phases of every line: hsync pulse, back porch,
      visible part, front porch. */
  function PhaseDelay(k: nat): bv32
    requires k < 4
  {
    [474, 223, 3205, 74][k]
  }

  /** The four words of a buffer. `nop` and `irq4` are the encodings of
      `nop` and `irq set 4`, whose encoder is not part of this model. */
  function BufferWords(b: SyncBuffer, nop: bv16, irq4: bv16): (ws: seq<bv32>)
    ensures |ws| == 4
  {
    match b
    case VisibleLine =>
      [SyncWord(nop, 474, 2), SyncWord(nop, 223, 3), SyncWord(irq4, 3205, 3), SyncWord(nop, 74, 3)]
    case VblankPorch =>
      [SyncWord(nop, 474, 2), SyncWord(nop, 223, 3), SyncWord(nop, 3205, 3), SyncWord(nop, 74, 3)]
    case VblankSync =>
      [SyncWord(nop, 474, 0), SyncWord(nop, 223, 1), SyncWord(nop, 3205, 1), SyncWord(nop, 74, 1)]
  }

  /** Fills the three command buffers one word at a time. */
  method SetupLineTimingBuffers(visible: array<bv32>, porch: array<bv32>, sync: array<bv32>, nop: bv16, irq4: bv16)
    requires visible.Length == 4 && porch.Length == 4 && sync.Length == 4
    requires visible != porch && porch != sync && visible != sync
    modifies visible, porch, sync
    ensures visible[..] == BufferWords(VisibleLine, nop, irq4)
    ensures porch[..] == BufferWords(VblankPorch, nop, irq4)
    ensures sync[..] == BufferWords(VblankSync, nop, irq4)
  {
    visible[0] := SyncWord(nop, 474, 2);
    visible[1] := SyncWord(nop, 223, 3);
    visible[2] := SyncWord(irq4, 3205, 3);
    visible[3] := SyncWord(nop, 74, 3);

    porch[0] := SyncWord(nop, 474, 2);
    porch[1] := SyncWord(nop, 223, 3);
    porch[2] := SyncWord(nop, 3205, 3);
    porch[3] := SyncWord(nop, 74, 3);

    sync[0] := SyncWord(nop, 474, 0);
    sync[1] := SyncWord(nop, 223, 1);
    sync[2] := SyncWord(nop, 3205, 1);
    sync[3] := SyncWord(nop, 74, 1);
  }

  /** Every buffer uses the same four delays; hsync is low only in the first
      phase; vsync is low only in the vsync-pulse buffer; only the visible
      part of a visible line raises the pixel interrupt. */
  lemma {:induction false} BufferWordLayout(b: SyncBuffer, nop: bv16, irq4: bv16, k: nat)
    requires k < 4
    ensures SyncDelay(BufferWords(b, nop, irq4)[k]) == PhaseDelay(k)
    ensures HSync(BufferWords(b, nop, irq4)[k]) == 0 <==> k == 0
    ensures VSync(BufferWords(b, nop, irq4)[k]) == 0 <==> b == VblankSync
    ensures SyncInstr(BufferWords(b, nop, irq4)[k]) == if b == VisibleLine && k == 2 then irq4 else nop
  {
    var ws := BufferWords(b, nop, irq4);
    assert ws[k] == BufferWords(b, nop, irq4)[k];
    var vs: bv32 := if b == VblankSync then 0 else 1;
    var hs: bv32 := if k == 0 then 0 else 1;
    assert ws[k] == SyncWord(if b == VisibleLine && k == 2 then irq4 else nop, PhaseDelay(k), (vs << 1) | hs);
    SyncWordFields(if b == VisibleLine && k == 2 then irq4 else nop, PhaseDelay(k), vs, hs);
  }

  /** The buffer streamed for timing line `t` of the 525-line frame. */
  function PatternFor(t: int): SyncBuffer {
    if t == 0 || t == 1 then VblankSync
    else if t < 32 then VblankPorch
    else if t < 515 then VisibleLine
    else VblankPorch
  }

  /** Every timing line falls in exactly one of the four ranges. */
  lemma PatternRanges(t: int)
    requires 0 <= t < TimingLines
    ensures PatternFor(t) == VblankSync <==> t <= 1
    ensures PatternFor(t) == VblankPorch <==> (2 <= t <= 31 || 515 <= t)
    ensures PatternFor(t) == VisibleLine <==> 32 <= t <= 514
  {
  }

  /** Number of timing lines below `n` that stream the visible-line buffer. */
  function VisibleLinesBelow(n: nat): nat {
    if n == 0 then 0
    else VisibleLinesBelow(n - 1) + (if PatternFor(n - 1) == VisibleLine then 1 else 0)
  }

  lemma {:induction false} VisibleLinesBelowClosedForm(n: nat)
    requires n <= TimingLines
    ensures VisibleLinesBelow(n) == if n <= 32 then 0 else if n <= 515 then n - 32 else 483
  {
    if n > 0 {
      VisibleLinesBelowClosedForm(n - 1);
    }
  }

  /** 483 of the 525 lines raise the pixel interrupt: the dummy lines 32-34
      and the 480 display lines. */
  lemma VisibleLinesPerFrame()
    ensures VisibleLinesBelow(TimingLines) == 483
  {
    VisibleLinesBelowClosedForm(TimingLines);
  }

  /** The timing-line counter after `n` completions starting from `t`. */
  function AdvanceTiming(t: int, n: nat): int
    decreases n
  {
    if n == 0 then t else AdvanceTiming(if t < 524 then t + 1 else 0, n - 1)
  }

  lemma {:induction false} AdvanceTimingIsModular(t: int, n: nat)
    requires 0 <= t < TimingLines
    ensures AdvanceTiming(t, n) == (t + n) % TimingLines
    decreases n
  {
    if n > 0 {
      var t' := if t < 524 then t + 1 else 0;
      AdvanceTimingIsModular(t', n - 1);
      assert t' == (t + 1) % TimingLines;
    }
  }

  /** The counter comes back to where it was after exactly one frame. */
  lemma TimingPeriod(t: int, n: nat)
    requires 0 <= t < TimingLines && 0 < n <= TimingLines
    ensures AdvanceTiming(t, n) == t <==> n == TimingLines
  {
    AdvanceTimingIsModular(t, n);
  }

  /** The sync DMA channel's state: the timing line whose command words are
      being streamed and the buffer handed to the channel for it. */
  class TimingSequencer {
    var timingLine: int
    var selected: SyncBuffer

    ghost predicate Valid()
      reads this
    {
      0 <= timingLine < TimingLines && selected == PatternFor(timingLine)
    }

    /** Setup: line 0, channel pointed at the vsync-pulse buffer. */
    constructor ()
      ensures Valid() && timingLine == 0 && selected == VblankSync
    {
      timingLine := 0;
      selected := VblankSync;
    }

    /** The sync channel finished streaming one line's four words. */
    method OnSyncComplete()
      requires Valid()
      modifies this
      ensures Valid()
      ensures timingLine == (old(timingLine) + 1) % TimingLines
      ensures timingLine == AdvanceTiming(old(timingLine), 1)
    {
      if timingLine < 524 {
        timingLine := timingLine + 1;
      } else {
        timingLine := 0;
      }

      if timingLine == 0 || timingLine == 1 {
        selected := VblankSync;
      } else if timingLine < 32 {
        selected := VblankPorch;
      } else if timingLine < 515 {
        selected := VisibleLine;
      } else {
        selected := VblankPorch;
      }
    }
  }
}
