/** The fixed buffers of the first VGA experiment and of the PIO pin-control
    test: a single 4-word sync command buffer, a 40-entry test pixel
    buffer, and the pin-control program's 4-word command table. */
module VgaFirst {
  import opened VgaTiming

  /** The four sync words of the first variant: a `nop` (or, in the last
      word, `irq set 4`) in the upper half, a delay and the hsync level;
      vsync is always 0. */
  function FirstTimingWords(nop: bv16, irq4: bv16): (ws: seq<bv32>)
    ensures |ws| == 4
  {
    [SyncWord(nop, 10, 1), SyncWord(nop, 15, 0), SyncWord(nop, 15, 1), SyncWord(irq4, 100, 0)]
  }

  function FirstDelay(k: nat): bv32
    requires k < 4
  {
    [10, 15, 15, 100][k]
  }

  /** `setup_line_timing_buffer` of the first variant. */
  method SetupFirstLineTimingBuffer(buf: array<bv32>, nop: bv16, irq4: bv16)
    requires buf.Length == 4
    modifies buf
    ensures buf[..] == FirstTimingWords(nop, irq4)
  {
    buf[0] := SyncWord(nop, 10, 1);
    buf[1] := SyncWord(nop, 15, 0);
    buf[2] := SyncWord(nop, 15, 1);
    buf[3] := SyncWord(irq4, 100, 0);
  }

  /** Delays 10, 15, 15, 100; hsync high in words 0 and 2 only; vsync
      never set; only the last word carries the pixel-start interrupt. */
  lemma FirstTimingLayout(nop: bv16, irq4: bv16, k: nat)
    requires k < 4
    ensures SyncDelay(FirstTimingWords(nop, irq4)[k]) == FirstDelay(k)
    ensures HSync(FirstTimingWords(nop, irq4)[k]) == 1 <==> k == 0 || k == 2
    ensures VSync(FirstTimingWords(nop, irq4)[k]) == 0
    ensures SyncInstr(FirstTimingWords(nop, irq4)[k]) == if k == 3 then irq4 else nop
  {
    var hs: bv32 := if k == 0 || k == 2 then 1 else 0;
    var instr := if k == 3 then irq4 else nop;
    assert FirstTimingWords(nop, irq4)[k] == SyncWord(instr, FirstDelay(k), (0 << 1) | hs);
    SyncWordFields(instr, FirstDelay(k), 0, hs);
  }

  /** `setup_line_data_buffer` of the first variant: the test pixels are
      the numbers 1 to 40. */
  method SetupFirstLineDataBuffer(buf: array<int>)
    requires buf.Length == 40
    modifies buf
    ensures forall k :: 0 <= k < 40 ==> buf[k] == k + 1
  {
    var i := 1;
    while i <= 40
      invariant 1 <= i <= 41
      invariant forall k :: 0 <= k < i - 1 ==> buf[k] == k + 1
    {
      buf[i - 1] := i;
      i := i + 1;
    }
  }

  /** The pin-control test's command table: a delay above the two pin
      levels, no instruction half. */
  const PinCtrlTimingBuffer: seq<bv32> := [(4 << 2) | 0x1, (3 << 2) | 0x2, (8 << 2) | 0x3, (5 << 2) | 0x0]

  function PinCtrlDelay(k: nat): bv32
    requires k < 4
  {
    [4, 3, 8, 5][k]
  }

  function PinCtrlPins(k: nat): bv32
    requires k < 4
  {
    [1, 2, 3, 0][k]
  }

  /** Each word decodes to its (delay, pins) pair: (4, 1), (3, 2), (8, 3),
      (5, 0); the instruction half is empty. */
  lemma PinCtrlTimingLayout(k: nat)
    requires k < 4
    ensures |PinCtrlTimingBuffer| == 4
    ensures SyncDelay(PinCtrlTimingBuffer[k]) == PinCtrlDelay(k)
    ensures PinCtrlTimingBuffer[k] & 3 == PinCtrlPins(k)
    ensures SyncInstr(PinCtrlTimingBuffer[k]) == 0
  {
    assert PinCtrlTimingBuffer[k] == SyncWord(0, PinCtrlDelay(k), PinCtrlPins(k));
  }
}
