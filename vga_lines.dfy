/** The pixel half of the VGA engine: the display-line counter that runs over
    three dummy lines and 480 display lines, the double-buffer selection for
    the line DMA channel, the "new line needed" and "new frame" signals it
    raises, and the consumer loop's sample-and-clear step that picks which
    buffer to draw the requested row into. The same handler and loop appear
    unchanged in the third, fourth and fifth variants. */
module VgaLines {
  import VgaTiming

  /** What the line DMA channel is pointed at: the single all-ones word
      (read repeatedly), or one of the two 320-pixel line buffers. */
  datatype LineSource = ZeroLine | EvenBuffer | OddBuffer

  const FirstDisplayLine: int := -3
  const LastDisplayLine: int := 479
  const ScreenRows: nat := 240

  /** C's `/`, which truncates toward zero. */
  function CDiv(a: int, b: int): int
    requires b > 0
  {
    if a >= 0 then a / b else -((-a) / b)
  }

  /** `(n & 2) != 0` for a non-negative n. */
  predicate Bit1Set(n: nat) { (n / 2) % 2 == 1 }

  /** The buffer streamed for display line `line`. */
  function SourceFor(line: int): LineSource {
    if line < 0 then ZeroLine else if Bit1Set(line) then OddBuffer else EvenBuffer
  }

  /** The buffer the consumer draws row `row` into (`next_line & 1`). */
  function TargetFor(row: int): LineSource {
    if row % 2 == 1 then OddBuffer else EvenBuffer
  }

  /** The swapper's state as a value. */
  datatype LineState = LineState(
    displayLine: int,
    newFrame: bool,
    newLineNeeded: bool,
    nextLine: int,
    source: LineSource,
    readIncrement: bool)

  /** What the handler keeps true between completions: the counter is in
      range, the channel streams the buffer for its line, and it advances
      through the buffer exactly on real display lines. */
  ghost predicate Consistent(s: LineState) {
    && FirstDisplayLine <= s.displayLine <= LastDisplayLine
    && s.source == SourceFor(s.displayLine)
    && s.readIncrement == (s.displayLine >= 0)
    && 0 <= s.nextLine < ScreenRows
  }

  /** The effect of one line-channel completion. */
  function Completion(s: LineState): LineState {
    if s.displayLine == LastDisplayLine then
      s.(newFrame := true, displayLine := FirstDisplayLine, readIncrement := false, source := ZeroLine)
    else
      var line := s.displayLine + 1;
      var request := line % 2 == 0 && line != 478;
      s.(displayLine := line,
         newLineNeeded := if request then true else s.newLineNeeded,
         nextLine := if request then CDiv(line, 2) + 1 else s.nextLine,
         readIncrement := if line == 0 then true else s.readIncrement,
         source := SourceFor(line))
  }

  /** A completion keeps the handler's invariant. */
  lemma CompletionConsistent(s: LineState)
    requires Consistent(s)
    ensures Consistent(Completion(s))
  {
  }

  /** One completion raises the line request exactly on the even lines other
      than 478 (row `line/2 + 1`), and the frame signal exactly on line 479. */
  lemma CompletionSignals(s: LineState)
    requires Consistent(s)
    ensures var s' := Completion(s);
      && (s.displayLine == LastDisplayLine ==> s'.newFrame)
      && (s.displayLine != LastDisplayLine ==> s'.newFrame == s.newFrame)
      && (s.displayLine < LastDisplayLine ==> s'.displayLine == s.displayLine + 1)
      && (s.displayLine == LastDisplayLine ==> s'.displayLine == FirstDisplayLine)
      && (s'.nextLine != s.nextLine ==> s'.newLineNeeded && s'.displayLine % 2 == 0)
      && (s'.displayLine == 478 ==> s'.nextLine == s.nextLine && s'.newLineNeeded == s.newLineNeeded)
      && (s.displayLine < LastDisplayLine && s'.displayLine % 2 == 0 && s'.displayLine != 478 ==>
            s'.newLineNeeded && s'.nextLine == CDiv(s'.displayLine, 2) + 1)
  {
  }

  /** One step of the consumer loop: a row to draw and the buffer to draw it
      into, when a line was requested. */
  datatype Draw = Draw(row: int, target: LineSource)

  /** The consumer's sample-and-clear: what it draws, and whether it runs
      the end-of-frame work. */
  function Serve(s: LineState): (LineState, seq<Draw>, nat) {
    (s.(newLineNeeded := false, newFrame := false),
     if s.newLineNeeded then [Draw(s.nextLine, TargetFor(s.nextLine))] else [],
     if s.newFrame then 1 else 0)
  }

  /** `n` completions, each followed by one pass of the consumer loop: the
      final state, the draws made, and how many frames were signalled. */
  function Run(s: LineState, n: nat): (LineState, seq<Draw>, nat)
    decreases n
  {
    if n == 0 then (s, [], 0)
    else
      var served := Serve(Completion(s));
      var rest := Run(served.0, n - 1);
      (rest.0, served.1 + rest.1, served.2 + rest.2)
  }

  /** The draw requested when the counter moves onto `line`. */
  function RequestAt(line: int): seq<Draw> {
    if line % 2 == 0 && line != 478 then
      var row := CDiv(line, 2) + 1;
      [Draw(row, TargetFor(row))]
    else []
  }

  /** The draws requested while the counter moves from `a` up to `b`. */
  function RequestsBetween(a: int, b: int): seq<Draw>
    decreases b - a
  {
    if a >= b then [] else RequestAt(a + 1) + RequestsBetween(a + 1, b)
  }

  /** The state the handler leaves at the start of every frame (and setup
      leaves before the first one), with the flags already served. */
  function FrameStart(nextLine: int): LineState {
    LineState(FirstDisplayLine, false, false, nextLine, ZeroLine, false)
  }

  /** Within a frame, with the consumer keeping up, the draws are exactly
      the requests of the lines passed and no frame is signalled. */
  lemma {:induction false} RunWithinFrame(s: LineState, k: nat)
    requires Consistent(s) && !s.newLineNeeded && !s.newFrame
    requires s.displayLine + k <= LastDisplayLine
    ensures Run(s, k).1 == RequestsBetween(s.displayLine, s.displayLine + k)
    ensures Run(s, k).2 == 0
    ensures Run(s, k).0.displayLine == s.displayLine + k
    ensures Consistent(Run(s, k).0) && !Run(s, k).0.newLineNeeded && !Run(s, k).0.newFrame
    decreases k
  {
    FrameRunState(s, k);
    if k > 0 {
      var served := Serve(Completion(s));
      ServedWithinFrame(s);
      RunWithinFrame(served.0, k - 1);
      RunUnfold(s, k - 1);
      var d := s.displayLine;
      assert RequestsBetween(d, d + k) == RequestAt(d + 1) + RequestsBetween(d + 1, d + k);
    }
  }

  /** The state half of `RunWithinFrame`. */
  lemma {:induction false} FrameRunState(s: LineState, k: nat)
    requires Consistent(s) && !s.newLineNeeded && !s.newFrame
    requires s.displayLine + k <= LastDisplayLine
    ensures Run(s, k).2 == 0
    ensures Run(s, k).0.displayLine == s.displayLine + k
    ensures Consistent(Run(s, k).0) && !Run(s, k).0.newLineNeeded && !Run(s, k).0.newFrame
    decreases k
  {
    if k > 0 {
      var served := Serve(Completion(s));
      ServedWithinFrame(s);
      FrameRunState(served.0, k - 1);
      RunUnfold(s, k - 1);
    }
  }

  /** One completion and service inside a frame: the request of the next
      line is drawn, no frame is signalled, and the flags end up clear. */
  lemma ServedWithinFrame(s: LineState)
    requires Consistent(s) && !s.newLineNeeded && !s.newFrame && s.displayLine < LastDisplayLine
    ensures Serve(Completion(s)).1 == RequestAt(s.displayLine + 1)
    ensures Serve(Completion(s)).2 == 0
    ensures Serve(Completion(s)).0.displayLine == s.displayLine + 1
    ensures Consistent(Serve(Completion(s)).0)
    ensures !Serve(Completion(s)).0.newLineNeeded && !Serve(Completion(s)).0.newFrame
  {
    CompletionConsistent(s);
  }

  lemma RunUnfold(s: LineState, n: nat)
    ensures Run(s, n + 1).0 == Run(Serve(Completion(s)).0, n).0
    ensures Run(s, n + 1).1 == Serve(Completion(s)).1 + Run(Serve(Completion(s)).0, n).1
    ensures Run(s, n + 1).2 == Serve(Completion(s)).2 + Run(Serve(Completion(s)).0, n).2
  {
  }

  /** The requests of the display lines from `2j - 2` on are rows j..239. */
  lemma {:induction false} RequestsTail(j: nat)
    requires j <= ScreenRows
    ensures RequestsBetween(2 * j - 3, LastDisplayLine) == seq(ScreenRows - j, i => Draw(j + i, TargetFor(j + i)))
    decreases ScreenRows - j
  {
    var a := 2 * j - 3;
    if j == ScreenRows {
      assert RequestsBetween(a + 2, LastDisplayLine) == [];
      assert RequestsBetween(a, LastDisplayLine) == RequestAt(478) + (RequestAt(479) + []);
    } else {
      var head := [Draw(j, TargetFor(j))];
      var tail := seq(ScreenRows - (j + 1), i => Draw(j + 1 + i, TargetFor(j + 1 + i)));
      RequestsTail(j + 1);
      assert RequestsBetween(a + 2, LastDisplayLine) == tail;
      assert RequestAt(a + 1) == head by {
        assert CDiv(a + 1, 2) + 1 == j;
      }
      assert RequestAt(a + 2) == [];
      calc {
        RequestsBetween(a, LastDisplayLine);
        RequestAt(a + 1) + RequestsBetween(a + 1, LastDisplayLine);
        RequestAt(a + 1) + (RequestAt(a + 2) + RequestsBetween(a + 2, LastDisplayLine));
        head + tail;
      }
      assert seq(ScreenRows - j, i => Draw(j + i, TargetFor(j + i))) == head + tail;
    }
  }

  /** A whole frame: from the frame start, 483 completions bring the counter
      back to the frame start; the consumer draws rows 0..239 once each, in
      increasing order, each into the buffer of its parity; and the frame
      signal fires exactly once, on the last completion. */
  lemma FrameCycle(nextLine: int)
    requires 0 <= nextLine < ScreenRows
    ensures Run(FrameStart(nextLine), 483).0 == FrameStart(239)
    ensures Run(FrameStart(nextLine), 483).1 == seq(ScreenRows, r => Draw(r, TargetFor(r)))
    ensures Run(FrameStart(nextLine), 483).2 == 1
    ensures Run(FrameStart(nextLine), 482).2 == 0
  {
    var s := FrameStart(nextLine);
    RunWithinFrame(s, 482);
    RequestsTail(0);
    assert Run(s, 482).1 == seq(ScreenRows, r => Draw(r, TargetFor(r)));
    FrameLastCompletion(s, 482);
    FrameEndState(s, 478);
  }

  lemma FrameLastCompletion(s: LineState, k: nat)
    requires Consistent(s) && !s.newLineNeeded && !s.newFrame && s.displayLine + k == LastDisplayLine
    ensures Run(s, k + 1).1 == Run(s, k).1 && Run(s, k + 1).2 == Run(s, k).2 + 1
  {
    RunWithinFrame(s, k);
    RunSplit(s, k, 1);
    LastCompletion(Run(s, k).0);
  }

  lemma FrameEndState(s: LineState, k: nat)
    requires Consistent(s) && !s.newLineNeeded && !s.newFrame && s.displayLine + k == 475
    ensures Run(s, k + 5).0 == FrameStart(239)
  {
    RunWithinFrame(s, k);
    RunSplit(s, k, 5);
    FinalLines(Run(s, k).0);
  }

  /** The completion after line 479 adds no draw and signals the frame. */
  lemma LastCompletion(t: LineState)
    requires Consistent(t) && !t.newLineNeeded && !t.newFrame && t.displayLine == LastDisplayLine
    ensures Run(t, 1).1 == [] && Run(t, 1).2 == 1
  {
  }

  /** From line 475 the last request is row 239 and five completions reach
      the frame start. */
  lemma FinalLines(t: LineState)
    requires Consistent(t) && !t.newLineNeeded && !t.newFrame && t.displayLine == 475
    ensures Run(t, 5).0 == FrameStart(239)
  {
    FinalApproach(t);
    FinalFourLines();
    RunStep(t, 4);
  }

  /** The completion onto line 476 requests row 239, the last one. */
  lemma FinalApproach(t: LineState)
    requires Consistent(t) && !t.newLineNeeded && !t.newFrame && t.displayLine == 475
    ensures Serve(Completion(t)).0 == LineState(476, false, false, 239, SourceFor(476), true)
  {
    assert CDiv(476, 2) + 1 == 239;
  }

  /** Lines 477 to 479 request nothing, and the completion after 479 wraps
      the counter to the frame start. */
  lemma FinalFourLines()
    ensures Run(LineState(476, false, false, 239, SourceFor(476), true), 4).0 == FrameStart(239)
  {
    var t1 := LineState(476, false, false, 239, SourceFor(476), true);
    var t2 := LineState(477, false, false, 239, SourceFor(477), true);
    var t3 := LineState(478, false, false, 239, SourceFor(478), true);
    var t4 := LineState(479, false, false, 239, SourceFor(479), true);
    assert Serve(Completion(t1)).0 == t2;
    assert Serve(Completion(t2)).0 == t3;
    assert Serve(Completion(t3)).0 == t4;
    assert Serve(Completion(t4)).0 == FrameStart(239);
    RunStep(t4, 0);
    RunStep(t3, 1);
    RunStep(t2, 2);
    RunStep(t1, 3);
  }

  lemma RunStep(s: LineState, n: nat)
    ensures Run(s, n + 1).0 == Run(Serve(Completion(s)).0, n).0
  {
  }

  /** Running `m + n` steps is running `m` and then `n`. */
  lemma {:induction false} RunSplit(s: LineState, m: nat, n: nat)
    ensures Run(s, m + n).0 == Run(Run(s, m).0, n).0
    ensures Run(s, m + n).1 == Run(s, m).1 + Run(Run(s, m).0, n).1
    ensures Run(s, m + n).2 == Run(s, m).2 + Run(Run(s, m).0, n).2
    decreases m
  {
    if m > 0 {
      var served := Serve(Completion(s));
      RunSplit(served.0, m - 1, n);
    }
  }

  /** Double buffering: row r (requested when the counter reaches 2r - 2)
      goes into the buffer that is not streamed on lines 2r - 2 and 2r - 1,
      and that buffer is first streamed on line 2r. */
  lemma DrawTargetNotStreaming(r: int)
    requires 0 <= r < ScreenRows
    ensures RequestAt(2 * r - 2) == [Draw(r, TargetFor(r))]
    ensures TargetFor(r) != SourceFor(2 * r - 2)
    ensures TargetFor(r) != SourceFor(2 * r - 1)
    ensures TargetFor(r) == SourceFor(2 * r) == SourceFor(2 * r + 1)
  {
    if r > 0 {
      assert (2 * r - 2) / 2 == r - 1;
      assert (2 * r - 1) / 2 == r - 1;
    }
    assert (2 * r) / 2 == r;
    assert (2 * r + 1) / 2 == r;
  }

  /** The count of completions in a frame equals the count of timing lines
      that raise the pixel interrupt. */
  lemma CompletionsMatchVisibleLines()
    ensures LastDisplayLine - FirstDisplayLine + 1 == VgaTiming.VisibleLinesBelow(VgaTiming.TimingLines)
  {
    VgaTiming.VisibleLinesPerFrame();
  }

  /** The line DMA channel and the flags shared with the consumer loop. */
  class LineSwapper {
    var displayLine: int
    var newFrame: bool
    var newLineNeeded: bool
    var nextLine: int
    var source: LineSource
    var readIncrement: bool

    function State(): LineState
      reads this
    {
      LineState(displayLine, newFrame, newLineNeeded, nextLine, source, readIncrement)
    }

    ghost predicate Valid()
      reads this
    {
      Consistent(State())
    }

    /** Setup: three dummy lines to go, channel reading the all-ones word
      without advancing, no signal raised. */
    constructor ()
      ensures Valid() && State() == FrameStart(0)
    {
      displayLine := FirstDisplayLine;
      newFrame := false;
      newLineNeeded := false;
      nextLine := 0;
      source := ZeroLine;
      readIncrement := false;
    }

    /** The line channel finished streaming one display line. */
    method OnLineComplete()
      requires Valid()
      modifies this
      ensures Valid()
      ensures State() == Completion(old(State()))
    {
      if displayLine == LastDisplayLine {
        newFrame := true;
        displayLine := FirstDisplayLine;
        readIncrement := false;
        source := ZeroLine;
        return;
      }

      displayLine := displayLine + 1;

      if displayLine % 2 == 0 {
        if displayLine != 478 {
          newLineNeeded := true;
          nextLine := CDiv(displayLine, 2) + 1;
        }
      }

      if displayLine == 0 {
        readIncrement := true;
      }

      if displayLine < 0 {
        source := ZeroLine;
      } else if Bit1Set(displayLine) {
        source := OddBuffer;
      } else {
        source := EvenBuffer;
      }
      CompletionConsistent(old(State()));
    }

    /** The consumer loop's masked section: sample both flags and clear
        them, then choose the buffer for the requested row by its parity. */
    method SampleAndClear() returns (doDrawLine: bool, row: int, target: LineSource, doEndOfFrame: bool)
      requires Valid()
      modifies this
      ensures Valid()
      ensures State() == Serve(old(State())).0
      ensures doDrawLine == old(newLineNeeded) && doEndOfFrame == old(newFrame)
      ensures row == nextLine && 0 <= row < ScreenRows
      ensures doDrawLine ==> Serve(old(State())).1 == [Draw(row, target)]
      ensures target != ZeroLine && (target == OddBuffer <==> row % 2 == 1)
    {
      doDrawLine := newLineNeeded;
      if newLineNeeded {
        newLineNeeded := false;
      }
      doEndOfFrame := newFrame;
      if newFrame {
        newFrame := false;
      }
      row := nextLine;
      if nextLine % 2 == 1 {
        target := OddBuffer;
      } else {
        target := EvenBuffer;
      }
    }
  }
}
