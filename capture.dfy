/** The logic-analyser capture dump shared by the first VGA variant and the
    PIO test program. The analyser state machine shifts `pinCount` pin
    levels per sample into 32-bit words, least significant bit first;
    the dump prints one CSV line of 0/1 digits per sample. The first
    variant prints the pins from the highest down, the test program from
    pin 0 up. Printed text is modelled as the returned string; a captured
    word is the value of the `uint32_t`, as a natural number. */
module Capture {
  import VgaSprites

  datatype PinOrder = Descending | Ascending

  const Header: string := "Capture:\n"
  const Trailer: string := "Capture complete\n"

  /** Words the capture buffer is declared with. */
  function CaptureWords(pinCount: nat, nSamples: nat): nat {
    (pinCount * nSamples + 31) / 32
  }

  /** The declared buffer holds every captured bit, with less than one
      word to spare. */
  lemma CaptureWordsSuffice(pinCount: nat, nSamples: nat)
    ensures 32 * CaptureWords(pinCount, nSamples) >= pinCount * nSamples
    ensures 32 * CaptureWords(pinCount, nSamples) < pinCount * nSamples + 32
  {
  }

  function Pow2(b: nat): (p: nat)
    ensures p >= 1
  {
    if b == 0 then 1 else 2 * Pow2(b - 1)
  }

  /** `w & 1u << b` is nonzero: bit b of the word is set. */
  function WordBit(w: nat, b: nat): bool
    requires b < 32
  {
    (w / Pow2(b)) % 2 == 1
  }

  /** The 32 bits of a word, least significant first. */
  function WordBits(w: nat): (bits: seq<bool>)
    ensures |bits| == 32
    ensures forall b :: 0 <= b < 32 ==> bits[b] == WordBit(w, b)
  {
    seq(32, b requires 0 <= b < 32 => WordBit(w, b))
  }

  /** The captured bit stream: the words' bits one word after another. */
  function Bits(buf: seq<nat>): (bits: seq<bool>)
    ensures |bits| == 32 * |buf|
  {
    if buf == [] then [] else WordBits(buf[0]) + Bits(buf[1..])
  }

  /** Bit `i` of the stream is bit i%32 of word i/32. */
  lemma {:induction false} BitsAt(buf: seq<nat>, i: nat)
    requires i < 32 * |buf|
    ensures i / 32 < |buf|
    ensures Bits(buf)[i] == WordBit(buf[i / 32], i % 32)
  {
    if i >= 32 {
      BitsAt(buf[1..], i - 32);
      assert (i - 32) / 32 == i / 32 - 1 && (i - 32) % 32 == i % 32;
    }
  }

  /** Bit `i` of the capture (bits past the buffer read as 0; the dumps
      never read them). */
  function BitAt(buf: seq<nat>, i: nat): bool {
    i < 32 * |buf| && Bits(buf)[i]
  }

  /** The level the dumps read for bit `bitIndex`:
      `!!(buf[bit_index / 32] & 1u << (bit_index % 32))`. */
  method ReadBit(buf: seq<nat>, bitIndex: nat) returns (level: bool)
    requires bitIndex < 32 * |buf|
    ensures level == BitAt(buf, bitIndex)
  {
    BitsAt(buf, bitIndex);
    level := WordBit(buf[bitIndex / 32], bitIndex % 32);
  }

  function Digit(level: bool): char {
    if level then '1' else '0'
  }

  /** The pin printed in position `m` of a sample line. */
  function PinAt(order: PinOrder, pinCount: nat, m: nat): (pin: nat)
    requires m < pinCount
    ensures pin < pinCount
  {
    if order == Descending then pinCount - 1 - m else m
  }

  /** Whether a comma follows `pin`, in each program's own terms. */
  predicate CommaAfter(order: PinOrder, pinCount: nat, pin: nat) {
    if order == Descending then pin != 0 else pin < pinCount - 1
  }

  /** The text printed for the first `m` pins of the sample whose bits
      start at index `base`. */
  function PinsText(buf: seq<nat>, pinCount: nat, base: nat, m: nat, order: PinOrder): string
    requires m <= pinCount
  {
    if m == 0 then ""
    else
      var pin := PinAt(order, pinCount, m - 1);
      PinsText(buf, pinCount, base, m - 1, order)
        + [Digit(BitAt(buf, base + pin))]
        + (if CommaAfter(order, pinCount, pin) then "," else "")
  }

  /** The line printed for sample `s`, whose bits start at s * pinCount. */
  function SampleLine(buf: seq<nat>, pinCount: nat, s: nat, order: PinOrder): string {
    PinsText(buf, pinCount, s * pinCount, pinCount, order) + "\n"
  }

  function SampleLines(buf: seq<nat>, pinCount: nat, n: nat, order: PinOrder): string {
    if n == 0 then ""
    else SampleLines(buf, pinCount, n - 1, order) + SampleLine(buf, pinCount, n - 1, order)
  }

  /** Everything one dump prints. */
  function CaptureText(buf: seq<nat>, pinCount: nat, nSamples: nat, order: PinOrder): string {
    Header + SampleLines(buf, pinCount, nSamples, order) + Trailer
  }

  /** Characters per sample line: a digit per pin, commas between the
      digits, a newline. */
  function LineWidth(pinCount: nat): nat {
    if pinCount == 0 then 1 else 2 * pinCount
  }

  lemma {:induction false} PinsTextLength(buf: seq<nat>, pinCount: nat, base: nat, m: nat, order: PinOrder)
    requires m <= pinCount
    ensures |PinsText(buf, pinCount, base, m, order)| == if m == pinCount && m > 0 then 2 * m - 1 else 2 * m
  {
    if m > 0 {
      PinsTextLength(buf, pinCount, base, m - 1, order);
      assert CommaAfter(order, pinCount, PinAt(order, pinCount, m - 1)) <==> m < pinCount;
    }
  }

  lemma {:induction false} PinsTextLayout(buf: seq<nat>, pinCount: nat, base: nat, m: nat, order: PinOrder)
    requires m <= pinCount
    ensures |PinsText(buf, pinCount, base, m, order)| == if m == pinCount && m > 0 then 2 * m - 1 else 2 * m
    ensures forall j :: 0 <= j < |PinsText(buf, pinCount, base, m, order)| ==>
      PinsText(buf, pinCount, base, m, order)[j] ==
        if j % 2 == 0 then Digit(BitAt(buf, base + PinAt(order, pinCount, j / 2))) else ','
  {
    PinsTextLength(buf, pinCount, base, m, order);
    if m > 0 {
      PinsTextLayout(buf, pinCount, base, m - 1, order);
      var pin := PinAt(order, pinCount, m - 1);
      var t := PinsText(buf, pinCount, base, m - 1, order);
      var d := [Digit(BitAt(buf, base + pin))];
      var sep := if CommaAfter(order, pinCount, pin) then "," else "";
      assert PinsText(buf, pinCount, base, m, order) == t + d + sep;
      assert |t| == 2 * (m - 1);
      forall j | 0 <= j < |t + d + sep|
        ensures (t + d + sep)[j] ==
          if j % 2 == 0 then Digit(BitAt(buf, base + PinAt(order, pinCount, j / 2))) else ','
      {
        if j < |t| {
          assert (t + d + sep)[j] == t[j];
        } else if j == |t| {
          assert j / 2 == m - 1 && j % 2 == 0;
        } else {
          assert j == |t| + 1 && j % 2 == 1;
        }
      }
    }
  }

  lemma SampleLineLength(buf: seq<nat>, pinCount: nat, s: nat, order: PinOrder)
    ensures |SampleLine(buf, pinCount, s, order)| == LineWidth(pinCount)
  {
    PinsTextLength(buf, pinCount, s * pinCount, pinCount, order);
  }

  /** A sample line has one digit per pin at the even positions, in the
      program's pin order, commas at the odd positions and a final
      newline. */
  lemma SampleLineLayout(buf: seq<nat>, pinCount: nat, s: nat, order: PinOrder)
    ensures |SampleLine(buf, pinCount, s, order)| == LineWidth(pinCount)
    ensures forall j :: 0 <= j < LineWidth(pinCount) ==>
      SampleLine(buf, pinCount, s, order)[j] ==
        if j == LineWidth(pinCount) - 1 then '\n'
        else if j % 2 == 0 then Digit(BitAt(buf, s * pinCount + PinAt(order, pinCount, j / 2)))
        else ','
  {
    PinsTextLayout(buf, pinCount, s * pinCount, pinCount, order);
  }

  /** Both programs print the same digits, the first variant in mirrored
      order. */
  lemma OrdersAreMirrored(buf: seq<nat>, pinCount: nat, s: nat, k: nat)
    requires k < pinCount
    ensures 2 * k < LineWidth(pinCount)
    ensures |SampleLine(buf, pinCount, s, Descending)| == |SampleLine(buf, pinCount, s, Ascending)| == LineWidth(pinCount)
    ensures SampleLine(buf, pinCount, s, Descending)[2 * k] ==
            SampleLine(buf, pinCount, s, Ascending)[2 * (pinCount - 1 - k)]
  {
    SampleLineLayout(buf, pinCount, s, Descending);
    SampleLineLayout(buf, pinCount, s, Ascending);
    assert (2 * k) / 2 == k;
    assert (2 * (pinCount - 1 - k)) / 2 == pinCount - 1 - k;
  }

  lemma {:induction false} SampleLinesLength(buf: seq<nat>, pinCount: nat, n: nat, order: PinOrder)
    ensures |SampleLines(buf, pinCount, n, order)| == n * LineWidth(pinCount)
  {
    if n > 0 {
      SampleLinesLength(buf, pinCount, n - 1, order);
      SampleLineLength(buf, pinCount, n - 1, order);
      MulSucc(n - 1, LineWidth(pinCount));
    }
  }

  /** Character `j` of sample line `s` sits at offset s * width + j of
      the lines printed for `n` samples. */
  lemma {:induction false} SampleLinesLayout(buf: seq<nat>, pinCount: nat, n: nat, order: PinOrder, s: nat, j: nat)
    requires s < n && j < LineWidth(pinCount)
    ensures s * LineWidth(pinCount) + j < |SampleLines(buf, pinCount, n, order)|
    ensures j < |SampleLine(buf, pinCount, s, order)|
    ensures SampleLines(buf, pinCount, n, order)[s * LineWidth(pinCount) + j] == SampleLine(buf, pinCount, s, order)[j]
  {
    var w := LineWidth(pinCount);
    assert 0 <= s * w by {
      VgaSprites.MulMono(0, s, w);
    }
    var k: nat := s * w + j;
    var front := SampleLines(buf, pinCount, n - 1, order);
    var last := SampleLine(buf, pinCount, n - 1, order);
    assert |front| == (n - 1) * w && |last| == w by {
      SampleLinesLength(buf, pinCount, n - 1, order);
      SampleLineLength(buf, pinCount, n - 1, order);
    }
    SampleLineLength(buf, pinCount, s, order);
    assert k < |front| + |last| by {
      RowOffset(s, n - 1, w, j);
    }
    assert SampleLines(buf, pinCount, n, order) == front + last;
    if s == n - 1 {
      assert k - |front| == j by {
        RowOffset(s, n - 1, w, j);
      }
      ConcatAt(front, last, k);
    } else {
      assert k < |front| by {
        RowOffset(s, n - 1, w, j);
      }
      SampleLinesLayout(buf, pinCount, n - 1, order, s, j);
      ConcatAt(front, last, k);
    }
  }

  lemma ConcatAt(a: string, b: string, k: nat)
    requires k < |a| + |b|
    ensures (a + b)[k] == if k < |a| then a[k] else b[k - |a|]
  {
  }

  lemma MulSucc(n: nat, w: nat)
    ensures n * w + w == (n + 1) * w
  {
  }

  /** Offset j of row s of width w lies inside the first n + 1 rows, and
      inside the first n of them when s < n. */
  lemma RowOffset(s: nat, n: nat, w: nat, j: nat)
    requires s <= n && j < w
    ensures s * w + j < n * w + w
    ensures s < n ==> s * w + j < n * w
    ensures s == n ==> s * w + j - n * w == j
  {
    VgaSprites.MulMono(s + 1, n + 1, w);
    if s < n {
      VgaSprites.MulMono(s + 1, n, w);
    }
  }

  /** The dump is the header, `nSamples` lines of equal width and the
      trailer. */
  lemma CaptureTextLayout(buf: seq<nat>, pinCount: nat, nSamples: nat, order: PinOrder)
    ensures |CaptureText(buf, pinCount, nSamples, order)| == |Header| + nSamples * LineWidth(pinCount) + |Trailer|
    ensures CaptureText(buf, pinCount, nSamples, order)[..|Header|] == Header
    ensures CaptureText(buf, pinCount, nSamples, order)[|Header| + nSamples * LineWidth(pinCount)..] == Trailer
  {
    var lines := SampleLines(buf, pinCount, nSamples, order);
    SampleLinesLength(buf, pinCount, nSamples, order);
    assert |lines| == nSamples * LineWidth(pinCount);
    assert (Header + lines + Trailer)[..|Header|] == Header;
    assert (Header + lines + Trailer)[|Header| + |lines|..] == Trailer;
  }

  /** Each captured bit is printed exactly once: sample `s`, pin `pin` reads
      bit pin + s * pinCount, distinct pairs read distinct bits, and every
      bit of the capture belongs to a pair. */
  lemma BitIndexIsBijective(pinCount: nat, nSamples: nat, s: nat, pin: nat, s': nat, pin': nat, i: nat)
    requires pin < pinCount && pin' < pinCount
    requires i < pinCount * nSamples
    ensures pin + s * pinCount == pin' + s' * pinCount <==> s == s' && pin == pin'
    ensures i % pinCount + (i / pinCount) * pinCount == i && i / pinCount < nSamples
  {
    VgaSprites.MixedRadixUnique(s, pin, s', pin', pinCount);
    if i / pinCount >= nSamples {
      VgaSprites.MulMono(nSamples, i / pinCount, pinCount);
    }
  }

  /** Every bit the dumps read lies inside the buffer. */
  lemma SampleInBuffer(buf: seq<nat>, pinCount: nat, nSamples: nat, sample: nat)
    requires nSamples * pinCount <= 32 * |buf|
    requires sample < nSamples
    ensures 0 <= sample * pinCount && sample * pinCount + pinCount <= 32 * |buf|
  {
    VgaSprites.MulMono(0, sample, pinCount);
    VgaSprites.MulMono(sample + 1, nSamples, pinCount);
  }

  /** One more pin of a sample line: the digit read from `bitIndex` and,
      where the program prints one, the comma. */
  lemma PinsTextStep(buf: seq<nat>, pinCount: nat, base: nat, m: nat, order: PinOrder,
                     bitIndex: nat, level: bool, comma: bool)
    requires m < pinCount
    requires bitIndex == base + PinAt(order, pinCount, m)
    requires level == BitAt(buf, bitIndex)
    requires comma == CommaAfter(order, pinCount, PinAt(order, pinCount, m))
    ensures PinsText(buf, pinCount, base, m + 1, order) == PinsText(buf, pinCount, base, m, order) + Piece(level, comma)
  {
    var prev := PinsText(buf, pinCount, base, m, order);
    assert prev + [Digit(level)] + (if comma then "," else "") == prev + Piece(level, comma);
  }

  /** What one pass of a pin loop prints: the digit, then the comma if any. */
  function Piece(level: bool, comma: bool): string {
    [Digit(level)] + (if comma then "," else "")
  }

  /** `print_capture_buf` of the first VGA variant: pins from the highest
      down, a comma after every pin but pin 0. */
  method PrintCaptureBufDescending(buf: seq<nat>, pinCount: nat, nSamples: nat) returns (out: string)
    requires nSamples * pinCount <= 32 * |buf|
    ensures out == CaptureText(buf, pinCount, nSamples, Descending)
  {
    out := Header;
    var sample: nat := 0;
    while sample < nSamples
      invariant sample <= nSamples
      invariant out == Header + SampleLines(buf, pinCount, sample, Descending)
    {
      SampleInBuffer(buf, pinCount, nSamples, sample);
      var line := PrintSampleDescending(buf, pinCount, sample * pinCount);
      out := out + line;
      sample := sample + 1;
    }
    out := out + Trailer;
  }

  /** One pass of the first variant's sample loop, whose bits start at
      `base` = sample * pinCount: the pins from the highest down, then the
      newline. */
  method PrintSampleDescending(buf: seq<nat>, pinCount: nat, base: nat) returns (line: string)
    requires base + pinCount <= 32 * |buf|
    ensures line == PinsText(buf, pinCount, base, pinCount, Descending) + "\n"
  {
    line := "";
    var pin: int := pinCount - 1;
    while pin >= 0
      invariant -1 <= pin <= pinCount - 1
      invariant line == PinsText(buf, pinCount, base, pinCount - 1 - pin, Descending)
    {
      var bitIndex := pin + base;
      var level := ReadBit(buf, bitIndex);
      var piece := [Digit(level)];
      if pin != 0 {
        piece := piece + ",";
      }
      PinsTextStep(buf, pinCount, base, pinCount - 1 - pin, Descending, bitIndex, level, pin != 0);
      line := line + piece;
      pin := pin - 1;
    }
    line := line + "\n";
  }

  /** `print_capture_buf` of the PIO test program: pins from 0 up, a comma
      after every pin but the last. */
  method PrintCaptureBufAscending(buf: seq<nat>, pinCount: nat, nSamples: nat) returns (out: string)
    requires nSamples * pinCount <= 32 * |buf|
    ensures out == CaptureText(buf, pinCount, nSamples, Ascending)
  {
    out := Header;
    var sample: nat := 0;
    while sample < nSamples
      invariant sample <= nSamples
      invariant out == Header + SampleLines(buf, pinCount, sample, Ascending)
    {
      SampleInBuffer(buf, pinCount, nSamples, sample);
      var line := PrintSampleAscending(buf, pinCount, sample * pinCount);
      out := out + line;
      sample := sample + 1;
    }
    out := out + Trailer;
  }

  /** One pass of the test program's sample loop, whose bits start at
      `base` = sample * pinCount: the pins from 0 up, then the newline. */
  method PrintSampleAscending(buf: seq<nat>, pinCount: nat, base: nat) returns (line: string)
    requires base + pinCount <= 32 * |buf|
    ensures line == PinsText(buf, pinCount, base, pinCount, Ascending) + "\n"
  {
    line := "";
    var pin: nat := 0;
    while pin < pinCount
      invariant pin <= pinCount
      invariant line == PinsText(buf, pinCount, base, pin, Ascending)
    {
      var bitIndex := pin + base;
      var level := ReadBit(buf, bitIndex);
      var piece := [Digit(level)];
      if pin < pinCount - 1 {
        piece := piece + ",";
      }
      PinsTextStep(buf, pinCount, base, pin, Ascending, bitIndex, level, pin < pinCount - 1);
      line := line + piece;
      pin := pin + 1;
    }
    line := line + "\n";
  }
}
