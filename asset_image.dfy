/** What the two asset converters share: 8-bit RGB images, the RGB555
    packing, cropping a sheet into equal cells, and the C-header text they
    write (`  0x%04x,\n` per pixel, cells one after another, each cell
    row-major). Images are grids of RGB triples; the text written to a
    header file is returned as a string. */
module AssetImage {
  import VgaGradient
  import VgaSprites

  type Byte = x: int | 0 <= x < 256

  /** Exceptions the scripts raise on bad input instead of returning. */
  datatype PyError = IndexError | NameError | ZeroDivisionError

  datatype Rgb = Rgb(r: Byte, g: Byte, b: Byte)

  /** An image of `width` x `height` pixels stored as rows. */
  datatype Image = Image(width: nat, height: nat, rows: seq<seq<Rgb>>)

  /** `crop` pads outside the image with black: the pixel at (x, y), or
      black when (x, y) is off the image. */
  function PixelAt(img: Image, x: nat, y: nat): (c: Rgb)
    ensures (x >= img.width || y >= img.height) ==> c == Rgb(0, 0, 0)
  {
    if x < img.width && y < img.height && y < |img.rows| && x < |img.rows[y]|
    then img.rows[y][x] else Rgb(0, 0, 0)
  }

  /** `rgb_to_rgb555`: the top five bits of red, green and blue in bits
      0-4, 5-9 and 10-14. The three fields do not overlap, so their bitwise
      or is their sum. */
  function Rgb555(c: Rgb): (v: nat)
    ensures v < 0x8000
  {
    c.r / 8 + (c.g / 8) * 32 + (c.b / 8) * 1024
  }

  /** The packed value fits in 15 bits, is exactly the colour word the
      display code builds from 5-bit channels, and reads back the top five
      bits of each channel. */
  lemma Rgb555Fields(c: Rgb)
    ensures Rgb555(c) == VgaGradient.EncodeRgb(c.r / 8, c.g / 8, c.b / 8)
    ensures Rgb555(c) < 0x8000
    ensures Rgb555(c) % 32 == c.r / 8
    ensures Rgb555(c) / 32 % 32 == c.g / 8
    ensures Rgb555(c) / 1024 == c.b / 8
  {
    var r, g, b := c.r / 8, c.g / 8, c.b / 8;
    assert r % 32 == r && g % 32 == g && b % 32 == b;
    VgaGradient.EncodeRgbFields(r, g, b);
  }

  /** Two colours pack to the same word exactly when they agree in the top
      five bits of every channel. */
  lemma Rgb555SameWord(c: Rgb, d: Rgb)
    ensures Rgb555(c) == Rgb555(d) <==> c.r / 8 == d.r / 8 && c.g / 8 == d.g / 8 && c.b / 8 == d.b / 8
  {
    Rgb555Fields(c);
    Rgb555Fields(d);
  }

  // ---------------------------------------------------------------------
  // Concatenation of rows

  function Concat<T>(rows: seq<seq<T>>): seq<T> {
    if |rows| == 0 then [] else Concat(rows[..|rows| - 1]) + rows[|rows| - 1]
  }

  lemma {:induction false} ConcatAppend<T>(a: seq<seq<T>>, b: seq<seq<T>>)
    ensures Concat(a + b) == Concat(a) + Concat(b)
    decreases |b|
  {
    if |b| > 0 {
      var last := |b| - 1;
      assert (a + b)[..|a + b| - 1] == a + b[..last];
      ConcatAppend(a, b[..last]);
    } else {
      assert a + b == a;
    }
  }

  lemma {:induction false} ConcatLength<T>(rows: seq<seq<T>>, w: nat)
    requires forall i :: 0 <= i < |rows| ==> |rows[i]| == w
    ensures |Concat(rows)| == |rows| * w
  {
    if |rows| > 0 {
      var n := |rows| - 1;
      ConcatLength(rows[..n], w);
      assert |Concat(rows)| == n * w + w;
    }
  }

  /** Rows of equal width w lie back to back: row y occupies y*w .. y*w+w. */
  lemma {:induction false} ConcatRowAt<T>(rows: seq<seq<T>>, w: nat, y: nat)
    requires forall i :: 0 <= i < |rows| ==> |rows[i]| == w
    requires y < |rows|
    ensures y * w + w <= |Concat(rows)|
    ensures Concat(rows)[y * w .. y * w + w] == rows[y]
  {
    var n := |rows| - 1;
    var init := rows[..n];
    ConcatLength(init, w);
    VgaSprites.MulMono(0, y, w);
    var off := y * w;
    assert Concat(rows) == Concat(init) + rows[n];
    if y < n {
      ConcatRowAt(init, w, y);
      assert off + w <= |Concat(init)|;
      assert Concat(rows)[off .. off + w] == Concat(init)[off .. off + w];
    } else {
      assert off == |Concat(init)|;
    }
  }

  /** Element x of row y sits at y*w + x. */
  lemma ConcatAt<T>(rows: seq<seq<T>>, w: nat, y: nat, x: nat)
    requires forall i :: 0 <= i < |rows| ==> |rows[i]| == w
    requires y < |rows| && x < w
    ensures y * w + x < |Concat(rows)|
    ensures Concat(rows)[y * w + x] == rows[y][x]
  {
    ConcatRowAt(rows, w, y);
    assert Concat(rows)[y * w .. y * w + w][x] == Concat(rows)[y * w + x];
  }

  // ---------------------------------------------------------------------
  // Header text

  function HexDigit(d: nat): char
    requires d < 16
  {
    if d < 10 then ('0' as int + d) as char else ('a' as int + d - 10) as char
  }

  function HexValue(c: char): int {
    if '0' <= c <= '9' then c as int - '0' as int
    else if 'a' <= c <= 'f' then c as int - 'a' as int + 10
    else -1
  }

  /** Python's `{:04x}` of a value below 2^16: four lower-case hex digits. */
  function Hex4(v: nat): (s: string)
    requires v < 0x1_0000
    ensures |s| == 4
  {
    [HexDigit(v / 4096), HexDigit(v / 256 % 16), HexDigit(v / 16 % 16), HexDigit(v % 16)]
  }

  /** Reading four hex digits back. */
  function ParseHex4(s: string): int
    requires |s| == 4
  {
    ((HexValue(s[0]) * 16 + HexValue(s[1])) * 16 + HexValue(s[2])) * 16 + HexValue(s[3])
  }

  lemma Hex4RoundTrip(v: nat)
    requires v < 0x1_0000
    ensures ParseHex4(Hex4(v)) == v
  {
    var q1, d := v / 16, v % 16;
    var q2, c := q1 / 16, q1 % 16;
    var a, b := q2 / 16, q2 % 16;
    assert v == q1 * 16 + d && q1 == q2 * 16 + c && q2 == a * 16 + b;
    assert v / 256 == q2 && v / 4096 == a;
    assert HexValue(HexDigit(a)) == a && HexValue(HexDigit(b)) == b;
    assert HexValue(HexDigit(c)) == c && HexValue(HexDigit(d)) == d;
  }

  /** One pixel line of a header: `  0x%04x,\n`. */
  function HexLine(v: nat): (s: string)
    requires v < 0x1_0000
    ensures |s| == 10
  {
    "  0x" + Hex4(v) + ",\n"
  }

  /** The pixel lines of a run of RGB555 values. */
  ghost predicate Words(vs: seq<nat>) {
    forall k :: 0 <= k < |vs| ==> vs[k] < 0x1_0000
  }

  function Lines(vs: seq<nat>): (s: string)
    requires Words(vs)
  {
    Concat(seq(|vs|, k requires 0 <= k < |vs| => HexLine(vs[k])))
  }

  lemma {:induction false} ConcatWords(rows: seq<seq<nat>>)
    requires forall i :: 0 <= i < |rows| ==> Words(rows[i])
    ensures Words(Concat(rows))
  {
    if |rows| > 0 {
      ConcatWords(rows[..|rows| - 1]);
    }
  }

  lemma LinesSnoc(vs: seq<nat>, v: nat)
    requires Words(vs) && v < 0x1_0000
    ensures Words(vs + [v])
    ensures Lines(vs + [v]) == Lines(vs) + HexLine(v)
  {
    var n := |vs|;
    var ls := seq(n + 1, k requires 0 <= k < n + 1 => HexLine((vs + [v])[k]));
    assert ls[..n] == seq(n, k requires 0 <= k < n => HexLine(vs[k]));
  }

  lemma LinesAppend(a: seq<nat>, b: seq<nat>)
    requires Words(a) && Words(b)
    ensures Words(a + b)
    ensures Lines(a + b) == Lines(a) + Lines(b)
  {
    var la := seq(|a|, k requires 0 <= k < |a| => HexLine(a[k]));
    var lb := seq(|b|, k requires 0 <= k < |b| => HexLine(b[k]));
    assert seq(|a + b|, k requires 0 <= k < |a + b| => HexLine((a + b)[k])) == la + lb;
    ConcatAppend(la, lb);
  }

  /** The header lists the values in order, ten characters each: line k
      is the k-th value, and it reads back as that value. */
  lemma LinesLayout(vs: seq<nat>, k: nat)
    requires Words(vs) && k < |vs|
    ensures |Lines(vs)| == 10 * |vs|
    ensures Lines(vs)[10 * k .. 10 * k + 10] == HexLine(vs[k])
    ensures ParseHex4(Lines(vs)[10 * k + 4 .. 10 * k + 8]) == vs[k]
  {
    var ls := seq(|vs|, j requires 0 <= j < |vs| => HexLine(vs[j]));
    ConcatLength(ls, 10);
    ConcatRowAt(ls, 10, k);
    assert Lines(vs)[10 * k + 4 .. 10 * k + 8] == HexLine(vs[k])[4..8] == Hex4(vs[k]);
    Hex4RoundTrip(vs[k]);
  }

  /** The opening line of a C declaration of an unsized array of `elem`
      named `name`. */
  function ArrayDecl(elem: string, name: string): string {
    elem + " " + name + "[] = {\n"
  }

  /** Python's `str` of a natural number. */
  function Decimal(n: nat): (s: string)
    ensures |s| > 0
  {
    if n < 10 then [('0' as int + n) as char]
    else Decimal(n / 10) + [('0' as int + n % 10) as char]
  }

  predicate IsDigit(c: char) { '0' <= c <= '9' }

  /** The value of a run of decimal digits, as `int()` reads it. */
  function DigitsValue(s: string): nat {
    if |s| == 0 then 0
    else DigitsValue(s[..|s| - 1]) * 10 + (if IsDigit(s[|s| - 1]) then s[|s| - 1] as int - '0' as int else 0)
  }

  /** `Decimal` writes digits only, and reading them back gives n. */
  lemma {:induction false} DecimalRoundTrip(n: nat)
    ensures forall i :: 0 <= i < |Decimal(n)| ==> IsDigit(Decimal(n)[i])
    ensures DigitsValue(Decimal(n)) == n
  {
    if n >= 10 {
      DecimalRoundTrip(n / 10);
      var s := Decimal(n);
      assert s[..|s| - 1] == Decimal(n / 10);
    }
  }

  // ---------------------------------------------------------------------
  // Sheets of equal cells

  /** `get_tile_image` / `get_sprite_image`: the top-left corner of cell
      `s` of a sheet `cols` cells wide with cells of cw x ch pixels. */
  function CellOrigin(s: nat, cols: nat, cw: nat, ch: nat): (o: (nat, nat))
    requires cols > 0
  {
    ((s % cols) * cw, (s / cols) * ch)
  }

  /** Distinct cells of a `cols` x `nrows` sheet have distinct origins, and
      each cell lies inside the sheet's pixels. */
  lemma CellOriginLayout(s: nat, s': nat, cols: nat, nrows: nat, cw: nat, ch: nat)
    requires cols > 0 && cw > 0 && ch > 0
    requires s < cols * nrows && s' < cols * nrows
    ensures CellOrigin(s, cols, cw, ch).0 + cw <= cols * cw
    ensures CellOrigin(s, cols, cw, ch).1 + ch <= nrows * ch
    ensures CellOrigin(s, cols, cw, ch) == CellOrigin(s', cols, cw, ch) <==> s == s'
  {
    CellOriginInside(s, cols, nrows, cw, ch);
    if CellOrigin(s, cols, cw, ch) == CellOrigin(s', cols, cw, ch) {
      CellOriginUnique(s, s', cols, cw, ch);
    }
  }

  lemma CellOriginInside(s: nat, cols: nat, nrows: nat, cw: nat, ch: nat)
    requires cols > 0 && s < cols * nrows
    ensures CellOrigin(s, cols, cw, ch).0 + cw <= cols * cw
    ensures CellOrigin(s, cols, cw, ch).1 + ch <= nrows * ch
  {
    var q, r := s / cols, s % cols;
    assert s == q * cols + r;
    assert q < nrows by {
      if q >= nrows {
        VgaSprites.MulMono(nrows, q, cols);
      }
    }
    VgaSprites.MulMono(r + 1, cols, cw);
    VgaSprites.MulMono(q + 1, nrows, ch);
  }

  lemma CellOriginUnique(s: nat, s': nat, cols: nat, cw: nat, ch: nat)
    requires cols > 0 && cw > 0 && ch > 0
    requires CellOrigin(s, cols, cw, ch) == CellOrigin(s', cols, cw, ch)
    ensures s == s'
  {
    var q, r := s / cols, s % cols;
    var q', r' := s' / cols, s' % cols;
    MulCancel(r, r', cw);
    MulCancel(q, q', ch);
    assert s == q * cols + r && s' == q' * cols + r';
  }

  lemma MulCancel(a: nat, b: nat, n: nat)
    requires n > 0
    ensures a * n == b * n ==> a == b
  {
    if a < b {
      VgaSprites.MulMono(a + 1, b, n);
    } else if b < a {
      VgaSprites.MulMono(b + 1, a, n);
    }
  }

  /** Row `y` of the cw-pixel-wide crop at (ox, oy), as RGB555 values. */
  function RowValues(img: Image, ox: nat, oy: nat, y: nat, cw: nat): (vs: seq<nat>)
    ensures |vs| == cw && Words(vs)
  {
    var vs := seq(cw, x requires 0 <= x < cw => Rgb555(PixelAt(img, ox + x, oy + y)));
    assert forall k :: 0 <= k < cw ==> 0 <= vs[k] < 0x8000 by {
      forall k | 0 <= k < cw ensures 0 <= vs[k] < 0x8000 {
        var v := Rgb555(PixelAt(img, ox + k, oy + y));
        assert vs[k] == v;
      }
    }
    vs
  }

  function CropRows(img: Image, ox: nat, oy: nat, cw: nat, ch: nat): seq<seq<nat>> {
    seq(ch, y requires 0 <= y < ch => RowValues(img, ox, oy, y, cw))
  }

  /** The values the pixel loops of a header writer emit for a cw x ch
      crop at (ox, oy): rows top to bottom, each left to right. */
  function CropValues(img: Image, ox: nat, oy: nat, cw: nat, ch: nat): (vs: seq<nat>)
    ensures Words(vs)
  {
    ConcatWords(CropRows(img, ox, oy, cw, ch));
    Concat(CropRows(img, ox, oy, cw, ch))
  }

  lemma CropRowsSnoc(img: Image, ox: nat, oy: nat, cw: nat, ch: nat)
    ensures CropRows(img, ox, oy, cw, ch + 1)[..ch] == CropRows(img, ox, oy, cw, ch)
    ensures Concat(CropRows(img, ox, oy, cw, ch + 1))
         == Concat(CropRows(img, ox, oy, cw, ch)) + RowValues(img, ox, oy, ch, cw)
  {
    assert CropRows(img, ox, oy, cw, ch + 1)[..ch] == CropRows(img, ox, oy, cw, ch);
  }

  /** The crop holds cw*ch values, and value row*cw + col is the pixel at
      (ox + col, oy + row) of the sheet. */
  lemma CropValuesAt(img: Image, ox: nat, oy: nat, cw: nat, ch: nat, row: nat, col: nat)
    requires row < ch && col < cw
    ensures |CropValues(img, ox, oy, cw, ch)| == cw * ch
    ensures row * cw + col < cw * ch
    ensures CropValues(img, ox, oy, cw, ch)[row * cw + col] == Rgb555(PixelAt(img, ox + col, oy + row))
  {
    var rows := CropRows(img, ox, oy, cw, ch);
    ConcatLength(rows, cw);
    ConcatAt(rows, cw, row, col);
    assert ch * cw == cw * ch;
  }

  /** `write_tile_image_to_c_header` / `write_sprite_image_to_c_header`:
      one header line per pixel of the crop, rows top to bottom. */
  method WriteImageToCHeader(img: Image, ox: nat, oy: nat, cw: nat, ch: nat) returns (text: string)
    ensures text == Lines(CropValues(img, ox, oy, cw, ch))
  {
    text := "";
    var y: nat := 0;
    while y < ch
      invariant y <= ch
      invariant text == Lines(CropValues(img, ox, oy, cw, y))
    {
      var row := WriteRow(img, ox, oy, y, cw);
      CropRowsSnoc(img, ox, oy, cw, y);
      LinesAppend(CropValues(img, ox, oy, cw, y), RowValues(img, ox, oy, y, cw));
      text := text + row;
      y := y + 1;
    }
  }

  /** The inner pixel loop of the header writers: one line per pixel of
      crop row y, left to right. */
  method WriteRow(img: Image, ox: nat, oy: nat, y: nat, cw: nat) returns (text: string)
    ensures text == Lines(RowValues(img, ox, oy, y, cw))
  {
    text := "";
    var x: nat := 0;
    assert RowValues(img, ox, oy, y, cw)[..0] == [];
    while x < cw
      invariant x <= cw
      invariant text == Lines(RowValues(img, ox, oy, y, cw)[..x])
    {
      var v := Rgb555(PixelAt(img, ox + x, oy + y));
      LinesSnoc(RowValues(img, ox, oy, y, cw)[..x], v);
      assert RowValues(img, ox, oy, y, cw)[..x + 1] == RowValues(img, ox, oy, y, cw)[..x] + [v];
      text := text + HexLine(v);
      x := x + 1;
    }
    assert RowValues(img, ox, oy, y, cw)[..cw] == RowValues(img, ox, oy, y, cw);
  }

  /** The values of the first `count` cells of a sheet, cell after cell. */
  function SheetRows(img: Image, cols: nat, count: nat, cw: nat, ch: nat): seq<seq<nat>>
    requires cols > 0
  {
    seq(count, s requires 0 <= s < count =>
      CropValues(img, CellOrigin(s, cols, cw, ch).0, CellOrigin(s, cols, cw, ch).1, cw, ch))
  }

  function SheetValues(img: Image, cols: nat, count: nat, cw: nat, ch: nat): (vs: seq<nat>)
    requires cols > 0
    ensures Words(vs)
  {
    ConcatWords(SheetRows(img, cols, count, cw, ch));
    Concat(SheetRows(img, cols, count, cw, ch))
  }

  lemma SheetRowsWidth(img: Image, cols: nat, count: nat, cw: nat, ch: nat)
    requires cols > 0
    ensures forall i :: 0 <= i < count ==> |SheetRows(img, cols, count, cw, ch)[i]| == cw * ch
  {
    forall i | 0 <= i < count ensures |SheetRows(img, cols, count, cw, ch)[i]| == cw * ch {
      var o := CellOrigin(i, cols, cw, ch);
      var rows := CropRows(img, o.0, o.1, cw, ch);
      ConcatLength(rows, cw);
      assert ch * cw == cw * ch;
    }
  }

  lemma SheetRowsSnoc(img: Image, cols: nat, count: nat, cw: nat, ch: nat)
    requires cols > 0
    ensures SheetValues(img, cols, count + 1, cw, ch)
         == SheetValues(img, cols, count, cw, ch)
          + CropValues(img, CellOrigin(count, cols, cw, ch).0, CellOrigin(count, cols, cw, ch).1, cw, ch)
  {
    assert SheetRows(img, cols, count + 1, cw, ch)[..count] == SheetRows(img, cols, count, cw, ch);
  }

  /** Where pixel (col, row) of cell s sits in the sheet data. */
  function CellIndex(s: nat, row: nat, col: nat, cw: nat, ch: nat): nat {
    VgaSprites.MulMono(0, s, cw * ch);
    VgaSprites.MulMono(0, row, cw);
    s * (cw * ch) + row * cw + col
  }

  /** The sheet data is `count` blocks of cw*ch values; value
      s*(cw*ch) + row*cw + col is the pixel at (col, row) of cell s. */
  lemma SheetValuesAt(img: Image, cols: nat, count: nat, cw: nat, ch: nat, s: nat, row: nat, col: nat)
    requires cols > 0 && s < count && row < ch && col < cw
    ensures |SheetValues(img, cols, count, cw, ch)| == count * (cw * ch)
    ensures CellIndex(s, row, col, cw, ch) < count * (cw * ch)
    ensures SheetValues(img, cols, count, cw, ch)[CellIndex(s, row, col, cw, ch)]
         == Rgb555(PixelAt(img, CellOrigin(s, cols, cw, ch).0 + col, CellOrigin(s, cols, cw, ch).1 + row))
  {
    var rows := SheetRows(img, cols, count, cw, ch);
    var n := cw * ch;
    SheetRowsWidth(img, cols, count, cw, ch);
    ConcatLength(rows, n);
    var o := CellOrigin(s, cols, cw, ch);
    CropValuesAt(img, o.0, o.1, cw, ch, row, col);
    ConcatAt(rows, n, s, row * cw + col);
  }

  /** The cell loop of `tileset_to_c_header` / `spritesheet_to_c_header`:
      each cell's crop written in turn. */
  method WriteSheetToCHeader(img: Image, cols: nat, count: nat, cw: nat, ch: nat) returns (text: string)
    requires cols > 0
    ensures text == Lines(SheetValues(img, cols, count, cw, ch))
  {
    text := "";
    var s: nat := 0;
    while s < count
      invariant s <= count
      invariant text == Lines(SheetValues(img, cols, s, cw, ch))
    {
      var o := CellOrigin(s, cols, cw, ch);
      var cell := WriteImageToCHeader(img, o.0, o.1, cw, ch);
      SheetRowsSnoc(img, cols, s, cw, ch);
      LinesAppend(SheetValues(img, cols, s, cw, ch), CropValues(img, o.0, o.1, cw, ch));
      text := text + cell;
      s := s + 1;
    }
  }
}
