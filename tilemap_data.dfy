/** The tilemap converter: it loads a tile grid from CSV rows and a tileset
    image cut into 16x16 tiles, renders a preview of the map, and writes the
    tileset and the grid out as C headers for the display code. */
module TilemapData {
  import opened AssetImage
  import VgaTilemap
  import VgaSprites

  const TileWidth: nat := 16
  const TileHeight: nat := 16

  // ---------------------------------------------------------------------
  // load_tilemap_csv

  /** Characters `str.strip()` removes (the ASCII ones). */
  predicate IsSpace(c: char) {
    c == ' ' || 9 <= c as int <= 13 || 28 <= c as int <= 31
  }

  function StripLeft(s: string): (t: string)
    ensures |t| == 0 || !IsSpace(t[0])
  {
    if |s| > 0 && IsSpace(s[0]) then StripLeft(s[1..]) else s
  }

  function StripRight(s: string): (t: string)
    ensures |t| == 0 || !IsSpace(t[|t| - 1])
    ensures |t| <= |s| && (|t| > 0 ==> t[0] == s[0])
  {
    if |s| > 0 && IsSpace(s[|s| - 1]) then StripRight(s[..|s| - 1]) else s
  }

  /** `str.strip()`: the cell without surrounding whitespace. */
  function Strip(s: string): (t: string)
    ensures |t| == 0 || (!IsSpace(t[0]) && !IsSpace(t[|t| - 1]))
  {
    StripRight(StripLeft(s))
  }

  /** `tile_num_str.strip().isdigit()`. */
  predicate IsTileNumber(cell: string) {
    var t := Strip(cell);
    |t| > 0 && forall i :: 0 <= i < |t| ==> IsDigit(t[i])
  }

  /** `int(tile_num_str)`: `int` also ignores surrounding whitespace. */
  function CellValue(cell: string): nat {
    DigitsValue(Strip(cell))
  }

  /** A tile number written with `str` is accepted and reads back. */
  lemma CellRoundTrip(n: nat)
    ensures IsTileNumber(Decimal(n)) && CellValue(Decimal(n)) == n
  {
    DecimalRoundTrip(n);
    var s := Decimal(n);
    assert !IsSpace(s[0]) && !IsSpace(s[|s| - 1]);
    assert StripLeft(s) == s;
    assert StripRight(s) == s;
  }

  predicate RowOk(row: seq<string>, width: nat) {
    |row| == width && forall j :: 0 <= j < |row| ==> IsTileNumber(row[j])
  }

  datatype Fault = NoFault | WrongWidth(row: nat) | Malformed(row: nat)

  /** The first row from `from` on that stops the loader. */
  function FirstFault(rows: seq<seq<string>>, width: nat, from: nat): Fault
    decreases |rows| - from
  {
    if from >= |rows| then NoFault
    else if |rows[from]| != width then WrongWidth(from)
    else if !RowOk(rows[from], width) then Malformed(from)
    else FirstFault(rows, width, from + 1)
  }

  datatype Tilemap = Tilemap(width: nat, height: nat, tiles: seq<nat>)

  /** What `load_tilemap_csv` does with the rows: returns the map, returns
      None (a row of the wrong width), or raises (no rows at all; a
      malformed cell, whose error branch calls the undefined `printf`). */
  datatype CsvResult = Loaded(tilemap: Tilemap) | ReturnedNone(row: nat) | Raised(error: PyError)

  function ParseRow(row: seq<string>): seq<nat> {
    seq(|row|, j requires 0 <= j < |row| => CellValue(row[j]))
  }

  function ParsedRows(rows: seq<seq<string>>): seq<seq<nat>> {
    seq(|rows|, i requires 0 <= i < |rows| => ParseRow(rows[i]))
  }

  function CsvOutcome(rows: seq<seq<string>>): CsvResult {
    if |rows| == 0 then Raised(IndexError)
    else match FirstFault(rows, |rows[0]|, 0)
      case NoFault => Loaded(Tilemap(|rows[0]|, |rows|, Concat(ParsedRows(rows))))
      case WrongWidth(r) => ReturnedNone(r)
      case Malformed(_) => Raised(NameError)
  }

  /** `load_tilemap_csv` over the rows the CSV reader produced. */
  method LoadTilemapCsv(rows: seq<seq<string>>) returns (res: CsvResult)
    ensures res == CsvOutcome(rows)
  {
    if |rows| == 0 {
      return Raised(IndexError);
    }
    var mapWidth := |rows[0]|;
    var mapHeight := |rows|;
    var tileNums: seq<nat> := [];
    var rowNum: nat := 0;
    while rowNum < |rows|
      invariant rowNum <= |rows|
      invariant FirstFault(rows, mapWidth, 0) == FirstFault(rows, mapWidth, rowNum)
      invariant tileNums == Concat(ParsedRows(rows[..rowNum]))
    {
      var row := rows[rowNum];
      if |row| != mapWidth {
        return ReturnedNone(rowNum);
      }
      var j: nat := 0;
      while j < |row|
        invariant j <= |row|
        invariant forall k :: 0 <= k < j ==> IsTileNumber(row[k])
        invariant tileNums == Concat(ParsedRows(rows[..rowNum])) + ParseRow(row)[..j]
      {
        if !IsTileNumber(row[j]) {
          return Raised(NameError);
        }
        assert ParseRow(row)[..j + 1] == ParseRow(row)[..j] + [CellValue(row[j])];
        tileNums := tileNums + [CellValue(row[j])];
        j := j + 1;
      }
      assert ParseRow(row)[..j] == ParseRow(row);
      assert ParsedRows(rows[..rowNum + 1])[..rowNum] == ParsedRows(rows[..rowNum]);
      rowNum := rowNum + 1;
    }
    assert rows[..rowNum] == rows;
    return Loaded(Tilemap(mapWidth, mapHeight, tileNums));
  }

  /** The loader stops at the first bad row: no fault means every row is
      well formed, and a fault at row k means every row before k is. */
  lemma {:induction false} FirstFaultMeans(rows: seq<seq<string>>, width: nat, from: nat)
    ensures FirstFault(rows, width, from) == NoFault
        <==> forall r :: from <= r < |rows| ==> RowOk(rows[r], width)
    ensures FirstFault(rows, width, from).WrongWidth? ==>
      var k := FirstFault(rows, width, from).row;
      from <= k < |rows| && |rows[k]| != width
      && forall r :: from <= r < k ==> RowOk(rows[r], width)
    ensures FirstFault(rows, width, from).Malformed? ==>
      var k := FirstFault(rows, width, from).row;
      from <= k < |rows| && |rows[k]| == width
      && (exists j :: 0 <= j < width && !IsTileNumber(rows[k][j]))
      && forall r :: from <= r < k ==> RowOk(rows[r], width)
    decreases |rows| - from
  {
    if from < |rows| && |rows[from]| == width && RowOk(rows[from], width) {
      FirstFaultMeans(rows, width, from + 1);
    }
  }

  /** The map loads exactly when there is a row and every row has the
      first row's width and only tile numbers. */
  lemma CsvLoadedIff(rows: seq<seq<string>>)
    ensures CsvOutcome(rows).Loaded?
        <==> |rows| > 0 && forall r :: 0 <= r < |rows| ==> RowOk(rows[r], |rows[0]|)
  {
    if |rows| > 0 {
      FirstFaultMeans(rows, |rows[0]|, 0);
    }
  }

  /** Where tile (x, y) of a map `w` tiles wide is stored: row-major, the
      order in which the drawing code reads `tilemap_line + x`. */
  function MapIndex(w: nat, x: nat, y: nat): nat {
    VgaSprites.MulMono(0, y, w);
    y * w + x
  }

  /** A loaded map has the first row's width, one row per CSV row, and
      width*height tiles in row-major order: tile (x, y) is cell x of row y. */
  lemma CsvLoadedLayout(rows: seq<seq<string>>, x: nat, y: nat)
    requires CsvOutcome(rows).Loaded?
    requires y < CsvOutcome(rows).tilemap.height && x < CsvOutcome(rows).tilemap.width
    ensures CsvOutcome(rows).tilemap.width == |rows[0]|
    ensures CsvOutcome(rows).tilemap.height == |rows|
    ensures |CsvOutcome(rows).tilemap.tiles| == |rows[0]| * |rows|
    ensures x < |rows[y]| && MapIndex(|rows[0]|, x, y) < |CsvOutcome(rows).tilemap.tiles|
    ensures CsvOutcome(rows).tilemap.tiles[MapIndex(|rows[0]|, x, y)] == CellValue(rows[y][x])
  {
    var w := |rows[0]|;
    var parsed := ParsedRows(rows);
    assert CsvOutcome(rows).tilemap == Tilemap(w, |rows|, Concat(parsed));
    assert forall i :: 0 <= i < |parsed| ==> |parsed[i]| == w by {
      CsvLoadedIff(rows);
    }
    assert |parsed[y]| == |rows[y]|;
    ConcatLength(parsed, w);
    ConcatAt(parsed, w, y, x);
    assert w * |rows| == |rows| * w;
  }

  /** None is returned for the first row whose width differs from the
      first row's, when every row before it is well formed. */
  lemma CsvNoneMeans(rows: seq<seq<string>>)
    requires CsvOutcome(rows).ReturnedNone?
    ensures var k := CsvOutcome(rows).row;
      0 < k < |rows| && |rows[k]| != |rows[0]|
      && forall r :: 0 <= r < k ==> RowOk(rows[r], |rows[0]|)
  {
    FirstFaultMeans(rows, |rows[0]|, 0);
  }

  /** The loader raises only on an empty CSV (IndexError) or on a malformed
      cell in a row of the right width after well-formed rows (NameError). */
  lemma CsvRaisesMeans(rows: seq<seq<string>>)
    requires CsvOutcome(rows).Raised?
    ensures CsvOutcome(rows).error == IndexError <==> |rows| == 0
    ensures CsvOutcome(rows).error == NameError ==>
      exists k :: 0 <= k < |rows| && |rows[k]| == |rows[0]|
        && (exists j :: 0 <= j < |rows[k]| && !IsTileNumber(rows[k][j]))
        && forall r :: 0 <= r < k ==> RowOk(rows[r], |rows[0]|)
  {
    if |rows| > 0 {
      FirstFaultMeans(rows, |rows[0]|, 0);
      var k := FirstFault(rows, |rows[0]|, 0).row;
      assert |rows[k]| == |rows[0]|;
    }
  }

  // ---------------------------------------------------------------------
  // load_tileset, get_tile_image, render_tilemap

  datatype Tileset = Tileset(width: nat, height: nat, image: Image)

  /** `load_tileset`: a width that is not a multiple of 16 returns None; a
      height that is not raises, because the error message names the
      undefined `TILE_HEIGT`. */
  datatype TilesetResult = TilesetLoaded(tileset: Tileset) | TilesetNone | TilesetRaised(error: PyError)

  function LoadTileset(img: Image): (r: TilesetResult)
    ensures r.TilesetLoaded? <==> img.width % TileWidth == 0 && img.height % TileHeight == 0
    ensures r.TilesetNone? <==> img.width % TileWidth != 0
    ensures r.TilesetLoaded? ==>
      && r.tileset.width * TileWidth == img.width
      && r.tileset.height * TileHeight == img.height
      && r.tileset.image == img
  {
    if img.width % TileWidth != 0 then TilesetNone
    else if img.height % TileHeight != 0 then TilesetRaised(NameError)
    else TilesetLoaded(Tileset(img.width / TileWidth, img.height / TileHeight, img))
  }

  /** Pixel (x, y) of `get_tile_image(tile, tileset)`. */
  function TilePixel(ts: Tileset, tile: nat, x: nat, y: nat): Rgb
    requires ts.width > 0
  {
    var o := CellOrigin(tile, ts.width, TileWidth, TileHeight);
    PixelAt(ts.image, o.0 + x, o.1 + y)
  }

  /** Tile t's origin is ((t % w)*16, (t / w)*16); for the tiles of the set
      it lies inside the image and no two tiles share it. */
  lemma TileOrigins(ts: Tileset, t: nat, t': nat)
    requires ts.width > 0 && t < ts.width * ts.height && t' < ts.width * ts.height
    ensures CellOrigin(t, ts.width, TileWidth, TileHeight)
         == ((t % ts.width) * TileWidth, (t / ts.width) * TileHeight)
    ensures CellOrigin(t, ts.width, TileWidth, TileHeight).0 + TileWidth <= ts.width * TileWidth
    ensures CellOrigin(t, ts.width, TileWidth, TileHeight).1 + TileHeight <= ts.height * TileHeight
    ensures CellOrigin(t, ts.width, TileWidth, TileHeight) == CellOrigin(t', ts.width, TileWidth, TileHeight) <==> t == t'
  {
    CellOriginLayout(t, t', ts.width, ts.height, TileWidth, TileHeight);
  }

  /** A map whose tile list matches its size, as the loader produces. */
  predicate MapShaped(tm: Tilemap) {
    |tm.tiles| == tm.width * tm.height
  }

  /** The preview pixel at (px, py): the pixel of the tile pasted over the
      16x16 cell that contains it. */
  function RenderPixel(tm: Tilemap, ts: Tileset, px: nat, py: nat): Rgb
    requires MapShaped(tm) && ts.width > 0
    requires px < tm.width * TileWidth && py < tm.height * TileHeight
  {
    var tx, ty := px / TileWidth, py / TileHeight;
    assert tx < tm.width && ty < tm.height;
    VgaSprites.MulMono(ty + 1, tm.height, tm.width);
    TilePixel(ts, tm.tiles[ty * tm.width + tx], px % TileWidth, py % TileHeight)
  }

  /** `render_tilemap`: the preview image after every tile is pasted. The
      pastes cover disjoint 16x16 cells that tile the canvas, so the
      magenta background never shows. */
  function RenderTilemap(tm: Tilemap, ts: Tileset): (img: Image)
    requires MapShaped(tm) && ts.width > 0
    ensures img.width == tm.width * TileWidth && img.height == tm.height * TileHeight
    ensures |img.rows| == img.height
  {
    var w, h := tm.width * TileWidth, tm.height * TileHeight;
    Image(w, h, seq(h, py requires 0 <= py < h =>
      seq(w, px requires 0 <= px < w => RenderPixel(tm, ts, px, py))))
  }

  /** The tile at grid (tx, ty) is pasted at (tx*16, ty*16): preview pixel
      (tx*16 + x, ty*16 + y) is pixel (x, y) of that tile. */
  lemma RenderLayout(tm: Tilemap, ts: Tileset, tx: nat, ty: nat, x: nat, y: nat)
    requires MapShaped(tm) && ts.width > 0
    requires tx < tm.width && ty < tm.height && x < TileWidth && y < TileHeight
    ensures ty * tm.width + tx < |tm.tiles|
    ensures tx * TileWidth + x < tm.width * TileWidth && ty * TileHeight + y < tm.height * TileHeight
    ensures PixelAt(RenderTilemap(tm, ts), tx * TileWidth + x, ty * TileHeight + y)
         == TilePixel(ts, tm.tiles[ty * tm.width + tx], x, y)
  {
    var px, py := tx * TileWidth + x, ty * TileHeight + y;
    VgaSprites.MulMono(ty + 1, tm.height, tm.width);
    VgaSprites.MulMono(tx + 1, tm.width, TileWidth);
    VgaSprites.MulMono(ty + 1, tm.height, TileHeight);
    VgaTilemap.DivMod16(tx, x);
    VgaTilemap.DivMod16(ty, y);
    assert px / TileWidth == tx && px % TileWidth == x;
    assert py / TileHeight == ty && py % TileHeight == y;
  }

  // ---------------------------------------------------------------------
  // tileset_to_c_header

  /** The pixel values the tileset header lists: every tile in index order,
      each 16x16 row-major. */
  function TilesetValues(ts: Tileset): (vs: seq<nat>)
    ensures Words(vs)
  {
    if ts.width == 0 then []
    else SheetValues(ts.image, ts.width, ts.width * ts.height, TileWidth, TileHeight)
  }

  /** The header's declarations up to the opening of the data array. */
  function TilesetPreamble(ts: Tileset): string {
    "int num_tiles = " + Decimal(ts.width * ts.height) + ";\n\n" + ArrayDecl("uint16_t", "tileset")
  }

  function TilesetHeader(ts: Tileset): string {
    TilesetPreamble(ts) + Lines(TilesetValues(ts)) + "};"
  }

  /** `tileset_to_c_header`. */
  method TilesetToCHeader(ts: Tileset) returns (text: string)
    ensures text == TilesetHeader(ts)
  {
    var numTiles := ts.width * ts.height;
    text := "int num_tiles = " + Decimal(numTiles) + ";\n\n";
    text := text + "uint16_t tileset[] = {\n";
    assert text == TilesetPreamble(ts);
    if ts.width > 0 {
      var body := WriteSheetToCHeader(ts.image, ts.width, numTiles, TileWidth, TileHeight);
      text := text + body;
    } else {
      text := text + Lines([]);
    }
    text := text + "};";
  }

  /** The header holds 256 values per tile, and the value the display code
      reads at `get_tile_line(t, y) + x` is pixel (x, y) of tile t in RGB555. */
  lemma TilesetHeaderLayout(ts: Tileset, t: nat, x: nat, y: nat)
    requires ts.width > 0 && t < ts.width * ts.height && x < TileWidth && y < TileHeight
    ensures |TilesetValues(ts)| == ts.width * ts.height * 256
    ensures VgaTilemap.TileLine(t, y) + x < |TilesetValues(ts)|
    ensures TilesetValues(ts)[VgaTilemap.TileLine(t, y) + x] == Rgb555(TilePixel(ts, t, x, y))
  {
    SheetValuesAt(ts.image, ts.width, ts.width * ts.height, TileWidth, TileHeight, t, y, x);
  }

  // ---------------------------------------------------------------------
  // tilemap_to_c_header

  function MapSizes(tm: Tilemap): string {
    "int tilemap_width = " + Decimal(tm.width) + ";\n"
      + "int tilemap_height = " + Decimal(tm.height) + ";\n"
  }

  /** One grid entry line, `  <tile>,\n`. */
  function Entry(t: nat): string {
    "  " + Decimal(t) + ",\n"
  }

  function Entries(tiles: seq<nat>): string {
    Concat(seq(|tiles|, i requires 0 <= i < |tiles| => Entry(tiles[i])))
  }

  /** The declaration line `tilemap_to_c_header` writes before the entries. */
  const TilesDeclAsWritten: string := "uint8_t tilemap_tiles = {\n"

  /** The header as the script writes it. */
  function TilemapHeaderAsWritten(tm: Tilemap): string {
    MapSizes(tm) + TilesDeclAsWritten + Entries(tm.tiles) + "};"
  }

  /** The written declaration is not an array declaration at all: no
      element type makes it `<type> tilemap_tiles[] = {`. The display code
      reads the grid through a `uint16_t *`. */
  lemma TilesDeclIsNotArray(tm: Tilemap, elem: string)
    ensures TilemapHeaderAsWritten(tm)[|MapSizes(tm)| .. |MapSizes(tm)| + |TilesDeclAsWritten|] == TilesDeclAsWritten
    ensures TilesDeclAsWritten != ArrayDecl(elem, "tilemap_tiles")
  {
    var d := ArrayDecl(elem, "tilemap_tiles");
    assert d[|d| - 6] == ']';
    assert TilesDeclAsWritten[|TilesDeclAsWritten| - 6] == 's';
    assert (MapSizes(tm) + TilesDeclAsWritten + Entries(tm.tiles) + "};")[|MapSizes(tm)| .. |MapSizes(tm)| + |TilesDeclAsWritten|]
        == TilesDeclAsWritten;
  }

  /** The header with the grid declared as the `uint16_t` array the
      display code reads. */
  function TilemapHeader(tm: Tilemap): string {
    MapSizes(tm) + ArrayDecl("uint16_t", "tilemap_tiles") + Entries(tm.tiles) + "};"
  }

  /** The corrected header declares `uint16_t tilemap_tiles[]` right after
      the sizes, and each entry line reads back as its tile number. */
  lemma TilemapHeaderDeclaresArray(tm: Tilemap, i: nat)
    requires i < |tm.tiles|
    ensures TilemapHeader(tm)[|MapSizes(tm)| .. |MapSizes(tm)| + |ArrayDecl("uint16_t", "tilemap_tiles")|]
         == ArrayDecl("uint16_t", "tilemap_tiles")
    ensures var e := Entry(tm.tiles[i]); |e| >= 4 && DigitsValue(e[2 .. |e| - 2]) == tm.tiles[i]
  {
    var decl := ArrayDecl("uint16_t", "tilemap_tiles");
    assert (MapSizes(tm) + decl + Entries(tm.tiles) + "};")[|MapSizes(tm)| .. |MapSizes(tm)| + |decl|] == decl;
    var e := Entry(tm.tiles[i]);
    assert e[2 .. |e| - 2] == Decimal(tm.tiles[i]);
    DecimalRoundTrip(tm.tiles[i]);
  }

  lemma EntriesSnoc(tiles: seq<nat>, i: nat)
    requires i < |tiles|
    ensures Entries(tiles[..i + 1]) == Entries(tiles[..i]) + Entry(tiles[i])
  {
    var es := seq(i + 1, k requires 0 <= k < i + 1 => Entry(tiles[k]));
    assert es[..i] == seq(i, k requires 0 <= k < i => Entry(tiles[..i][k]));
    assert seq(i + 1, k requires 0 <= k < i + 1 => Entry(tiles[..i + 1][k])) == es;
  }

  /** `tilemap_to_c_header`, with the corrected declaration. */
  method TilemapToCHeader(tm: Tilemap) returns (text: string)
    ensures text == TilemapHeader(tm)
  {
    text := "int tilemap_width = " + Decimal(tm.width) + ";\n";
    text := text + "int tilemap_height = " + Decimal(tm.height) + ";\n";
    text := text + "uint16_t tilemap_tiles[] = {\n";
    var i: nat := 0;
    ghost var head := text;
    assert head == MapSizes(tm) + ArrayDecl("uint16_t", "tilemap_tiles");
    while i < |tm.tiles|
      invariant i <= |tm.tiles|
      invariant text == head + Entries(tm.tiles[..i])
    {
      EntriesSnoc(tm.tiles, i);
      text := text + Entry(tm.tiles[i]);
      i := i + 1;
    }
    assert tm.tiles[..i] == tm.tiles;
    text := text + "};";
  }
}
