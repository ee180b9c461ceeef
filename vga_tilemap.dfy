/** The background layer of the fifth variant: a row-major grid of 16x16
    tiles, a tile-major tileset of RGB555 pixels, and the routine that copies
    one scanline of the scrolled map into a 320-pixel line buffer. Pointers
    into the grid and the tileset are modelled as offsets. */
module VgaTilemap {

  const ScreenWidth: nat := 320
  const ScreenHeight: nat := 240
  const TileWidth: nat := 16
  const TileHeight: nat := 16
  const TilesPerLine: nat := 20

  datatype TilemapInfo = TilemapInfo(
    width: int,
    height: int,
    tiles: seq<int>,
    tileset: seq<int>,
    yScroll: int,
    xScroll: int)

  /** Offset of the first tile of tile row `line` in the grid. */
  function TilemapLine(line: int, tilemap: TilemapInfo): int {
    line * tilemap.width
  }

  /** Offset of pixel row `tileY` of tile `tileNum` in the tileset. */
  function TileLine(tileNum: int, tileY: int): int {
    tileNum * (TileWidth * TileHeight) + tileY * TileWidth
  }

  /** Splitting a position into a 16-pixel block and the offset inside it. */
  lemma DivMod16(q: int, m: int)
    requires 0 <= m < 16
    ensures (16 * q + m) / 16 == q && (16 * q + m) % 16 == m
  {
  }

  /** Pixel (x, y) of tile t sits at `TileLine(t, y) + x`, and every tile
      owns its own 256 entries: the layout is one-to-one. */
  lemma TileLineLayout(t: nat, y: nat, x: nat, t': nat, y': nat, x': nat)
    requires y < TileHeight && x < TileWidth && y' < TileHeight && x' < TileWidth
    ensures t * 256 <= TileLine(t, y) + x < t * 256 + 256
    ensures TileLine(t, y) + x == TileLine(t', y') + x' <==> t == t' && y == y' && x == x'
  {
    var i := TileLine(t, y) + x;
    var i' := TileLine(t', y') + x';
    assert i == 256 * t + (16 * y + x);
    assert i' == 256 * t' + (16 * y' + x');
    if i == i' {
      assert i / 256 == t && i % 256 == 16 * y + x;
      assert i' / 256 == t' && i' % 256 == 16 * y' + x';
      DivMod16(y, x);
      DivMod16(y', x');
    }
  }

  /** The grid index of the tile that covers screen pixel `i` of scanline
      `lineY`, and the tileset index of the pixel itself. */
  function GridIndex(tilemap: TilemapInfo, lineY: int, i: int): int {
    TilemapLine((lineY + tilemap.yScroll) / TileHeight, tilemap) + (tilemap.xScroll + i) / TileWidth
  }

  function PixelIndex(tilemap: TilemapInfo, lineY: int, i: int): int
    requires 0 <= GridIndex(tilemap, lineY, i) < |tilemap.tiles|
  {
    TileLine(tilemap.tiles[GridIndex(tilemap, lineY, i)], (lineY + tilemap.yScroll) % TileHeight)
      + (tilemap.xScroll + i) % TileWidth
  }

  /** What the source demands of the map data: every grid entry and every
      tileset pixel that the scanline touches is inside its array. */
  ghost predicate ReadsInBounds(tilemap: TilemapInfo, lineY: int) {
    && lineY >= 0 && tilemap.yScroll >= 0 && tilemap.xScroll >= 0
    && forall i :: 0 <= i < ScreenWidth ==>
         && 0 <= GridIndex(tilemap, lineY, i) < |tilemap.tiles|
         && 0 <= tilemap.tiles[GridIndex(tilemap, lineY, i)]
         && TileLine(tilemap.tiles[GridIndex(tilemap, lineY, i)], (lineY + tilemap.yScroll) % TileHeight)
              + TileWidth <= |tilemap.tileset|
  }

  /** The pixel the scrolled map shows at screen position `i`. */
  function TilemapPixel(tilemap: TilemapInfo, lineY: int, i: int): int
    requires ReadsInBounds(tilemap, lineY) && 0 <= i < ScreenWidth
  {
    tilemap.tileset[PixelIndex(tilemap, lineY, i)]
  }

  /** The C library copy of `n` elements, on offsets. */
  method Memcpy(dst: array<int>, dstOff: nat, src: seq<int>, srcOff: nat, n: nat)
    requires dstOff + n <= dst.Length && srcOff + n <= |src|
    modifies dst
    ensures forall j :: dstOff <= j < dstOff + n ==> dst[j] == src[srcOff + (j - dstOff)]
    ensures forall j :: 0 <= j < dst.Length && !(dstOff <= j < dstOff + n) ==> dst[j] == old(dst[j])
  {
    var k := 0;
    while k < n
      invariant 0 <= k <= n
      invariant forall j :: dstOff <= j < dstOff + k ==> dst[j] == src[srcOff + (j - dstOff)]
      invariant forall j :: 0 <= j < dst.Length && !(dstOff <= j < dstOff + k) ==> dst[j] == old(dst[j])
    {
      dst[dstOff + k] := src[srcOff + k];
      k := k + 1;
    }
  }

  /** For a block that starts `16 * tile - b` pixels in, the pixels of the
      block are the map columns `a + tile` where the scroll is `16a + b`. */
  lemma BlockColumns(tilemap: TilemapInfo, lineY: int, tile: nat, m: nat)
    requires tilemap.xScroll >= 0 && m < TileWidth
    requires tile > 0 || m >= tilemap.xScroll % TileWidth
    ensures var i := TileWidth * tile - tilemap.xScroll % TileWidth + m;
      && (tilemap.xScroll + i) / TileWidth == tilemap.xScroll / TileWidth + tile
      && (tilemap.xScroll + i) % TileWidth == m
  {
    var a := tilemap.xScroll / TileWidth;
    var b := tilemap.xScroll % TileWidth;
    assert tilemap.xScroll + (TileWidth * tile - b + m) == 16 * (a + tile) + m;
    DivMod16(a + tile, m);
  }

  /** A block of the line buffer that holds consecutive pixels of one tile
      row, copied from offset `lo` of map column `a + tile` (the x scroll
      being `16a + b`), shows the scrolled map there. */
  lemma BlockShowsMap(tilemap: TilemapInfo, lineY: int, buf: seq<int>, tile: nat, lo: nat, hi: nat)
    requires ReadsInBounds(tilemap, lineY) && |buf| == ScreenWidth
    requires lo <= hi <= TileWidth && (tile > 0 || lo >= tilemap.xScroll % TileWidth)
    requires TileWidth * tile - tilemap.xScroll % TileWidth + hi <= ScreenWidth
    requires var g := TilemapLine((lineY + tilemap.yScroll) / TileHeight, tilemap) + tilemap.xScroll / TileWidth + tile;
      var start := TileWidth * tile - tilemap.xScroll % TileWidth;
      && 0 <= g < |tilemap.tiles|
      && forall j :: start + lo <= j < start + hi ==>
           0 <= TileLine(tilemap.tiles[g], (lineY + tilemap.yScroll) % TileHeight) + (j - start) < |tilemap.tileset| &&
           buf[j] == tilemap.tileset[TileLine(tilemap.tiles[g], (lineY + tilemap.yScroll) % TileHeight) + (j - start)]
    ensures var start := TileWidth * tile - tilemap.xScroll % TileWidth;
      forall j :: start + lo <= j < start + hi ==> buf[j] == TilemapPixel(tilemap, lineY, j)
  {
    var start := TileWidth * tile - tilemap.xScroll % TileWidth;
    forall j | start + lo <= j < start + hi
      ensures buf[j] == TilemapPixel(tilemap, lineY, j)
    {
      BlockColumns(tilemap, lineY, tile, j - start);
    }
  }

  /** Draws scanline `lineY` of the scrolled map: a first tile cut by the
      x scroll, 19 whole tiles, and the remainder of a 21st tile when the
      first was cut. Every one of the 320 pixels is written. */
  method DrawTilemapLine(lineY: int, tilemap: TilemapInfo, lineBuffer: array<int>)
    requires lineBuffer.Length == ScreenWidth
    requires ReadsInBounds(tilemap, lineY)
    modifies lineBuffer
    ensures forall i :: 0 <= i < ScreenWidth ==> lineBuffer[i] == TilemapPixel(tilemap, lineY, i)
  {
    var layerY := lineY + tilemap.yScroll;
    var layerX := tilemap.xScroll;

    var tilemapY := layerY / TileHeight;
    var tileY := layerY % TileHeight;

    var tilemapX := layerX / TileWidth;
    var firstTileX := layerX % TileHeight;

    var firstTileVisibleWidth := TileWidth - firstTileX;
    var lastTileVisibleWidth := firstTileX;

    var tilemapLine := TilemapLine(tilemapY, tilemap) + tilemapX;
    assert tilemapLine == GridIndex(tilemap, lineY, 0);
    var firstTileLine := TileLine(tilemap.tiles[tilemapLine], tileY) + firstTileX;
    Memcpy(lineBuffer, 0, tilemap.tileset, firstTileLine, firstTileVisibleWidth);
    BlockShowsMap(tilemap, lineY, lineBuffer[..], 0, firstTileX, TileWidth);

    tilemapLine := tilemapLine + 1;
    var out := firstTileVisibleWidth;

    var tile := 1;
    while tile < TilesPerLine
      invariant 1 <= tile <= TilesPerLine
      invariant out == TileWidth * tile - firstTileX
      invariant tilemapLine == TilemapLine(tilemapY, tilemap) + tilemapX + tile
      invariant forall i :: 0 <= i < out ==> lineBuffer[i] == TilemapPixel(tilemap, lineY, i)
    {
      BlockColumns(tilemap, lineY, tile, 0);
      assert tilemapLine == GridIndex(tilemap, lineY, out);
      var tileLine := TileLine(tilemap.tiles[tilemapLine], tileY);
      Memcpy(lineBuffer, out, tilemap.tileset, tileLine, TileWidth);
      BlockShowsMap(tilemap, lineY, lineBuffer[..], tile, 0, TileWidth);
      out := out + TileWidth;
      tilemapLine := tilemapLine + 1;
      tile := tile + 1;
    }

    if firstTileX != 0 {
      BlockColumns(tilemap, lineY, TilesPerLine, 0);
      assert tilemapLine == GridIndex(tilemap, lineY, out);
      var lastTileLine := TileLine(tilemap.tiles[tilemapLine], tileY);
      Memcpy(lineBuffer, out, tilemap.tileset, lastTileLine, lastTileVisibleWidth);
      BlockShowsMap(tilemap, lineY, lineBuffer[..], TilesPerLine, 0, lastTileVisibleWidth);
    }
  }

  /** The largest scroll the end-of-frame bounce lets a map reach. */
  function ScrollLimit(tiles: int, tileSize: int, screen: int): int {
    tiles * tileSize - screen - 1
  }

  /** With both scrolls inside their bounce range, every grid entry a
      scanline reads lies inside the map: its row is below `height` and its
      column below `width`, so the reads stay in a grid of width*height. */
  lemma ScrolledReadsInsideMap(tilemap: TilemapInfo, lineY: int, i: int)
    requires 0 <= lineY < ScreenHeight && 0 <= i < ScreenWidth
    requires 0 <= tilemap.yScroll <= ScrollLimit(tilemap.height, TileHeight, ScreenHeight)
    requires 0 <= tilemap.xScroll <= ScrollLimit(tilemap.width, TileWidth, ScreenWidth)
    ensures 0 <= (lineY + tilemap.yScroll) / TileHeight < tilemap.height
    ensures 0 <= (tilemap.xScroll + i) / TileWidth < tilemap.width
    ensures 0 <= GridIndex(tilemap, lineY, i) < tilemap.width * tilemap.height
  {
    var row := (lineY + tilemap.yScroll) / TileHeight;
    var col := (tilemap.xScroll + i) / TileWidth;
    Div16Below(lineY + tilemap.yScroll, tilemap.height);
    Div16Below(tilemap.xScroll + i, tilemap.width);
    assert GridIndex(tilemap, lineY, i) == row * tilemap.width + col;
    RowMajorBelow(row, col, tilemap.width, tilemap.height);
  }

  lemma Div16Below(x: int, n: int)
    requires 0 <= x < 16 * n
    ensures 0 <= x / 16 < n
  {
  }

  /** A row-major index of an in-range cell is below `width * height`. */
  lemma RowMajorBelow(row: int, col: int, width: int, height: int)
    requires 0 <= row < height && 0 <= col < width
    ensures 0 <= row * width + col < width * height
  {
    assert row * width + col < (row + 1) * width;
    assert (row + 1) * width <= height * width;
  }

  /** With no x scroll the scanline is 20 whole tiles of the map row. */
  lemma UnscrolledLineIsWholeTiles(tilemap: TilemapInfo, lineY: int, i: int)
    requires ReadsInBounds(tilemap, lineY) && 0 <= i < ScreenWidth && tilemap.xScroll == 0
    ensures GridIndex(tilemap, lineY, i) == TilemapLine((lineY + tilemap.yScroll) / TileHeight, tilemap) + i / TileWidth
    ensures PixelIndex(tilemap, lineY, i)
      == TileLine(tilemap.tiles[GridIndex(tilemap, lineY, i)], (lineY + tilemap.yScroll) % TileHeight) + i % TileWidth
  {
  }

  /** With an x scroll of `16a + b`, b > 0, the first `16 - b` pixels come
      from map column a, the last b from column a + 20, and the 19 columns
      between are shown whole. */
  lemma ScrolledLineTileWidths(tilemap: TilemapInfo, lineY: int, i: int)
    requires tilemap.xScroll >= 0 && tilemap.xScroll % TileWidth != 0 && 0 <= i < ScreenWidth
    ensures var a := tilemap.xScroll / TileWidth;
      var b := tilemap.xScroll % TileWidth;
      && ((tilemap.xScroll + i) / TileWidth == a <==> i < TileWidth - b)
      && ((tilemap.xScroll + i) / TileWidth == a + TilesPerLine <==> i >= ScreenWidth - b)
  {
    var a := tilemap.xScroll / TileWidth;
    var b := tilemap.xScroll % TileWidth;
    var x := tilemap.xScroll + i;
    assert x == 16 * a + b + i;
    if i < TileWidth - b {
      DivMod16(a, b + i);
    } else {
      var t := (i - (TileWidth - b)) / TileWidth + 1;
      var m := (i - (TileWidth - b)) % TileWidth;
      assert x == 16 * (a + t) + m;
      DivMod16(a + t, m);
      assert t <= TilesPerLine;
      assert t == TilesPerLine <==> i >= ScreenWidth - b;
    }
  }
}
