/** The sprite layer of the fourth and fifth variants: a pool of 128 sprite
    slots, the per-scanline selection of at most 20 active sprites in slot
    order, and the compositing of their pixel rows into the line buffer,
    last-found first, skipping the transparent colour. Pixel-data pointers
    are modelled as offsets into one sprite-data sequence. The fourth
    variant's routines are these with both scrolls at zero. */
module VgaSprites {
  import opened VgaTilemap

  const NumSprites: nat := 128
  const MaxSpritesPerLine: nat := 20
  const SpriteWidth: nat := 16
  const TransparentColour: int := 0x7c1f

  /** C's conversions to `uint16_t` and `unsigned int`. */
  function U16(v: int): int { v % 0x1_0000 }
  function U32(v: int): int { v % 0x1_0000_0000 }

  /** Values already in range are unchanged by the conversion. */
  lemma U16InRange(v: int)
    requires 0 <= v < 0x1_0000
    ensures U16(v) == v
  {
  }

  /** Offset of the first pixel of sprite image `spriteIdx`. */
  function CalcSpritePtr(spriteIdx: int, spriteHeight: int): int {
    spriteIdx * (SpriteWidth * spriteHeight)
  }

  /** A mixed-radix pair (q, r) with r < n is determined by q * n + r. */
  lemma MixedRadixUnique(q: nat, r: nat, q': nat, r': nat, n: nat)
    requires r < n && r' < n
    ensures q * n + r == q' * n + r' <==> q == q' && r == r'
  {
    if q < q' {
      MulMono(q + 1, q', n);
    } else if q' < q {
      MulMono(q' + 1, q, n);
    }
  }

  lemma MulMono(a: nat, b: nat, n: nat)
    requires a <= b
    ensures a * n <= b * n
  {
  }

  /** Pixel (row, col) of image i is at i*16*h + row*16 + col: images of
      height h are stored back to back, each row-major. */
  lemma SpritePixelLayout(i: nat, row: nat, col: nat, i': nat, row': nat, col': nat, spriteHeight: nat)
    requires row < spriteHeight && col < SpriteWidth && row' < spriteHeight && col' < SpriteWidth
    ensures CalcSpritePtr(i, spriteHeight) <= CalcSpritePtr(i, spriteHeight) + row * SpriteWidth + col < CalcSpritePtr(i + 1, spriteHeight)
    ensures CalcSpritePtr(i, spriteHeight) + row * SpriteWidth + col == CalcSpritePtr(i', spriteHeight) + row' * SpriteWidth + col'
      <==> i == i' && row == row' && col == col'
  {
    var n := SpriteWidth * spriteHeight;
    MulMono(row + 1, spriteHeight, SpriteWidth);
    MulMono(row' + 1, spriteHeight, SpriteWidth);
    assert CalcSpritePtr(i + 1, spriteHeight) == i * n + n;
    MixedRadixUnique(i, row * SpriteWidth + col, i', row' * SpriteWidth + col', n);
    MixedRadixUnique(row, col, row', col', SpriteWidth);
  }

  /** One slot of the sprite pool: offset of the current frame's pixels,
      height in pixels (`unsigned int`), world position and visibility. */
  datatype SpriteInfo = SpriteInfo(dataPtr: int, height: int, x: int, y: int, enabled: bool)

  /** A sprite selected for one scanline: offset of its pixel row for the
      line and its x coordinate, stored as `uint16_t`. */
  datatype ActiveSprite = ActiveSprite(lineData: int, x: int)

  /** `init_sprites`: disable every sprite slot. */
  method InitSprites(sprites: array<SpriteInfo>)
    modifies sprites
    ensures forall i :: 0 <= i < sprites.Length ==> sprites[i] == old(sprites[i]).(enabled := false)
  {
    var i := 0;
    while i < sprites.Length
      invariant 0 <= i <= sprites.Length
      invariant forall j :: 0 <= j < i ==> sprites[j] == old(sprites[j]).(enabled := false)
      invariant forall j :: i <= j < sprites.Length ==> sprites[j] == old(sprites[j])
    {
      sprites[i] := sprites[i].(enabled := false);
      i := i + 1;
    }
  }

  /** The test as written: `y <= line` compares signed, but `y + height` is
      unsigned, so the upper comparison is done modulo 2^32. */
  predicate IsSpriteOnLine(sprite: SpriteInfo, lineY: int) {
    sprite.y <= lineY && U32(lineY) < U32(U32(sprite.y) + sprite.height)
  }

  /** For world coordinates that are not negative and a span that does not
      wrap, the test is plain interval membership. */
  lemma OnLineIsInterval(sprite: SpriteInfo, lineY: int)
    requires 0 <= lineY < 0x1_0000
    requires 0 <= sprite.y && 0 <= sprite.height && sprite.y + sprite.height < 0x1_0000_0000
    ensures IsSpriteOnLine(sprite, lineY) <==> sprite.y <= lineY < sprite.y + sprite.height
  {
  }

  function CalcActiveSpriteInfo(sprite: SpriteInfo, lineY: int): (a: ActiveSprite)
    ensures 0 <= a.x < 0x1_0000
    ensures 0 <= sprite.x < 0x1_0000 ==> a.x == sprite.x
    ensures a.lineData - sprite.dataPtr == (lineY - sprite.y) * SpriteWidth
  {
    ActiveSprite(sprite.dataPtr + (lineY - sprite.y) * SpriteWidth, U16(sprite.x))
  }

  predicate Eligible(sprite: SpriteInfo, lineY: int) {
    sprite.enabled && IsSpriteOnLine(sprite, lineY)
  }

  /** The slots below `i` that are enabled and on the line, ascending. */
  function EligibleBelow(sprites: seq<SpriteInfo>, lineY: int, i: nat): seq<nat>
    requires i <= |sprites|
  {
    if i == 0 then []
    else EligibleBelow(sprites, lineY, i - 1) + (if Eligible(sprites[i - 1], lineY) then [i - 1] else [])
  }

  /** The slots the scan keeps: the first 20 eligible ones. */
  function ActiveSlots(sprites: seq<SpriteInfo>, lineY: int): seq<nat> {
    var all := EligibleBelow(sprites, lineY, |sprites|);
    if |all| <= MaxSpritesPerLine then all else all[..MaxSpritesPerLine]
  }

  function ActiveList(sprites: seq<SpriteInfo>, lineY: int): seq<ActiveSprite>
    ensures |ActiveList(sprites, lineY)| == |ActiveSlots(sprites, lineY)|
  {
    var slots := ActiveSlots(sprites, lineY);
    seq(|slots|, k requires 0 <= k < |slots| => CalcActiveSpriteInfo(sprites[SlotAt(sprites, lineY, k)], lineY))
  }

  function SlotAt(sprites: seq<SpriteInfo>, lineY: int, k: nat): (slot: nat)
    requires k < |ActiveSlots(sprites, lineY)|
    ensures slot < |sprites|
  {
    EligibleBelowFacts(sprites, lineY, |sprites|);
    ActiveSlots(sprites, lineY)[k]
  }

  /** The eligible slots below i are exactly the eligible ones, in strictly
      increasing order. */
  lemma {:induction false} EligibleBelowFacts(sprites: seq<SpriteInfo>, lineY: int, i: nat)
    requires i <= |sprites|
    ensures forall k :: 0 <= k < |EligibleBelow(sprites, lineY, i)| ==>
      EligibleBelow(sprites, lineY, i)[k] < i && Eligible(sprites[EligibleBelow(sprites, lineY, i)[k]], lineY)
    ensures forall k, l :: 0 <= k < l < |EligibleBelow(sprites, lineY, i)| ==>
      EligibleBelow(sprites, lineY, i)[k] < EligibleBelow(sprites, lineY, i)[l]
    ensures forall j :: 0 <= j < i && Eligible(sprites[j], lineY) ==> j in EligibleBelow(sprites, lineY, i)
  {
    if i > 0 {
      EligibleBelowFacts(sprites, lineY, i - 1);
    }
  }

  /** Scanning further only appends. */
  lemma {:induction false} EligibleBelowPrefix(sprites: seq<SpriteInfo>, lineY: int, i: nat, j: nat)
    requires i <= j <= |sprites|
    ensures EligibleBelow(sprites, lineY, i) <= EligibleBelow(sprites, lineY, j)
    decreases j - i
  {
    if i < j {
      EligibleBelowPrefix(sprites, lineY, i, j - 1);
    }
  }

  /** The selection is the first eligible slots in ascending order: each
      kept slot is eligible, they increase, at most 20 are kept, and an
      eligible slot is dropped only when 20 lower ones were kept. */
  lemma ActiveSlotsAreFirstEligible(sprites: seq<SpriteInfo>, lineY: int)
    ensures |ActiveSlots(sprites, lineY)| <= MaxSpritesPerLine
    ensures forall k :: 0 <= k < |ActiveSlots(sprites, lineY)| ==>
      ActiveSlots(sprites, lineY)[k] < |sprites| && Eligible(sprites[ActiveSlots(sprites, lineY)[k]], lineY)
    ensures forall k, l :: 0 <= k < l < |ActiveSlots(sprites, lineY)| ==>
      ActiveSlots(sprites, lineY)[k] < ActiveSlots(sprites, lineY)[l]
    ensures forall j :: 0 <= j < |sprites| && Eligible(sprites[j], lineY) && j !in ActiveSlots(sprites, lineY) ==>
      |ActiveSlots(sprites, lineY)| == MaxSpritesPerLine &&
      forall k :: 0 <= k < MaxSpritesPerLine ==> ActiveSlots(sprites, lineY)[k] < j
  {
    var all := EligibleBelow(sprites, lineY, |sprites|);
    EligibleBelowFacts(sprites, lineY, |sprites|);
    forall j | 0 <= j < |sprites| && Eligible(sprites[j], lineY) && j !in ActiveSlots(sprites, lineY)
      ensures |ActiveSlots(sprites, lineY)| == MaxSpritesPerLine
      ensures forall k :: 0 <= k < MaxSpritesPerLine ==> ActiveSlots(sprites, lineY)[k] < j
    {
      assert j in all;
      var m :| 0 <= m < |all| && all[m] == j;
      assert m >= MaxSpritesPerLine;
      forall k | 0 <= k < MaxSpritesPerLine
        ensures ActiveSlots(sprites, lineY)[k] < j
      {
        assert ActiveSlots(sprites, lineY)[k] == all[k];
      }
    }
  }

  /** `cur` holds the active-sprite records of the eligible slots below i. */
  ghost predicate ScannedUpTo(sprites: seq<SpriteInfo>, lineY: int, i: nat, cur: seq<ActiveSprite>)
    requires i <= |sprites|
  {
    |cur| == |EligibleBelow(sprites, lineY, i)| &&
    forall k :: 0 <= k < |cur| ==>
      EligibleBelow(sprites, lineY, i)[k] < i &&
      cur[k] == CalcActiveSpriteInfo(sprites[EligibleBelow(sprites, lineY, i)[k]], lineY)
  }

  /** One more slot scanned: its record is appended exactly when it is
      eligible. */
  lemma ScanStep(sprites: seq<SpriteInfo>, lineY: int, i: nat, cur: seq<ActiveSprite>)
    requires i < |sprites| && ScannedUpTo(sprites, lineY, i, cur)
    ensures Eligible(sprites[i], lineY) ==>
      ScannedUpTo(sprites, lineY, i + 1, cur + [CalcActiveSpriteInfo(sprites[i], lineY)])
    ensures !Eligible(sprites[i], lineY) ==> ScannedUpTo(sprites, lineY, i + 1, cur)
  {
    var e := EligibleBelow(sprites, lineY, i);
    if Eligible(sprites[i], lineY) {
      var e' := e + [i];
      assert EligibleBelow(sprites, lineY, i + 1) == e';
      var cur' := cur + [CalcActiveSpriteInfo(sprites[i], lineY)];
      forall k | 0 <= k < |cur'|
        ensures e'[k] < i + 1 && cur'[k] == CalcActiveSpriteInfo(sprites[e'[k]], lineY)
      {
        if k < |cur| {
          assert e'[k] == e[k] && cur'[k] == cur[k];
        }
      }
    } else {
      assert EligibleBelow(sprites, lineY, i + 1) == e;
    }
  }

  /** `determine_active_sprites`: scans the pool in slot order, storing the
      active-sprite record of each eligible slot, and stops at 20. */
  method DetermineActiveSprites(sprites: seq<SpriteInfo>, lineY: int, curActiveSprites: array<ActiveSprite>)
    returns (numActiveSprites: nat)
    requires |sprites| == NumSprites && curActiveSprites.Length == MaxSpritesPerLine
    modifies curActiveSprites
    ensures numActiveSprites <= MaxSpritesPerLine
    ensures curActiveSprites[..numActiveSprites] == ActiveList(sprites, lineY)
    ensures curActiveSprites[numActiveSprites..] == old(curActiveSprites[numActiveSprites..])
  {
    numActiveSprites := 0;
    var i := 0;
    while i < NumSprites
      invariant 0 <= i <= NumSprites && numActiveSprites < MaxSpritesPerLine
      invariant ScannedUpTo(sprites, lineY, i, curActiveSprites[..numActiveSprites])
      invariant curActiveSprites[numActiveSprites..] == old(curActiveSprites[numActiveSprites..])
    {
      ghost var cur := curActiveSprites[..numActiveSprites];
      ScanStep(sprites, lineY, i, cur);
      if sprites[i].enabled && IsSpriteOnLine(sprites[i], lineY) {
        curActiveSprites[numActiveSprites] := CalcActiveSpriteInfo(sprites[i], lineY);
        numActiveSprites := numActiveSprites + 1;
        assert curActiveSprites[..numActiveSprites] == cur + [CalcActiveSpriteInfo(sprites[i], lineY)];

        if numActiveSprites == MaxSpritesPerLine {
          EligibleBelowPrefix(sprites, lineY, i + 1, |sprites|);
          ActiveListIs(sprites, lineY, i + 1, curActiveSprites[..numActiveSprites]);
          return;
        }
      }
      i := i + 1;
    }
    ActiveListIs(sprites, lineY, NumSprites, curActiveSprites[..numActiveSprites]);
  }

  /** Ties the array contents the scan built to `ActiveList`. */
  lemma ActiveListIs(sprites: seq<SpriteInfo>, lineY: int, i: nat, cur: seq<ActiveSprite>)
    requires i <= |sprites| && ScannedUpTo(sprites, lineY, i, cur)
    requires EligibleBelow(sprites, lineY, i) <= EligibleBelow(sprites, lineY, |sprites|)
    requires |cur| <= MaxSpritesPerLine
    requires |cur| < MaxSpritesPerLine ==> i == |sprites|
    ensures cur == ActiveList(sprites, lineY)
  {
    assert ActiveSlots(sprites, lineY) == EligibleBelow(sprites, lineY, i);
  }

  /** Screen pixel `p` lies under a sprite whose left edge is at `screenX`. */
  predicate Covers(screenX: int, p: int) {
    0 <= p < ScreenWidth && screenX <= p < screenX + SpriteWidth
  }

  /** Every sprite pixel the copy reads is inside the sprite data. */
  ghost predicate RowReadable(lineData: int, screenX: int, data: seq<int>) {
    forall p :: Covers(screenX, p) ==> 0 <= lineData + (p - screenX) < |data|
  }

  /** The line after one sprite row is copied over it: covered pixels take
      the sprite's pixel unless that is the transparent colour. */
  function Painted(line: seq<int>, lineData: int, screenX: int, data: seq<int>): (r: seq<int>)
    requires |line| == ScreenWidth && RowReadable(lineData, screenX, data)
    ensures |r| == ScreenWidth
  {
    seq(ScreenWidth, p requires 0 <= p < ScreenWidth =>
      if Covers(screenX, p) && data[lineData + (p - screenX)] != TransparentColour
      then data[lineData + (p - screenX)]
      else line[p])
  }

  /** `draw_sprite_to_line`: clips the sprite row to the screen and copies
      its non-transparent pixels. */
  method DrawSpriteToLine(lineBuffer: array<int>, sprite: ActiveSprite, spriteScrollX: int, data: seq<int>)
    requires lineBuffer.Length == ScreenWidth
    requires RowReadable(sprite.lineData, sprite.x - spriteScrollX, data)
    modifies lineBuffer
    ensures lineBuffer[..] == Painted(old(lineBuffer[..]), sprite.lineData, sprite.x - spriteScrollX, data)
  {
    var spriteDrawX: int;
    var startLineX: int;

    var screenX := sprite.x - spriteScrollX;

    if screenX < 0 {
      spriteDrawX := -screenX;
      startLineX := 0;
    } else {
      spriteDrawX := 0;
      startLineX := screenX;
    }

    var endLineX := if screenX + SpriteWidth < ScreenWidth then screenX + SpriteWidth else ScreenWidth;

    ghost var before := lineBuffer[..];
    var lineX := startLineX;
    while lineX < endLineX
      invariant startLineX <= lineX && (startLineX < endLineX ==> lineX <= endLineX)
      invariant spriteDrawX == lineX - screenX
      invariant forall p :: 0 <= p < ScreenWidth ==>
        lineBuffer[p] == if p < lineX then Painted(before, sprite.lineData, screenX, data)[p] else before[p]
    {
      assert Covers(screenX, lineX);
      if data[sprite.lineData + spriteDrawX] != TransparentColour {
        lineBuffer[lineX] := data[sprite.lineData + spriteDrawX];
      }
      lineX := lineX + 1;
      spriteDrawX := spriteDrawX + 1;
    }
    assert lineBuffer[..] == Painted(before, sprite.lineData, screenX, data);
  }

  /** What one sprite does to the line: pixels outside
      [max(0, sx), min(sx + 16, 320)) are untouched, sprite pixels are read
      at offsets 0..15 of the row, a transparent pixel leaves the line as it
      was, and any other covered pixel is replaced. */
  lemma PaintedPixel(line: seq<int>, lineData: int, screenX: int, data: seq<int>, p: int)
    requires |line| == ScreenWidth && RowReadable(lineData, screenX, data) && 0 <= p < ScreenWidth
    ensures Covers(screenX, p) <==>
      (if screenX < 0 then 0 else screenX) <= p < (if screenX + SpriteWidth < ScreenWidth then screenX + SpriteWidth else ScreenWidth)
    ensures !Covers(screenX, p) ==> Painted(line, lineData, screenX, data)[p] == line[p]
    ensures Covers(screenX, p) ==> 0 <= p - screenX < SpriteWidth
    ensures Covers(screenX, p) && data[lineData + (p - screenX)] == TransparentColour ==>
      Painted(line, lineData, screenX, data)[p] == line[p]
    ensures Covers(screenX, p) && data[lineData + (p - screenX)] != TransparentColour ==>
      Painted(line, lineData, screenX, data)[p] == data[lineData + (p - screenX)]
  {
  }

  /** The readability demand for every selected sprite. */
  ghost predicate ActiveRowsReadable(actives: seq<ActiveSprite>, spriteScrollX: int, data: seq<int>) {
    forall k :: 0 <= k < |actives| ==> RowReadable(actives[k].lineData, actives[k].x - spriteScrollX, data)
  }

  /** The line after the active sprites are drawn last-to-first. */
  function Composite(line: seq<int>, actives: seq<ActiveSprite>, spriteScrollX: int, data: seq<int>): (r: seq<int>)
    requires |line| == ScreenWidth && ActiveRowsReadable(actives, spriteScrollX, data)
    ensures |r| == ScreenWidth
    decreases |actives|
  {
    if actives == [] then line
    else Painted(Composite(line, actives[1..], spriteScrollX, data), actives[0].lineData, actives[0].x - spriteScrollX, data)
  }

  /** Sprite k shows an opaque pixel at screen position p. */
  predicate OpaqueAt(actives: seq<ActiveSprite>, k: nat, spriteScrollX: int, data: seq<int>, p: int)
    requires k < |actives| && RowReadable(actives[k].lineData, actives[k].x - spriteScrollX, data)
  {
    Covers(actives[k].x - spriteScrollX, p) && data[actives[k].lineData + (p - (actives[k].x - spriteScrollX))] != TransparentColour
  }

  /** Z-order: at every pixel the composite shows the opaque pixel of the
      lowest-index active sprite covering it, or the background when none
      does. */
  lemma {:induction false} CompositeShowsFrontmost(line: seq<int>, actives: seq<ActiveSprite>, spriteScrollX: int, data: seq<int>, p: int)
    requires |line| == ScreenWidth && ActiveRowsReadable(actives, spriteScrollX, data) && 0 <= p < ScreenWidth
    ensures (forall k :: 0 <= k < |actives| ==> !OpaqueAt(actives, k, spriteScrollX, data, p)) ==>
      Composite(line, actives, spriteScrollX, data)[p] == line[p]
    ensures forall k :: (0 <= k < |actives| && OpaqueAt(actives, k, spriteScrollX, data, p) &&
                         (forall l :: 0 <= l < k ==> !OpaqueAt(actives, l, spriteScrollX, data, p))) ==>
      Composite(line, actives, spriteScrollX, data)[p] == data[actives[k].lineData + (p - (actives[k].x - spriteScrollX))]
    decreases |actives|
  {
    if actives != [] {
      var rest := actives[1..];
      assert ActiveRowsReadable(rest, spriteScrollX, data) by {
        forall k | 0 <= k < |rest| ensures RowReadable(rest[k].lineData, rest[k].x - spriteScrollX, data) {
          assert rest[k] == actives[k + 1];
        }
      }
      CompositeShowsFrontmost(line, rest, spriteScrollX, data, p);
      var below := Composite(line, rest, spriteScrollX, data);
      var sx := actives[0].x - spriteScrollX;
      assert Composite(line, actives, spriteScrollX, data) == Painted(below, actives[0].lineData, sx, data);
      forall k | 1 <= k < |actives|
        ensures OpaqueAt(actives, k, spriteScrollX, data, p) == OpaqueAt(rest, k - 1, spriteScrollX, data, p)
      {
        assert rest[k - 1] == actives[k];
      }
      var here := Composite(line, actives, spriteScrollX, data)[p];
      if OpaqueAt(actives, 0, spriteScrollX, data, p) {
        assert here == data[actives[0].lineData + (p - sx)];
      } else {
        assert here == below[p];
        if forall k :: 0 <= k < |actives| ==> !OpaqueAt(actives, k, spriteScrollX, data, p) {
          assert forall j :: 0 <= j < |rest| ==> !OpaqueAt(rest, j, spriteScrollX, data, p) by {
            forall j | 0 <= j < |rest| ensures !OpaqueAt(rest, j, spriteScrollX, data, p) {
              assert !OpaqueAt(actives, j + 1, spriteScrollX, data, p);
            }
          }
        }
        forall k | 0 <= k < |actives| && OpaqueAt(actives, k, spriteScrollX, data, p) &&
                   (forall l :: 0 <= l < k ==> !OpaqueAt(actives, l, spriteScrollX, data, p))
          ensures here == data[actives[k].lineData + (p - (actives[k].x - spriteScrollX))]
        {
          assert k >= 1;
          forall l | 0 <= l < k - 1 ensures !OpaqueAt(rest, l, spriteScrollX, data, p) {
            assert !OpaqueAt(actives, l + 1, spriteScrollX, data, p);
          }
          assert rest[k - 1] == actives[k];
        }
      }
    }
  }

  /** `draw_sprites_line`: moves the line into sprite space (a `uint16_t`
      addition), selects the active sprites and draws them from the last
      found to the first. */
  method DrawSpritesLine(lineY: int, lineBuffer: array<int>, sprites: seq<SpriteInfo>, spriteScrollX: int,
                         spriteScrollY: int, data: seq<int>, curActiveSprites: array<ActiveSprite>)
    requires lineBuffer.Length == ScreenWidth && curActiveSprites.Length == MaxSpritesPerLine
    requires |sprites| == NumSprites
    requires ActiveRowsReadable(ActiveList(sprites, U16(lineY + spriteScrollY)), spriteScrollX, data)
    modifies lineBuffer, curActiveSprites
    ensures lineBuffer[..] == Composite(old(lineBuffer[..]), ActiveList(sprites, U16(lineY + spriteScrollY)), spriteScrollX, data)
  {
    var spriteLineY := U16(lineY + spriteScrollY);

    var numActiveSprites := DetermineActiveSprites(sprites, spriteLineY, curActiveSprites);
    ghost var actives := curActiveSprites[..numActiveSprites];
    ghost var background := lineBuffer[..];

    var i := numActiveSprites as int - 1;
    while i >= 0
      invariant -1 <= i < numActiveSprites
      invariant curActiveSprites[..numActiveSprites] == actives
      invariant ActiveRowsReadable(actives[i + 1..], spriteScrollX, data)
      invariant lineBuffer[..] == Composite(background, actives[i + 1..], spriteScrollX, data)
    {
      assert actives[i..][1..] == actives[i + 1..];
      DrawSpriteToLine(lineBuffer, curActiveSprites[i], spriteScrollX, data);
      i := i - 1;
    }
    assert actives[0..] == actives;
  }
}
