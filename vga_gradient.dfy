/** The test pictures of the third and fourth variants: RGB555 colour
    bands that scroll by one step per frame, white top and bottom rows and a
    white left and right border, and in the fourth variant a grid of 128
    animated sprites over the bands. */
module VgaGradient {
  import opened VgaTilemap
  import opened VgaSprites

  const White: int := 0xffff
  const NumSpriteImages: nat := 72

  /** `ENCODE_RGB`: each channel masked to 5 bits (a two's-complement mask,
      which is the non-negative remainder by 32), red lowest. */
  function EncodeRgb(r: int, g: int, b: int): int {
    (b % 32) * 1024 + (g % 32) * 32 + r % 32
  }

  /** The packed value fits in 15 bits and each channel reads back from
      its own bit field: red bits 0-4, green 5-9, blue 10-14. */
  lemma EncodeRgbFields(r: int, g: int, b: int)
    ensures 0 <= EncodeRgb(r, g, b) < 0x8000
    ensures EncodeRgb(r, g, b) % 32 == r % 32
    ensures EncodeRgb(r, g, b) / 32 % 32 == g % 32
    ensures EncodeRgb(r, g, b) / 1024 == b % 32
  {
    FieldsOf(r % 32, g % 32, b % 32);
  }

  lemma FieldsOf(r: int, g: int, b: int)
    requires 0 <= r < 32 && 0 <= g < 32 && 0 <= b < 32
    ensures 0 <= b * 1024 + g * 32 + r < 0x8000
    ensures (b * 1024 + g * 32 + r) % 32 == r
    ensures (b * 1024 + g * 32 + r) / 32 == b * 32 + g
    ensures (b * 32 + g) % 32 == g
    ensures (b * 1024 + g * 32 + r) / 1024 == b
  {
  }

  /** Channels below 32 are recovered exactly, so distinct colours encode
      differently. */
  lemma EncodeRgbInjective(r: int, g: int, b: int, r': int, g': int, b': int)
    requires 0 <= r < 32 && 0 <= g < 32 && 0 <= b < 32
    requires 0 <= r' < 32 && 0 <= g' < 32 && 0 <= b' < 32
    ensures EncodeRgb(r, g, b) == EncodeRgb(r', g', b') <==> r == r' && g == g' && b == b'
  {
    EncodeRgbFields(r, g, b);
    EncodeRgbFields(r', g', b');
  }

  /** The colour of the bands on line y: 32-line bands cycling red, green,
      blue, with intensity (y + start) mod 32. */
  function GradientPixel(lineY: int, startColourVal: int): int
    requires 0 <= lineY && 0 <= startColourVal
  {
    var colourArea := (lineY / 32) % 3;
    var colourVal := (lineY + startColourVal) % 32;
    if colourArea == 0 then EncodeRgb(colourVal, 0, 0)
    else if colourArea == 1 then EncodeRgb(0, colourVal, 0)
    else EncodeRgb(0, 0, colourVal)
  }

  /** Only the channel chosen by the band can be non-zero, and it holds the
      intensity. */
  lemma GradientPixelChannel(lineY: int, startColourVal: int)
    requires 0 <= lineY && 0 <= startColourVal
    ensures var p := GradientPixel(lineY, startColourVal);
      var v := (lineY + startColourVal) % 32;
      var area := (lineY / 32) % 3;
      && 0 <= p < 0x8000
      && p % 32 == (if area == 0 then v else 0)
      && p / 32 % 32 == (if area == 1 then v else 0)
      && p / 1024 == (if area == 2 then v else 0)
  {
    var v := (lineY + startColourVal) % 32;
    var area := (lineY / 32) % 3;
    var r := if area == 0 then v else 0;
    var g := if area == 1 then v else 0;
    var b := if area == 2 then v else 0;
    assert GradientPixel(lineY, startColourVal) == EncodeRgb(r, g, b);
    assert r % 32 == r && g % 32 == g && b % 32 == b;
    EncodeRgbFields(r, g, b);
  }

  /** A line of one colour. */
  function Solid(colour: int): seq<int> { seq(ScreenWidth, _ => colour) }

  function WhiteLine(): seq<int> { Solid(White) }

  function BandLine(lineY: int, startColourVal: int): seq<int>
    requires 0 <= lineY && 0 <= startColourVal
  {
    Solid(GradientPixel(lineY, startColourVal))
  }

  /** Pixels 0 and 319 forced to white. */
  function Bordered(line: seq<int>): seq<int>
    requires |line| == ScreenWidth
  {
    line[0 := White][ScreenWidth - 1 := White]
  }

  function IsBorderRow(lineY: int): bool { lineY == 0 || lineY == ScreenHeight - 1 }

  /** The line the third variant draws. */
  function ThirdLine(lineY: int, startColourVal: int): seq<int>
    requires 0 <= lineY && 0 <= startColourVal
  {
    if IsBorderRow(lineY) then WhiteLine() else Bordered(BandLine(lineY, startColourVal))
  }

  /** Rows 0 and 239 are white; on other rows the border pixels are white
      and pixels 1..318 are all the band colour. */
  lemma ThirdLinePixels(lineY: int, startColourVal: int, i: int)
    requires 0 <= lineY && 0 <= startColourVal && 0 <= i < ScreenWidth
    ensures |ThirdLine(lineY, startColourVal)| == ScreenWidth
    ensures IsBorderRow(lineY) ==> ThirdLine(lineY, startColourVal)[i] == White
    ensures !IsBorderRow(lineY) && (i == 0 || i == ScreenWidth - 1) ==> ThirdLine(lineY, startColourVal)[i] == White
    ensures !IsBorderRow(lineY) && 0 < i < ScreenWidth - 1 ==>
      ThirdLine(lineY, startColourVal)[i] == GradientPixel(lineY, startColourVal) < 0x8000
  {
    GradientPixelChannel(lineY, startColourVal);
  }

  /** The colour animation: the start intensity and its direction. */
  datatype ColourState = ColourState(val: int, inc: bool)

  /** `end_of_frame`'s colour step: move first, then turn at 0 and 31. */
  function ColourStep(c: ColourState): ColourState {
    var v := if c.inc then c.val + 1 else c.val - 1;
    ColourState(v, if v == 0 then true else if v == 31 then false else c.inc)
  }

  ghost predicate ColourValid(c: ColourState) {
    0 <= c.val <= 31 && (c.inc ==> c.val < 31) && (!c.inc ==> c.val > 0)
  }

  /** The step keeps the intensity in [0, 31], moves it by one and turns
      exactly at the ends. */
  lemma ColourStepKeepsRange(c: ColourState)
    requires ColourValid(c)
    ensures ColourValid(ColourStep(c))
    ensures ColourStep(c).val == c.val + (if c.inc then 1 else -1)
    ensures ColourStep(c).inc != c.inc <==> ColourStep(c).val == 0 || ColourStep(c).val == 31
  {
  }

  function ColourAfter(c: ColourState, n: nat): ColourState {
    if n == 0 then c else ColourStep(ColourAfter(c, n - 1))
  }

  /** The intensity n frames after start-up: a triangle wave of period 62. */
  function Triangle(n: nat): int {
    var m := n % 62;
    if m <= 31 then m else 62 - m
  }

  lemma {:induction false} ColourCycle(n: nat)
    ensures ColourAfter(ColourState(0, true), n) == ColourState(Triangle(n), n % 62 < 31)
  {
    if n > 0 {
      ColourCycle(n - 1);
      var m := (n - 1) % 62;
      NextResidue(n - 1);
      assert Triangle(n - 1) == if m <= 31 then m else 62 - m;
      assert Triangle(n) == if m == 61 then 0 else if m + 1 <= 31 then m + 1 else 62 - (m + 1);
    }
  }

  lemma NextResidue(k: nat)
    ensures (k + 1) % 62 == if k % 62 == 61 then 0 else k % 62 + 1
  {
  }

  /** The third variant's picture state. */
  class GradientScreen {
    var startColourVal: int
    var startColourValInc: bool

    ghost predicate Valid()
      reads this
    {
      ColourValid(ColourState(startColourVal, startColourValInc))
    }

    constructor ()
      ensures Valid() && startColourVal == 0 && startColourValInc
    {
      startColourVal := 0;
      startColourValInc := true;
    }

    /** `draw_line` of the third variant. */
    method DrawLine(lineY: int, lineBuffer: array<int>)
      requires Valid() && 0 <= lineY < ScreenHeight && lineBuffer.Length == ScreenWidth
      modifies lineBuffer
      ensures lineBuffer[..] == ThirdLine(lineY, startColourVal)
    {
      if lineY == 0 || lineY == 239 {
        FillLine(lineBuffer, White);
        return;
      }
      FillLine(lineBuffer, GradientPixel(lineY, startColourVal));
      lineBuffer[0] := White;
      lineBuffer[319] := White;
    }

    /** `end_of_frame` of the third variant. */
    method EndOfFrame()
      requires Valid()
      modifies this
      ensures Valid()
      ensures ColourState(startColourVal, startColourValInc) == ColourStep(old(ColourState(startColourVal, startColourValInc)))
    {
      ColourStepKeepsRange(ColourState(startColourVal, startColourValInc));
      if startColourValInc {
        startColourVal := startColourVal + 1;
      } else {
        startColourVal := startColourVal - 1;
      }

      if startColourVal == 0 {
        startColourValInc := true;
      } else if startColourVal == 31 {
        startColourValInc := false;
      }
    }
  }

  /** The fill loop both variants use: the band colour is computed once and
      written to all 320 pixels. For rows 0 and 239 the colour is white. */
  method FillLine(lineBuffer: array<int>, colour: int)
    requires lineBuffer.Length == ScreenWidth
    modifies lineBuffer
    ensures lineBuffer[..] == Solid(colour)
  {
    var i := 0;
    while i < ScreenWidth
      invariant 0 <= i <= ScreenWidth
      invariant forall j :: 0 <= j < i ==> lineBuffer[j] == colour
    {
      lineBuffer[i] := colour;
      i := i + 1;
    }
  }

  /** Sprite i of the fourth variant's grid: column i mod 20, row i / 20,
      image i mod 72. */
  function GridSprite(i: int, spriteHeight: int): SpriteInfo {
    SpriteInfo(CalcSpritePtr(i % NumSpriteImages, spriteHeight), spriteHeight,
               (i % MaxSpritesPerLine) * SpriteWidth, (i / MaxSpritesPerLine) * spriteHeight, true)
  }

  function GridSprites(spriteHeight: int): seq<SpriteInfo> {
    seq(NumSprites, i => GridSprite(i, spriteHeight))
  }

  /** The image sprite i shows `animOffset` frames after start-up. */
  function AnimImage(i: int, animOffset: int): int {
    (i + animOffset / 16) % NumSpriteImages
  }

  /** Images cycle through all 72 frames, changing once every 16 frames, and
      start at image i mod 72. */
  lemma AnimImageCycle(i: nat, animOffset: nat)
    ensures 0 <= AnimImage(i, animOffset) < NumSpriteImages
    ensures AnimImage(i, 0) == i % NumSpriteImages
    ensures AnimImage(i, animOffset + 16) == (AnimImage(i, animOffset) + 1) % NumSpriteImages
    ensures animOffset % 16 != 15 ==> AnimImage(i, animOffset + 1) == AnimImage(i, animOffset)
  {
    assert (animOffset + 16) / 16 == animOffset / 16 + 1;
  }

  lemma DivOfProduct(r: int, h: int, y: int)
    requires 1 <= h && 0 <= r && r * h <= y < r * h + h
    ensures y / h == r
  {
    var q := y / h;
    assert q * h <= y < q * h + h;
    assert (r + 1) * h == r * h + h;
    assert (q + 1) * h == q * h + h;
    MulCancelLess(q, r + 1, h);
    MulCancelLess(r, q + 1, h);
  }

  lemma MulCancelLess(a: nat, b: nat, h: nat)
    requires 1 <= h && a * h < b * h
    ensures a < b
  {
    if a >= b {
      MulMono(b, a, h);
    }
  }

  /** On a grid line the eligible sprites are exactly one grid row's. */
  lemma GridEligibleRow(spriteHeight: int, lineY: int, i: int)
    requires 1 <= spriteHeight <= 0x1_0000 && 0 <= lineY < 0x1_0000 && 0 <= i < NumSprites
    ensures Eligible(GridSprite(i, spriteHeight), lineY) ==> i / MaxSpritesPerLine == lineY / spriteHeight
  {
    var r := i / MaxSpritesPerLine;
    var s := GridSprite(i, spriteHeight);
    assert 0 <= r <= 6 && s.y == r * spriteHeight;
    MulMono(0, r, spriteHeight);
    MulMono(r, 6, spriteHeight);
    OnLineIsInterval(s, lineY);
    if Eligible(s, lineY) {
      DivOfProduct(r, spriteHeight, lineY);
    }
  }

  /** A strictly increasing sequence inside a window of n values has at most
      n elements. */
  lemma {:induction false} IncreasingInWindow(s: seq<nat>, lo: int, n: nat)
    requires forall k :: 0 <= k < |s| ==> lo <= s[k] < lo + n
    requires forall k, l :: 0 <= k < l < |s| ==> s[k] < s[l]
    ensures |s| <= n
    decreases n
  {
    if |s| > 0 {
      assert lo <= s[0] < lo + n;
      IncreasingInWindow(s[1..], s[0] + 1, n - 1 - (s[0] - lo));
    }
  }

  /** A pool laid out as `setup_sprites` leaves it, whatever image each
      sprite currently shows: `end_of_frame` changes only the images. */
  ghost predicate GridLayout(sprites: seq<SpriteInfo>, spriteHeight: int) {
    |sprites| == NumSprites &&
    forall i :: 0 <= i < NumSprites ==> sprites[i] == GridSprite(i, spriteHeight).(dataPtr := sprites[i].dataPtr)
  }

  /** The grid rows do not overlap, so no line has more than 20 eligible
      sprites and the per-line cap drops none, on every frame. */
  lemma GridCapDropsNothing(sprites: seq<SpriteInfo>, spriteHeight: int, lineY: int)
    requires GridLayout(sprites, spriteHeight)
    requires 1 <= spriteHeight <= 0x1_0000 && 0 <= lineY < 0x1_0000
    ensures ActiveSlots(sprites, lineY) == EligibleBelow(sprites, lineY, NumSprites)
  {
    var all := EligibleBelow(sprites, lineY, NumSprites);
    EligibleBelowFacts(sprites, lineY, NumSprites);
    var row := lineY / spriteHeight;
    forall k | 0 <= k < |all|
      ensures row * MaxSpritesPerLine <= all[k] < row * MaxSpritesPerLine + MaxSpritesPerLine
    {
      var i := all[k];
      assert Eligible(sprites[i], lineY) == Eligible(GridSprite(i, spriteHeight), lineY);
      GridEligibleRow(spriteHeight, lineY, i);
    }
    IncreasingInWindow(all, row * MaxSpritesPerLine, MaxSpritesPerLine);
  }

  /** The fourth variant's picture state: the sprite pool, the colour
      animation and the sprite animation counter. */
  class SpriteGridScreen {
    const spriteHeight: nat
    const spriteData: seq<int>
    const sprites: array<SpriteInfo>
    var startColourVal: int
    var startColourValInc: bool
    var animOffset: int

    ghost predicate Valid()
      reads this
    {
      sprites.Length == NumSprites &&
      ColourValid(ColourState(startColourVal, startColourValInc)) && animOffset >= 0
    }

    constructor (spriteHeight: nat, spriteData: seq<int>)
      ensures Valid() && fresh(sprites)
      ensures this.spriteHeight == spriteHeight && this.spriteData == spriteData
      ensures startColourVal == 0 && startColourValInc && animOffset == 0
    {
      this.spriteHeight := spriteHeight;
      this.spriteData := spriteData;
      sprites := new SpriteInfo[NumSprites](_ => SpriteInfo(0, 0, 0, 0, false));
      startColourVal := 0;
      startColourValInc := true;
      animOffset := 0;
    }

    /** `setup_sprites`: lay the 128 sprites out left to right, 20 to a
        row, one sprite height per row, showing images 0..71 in turn. */
    method SetupSprites()
      requires sprites.Length == NumSprites
      modifies sprites
      ensures sprites[..] == GridSprites(spriteHeight)
      ensures GridLayout(sprites[..], spriteHeight)
    {
      InitSprites(sprites);

      var x := 0;
      var y: int := -(spriteHeight as int);

      var i := 0;
      while i < NumSprites
        invariant 0 <= i <= NumSprites
        invariant i % MaxSpritesPerLine != 0 ==>
          x == (i % MaxSpritesPerLine) * SpriteWidth && y == (i / MaxSpritesPerLine) * spriteHeight
        invariant i % MaxSpritesPerLine == 0 ==> y == (i / MaxSpritesPerLine - 1) * spriteHeight
        invariant forall j :: 0 <= j < i ==> sprites[j] == GridSprite(j, spriteHeight)
      {
        if i % MaxSpritesPerLine == 0 {
          y := y + spriteHeight;
          x := 0;
        }
        sprites[i] := sprites[i].(enabled := true, x := x, y := y, height := spriteHeight,
                                  dataPtr := CalcSpritePtr(i % NumSpriteImages, spriteHeight));
        x := x + SpriteWidth;
        GridStep(i, spriteHeight);
        i := i + 1;
      }
      assert sprites[..] == GridSprites(spriteHeight);
      assert GridLayout(sprites[..], spriteHeight);
    }

    /** `draw_line` of the fourth variant: white top and bottom rows with no
        sprites; otherwise the band, the sprites over it, then the border. */
    method DrawLine(lineY: int, lineBuffer: array<int>, curActiveSprites: array<ActiveSprite>)
      requires Valid() && 0 <= lineY < ScreenHeight
      requires lineBuffer.Length == ScreenWidth && curActiveSprites.Length == MaxSpritesPerLine
      requires ActiveRowsReadable(ActiveList(sprites[..], lineY), 0, spriteData)
      modifies lineBuffer, curActiveSprites
      ensures lineBuffer[..] == FourthLine(lineY, startColourVal, sprites[..], spriteData)
    {
      if lineY == 0 || lineY == 239 {
        FillLine(lineBuffer, White);
        return;
      }
      FillLine(lineBuffer, GradientPixel(lineY, startColourVal));
      assert lineBuffer[..] == BandLine(lineY, startColourVal);
      U16InRange(lineY + 0);
      DrawSpritesLine(lineY, lineBuffer, sprites[..], 0, 0, spriteData, curActiveSprites);
      ghost var drawn := lineBuffer[..];
      lineBuffer[0] := White;
      lineBuffer[319] := White;
      assert lineBuffer[..] == Bordered(drawn);
    }

    /** `end_of_frame` of the fourth variant: the colour step, then every
        sprite shows image (i + anim_offset / 16) mod 72. */
    method EndOfFrame()
      requires Valid()
      modifies this, sprites
      ensures Valid()
      ensures ColourState(startColourVal, startColourValInc) == ColourStep(old(ColourState(startColourVal, startColourValInc)))
      ensures animOffset == old(animOffset) + 1
      ensures forall i :: 0 <= i < NumSprites ==>
        sprites[i] == old(sprites[i]).(dataPtr := CalcSpritePtr(AnimImage(i, animOffset), spriteHeight))
      ensures GridLayout(old(sprites[..]), spriteHeight) ==> GridLayout(sprites[..], spriteHeight)
    {
      ColourStepKeepsRange(ColourState(startColourVal, startColourValInc));
      if startColourValInc {
        startColourVal := startColourVal + 1;
      } else {
        startColourVal := startColourVal - 1;
      }

      if startColourVal == 0 {
        startColourValInc := true;
      } else if startColourVal == 31 {
        startColourValInc := false;
      }

      animOffset := animOffset + 1;
      var i := 0;
      while i < NumSprites
        modifies sprites
        invariant 0 <= i <= NumSprites
        invariant forall j :: 0 <= j < i ==>
          sprites[j] == old(sprites[j]).(dataPtr := CalcSpritePtr(AnimImage(j, animOffset), spriteHeight))
        invariant forall j :: i <= j < NumSprites ==> sprites[j] == old(sprites[j])
      {
        sprites[i] := sprites[i].(dataPtr := CalcSpritePtr((i + animOffset / 16) % NumSpriteImages, spriteHeight));
        i := i + 1;
      }
    }
  }

  /** The running x and y of `setup_sprites` after sprite i. */
  lemma GridStep(i: nat, h: int)
    ensures (i + 1) % MaxSpritesPerLine != 0 ==>
      (i + 1) % MaxSpritesPerLine == i % MaxSpritesPerLine + 1 && (i + 1) / MaxSpritesPerLine == i / MaxSpritesPerLine
    ensures (i + 1) % MaxSpritesPerLine == 0 ==> (i + 1) / MaxSpritesPerLine - 1 == i / MaxSpritesPerLine
    ensures i % MaxSpritesPerLine == 0 ==> (i / MaxSpritesPerLine - 1) * h + h == (i / MaxSpritesPerLine) * h
  {
  }

  /** The line the fourth variant draws. */
  function FourthLine(lineY: int, startColourVal: int, sprites: seq<SpriteInfo>, spriteData: seq<int>): seq<int>
    requires 0 <= lineY && 0 <= startColourVal
    requires ActiveRowsReadable(ActiveList(sprites, lineY), 0, spriteData)
  {
    if IsBorderRow(lineY) then WhiteLine()
    else Bordered(Composite(BandLine(lineY, startColourVal), ActiveList(sprites, lineY), 0, spriteData))
  }

  /** Border pixels are white whatever sprites cover them, and an
      unscrolled sprite row covers exactly [x, min(x + 16, 320)). */
  lemma FourthLineBorder(lineY: int, startColourVal: int, sprites: seq<SpriteInfo>, spriteData: seq<int>)
    requires 0 <= lineY && 0 <= startColourVal
    requires ActiveRowsReadable(ActiveList(sprites, lineY), 0, spriteData)
    ensures |FourthLine(lineY, startColourVal, sprites, spriteData)| == ScreenWidth
    ensures FourthLine(lineY, startColourVal, sprites, spriteData)[0] == White
    ensures FourthLine(lineY, startColourVal, sprites, spriteData)[ScreenWidth - 1] == White
    ensures IsBorderRow(lineY) ==> FourthLine(lineY, startColourVal, sprites, spriteData) == WhiteLine()
  {
  }

  /** With no scroll an active sprite never starts left of the screen: the
      clipping branch for a negative x cannot be taken, and the sprite
      covers from its own x up to the right edge or x + 16. */
  lemma UnscrolledSpriteCovers(sprite: SpriteInfo, lineY: int, p: int)
    ensures CalcActiveSpriteInfo(sprite, lineY).x - 0 >= 0
    ensures var x := CalcActiveSpriteInfo(sprite, lineY).x;
      Covers(x - 0, p) <==> x <= p < (if x + SpriteWidth < ScreenWidth then x + SpriteWidth else ScreenWidth)
  {
  }
}
