/** The sprite converter: it cuts a sprite sheet into equal sprites and
    writes their pixels, sprite after sprite, into a C header whose layout
    the sprite drawing code indexes directly. */
module SpriteData {
  import opened AssetImage
  import VgaSprites

  datatype Spritesheet = Spritesheet(
    image: Image,
    spriteWidth: nat,
    spriteHeight: nat,
    width: nat,
    height: nat)

  /** `load_spritesheet` returns the sheet or None; a sprite size of 0
      makes its `%` raise ZeroDivisionError. */
  datatype SheetResult = SheetLoaded(sheet: Spritesheet) | SheetNone | SheetRaised(error: PyError)

  function LoadSpritesheet(img: Image, sw: nat, sh: nat): (r: SheetResult)
    ensures r.SheetLoaded? <==> sw > 0 && sh > 0 && img.width % sw == 0 && img.height % sh == 0
    ensures r.SheetRaised? <==> sw == 0 || (img.width % sw == 0 && sh == 0)
    ensures r.SheetLoaded? ==>
      && r.sheet.width * sw == img.width && r.sheet.height * sh == img.height
      && r.sheet.spriteWidth == sw && r.sheet.spriteHeight == sh && r.sheet.image == img
  {
    if sw == 0 then SheetRaised(ZeroDivisionError)
    else if img.width % sw != 0 then SheetNone
    else if sh == 0 then SheetRaised(ZeroDivisionError)
    else if img.height % sh != 0 then SheetNone
    else SheetLoaded(Spritesheet(img, sw, sh, img.width / sw, img.height / sh))
  }

  /** Pixel (x, y) of `get_sprite_image(sprite, sheet)`. */
  function SpritePixel(sheet: Spritesheet, sprite: nat, x: nat, y: nat): Rgb
    requires sheet.width > 0
  {
    var o := CellOrigin(sprite, sheet.width, sheet.spriteWidth, sheet.spriteHeight);
    PixelAt(sheet.image, o.0 + x, o.1 + y)
  }

  /** Sprite s's origin is ((s % w)*sw, (s / w)*sh); the sprites of a
      loaded sheet lie inside the image and no two share an origin. */
  lemma SpriteOrigins(sheet: Spritesheet, s: nat, s': nat)
    requires sheet.width > 0 && sheet.spriteWidth > 0 && sheet.spriteHeight > 0
    requires s < sheet.width * sheet.height && s' < sheet.width * sheet.height
    ensures CellOrigin(s, sheet.width, sheet.spriteWidth, sheet.spriteHeight)
         == ((s % sheet.width) * sheet.spriteWidth, (s / sheet.width) * sheet.spriteHeight)
    ensures CellOrigin(s, sheet.width, sheet.spriteWidth, sheet.spriteHeight).0 + sheet.spriteWidth
         <= sheet.width * sheet.spriteWidth
    ensures CellOrigin(s, sheet.width, sheet.spriteWidth, sheet.spriteHeight).1 + sheet.spriteHeight
         <= sheet.height * sheet.spriteHeight
    ensures (CellOrigin(s, sheet.width, sheet.spriteWidth, sheet.spriteHeight)
             == CellOrigin(s', sheet.width, sheet.spriteWidth, sheet.spriteHeight)) <==> s == s'
  {
    CellOriginLayout(s, s', sheet.width, sheet.height, sheet.spriteWidth, sheet.spriteHeight);
  }

  /** The pixel values the sprite header lists. */
  function SpriteValues(sheet: Spritesheet): (vs: seq<nat>)
    ensures Words(vs)
  {
    if sheet.width == 0 then []
    else SheetValues(sheet.image, sheet.width, sheet.width * sheet.height, sheet.spriteWidth, sheet.spriteHeight)
  }

  /** The header's declarations up to the opening of the data array. */
  function SheetPreamble(sheet: Spritesheet, name: string): string {
    "int num_" + name + " = " + Decimal(sheet.width * sheet.height) + ";\n"
      + "int " + name + "_height = " + Decimal(sheet.spriteHeight) + ";\n\n"
      + ArrayDecl("uint16_t", name + "_data")
  }

  function SpritesheetHeader(sheet: Spritesheet, name: string): string {
    SheetPreamble(sheet, name) + Lines(SpriteValues(sheet)) + "};"
  }

  /** `spritesheet_to_c_header`. */
  method SpritesheetToCHeader(sheet: Spritesheet, name: string) returns (text: string)
    ensures text == SpritesheetHeader(sheet, name)
  {
    var numSprites := sheet.width * sheet.height;
    text := "int num_" + name + " = " + Decimal(numSprites) + ";\n";
    text := text + "int " + name + "_height = " + Decimal(sheet.spriteHeight) + ";\n\n";
    text := text + "uint16_t " + name + "_data[] = {\n";
    assert text == SheetPreamble(sheet, name);
    if sheet.width > 0 {
      var body := WriteSheetToCHeader(sheet.image, sheet.width, numSprites, sheet.spriteWidth, sheet.spriteHeight);
      text := text + body;
    } else {
      text := text + Lines([]);
    }
    text := text + "};";
  }

  /** The header holds sw*sh values per sprite; value s*sw*sh + row*sw + col
      is pixel (col, row) of sprite s. For 16-pixel-wide sprites that is
      the offset `calc_sprite_ptr(s) + row * 16 + col` the drawing code
      reads. */
  lemma SpriteHeaderLayout(sheet: Spritesheet, s: nat, row: nat, col: nat)
    requires sheet.width > 0 && s < sheet.width * sheet.height
    requires row < sheet.spriteHeight && col < sheet.spriteWidth
    ensures |SpriteValues(sheet)| == sheet.width * sheet.height * (sheet.spriteWidth * sheet.spriteHeight)
    ensures CellIndex(s, row, col, sheet.spriteWidth, sheet.spriteHeight) < |SpriteValues(sheet)|
    ensures SpriteValues(sheet)[CellIndex(s, row, col, sheet.spriteWidth, sheet.spriteHeight)]
         == Rgb555(SpritePixel(sheet, s, col, row))
    ensures sheet.spriteWidth == VgaSprites.SpriteWidth ==>
      VgaSprites.CalcSpritePtr(s, sheet.spriteHeight) + row * VgaSprites.SpriteWidth + col
        == CellIndex(s, row, col, sheet.spriteWidth, sheet.spriteHeight)
  {
    var sw, sh := sheet.spriteWidth, sheet.spriteHeight;
    assert SpriteValues(sheet) == SheetValues(sheet.image, sheet.width, sheet.width * sheet.height, sw, sh);
    SheetValuesAt(sheet.image, sheet.width, sheet.width * sheet.height, sw, sh, s, row, col);
    if sw == VgaSprites.SpriteWidth {
      assert VgaSprites.CalcSpritePtr(s, sh) == s * (sw * sh);
    }
  }

  /** Pure magenta (and every colour that rounds to it in five bits per
      channel) packs to the word the sprite drawer treats as transparent,
      and no other colour does. */
  lemma TransparentIsMagenta(c: Rgb)
    ensures Rgb555(c) == VgaSprites.TransparentColour <==> c.r >= 248 && c.g < 8 && c.b >= 248
    ensures Rgb555(Rgb(255, 0, 255)) == VgaSprites.TransparentColour
  {
    Rgb555SameWord(c, Rgb(255, 0, 255));
  }

  /** The script's sheet is cut into 16 x 18 sprites and written as
      `sprite`. */
  const CharSpriteWidth: nat := 16
  const CharSpriteHeight: nat := 18

  /** The script's own call: the sheet cut into 16 x 18 sprites, the size
      the drawing code's `SPRITE_WIDTH` expects. */
  function LoadCharSheet(img: Image): (r: SheetResult)
    ensures r.SheetLoaded? ==> r.sheet.spriteWidth == VgaSprites.SpriteWidth && r.sheet.spriteHeight == 18
    ensures r.SheetLoaded? <==> img.width % 16 == 0 && img.height % 18 == 0
  {
    LoadSpritesheet(img, CharSpriteWidth, CharSpriteHeight)
  }
}
