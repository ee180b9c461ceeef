# pico-stuff core, modelled in Dafny

This project models the core of GregAC/pico-stuff, a set of Raspberry Pi
Pico experiments, and proves properties of that model. It covers:

- **The PIO/DMA VGA engine**, in its five versions.
  - The sync and line-timing command words.
  - The 525-line sync sequencer.
  - The line-DMA double-buffering that turns 480 display lines into 240 drawn rows.
  - The consumer loop that samples and clears the "new line" and "new frame" flags.
  - The drawing code: tilemap lines with scrolling, the sprite engine (active-sprite selection with a 20-per-line cap, transparent compositing in draw order), the walking entities, the bouncing scroll and the gradient background.
- **The logic-analyser capture dump** shared by the first VGA version and the PIO test program (`print_capture_buf`).
- **The PIO test program's fixed timing buffer.**
- **The PWM fade table** built by `fill_pwm_data`.
- **The interrupt-driven PWM audio player** (`pwm_irh`).
- **The two asset converters** written in Python:
  - `make_tilemap_data.py`: CSV tilemap loading, tileset loading, map rendering, and the C-header writers.
  - `make_sprite_data.py`: sprite-sheet loading and the C-header writer.

Each module follows one part of the program:

| module | part of the program |
|---|---|
| `VgaTiming` | sync buffers and the sync half of `dma_irh` (third to fifth versions) |
| `VgaLines` | line half of `dma_irh` and the sample-and-clear step of `video_loop` |
| `VgaTilemap` | `draw_tilemap_line` |
| `VgaSprites` | the sprite engine |
| `VgaEntities` | entities, scrolling and the fifth version's `draw_line` and `end_of_frame` |
| `VgaGradient` | the third and fourth versions' `draw_line` and `end_of_frame` |
| `VgaSecond` | the second version's buffers and handler |
| `VgaFirst` | the first version's buffers and the PIO test's timing buffer |
| `Capture` | the logic-analyser dump |
| `PwmFade` | `fill_pwm_data` |
| `PwmAudio` | `pwm_irh` and its set-up |
| `AssetImage` | the image, pixel-format and text layer shared by the converters |
| `TilemapData` | `make_tilemap_data.py` |
| `SpriteData` | `make_sprite_data.py` |

How the source's forms map to Dafny:

- **Mutable state.** State the C code updates in place is a `class`: the sequencers, the line swapper, the audio player and the screens.
- **Buffers and sprite tables.** Fixed-size buffers and sprite tables are `array`s.
- **Pointers.** A pointer into pixel or sprite data is an integer offset into a `seq<int>`.
- **C integer arithmetic.**
  - Unsigned conversions are written as Euclidean `%` on 2^16 or 2^32.
  - C's truncating `/` on a possibly negative display line is written out explicitly (`VgaLines.CDiv`).
- **Python.** The converters are pure functions over an `Image` value: its width, height and rows of RGB triples. Each file write becomes the text the script appends, returned as a string.
- **Python exceptions.** A Python exception is a result value.
  - `IndexError` for an empty CSV.
  - `NameError` where the script refers to an undefined name.
  - `ZeroDivisionError` for a zero sprite size.

Where the code and its comments disagree, the model follows the code:

- **The visible-line range.** The fifth version's sync handler comment describes lines 2-34 as back porch. The code switches to the visible-line buffer at 32 and carries three dummy lines. `VgaTiming.PatternRanges` states the coded ranges.
- **The PWM slice count.** `pwm_dma_loop_sequence.c` defines `NUM_PWM_SLICE 8` but indexes with `NUM_PWM_SLICES`, the SDK's slice count. The table is laid out for 8 slices, which both names give on the RP2040.

## Model

| member | source | states |
|---|---|---|
| VgaTiming.SyncWordFields | pio_vga/pio_vga_fifth.c:43-79 | a sync command word packs the side instruction in its top 16 bits, the delay from bit 2 and vsync/hsync in bits 1/0, and each field decodes back unchanged |
| VgaTiming.BufferWords | pio_vga/pio_vga_fifth.c:43-79 | each sync buffer holds exactly four command words |
| VgaTiming.SetupLineTimingBuffers | pio_vga/pio_vga_fifth.c:43-79 | the visible, porch and vsync buffers are filled with their four command words each |
| VgaTiming.BufferWordLayout | pio_vga/pio_vga_fifth.c:43-79 | in every buffer the delays are 474, 223, 3205, 74; hsync is low only in phase 0; vsync is low only in the sync buffer; only the visible buffer's phase 2 raises `irq 4` |
| VgaTiming.PatternRanges | pio_vga/pio_vga_fifth.c:93-107 | timing lines 0-1 stream the vsync buffer, 2-31 and 515-524 the porch buffer, 32-514 the visible buffer, as an if-and-only-if for each |
| VgaTiming.VisibleLinesBelowClosedForm | pio_vga/pio_vga_fifth.c:93-107 | the number of visible-buffer lines before timing line n, in closed form |
| VgaTiming.VisibleLinesPerFrame | pio_vga/pio_vga_fifth.c:93-107 | a 525-line frame streams 483 visible-timing lines: 480 display lines plus the 3 dummy lines |
| VgaTiming.AdvanceTimingIsModular | pio_vga/pio_vga_fifth.c:85-89 | n sync completions move the timing line by n modulo 525 |
| VgaTiming.TimingPeriod | pio_vga/pio_vga_fifth.c:85-89 | the timing line first returns to where it was after exactly 525 completions |
| VgaTiming.TimingSequencer.constructor | pio_vga/pio_vga_fifth.c:260-269 | set-up starts at timing line 0 with the vsync buffer selected |
| VgaTiming.TimingSequencer.OnSyncComplete | pio_vga/pio_vga_fifth.c:81-108 | the sync handler advances the timing line modulo 525 and keeps the selected buffer equal to the pattern for the new line |
| VgaLines.CompletionConsistent | pio_vga/pio_vga_fifth.c:110-157 | a line-DMA completion preserves the handler's state invariant (display line range, source choice, read increment, requested row) |
| VgaLines.CompletionSignals | pio_vga/pio_vga_fifth.c:113-140 | line 479 raises new_frame and wraps to -3; other lines advance by one; a new row is requested only on even lines; line 478 requests nothing; the row requested is line/2+1 |
| VgaLines.RunWithinFrame | pio_vga/pio_vga_fifth.c:110-157 | within a frame, k completions each served by the loop advance the line by k, issue exactly the draw requests due on those lines, and raise no new frame |
| VgaLines.FrameRunState | pio_vga/pio_vga_fifth.c:110-157 | the state part of RunWithinFrame: k completions keep the invariant, move the line by k and signal no frame |
| VgaLines.ServedWithinFrame | pio_vga/pio_vga_fifth.c:110-157 | one completion followed by one loop pass issues exactly the request due at the new line |
| VgaLines.RequestsTail | pio_vga/pio_vga_fifth.c:133-140 | from display line 2j-3 to the end of the frame the requests are rows j..239, in order, each to its parity's buffer |
| VgaLines.FrameCycle | pio_vga/pio_vga_fifth.c:110-157 | from any frame start, 483 completions request rows 0..239 once each, in order, each into its parity's buffer; they raise new_frame exactly once, on the last completion, and return to the frame-start state |
| VgaLines.FrameLastCompletion | pio_vga/pio_vga_fifth.c:113-127 | the completion of line 479 adds no request and one new-frame signal |
| VgaLines.FrameEndState | pio_vga/pio_vga_fifth.c:113-127 | five completions from line 475 bring the handler back to the frame-start state |
| VgaLines.LastCompletion | pio_vga/pio_vga_fifth.c:113-127 | the last completion of a frame requests nothing and signals the frame once |
| VgaLines.FinalLines | pio_vga/pio_vga_fifth.c:113-140 | lines 475..479 end in the frame-start state |
| VgaLines.FinalApproach | pio_vga/pio_vga_fifth.c:130-156 | the completion of line 475 leaves row 239 requested and served, streaming the odd buffer |
| VgaLines.FinalFourLines | pio_vga/pio_vga_fifth.c:113-156 | from line 476 four completions reach the frame-start state |
| VgaLines.RunSplit | pio_vga/pio_vga_fifth.c:110-157 | a run of m+n completions is a run of m followed by a run of n, with requests and frame signals concatenated |
| VgaLines.DrawTargetNotStreaming | pio_vga/pio_vga_fifth.c:133-156 | row r is requested two display lines before its buffer is streamed, while the other buffer is on the wire; r is then shown on lines 2r and 2r+1 from that buffer |
| VgaLines.CompletionsMatchVisibleLines | pio_vga/pio_vga_fifth.c:113-127 | the line handler's 483 completions per frame (-3..479) match the 483 visible-timing lines of the sync sequencer |
| VgaLines.LineSwapper.constructor | pio_vga/pio_vga_fifth.c:260-269 | set-up starts at display line -3 with the zero word streamed and no flag raised |
| VgaLines.LineSwapper.OnLineComplete | pio_vga/pio_vga_fifth.c:110-157 | the line handler performs one modelled completion and keeps the invariant |
| VgaLines.LineSwapper.SampleAndClear | pio_vga/pio_vga_fifth.c:282-315 | the loop reads and clears both flags; when a row is requested it is drawn into the odd buffer exactly when the row is odd, and that is the request the handler made |
| VgaTilemap.TileLineLayout | pio_vga/pio_vga_fifth.c:475-477 | pixel (x, y) of tile t sits in t's 256-word block, and distinct (tile, row, column) triples map to distinct words |
| VgaTilemap.Memcpy | pio_vga/pio_vga_fifth.c:508-524 | the copied window equals the source range; every other word is unchanged |
| VgaTilemap.BlockColumns | pio_vga/pio_vga_fifth.c:487-524 | the m-th column of the tile-th copied block is map column xScroll/16+tile, tile column m |
| VgaTilemap.BlockShowsMap | pio_vga/pio_vga_fifth.c:487-524 | a block copied from the tile's row shows the scrolled map pixel at every covered screen column |
| VgaTilemap.DrawTilemapLine | pio_vga/pio_vga_fifth.c:480-527 | every pixel of the line is the tileset pixel under the scrolled screen position, including the partial first and last tiles |
| VgaTilemap.ScrolledReadsInsideMap | pio_vga/pio_vga_fifth.c:480-527 | with scroll within the map's limit, every screen pixel reads a tile inside the map |
| VgaTilemap.UnscrolledLineIsWholeTiles | pio_vga/pio_vga_fifth.c:487-506 | without horizontal scroll, screen column i shows tile i/16, column i%16 of the map row |
| VgaTilemap.ScrolledLineTileWidths | pio_vga/pio_vga_fifth.c:487-524 | with a partial scroll the first tile shows 16-xScroll%16 columns and the extra 21st tile the last xScroll%16 |
| VgaSprites.SpritePixelLayout | pio_vga/pio_vga_fifth.c:536-540 | row/column offsets from calc_sprite_ptr(i) stay inside sprite i's block and no two sprite pixels share a word |
| VgaSprites.InitSprites | pio_vga/pio_vga_fifth.c:349-353 | every sprite is disabled and otherwise unchanged |
| VgaSprites.OnLineIsInterval | pio_vga/pio_vga_fifth.c:365-367 | with coordinates in range, the 16-bit test is exactly y <= line < y+height |
| VgaSprites.CalcActiveSpriteInfo | pio_vga/pio_vga_fifth.c:369-376 | the active x is the 16-bit screen x, and line_data points (line-y)*16 words into the sprite |
| VgaSprites.ActiveList | pio_vga/pio_vga_fifth.c:378-395 | one active entry per selected slot |
| VgaSprites.EligibleBelowFacts | pio_vga/pio_vga_fifth.c:378-395 | the eligible slots below i are exactly the enabled on-line sprites below i, in increasing order |
| VgaSprites.EligibleBelowPrefix | pio_vga/pio_vga_fifth.c:378-395 | scanning further only appends eligible slots |
| VgaSprites.ActiveSlotsAreFirstEligible | pio_vga/pio_vga_fifth.c:378-395 | at most 20 sprites are active, all eligible and in slot order; an eligible sprite is left out only when 20 earlier ones were taken |
| VgaSprites.ScanStep | pio_vga/pio_vga_fifth.c:384-393 | one scan step appends the sprite's active info exactly when it is enabled and on the line |
| VgaSprites.DetermineActiveSprites | pio_vga/pio_vga_fifth.c:378-395 | the method fills the first count entries with the first (at most 20) eligible sprites and returns that count |
| VgaSprites.ActiveListIs | pio_vga/pio_vga_fifth.c:378-395 | the scan's stopping point (cap reached or all slots seen) yields exactly the specified active list |
| VgaSprites.Painted | pio_vga/pio_vga_fifth.c:397-428 | painting one sprite row keeps the 320-pixel line length |
| VgaSprites.DrawSpriteToLine | pio_vga/pio_vga_fifth.c:397-428 | the buffer after drawing is the painted line |
| VgaSprites.PaintedPixel | pio_vga/pio_vga_fifth.c:397-428 | the sprite covers the clipped 16-pixel window; an uncovered or transparent (0x7c1f) pixel keeps the background; an opaque one shows the sprite word |
| VgaSprites.Composite | pio_vga/pio_vga_fifth.c:431-440 | compositing keeps the 320-pixel line length |
| VgaSprites.CompositeShowsFrontmost | pio_vga/pio_vga_fifth.c:431-440 | each pixel shows the first active sprite opaque there, or the background when none is |
| VgaSprites.DrawSpritesLine | pio_vga/pio_vga_fifth.c:431-440 | the line after drawing is the background with the selected sprites painted in slot order, at the scrolled line |
| VgaEntities.AnimIndex | pio_vga/pio_vga_fifth.c:543-558 | there are four walk animations |
| VgaEntities.CharImagesAreDistinct | pio_vga/pio_vga_fifth.c:543-558 | each character's animation frames lie in its own block of 12 images, and distinct (character, animation, frame) name distinct images |
| VgaEntities.EntityIdleBetweenUpdates | pio_vga/pio_vga_fifth.c:653-735 | entities change only on frames whose counter is a multiple of 4 |
| VgaEntities.EntityStepKeepsBounds | pio_vga/pio_vga_fifth.c:653-735 | a valid entity moves one pixel along its axis and stays within its bounds; it turns round with frame 0 at a bound and otherwise steps its walk frame every 8 frames; its sprite shows the animation for its direction |
| VgaEntities.ProcessEntityAt | pio_vga/pio_vga_fifth.c:653-735 | processing one entity keeps the entity and sprite table sizes |
| VgaEntities.ProcessEntitiesFrom | pio_vga/pio_vga_fifth.c:738-744 | processing the remaining entities keeps every sprite slot in range |
| VgaEntities.ProcessEntityKeepsWorldValid | pio_vga/pio_vga_fifth.c:653-735 | processing an active entity preserves the world invariant |
| VgaEntities.ProcessEntitiesKeepsWorldValid | pio_vga/pio_vga_fifth.c:738-744 | processing all entities preserves the world invariant, advances the frame counter once per active entity, and changes no entity's activity |
| VgaEntities.ActiveCountAgrees | pio_vga/pio_vga_fifth.c:738-744 | the active count depends only on which entities are active |
| VgaEntities.BounceStaysInRange | pio_vga/pio_vga_fifth.c:775-785 | with room to move, the scroll stays in 0..limit, moves one pixel, and reverses exactly at the ends |
| VgaEntities.BounceRunsAway | pio_vga/pio_vga_fifth.c:775-785 | on a map no larger than the screen (limit -1 or less, e.g. 20 tiles across) the scroll never turns: after n frames from 0 it is n, heading up, past the end of the map |
| VgaEntities.InitialEntityValid | pio_vga/pio_vga_fifth.c:602-635 | a freshly set-up moving entity is valid exactly when its upper tile lies beyond its start tile |
| VgaEntities.SetupWorldValid | pio_vga/pio_vga_fifth.c:637-651 | the entities set up at start form a valid world |
| VgaEntities.Scene.constructor | pio_vga/pio_vga_fifth.c:749-756 | the scene starts with zeroed tables, zero scroll and increasing directions, and the tilemap set up |
| VgaEntities.Scene.SetupEntity | pio_vga/pio_vga_fifth.c:602-635 | exactly the given entity slot and sprite slot are set to their initial values |
| VgaEntities.Scene.SetupEntities | pio_vga/pio_vga_fifth.c:637-651 | the seven entities and their sprites are set up from their table; the other sprites stay disabled and the world is valid |
| VgaEntities.SetupScene | pio_vga/pio_vga_fifth.c:805-812 | `main`'s set-up (initial globals, `setup_entities`, `setup_tilemap`) leaves a valid scene whenever the map has room to bounce on both axes, with the map at scroll 0 and the unused sprites disabled |
| VgaEntities.Scene.ProcessEntity | pio_vga/pio_vga_fifth.c:653-735 | the world after the call is the specified one-entity step; scroll state is untouched |
| VgaEntities.Scene.ProcessEntities | pio_vga/pio_vga_fifth.c:738-744 | the world after the call is the specified all-entity step |
| VgaEntities.Scene.DrawLine | pio_vga/pio_vga_fifth.c:758-762 | the line is the scrolled tilemap row with the active sprites composited on top at the scrolled sprite line |
| VgaEntities.Scene.EndOfFrame | pio_vga/pio_vga_fifth.c:767-803 | the frame step processes the entities, bounces both scroll axes and moves the sprite scroll by the same amount, keeping the scene invariant |
| VgaEntities.Scene.ScrollStep | pio_vga/pio_vga_fifth.c:775-801 | both axes take one bounce step and the sprite scroll follows the tilemap scroll |
| VgaEntities.TilemapRow | pio_vga/pio_vga_fifth.c:480-527 | a drawn tilemap row is a full 320-pixel line |
| VgaGradient.EncodeRgbFields | pio_vga/pio_vga_third.c:309 | ENCODE_RGB keeps the low five bits of each channel in bits 0-4, 5-9 and 10-14 |
| VgaGradient.EncodeRgbInjective | pio_vga/pio_vga_third.c:309 | on 5-bit channels ENCODE_RGB is injective |
| VgaGradient.GradientPixelChannel | pio_vga/pio_vga_third.c:314-348 | a gradient pixel lights only the band's channel (red, green, blue by 32-line band) at (line+start)%32 |
| VgaGradient.ThirdLinePixels | pio_vga/pio_vga_third.c:314-348 | rows 0 and 239 and columns 0 and 319 are white; every other pixel is the row's gradient colour |
| VgaGradient.ColourStepKeepsRange | pio_vga/pio_vga_third.c:350-363 | the start colour stays in 0..31, moves by one, and reverses exactly at 0 and 31 |
| VgaGradient.ColourCycle | pio_vga/pio_vga_third.c:350-363 | from (0, rising) the start colour after n frames is the triangle wave of period 62 |
| VgaGradient.GradientScreen.constructor | pio_vga/pio_vga_third.c:311-312 | the start colour begins at 0, rising |
| VgaGradient.GradientScreen.DrawLine | pio_vga/pio_vga_third.c:314-348 | the drawn line is the specified bordered gradient line |
| VgaGradient.GradientScreen.EndOfFrame | pio_vga/pio_vga_third.c:350-363 | the colour state takes one step |
| VgaGradient.FillLine | pio_vga/pio_vga_third.c:314-342 | the line is filled with one colour |
| VgaGradient.AnimImageCycle | pio_vga/pio_vga_fourth.c:525-528 | sprite i starts on image i%N and advances one image every 16 frames |
| VgaGradient.GridEligibleRow | pio_vga/pio_vga_fourth.c:442-460 | a grid sprite is on line y only if its grid row is y/height |
| VgaGradient.IncreasingInWindow | pio_vga/pio_vga_fourth.c:373-390 | a strictly increasing sequence inside a window of n values has at most n entries |
| VgaGradient.GridCapDropsNothing | pio_vga/pio_vga_fourth.c:373-390 | in any pool laid out as the grid (on any frame, whatever images the sprites show) at most 20 sprites meet a line, so the 20-per-line cap drops none |
| VgaGradient.SpriteGridScreen.constructor | pio_vga/pio_vga_fourth.c:442-460 | colour and animation state start at zero |
| VgaGradient.SpriteGridScreen.SetupSprites | pio_vga/pio_vga_fourth.c:442-460 | sprite i sits at column i%20, row i/20 of the grid (x = 16·(i%20), y = height·(i/20)), enabled, with image i%72; the pool has the grid layout |
| VgaGradient.SpriteGridScreen.DrawLine | pio_vga/pio_vga_fourth.c:468-504 | the line is the gradient, then the sprites, then the white border |
| VgaGradient.SpriteGridScreen.EndOfFrame | pio_vga/pio_vga_fourth.c:506-529 | the colour steps, the animation counter advances, and every sprite points at its animation image; nothing else about a sprite changes, so the grid layout is kept |
| VgaGradient.GridStep | pio_vga/pio_vga_fourth.c:442-460 | consecutive grid slots move one column right or wrap to the next row |
| VgaGradient.FourthLineBorder | pio_vga/pio_vga_fourth.c:499-503 | the border is drawn over the sprites: columns 0 and 319 and rows 0 and 239 are white |
| VgaGradient.UnscrolledSpriteCovers | pio_vga/pio_vga_fourth.c:392-419 | without scroll a sprite covers x..x+15, clipped at the right edge |
| VgaSecond.PatternRanges | pio_vga/pio_vga_second.c:87-112 | the second version streams vsync on lines 0-1, porch on 2-34 and 515-524, visible on 35-514 |
| VgaSecond.VisibleLinesBelowClosedForm | pio_vga/pio_vga_second.c:87-112 | the number of visible lines before timing line n, in closed form |
| VgaSecond.VisibleLinesPerFrame | pio_vga/pio_vga_second.c:87-112 | a frame carries exactly the 480 display lines |
| VgaSecond.LineDataIsBorder | pio_vga/pio_vga_second.c:114-134 | display lines 0, 1, 478, 479 (rows 0 and 239) stream the white line, all others the pattern |
| VgaSecond.AdvanceDisplayIsModular | pio_vga/pio_vga_second.c:116-120 | n completions move the display line by n modulo 480 |
| VgaSecond.DisplayPeriod | pio_vga/pio_vga_second.c:116-120 | the display line first returns after exactly 480 completions |
| VgaSecond.PatternLinePixels | pio_vga/pio_vga_second.c:61-78 | the pattern line shows red, green, blue, black repeating, with white first and last pixels |
| VgaSecond.WhiteLinePixels | pio_vga/pio_vga_second.c:61-78 | every pixel of the white line is white |
| VgaSecond.SetupLineDataBuffers | pio_vga/pio_vga_second.c:61-78 | both 160-word buffers are filled with the specified pixel pairs |
| VgaSecond.SecondVideo.constructor | pio_vga/pio_vga_second.c:84-85 | both counters start at 0 |
| VgaSecond.SecondVideo.OnSyncComplete | pio_vga/pio_vga_second.c:87-112 | the timing line advances modulo 525 and selects its pattern; the line state is untouched |
| VgaSecond.SecondVideo.OnLineComplete | pio_vga/pio_vga_second.c:114-134 | the display line advances modulo 480 and selects its line data; the sync state is untouched |
| VgaFirst.FirstTimingWords | pio_vga/pio_vga_first.c:16-33 | the first version's timing buffer has four words |
| VgaFirst.SetupFirstLineTimingBuffer | pio_vga/pio_vga_first.c:16-33 | the buffer holds the four specified words |
| VgaFirst.FirstTimingLayout | pio_vga/pio_vga_first.c:16-33 | delays 10, 15, 15, 100; hsync high in phases 0 and 2; vsync always low; only the last word raises `irq 4` |
| VgaFirst.SetupFirstLineDataBuffer | pio_vga/pio_vga_first.c:35-40 | word k holds k+1, the test pixels 1..40 |
| VgaFirst.PinCtrlTimingLayout | pio_test/pio_test.c:13-18 | the test's four words carry delays 4, 3, 8, 5 and pin pairs 1, 2, 3, 0, with no side instruction |
| Capture.CaptureWordsSuffice | pio_test/pio_test.c:114-118 | the declared buffer (pins*samples+31)/32 words holds every captured bit, with under a word to spare |
| Capture.BitsAt | pio_vga/pio_vga_first.c:108-109 | bit i of the capture stream is bit i%32 of word i/32 |
| Capture.ReadBit | pio_vga/pio_vga_first.c:108-109 | the C mask-and-shift read returns the stream bit at the index |
| Capture.PinAt | pio_vga/pio_vga_first.c:107 | the m-th printed pin is a real pin |
| Capture.PinsTextLayout | pio_vga/pio_vga_first.c:107-115 | the printed pins alternate digit and comma, with digit m giving pin m's level of the sample, and no trailing comma |
| Capture.SampleLineLayout | pio_vga/pio_vga_first.c:106-116 | each sample line is 2*pins characters: the pin digits, commas between them, and a newline |
| Capture.OrdersAreMirrored | pio_test/pio_test.c:80-88 | the test program's line lists the same digits as the first version's, in reverse pin order |
| Capture.SampleLinesLayout | pio_vga/pio_vga_first.c:106-116 | character j of sample s's line sits at s*width+j of the dump body |
| Capture.CaptureTextLayout | pio_vga/pio_vga_first.c:104-119 | the dump is the header, one line per sample, and the trailer |
| Capture.BitIndexIsBijective | pio_vga/pio_vga_first.c:108 | pin+sample*pins names each (sample, pin) pair once, and every captured bit belongs to one |
| Capture.SampleInBuffer | pio_vga/pio_vga_first.c:106-108 | every bit index read lies inside the buffer |
| Capture.PinsTextStep | pio_vga/pio_vga_first.c:107-115 | one pin iteration appends its digit and, unless it is the last pin, a comma |
| Capture.PrintCaptureBufDescending | pio_vga/pio_vga_first.c:104-119 | the printed text is the specified dump, pins from the highest down |
| Capture.PrintSampleDescending | pio_vga/pio_vga_first.c:107-116 | one sample's printed line, pins from the highest down |
| Capture.PrintCaptureBufAscending | pio_test/pio_test.c:76-93 | the printed text is the specified dump, pins from 0 up |
| Capture.PrintSampleAscending | pio_test/pio_test.c:80-89 | one sample's printed line, pins from 0 up |
| PwmFade.FadeLevelRange | pwm_dma/pwm_dma_loop_sequence.c:67-68 | the fade ramp is in 0..255 and symmetric: step f and step 511-f have the same level |
| PwmFade.LevelFits | pwm_dma/pwm_dma_loop_sequence.c:67-68 | the squared level is at most 65025, inside a 16-bit channel |
| PwmFade.HalvesDecode | pwm_dma/pwm_dma_loop_sequence.c:77-90 | a level in the low half, the high half, or both, reads back as exactly that level on channel A and channel B |
| PwmFade.PwmWordChannels | pwm_dma/pwm_dma_loop_sequence.c:70-90 | which DMA slots (the k-th word of a step) carry the level on channel A and on channel B in each half of the fade, all others 0 |
| PwmFade.SlotsCoverSlices | pwm_dma/pwm_dma_loop_sequence.c:50-59 | the eight DMA slots go to the eight PWM slices, each slice exactly once |
| PwmFade.SliceChannels | pwm_dma/pwm_dma_loop_sequence.c:50-90 | by real slice (slot k goes to slice `pwm_slices[k]`): rising, slices 0, 2, 4 on channel A and 4..7 on channel B; falling, slices 1..4 on channel A and 4, 6, 7 on channel B; all others 0 |
| PwmFade.EntryOwner | pwm_dma/pwm_dma_loop_sequence.c:63-71 | iteration fade writes entries fade*8..fade*8+7, exactly the entries i with i/8 == fade, all inside the table; every entry belongs to one of the 512 iterations |
| PwmFade.FillPwmData | pwm_dma/pwm_dma_loop_sequence.c:65-92 | entry fade*8+k holds that step's compare word for DMA slot k |
| PwmFade.SignedShiftOverflows | pwm_dma/pwm_dma_loop_sequence.c:77-89 | for fade steps 182..329 the level is at least 2^15, so the signed shift by 16 overflows |
| PwmFade.SignedShiftAgreesBelow | pwm_dma/pwm_dma_loop_sequence.c:77-89 | below 2^15 the signed shift is defined and equals the unsigned one |
| PwmAudio.LedBar | pwm_audio/pwm_audio_interrupt.c:32-60 | the meter has five LEDs |
| PwmAudio.LitCount | pwm_audio/pwm_audio_interrupt.c:32-60 | at most five LEDs are lit |
| PwmAudio.LedBarIsBar | pwm_audio/pwm_audio_interrupt.c:32-60 | LED k is lit exactly when the sample passes k thresholds |
| PwmAudio.LedBarMonotone | pwm_audio/pwm_audio_interrupt.c:32-60 | a lit LED implies every lower LED is lit, and a louder sample lights no fewer |
| PwmAudio.SampleAfterInPass | pwm_audio/pwm_audio_interrupt.c:62-66 | interrupt r of any pass finds the counter at r |
| PwmAudio.SampleAfterIsModular | pwm_audio/pwm_audio_interrupt.c:62-66 | after k interrupts the counter is k modulo 4*samples |
| PwmAudio.EachSampleFourTimes | pwm_audio/pwm_audio_interrupt.c:28-30 | sample j is played by interrupts 4j..4j+3 of every pass |
| PwmAudio.AudioPlayer.constructor | pwm_audio/pwm_audio_interrupt.c:72-94 | start-up lights all LEDs, sets level 0 and counter 0 |
| PwmAudio.AudioPlayer.PwmIrh | pwm_audio/pwm_audio_interrupt.c:26-67 | the handler outputs sample cur/4, shows it on the bar meter and advances the counter, wrapping at 4*samples |
| AssetImage.PixelAt | pio_vga/make_tilemap_data.py:47-52 | reading outside the image gives black, as a crop past the edge does |
| AssetImage.Rgb555 | pio_vga/make_tilemap_data.py:68-69 | a packed colour fits 15 bits |
| AssetImage.Rgb555Fields | pio_vga/make_sprite_data.py:27-28 | the converters' packing is ENCODE_RGB of the channels' top five bits |
| AssetImage.Rgb555SameWord | pio_vga/make_sprite_data.py:27-28 | two colours pack to the same word exactly when their channels agree in the top five bits |
| AssetImage.ConcatAppend | pio_vga/make_sprite_data.py:45-47 | writing a + b is writing a then b |
| AssetImage.ConcatLength | pio_vga/make_sprite_data.py:31-35 | n rows of w values give n*w values |
| AssetImage.ConcatRowAt | pio_vga/make_sprite_data.py:31-35 | row y of the written values is the slice at y*w |
| AssetImage.ConcatAt | pio_vga/make_sprite_data.py:31-35 | value (y, x) is at y*w+x |
| AssetImage.Hex4 | pio_vga/make_sprite_data.py:35 | a value below 2^16 prints as four hex digits |
| AssetImage.Hex4RoundTrip | pio_vga/make_sprite_data.py:35 | the four hex digits parse back to the value |
| AssetImage.HexLine | pio_vga/make_sprite_data.py:35 | each value line is 10 characters |
| AssetImage.ConcatWords | pio_vga/make_sprite_data.py:31-35 | concatenated rows of 16-bit values are still 16-bit values |
| AssetImage.LinesSnoc | pio_vga/make_sprite_data.py:35 | writing one more value appends its line |
| AssetImage.LinesAppend | pio_vga/make_sprite_data.py:45-47 | the lines of a + b are the lines of a then of b |
| AssetImage.LinesLayout | pio_vga/make_sprite_data.py:35 | value k's line is at 10k and reads back as the value |
| AssetImage.Decimal | pio_vga/make_sprite_data.py:41-42 | a number prints as at least one digit |
| AssetImage.DecimalRoundTrip | pio_vga/make_sprite_data.py:41-42 | the decimal text is all digits and reads back as the number |
| AssetImage.CellOriginLayout | pio_vga/make_sprite_data.py:20-25 | cell s's origin lies inside the sheet, and distinct cells have distinct origins |
| AssetImage.CellOriginInside | pio_vga/make_sprite_data.py:20-25 | every cell of the sheet lies inside it |
| AssetImage.CellOriginUnique | pio_vga/make_sprite_data.py:20-25 | no two cells share an origin |
| AssetImage.RowValues | pio_vga/make_sprite_data.py:32-35 | one cropped row gives cw 16-bit values |
| AssetImage.CropValues | pio_vga/make_sprite_data.py:30-35 | a cropped image gives 16-bit values |
| AssetImage.CropRowsSnoc | pio_vga/make_sprite_data.py:31-35 | one more row appends that row's values |
| AssetImage.CropValuesAt | pio_vga/make_sprite_data.py:30-35 | value row*cw+col of a crop is the packed pixel (col, row) of the crop |
| AssetImage.WriteImageToCHeader | pio_vga/make_sprite_data.py:30-35 | the written text is the crop's values, one line each, row by row |
| AssetImage.WriteRow | pio_vga/make_sprite_data.py:32-35 | one row's text is its values' lines |
| AssetImage.SheetValues | pio_vga/make_sprite_data.py:45-47 | the sheet's values are 16-bit |
| AssetImage.SheetRowsWidth | pio_vga/make_sprite_data.py:45-47 | each cell contributes cw*ch values |
| AssetImage.SheetRowsSnoc | pio_vga/make_sprite_data.py:45-47 | one more cell appends its crop's values |
| AssetImage.SheetValuesAt | pio_vga/make_sprite_data.py:45-47 | value s*cw*ch + row*cw + col is pixel (col, row) of cell s |
| AssetImage.WriteSheetToCHeader | pio_vga/make_sprite_data.py:45-47 | the written text is every cell's values, cell by cell |
| TilemapData.StripLeft | pio_vga/make_tilemap_data.py:22 | the result starts with no whitespace |
| TilemapData.StripRight | pio_vga/make_tilemap_data.py:22 | the result ends with no whitespace and keeps the start |
| TilemapData.Strip | pio_vga/make_tilemap_data.py:22 | the stripped cell has no whitespace at either end |
| TilemapData.CellRoundTrip | pio_vga/make_tilemap_data.py:22-26 | a printed tile number is accepted by the check and reads back as the number |
| TilemapData.LoadTilemapCsv | pio_vga/make_tilemap_data.py:8-30 | the loop's outcome is the specified one (loaded, None, or the exception) |
| TilemapData.FirstFaultMeans | pio_vga/make_tilemap_data.py:16-24 | the first faulty row is wrong-width or malformed, all earlier rows are well formed, and no fault means every row is |
| TilemapData.CsvLoadedIff | pio_vga/make_tilemap_data.py:8-30 | a map loads exactly when there is a row and every row has the first row's width and only digit cells |
| TilemapData.CsvLoadedLayout | pio_vga/make_tilemap_data.py:12-30 | the loaded map is width by height, and tile (x, y) at y*width+x is cell (x, y)'s number |
| TilemapData.CsvNoneMeans | pio_vga/make_tilemap_data.py:17-19 | None means some later row has the wrong width and all rows before it are well formed |
| TilemapData.CsvRaisesMeans | pio_vga/make_tilemap_data.py:12-23 | IndexError exactly for an empty file; NameError means a malformed cell in a row of the right width after well-formed rows |
| TilemapData.LoadTileset | pio_vga/make_tilemap_data.py:32-45 | a tileset loads exactly when both sizes are multiples of 16, None when the width is not, and the loaded grid has width/16 by height/16 tiles |
| TilemapData.TileOrigins | pio_vga/make_tilemap_data.py:47-52 | tile t's origin is ((t%w)*16, (t/w)*16), inside the tileset, distinct per tile |
| TilemapData.RenderTilemap | pio_vga/make_tilemap_data.py:54-66 | the render is 16 times the map's size in each direction |
| TilemapData.RenderLayout | pio_vga/make_tilemap_data.py:54-66 | pixel (x, y) of map cell (tx, ty) in the render is pixel (x, y) of that cell's tile |
| TilemapData.TilesetValues | pio_vga/make_tilemap_data.py:78-90 | the tileset values are 16-bit |
| TilemapData.TilesetToCHeader | pio_vga/make_tilemap_data.py:78-90 | the written text is the tile count, the array declaration, each tile's values, and the closing brace |
| TilemapData.TilesetHeaderLayout | pio_vga/make_tilemap_data.py:78-90 | value TileLine(t, y)+x of the header is tile t's packed pixel (x, y), the word draw_tilemap_line reads |
| TilemapData.TilesDeclIsNotArray | pio_vga/make_tilemap_data.py:97 | the declaration written before the entries is not an array declaration for any element type |
| TilemapData.TilemapHeaderDeclaresArray | pio_vga/make_tilemap_data.py:92-102 | the corrected header declares a uint16_t array right after the sizes, and each entry reads back as its tile number |
| TilemapData.EntriesSnoc | pio_vga/make_tilemap_data.py:99-100 | one more tile appends its entry line |
| TilemapData.TilemapToCHeader | pio_vga/make_tilemap_data.py:92-102 | the corrected text: the sizes, a `uint16_t tilemap_tiles[]` declaration and one entry per tile (the script's own text is TilemapData.TilemapHeaderAsWritten, see Findings) |
| SpriteData.LoadSpritesheet | pio_vga/make_sprite_data.py:3-18 | a sheet loads exactly when both sizes divide the image; a zero sprite size raises; the loaded grid is image size over sprite size |
| SpriteData.SpriteOrigins | pio_vga/make_sprite_data.py:20-25 | sprite s's origin is ((s%w)*sw, (s/w)*sh), inside the sheet, distinct per sprite |
| SpriteData.SpriteValues | pio_vga/make_sprite_data.py:37-50 | the sprite values are 16-bit |
| SpriteData.SpritesheetToCHeader | pio_vga/make_sprite_data.py:37-50 | the written text is the count, the height, the array declaration, every sprite's values, and the closing brace |
| SpriteData.SpriteHeaderLayout | pio_vga/make_sprite_data.py:37-50 | value s*sw*sh+row*sw+col is sprite s's packed pixel (col, row); for 16-wide sprites that is calc_sprite_ptr(s)+row*16+col, the word the sprite drawer reads |
| SpriteData.TransparentIsMagenta | pio_vga/make_sprite_data.py:27-28 | a pixel packs to the drawer's transparent word 0x7c1f exactly when it rounds to magenta |
| SpriteData.LoadCharSheet | pio_vga/make_sprite_data.py:54-55 | the script's sheet loads exactly when the image is a multiple of 16 by 18, with 16-pixel sprites as the drawer expects |

## Left out

- Hardware bring-up is not modelled. This covers PIO program loading, state-machine, DMA-channel, IRQ, GPIO and PWM configuration, and clock dividers. The two PIO instruction encodings a sync word carries (`pio_encode_nop`, `pio_encode_irq_set(false, 4)`) are parameters.
- Interrupt interleaving is modelled as single steps. The handler and the consumer loop are separate atomic operations. The interrupt-disable window of `video_loop` is what makes its sample-and-clear one step. VgaLines.LineSwapper.SampleAndClear also takes `next_line` inside that step, while the source reads it after `restore_interrupts` (pio_vga/pio_vga_fifth.c:306-311); a handler run in that gap, which would make the loop draw a later line than the one it sampled the request for, is not modelled.
- The `while(1)` main loops and `__wfi` waits are not modelled. Neither is the PIO test's DMA handler, which re-arms the same timing buffer.
- The first version's and PIO test's `logic_analyser_init`, `logic_analyser_arm` and `pin_ctrl_run` are hardware set-up and are not modelled.
- `printf` output is the returned string. The converters' file writes are the returned text, and image files are `Image` values.
- `Image.open`, `Image.save`, the preview `print` and the script-level calls are not modelled. Neither is `ImageShow`.
- `rock.h`, `sprite_data.h`, `village_tileset.h` and `test_tilemap.h` are not part of this model. The clip, sprite data and tile data are parameters.
- AssetImage.PixelAt: images are RGB triples. A fourth (alpha) channel, which the script drops with `[:3]`, is not represented.
- TilemapData.Strip: whitespace is ASCII space, tab, newline, carriage return, form feed, vertical tab and the separators \x1c to \x1f. Digits are ASCII 0-9. Python's Unicode `strip` and `isdigit` accept more.
- TilemapData.RenderTilemap: the paste loop is modelled by the image it produces, not by successive pastes.
- TilemapData.LoadTileset: the height-check message refers to the undefined `TILE_HEIGT`. That path is modelled as raising NameError; the printed text is not modelled.
- TilemapData.TileOrigins: a tileset of zero tiles across would raise ZeroDivisionError in `get_tile_image`. The requires excludes it, and the script never reaches it with a loaded tileset.
- TilemapData.TilemapToCHeader: the script never closes the header file. Whether the buffered text reaches the disk is outside the model.
- Capture.ReadBit: the C `uint bit_index` wraps at 2^32. The model's index is unbounded, and the requires keeps it inside the buffer.
- VgaEntities.Scene.ProcessEntity: `entity_frame` is a signed C `int` that is incremented on every call and never reset. The model's counter is unbounded; the overflow after 2^31 calls (and the `% 4`, `% 8` tests on a negative count after it) is not modelled.
- VgaEntities.Scene.Valid: requires both scroll limits to be at least 1. A map no larger than the screen (limit -1) makes the bounce run away, as VgaEntities.BounceRunsAway shows, so such a map is outside the invariant.
- PwmFade.FillPwmData: compare words are 32-bit values as natural numbers. The signed-shift overflow is stated separately, under Findings.
- PwmAudio.AudioPlayer.PwmIrh: `pwm_clear_irq` and the GPIO pin numbers are not modelled. The LEDs are the five recorded levels, in pin-table order.

## Findings

| source | as written | input that shows it | evidently intended | confidence | as-written member | corrected member |
|---|---|---|---|---|---|---|
| pwm_dma/pwm_dma_loop_sequence.c:77-89 | `int level` is squared, then shifted with `level << 16` on a signed `int` (lines 77-79 in the falling half, 85-89 in the rising half) | fade = 200 (rising half, lines 85-89): level = 40000, and 40000·2^16 exceeds 2^31-1, so the shift is undefined behaviour | the unsigned 32-bit word with the level in the high half | not executed | PwmFade.SignedShiftOverflows | PwmFade.PwmWordChannels |
| pio_vga/make_tilemap_data.py:97 | writes `uint8_t tilemap_tiles = {`, a scalar with a brace list | any tilemap: the declaration has no `[]` and the display code reads the grid as `uint16_t *` (pio_vga/pio_vga_fifth.c:456) | `uint16_t tilemap_tiles[] = {` | not executed | TilemapData.TilesDeclIsNotArray | TilemapData.TilemapHeaderDeclaresArray |
