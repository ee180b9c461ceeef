/** The application half of the fifth variant: a handful of entities that
    walk their sprites back and forth over a scrolling tilemap, and the
    per-frame update that moves them and bounces the scroll around the
    map. Sprite image pointers are offsets into the sprite data. */
module VgaEntities {
  import opened VgaSprites
  import opened VgaTilemap

  const NumEntities: nat := 8
  const FramesPerWalkAnim: nat := 3
  const AnimFramesPerCharacter: nat := 12

  /** The four walk cycles of a character, in sprite-sheet order. */
  datatype WalkAnim = WalkUp | WalkRight | WalkDown | WalkLeft

  function AnimIndex(a: WalkAnim): (n: nat)
    ensures n < 4
  {
    match a
    case WalkUp => 0
    case WalkRight => 1
    case WalkDown => 2
    case WalkLeft => 3
  }

  datatype MoveType = MoveNone | MoveHorizontal | MoveVertical

  /** An entity: the sprite it drives, its character, the frame within the
      current walk cycle, and its movement between two bounds. */
  datatype Entity = Entity(spriteIdx: int, characterIdx: int, animFrame: int, moveType: MoveType,
                           moveLowerBound: int, moveUpperBound: int, moveIncrease: bool, enabled: bool)

  /** The zero-initialised entity of a C global array. */
  const ZeroEntity := Entity(0, 0, 0, MoveNone, 0, 0, false, false)
  const ZeroSprite := SpriteInfo(0, 0, 0, 0, false)

  /** Index of a character's walk frame in the sprite sheet. */
  function CharImage(characterIdx: int, anim: WalkAnim, animFrame: int): int {
    characterIdx * AnimFramesPerCharacter + AnimIndex(anim) * FramesPerWalkAnim + animFrame
  }

  function CalcCharSpritePtr(characterIdx: int, anim: WalkAnim, animFrame: int, spriteHeight: int): int {
    CalcSpritePtr(CharImage(characterIdx, anim, animFrame), spriteHeight)
  }

  /** Every character owns a block of 12 consecutive images, and a
      (character, cycle, frame) triple names exactly one of them. */
  lemma CharImagesAreDistinct(c: nat, a: WalkAnim, f: nat, c': nat, a': WalkAnim, f': nat)
    requires f < FramesPerWalkAnim && f' < FramesPerWalkAnim
    ensures c * AnimFramesPerCharacter <= CharImage(c, a, f) < c * AnimFramesPerCharacter + AnimFramesPerCharacter
    ensures CharImage(c, a, f) == CharImage(c', a', f') <==> c == c' && a == a' && f == f'
  {
    MixedRadixUnique(AnimIndex(a), f, AnimIndex(a'), f', FramesPerWalkAnim);
    MixedRadixUnique(c, AnimIndex(a) * 3 + f, c', AnimIndex(a') * 3 + f', AnimFramesPerCharacter);
  }

  function IsHorizontal(e: Entity): bool { e.moveType == MoveHorizontal }

  /** The coordinate the entity moves along. */
  function Position(e: Entity, s: SpriteInfo): int {
    if IsHorizontal(e) then s.x else s.y
  }

  /** The walk cycle for a movement direction. */
  function WalkAnimFor(horizontal: bool, increase: bool): WalkAnim {
    if horizontal then (if increase then WalkRight else WalkLeft)
    else (if increase then WalkDown else WalkUp)
  }

  /** The entity and its sprite when `process_entity` is called with the
      shared counter already bumped to `counter`. Divisibility tests on the
      counter give the same answer under C's and Dafny's remainder. */
  datatype Moved = Moved(entity: Entity, sprite: SpriteInfo)

  function EntityStep(e: Entity, s: SpriteInfo, counter: int, spriteHeight: int): Moved {
    if counter % 4 != 0 then Moved(e, s)
    else
      var pos := Position(e, s);
      var newPos := if e.moveIncrease then pos + 1 else pos - 1;
      var newAnim := newPos == (if e.moveIncrease then e.moveUpperBound else e.moveLowerBound);
      var inc := if newAnim then !e.moveIncrease else e.moveIncrease;
      var nextFrame :=
        if newAnim then 0
        else if counter % 8 == 0 then (if (e.animFrame + 1) % FramesPerWalkAnim == 0 then 0 else e.animFrame + 1)
        else e.animFrame;
      var moved := if IsHorizontal(e) then s.(x := newPos) else s.(y := newPos);
      Moved(e.(moveIncrease := inc, animFrame := nextFrame),
            moved.(dataPtr := CalcCharSpritePtr(e.characterIdx, WalkAnimFor(IsHorizontal(e), inc), nextFrame, spriteHeight)))
  }

  /** A moving entity whose sprite lies between its bounds, heading for the
      bound it has not reached. */
  ghost predicate EntityValid(e: Entity, s: SpriteInfo) {
    e.moveType != MoveNone &&
    e.moveLowerBound < e.moveUpperBound &&
    e.moveLowerBound <= Position(e, s) <= e.moveUpperBound &&
    (e.moveIncrease ==> Position(e, s) < e.moveUpperBound) &&
    (!e.moveIncrease ==> Position(e, s) > e.moveLowerBound) &&
    0 <= e.animFrame < FramesPerWalkAnim
  }

  /** Between updates nothing moves. */
  lemma EntityIdleBetweenUpdates(e: Entity, s: SpriteInfo, counter: int, spriteHeight: int)
    requires counter % 4 != 0
    ensures EntityStep(e, s, counter, spriteHeight) == Moved(e, s)
  {
  }

  /** On an update the entity moves one pixel along its axis and stays
      within its bounds; reaching a bound turns it round and restarts the
      walk cycle, otherwise the cycle advances modulo 3 on every second
      update; the sprite shows cycle `WalkAnimFor` of the new direction. */
  lemma EntityStepKeepsBounds(e: Entity, s: SpriteInfo, counter: int, spriteHeight: int)
    requires EntityValid(e, s) && counter % 4 == 0
    ensures var r := EntityStep(e, s, counter, spriteHeight);
      && EntityValid(r.entity, r.sprite)
      && Position(r.entity, r.sprite) == Position(e, s) + (if e.moveIncrease then 1 else -1)
      && (if IsHorizontal(e) then r.sprite.y == s.y else r.sprite.x == s.x)
      && r.sprite.height == s.height && r.sprite.enabled == s.enabled
      && r.entity == e.(moveIncrease := r.entity.moveIncrease, animFrame := r.entity.animFrame)
      && ((Position(r.entity, r.sprite) == e.moveLowerBound || Position(r.entity, r.sprite) == e.moveUpperBound) ==>
            r.entity.moveIncrease == !e.moveIncrease && r.entity.animFrame == 0)
      && ((e.moveLowerBound < Position(r.entity, r.sprite) < e.moveUpperBound) ==>
            r.entity.moveIncrease == e.moveIncrease &&
            r.entity.animFrame == (if counter % 8 == 0 then (e.animFrame + 1) % FramesPerWalkAnim else e.animFrame))
      && r.sprite.dataPtr == CalcSpritePtr(CharImage(e.characterIdx, WalkAnimFor(IsHorizontal(e), r.entity.moveIncrease),
                                                     r.entity.animFrame), spriteHeight)
  {
  }

  /** The whole state `process_entities` works on: both arrays and the
      shared counter. */
  datatype EntityWorld = EntityWorld(entities: seq<Entity>, sprites: seq<SpriteInfo>, entityFrame: int)

  predicate Active(e: Entity) {
    e.enabled && e.moveType != MoveNone
  }

  ghost predicate SlotsInRange(w: EntityWorld) {
    |w.entities| == NumEntities && |w.sprites| == NumSprites &&
    forall i :: 0 <= i < NumEntities && Active(w.entities[i]) ==> 0 <= w.entities[i].spriteIdx < NumSprites
  }

  /** Every active entity is valid with respect to its own sprite, and no
      two active entities drive the same sprite. */
  ghost predicate WorldValid(w: EntityWorld) {
    SlotsInRange(w) &&
    (forall i :: 0 <= i < NumEntities && Active(w.entities[i]) ==>
      EntityValid(w.entities[i], w.sprites[w.entities[i].spriteIdx])) &&
    (forall i, j :: 0 <= i < j < NumEntities && Active(w.entities[i]) && Active(w.entities[j]) ==>
      w.entities[i].spriteIdx != w.entities[j].spriteIdx)
  }

  /** `process_entity` on entity i: bump the shared counter, then step. */
  function ProcessEntityAt(w: EntityWorld, i: nat, spriteHeight: int): (r: EntityWorld)
    requires i < |w.entities| && 0 <= w.entities[i].spriteIdx < |w.sprites|
    ensures |r.entities| == |w.entities| && |r.sprites| == |w.sprites|
  {
    var e := w.entities[i];
    var m := EntityStep(e, w.sprites[e.spriteIdx], w.entityFrame + 1, spriteHeight);
    EntityWorld(w.entities[i := m.entity], w.sprites[e.spriteIdx := m.sprite], w.entityFrame + 1)
  }

  /** `process_entities` from entity i on. */
  function ProcessEntitiesFrom(w: EntityWorld, i: nat, spriteHeight: int): (r: EntityWorld)
    requires SlotsInRange(w) && i <= NumEntities
    ensures SlotsInRange(r)
    decreases NumEntities - i
  {
    if i == NumEntities then w
    else
      var w' := if Active(w.entities[i]) then ProcessEntityAt(w, i, spriteHeight) else w;
      assert SlotsInRange(w') by {
        forall j | 0 <= j < NumEntities ensures w'.entities[j].spriteIdx == w.entities[j].spriteIdx && Active(w'.entities[j]) == Active(w.entities[j]) {
        }
      }
      ProcessEntitiesFrom(w', i + 1, spriteHeight)
  }

  function ActiveCountFrom(es: seq<Entity>, i: nat): nat
    requires i <= |es|
    decreases |es| - i
  {
    if i == |es| then 0 else (if Active(es[i]) then 1 else 0) + ActiveCountFrom(es, i + 1)
  }

  /** Stepping one active entity keeps the world valid: only its own
      sprite changes, and no other active entity shares that sprite. */
  lemma ProcessEntityKeepsWorldValid(w: EntityWorld, i: nat, spriteHeight: int)
    requires WorldValid(w) && i < NumEntities && Active(w.entities[i])
    ensures WorldValid(ProcessEntityAt(w, i, spriteHeight))
  {
    var e := w.entities[i];
    var r := ProcessEntityAt(w, i, spriteHeight);
    var counter := w.entityFrame + 1;
    if counter % 4 == 0 {
      EntityStepKeepsBounds(e, w.sprites[e.spriteIdx], counter, spriteHeight);
    }
    forall j | 0 <= j < NumEntities && Active(r.entities[j])
      ensures EntityValid(r.entities[j], r.sprites[r.entities[j].spriteIdx])
    {
      if j != i {
        assert r.entities[j] == w.entities[j];
        assert Active(w.entities[j]);
        assert w.entities[j].spriteIdx != e.spriteIdx;
      }
    }
  }

  /** `process_entities` keeps the world valid, and bumps the shared counter
      once per active entity. */
  lemma {:induction false} ProcessEntitiesKeepsWorldValid(w: EntityWorld, i: nat, spriteHeight: int)
    requires WorldValid(w) && i <= NumEntities
    ensures WorldValid(ProcessEntitiesFrom(w, i, spriteHeight))
    ensures ProcessEntitiesFrom(w, i, spriteHeight).entityFrame == w.entityFrame + ActiveCountFrom(w.entities, i)
    ensures forall j :: 0 <= j < NumEntities ==>
      Active(ProcessEntitiesFrom(w, i, spriteHeight).entities[j]) == Active(w.entities[j])
    decreases NumEntities - i
  {
    if i < NumEntities {
      var w' := if Active(w.entities[i]) then ProcessEntityAt(w, i, spriteHeight) else w;
      if Active(w.entities[i]) {
        ProcessEntityKeepsWorldValid(w, i, spriteHeight);
      }
      assert forall j :: 0 <= j < NumEntities ==> Active(w'.entities[j]) == Active(w.entities[j]);
      assert ActiveCountFrom(w'.entities, i + 1) == ActiveCountFrom(w.entities, i + 1) by {
        ActiveCountAgrees(w'.entities, w.entities, i + 1);
      }
      ProcessEntitiesKeepsWorldValid(w', i + 1, spriteHeight);
    }
  }

  lemma {:induction false} ActiveCountAgrees(es: seq<Entity>, es': seq<Entity>, i: nat)
    requires |es| == |es'| && i <= |es|
    requires forall j :: 0 <= j < |es| ==> Active(es[j]) == Active(es'[j])
    ensures ActiveCountFrom(es, i) == ActiveCountFrom(es', i)
    decreases |es| - i
  {
    if i < |es| {
      ActiveCountAgrees(es, es', i + 1);
    }
  }

  /** One axis of the scroll: position and direction. */
  datatype Axis = Axis(scroll: int, increase: bool)

  /** `end_of_frame`'s bounce on one axis: turn at the far limit or at 0,
      then move one pixel. */
  function BounceStep(a: Axis, limit: int): Axis {
    var inc := if a.scroll == limit then false else if a.scroll == 0 then true else a.increase;
    Axis(if inc then a.scroll + 1 else a.scroll - 1, inc)
  }

  /** With a limit of at least 1, the scroll stays in [0, limit], moves by
      exactly one, heads down from the limit and up from 0. */
  lemma BounceStaysInRange(a: Axis, limit: int)
    requires 1 <= limit && 0 <= a.scroll <= limit
    ensures 0 <= BounceStep(a, limit).scroll <= limit
    ensures BounceStep(a, limit).scroll == a.scroll + (if BounceStep(a, limit).increase then 1 else -1)
    ensures a.scroll == limit ==> !BounceStep(a, limit).increase
    ensures a.scroll == 0 ==> BounceStep(a, limit).increase
    ensures 0 < a.scroll < limit ==> BounceStep(a, limit).increase == a.increase
  {
  }

  /** The axis after `n` end-of-frame steps. */
  function BounceAfter(a: Axis, limit: int, n: nat): Axis {
    if n == 0 then a else BounceStep(BounceAfter(a, limit, n - 1), limit)
  }

  /** A map no larger than the screen on an axis (20 tiles across or 15
      down gives limit -1) never turns: from 0 the scroll climbs by one
      every frame, past the end of the map. */
  lemma {:induction false} BounceRunsAway(tiles: int, increase: bool, n: nat)
    requires tiles * TileWidth <= ScreenWidth && n >= 1
    ensures BounceAfter(Axis(0, increase), ScrollLimit(tiles, TileWidth, ScreenWidth), n) == Axis(n, true)
  {
    if n > 1 {
      BounceRunsAway(tiles, increase, n - 1);
    }
  }

  /** The entity for `setup_entity`: start at the lower bound (the start
      tile's pixel coordinate on the movement axis), moving up. */
  function InitialEntity(startTileX: int, startTileY: int, moveType: MoveType, upperTile: int,
                         characterIdx: int, spriteIdx: int): Entity {
    var startX := startTileX * TileWidth;
    var startY := startTileY * TileHeight;
    Entity(spriteIdx, characterIdx, 0, moveType,
           if moveType == MoveHorizontal then startX else startY,
           upperTile * (if moveType == MoveHorizontal then TileWidth else TileHeight),
           true, true)
  }

  function InitialAnim(moveType: MoveType): WalkAnim {
    match moveType
    case MoveNone => WalkDown
    case MoveHorizontal => WalkRight
    case MoveVertical => WalkDown
  }

  function InitialSprite(startTileX: int, startTileY: int, moveType: MoveType, characterIdx: int,
                         spriteHeight: int): SpriteInfo {
    SpriteInfo(CalcCharSpritePtr(characterIdx, InitialAnim(moveType), 0, spriteHeight), spriteHeight,
               startTileX * TileWidth, startTileY * TileHeight, true)
  }

  /** A freshly set-up moving entity is valid exactly when its upper bound
      tile lies beyond its start tile on the movement axis. */
  lemma InitialEntityValid(startTileX: int, startTileY: int, moveType: MoveType, upperTile: int,
                           characterIdx: int, spriteIdx: int, spriteHeight: int)
    requires moveType != MoveNone
    ensures EntityValid(InitialEntity(startTileX, startTileY, moveType, upperTile, characterIdx, spriteIdx),
                        InitialSprite(startTileX, startTileY, moveType, characterIdx, spriteHeight))
      <==> upperTile > (if moveType == MoveHorizontal then startTileX else startTileY)
  {
  }

  /** The seven entities the demo walks around the map:
      (start tile x, start tile y, movement, upper bound tile, character). */
  const EntitySetups: seq<(int, int, MoveType, int, int)> := [
    (2, 2, MoveVertical, 8, 0),
    (4, 7, MoveHorizontal, 14, 1),
    (7, 8, MoveHorizontal, 15, 2),
    (4, 15, MoveHorizontal, 10, 3),
    (18, 4, MoveVertical, 7, 4),
    (2, 12, MoveVertical, 22, 5),
    (7, 24, MoveHorizontal, 14, 0)
  ]

  /** The demo state: entities, the sprite pool, the shared entity counter,
      the tilemap with its scroll, the sprite scroll and the scroll
      directions. Map dimensions, the sprite height and all pixel data come
      from data headers and are constructor parameters. */
  class Scene {
    const spriteHeight: nat
    const spriteData: seq<int>
    const entities: array<Entity>
    const sprites: array<SpriteInfo>
    var entityFrame: int
    var tilemap: TilemapInfo
    var spriteScrollX: int
    var spriteScrollY: int
    var xInc: bool
    var yInc: bool

    function World(): EntityWorld
      reads this, entities, sprites
    {
      EntityWorld(entities[..], sprites[..], entityFrame)
    }

    function XLimit(): int reads this { ScrollLimit(tilemap.width, TileWidth, ScreenWidth) }
    function YLimit(): int reads this { ScrollLimit(tilemap.height, TileHeight, ScreenHeight) }

    /** Entities valid, sprite scroll locked to the tilemap scroll, and each
        scroll inside [0, limit] for limits of at least 1. */
    ghost predicate Valid()
      reads this, entities, sprites
    {
      entities.Length == NumEntities && sprites.Length == NumSprites &&
      WorldValid(World()) &&
      spriteScrollX == tilemap.xScroll && spriteScrollY == tilemap.yScroll &&
      1 <= XLimit() && 0 <= tilemap.xScroll <= XLimit() &&
      1 <= YLimit() && 0 <= tilemap.yScroll <= YLimit()
    }

    /** The globals' initial values and `setup_tilemap`. */
    constructor (spriteHeight: nat, spriteData: seq<int>, tilemapWidth: int, tilemapHeight: int,
                 tiles: seq<int>, tileset: seq<int>)
      ensures this.spriteHeight == spriteHeight && this.spriteData == spriteData
      ensures fresh(entities) && fresh(sprites)
      ensures entities[..] == seq(NumEntities, _ => ZeroEntity)
      ensures sprites[..] == seq(NumSprites, _ => ZeroSprite)
      ensures entityFrame == 0 && spriteScrollX == 0 && spriteScrollY == 0 && xInc && yInc
      ensures tilemap == TilemapInfo(tilemapWidth, tilemapHeight, tiles, tileset, 0, 0)
    {
      this.spriteHeight := spriteHeight;
      this.spriteData := spriteData;
      entities := new Entity[NumEntities](_ => ZeroEntity);
      sprites := new SpriteInfo[NumSprites](_ => ZeroSprite);
      entityFrame := 0;
      tilemap := TilemapInfo(tilemapWidth, tilemapHeight, tiles, tileset, 0, 0);
      spriteScrollX := 0;
      spriteScrollY := 0;
      xInc := true;
      yInc := true;
    }

    /** `setup_entity`: write the entity and the sprite it drives. */
    method SetupEntity(startTileX: int, startTileY: int, moveType: MoveType, upperTile: int,
                       characterIdx: int, entityIdx: nat, spriteIdx: nat)
      requires entityIdx < entities.Length && spriteIdx < sprites.Length
      modifies entities, sprites
      ensures entities[..] == old(entities[..])[entityIdx := InitialEntity(startTileX, startTileY, moveType, upperTile, characterIdx, spriteIdx)]
      ensures sprites[..] == old(sprites[..])[spriteIdx := InitialSprite(startTileX, startTileY, moveType, characterIdx, spriteHeight)]
    {
      var initialAnim;
      match moveType {
        case MoveNone => initialAnim := WalkDown;
        case MoveHorizontal => initialAnim := WalkRight;
        case MoveVertical => initialAnim := WalkDown;
      }

      var startX := startTileX * TileWidth;
      var startY := startTileY * TileHeight;

      entities[entityIdx] := Entity(spriteIdx, characterIdx, 0, moveType,
        if moveType == MoveHorizontal then startX else startY,
        upperTile * (if moveType == MoveHorizontal then TileWidth else TileHeight),
        true, true);

      sprites[spriteIdx] := SpriteInfo(CalcCharSpritePtr(characterIdx, initialAnim, 0, spriteHeight),
        spriteHeight, startX, startY, true);
    }

    /** `setup_entities`: disable all sprites and set up the seven demo
        entities on sprites 0..6. The eighth entity keeps its zero
        initialisation, so it is disabled. */
    method SetupEntities()
      requires entities.Length == NumEntities && sprites.Length == NumSprites
      requires !entities[NumEntities - 1].enabled
      modifies entities, sprites
      ensures WorldValid(World())
      ensures forall k :: 0 <= k < |EntitySetups| ==>
        entities[k] == InitialEntity(EntitySetups[k].0, EntitySetups[k].1, EntitySetups[k].2, EntitySetups[k].3, EntitySetups[k].4, k) &&
        sprites[k] == InitialSprite(EntitySetups[k].0, EntitySetups[k].1, EntitySetups[k].2, EntitySetups[k].4, spriteHeight)
      ensures forall k :: |EntitySetups| <= k < NumSprites ==> !sprites[k].enabled
      ensures !entities[NumEntities - 1].enabled
    {
      InitSprites(sprites);

      var curSpriteIdx := 0;
      var curEntityIdx := 0;

      while curEntityIdx < |EntitySetups|
        invariant 0 <= curEntityIdx <= |EntitySetups| && curSpriteIdx == curEntityIdx
        invariant forall k :: 0 <= k < curEntityIdx ==>
          entities[k] == InitialEntity(EntitySetups[k].0, EntitySetups[k].1, EntitySetups[k].2, EntitySetups[k].3, EntitySetups[k].4, k) &&
          sprites[k] == InitialSprite(EntitySetups[k].0, EntitySetups[k].1, EntitySetups[k].2, EntitySetups[k].4, spriteHeight)
        invariant forall k :: curEntityIdx <= k < NumSprites ==> !sprites[k].enabled
        invariant !entities[NumEntities - 1].enabled
      {
        var (x, y, move, upper, character) := EntitySetups[curEntityIdx];
        SetupEntity(x, y, move, upper, character, curEntityIdx, curSpriteIdx);
        curEntityIdx := curEntityIdx + 1;
        curSpriteIdx := curSpriteIdx + 1;
      }
      SetupWorldValid(World(), spriteHeight);
    }

    /** `process_entity`: bump the shared counter and, on every fourth call,
        move the entity's sprite one pixel, turning at the bounds, and pick
        the sprite image for its walk cycle and frame. */
    method ProcessEntity(i: nat)
      requires i < entities.Length == NumEntities && sprites.Length == NumSprites
      requires 0 <= entities[i].spriteIdx < NumSprites
      modifies this, entities, sprites
      ensures tilemap == old(tilemap)
      ensures spriteScrollX == old(spriteScrollX) && spriteScrollY == old(spriteScrollY)
      ensures xInc == old(xInc) && yInc == old(yInc)
      ensures World() == ProcessEntityAt(old(World()), i, spriteHeight)
    {
      entityFrame := entityFrame + 1;

      var e := entities[i];
      var sprite := sprites[e.spriteIdx];

      if entityFrame % 4 != 0 {
        assert entities[..] == entities[..][i := e];
        assert sprites[..] == sprites[..][e.spriteIdx := sprite];
        return;
      }

      var newAnim := false;
      var inc := e.moveIncrease;

      if e.moveIncrease {
        if e.moveType == MoveHorizontal {
          sprite := sprite.(x := sprite.x + 1);
          if sprite.x == e.moveUpperBound {
            inc := false;
            newAnim := true;
          }
        } else {
          sprite := sprite.(y := sprite.y + 1);
          if sprite.y == e.moveUpperBound {
            inc := false;
            newAnim := true;
          }
        }
      } else {
        if e.moveType == MoveHorizontal {
          sprite := sprite.(x := sprite.x - 1);
          if sprite.x == e.moveLowerBound {
            inc := true;
            newAnim := true;
          }
        } else {
          sprite := sprite.(y := sprite.y - 1);
          if sprite.y == e.moveLowerBound {
            inc := true;
            newAnim := true;
          }
        }
      }

      var anim;
      if e.moveType == MoveHorizontal {
        anim := if inc then WalkRight else WalkLeft;
      } else {
        anim := if inc then WalkDown else WalkUp;
      }

      var nextFrame := e.animFrame;
      if newAnim {
        nextFrame := 0;
      } else {
        if entityFrame % 8 == 0 {
          nextFrame := e.animFrame + 1;
          if nextFrame % FramesPerWalkAnim == 0 {
            nextFrame := 0;
          }
        }
      }

      entities[i] := e.(moveIncrease := inc, animFrame := nextFrame);
      sprites[e.spriteIdx] := sprite.(dataPtr := CalcCharSpritePtr(e.characterIdx, anim, nextFrame, spriteHeight));
    }

    /** `process_entities`: process every enabled, moving entity in order. */
    method ProcessEntities()
      requires entities.Length == NumEntities && sprites.Length == NumSprites
      requires SlotsInRange(World())
      modifies this, entities, sprites
      ensures tilemap == old(tilemap)
      ensures spriteScrollX == old(spriteScrollX) && spriteScrollY == old(spriteScrollY)
      ensures xInc == old(xInc) && yInc == old(yInc)
      ensures World() == ProcessEntitiesFrom(old(World()), 0, spriteHeight)
    {
      var i := 0;
      while i < NumEntities
        invariant 0 <= i <= NumEntities
        invariant tilemap == old(tilemap)
        invariant spriteScrollX == old(spriteScrollX) && spriteScrollY == old(spriteScrollY)
        invariant xInc == old(xInc) && yInc == old(yInc)
        invariant SlotsInRange(World())
        invariant ProcessEntitiesFrom(World(), i, spriteHeight) == ProcessEntitiesFrom(old(World()), 0, spriteHeight)
      {
        ghost var before := World();
        if entities[i].enabled && entities[i].moveType != MoveNone {
          ProcessEntity(i);
        }
        assert World() == (if Active(before.entities[i]) then ProcessEntityAt(before, i, spriteHeight) else before);
        i := i + 1;
      }
    }

    /** `draw_line`: the tilemap row, then the sprites over it. */
    method DrawLine(lineY: int, lineBuffer: array<int>, curActiveSprites: array<ActiveSprite>)
      requires 0 <= lineY < ScreenHeight
      requires lineBuffer.Length == ScreenWidth && curActiveSprites.Length == MaxSpritesPerLine
      requires sprites.Length == NumSprites
      requires ReadsInBounds(tilemap, lineY)
      requires ActiveRowsReadable(ActiveList(sprites[..], U16(lineY + spriteScrollY)), spriteScrollX, spriteData)
      modifies lineBuffer, curActiveSprites
      ensures lineBuffer[..] == Composite(TilemapRow(tilemap, lineY),
                                          ActiveList(sprites[..], U16(lineY + spriteScrollY)), spriteScrollX, spriteData)
    {
      DrawTilemapLine(lineY, tilemap, lineBuffer);
      assert lineBuffer[..] == TilemapRow(tilemap, lineY);
      DrawSpritesLine(lineY, lineBuffer, sprites[..], spriteScrollX, spriteScrollY, spriteData, curActiveSprites);
    }

    /** `end_of_frame`: process the entities, then scroll. */
    method EndOfFrame()
      requires Valid()
      modifies this, entities, sprites
      ensures Valid()
      ensures World() == ProcessEntitiesFrom(old(World()), 0, spriteHeight)
      ensures Axis(tilemap.xScroll, xInc) == BounceStep(Axis(old(tilemap.xScroll), old(xInc)), old(XLimit()))
      ensures Axis(tilemap.yScroll, yInc) == BounceStep(Axis(old(tilemap.yScroll), old(yInc)), old(YLimit()))
      ensures tilemap == old(tilemap).(xScroll := tilemap.xScroll, yScroll := tilemap.yScroll)
      ensures spriteScrollX - old(spriteScrollX) == tilemap.xScroll - old(tilemap.xScroll)
      ensures spriteScrollY - old(spriteScrollY) == tilemap.yScroll - old(tilemap.yScroll)
    {
      ProcessEntitiesKeepsWorldValid(World(), 0, spriteHeight);
      ProcessEntities();
      ScrollStep();
      BounceStaysInRange(Axis(old(tilemap.xScroll), old(xInc)), old(XLimit()));
      BounceStaysInRange(Axis(old(tilemap.yScroll), old(yInc)), old(YLimit()));
    }

    /** The scroll half of `end_of_frame`: on each axis turn round at the
        far limit or at 0, then move the tilemap and the sprites one pixel
        in the same direction. */
    method ScrollStep()
      modifies this
      ensures entityFrame == old(entityFrame)
      ensures Axis(tilemap.xScroll, xInc) == BounceStep(Axis(old(tilemap.xScroll), old(xInc)), old(XLimit()))
      ensures Axis(tilemap.yScroll, yInc) == BounceStep(Axis(old(tilemap.yScroll), old(yInc)), old(YLimit()))
      ensures tilemap == old(tilemap).(xScroll := tilemap.xScroll, yScroll := tilemap.yScroll)
      ensures spriteScrollX - old(spriteScrollX) == tilemap.xScroll - old(tilemap.xScroll)
      ensures spriteScrollY - old(spriteScrollY) == tilemap.yScroll - old(tilemap.yScroll)
    {
      if tilemap.yScroll == ((tilemap.height * TileHeight) - ScreenHeight) - 1 {
        yInc := false;
      } else if tilemap.yScroll == 0 {
        yInc := true;
      }

      if tilemap.xScroll == ((tilemap.width * TileWidth) - ScreenWidth) - 1 {
        xInc := false;
      } else if tilemap.xScroll == 0 {
        xInc := true;
      }

      if yInc {
        tilemap := tilemap.(yScroll := tilemap.yScroll + 1);
        spriteScrollY := spriteScrollY + 1;
      } else {
        tilemap := tilemap.(yScroll := tilemap.yScroll - 1);
        spriteScrollY := spriteScrollY - 1;
      }

      if xInc {
        tilemap := tilemap.(xScroll := tilemap.xScroll + 1);
        spriteScrollX := spriteScrollX + 1;
      } else {
        tilemap := tilemap.(xScroll := tilemap.xScroll - 1);
        spriteScrollX := spriteScrollX - 1;
      }
    }
  }

  /** `main`'s set-up before the video loop: the globals' initial values,
      `setup_entities` and `setup_tilemap`. A map with room to bounce on
      both axes leaves a valid scene, which every later `end_of_frame`
      keeps valid. */
  method SetupScene(spriteHeight: nat, spriteData: seq<int>, tilemapWidth: int, tilemapHeight: int,
                    tiles: seq<int>, tileset: seq<int>) returns (scene: Scene)
    requires ScrollLimit(tilemapWidth, TileWidth, ScreenWidth) >= 1
    requires ScrollLimit(tilemapHeight, TileHeight, ScreenHeight) >= 1
    ensures scene.Valid()
    ensures scene.tilemap == TilemapInfo(tilemapWidth, tilemapHeight, tiles, tileset, 0, 0)
    ensures scene.entityFrame == 0 && scene.spriteHeight == spriteHeight
    ensures forall k :: |EntitySetups| <= k < NumSprites ==> !scene.sprites[k].enabled
  {
    scene := new Scene(spriteHeight, spriteData, tilemapWidth, tilemapHeight, tiles, tileset);
    scene.SetupEntities();
  }

  /** The tilemap's pixels for one screen line. */
  function TilemapRow(tilemap: TilemapInfo, lineY: int): (r: seq<int>)
    requires ReadsInBounds(tilemap, lineY)
    ensures |r| == ScreenWidth
  {
    seq(ScreenWidth, i requires 0 <= i < ScreenWidth => TilemapPixel(tilemap, lineY, i))
  }

  /** The state `setup_entities` leaves is valid: each of the seven
      entities starts at its lower bound below its upper bound, and they
      drive the distinct sprites 0..6. */
  lemma SetupWorldValid(w: EntityWorld, spriteHeight: int)
    requires |w.entities| == NumEntities && |w.sprites| == NumSprites && !w.entities[NumEntities - 1].enabled
    requires forall k :: 0 <= k < |EntitySetups| ==>
      w.entities[k] == InitialEntity(EntitySetups[k].0, EntitySetups[k].1, EntitySetups[k].2, EntitySetups[k].3, EntitySetups[k].4, k) &&
      w.sprites[k] == InitialSprite(EntitySetups[k].0, EntitySetups[k].1, EntitySetups[k].2, EntitySetups[k].4, spriteHeight)
    ensures WorldValid(w)
  {
    forall k | 0 <= k < |EntitySetups|
      ensures EntityValid(w.entities[k], w.sprites[k])
    {
      var (x, y, move, upper, character) := EntitySetups[k];
      InitialEntityValid(x, y, move, upper, character, k, spriteHeight);
    }
  }
}
