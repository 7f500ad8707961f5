/**
 * A side-scrolling level: the generator chosen by the level id, the tiles
 * the generators lay down (ground, ceiling, arena walls and platforms),
 * the enemies and items placed from the hand-authored tables, the
 * following camera and the completion rules.
 */
module Levels {
  import opened Options
  import opened Rects
  import opened Settings
  import opened Enemies
  import opened Items
  import Cameras
  import WorldMaps

  // ------------------------------------------------------- names and dispatch

  /** `get_level_name`: the four known ids, anything else an unknown area. */
  function LevelName(levelId: string): string
  {
    if levelId == "castle" then "Castle Entrance"
    else if levelId == "cave" then "Dark Cave"
    else if levelId == "fortress" then "Cannon's Domain"
    else if levelId == "boss" then "Cannon's Throne"
    else "Unknown Area"
  }

  datatype Generator = ForestLevel | CastleLevel | CaveLevel | FortressLevel | BossLevel

  /** `generate`: the layout the level id selects; any other id gets the forest. */
  function GeneratorFor(levelId: string): Generator
  {
    if levelId == "castle" then CastleLevel
    else if levelId == "cave" then CaveLevel
    else if levelId == "fortress" then FortressLevel
    else if levelId == "boss" then BossLevel
    else ForestLevel
  }

  /**
   * The name table and the generator dispatch agree: an id has a name
   * of its own exactly when it has a layout of its own, and only the
   * boss id selects the arena.
   */
  lemma NamesMatchGenerators(levelId: string)
    ensures LevelName(levelId) == "Unknown Area" <==> GeneratorFor(levelId) == ForestLevel
    ensures GeneratorFor(levelId) == BossLevel <==> levelId == "boss"
    ensures GeneratorFor(levelId) == FortressLevel <==> levelId == "fortress"
  {
  }

  /** Every marker of the world map names its level as the level itself does. */
  lemma MarkerNamesMatchLevels()
    ensures forall i :: 0 <= i < |WorldMaps.InitialMarkers()| ==>
      LevelName(WorldMaps.InitialMarkers()[i].levelId) == WorldMaps.InitialMarkers()[i].levelName &&
      GeneratorFor(WorldMaps.InitialMarkers()[i].levelId) != ForestLevel
  {
  }

  // ------------------------------------------------------- dimensions

  function LevelWidth(g: Generator): nat
  {
    match g
    case ForestLevel => 3000
    case CastleLevel => 2500
    case CaveLevel => 2800
    case FortressLevel => 4000
    case BossLevel => 1000
  }

  function LevelHeight(g: Generator): nat
  {
    match g
    case ForestLevel => 600
    case CastleLevel => 600
    case CaveLevel => 700
    case FortressLevel => 700
    case BossLevel => 600
  }

  /** The top of the two ground rows. */
  function GroundY(g: Generator): int
  {
    LevelHeight(g) - 2 * TileSize
  }

  /** The exit: a one-tile-wide, two-tile-high door 100 px before the right edge; the arena has none. */
  function ExitFor(g: Generator): Option<Rect>
  {
    if g == BossLevel then None else Some(Rect(LevelWidth(g) - 100, GroundY(g) - 2 * TileSize, TileSize, 2 * TileSize))
  }

  /** Where the hero starts: on the ground, 100 px in (150 in the arena). */
  function StartFor(g: Generator): (int, int)
  {
    (if g == BossLevel then 150 else 100, GroundY(g) - TileSize)
  }

  // ------------------------------------------------------- tiles

  function Tile(x: int, y: int): Rect
  {
    Rect(x, y, TileSize, TileSize)
  }

  const FortressGaps: seq<int> := [600, 1200, 1800, 2400, 3000, 3400]

  /** The fortress floor is open for three tiles from each gap position. */
  predicate IsGap(x: int)
  {
    exists i :: 0 <= i < |FortressGaps| && FortressGaps[i] <= x < FortressGaps[i] + 3 * TileSize
  }

  /** The gap predicate written out as six intervals. */
  lemma GapIntervals(x: int)
    ensures IsGap(x) <==>
      (600 <= x < 696 || 1200 <= x < 1296 || 1800 <= x < 1896 ||
       2400 <= x < 2496 || 3000 <= x < 3096 || 3400 <= x < 3496)
  {
    if 600 <= x < 696 { assert FortressGaps[0] <= x < FortressGaps[0] + 96; }
    if 1200 <= x < 1296 { assert FortressGaps[1] <= x < FortressGaps[1] + 96; }
    if 1800 <= x < 1896 { assert FortressGaps[2] <= x < FortressGaps[2] + 96; }
    if 2400 <= x < 2496 { assert FortressGaps[3] <= x < FortressGaps[3] + 96; }
    if 3000 <= x < 3096 { assert FortressGaps[4] <= x < FortressGaps[4] + 96; }
    if 3400 <= x < 3496 { assert FortressGaps[5] <= x < FortressGaps[5] + 96; }
  }

  /** The tiles of one ground column at `x`: two ground rows, the cave's two ceiling rows, none over a fortress gap. */
  function Column(g: Generator, x: int): seq<Rect>
  {
    match g
    case CaveLevel => [Tile(x, GroundY(g)), Tile(x, GroundY(g) + TileSize), Tile(x, 0), Tile(x, TileSize)]
    case FortressLevel => if IsGap(x) then [] else [Tile(x, GroundY(g)), Tile(x, GroundY(g) + TileSize)]
    case _ => [Tile(x, GroundY(g)), Tile(x, GroundY(g) + TileSize)]
  }

  /** `range(0, width, ts)` has this many columns. */
  function Columns(width: nat): nat
  {
    (width + 31) / 32
  }

  /** The first `n` ground columns, left to right. */
  function GroundTiles(g: Generator, n: nat): seq<Rect>
  {
    if n == 0 then [] else GroundTiles(g, n - 1) + Column(g, 32 * (n - 1))
  }

  /** The fortress ceiling's first `n` columns: two stone rows at the top. */
  function CeilingTiles(n: nat): seq<Rect>
  {
    if n == 0 then [] else CeilingTiles(n - 1) + [Tile(32 * (n - 1), 0), Tile(32 * (n - 1), TileSize)]
  }

  /** The arena's first `n` wall rows: one tile at the left edge and one at the right. */
  function WallTiles(width: int, n: nat): seq<Rect>
  {
    if n == 0 then [] else WallTiles(width, n - 1) + [Tile(0, 32 * (n - 1)), Tile(width - TileSize, 32 * (n - 1))]
  }

  /** A platform from the layout tables: `length` tiles in a row from `(x, y)`. */
  datatype Platform = Platform(x: int, y: int, length: nat)

  function PlatformRow(p: Platform, n: nat): seq<Rect>
  {
    if n == 0 then [] else PlatformRow(p, n - 1) + [Tile(p.x + 32 * (n - 1), p.y)]
  }

  function PlatformTiles(ps: seq<Platform>): seq<Rect>
  {
    if |ps| == 0 then [] else PlatformTiles(ps[..|ps| - 1]) + PlatformRow(ps[|ps| - 1], ps[|ps| - 1].length)
  }

  /** A generator's tiles in the order it adds them to the group. */
  function LevelTiles(g: Generator, ps: seq<Platform>): seq<Rect>
  {
    GroundTiles(g, Columns(LevelWidth(g))) +
    (if g == FortressLevel then CeilingTiles(Columns(LevelWidth(g))) else []) +
    (if g == BossLevel then WallTiles(LevelWidth(g), Columns(GroundY(g))) else []) +
    PlatformTiles(ps)
  }

  /**
   * A ground tile stands at `x` exactly when `x` is one of the first `n`
   * column positions and, in the fortress, not over a gap.
   */
  lemma {:induction false} GroundTileAt(g: Generator, n: nat, x: int)
    ensures Tile(x, GroundY(g)) in GroundTiles(g, n) <==>
      0 <= x < 32 * n && x % 32 == 0 && !(g == FortressLevel && IsGap(x))
  {
    if n > 0 {
      GroundTileAt(g, n - 1, x);
      ColumnGround(g, 32 * (n - 1), x);
      ColumnStep(n, x);
      assert GroundTiles(g, n) == GroundTiles(g, n - 1) + Column(g, 32 * (n - 1));
    }
  }

  /** A column holds a ground tile at `x` exactly when it is the column at `x` and stands. */
  lemma ColumnGround(g: Generator, c: int, x: int)
    ensures Tile(x, GroundY(g)) in Column(g, c) <==> x == c && !(g == FortressLevel && IsGap(x))
  {
    if g == CaveLevel {
      assert Tile(x, GroundY(g)) != Tile(x, 0) && Tile(x, GroundY(g)) != Tile(x, TileSize);
    }
  }

  /** The column positions below `32 * n` are those below `32 * (n - 1)` and `32 * (n - 1)` itself. */
  lemma ColumnStep(n: nat, x: int)
    requires n > 0
    ensures (0 <= x < 32 * n && x % 32 == 0) <==> ((0 <= x < 32 * (n - 1) && x % 32 == 0) || x == 32 * (n - 1))
  {
    if x == 32 * (n - 1) {
      assert x % 32 == 0;
    } else if 32 * (n - 1) < x < 32 * n {
      assert x % 32 != 0;
    }
  }

  /** The fortress floor: across the whole 4000 px, a tile at every column position except over the six gaps. */
  lemma FortressFloor(x: int)
    ensures Tile(x, GroundY(FortressLevel)) in GroundTiles(FortressLevel, Columns(LevelWidth(FortressLevel))) <==>
      0 <= x < 4000 && x % 32 == 0 && !IsGap(x)
  {
    assert Columns(LevelWidth(FortressLevel)) == 125;
    GroundTileAt(FortressLevel, 125, x);
  }

  /** Lay a generator's ground columns, `for x in range(0, width, ts)`. */
  method BuildGround(g: Generator) returns (ts: seq<Rect>)
    ensures ts == GroundTiles(g, Columns(LevelWidth(g)))
  {
    ts := [];
    var x := 0;
    var k := 0;
    while x < LevelWidth(g)
      invariant x == 32 * k && x <= LevelWidth(g) + 31
      invariant ts == GroundTiles(g, k)
    {
      if g == CaveLevel {
        ts := ts + [Tile(x, GroundY(g)), Tile(x, GroundY(g) + TileSize), Tile(x, 0), Tile(x, TileSize)];
      } else if g != FortressLevel || !IsGap(x) {
        ts := ts + [Tile(x, GroundY(g)), Tile(x, GroundY(g) + TileSize)];
      }
      x := x + TileSize;
      k := k + 1;
    }
  }

  /** Lay the fortress ceiling. */
  method BuildCeiling(width: nat) returns (ts: seq<Rect>)
    ensures ts == CeilingTiles(Columns(width))
  {
    ts := [];
    var x := 0;
    var k := 0;
    while x < width
      invariant x == 32 * k && x <= width + 31
      invariant ts == CeilingTiles(k)
    {
      ts := ts + [Tile(x, 0), Tile(x, TileSize)];
      x := x + TileSize;
      k := k + 1;
    }
  }

  /** Lay the arena walls, `for y in range(0, ground_y, ts)`. */
  method BuildWalls(width: int, groundY: nat) returns (ts: seq<Rect>)
    ensures ts == WallTiles(width, Columns(groundY))
  {
    ts := [];
    var y := 0;
    var k := 0;
    while y < groundY
      invariant y == 32 * k && y <= groundY + 31
      invariant ts == WallTiles(width, k)
    {
      ts := ts + [Tile(0, y), Tile(width - TileSize, y)];
      y := y + TileSize;
      k := k + 1;
    }
  }

  /** Lay the platforms of the layout table, each tile by tile. */
  method BuildPlatforms(ps: seq<Platform>) returns (ts: seq<Rect>)
    ensures ts == PlatformTiles(ps)
  {
    ts := [];
    var j := 0;
    while j < |ps|
      invariant 0 <= j <= |ps|
      invariant ts == PlatformTiles(ps[..j])
    {
      var p := ps[j];
      var i := 0;
      ghost var before := ts;
      while i < p.length
        invariant 0 <= i <= p.length
        invariant ts == before + PlatformRow(p, i)
      {
        ts := ts + [Tile(p.x + i * TileSize, p.y)];
        i := i + 1;
      }
      assert ps[..j + 1][..j] == ps[..j];
      j := j + 1;
    }
    assert ps[..j] == ps;
  }

  /** All of a generator's tiles. */
  method BuildTiles(g: Generator, ps: seq<Platform>) returns (ts: seq<Rect>)
    ensures ts == LevelTiles(g, ps)
  {
    ts := BuildGround(g);
    if g == FortressLevel {
      var ceiling := BuildCeiling(LevelWidth(g));
      ts := ts + ceiling;
    } else {
      ts := ts + [];
    }
    if g == BossLevel {
      var walls := BuildWalls(LevelWidth(g), GroundY(g));
      ts := ts + walls;
    } else {
      ts := ts + [];
    }
    var platforms := BuildPlatforms(ps);
    ts := ts + platforms;
  }

  // ------------------------------------------------------- placement tables

  /** A `create_enemy(kind, x, y)` entry of a layout table. */
  datatype Spawn = Spawn(kind: EnemyKind, x: int, y: int)

  /** An item entry of a layout table (one `spawn_*` call). */
  datatype Pickup = Pickup(kind: ItemKind, x: int, y: int)

  /** The hand-authored part of a generator: its platforms, enemies and items. */
  datatype Layout = Layout(platforms: seq<Platform>, spawns: seq<Spawn>, pickups: seq<Pickup>)

  /** Create the enemies of a table, each a fresh object in its initial state. */
  method SpawnEnemies(spawns: seq<Spawn>) returns (es: seq<Enemy>)
    ensures |es| == |spawns|
    ensures forall i :: 0 <= i < |es| ==> fresh(es[i])
    ensures forall i, j :: 0 <= i < j < |es| ==> es[i] != es[j]
    ensures forall i :: 0 <= i < |es| ==>
      es[i].kind == spawns[i].kind && es[i].health == MaxHealthOf(spawns[i].kind) &&
      es[i].State() == InitialMind(spawns[i].kind, spawns[i].x, spawns[i].y)
  {
    es := [];
    var i := 0;
    while i < |spawns|
      invariant 0 <= i <= |spawns| && |es| == i
      invariant forall j :: 0 <= j < i ==> fresh(es[j])
      invariant forall j, k :: 0 <= j < k < i ==> es[j] != es[k]
      invariant forall j :: 0 <= j < i ==>
        es[j].kind == spawns[j].kind && es[j].health == MaxHealthOf(spawns[j].kind) &&
        es[j].State() == InitialMind(spawns[j].kind, spawns[j].x, spawns[j].y)
    {
      var e := new Enemy(spawns[i].kind, spawns[i].x, spawns[i].y);
      es := es + [e];
      i := i + 1;
    }
  }

  /** The item manager of a new level, filled with its pickups in order. */
  method PlaceItems(pickups: seq<Pickup>) returns (manager: ItemManager)
    ensures fresh(manager) && manager.items == PlacedItems(pickups)
  {
    manager := new ItemManager();
    var i := 0;
    while i < |pickups|
      invariant 0 <= i <= |pickups| && fresh(manager)
      invariant manager.items == PlacedItems(pickups[..i])
    {
      var p := pickups[i];
      manager.AddItem(NewItem(p.kind, p.x, p.y));
      assert pickups[..i + 1][..i] == pickups[..i];
      i := i + 1;
    }
    assert pickups[..i] == pickups;
  }

  function PlacedItems(ps: seq<Pickup>): seq<Item>
  {
    if |ps| == 0 then [] else PlacedItems(ps[..|ps| - 1]) + [NewItem(ps[|ps| - 1].kind, ps[|ps| - 1].x, ps[|ps| - 1].y)]
  }

  // ------------------------------------------------------- completion

  /**
   * `completed` after the checks of `update`: the boss level is done once
   * no enemy is left, any level once the hero touches its exit, and a
   * completed level stays completed.
   */
  function CompletedAfter(completed: bool, levelId: string, enemyCount: nat, exit: Option<Rect>, player: Rect): bool
  {
    completed || (levelId == "boss" && enemyCount == 0) || (exit.Some? && Collide(player, exit.value))
  }

  /**
   * Completion never reverts; the arena, which has no exit, completes
   * only once the boss is gone; every other level completes only at its
   * exit.
   */
  lemma CompletionRules(completed: bool, levelId: string, enemyCount: nat, player: Rect)
    ensures var g := GeneratorFor(levelId);
      (completed ==> CompletedAfter(completed, levelId, enemyCount, ExitFor(g), player)) &&
      (g == BossLevel ==> (CompletedAfter(completed, levelId, enemyCount, ExitFor(g), player) <==> completed || enemyCount == 0)) &&
      (g != BossLevel ==> (CompletedAfter(completed, levelId, enemyCount, ExitFor(g), player) <==>
                           completed || Collide(player, ExitFor(g).value)))
  {
  }

  /** The follow target: the hero's centre in the middle of the screen. */
  function CameraTarget(player: Rect): (real, real)
  {
    ((player.CenterX() - ScreenWidth / 2) as real, (player.CenterY() - ScreenHeight / 2) as real)
  }

  /**
   * On the 600 px high levels the camera never leaves the top edge, and
   * on every level it stays within the level's width.
   */
  lemma CameraBounds(g: Generator, cx: real, cy: real, player: Rect)
    ensures var x := Cameras.Clamp(Cameras.Smooth(cx, CameraTarget(player).0, 0.1), LevelWidth(g) - ScreenWidth);
      0.0 <= x <= (LevelWidth(g) - ScreenWidth) as real
    ensures LevelHeight(g) == ScreenHeight ==>
      Cameras.Clamp(Cameras.Smooth(cy, CameraTarget(player).1, 0.05), LevelHeight(g) - ScreenHeight) == 0.0
  {
  }

  // ------------------------------------------------------- the level

  class Level {
    const levelId: string
    const levelType: string
    const generator: Generator
    const name: string
    const width: int
    const height: int
    const tiles: seq<Rect>
    const exitRect: Option<Rect>
    const startX: int
    const startY: int
    const items: ItemManager
    var enemies: seq<Enemy>
    var cameraX: real
    var cameraY: real
    var completed: bool

    ghost predicate Valid()
      reads this
    {
      cameraX >= 0.0 && cameraY >= 0.0 &&
      Unique(enemies) &&
      generator == GeneratorFor(levelId) && exitRect == ExitFor(generator) &&
      width == LevelWidth(generator) && height == LevelHeight(generator)
    }

    /** The enemy objects, which `update` may change. */
    function EnemySet(): set<Enemy>
      reads this`enemies
    {
      Crowd(enemies)
    }

    /** `Level(level_id, level_type)`: generate the layout the id selects from its tables. */
    constructor (levelId: string, levelType: string, layout: Layout)
      ensures Valid() && fresh(items) && !completed && cameraX == 0.0 && cameraY == 0.0
      ensures this.levelId == levelId && this.levelType == levelType && name == LevelName(levelId)
      ensures tiles == LevelTiles(GeneratorFor(levelId), layout.platforms)
      ensures (startX, startY) == StartFor(generator)
      ensures items.items == PlacedItems(layout.pickups)
      ensures |enemies| == |layout.spawns|
      ensures forall i :: 0 <= i < |enemies| ==> fresh(enemies[i])
      ensures forall i :: 0 <= i < |enemies| ==>
        enemies[i].kind == layout.spawns[i].kind && enemies[i].health == MaxHealthOf(layout.spawns[i].kind) &&
        enemies[i].State() == InitialMind(layout.spawns[i].kind, layout.spawns[i].x, layout.spawns[i].y)
    {
      var g := GeneratorFor(levelId);
      this.levelId := levelId;
      this.levelType := levelType;
      generator := g;
      name := LevelName(levelId);
      width := LevelWidth(g);
      height := LevelHeight(g);
      var ts := BuildTiles(g, layout.platforms);
      tiles := ts;
      exitRect := ExitFor(g);
      startX := StartFor(g).0;
      startY := StartFor(g).1;
      var manager := PlaceItems(layout.pickups);
      items := manager;
      var es := SpawnEnemies(layout.spawns);
      enemies := es;
      cameraX := 0.0;
      cameraY := 0.0;
      completed := false;
    }

    /** `update_camera`: follow the hero, 0.1 of the way across and 0.05 down, then clamp to the level. */
    method UpdateCamera(player: Rect)
      requires Valid()
      modifies this`cameraX, this`cameraY
      ensures Valid()
      ensures cameraX == Cameras.Clamp(Cameras.Smooth(old(cameraX), CameraTarget(player).0, 0.1), width - ScreenWidth)
      ensures cameraY == Cameras.Clamp(Cameras.Smooth(old(cameraY), CameraTarget(player).1, 0.05), height - ScreenHeight)
    {
      var targetX := (player.CenterX() - ScreenWidth / 2) as real;
      var targetY := (player.CenterY() - ScreenHeight / 2) as real;
      cameraX := Cameras.Clamp(cameraX + (targetX - cameraX) * 0.1, width - ScreenWidth);
      cameraY := Cameras.Clamp(cameraY + (targetY - cameraY) * 0.05, height - ScreenHeight);
    }

    /** `get_camera_offset`: the camera truncated to whole pixels. */
    function CameraOffset(): (o: (int, int))
      requires Valid()
      reads this
      ensures 0 <= o.0 && o.0 as real <= cameraX < (o.0 + 1) as real
      ensures 0 <= o.1 && o.1 as real <= cameraY < (o.1 + 1) as real
    {
      (Cameras.Offset(cameraX), Cameras.Offset(cameraY))
    }

    /**
     * `update`: the camera, then every enemy in group order (the bat's
     * flight velocity for the enemy at index `i` is `flight(i)`), then
     * the completion checks. Nothing is ever un-completed.
     */
    method Update(player: Rect, flight: nat -> (int, int))
      requires Valid()
      modifies this`cameraX, this`cameraY, this`completed, EnemySet()
      ensures Valid()
      ensures cameraX == Cameras.Clamp(Cameras.Smooth(old(cameraX), CameraTarget(player).0, 0.1), width - ScreenWidth)
      ensures cameraY == Cameras.Clamp(Cameras.Smooth(old(cameraY), CameraTarget(player).1, 0.05), height - ScreenHeight)
      ensures forall i :: 0 <= i < |enemies| ==> enemies[i].health == old(enemies[i].health)
      ensures forall i :: 0 <= i < |enemies| ==>
        enemies[i].State() == Tick(enemies[i].Attributes(), enemies[i].health, old(enemies[i].State()), player, tiles, flight(i))
      ensures completed == CompletedAfter(old(completed), levelId, |enemies|, exitRect, player)
    {
      UpdateCamera(player);
      UpdateEnemies(player, flight);
      if levelId == "boss" && |enemies| == 0 {
        completed := true;
      }
      if exitRect.Some? && Collide(player, exitRect.value) {
        completed := true;
      }
    }

    /** Each enemy's `update`, in group order. */
    method UpdateEnemies(player: Rect, flight: nat -> (int, int))
      requires Valid()
      modifies EnemySet()
      ensures forall i :: 0 <= i < |enemies| ==> enemies[i].health == old(enemies[i].health)
      ensures forall i :: 0 <= i < |enemies| ==>
        enemies[i].State() == Tick(enemies[i].Attributes(), enemies[i].health, old(enemies[i].State()), player, tiles, flight(i))
    {
      var i := 0;
      while i < |enemies|
        invariant 0 <= i <= |enemies|
        invariant forall j :: 0 <= j < |enemies| ==> enemies[j].health == old(enemies[j].health)
        invariant forall j :: 0 <= j < i ==>
          enemies[j].State() == Tick(enemies[j].Attributes(), enemies[j].health, old(enemies[j].State()), player, tiles, flight(j))
        invariant forall j :: i <= j < |enemies| ==> enemies[j].State() == old(enemies[j].State())
      {
        var e := enemies[i];
        assert forall j :: 0 <= j < |enemies| && j != i ==> enemies[j] != e;
        e.Update(player, tiles, flight(i));
        i := i + 1;
      }
    }
  }
}
