/**
 * The overworld: a grid of terrain tiles built from the map rows, and the
 * level markers whose completion unlocks the next level.
 */
module WorldMaps {
  import opened Options
  import opened Rects
  import opened Settings
  import Cameras

  datatype Terrain = Grass | Forest | Mountain | Water | Path | CastleLand | CaveLand | FortressLand | BossLand

  /** The legend: each known map character's terrain and whether it can be walked on. */
  function Legend(c: char): Option<(Terrain, bool)>
  {
    match c
    case 'G' => Some((Grass, true))
    case 'F' => Some((Forest, false))
    case 'M' => Some((Mountain, false))
    case 'W' => Some((Water, false))
    case 'P' => Some((Path, true))
    case 'C' => Some((CastleLand, true))
    case 'V' => Some((CaveLand, true))
    case 'R' => Some((FortressLand, true))
    case 'B' => Some((BossLand, true))
    case _ => None
  }

  /** Forest, mountain and water block; the other legend entries are walkable; any other character is no tile at all. */
  lemma LegendWalkability(c: char)
    ensures Legend(c).Some? <==> c in "GFMWPCVRB"
    ensures Legend(c).Some? ==> (Legend(c).value.1 <==> c in "GPCVRB")
  {
  }

  /** World tiles and markers are 16-pixel images drawn at scale 2. */
  const WorldTileSize: nat := 32

  datatype WorldTile = WorldTile(rect: Rect, terrain: Terrain, walkable: bool)

  /** The tile a legend character at grid cell (x, y) becomes. */
  function TileAt(x: int, y: int, entry: (Terrain, bool)): WorldTile
  {
    WorldTile(Rect(x * WorldTileSize, y * WorldTileSize, WorldTileSize, WorldTileSize), entry.0, entry.1)
  }

  /** The tiles of one map row, left to right. */
  function RowTiles(row: string, y: int): seq<WorldTile>
    decreases |row|
  {
    if row == [] then []
    else
      var x := |row| - 1;
      RowTiles(row[..x], y) + (if Legend(row[x]).Some? then [TileAt(x, y, Legend(row[x]).value)] else [])
  }

  /** The tiles of the whole map, row by row. */
  function MapTiles(rows: seq<string>): seq<WorldTile>
    decreases |rows|
  {
    if rows == [] then []
    else
      var y := |rows| - 1;
      MapTiles(rows[..y]) + RowTiles(rows[y], y)
  }

  /** Whether the map has a legend character at (x, y) that becomes `t`. */
  ghost predicate TileOf(rows: seq<string>, x: int, y: int, t: WorldTile)
  {
    0 <= y < |rows| && 0 <= x < |rows[y]| && Legend(rows[y][x]).Some? && t == TileAt(x, y, Legend(rows[y][x]).value)
  }

  lemma RowTilesAre(row: string, y: int, t: WorldTile)
    ensures t in RowTiles(row, y) <==>
      exists x :: 0 <= x < |row| && Legend(row[x]).Some? && t == TileAt(x, y, Legend(row[x]).value)
  {
    if t in RowTiles(row, y) {
      RowTilesSound(row, y, t);
    }
    if exists x :: 0 <= x < |row| && Legend(row[x]).Some? && t == TileAt(x, y, Legend(row[x]).value) {
      var x :| 0 <= x < |row| && Legend(row[x]).Some? && t == TileAt(x, y, Legend(row[x]).value);
      RowTilesComplete(row, x, y, t);
    }
  }

  lemma {:induction false} RowTilesSound(row: string, y: int, t: WorldTile)
    requires t in RowTiles(row, y)
    ensures exists x :: 0 <= x < |row| && Legend(row[x]).Some? && t == TileAt(x, y, Legend(row[x]).value)
    decreases |row|
  {
    var n := |row| - 1;
    if t in RowTiles(row[..n], y) {
      RowTilesSound(row[..n], y, t);
      var x :| 0 <= x < n && Legend(row[..n][x]).Some? && t == TileAt(x, y, Legend(row[..n][x]).value);
      assert row[..n][x] == row[x];
    } else {
      assert Legend(row[n]).Some? && t == TileAt(n, y, Legend(row[n]).value);
    }
  }

  lemma {:induction false} RowTilesComplete(row: string, x: int, y: int, t: WorldTile)
    requires 0 <= x < |row| && Legend(row[x]).Some? && t == TileAt(x, y, Legend(row[x]).value)
    ensures t in RowTiles(row, y)
    decreases |row|
  {
    var n := |row| - 1;
    if x < n {
      assert row[..n][x] == row[x];
      RowTilesComplete(row[..n], x, y, t);
    }
  }

  /**
   * `generate_map` makes one tile for every legend character of the map,
   * placed at its grid cell, and none for any other character.
   */
  lemma MapTilesAre(rows: seq<string>, t: WorldTile)
    ensures t in MapTiles(rows) <==> exists y, x :: TileOf(rows, x, y, t)
  {
    if t in MapTiles(rows) {
      MapTilesSound(rows, t);
    }
    if exists y, x :: TileOf(rows, x, y, t) {
      var y, x :| TileOf(rows, x, y, t);
      MapTilesComplete(rows, x, y, t);
    }
  }

  /** Every tile of the map comes from a legend character at its cell. */
  lemma {:induction false} MapTilesSound(rows: seq<string>, t: WorldTile)
    requires t in MapTiles(rows)
    ensures exists y, x :: TileOf(rows, x, y, t)
    decreases |rows|
  {
    var n := |rows| - 1;
    var pre := rows[..n];
    assert MapTiles(rows) == MapTiles(pre) + RowTiles(rows[n], n);
    if t in MapTiles(pre) {
      MapTilesSound(pre, t);
      var y, x :| TileOf(pre, x, y, t);
      assert pre[y] == rows[y];
      assert TileOf(rows, x, y, t);
    } else {
      RowTilesAre(rows[n], n, t);
      var x :| 0 <= x < |rows[n]| && Legend(rows[n][x]).Some? && t == TileAt(x, n, Legend(rows[n][x]).value);
      assert TileOf(rows, x, n, t);
    }
  }

  /** Every legend character of the map gives its tile. */
  lemma {:induction false} MapTilesComplete(rows: seq<string>, x: int, y: int, t: WorldTile)
    requires TileOf(rows, x, y, t)
    ensures t in MapTiles(rows)
    decreases |rows|
  {
    var n := |rows| - 1;
    var pre := rows[..n];
    assert MapTiles(rows) == MapTiles(pre) + RowTiles(rows[n], n);
    if y < n {
      assert pre[y] == rows[y];
      MapTilesComplete(pre, x, y, t);
    } else {
      RowTilesAre(rows[n], n, t);
    }
  }

  /** A level entrance on the map. */
  datatype Marker = Marker(levelId: string, levelName: string, levelType: string,
                           completed: bool, unlocked: bool, rect: Rect)

  function MarkerAt(gridX: int, gridY: int, levelId: string, levelName: string, levelType: string): Marker
  {
    Marker(levelId, levelName, levelType, false, false,
           Rect(gridX * WorldTileSize, gridY * WorldTileSize, WorldTileSize, WorldTileSize))
  }

  /** The four markers in progression order, with only the first unlocked. */
  function InitialMarkers(): (ms: seq<Marker>)
    ensures |ms| == 4
    ensures ms[0].unlocked && forall i :: 1 <= i < |ms| ==> !ms[i].unlocked
    ensures forall i :: 0 <= i < |ms| ==> !ms[i].completed
  {
    [MarkerAt(10, 4, "castle", "Castle Entrance", "castle").(unlocked := true),
     MarkerAt(9, 10, "cave", "Dark Cave", "cave"),
     MarkerAt(17, 11, "fortress", "Cannon's Domain", "castle"),
     MarkerAt(19, 14, "boss", "Cannon's Throne", "boss")]
  }

  /** `get_walkable_tiles`: despite its name, the tiles that block movement. */
  function BlockingTiles(tiles: seq<WorldTile>): (r: seq<WorldTile>)
    ensures forall t :: t in r <==> t in tiles && !t.walkable
  {
    if tiles == [] then []
    else (if tiles[0].walkable then [] else [tiles[0]]) + BlockingTiles(tiles[1..])
  }

  /** `get_current_level_marker`: the first unlocked marker the player overlaps. */
  function FirstMarkerAt(ms: seq<Marker>, r: Rect): (o: Option<nat>)
    ensures o.Some? ==> o.value < |ms| && ms[o.value].unlocked && Collide(r, ms[o.value].rect)
    ensures o.Some? ==> forall j :: 0 <= j < o.value ==> !(ms[j].unlocked && Collide(r, ms[j].rect))
    ensures o.None? ==> forall j :: 0 <= j < |ms| ==> !(ms[j].unlocked && Collide(r, ms[j].rect))
  {
    if ms == [] then None
    else if ms[0].unlocked && Collide(r, ms[0].rect) then Some(0)
    else match FirstMarkerAt(ms[1..], r)
      case None => None
      case Some(k) => Some(k + 1)
  }

  /** The index of the first marker with a given level id. */
  function IndexOf(ms: seq<Marker>, levelId: string): (o: Option<nat>)
    ensures o.Some? ==> o.value < |ms| && ms[o.value].levelId == levelId
    ensures o.Some? ==> forall j :: 0 <= j < o.value ==> ms[j].levelId != levelId
    ensures o.None? ==> forall j :: 0 <= j < |ms| ==> ms[j].levelId != levelId
  {
    if ms == [] then None
    else if ms[0].levelId == levelId then Some(0)
    else match IndexOf(ms[1..], levelId)
      case None => None
      case Some(k) => Some(k + 1)
  }

  /**
   * `complete_level`: the first marker with that id is marked completed
   * and the one after it, if any, unlocked; nothing else changes, and an
   * unknown id changes nothing.
   */
  function AfterCompletion(ms: seq<Marker>, levelId: string): (r: seq<Marker>)
    ensures |r| == |ms|
    ensures IndexOf(ms, levelId).None? ==> r == ms
    ensures IndexOf(ms, levelId).Some? ==> var i := IndexOf(ms, levelId).value;
      forall j :: 0 <= j < |ms| ==>
        r[j].completed == (ms[j].completed || j == i) &&
        r[j].unlocked == (ms[j].unlocked || j == i + 1) &&
        r[j] == ms[j].(completed := r[j].completed, unlocked := r[j].unlocked)
  {
    match IndexOf(ms, levelId)
    case None => ms
    case Some(i) =>
      var done := ms[i := ms[i].(completed := true)];
      if i + 1 < |ms| then done[i + 1 := done[i + 1].(unlocked := true)] else done
  }

  /** Markers are unlocked in order and only unlocked levels are completed. */
  ghost predicate Progressive(ms: seq<Marker>)
  {
    (forall i, j :: 0 <= i < j < |ms| && ms[j].unlocked ==> ms[i].unlocked) &&
    (forall i :: 0 <= i < |ms| && ms[i].completed ==> ms[i].unlocked)
  }

  /**
   * Completing an unlocked level keeps the markers progressive: the
   * unlocked markers stay a prefix of the progression. The initial
   * markers are progressive.
   */
  lemma {:induction false} CompletionKeepsProgression(ms: seq<Marker>, levelId: string)
    requires Progressive(ms)
    requires IndexOf(ms, levelId).Some? ==> ms[IndexOf(ms, levelId).value].unlocked
    ensures Progressive(AfterCompletion(ms, levelId))
    ensures Progressive(InitialMarkers())
  {
    var r := AfterCompletion(ms, levelId);
    if IndexOf(ms, levelId).Some? {
      var k := IndexOf(ms, levelId).value;
      forall i, j | 0 <= i < j < |r| && r[j].unlocked ensures r[i].unlocked {
        if j == k + 1 {
          assert r[k].unlocked;
          if i < k { assert ms[k].unlocked; }
        } else {
          assert ms[j].unlocked;
        }
      }
    }
  }

  /** `names.get(tile_type, '')`: the fortress terrain has no name. */
  function TerrainName(t: Terrain): string
  {
    match t
    case Grass => "Grasslands"
    case Forest => "Dense Forest"
    case Mountain => "Mountains"
    case Water => "Ocean"
    case Path => "The Road"
    case CastleLand => "Castle"
    case CaveLand => "Cave Entrance"
    case BossLand => "Cannon's Domain"
    case FortressLand => ""
  }

  /** The index of the first tile the player overlaps. */
  function FirstTileAt(tiles: seq<WorldTile>, r: Rect): (o: Option<nat>)
    ensures o.Some? ==> o.value < |tiles| && Collide(r, tiles[o.value].rect)
    ensures o.Some? ==> forall j :: 0 <= j < o.value ==> !Collide(r, tiles[j].rect)
    ensures o.None? ==> forall j :: 0 <= j < |tiles| ==> !Collide(r, tiles[j].rect)
  {
    if tiles == [] then None
    else if Collide(r, tiles[0].rect) then Some(0)
    else match FirstTileAt(tiles[1..], r)
      case None => None
      case Some(k) => Some(k + 1)
  }

  /** The camera never scrolls past the 25 x 19 grid of 32-pixel tiles. */
  const CameraMaxX: int := WorldMapWidth * WorldTileSize - ScreenWidth
  const CameraMaxY: int := WorldMapHeight * WorldTileSize - ScreenHeight

  class WorldMap {
    var tiles: seq<WorldTile>
    var markers: seq<Marker>
    var cameraX: real
    var cameraY: real

    ghost predicate Valid()
      reads this
    {
      |markers| == 4 && cameraX >= 0.0 && cameraY >= 0.0
    }

    /** `__init__` and `generate_map`: the nested loop over the map rows. */
    constructor (mapData: seq<string>)
      ensures Valid()
      ensures tiles == MapTiles(mapData) && markers == InitialMarkers()
      ensures cameraX == 0.0 && cameraY == 0.0
    {
      cameraX := 0.0;
      cameraY := 0.0;
      var acc: seq<WorldTile> := [];
      var y := 0;
      while y < |mapData|
        invariant 0 <= y <= |mapData|
        invariant acc == MapTiles(mapData[..y])
      {
        var row := mapData[y];
        var x := 0;
        while x < |row|
          invariant 0 <= x <= |row|
          invariant acc == MapTiles(mapData[..y]) + RowTiles(row[..x], y)
        {
          var entry := Legend(row[x]);
          if entry.Some? {
            acc := acc + [TileAt(x, y, entry.value)];
          }
          assert row[..x + 1][..x] == row[..x];
          x := x + 1;
        }
        assert row[..x] == row;
        assert mapData[..y + 1][..y] == mapData[..y];
        y := y + 1;
      }
      assert mapData[..y] == mapData;
      tiles := acc;
      markers := InitialMarkers();
    }

    function WalkableTiles(): seq<WorldTile>
      reads this
    {
      BlockingTiles(tiles)
    }

    function CurrentLevelMarker(playerRect: Rect): (o: Option<Marker>)
      reads this
      ensures o.Some? ==> o.value in markers && o.value.unlocked && Collide(playerRect, o.value.rect)
      ensures o.None? ==> forall m :: m in markers ==> !(m.unlocked && Collide(playerRect, m.rect))
    {
      match FirstMarkerAt(markers, playerRect)
      case None => None
      case Some(i) => Some(markers[i])
    }

    /** `complete_level`: a loop that stops at the first marker with the id. */
    method CompleteLevel(levelId: string)
      requires Valid()
      modifies this`markers
      ensures Valid() && markers == AfterCompletion(old(markers), levelId)
    {
      var i := 0;
      while i < |markers|
        invariant 0 <= i <= |markers| && markers == old(markers)
        invariant forall j :: 0 <= j < i ==> markers[j].levelId != levelId
      {
        if markers[i].levelId == levelId {
          assert IndexOf(markers, levelId) == Some(i);
          markers := markers[i := markers[i].(completed := true)];
          if i + 1 < |markers| {
            markers := markers[i + 1 := markers[i + 1].(unlocked := true)];
          }
          return;
        }
        i := i + 1;
      }
    }

    /** `get_start_position`: one 64-pixel step below the first marker. */
    function StartPosition(): (p: (int, int))
      reads this
      requires Valid()
      ensures p.0 == markers[0].rect.x && p.1 > markers[0].rect.y
      ensures markers[0].rect.h <= TileSize * PixelScale ==>
        forall w: nat, h: nat :: !Collide(Rect(p.0, p.1, w, h), markers[0].rect)
    {
      (markers[0].rect.x, markers[0].rect.y + TileSize * PixelScale)
    }

    /** `update_camera`: follow the player with smoothing factor 0.1 on both axes, then clamp. */
    method UpdateCamera(playerRect: Rect)
      requires Valid()
      modifies this`cameraX, this`cameraY
      ensures Valid()
      ensures cameraX == Cameras.Clamp(Cameras.Smooth(old(cameraX), (playerRect.CenterX() - ScreenWidth / 2) as real, 0.1), CameraMaxX)
      ensures cameraY == Cameras.Clamp(Cameras.Smooth(old(cameraY), (playerRect.CenterY() - ScreenHeight / 2) as real, 0.1), CameraMaxY)
    {
      var targetX := (playerRect.CenterX() - ScreenWidth / 2) as real;
      var targetY := (playerRect.CenterY() - ScreenHeight / 2) as real;
      cameraX := Cameras.Clamp(cameraX + (targetX - cameraX) * 0.1, CameraMaxX);
      cameraY := Cameras.Clamp(cameraY + (targetY - cameraY) * 0.1, CameraMaxY);
    }

    /** `get_location_name`: the marker under the player with its status, else the first tile's terrain name, else empty. */
    function LocationName(playerRect: Rect): string
      reads this
    {
      match CurrentLevelMarker(playerRect)
      case Some(m) => m.levelName + (if m.completed then " (Completed)" else " (Press ENTER)")
      case None =>
        match FirstTileAt(tiles, playerRect)
        case Some(i) => TerrainName(tiles[i].terrain)
        case None => ""
    }
  }

  /**
   * What the location line shows: a marker's name and status take
   * precedence; otherwise the first overlapping tile decides, and a
   * position over no tile has no name.
   */
  lemma LocationNameCases(w: WorldMap, r: Rect)
    ensures var m := FirstMarkerAt(w.markers, r);
      m.Some? ==>
        w.LocationName(r) == w.markers[m.value].levelName +
          (if w.markers[m.value].completed then " (Completed)" else " (Press ENTER)")
    ensures FirstMarkerAt(w.markers, r).None? && FirstTileAt(w.tiles, r).None? ==> w.LocationName(r) == ""
    ensures FirstMarkerAt(w.markers, r).None? && FirstTileAt(w.tiles, r).Some? ==>
      w.LocationName(r) == TerrainName(w.tiles[FirstTileAt(w.tiles, r).value].terrain)
  {
  }
}
