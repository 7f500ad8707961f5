/**
 * The game's screens and what drives them: key presses on the menu, the
 * pause menu and the end screens; entering a level from a world-map
 * marker and leaving it again; and the end-of-frame checks of a level
 * (pit falls, death, the level-skip key and completion).
 */
module Games {
  import opened Options
  import opened Rects
  import opened Settings
  import opened Input
  import opened Players
  import opened WorldMaps
  import opened Levels
  import opened Combat
  import Items
  import Cameras

  /** `STATE_MENU` … `STATE_VICTORY`. */
  datatype Screen = MenuScreen | WorldMapScreen | LevelScreen | PauseScreen | GameOverScreen | VictoryScreen

  /** The menu's options, in order. */
  const MenuOptions: seq<string> := ["New Game", "Controls", "Quit"]
  const MenuOptionCount: int := |MenuOptions|

  /** What the key handlers change besides the game objects: the screen, the menu cursor, the controls page, the run flag. */
  datatype Front = Front(screen: Screen, selection: int, controls: bool, running: bool)

  /** What a key press asks of the game objects: nothing, `new_game()`, or `exit_level(completed=False)`. */
  datatype Order = Stay | StartGame | LeaveLevel

  predicate Selectable(f: Front)
  {
    0 <= f.selection < MenuOptionCount
  }

  /**
   * `handle_menu_input`. The controls page only closes, on RETURN or ESC;
   * the arrows move the cursor round the three options; RETURN acts on the
   * option under the cursor (a new game opens the world map).
   */
  function MenuKey(f: Front, k: Key): (r: (Front, Order))
    requires Selectable(f)
    ensures Selectable(r.0)
  {
    if f.controls then
      (if k == Return || k == Escape then f.(controls := false) else f, Stay)
    else if k == ArrowUp then (f.(selection := (f.selection - 1) % MenuOptionCount), Stay)
    else if k == ArrowDown then (f.(selection := (f.selection + 1) % MenuOptionCount), Stay)
    else if k == Return then
      if MenuOptions[f.selection] == "New Game" then (f.(screen := WorldMapScreen), StartGame)
      else if MenuOptions[f.selection] == "Controls" then (f.(controls := true), Stay)
      else (f.(running := false), Stay)
    else (f, Stay)
  }

  /** `handle_pause_input`: ESC resumes the level, Q gives it up for the world map. */
  function PauseKey(f: Front, k: Key): (Front, Order)
  {
    if k == Escape then (f.(screen := LevelScreen), Stay)
    else if k == KeyQ then (f.(screen := WorldMapScreen), LeaveLevel)
    else (f, Stay)
  }

  /** `handle_game_over_input` and `handle_victory_input`: RETURN goes back to the menu. */
  function EndKey(f: Front, k: Key): Front
  {
    if k == Return then f.(screen := MenuScreen) else f
  }

  /** One event of `handle_events`: a quit request stops the game; a key press goes to the current screen's handler. */
  function EventStep(f: Front, e: Event): (r: (Front, Order))
    requires Selectable(f)
    ensures Selectable(r.0)
  {
    match e
    case Quit => (f.(running := false), Stay)
    case KeyDown(k) =>
      match f.screen
      case MenuScreen => MenuKey(f, k)
      case PauseScreen => PauseKey(f, k)
      case GameOverScreen => (EndKey(f, k), Stay)
      case VictoryScreen => (EndKey(f, k), Stay)
      case LevelScreen => (if k == Escape then f.(screen := PauseScreen) else f, Stay)
      case WorldMapScreen => (if k == Escape then f.(screen := MenuScreen) else f, Stay)
  }

  /** The events of one frame in order. */
  function Navigate(f: Front, es: seq<Event>): (r: Front)
    requires Selectable(f)
    ensures Selectable(r)
    decreases |es|
  {
    if es == [] then f else EventStep(Navigate(f, es[..|es| - 1]), es[|es| - 1]).0
  }

  /** The keys of the frame's KEYDOWN events, as `handle_level_input` sees them. */
  function KeysPressed(es: seq<Event>): (ks: seq<Key>)
    ensures forall k :: k in ks <==> KeyDown(k) in es
    decreases |es|
  {
    if es == [] then []
    else
      var ks := KeysPressed(es[..|es| - 1]);
      assert es == es[..|es| - 1] + [es[|es| - 1]];
      match es[|es| - 1]
      case KeyDown(k) => ks + [k]
      case Quit => ks
  }

  // ------------------------------------------------------- properties of the key handlers

  /** The menu cursor moves round the options: up from the first goes to the last, and down undoes up. */
  lemma MenuCursorWraps(f: Front)
    requires Selectable(f) && f.screen == MenuScreen && !f.controls
    ensures MenuKey(f, ArrowUp).0.selection == (if f.selection == 0 then MenuOptionCount - 1 else f.selection - 1)
    ensures MenuKey(f, ArrowDown).0.selection == (if f.selection == MenuOptionCount - 1 then 0 else f.selection + 1)
    ensures MenuKey(MenuKey(f, ArrowUp).0, ArrowDown).0 == f
    ensures MenuKey(MenuKey(f, ArrowDown).0, ArrowUp).0 == f
  {
  }

  /** ESC pauses a level and ESC again resumes it, with nothing else changed. */
  lemma PauseRoundTrip(f: Front)
    requires Selectable(f) && f.screen == LevelScreen
    ensures EventStep(f, KeyDown(Escape)) == (f.(screen := PauseScreen), Stay)
    ensures EventStep(EventStep(f, KeyDown(Escape)).0, KeyDown(Escape)) == (f, Stay)
  {
  }

  /**
   * Which key presses reach the game objects: a new game only from RETURN
   * on the menu's first option, and leaving a level only from Q on the
   * pause menu.
   */
  lemma OrdersComeFrom(f: Front, e: Event)
    requires Selectable(f)
    ensures EventStep(f, e).1 == StartGame <==>
      f.screen == MenuScreen && !f.controls && f.selection == 0 && e == KeyDown(Return)
    ensures EventStep(f, e).1 == LeaveLevel <==> f.screen == PauseScreen && e == KeyDown(KeyQ)
  {
  }

  /**
   * Key presses never end a game: the game-over and victory screens are
   * reached only by a level's update, and on them only RETURN does
   * anything, going back to the menu.
   */
  lemma EndScreensByKey(f: Front, e: Event)
    requires Selectable(f)
    ensures var r := EventStep(f, e).0.screen;
      (r == GameOverScreen ==> f.screen == GameOverScreen) && (r == VictoryScreen ==> f.screen == VictoryScreen)
    ensures f.screen in {GameOverScreen, VictoryScreen} && e.KeyDown? ==>
      EventStep(f, e) == (if e.key == Return then f.(screen := MenuScreen) else f, Stay)
  {
  }

  /** Once the game has been told to stop, no later event of the frame restarts it. */
  lemma {:induction false} StoppedStaysStopped(f: Front, es: seq<Event>)
    requires Selectable(f)
    ensures !f.running ==> !Navigate(f, es).running
    ensures Quit in es ==> !Navigate(f, es).running
    decreases |es|
  {
    if es != [] {
      var pre := es[..|es| - 1];
      StoppedStaysStopped(f, pre);
      assert es == pre + [es[|es| - 1]];
    }
  }

  // ------------------------------------------------------- the end of a level frame

  /**
   * The screen `update_level` ends on: a completed level (by its own
   * rules or the level-skip key) leaves for the victory screen after the
   * boss and for the world map otherwise, even when the hero died in the
   * same frame; else the hero's health after a possible pit fall decides.
   */
  function Judge(health: int, completed: bool, boss: bool): Screen
  {
    if completed then (if boss then VictoryScreen else WorldMapScreen)
    else if health <= 0 then GameOverScreen
    else LevelScreen
  }

  /** The health a frame's pit check leaves: a fall costs exactly 1. */
  function AfterPit(health: int, fell: bool): int
  {
    if fell then health - 1 else health
  }

  /**
   * A frame stays in the level exactly when the level is not completed
   * and the hero still has health after a possible fall; a fall with 1
   * health left ends the game unless the level is completed; completion
   * wins over death.
   */
  lemma JudgeRules(health: int, fell: bool, completed: bool, boss: bool)
    ensures var s := Judge(AfterPit(health, fell), completed, boss);
      (s == LevelScreen <==> !completed && AfterPit(health, fell) > 0) &&
      (fell && health == 1 && !completed ==> s == GameOverScreen) &&
      (completed ==> s != GameOverScreen && s != LevelScreen) &&
      s in {LevelScreen, GameOverScreen, WorldMapScreen, VictoryScreen}
  {
  }

  // ------------------------------------------------------- entering levels

  /** Where the hero stands on a level's generator before it moves: its start position. */
  function LevelStart(levelId: string): (int, int)
  {
    StartFor(GeneratorFor(levelId))
  }

  /** The hero's box after the RETURN presses of a world-map frame, and the marker of the last level entered. */
  datatype Entry = Entry(rect: Rect, entered: Option<Marker>)

  /**
   * The RETURN presses of `update_world_map` in order: each enters the
   * level of the first unlocked marker under the hero, unless that level
   * is completed, and entering moves the hero to the level's start.
   */
  function Entering(ms: seq<Marker>, r: Rect, es: seq<Event>): (en: Entry)
    ensures en.entered.Some? ==> en.entered.value in ms && en.entered.value.unlocked && !en.entered.value.completed
    ensures en.entered.None? ==> en.rect == r
    decreases |es|
  {
    if es == [] then Entry(r, None)
    else
      var p := Entering(ms, r, es[..|es| - 1]);
      if es[|es| - 1] == KeyDown(Return) then
        match FirstMarkerAt(ms, p.rect)
        case None => p
        case Some(i) =>
          if ms[i].completed then p
          else Entry(p.rect.(x := LevelStart(ms[i].levelId).0, y := LevelStart(ms[i].levelId).1), Some(ms[i]))
      else p
  }

  /** A frame without a RETURN press enters nothing and leaves the hero where it is. */
  lemma {:induction false} EnteringNeedsReturn(ms: seq<Marker>, r: Rect, es: seq<Event>)
    ensures KeyDown(Return) !in es ==> Entering(ms, r, es) == Entry(r, None)
    decreases |es|
  {
    if es != [] {
      EnteringNeedsReturn(ms, r, es[..|es| - 1]);
    }
  }

  /** The world-map half of `update_world_map`: the hero's input and walk, then the camera. */
  method WalkOnMap(player: Player, world: WorldMap, held: Held, keys: seq<Key>)
    requires player.Valid() && world.Valid() && player.mode == WorldMode
    modifies player.Repr(), world`cameraX, world`cameraY
    ensures player.Valid() && world.Valid() && player.mode == WorldMode
    ensures player.velocityX == (if held.right then WorldPlayerSpeed else if held.left then -WorldPlayerSpeed else 0)
    ensures player.velocityY == (if held.down then WorldPlayerSpeed else if held.up then -WorldPlayerSpeed else 0)
    ensures player.rect == WorldStep(old(player.rect), player.velocityX, player.velocityY, BlockingTiles(world.tiles))
    ensures world.cameraX == Cameras.Clamp(Cameras.Smooth(old(world.cameraX), (player.rect.CenterX() - ScreenWidth / 2) as real, 0.1), CameraMaxX)
    ensures world.cameraY == Cameras.Clamp(Cameras.Smooth(old(world.cameraY), (player.rect.CenterY() - ScreenHeight / 2) as real, 0.1), CameraMaxY)
  {
    player.HandleInput(held, keys);
    Stride(player, world);
  }

  /** The hero's `update` on the world map's blocking tiles, then the camera. */
  method Stride(player: Player, world: WorldMap)
    requires player.Valid() && world.Valid() && player.mode == WorldMode
    modifies player.Repr(), world`cameraX, world`cameraY
    ensures player.Valid() && world.Valid() && player.mode == WorldMode
    ensures player.velocityX == old(player.velocityX) && player.velocityY == old(player.velocityY)
    ensures player.rect == WorldStep(old(player.rect), player.velocityX, player.velocityY, BlockingTiles(world.tiles))
    ensures world.cameraX == Cameras.Clamp(Cameras.Smooth(old(world.cameraX), (player.rect.CenterX() - ScreenWidth / 2) as real, 0.1), CameraMaxX)
    ensures world.cameraY == Cameras.Clamp(Cameras.Smooth(old(world.cameraY), (player.rect.CenterY() - ScreenHeight / 2) as real, 0.1), CameraMaxY)
  {
    player.Update([], world.WalkableTiles());
    world.UpdateCamera(player.rect);
  }

  /** The moving half of `update_level`: the hero's input, then the rest of the frame. */
  method PlayLevel(player: Player, level: Level, held: Held, keys: seq<Key>, flight: nat -> (int, int))
    requires player.Valid() && level.Valid() && player.mode == LevelMode
    modifies player.Repr(), level, level.EnemySet(), level.items
    ensures player.Valid() && level.Valid() && player.mode == LevelMode
    ensures level.EnemySet() <= old(level.EnemySet())
    ensures player.frame == old(player.frame) + 1
    ensures level.items.items == Items.Remaining(old(level.items.items), player.rect)
    ensures old(level.completed) ==> level.completed
    ensures level.completed == CompletedAfter(old(level.completed), level.levelId, |old(level.enemies)|, level.exitRect, player.rect)
    ensures level.cameraX == Cameras.Clamp(Cameras.Smooth(old(level.cameraX), CameraTarget(player.rect).0, 0.1), level.width - ScreenWidth)
    ensures level.cameraY == Cameras.Clamp(Cameras.Smooth(old(level.cameraY), CameraTarget(player.rect).1, 0.05), level.height - ScreenHeight)
  {
    player.HandleInput(held, keys);
    Physics(player, level, flight);
  }

  /** The hero's `update` against the level's tiles, then the level, pickups and combat. */
  method Physics(player: Player, level: Level, flight: nat -> (int, int))
    requires player.Valid() && level.Valid() && player.mode == LevelMode
    modifies player.Repr(), level, level.EnemySet(), level.items
    ensures player.Valid() && level.Valid() && player.mode == LevelMode
    ensures level.EnemySet() <= old(level.EnemySet())
    ensures player.frame == old(player.frame) + 1 && player.rect == LevelPhysics(old(player.CurrentBody()), level.tiles).rect
    ensures level.items.items == Items.Remaining(old(level.items.items), player.rect)
    ensures old(level.completed) ==> level.completed
    ensures level.completed == CompletedAfter(old(level.completed), level.levelId, |old(level.enemies)|, level.exitRect, player.rect)
    ensures level.cameraX == Cameras.Clamp(Cameras.Smooth(old(level.cameraX), CameraTarget(player.rect).0, 0.1), level.width - ScreenWidth)
    ensures level.cameraY == Cameras.Clamp(Cameras.Smooth(old(level.cameraY), CameraTarget(player.rect).1, 0.05), level.height - ScreenHeight)
  {
    player.Update(level.tiles, []);
    LevelTurn(player, level, flight);
  }

  /** The level's `update` for the hero's new box, then pickups and combat. */
  method LevelTurn(player: Player, level: Level, flight: nat -> (int, int))
    requires player.Valid() && level.Valid() && player.mode == LevelMode
    modifies player.Repr(), level, level.EnemySet(), level.items
    ensures player.Valid() && level.Valid() && player.mode == LevelMode
    ensures level.EnemySet() <= old(level.EnemySet())
    ensures player.rect == old(player.rect) && player.frame == old(player.frame)
    ensures level.items.items == Items.Remaining(old(level.items.items), player.rect)
    ensures old(level.completed) ==> level.completed
    ensures level.completed == CompletedAfter(old(level.completed), level.levelId, |old(level.enemies)|, level.exitRect, player.rect)
    ensures level.cameraX == Cameras.Clamp(Cameras.Smooth(old(level.cameraX), CameraTarget(player.rect).0, 0.1), level.width - ScreenWidth)
    ensures level.cameraY == Cameras.Clamp(Cameras.Smooth(old(level.cameraY), CameraTarget(player.rect).1, 0.05), level.height - ScreenHeight)
  {
    level.Update(player.rect, flight);
    Skirmish(player, level);
  }

  /** `check_collection` on the level's items, then `check_combat`. */
  method Skirmish(player: Player, level: Level)
    requires player.Valid() && level.Valid() && player.mode == LevelMode
    modifies player.Repr(), level`enemies, level.EnemySet(), level.items
    ensures player.Valid() && level.Valid() && player.mode == LevelMode
    ensures level.EnemySet() <= old(level.EnemySet()) && level.completed == old(level.completed)
    ensures player.rect == old(player.rect) && player.frame == old(player.frame)
    ensures level.items.items == Items.Remaining(old(level.items.items), player.rect)
  {
    Pickups(player, level);
    Brawl(player, level);
  }

  /** `check_combat`, of which the frame needs only that both sides stay valid and no enemy joins. */
  method Brawl(player: Player, level: Level)
    requires player.Valid() && level.Valid()
    modifies level`enemies, level.enemies, player`score, player`health, player`invincibility,
             player.spells`fireballs, player.spells`thunders, player.spells`bolts
    ensures level.Valid() && player.Valid() && level.EnemySet() <= old(level.EnemySet())
  {
    CheckCombat(level, player);
  }

  /** `check_collection` on the level's items: only the hero's statistics and the items change. */
  method Pickups(player: Player, level: Level)
    requires player.Valid()
    modifies player`health, player`maxHealth, player`magic, player`maxMagic, player`score, level.items
    ensures player.Valid()
    ensures level.items.items == Items.Remaining(old(level.items.items), player.rect)
    ensures player.CurrentStats() ==
      Items.CollectAll(old(player.CurrentStats()), Items.Collected(old(level.items.items), player.rect))
  {
    level.items.CheckCollection(player);
  }

  /** The `Level(...)` that `enter_level` builds for a marker, from the level's layout. */
  method BuildLevel(m: Marker, layout: Layout) returns (level: Level)
    ensures fresh(level) && level.Valid() && level.levelId == m.levelId && level.levelType == m.levelType
    ensures level.tiles == LevelTiles(GeneratorFor(m.levelId), layout.platforms)
    ensures level.items.items == PlacedItems(layout.pickups)
    ensures (level.startX, level.startY) == LevelStart(m.levelId)
  {
    level := new Level(m.levelId, m.levelType, layout);
  }

  /** `set_mode(LEVEL)` and `reset_position` at a level's start. */
  method Arrive(player: Player, x: int, y: int)
    requires player.Valid()
    modifies player`mode, player`velocityX, player`velocityY, player`rect, player`lastSafeX, player`lastSafeY
    ensures player.Valid() && player.mode == LevelMode && player.velocityX == 0 && player.velocityY == 0
    ensures player.rect == old(player.rect).(x := x, y := y) && (player.lastSafeX, player.lastSafeY) == (x, y)
  {
    player.SetMode(LevelMode);
    player.ResetPosition(x, y);
  }

  /** The hero `new_game` puts below the first marker of a new world map, in world mode. */
  method NewHero(world: WorldMap) returns (hero: Player)
    requires world.Valid()
    ensures fresh(hero) && fresh(hero.Repr()) && hero.Valid() && hero.mode == WorldMode
    ensures hero.rect == Rect(world.StartPosition().0, world.StartPosition().1, SpriteSize(WorldMode), SpriteSize(WorldMode))
    ensures hero.CurrentStats() == Stats(PlayerMaxHealth, PlayerMaxHealth, PlayerMaxMagic, PlayerMaxMagic, 0)
  {
    var start := world.StartPosition();
    hero := new Player(start.0, start.1, WorldMode);
  }

  // ------------------------------------------------------- the game

  /** The main game object: the screen, the menu, and the hero, world map and level it plays. */
  class Game {
    /** The world map's rows and each level id's hand-authored layout: data, not logic. */
    const mapData: seq<string>
    const layouts: string -> Layout

    var screen: Screen
    var running: bool
    var menuSelection: int
    var showingControls: bool
    var player: Player?
    var worldMap: WorldMap?
    var currentLevel: Level?
    /** The events of the last `handle_events`, which the update of the same frame reads again. */
    var events: seq<Event>

    function FrontOf(): Front
      reads this
    {
      Front(screen, menuSelection, showingControls, running)
    }

    /** Every object a frame may change. */
    ghost function Footprint(): set<object>
      reads this, currentLevel
    {
      {this} + (if player != null then player.Repr() else {}) + (if worldMap != null then {worldMap} else {}) +
      (if currentLevel != null then {currentLevel, currentLevel.items} + currentLevel.EnemySet() else {})
    }

    /**
     * The game objects exist from the first new game on; a level being
     * played or paused is there and the hero is in level mode; on the
     * world map there is no level and the hero walks in world mode.
     */
    ghost predicate Valid()
      reads this, (if player != null then player.Repr() else {}), worldMap, currentLevel
    {
      Selectable(FrontOf()) &&
      (player == null <==> worldMap == null) &&
      (player != null ==> player.Valid() && worldMap.Valid()) &&
      (currentLevel != null ==> currentLevel.Valid()) &&
      (screen != MenuScreen ==> player != null) &&
      (screen in {LevelScreen, PauseScreen} ==> currentLevel != null && player.mode == LevelMode) &&
      (screen == WorldMapScreen ==> currentLevel == null && player.mode == WorldMode)
    }

    /** `Game()`: the menu, with no game objects yet. */
    constructor (mapData: seq<string>, layouts: string -> Layout)
      ensures Valid() && FrontOf() == Front(MenuScreen, 0, false, true)
      ensures player == null && worldMap == null && currentLevel == null && events == []
      ensures this.mapData == mapData && this.layouts == layouts
    {
      this.mapData := mapData;
      this.layouts := layouts;
      screen := MenuScreen;
      running := true;
      menuSelection := 0;
      showingControls := false;
      player := null;
      worldMap := null;
      currentLevel := null;
      events := [];
    }

    /** `new_game`: a fresh world map, a fresh hero in world mode below the first marker, no level. */
    method NewGame()
      requires Valid()
      modifies this`worldMap, this`player, this`currentLevel, this`screen
      ensures Valid() && screen == WorldMapScreen && currentLevel == null
      ensures fresh(worldMap) && worldMap.tiles == MapTiles(mapData) && worldMap.markers == InitialMarkers()
      ensures fresh(player) && fresh(player.Repr()) && player.mode == WorldMode
      ensures player.rect == Rect(worldMap.StartPosition().0, worldMap.StartPosition().1, SpriteSize(WorldMode), SpriteSize(WorldMode))
      ensures player.CurrentStats() == Stats(PlayerMaxHealth, PlayerMaxHealth, PlayerMaxMagic, PlayerMaxMagic, 0)
    {
      var world := new WorldMap(mapData);
      var hero := NewHero(world);
      worldMap := world;
      player := hero;
      currentLevel := null;
      screen := WorldMapScreen;
    }

    /** `enter_level`: build the marker's level and put the hero, now in level mode, at its start. */
    method EnterLevel(m: Marker)
      requires Valid() && player != null
      modifies this`currentLevel, this`screen,
               player`mode, player`velocityX, player`velocityY, player`rect, player`lastSafeX, player`lastSafeY
      ensures Valid() && screen == LevelScreen
      ensures fresh(currentLevel) && currentLevel.levelId == m.levelId && currentLevel.levelType == m.levelType
      ensures currentLevel.tiles == LevelTiles(GeneratorFor(m.levelId), layouts(m.levelId).platforms)
      ensures currentLevel.items.items == PlacedItems(layouts(m.levelId).pickups)
      ensures player.mode == LevelMode && player.velocityX == 0 && player.velocityY == 0
      ensures player.rect == old(player.rect).(x := LevelStart(m.levelId).0, y := LevelStart(m.levelId).1)
      ensures (player.lastSafeX, player.lastSafeY) == LevelStart(m.levelId)
    {
      var level := BuildLevel(m, layouts(m.levelId));
      currentLevel := level;
      Arrive(player, level.startX, level.startY);
      screen := LevelScreen;
    }

    /**
     * `exit_level`: a completed level is marked on the world map; after
     * the boss that is the victory, and otherwise (or when giving up) the
     * hero goes back, in world mode, to the world map's start.
     */
    method ExitLevel(completed: bool)
      requires Valid() && player != null
      modifies this`currentLevel, this`screen, worldMap`markers,
               player`mode, player`velocityX, player`velocityY, player`rect, player`lastSafeX, player`lastSafeY
      ensures Valid() && player == old(player) && worldMap == old(worldMap)
      ensures var won := completed && old(currentLevel) != null;
        worldMap.markers == (if won then AfterCompletion(old(worldMap.markers), old(currentLevel).levelId) else old(worldMap.markers))
      ensures if completed && old(currentLevel) != null && old(currentLevel).levelId == "boss" then
          screen == VictoryScreen && currentLevel == old(currentLevel) && unchanged(player)
        else
          screen == WorldMapScreen && currentLevel == null && player.mode == WorldMode &&
          player.velocityX == 0 && player.velocityY == 0 &&
          player.rect == old(player.rect).(x := worldMap.StartPosition().0, y := worldMap.StartPosition().1) &&
          (player.lastSafeX, player.lastSafeY) == worldMap.StartPosition()
    {
      if completed && currentLevel != null {
        worldMap.CompleteLevel(currentLevel.levelId);
        if currentLevel.levelId == "boss" {
          screen := VictoryScreen;
          return;
        }
      }
      var start := worldMap.StartPosition();
      player.SetMode(WorldMode);
      player.ResetPosition(start.0, start.1);
      currentLevel := null;
      screen := WorldMapScreen;
    }

    /** `handle_menu_input`, with `new_game()` for the first option. */
    method MenuInput(k: Key)
      requires Valid() && screen == MenuScreen
      modifies this`worldMap, this`player, this`currentLevel, this`screen, this`menuSelection, this`showingControls,
               this`running
      ensures Valid() && FrontOf() == MenuKey(old(FrontOf()), k).0
      ensures if MenuKey(old(FrontOf()), k).1 == StartGame then Started() && fresh(player) && fresh(worldMap)
        else player == old(player) && worldMap == old(worldMap) && currentLevel == old(currentLevel)
    {
      if showingControls {
        if k == Return || k == Escape {
          showingControls := false;
        }
        return;
      }
      if k == ArrowUp {
        menuSelection := (menuSelection - 1) % MenuOptionCount;
      } else if k == ArrowDown {
        menuSelection := (menuSelection + 1) % MenuOptionCount;
      } else if k == Return {
        MenuChoice();
      }
    }

    /** RETURN on the menu: the selected option's action. */
    method MenuChoice()
      requires Valid() && screen == MenuScreen && !showingControls
      modifies this`worldMap, this`player, this`currentLevel, this`screen, this`showingControls, this`running
      ensures Valid() && FrontOf() == MenuKey(old(FrontOf()), Return).0
      ensures if MenuKey(old(FrontOf()), Return).1 == StartGame then Started() && fresh(player) && fresh(worldMap)
        else player == old(player) && worldMap == old(worldMap) && currentLevel == old(currentLevel)
    {
      if MenuOptions[menuSelection] == "New Game" {
        NewGame();
      } else if MenuOptions[menuSelection] == "Controls" {
        showingControls := true;
      } else if MenuOptions[menuSelection] == "Quit" {
        running := false;
      }
    }

    /** What `new_game` leaves behind, beside fresh objects: the initial markers and no level. */
    ghost predicate Started()
      reads this, worldMap
    {
      player != null && worldMap != null && currentLevel == null &&
      worldMap.markers == InitialMarkers() && worldMap.tiles == MapTiles(mapData)
    }

    /** `handle_pause_input`. */
    method PauseInput(k: Key)
      requires Valid() && screen == PauseScreen
      modifies this`currentLevel, this`screen, worldMap`markers,
               player`mode, player`velocityX, player`velocityY, player`rect, player`lastSafeX, player`lastSafeY
      ensures Valid() && FrontOf() == PauseKey(old(FrontOf()), k).0
      ensures player == old(player) && worldMap == old(worldMap) && worldMap.markers == old(worldMap.markers)
      ensures if PauseKey(old(FrontOf()), k).1 == LeaveLevel then Left(old(player.rect))
        else currentLevel == old(currentLevel) && unchanged(player)
    {
      if k == Escape {
        screen := LevelScreen;
      } else if k == KeyQ {
        ExitLevel(false);
      }
    }

    /** What `exit_level` leaves behind when the hero goes back to the world map from a box at `r`. */
    ghost predicate Left(r: Rect)
      reads this, player, worldMap
    {
      player != null && worldMap != null && worldMap.Valid() &&
      currentLevel == null && player.mode == WorldMode && player.velocityX == 0 && player.velocityY == 0 &&
      player.rect == r.(x := worldMap.StartPosition().0, y := worldMap.StartPosition().1) &&
      (player.lastSafeX, player.lastSafeY) == worldMap.StartPosition()
    }

    /** One event of `handle_events`: the screen it goes to and the objects a menu choice or a Q in the pause menu changes. */
    method HandleEvent(e: Event)
      requires Valid()
      modifies this, player, worldMap
      ensures Valid() && events == old(events) && FrontOf() == EventStep(old(FrontOf()), e).0
      ensures var o := EventStep(old(FrontOf()), e).1;
        (o == StartGame ==> Started() && fresh(player) && fresh(worldMap)) &&
        (o == LeaveLevel ==> player == old(player) && worldMap == old(worldMap) && Left(old(player.rect)) &&
                             worldMap.markers == old(worldMap.markers)) &&
        (o == Stay ==> player == old(player) && worldMap == old(worldMap) && currentLevel == old(currentLevel) &&
                       (player != null ==> unchanged(player)) && (worldMap != null ==> unchanged(worldMap)))
    {
      match e {
        case Quit =>
          running := false;
        case KeyDown(k) =>
          KeyEvent(k);
      }
    }

    /** A KEYDOWN event, handed to the input handler of the current screen. */
    method KeyEvent(k: Key)
      requires Valid()
      modifies this, player, worldMap
      ensures Valid() && events == old(events) && FrontOf() == EventStep(old(FrontOf()), KeyDown(k)).0
      ensures var o := EventStep(old(FrontOf()), KeyDown(k)).1;
        (o == StartGame ==> Started() && fresh(player) && fresh(worldMap)) &&
        (o == LeaveLevel ==> player == old(player) && worldMap == old(worldMap) && Left(old(player.rect)) &&
                             worldMap.markers == old(worldMap.markers)) &&
        (o == Stay ==> player == old(player) && worldMap == old(worldMap) && currentLevel == old(currentLevel) &&
                       (player != null ==> unchanged(player)) && (worldMap != null ==> unchanged(worldMap)))
    {
      if screen == MenuScreen {
        MenuInput(k);
      } else if screen == PauseScreen {
        PauseInput(k);
      } else {
        ScreenKey(k);
      }
    }

    /** A key on the end screens, a level or the world map: only the screen can change. */
    method ScreenKey(k: Key)
      requires Valid() && screen !in {MenuScreen, PauseScreen}
      modifies this`screen
      ensures Valid() && FrontOf() == EventStep(old(FrontOf()), KeyDown(k)).0 && EventStep(old(FrontOf()), KeyDown(k)).1 == Stay
    {
      if screen == GameOverScreen || screen == VictoryScreen {
        if k == Return {
          screen := MenuScreen;
        }
      } else if k == Escape {
        if screen == LevelScreen {
          screen := PauseScreen;
        } else if screen == WorldMapScreen {
          screen := MenuScreen;
        }
      }
    }

    /** `handle_events`: the frame's events in order, kept for the update that follows. */
    method HandleEvents(evs: seq<Event>)
      requires Valid()
      modifies this, player, worldMap
      ensures Valid() && events == evs
      ensures FrontOf() == Navigate(old(FrontOf()), evs)
    {
      events := [];
      ghost var f0 := FrontOf();
      var i := 0;
      while i < |evs|
        invariant HandledSoFar(evs, i, f0)
        invariant player == old(player) || fresh(player)
        invariant worldMap == old(worldMap) || fresh(worldMap)
      {
        HandleTurn(evs, i, f0);
        i := i + 1;
      }
      assert evs[..i] == evs;
    }

    /** The event loop after `i` of the events `evs`, from the front end `f0`. */
    ghost predicate HandledSoFar(evs: seq<Event>, i: nat, f0: Front)
      reads this, (if player != null then player.Repr() else {}), worldMap, currentLevel
    {
      i <= |evs| && Selectable(f0) && Valid() && events == evs[..i] && FrontOf() == Navigate(f0, evs[..i])
    }

    /** Event `i` of `handle_events`: kept for the update, then handled. */
    method HandleTurn(evs: seq<Event>, i: nat, ghost f0: Front)
      requires HandledSoFar(evs, i, f0) && i < |evs|
      modifies this, player, worldMap
      ensures HandledSoFar(evs, i + 1, f0)
      ensures player == old(player) || fresh(player)
      ensures worldMap == old(worldMap) || fresh(worldMap)
    {
      events := events + [evs[i]];
      HandleEvent(evs[i]);
      assert evs[..i + 1][..i] == evs[..i];
    }

    /** `update`: only the world map and a level move; every other screen stands still. */
    method Update(held: Held, flight: nat -> (int, int))
      requires Valid()
      modifies this, player, Footprint(), worldMap
      ensures Valid() && player == old(player) && worldMap == old(worldMap) && events == old(events)
      ensures old(screen) == WorldMapScreen ==> screen in {WorldMapScreen, LevelScreen}
      ensures old(screen) == LevelScreen ==> screen in {LevelScreen, GameOverScreen, WorldMapScreen, VictoryScreen}
      ensures old(screen) !in {WorldMapScreen, LevelScreen} ==> unchanged(this) && unchanged(old(Footprint()))
      ensures old(screen) == WorldMapScreen ==>
        var vx := if held.right then WorldPlayerSpeed else if held.left then -WorldPlayerSpeed else 0;
        var vy := if held.down then WorldPlayerSpeed else if held.up then -WorldPlayerSpeed else 0;
        EnteredSoFar(WorldStep(old(player.rect), vx, vy, BlockingTiles(worldMap.tiles)), |events|)
      ensures old(screen) == LevelScreen && (old(currentLevel.completed) || KeyDown(KeyC) in events) ==>
        screen in {WorldMapScreen, VictoryScreen}
      ensures old(screen) == LevelScreen && screen in {WorldMapScreen, VictoryScreen} ==>
        worldMap.markers == AfterCompletion(old(worldMap.markers), old(currentLevel.levelId))
      ensures old(screen) == LevelScreen && screen == GameOverScreen ==> player.health <= 0
    {
      if screen == WorldMapScreen {
        UpdateWorldMap(held);
      } else if screen == LevelScreen {
        UpdateLevel(held, flight);
      }
    }

    /** `update_world_map`: walk, then enter the marker under the hero on RETURN. */
    method UpdateWorldMap(held: Held)
      requires Valid() && screen == WorldMapScreen
      modifies this`currentLevel, this`screen, player.Repr(), worldMap`cameraX, worldMap`cameraY
      ensures Valid() && player == old(player) && worldMap == old(worldMap) && worldMap.markers == old(worldMap.markers)
      ensures screen in {WorldMapScreen, LevelScreen}
      ensures var vx := if held.right then WorldPlayerSpeed else if held.left then -WorldPlayerSpeed else 0;
        var vy := if held.down then WorldPlayerSpeed else if held.up then -WorldPlayerSpeed else 0;
        var walked := WorldStep(old(player.rect), vx, vy, BlockingTiles(worldMap.tiles));
        EnteredSoFar(walked, |events|) &&
        worldMap.cameraX == Cameras.Clamp(Cameras.Smooth(old(worldMap.cameraX), (walked.CenterX() - ScreenWidth / 2) as real, 0.1), CameraMaxX) &&
        worldMap.cameraY == Cameras.Clamp(Cameras.Smooth(old(worldMap.cameraY), (walked.CenterY() - ScreenHeight / 2) as real, 0.1), CameraMaxY)
    {
      WalkWorld(held);
      EnterMarkers();
    }

    /** The hero's walk on the world map and the camera that follows. */
    method WalkWorld(held: Held)
      requires Valid() && screen == WorldMapScreen
      modifies player.Repr(), worldMap`cameraX, worldMap`cameraY
      ensures Valid() && player.mode == WorldMode
      ensures player.velocityX == (if held.right then WorldPlayerSpeed else if held.left then -WorldPlayerSpeed else 0)
      ensures player.velocityY == (if held.down then WorldPlayerSpeed else if held.up then -WorldPlayerSpeed else 0)
      ensures player.rect == WorldStep(old(player.rect), player.velocityX, player.velocityY, BlockingTiles(worldMap.tiles))
      ensures worldMap.cameraX == Cameras.Clamp(Cameras.Smooth(old(worldMap.cameraX), (player.rect.CenterX() - ScreenWidth / 2) as real, 0.1), CameraMaxX)
      ensures worldMap.cameraY == Cameras.Clamp(Cameras.Smooth(old(worldMap.cameraY), (player.rect.CenterY() - ScreenHeight / 2) as real, 0.1), CameraMaxY)
    {
      WalkOnMap(player, worldMap, held, KeysPressed(events));
    }

    /** The RETURN keys of the frame: each one enters the marker under the hero unless it is completed. */
    method EnterMarkers()
      requires Valid() && screen == WorldMapScreen
      modifies this`currentLevel, this`screen,
               player`mode, player`velocityX, player`velocityY, player`rect, player`lastSafeX, player`lastSafeY
      ensures EnteredSoFar(old(player.rect), |events|) && player == old(player) && worldMap == old(worldMap)
      ensures currentLevel == null || fresh(currentLevel)
    {
      ghost var r0 := player.rect;
      var i := 0;
      while i < |events|
        invariant EnteredSoFar(r0, i) && player == old(player) && worldMap == old(worldMap)
        invariant currentLevel == null || fresh(currentLevel)
      {
        EnterTurn(r0, i);
        i := i + 1;
      }
    }

    /**
     * The level-entry loop after `i` events, for a hero that stood at
     * `r0`: the hero is where `Entering` puts it, and on a level's
     * screen exactly when a marker was entered, that marker's level.
     */
    ghost predicate EnteredSoFar(r0: Rect, i: nat)
      reads this, (if player != null then player.Repr() else {}), worldMap, currentLevel
    {
      i <= |events| && Valid() && player != null && worldMap != null &&
      var en := Entering(worldMap.markers, r0, events[..i]);
      player.rect == en.rect &&
      (en.entered.None? ==> screen == WorldMapScreen && currentLevel == null) &&
      (en.entered.Some? ==> screen == LevelScreen && currentLevel != null &&
                            currentLevel.levelId == en.entered.value.levelId)
    }

    /** Event `i` of the level-entry loop. */
    method EnterTurn(ghost r0: Rect, i: nat)
      requires EnteredSoFar(r0, i) && i < |events|
      modifies this`currentLevel, this`screen,
               player`mode, player`velocityX, player`velocityY, player`rect, player`lastSafeX, player`lastSafeY
      ensures EnteredSoFar(r0, i + 1) && player == old(player) && worldMap == old(worldMap)
      ensures currentLevel == old(currentLevel) || fresh(currentLevel)
    {
      assert events[..i + 1][..i] == events[..i];
      if events[i] == KeyDown(Return) {
        EnterOnReturn(r0, i);
      }
    }

    /** A RETURN press on the world map: the level of the marker under the hero is entered unless completed. */
    method EnterOnReturn(ghost r0: Rect, i: nat)
      requires EnteredSoFar(r0, i) && i < |events| && events[i] == KeyDown(Return)
      modifies this`currentLevel, this`screen,
               player`mode, player`velocityX, player`velocityY, player`rect, player`lastSafeX, player`lastSafeY
      ensures EnteredSoFar(r0, i + 1) && player == old(player) && worldMap == old(worldMap)
      ensures currentLevel == old(currentLevel) || fresh(currentLevel)
    {
      assert events[..i + 1][..i] == events[..i];
      var marker := worldMap.CurrentLevelMarker(player.rect);
      if marker.Some? && !marker.value.completed {
        EnterMarker(r0, i, marker.value);
      }
    }

    /** Entering the level of `m`, the first unlocked marker under the hero, on RETURN press `i`. */
    method EnterMarker(ghost r0: Rect, i: nat, m: Marker)
      requires EnteredSoFar(r0, i) && i < |events| && events[i] == KeyDown(Return)
      requires worldMap.CurrentLevelMarker(player.rect) == Some(m) && !m.completed
      modifies this`currentLevel, this`screen,
               player`mode, player`velocityX, player`velocityY, player`rect, player`lastSafeX, player`lastSafeY
      ensures EnteredSoFar(r0, i + 1) && player == old(player) && worldMap == old(worldMap)
      ensures fresh(currentLevel)
    {
      assert events[..i + 1][..i] == events[..i];
      ghost var p := Entering(worldMap.markers, r0, events[..i]);
      assert Entering(worldMap.markers, r0, events[..i + 1]) ==
        Entry(p.rect.(x := LevelStart(m.levelId).0, y := LevelStart(m.levelId).1), Some(m));
      Embark(m);
    }

    /** `enter_level` as the world map sees it: the screen, the level's id and where the hero now stands. */
    method Embark(m: Marker)
      requires Valid() && player != null
      modifies this`currentLevel, this`screen,
               player`mode, player`velocityX, player`velocityY, player`rect, player`lastSafeX, player`lastSafeY
      ensures Valid() && screen == LevelScreen && fresh(currentLevel) && currentLevel.levelId == m.levelId
      ensures player.rect == old(player.rect).(x := LevelStart(m.levelId).0, y := LevelStart(m.levelId).1)
    {
      EnterLevel(m);
    }

    /** `update_level`: the hero, the level, pickups and combat move, then the frame is judged. */
    method UpdateLevel(held: Held, flight: nat -> (int, int))
      requires Valid() && screen == LevelScreen
      modifies this`currentLevel, this`screen, player.Repr(), worldMap`markers, currentLevel,
               currentLevel.EnemySet(), currentLevel.items
      ensures Valid() && player == old(player) && worldMap == old(worldMap)
      ensures screen in {LevelScreen, GameOverScreen, WorldMapScreen, VictoryScreen}
      ensures old(currentLevel.completed) || KeyDown(KeyC) in events ==> screen in {WorldMapScreen, VictoryScreen}
      ensures screen in {WorldMapScreen, VictoryScreen} ==>
        worldMap.markers == AfterCompletion(old(worldMap.markers), old(currentLevel.levelId))
      ensures screen == VictoryScreen ==> old(currentLevel.levelId) == "boss" && currentLevel == old(currentLevel)
      ensures screen == WorldMapScreen ==> old(currentLevel.levelId) != "boss" && currentLevel == null && player.mode == WorldMode
      ensures screen in {LevelScreen, GameOverScreen} ==>
        worldMap.markers == old(worldMap.markers) && currentLevel == old(currentLevel)
      ensures screen == GameOverScreen ==> player.health <= 0
      ensures screen == LevelScreen ==> player.health > 0 && !currentLevel.completed
    {
      AdvanceLevel(held, flight);
      JudgeLevel();
    }

    /** The moving half of `update_level`: input, physics, the level, pickups and `check_combat`. */
    method AdvanceLevel(held: Held, flight: nat -> (int, int))
      requires Valid() && screen == LevelScreen
      modifies player.Repr(), currentLevel, currentLevel.EnemySet(), currentLevel.items
      ensures Valid() && currentLevel.EnemySet() <= old(currentLevel.EnemySet())
      ensures old(currentLevel.completed) ==> currentLevel.completed
      ensures player.frame == old(player.frame) + 1
      ensures currentLevel.items.items == Items.Remaining(old(currentLevel.items.items), player.rect)
      ensures currentLevel.completed ==
        CompletedAfter(old(currentLevel.completed), currentLevel.levelId, |old(currentLevel.enemies)|, currentLevel.exitRect, player.rect)
    {
      PlayLevel(player, currentLevel, held, KeysPressed(events), flight);
    }

    /**
     * The judging half of `update_level`: a fall into a pit costs one
     * health and respawns the hero (or ends the game), no health left is
     * game over, a C press completes the level, and a completed level is
     * left for the world map, or won when it is the boss's.
     */
    method JudgeLevel()
      requires Valid() && screen == LevelScreen
      modifies this`currentLevel, this`screen, currentLevel`completed, worldMap`markers,
               player`health, player`invincibility, player`rect, player`velocityX, player`velocityY, player`onGround,
               player`mode, player`lastSafeX, player`lastSafeY
      ensures Valid() && player == old(player) && worldMap == old(worldMap)
      ensures var fell := old(player.FellInPit(currentLevel.height));
        var done := old(currentLevel.completed) || KeyDown(KeyC) in events;
        var boss := old(currentLevel.levelId) == "boss";
        screen == Judge(AfterPit(old(player.health), fell), done, boss) &&
        player.health == AfterPit(old(player.health), fell) &&
        worldMap.markers == (if done then AfterCompletion(old(worldMap.markers), old(currentLevel.levelId))
                             else old(worldMap.markers)) &&
        currentLevel == (if done && !boss then null else old(currentLevel)) &&
        (fell && player.health > 0 && !done ==>
           player.rect == old(player.rect).(x := old(player.lastSafeX), y := old(player.lastSafeY)) &&
           player.invincibility == PlayerInvincibilityFrames &&
           player.velocityX == 0 && player.velocityY == 0 && player.onGround) &&
        (!(fell && player.health > 0) && !(done && !boss) ==>
           player.rect == old(player.rect) && player.invincibility == old(player.invincibility) &&
           player.velocityX == old(player.velocityX) && player.velocityY == old(player.velocityY) &&
           player.onGround == old(player.onGround)) &&
        (currentLevel != null ==> currentLevel.completed == done) &&
        (done && !boss ==> Left(old(player.rect)))
    {
      Survive();
      Conclude();
    }

    /** The pit and the death checks of `update_level`. */
    method Survive()
      requires Valid() && screen == LevelScreen
      modifies this`screen, player`health, player`invincibility, player`rect, player`velocityX, player`velocityY,
               player`onGround
      ensures Valid() && currentLevel != null
      ensures var fell := old(player.FellInPit(currentLevel.height));
        player.health == AfterPit(old(player.health), fell) &&
        screen == (if player.health <= 0 then GameOverScreen else LevelScreen) &&
        (fell && player.health > 0 ==>
           player.rect == old(player.rect).(x := old(player.lastSafeX), y := old(player.lastSafeY)) &&
           player.invincibility == PlayerInvincibilityFrames &&
           player.velocityX == 0 && player.velocityY == 0 && player.onGround) &&
        (!(fell && player.health > 0) ==>
           player.rect == old(player.rect) && player.invincibility == old(player.invincibility) &&
           player.velocityX == old(player.velocityX) && player.velocityY == old(player.velocityY) &&
           player.onGround == old(player.onGround))
    {
      PitCheck();
      if player.health <= 0 {
        screen := GameOverScreen;
      }
    }

    /** The level-skip key and the completion check of `update_level`. */
    method Conclude()
      requires Valid() && screen in {LevelScreen, GameOverScreen} && currentLevel != null
      modifies this`currentLevel, this`screen, currentLevel`completed, worldMap`markers,
               player`mode, player`velocityX, player`velocityY, player`rect, player`lastSafeX, player`lastSafeY
      ensures Valid() && player == old(player) && worldMap == old(worldMap)
      ensures var done := old(currentLevel.completed) || KeyDown(KeyC) in events;
        var boss := old(currentLevel.levelId) == "boss";
        screen == (if done then (if boss then VictoryScreen else WorldMapScreen) else old(screen)) &&
        worldMap.markers == (if done then AfterCompletion(old(worldMap.markers), old(currentLevel.levelId))
                             else old(worldMap.markers)) &&
        currentLevel == (if done && !boss then null else old(currentLevel)) &&
        (currentLevel != null ==> currentLevel.completed == done) &&
        (done && !boss ==> Left(old(player.rect))) &&
        (!(done && !boss) ==> unchanged(player))
    {
      CheckSkipKey();
      ghost var level := currentLevel;
      if currentLevel.completed {
        ExitLevel(true);
        assert level.completed;
      }
    }

    /** The pit check of `update_level`. */
    method PitCheck()
      requires Valid() && screen == LevelScreen
      modifies this`screen, player`health, player`invincibility, player`rect, player`velocityX, player`velocityY,
               player`onGround
      ensures Valid()
      ensures var fell := old(player.FellInPit(currentLevel.height));
        player.health == AfterPit(old(player.health), fell) &&
        screen == (if fell && player.health <= 0 then GameOverScreen else LevelScreen) &&
        if fell && player.health > 0 then
          player.rect == old(player.rect).(x := player.lastSafeX, y := player.lastSafeY) &&
          player.invincibility == PlayerInvincibilityFrames &&
          player.velocityX == 0 && player.velocityY == 0 && player.onGround
        else
          player.rect == old(player.rect) && player.invincibility == old(player.invincibility) &&
          player.velocityX == old(player.velocityX) && player.velocityY == old(player.velocityY) &&
          player.onGround == old(player.onGround)
    {
      if player.FellInPit(currentLevel.height) {
        player.health := player.health - 1;
        if player.health <= 0 {
          screen := GameOverScreen;
        } else {
          player.RespawnAtSafePosition();
          player.invincibility := PlayerInvincibilityFrames;
        }
      }
    }

    /** The level-skip key of `update_level`: any C press of the frame completes the level. */
    method CheckSkipKey()
      requires currentLevel != null
      modifies currentLevel`completed
      ensures currentLevel.completed == (old(currentLevel.completed) || KeyDown(KeyC) in events)
    {
      var i := 0;
      while i < |events|
        invariant 0 <= i <= |events|
        invariant currentLevel.completed == (old(currentLevel.completed) || KeyDown(KeyC) in events[..i])
      {
        if events[i] == KeyDown(KeyC) {
          currentLevel.completed := true;
        }
        assert events[..i + 1] == events[..i] + [events[i]];
        i := i + 1;
      }
      assert events[..i] == events;
    }
  }
}
