# Chain — a verified model of the game's simulation core

Chain is a pygame side-scroller. The hero walks a top-down world map and enters levels from its markers. The levels are side-scrolling stages: forest, cave, castle, a gapped fortress and the boss arena of the Cannon. In a level the hero runs, jumps and swings a sword, and casts five spells:

- Shield, which halves incoming damage;
- Swift, which speeds up running and jumping;
- Fireball;
- Thunder, a burst;
- Thunder2, a bolt that grows from the sky.

The hero also collects items. Enemies fight back: slimes hop, bats fly, knights patrol and charge. The Cannon descends in an intro, then cycles through three phases with growing fire rates.

This project models that core in Dafny and proves properties of it, file by file after the Python program:

| Dafny file | Python source | form |
|---|---|---|
| `pygame_model.dfy` | pygame's `Rect` | `Rect` value with pygame's strict `colliderect`, and integer truncation of `rect.x += v` |
| `settings.dfy` | `settings.py` | constants |
| `physics.dfy` | `player.py` | gravity, and the horizontal and vertical collision passes as functions |
| `player.dfy` | `player.py` | `class Player`, with its arithmetic as functions |
| `spells.dfy` | `spells.py` | classes `BuffSpell` and `SpellManager`; fireballs and thunder effects as values |
| `enemies.dfy` | `enemies.py` | `class Enemy` (one class with a kind tag); every AI step as a function and a method proved equal to it |
| `items.dfy` | `items.py` | `Item` values; `class ItemManager` |
| `level.dfy` | `level.py` | `class Level`, with the tile-generation loops as methods |
| `world_map.dfy` | `world_map.py` | `class WorldMap`; markers and tiles as values |
| `camera.dfy` | `level.py`, `world_map.py` | camera clamping and offset |
| `combat.dfy` | `game.py` `check_combat` | loops over enemies, each proved against a value-level sweep |
| `game.dfy` | `game.py` | `class Game`: events, menus, pause, level entry and exit, and the per-frame update |
| `arith.dfy` | — | nonlinear-arithmetic lemmas used by the proofs |

Velocities are held in tenths of a pixel, so every constant in the source is exact:

- gravity 0.5 is 5;
- the knight's speed 1.5 is 15;
- Swift's factors 1.5 and 1.3 are 15/10 and 13/10.

Moving a pygame `Rect` by a fractional velocity truncates toward zero. This is `Rects.Shift`.

Combat follows `check_combat` loop by loop. The model takes a snapshot of each enemy as a value (`Foe`), and a whole pass becomes a function over the snapshots: `Strike`, `Fire`, `Thunderstorm`, `Contact` and finally `Resolve`. `CheckCombat` is proved to leave the level and the player exactly as `Resolve` says. The lemmas about `Resolve` say four things:

- score is conserved against the scores of the enemies removed;
- the enemies left are a subset of those before, and stay distinct;
- only the first blow that lands on the hero counts;
- fireballs are only ever removed, and each thunder effect only gains recorded hits.

## Model

| member | source | states |
|---|---|---|
| Physics.Gravity | player.py:194-197 | gravity adds 0.5 per frame and caps the fall speed at the terminal velocity |
| Physics.HorizontalPassFacts | player.py:199-209 | the horizontal pass keeps y and size; it only pulls the hero back against the direction of travel, and a moved hero ends flush against a tile edge |
| Physics.VerticalPassFacts | player.py:211-228 | the vertical pass keeps x and size; the hero lands iff falling into some tile, and then stands on a tile top with vertical speed 0 |
| Players.ActualDamage | player.py:255-256 | damage is at least 1, the full amount without shield and half the amount with it |
| Players.TakeHit | player.py:246-265 | while invincible or blinking, nothing changes; otherwise health drops by the actual damage (floored at 0), blink frames restart, and death is reported iff health reaches 0 |
| Players.AtMostOneHitLands | player.py:246-260 | of several hits in one frame, only the first has any effect |
| Players.BlockedHitsChangeNothing | player.py:248-253 | in invincible mode or during blink frames, any series of hits leaves the vitals unchanged |
| Players.TakeHitsAppend | player.py:246-265 | taking hits a then b is taking a, then taking b |
| Players.Healed | player.py:267-269 | healing adds exactly the amount when that stays within maximum health, and otherwise gives maximum health; nothing else changes |
| Players.MagicRestored | player.py:271-273 | restoring adds exactly the amount when that stays within maximum magic, and otherwise gives maximum magic; nothing else changes |
| Players.MaxHealthRaised | player.py:275-278 | raising maximum health raises health by the same amount, keeping the gap |
| Players.MaxMagicRaised | player.py:280-283 | raising maximum magic raises magic by the same amount, keeping the gap |
| Players.CapsPreserved | player.py:267-287 | every stat change keeps health within maximum health and magic within maximum magic |
| Players.TickTimers | player.py:164-180 | cooldown and blink timers count down to 0; the hurt flag needs a running blink timer; an attack ends after its last frame and clears its direction |
| Players.AttackTimeline | player.py:164-180 | a fresh attack lasts exactly its duration in frames, and the cooldown and blink timers count down in step |
| Players.AttackFrameCount | player.py:174-180 | during an attack the frame counter is the duration minus the frames elapsed |
| Players.AttackBoxPlacement | player.py:289-326 | there is an attack box iff attacking; an up attack sits above and overlaps the hero, a down attack sits right below, a side attack 30x20 flush against the facing side |
| Players.PressKey | player.py:100-138 | a key press keeps the spell selection a valid index |
| Players.PressKeys | player.py:99-138 | a series of key presses keeps the spell selection a valid index |
| Players.KeyPressRules | player.py:100-138 | a key press never raises magic or drives it below 0; an attack only starts afresh; Z attacks up when up is held, and down only in the air |
| Players.KeyPressesRules | player.py:99-138 | a frame's key presses never raise magic or drive it below 0, and an attack only starts afresh |
| Players.LevelPhysicsFacts | player.py:192-228 | a level frame keeps the hero's size and caps the fall speed; the hero is on the ground iff gravity pulled it into a tile, and then stands on a tile top and records the safe position |
| Players.WorldStep | player.py:230-244 | a world step is either the old rect or a rect that overlaps no blocking tile, and keeps the size |
| Players.Player.constructor | player.py:16-61 | a new player has full health and magic, score 0, idle timers, fresh spells, and the sprite size for its mode |
| Players.Player.HandleInput | player.py:77-82 | dispatches on mode: level input or world input |
| Players.Player.HandleLevelInput | player.py:84-138 | horizontal speed from the held keys and Swift; facing follows the held direction; key presses as `PressKeys` |
| Players.Player.PressKeyDown | player.py:100-138 | one key press as `PressKey` |
| Players.Player.JumpKey | player.py:102-104 | Space jumps, with Swift's factor, only from the ground |
| Players.Player.AttackKey | player.py:107-115 | Z starts an attack only when the attack cooldown has run out, whether or not an attack is still running |
| Players.Player.CastKey | player.py:118-122 | X casts the selected spell |
| Players.Player.SelectKey | player.py:125-134 | keys 1-5 select the spell with that number |
| Players.Player.InvincibleKey | player.py:137-138 | I toggles invincible mode |
| Players.Player.CastSpell | player.py:118-122 | casting spends the cost when magic suffices, and then changes the spell state as `CastSelected` |
| Players.Player.HandleWorldInput | player.py:140-158 | world speed from the held arrows, with vertical keys taking priority for facing |
| Players.Player.Update | player.py:160-190 | one frame: frame counter +1, timers as `TickTimers`, spells as `TickSpells`, movement as level physics or a world step |
| Players.Player.NextFrame | player.py:162 | the animation frame count grows by one |
| Players.Player.Countdown | player.py:162-183 | timers as `TickTimers` and spells as `TickSpells`, with the body untouched |
| Players.Player.Move | player.py:185-188 | moves by level physics in level mode and by a world step in world mode |
| Players.Player.UpdateTimers | player.py:164-180 | the timers change as `TickTimers` |
| Players.Player.UpdateLevelPhysics | player.py:192-228 | the body changes as `LevelPhysics` |
| Players.Player.MoveHorizontally | player.py:199-209 | the rect changes as the horizontal pass |
| Players.Player.MoveVertically | player.py:211-228 | the landing state changes as the vertical pass, and a landing records the safe position |
| Players.Player.PushOutOfTile | player.py:217-228 | one tile's push-out; a landing on it records the safe position |
| Players.Player.UpdateWorldMovement | player.py:230-244 | the rect changes as `WorldStep` |
| Players.Player.TakeDamage | player.py:246-265 | health, blink frames and the death flag change as `TakeHit`, with the shield's multiplier |
| Players.Player.Heal | player.py:267-269 | stats change as `Healed` |
| Players.Player.RestoreMagic | player.py:271-273 | stats change as `MagicRestored` |
| Players.Player.IncreaseMaxHealth | player.py:275-278 | stats change as `MaxHealthRaised` |
| Players.Player.IncreaseMaxMagic | player.py:280-283 | stats change as `MaxMagicRaised` |
| Players.Player.AddScore | player.py:285-287 | the score grows by the points |
| Players.Player.SetMode | player.py:378-383 | the mode is set and both velocities become 0 |
| Players.Player.ResetPosition | player.py:385-391 | the hero is placed at (x, y), stopped, and (x, y) becomes the safe position |
| Players.Player.FellInPit | player.py:401-403 | a hero that fell in a pit is clear of every box inside the level's height |
| Players.Player.RespawnAtSafePosition | player.py:393-399 | the hero returns to the last safe position, stopped and on the ground |
| Spells.TickBuff | spells.py:49-54 | an inactive buff stays as is; an active one loses a frame and is active iff frames remain |
| Spells.BuffExpiry | spells.py:44-54 | a buff cast for d frames is active for exactly d updates, then off |
| Spells.BuffSpell.constructor | spells.py:39-42 | a new buff has the given cost and duration and is inactive |
| Spells.BuffSpell.Cast | spells.py:44-47 | casting succeeds and activates the buff for its full duration |
| Spells.BuffSpell.Update | spells.py:49-54 | the buff changes as `TickBuff` |
| Spells.DamageMultiplier | spells.py:56-59 | damage is scaled by 1 unless the shield is active (then by 0.5) |
| Spells.SpeedMultiplier | spells.py:94-97 | running speed is scaled by 1 unless Swift is active (then by 1.5) |
| Spells.JumpMultiplier | spells.py:99-102 | jump power is scaled by 1 unless Swift is active (then by 1.3) |
| Spells.NewFireball | spells.py:145-153 | a fireball starts centred on the given point with its full lifetime |
| Spells.FireballFlight | spells.py:155-162 | a fireball moves its speed per update in its direction and lives exactly its lifetime in updates |
| Spells.FireballAging | spells.py:155-162 | each update takes one frame off a fireball's lifetime |
| Spells.FireballsAfterUpdateKeeps | spells.py:155-162 | a group update keeps exactly the stepped fireballs that are still alive |
| Spells.NewThunder | spells.py:192-200 | a thunder burst starts centred on the given point, with its lifetime and no one hit |
| Spells.BoltGrowth | spells.py:304-315 | a bolt grows by 25 per update up to its cap and strikes up to the update that reaches it |
| Spells.EffectLifetime | spells.py:202-208 | updates count an effect's lifetime down and keep its kind and hit record |
| Spells.CanHit | spells.py:210-223 | an effect hits an enemy iff it has not hit it yet and the enemy is in reach, and then records it |
| Spells.HitAtMostOnce | spells.py:317-328 | over any run of checks, an effect accepts each enemy at most once, never one already recorded, and records all it accepts |
| Spells.CastSelected | spells.py:384-390 | casting spends the cost exactly when magic suffices; otherwise nothing changes; the selection stays |
| Spells.Select | spells.py:374-376 | only an index that names a spell is taken |
| Spells.NextIndex | spells.py:378-379 | the next index is a valid spell index |
| Spells.PrevIndex | spells.py:381-382 | the previous index is a valid spell index |
| Spells.SelectionWraps | spells.py:378-382 | next and previous are inverse, and five steps come back around |
| Spells.SpellManager.constructor | spells.py:359-368 | a new manager has both buffs off, no projectiles or effects, and Shield selected |
| Spells.SpellManager.SelectSpell | spells.py:374-376 | the selection changes as `Select` |
| Spells.SpellManager.NextSpell | spells.py:378-379 | the selection changes as `NextIndex` |
| Spells.SpellManager.PrevSpell | spells.py:381-382 | the selection changes as `PrevIndex` |
| Spells.SpellManager.CastCurrentSpell | spells.py:384-390 | state and magic spent change as `CastSelected` |
| Spells.SpellManager.Update | spells.py:392-394 | state changes as `TickSpells` |
| Spells.SpellManager.RecordHits | game.py:253-260 | the thunder effects take back their hit records after a combat pass, bursts first |
| Enemies.KindNamed | enemies.py:585-597 | the factory makes a slime exactly for names other than bat, knight and cannon |
| Enemies.KindNamesRoundTrip | enemies.py:585-597 | the factory inverts the kind names |
| Enemies.Damaged | enemies.py:91-99 | an enemy dies iff health drops to 0 or below; a knight's shield takes 1 off each hit, but every hit still does at least 1 |
| Enemies.KnightShieldSoftens | enemies.py:260-265 | a knight never takes more than a slime takes from the same hit, and always loses at least 1 |
| Enemies.Aim | enemies.py:548-558 | a cannon ball fired at its own position goes right at full speed |
| Enemies.StraightShot | enemies.py:548-558 | a level shot goes right or left at full speed |
| Enemies.AimFacts | enemies.py:548-558 | each velocity component lies within the ball speed and has the sign of its offset |
| Enemies.NewCannonBall | enemies.py:544-569 | a ball starts centred at the cannon, with its size and full lifetime |
| Enemies.BallAging | enemies.py:571-577 | a ball loses one frame of lifetime per update and keeps its velocity and size |
| Enemies.BallLifespan | enemies.py:571-577 | a new ball survives exactly its lifetime in updates |
| Enemies.PatrolDirection | enemies.py:158-163 | a patroller turns left beyond the right edge, right beyond the left, and keeps its direction in between |
| Enemies.SlimeAi | enemies.py:142-163 | the hop timer cycles 60 frames and the slime stands still between hops; on the 60th it hops, at double speed toward a player within 200 px, and otherwise at its speed in the patrol direction |
| Enemies.SlimeHopCadence | enemies.py:142-149 | from timer 0, the slime hops exactly every 60th frame and stands still in between |
| Enemies.BatAi | enemies.py:178-196 | the bat takes its flight velocity, faces its direction of travel, and changes nothing else |
| Enemies.KnightAiFacts | enemies.py:222-258 | beyond 250 px the knight patrols; within, it faces the player and builds up its charge timer |
| Enemies.KnightChargeCadence | enemies.py:231-238 | near the player, the knight charges every 90 frames, and only at a distance from 30 to 200 px |
| Enemies.IntroDescends | enemies.py:303-310 | the intro starts 200 px up and descends monotonically to the start height |
| Enemies.PhaseFor | enemies.py:330-335 | the phase is 1, 2 or 3 |
| Enemies.CannonIntro | enemies.py:302-316 | during the intro the Cannon only descends, for a fixed number of frames |
| Enemies.PhaseForMonotone | enemies.py:330-335 | less health never means an earlier phase |
| Enemies.CannonPhaseMonotone | enemies.py:329-341 | the phase only advances, to the phase the health calls for, and each advance starts a transition |
| Enemies.PhaseAiKeepsPhase | enemies.py:343-352 | the phase AI leaves phase and transition state alone |
| Enemies.CannonCadence | enemies.py:299-352 | the Cannon fires once its pattern timer reaches 90, 60 or 30 (phase 1, 2, 3): three balls in phase 2, one otherwise |
| Enemies.PhaseCadence | enemies.py:354-417 | firing appends the volley and resets the timer exactly at the phase's period |
| Enemies.TransitionSuspends | enemies.py:321-327 | a phase transition holds the Cannon still for its frame count, then ends |
| Enemies.FallPhysics | enemies.py:69-89 | a walker moves by its velocity, falls under capped gravity, and keeps its size |
| Enemies.BatPhysics | enemies.py:198-207 | a bat moves by its velocity and stays within 100 px of its start height |
| Enemies.OnlyTheBossFires | enemies.py:51-63 | no enemy but the Cannon gains cannon balls |
| Enemies.Enemy.constructor | enemies.py:15-45 | a new enemy has its kind's health, damage, speed and score at its start position |
| Enemies.Enemy.TakeDamage | enemies.py:91-99 | health and the death flag change as `Damaged`, and the hurt flash starts |
| Enemies.Enemy.Update | enemies.py:51-63 | one frame changes the enemy as `Tick` and never its health |
| Enemies.Enemy.CountDown | enemies.py:53-59 | the animation and timers count as `Countdown` |
| Enemies.Enemy.Move | enemies.py:69-89 | bats move as `BatPhysics`; the others as `FallPhysics` |
| Enemies.Enemy.Think | enemies.py:65-67 | the AI step changes the enemy as `Ai` |
| Enemies.Enemy.SlimeUpdate | enemies.py:142-163 | a slime's step as `SlimeAi` |
| Enemies.Enemy.KnightUpdate | enemies.py:222-258 | a knight's step as `KnightAi` |
| Enemies.Enemy.KnightPursue | enemies.py:229-246 | the knight's pursuit as `KnightPursuit` |
| Enemies.Enemy.KnightWalkPatrol | enemies.py:247-258 | the knight's patrol as `KnightPatrol` |
| Enemies.Enemy.CannonUpdate | enemies.py:299-352 | the Cannon's step as `CannonAi` |
| Enemies.Enemy.IntroUpdate | enemies.py:302-316 | the intro step as `IntroStep` |
| Enemies.Enemy.TransitionUpdate | enemies.py:321-327 | the transition step as `TransitionStep` |
| Enemies.Enemy.PhaseUpdate | enemies.py:329-352 | a phase step as `PhaseStep` |
| Enemies.Enemy.PhaseTurnUpdate | enemies.py:329-345 | the phase check and facing as `PhaseTurn` |
| Enemies.Enemy.PhaseAiUpdate | enemies.py:347-352 | the phase's attack pattern as `PhaseAi` |
| Enemies.Enemy.UpdatePhase | enemies.py:330-341 | the phase change as `PhaseChange` |
| Enemies.Enemy.Phase1Update | enemies.py:354-367 | phase 1 as `Phase1` |
| Enemies.Enemy.Phase2Update | enemies.py:369-386 | phase 2 as `Phase2` |
| Enemies.Enemy.Phase2Chase | enemies.py:371-375 | phase 2's movement as `Phase2Move` |
| Enemies.Enemy.Phase3Update | enemies.py:407-417 | phase 3 as `Phase3` |
| Enemies.Enemy.FireVolley | enemies.py:380-386 | a volley as `Volley` |
| Enemies.Enemy.ShootCannonBall | enemies.py:419-427 | one ball aimed at the player's centre is appended |
| Enemies.Enemy.ShootSpreadShot | enemies.py:388-405 | two balls aimed 100 px above and below the player's centre are appended |
| Enemies.Enemy.BatMove | enemies.py:198-207 | a bat moves as `BatPhysics` |
| Enemies.Enemy.Fall | enemies.py:69-89 | a walker moves as `FallPhysics` |
| Items.NewItem | items.py:17-28 | an item sits at (x, y) with its kind's size |
| Items.CollectEffectFacts | items.py:57-195 | each kind's effect: food heals 1 (feast 2), vials restore 1 (potion 2), containers and bottles raise the maximum by 1, coins add their value, keys add 100; nothing else changes |
| Items.CollectKeepsCaps | items.py:57-125 | collecting any item keeps health and magic within their maxima |
| Items.CreateItemRoundTrip | items.py:254-273 | `create_item` inverts the item names, places the item at (x, y), and makes an unknown name a 10-point coin |
| Items.CollectAllSnoc | items.py:238-242 | collecting a list then one more item is collecting that item last |
| Items.SweepPartitions | items.py:238-242 | every collected item overlaps the hero, every remaining one does not, and together they are the old items |
| Items.CollectedOverlap | items.py:238-242 | every collected item overlaps the hero |
| Items.RemainingApart | items.py:238-242 | no remaining item overlaps the hero |
| Items.SweepMultiset | items.py:238-242 | collected and remaining items together are a permutation of the old ones |
| Items.CollectedExactly | items.py:238-242 | an item is collected iff it was there and overlaps the hero, and remains iff it was there and does not |
| Items.CollectAllKeepsCaps | items.py:238-242 | collecting any set of items keeps health and magic within their maxima |
| Items.ScoreGrows | items.py:163-166 | collecting items without negative coins never lowers the score |
| Items.ItemManager.constructor | items.py:201-202 | a new manager holds no items |
| Items.ItemManager.AddItem | items.py:204-206 | the item is appended |
| Items.ItemManager.SpawnFood | items.py:208-211 | a food item is appended |
| Items.ItemManager.SpawnMagicVial | items.py:213-216 | a magic vial is appended |
| Items.ItemManager.SpawnHeartContainer | items.py:218-220 | a heart container is appended |
| Items.ItemManager.SpawnMagicBottle | items.py:222-224 | a magic bottle is appended |
| Items.ItemManager.SpawnCoin | items.py:226-228 | a coin of the given value is appended |
| Items.ItemManager.SpawnKey | items.py:230-232 | a key is appended |
| Items.ItemManager.Clear | items.py:249-252 | no items remain |
| Items.ItemManager.CheckCollection | items.py:238-242 | the items overlapping the hero are removed and applied to the hero in order; the rest remain |
| Items.ItemManager.Collect | items.py:45-47 | one item's effect is applied to the hero |
| Levels.NamesMatchGenerators | level.py:60-81 | an unknown level id has the name "Unknown Area" and the forest layout; only "boss" gets the boss arena, and only "fortress" the fortress |
| Levels.MarkerNamesMatchLevels | level.py:60-68 | every marker on the world map names a known level, by the level's own name |
| Levels.GapIntervals | level.py:263-266 | the fortress has exactly six pits, each three tiles wide |
| Levels.GroundTileAt | level.py:262-269 | a ground tile lies at every 32-px column of the level, except over the fortress pits |
| Levels.FortressFloor | level.py:262-269 | the fortress floor spans 4000 px except over its pits |
| Levels.BuildGround | level.py:91-94 | the ground loop builds `GroundTiles` |
| Levels.BuildCeiling | level.py:271-274 | the ceiling loop builds `CeilingTiles` |
| Levels.BuildWalls | level.py:394-397 | the wall loop builds `WallTiles` |
| Levels.BuildPlatforms | level.py:108-110 | the platform loop builds `PlatformTiles` |
| Levels.BuildTiles | level.py:83-110 | a level's tiles are `LevelTiles` of its generator and platforms |
| Levels.SpawnEnemies | level.py:112-118 | one fresh, distinct enemy per spawn, of its kind, at full health, in its initial state |
| Levels.PlaceItems | level.py:120-126 | a fresh item manager holds the placed pickups |
| Levels.CompletionRules | level.py:454-460 | completion is sticky; the boss level completes when no enemies remain, any other when the hero reaches its exit |
| Levels.CameraBounds | level.py:428-440 | the camera never leaves the level, and in a one-screen-high level it stays at height 0 |
| Levels.Level.constructor | level.py:30-58 | a new level has the tiles, enemies, items and start of its generator and layout, and is not completed |
| Levels.Level.UpdateCamera | level.py:428-440 | the camera eases toward the hero (0.1 across, 0.05 up and down) and is clamped to the level |
| Levels.Level.CameraOffset | level.py:462-464 | the offset is the camera position rounded down |
| Levels.Level.Update | level.py:442-460 | camera, enemies and completion change as above; enemy health is untouched |
| Levels.Level.UpdateEnemies | level.py:446-449 | each enemy takes its `Tick`, with its own flight velocity; health is untouched |
| Cameras.Clamp | level.py:439-440 | a clamped camera lies in [0, hi]: unchanged when already inside, 0 below the range, and hi above it |
| Cameras.Offset | level.py:462-464 | the integer offset is the floor of the camera position |
| WorldMaps.LegendWalkability | world_map.py:130-148 | exactly the legend letters make tiles; grass, path, castle, cave, fortress and boss are walkable |
| WorldMaps.RowTilesAre | world_map.py:140-146 | a row's tiles are exactly one per legend letter, at its column |
| WorldMaps.RowTilesSound | world_map.py:140-146 | every tile of a row comes from a legend letter |
| WorldMaps.RowTilesComplete | world_map.py:140-146 | every legend letter of a row makes its tile |
| WorldMaps.MapTilesAre | world_map.py:140-146 | the map's tiles are exactly one per legend letter of the map |
| WorldMaps.MapTilesSound | world_map.py:140-146 | every map tile comes from a legend letter |
| WorldMaps.MapTilesComplete | world_map.py:140-146 | every legend letter of the map makes its tile |
| WorldMaps.InitialMarkers | world_map.py:148-159 | four markers; only the first is unlocked, and none is completed |
| WorldMaps.BlockingTiles | world_map.py:161-163 | the blocking tiles are exactly the map tiles that are not walkable (what `get_walkable_tiles` returns, despite its name) |
| WorldMaps.FirstMarkerAt | world_map.py:165-170 | finds the first unlocked marker the hero overlaps, or none if there is none |
| WorldMaps.IndexOf | world_map.py:172-180 | finds the first marker with the level id, or none if there is none |
| WorldMaps.AfterCompletion | world_map.py:172-180 | completing a level marks its marker completed and unlocks the next; an unknown id changes nothing |
| WorldMaps.CompletionKeepsProgression | world_map.py:172-180 | markers unlock in order and only unlocked ones are completed, initially and after any completion |
| WorldMaps.FirstTileAt | world_map.py:244-258 | finds the first tile the hero overlaps, or none if there is none |
| WorldMaps.WorldMap.constructor | world_map.py:89-102 | a new map has the tiles of its map data, the initial markers and its camera at 0 |
| WorldMaps.WorldMap.StartPosition | world_map.py:182-189 | the start is in the first marker's column, directly below it and clear of it |
| WorldMaps.WorldMap.CurrentLevelMarker | world_map.py:165-170 | returns an unlocked marker the hero overlaps, or none when there is none |
| WorldMaps.WorldMap.CompleteLevel | world_map.py:172-180 | the markers change as `AfterCompletion` |
| WorldMaps.WorldMap.UpdateCamera | world_map.py:191-207 | the camera eases toward the hero by 0.1 and is clamped to the map |
| WorldMaps.LocationNameCases | world_map.py:237-259 | the first marker the hero overlaps names the location, with "(Completed)" or "(Press ENTER)"; failing that, the terrain name; else the empty string |
| Combat.Fate | game.py:233-240 | a weapon never moves an enemy; a survivor keeps its identity |
| Combat.StrikeFacts | game.py:233-240 | a sweep conserves score plus remaining enemies' bounty, keeps a distinct subset, and leaves each enemy with its weapon fate |
| Combat.BlastFacts | game.py:253-260 | a thunder effect gains exactly the enemies in reach that it had not hit, and its sweep is a strike with the burst |
| Combat.BlastIsRun | game.py:255-258 | a thunder pass over the enemies is the effect's `can_hit` run over them |
| Combat.StormFacts | game.py:253-260 | all thunder effects together conserve score plus bounty, shrink the enemies, and only add hit records |
| Combat.FirstHit | game.py:244-251 | finds the first enemy a projectile overlaps, or none if there is none |
| Combat.PierceFacts | game.py:246-251 | a projectile's hit conserves score plus bounty and removes at most one enemy |
| Combat.FireFacts | game.py:242-251 | fireballs conserve score plus bounty; a fireball that hits is spent; one that overlaps no enemy flies on; each removed enemy costs a fireball |
| Combat.Dodged | game.py:277-284 | the cannon balls left are exactly those not touching the hero |
| Combat.BallBlows | game.py:277-284 | each ball touching the hero is one blow of ball damage |
| Combat.TouchFacts | game.py:262-284 | one enemy's contact: invincible kills it for its score; otherwise it stays and may deal blows |
| Combat.ContactFacts | game.py:262-284 | the contact pass conserves score plus bounty; when invincible it deals no blows and leaves no enemy touching the hero; otherwise it removes none; no ball touching the hero survives |
| Combat.CombatFoes | game.py:227-284 | a whole combat pass conserves score plus bounty and leaves a distinct subset of the enemies |
| Combat.CombatVitals | game.py:262-284 | the hero's vitals take at most the first blow, and none in invincible mode |
| Combat.CombatFireballs | game.py:242-251 | combat only removes fireballs |
| Combat.CombatThunder | game.py:253-260 | combat keeps every thunder effect and only adds to its hit record |
| Combat.Slash | game.py:233-240 | the sword loop leaves the enemies and the score as `Strike` with the attack box |
| Combat.FirstOverlap | game.py:245-246 | the search loop finds `FirstHit` |
| Combat.Wounded | game.py:247 | the enemy's hit agrees with the snapshot's `Struck` |
| Combat.Pierced | game.py:246-251 | one projectile hit applied as `Pierce`; the enemies stay distinct |
| Combat.FireLoop | game.py:244-251 | the projectile loops leave enemies, score and fireballs as `Fire` |
| Combat.Volley | game.py:242-251 | the player's fireballs change as `Fire` |
| Combat.Zap | game.py:256-260 | one effect's loop over the enemies as `Blast` |
| Combat.StormLoop | game.py:255-260 | the effect loops as `Thunderstorm` |
| Combat.Storming | game.py:253-260 | the player's thunder effects change as `Thunderstorm`, bursts first |
| Combat.DodgeBalls | game.py:277-284 | the balls touching the hero are removed and deal their blows |
| Combat.BodyBlow | game.py:263-275 | touching an enemy scores its kill when invincible, and otherwise deals its damage |
| Combat.Brush | game.py:263-284 | one enemy's body and ball contact as `Brushed` and `TouchBlows` |
| Combat.BossBalls | game.py:277-284 | the Cannon's balls touching the hero are removed and hurt it unless invincible |
| Combat.Contacts | game.py:262-284 | the contact loop as `Contact` |
| Combat.ContactLoop | game.py:263-284 | the contact loop's state after the last enemy |
| Combat.Melee | game.py:231-240 | the sword pass as `Swing` |
| Combat.Spellwork | game.py:242-260 | the fireball pass, and then the thunder pass over the survivors |
| Combat.Strikes | game.py:231-260 | the three attack passes as `Fight` |
| Combat.Fighting | game.py:227-284 | all four passes as `Resolve` |
| Combat.CheckCombat | game.py:227-284 | the level and the player after combat are `Resolve` of the standing before it, and the level only loses enemies |
| Games.MenuKey | game.py:114-135 | the menu keeps its cursor on an option |
| Games.EventStep | game.py:89-112 | every event keeps the menu cursor on an option |
| Games.Navigate | game.py:89-112 | a frame's events keep the menu cursor on an option |
| Games.KeysPressed | player.py:99-100 | the keys pressed are exactly those of the frame's key-down events |
| Games.MenuCursorWraps | game.py:122-127 | up and down wrap around the three options and undo each other |
| Games.PauseRoundTrip | game.py:108-140 | Escape pauses a level, and Escape again resumes it unchanged |
| Games.OrdersComeFrom | game.py:128-142 | a new game starts only on Return at "New Game"; a level is left only on Q in the pause menu |
| Games.EndScreensByKey | game.py:144-154 | game over and victory are left only for the menu, and only on Return |
| Games.StoppedStaysStopped | game.py:93-95 | once stopped the game stays stopped, and a quit event stops it |
| Games.JudgeRules | game.py:203-225 | the level goes on iff it is not completed and health stays positive; a fall on the last heart ends the game; completion always leaves the level |
| Games.Entering | game.py:176-180 | a level is entered only from an unlocked, not completed marker |
| Games.EnteringNeedsReturn | game.py:176-180 | without Return pressed no level is entered |
| Games.WalkOnMap | game.py:165-173 | the hero walks at world speed from the held arrows and moves by `WorldStep` over the blocking tiles; the camera eases 0.1 toward the new box and clamps to the map |
| Games.Stride | game.py:169-173 | the hero moves by `WorldStep` over the blocking tiles, and the camera eases 0.1 toward the new box and clamps to the map |
| Games.PlayLevel | game.py:184-201 | a level frame advances the hero's frame counter; afterwards no item overlaps the hero and the items are those before less the collected ones; the level is completed exactly as `CompletedAfter` says for the hero's new box; the camera eases toward the new box; enemies are only removed |
| Games.Physics | game.py:188-201 | the hero's box becomes the one `LevelPhysics` gives, and items, completion and camera end as in `PlayLevel` |
| Games.LevelTurn | game.py:192-201 | the hero's box and frame stay; the camera eases toward the box and clamps; completion as `CompletedAfter`; items as `Remaining`; enemies are only removed |
| Games.Skirmish | game.py:194-201 | pickups and combat keep the hero's box and completion; the remaining items are exactly those apart from the hero; enemies are only removed |
| Games.Brawl | game.py:201 | combat only removes enemies |
| Games.Pickups | game.py:194-198 | the items become `Remaining` for the hero's box, and the hero's statistics change as `CollectAll` over the `Collected` items, in order |
| Games.BuildLevel | game.py:60 | a new level from the marker's id and type, with its layout's tiles, items and start |
| Games.Arrive | game.py:61-62 | the hero switches to level mode, stopped, at the start, which becomes the safe position |
| Games.NewHero | game.py:51-53 | a new world-mode hero at the map's start, with full health and magic and no score |
| Games.Game.constructor | game.py:17-46 | the game starts at the menu, cursor on "New Game", running, with no map, player or level |
| Games.Game.NewGame | game.py:48-56 | a fresh map and hero at the start position, no level, on the world map |
| Games.Game.EnterLevel | game.py:58-69 | a fresh level for the marker; the hero stands at its start in level mode; the screen shows the level |
| Games.Game.ExitLevel | game.py:71-87 | completing marks the level on the map; the boss win shows victory; otherwise back on the map at the start, with no level |
| Games.Game.MenuInput | game.py:114-135 | the menu screen changes as `MenuKey`; a new game starts with fresh objects; otherwise they are kept |
| Games.Game.MenuChoice | game.py:128-135 | Return acts on the option under the cursor as `MenuKey` |
| Games.Game.PauseInput | game.py:137-142 | Escape resumes; Q leaves the level without completing it |
| Games.Game.HandleEvent | game.py:93-112 | one event changes the screen as `EventStep`, and its order's effect on the objects |
| Games.Game.KeyEvent | game.py:99-112 | a key press changes the screen as `EventStep`, and its order's effect on the objects |
| Games.Game.ScreenKey | game.py:104-112 | Return leaves the end screens; Escape pauses a level or leaves the map for the menu |
| Games.Game.HandleEvents | game.py:89-112 | the frame's events are recorded, and the screen changes as `Navigate` over them |
| Games.Game.HandleTurn | game.py:93-112 | one more event handled, keeping the handled-so-far state |
| Games.Game.Update | game.py:156-161 | on the map, the hero walks as `WorldStep` and then enters levels as `Entering`; on a level, a completed level or C press leaves it for the map or victory, leaving marks the map's markers, and game over needs health ≤ 0; other screens change nothing |
| Games.Game.UpdateWorldMap | game.py:163-180 | the hero walks as `WorldStep` with the held arrows' speed, then the frame's RETURN presses enter levels as `Entering` from the walked box; the camera eases toward the walked box; the markers stay as they were |
| Games.Game.WalkWorld | game.py:165-173 | the hero walks at world speed and moves by `WorldStep`, and the camera follows as in `WalkOnMap` |
| Games.Game.EnterMarkers | game.py:176-180 | the level entered and the screen are as `Entering` over the frame's events |
| Games.Game.EnterTurn | game.py:177-180 | one more event of the entry loop |
| Games.Game.EnterOnReturn | game.py:177-180 | on RETURN, the marker under the hero is looked up and its level entered unless completed |
| Games.Game.EnterMarker | game.py:178-180 | entering an uncompleted marker's level moves the hero as `Entering` does |
| Games.Game.Embark | game.py:58-63 | entering a level shows the level screen for the marker's level, with the hero at its start |
| Games.Game.UpdateLevel | game.py:182-225 | a completed level or a C press ends on the map or victory, and only then are the markers changed, as `AfterCompletion`; victory only for the boss level; the map screen has no level and a world-mode hero; game over only at health ≤ 0; staying on the level needs health > 0 and an uncompleted level |
| Games.Game.AdvanceLevel | game.py:184-201 | one frame of the hero, the level, pickups and combat: the frame counter grows by one, items end as `Remaining`, completion as `CompletedAfter` for the hero's new box, and enemies are only removed |
| Games.Game.JudgeLevel | game.py:203-225 | the screen as `Judge` of the health after the pit check and of completion (sticky or by C); the level's completed flag is that completion; completion marks the map; a fall respawns the hero, stopped and on the ground; with no respawn and no exit the hero's box, blink timer, velocities and ground flag are kept |
| Games.Game.Survive | game.py:203-216 | a fall in a pit costs one health and respawns the hero with blink frames, stopped and on the ground; health at 0 or below is game over; without a respawn the hero's box, blink timer, velocities and ground flag are kept |
| Games.Game.Conclude | game.py:218-225 | C completes the level and the completed flag is exactly 'completed before or C pressed'; a completed level is left, to victory for the boss and the map otherwise; a level not left keeps the hero unchanged |
| Games.Game.PitCheck | game.py:203-212 | the pit check alone |
| Games.Game.CheckSkipKey | game.py:218-221 | the level is completed iff it was already or C was pressed this frame |

## Left out

- Drawing, sprites, animation frames, the UI, music and sound are not modelled (`draw` methods, `sounds.py`, `sprites.py`, `ui.py`). Nor is the sound on a pickup.
- `Game.run`, the clock, the display and `main.py` are not modelled: the model is one `HandleEvents` then one `Update` per frame, driven by parameters.
- Key polling (`pygame.key.get_pressed`) is a `Held` record parameter; the frame's event queue is a `seq<Event>` parameter.
- The bat's sine flight is a velocity parameter `flight`, one per enemy index, because trigonometry on floats is outside the model.
- Enemies.Aim: the cannon ball's `sqrt` normalisation is an integer square root at 1/100-px precision, so a velocity may differ from the float result in the last tenth of a pixel.
- Enemies.IntroDescends: the intro easing is exact in rationals, truncated to pixels, so it may differ from float rounding by a pixel.
- Cameras: the camera positions are exact `real`s with the source's smoothing factors, and float rounding is not modelled.
- Item bobbing (`Item.update`, a sine offset of up to 3 px on `rect.y`) is not modelled: items stay at their base position, so an item at the edge of reach may be collected a few frames earlier or later than in the source.
- The marker animation and the marker half of `WorldMap.update` only draw, and are not modelled; its camera half is `UpdateCamera`.
- The level layout tables (platforms, spawns, pickups per level) and the world map's character rows are inputs (`Layout`, `mapData`), not copied constants.
- `kill()` and sprite groups are modelled as removal from a `seq`; group membership of other groups is not modelled.
- The `None` checks on `player` and `current_level` are not modelled separately: the model's `Game.Valid()` states that a player and a map exist on every screen but the menu, and a level on the level and pause screens.
- Swift's trail particles and Thunder2's bolt drawing are not modelled.
- Games.Game.JudgeLevel: completion is checked after the death check, so a completed level overrides game over. Health can reach -1 after a pit fall, as in the source; the model states this and does not "fix" it.
- Players.Player.RestoreMagic: requires amount ≥ 0, which every caller in `items.py` meets. It is weaker than the source, which would accept a negative amount.
- Players.Player.IncreaseMaxHealth: requires amount ≥ 0, as every caller in `items.py` passes 1.
- Players.Player.IncreaseMaxMagic: requires amount ≥ 0, as every caller in `items.py` passes 1.
- Games.PlayLevel: does not state the hero's new box, statistics or timers as one function of the frame: they pass through input, physics, pickups and combat, and each part is stated exactly by the member it calls (`Player.HandleInput`, `Player.Update`, `ItemManager.CheckCollection`, `CheckCombat`). Enemies are stated only to be removed.
- Games.Physics: the same as `PlayLevel` for the hero's statistics and timers and for the enemies.
- Games.LevelTurn: does not state the enemies' new states or the hero's statistics; `Level.Update` and `CheckCombat` state them.
- Games.Skirmish: does not state the hero's statistics or the combat outcome; `Pickups` and `CheckCombat` state them.
- Games.Game.AdvanceLevel: the same gaps as `PlayLevel`, and it does not repeat the camera.
- Games.Game.UpdateLevel: does not give the screen as one function of the frame, because the completion and pit checks depend on where the hero ends the frame. `AdvanceLevel` states the items, the frame counter and completion after the moving half (not the hero's statistics, timers or the camera); `JudgeLevel` states the judging half: health, screen, completed flag and markers, the hero leaving for the map, and the hero's box, blink timer, velocities and ground flag after a respawn or when the level goes on without one.
- Games.Game.Update: repeats only part of `UpdateLevel`'s promises for the level screen (leaving, the markers, game over).
- Games.Brawl: states only that the level loses enemies. The exact combat outcome is `CheckCombat`'s contract.
