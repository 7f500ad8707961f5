/**
 * The hero: stats with caps, damage with invincibility frames and the
 * shield reduction, the three attack hitboxes, the per-frame countdowns,
 * side-scroller physics against tiles and world-map walking.
 */
module Players {
  import opened Options
  import opened Rects
  import opened Settings
  import opened Input
  import opened Spells
  import opened Physics
  import opened WorldMaps

  datatype Mode = LevelMode | WorldMode

  /** The direction the world-map sprite faces. */
  datatype Facing = FaceDown | FaceUp | FaceLeft | FaceRight

  /** The hero's box keeps the size of the sprite it was created with: 32 px in a level, 24 px on the world map. */
  function SpriteSize(mode: Mode): nat
  {
    if mode == LevelMode then 32 else 24
  }

  // --------------------------------------------------------------- damage

  /** `max(1, int(amount * mult))`, the multiplier in tenths. */
  function ActualDamage(amount: int, mult: int): (d: int)
    ensures d >= 1
    ensures amount >= 0 && mult == NoMultiplier ==> d == (if amount > 1 then amount else 1)
    ensures amount >= 0 && mult == ShieldDamageReduction ==> d == (if amount / 2 > 1 then amount / 2 else 1)
  {
    var raw := TruncDiv(amount * mult, Scale);
    if raw > 1 then raw else 1
  }

  datatype Vitals = Vitals(health: int, invincibility: int)

  /** The hero's vitals after `take_damage`, and what it returned (whether the hero died). */
  datatype Hurt = Hurt(vitals: Vitals, died: bool)

  /**
   * `take_damage`. Invincible mode or running invincibility frames block
   * the hit completely. Otherwise health drops by at least 1, clamped at
   * 0, invincibility restarts at 120 frames, and the result says whether
   * health reached 0.
   */
  function TakeHit(v: Vitals, amount: int, mult: int, invincibleMode: bool): (r: Hurt)
    ensures invincibleMode || v.invincibility > 0 ==> r == Hurt(v, false)
    ensures !(invincibleMode || v.invincibility > 0) ==>
      r.vitals.invincibility == PlayerInvincibilityFrames &&
      r.vitals.health >= 0 &&
      (r.died <==> r.vitals.health == 0) &&
      (r.died <==> v.health <= ActualDamage(amount, mult)) &&
      (!r.died ==> r.vitals.health == v.health - ActualDamage(amount, mult))
  {
    if invincibleMode then Hurt(v, false)
    else if v.invincibility > 0 then Hurt(v, false)
    else
      var h := v.health - ActualDamage(amount, mult);
      if h <= 0 then Hurt(Vitals(0, PlayerInvincibilityFrames), true)
      else Hurt(Vitals(h, PlayerInvincibilityFrames), false)
  }

  /** Several `take_damage` calls in one frame, in order. */
  function TakeHits(v: Vitals, amounts: seq<int>, mult: int, invincibleMode: bool): Vitals
    decreases |amounts|
  {
    if amounts == [] then v
    else TakeHits(TakeHit(v, amounts[0], mult, invincibleMode).vitals, amounts[1..], mult, invincibleMode)
  }

  /** Within one frame at most the first of several hits lands: it starts the invincibility frames that block the rest. */
  lemma {:induction false} AtMostOneHitLands(v: Vitals, amounts: seq<int>, mult: int, invincibleMode: bool)
    ensures TakeHits(v, amounts, mult, invincibleMode) ==
      if amounts == [] then v else TakeHit(v, amounts[0], mult, invincibleMode).vitals
    decreases |amounts|
  {
    if |amounts| > 1 {
      var w := TakeHit(v, amounts[0], mult, invincibleMode).vitals;
      BlockedHitsChangeNothing(w, amounts[1..], mult, invincibleMode);
    }
  }

  lemma {:induction false} BlockedHitsChangeNothing(v: Vitals, amounts: seq<int>, mult: int, invincibleMode: bool)
    requires invincibleMode || v.invincibility > 0
    ensures TakeHits(v, amounts, mult, invincibleMode) == v
    decreases |amounts|
  {
    if amounts != [] {
      BlockedHitsChangeNothing(v, amounts[1..], mult, invincibleMode);
    }
  }

  /** Hits taken in two runs are the hits of the whole run. */
  lemma {:induction false} TakeHitsAppend(v: Vitals, a: seq<int>, b: seq<int>, mult: int, invincibleMode: bool)
    ensures TakeHits(v, a + b, mult, invincibleMode) == TakeHits(TakeHits(v, a, mult, invincibleMode), b, mult, invincibleMode)
    decreases |a|
  {
    if a == [] {
      assert a + b == b;
    } else {
      assert (a + b)[0] == a[0] && (a + b)[1..] == a[1..] + b;
      TakeHitsAppend(TakeHit(v, a[0], mult, invincibleMode).vitals, a[1..], b, mult, invincibleMode);
    }
  }

  // ---------------------------------------------------------------- stats

  datatype Stats = Stats(health: int, maxHealth: int, magic: int, maxMagic: int, score: int)

  /** Current values never above their maxima. */
  predicate Capped(s: Stats)
  {
    s.health <= s.maxHealth && s.magic <= s.maxMagic
  }

  /** `heal`: raise health, but never above the maximum. */
  function Healed(s: Stats, amount: int): (r: Stats)
    ensures r.health <= r.maxHealth
    ensures r.health == s.health + amount || r.health == s.maxHealth
    ensures s.health + amount <= s.maxHealth ==> r.health == s.health + amount
    ensures r == s.(health := r.health)
  {
    s.(health := if s.health + amount < s.maxHealth then s.health + amount else s.maxHealth)
  }

  /** `restore_magic`: raise magic, but never above the maximum. */
  function MagicRestored(s: Stats, amount: int): (r: Stats)
    ensures r.magic <= r.maxMagic
    ensures r.magic == s.magic + amount || r.magic == s.maxMagic
    ensures s.magic + amount <= s.maxMagic ==> r.magic == s.magic + amount
    ensures r == s.(magic := r.magic)
  {
    s.(magic := if s.magic + amount < s.maxMagic then s.magic + amount else s.maxMagic)
  }

  /** `increase_max_health`: maximum and current health rise together. */
  function MaxHealthRaised(s: Stats, amount: int): (r: Stats)
    ensures r.maxHealth - r.health == s.maxHealth - s.health
    ensures r == s.(health := s.health + amount, maxHealth := s.maxHealth + amount)
  {
    s.(maxHealth := s.maxHealth + amount, health := s.health + amount)
  }

  /** `increase_max_magic`: maximum and current magic rise together. */
  function MaxMagicRaised(s: Stats, amount: int): (r: Stats)
    ensures r.maxMagic - r.magic == s.maxMagic - s.magic
    ensures r == s.(magic := s.magic + amount, maxMagic := s.maxMagic + amount)
  {
    s.(maxMagic := s.maxMagic + amount, magic := s.magic + amount)
  }

  /** Every stat operation keeps current values within their maxima. */
  lemma CapsPreserved(s: Stats, amount: int)
    requires Capped(s)
    ensures Capped(Healed(s, amount)) && Capped(MagicRestored(s, amount))
    ensures Capped(MaxHealthRaised(s, amount)) && Capped(MaxMagicRaised(s, amount))
    ensures Capped(s.(score := s.score + amount))
  {
  }

  // --------------------------------------------------------------- timers

  /** The countdowns and attack flags `update` advances each frame. */
  datatype Timers = Timers(attackCooldown: int, invincibility: int, isHurt: bool,
                           attacking: bool, attackFrame: int, upAttack: bool, downAttack: bool)

  /** One frame of countdowns: cooldown and invincibility down to 0, the attack ends when its frame count runs out. */
  function TickTimers(t: Timers): (r: Timers)
    ensures t.attackCooldown >= 0 ==> r.attackCooldown == (if t.attackCooldown > 0 then t.attackCooldown - 1 else 0)
    ensures t.invincibility >= 0 ==> r.invincibility == (if t.invincibility > 0 then t.invincibility - 1 else 0)
    ensures r.isHurt ==> r.invincibility < t.invincibility
    ensures t.attacking && !r.attacking ==> !r.upAttack && !r.downAttack
    ensures t.attacking ==> (r.attacking <==> t.attackFrame > 1)
    ensures !t.attacking ==> r.attacking == t.attacking && r.upAttack == t.upAttack && r.downAttack == t.downAttack
  {
    var cd := if t.attackCooldown > 0 then t.attackCooldown - 1 else t.attackCooldown;
    var inv := if t.invincibility > 0 then t.invincibility - 1 else t.invincibility;
    var hurt := t.invincibility > 0 && inv % 10 < 5;
    if !t.attacking then t.(attackCooldown := cd, invincibility := inv, isHurt := hurt)
    else if t.attackFrame - 1 <= 0 then
      Timers(cd, inv, hurt, false, t.attackFrame - 1, false, false)
    else t.(attackCooldown := cd, invincibility := inv, isHurt := hurt, attackFrame := t.attackFrame - 1)
  }

  function TickTimersTimes(t: Timers, n: nat): Timers
  {
    if n == 0 then t else TickTimers(TickTimersTimes(t, n - 1))
  }

  /**
   * After an attack starts (frame 15, cooldown 30), it lasts exactly 15
   * frames, its variant flags clear when it ends, and the cooldown reaches
   * 0 after 30 frames; invincibility counts down alongside.
   */
  lemma {:induction false} AttackTimeline(t: Timers, n: nat)
    requires t.attacking && t.attackFrame == AttackDuration && t.attackCooldown == PlayerAttackCooldown
    requires t.invincibility >= 0
    ensures var s := TickTimersTimes(t, n);
      (s.attacking <==> n < AttackDuration) &&
      (n >= AttackDuration ==> !s.upAttack && !s.downAttack) &&
      s.attackCooldown == (if n < PlayerAttackCooldown then PlayerAttackCooldown - n else 0) &&
      s.invincibility == (if n < t.invincibility then t.invincibility - n else 0)
  {
    if n > 0 {
      AttackTimeline(t, n - 1);
      var p := TickTimersTimes(t, n - 1);
      if n - 1 < AttackDuration {
        assert p.attackFrame == AttackDuration - (n - 1) by { AttackFrameCount(t, n - 1); }
      }
    }
  }

  lemma {:induction false} AttackFrameCount(t: Timers, n: nat)
    requires t.attacking && t.attackFrame == AttackDuration && n < AttackDuration
    ensures TickTimersTimes(t, n).attacking && TickTimersTimes(t, n).attackFrame == AttackDuration - n
  {
    if n > 0 {
      AttackFrameCount(t, n - 1);
    }
  }

  // ---------------------------------------------------------- attack box

  /**
   * `get_attack_rect`: no box unless attacking; the up-slash (above, and
   * overlapping the hero's top edge) takes precedence over the down-stab
   * (directly below); otherwise a 30 x 20 box flush against the side the
   * hero faces, vertically centred on the hero.
   */
  function AttackBox(r: Rect, attacking: bool, up: bool, down: bool, facingRight: bool): Option<Rect>
  {
    if !attacking then None
    else if up then Some(Rect(r.CenterX() - 15, r.y - 35, 30, 40))
    else if down then Some(Rect(r.CenterX() - 12, r.Bottom(), 24, 40))
    else if facingRight then Some(Rect(r.Right(), r.CenterY() - 10, 30, 20))
    else Some(Rect(r.x - 30, r.CenterY() - 10, 30, 20))
  }

  lemma AttackBoxPlacement(r: Rect, attacking: bool, up: bool, down: bool, facingRight: bool)
    requires r.w == r.h && r.w >= 24
    ensures var b := AttackBox(r, attacking, up, down, facingRight);
      (b.None? <==> !attacking) &&
      (attacking && up ==> b.value.y < r.y && Collide(b.value, r) && b.value.CenterX() == r.CenterX()) &&
      (attacking && !up && down ==> b.value.y == r.Bottom() && !Collide(b.value, r) && b.value.CenterX() == r.CenterX()) &&
      (attacking && !up && !down ==>
        b.value.w == 30 && b.value.h == 20 && !Collide(b.value, r) && b.value.CenterY() == r.CenterY() &&
        (if facingRight then b.value.x == r.Right() else b.value.Right() == r.x))
  {
  }

  // -------------------------------------------------------- key handling

  /** The fields the level key presses act on, including the spell manager. */
  datatype Controls = Controls(vy: int, onGround: bool,
                               attacking: bool, attackFrame: int, attackCooldown: int,
                               upAttack: bool, downAttack: bool,
                               magic: int, invincibleMode: bool, spells: SpellState)

  /**
   * One KEYDOWN in a level: SPACE jumps from the ground, Z starts an
   * attack when the cooldown has run out (a down-stab only in the air), X
   * casts the selected spell and pays its cost, 1 to 5 select a spell and
   * I toggles invincible mode.
   */
  function PressKey(c: Controls, k: Key, held: Held, caster: Rect, facingRight: bool, jumpMult: int): (r: Controls)
    requires 0 <= c.spells.selected < SpellCount
    ensures 0 <= r.spells.selected < SpellCount
  {
    match k
    case Space => if c.onGround then c.(vy := PlayerJumpSpeed * jumpMult, onGround := false) else c
    case KeyZ =>
      if c.attackCooldown <= 0 then
        c.(attacking := true, attackFrame := AttackDuration, attackCooldown := PlayerAttackCooldown,
           upAttack := held.up, downAttack := held.down && !c.onGround)
      else c
    case KeyX =>
      var r := CastSelected(c.spells, caster, facingRight, c.magic);
      c.(spells := r.state, magic := c.magic - r.spent)
    case Digit(n) => c.(spells := c.spells.(selected := Select(c.spells.selected, n - 1)))
    case KeyI => c.(invincibleMode := !c.invincibleMode)
    case _ => c
  }

  /** The frame's KEYDOWN events, in order. */
  function PressKeys(c: Controls, keys: seq<Key>, held: Held, caster: Rect, facingRight: bool, jumpMult: int): (r: Controls)
    requires 0 <= c.spells.selected < SpellCount
    ensures 0 <= r.spells.selected < SpellCount
    decreases |keys|
  {
    if keys == [] then c
    else
      var p := PressKeys(c, keys[..|keys| - 1], held, caster, facingRight, jumpMult);
      PressKey(p, keys[|keys| - 1], held, caster, facingRight, jumpMult)
  }

  /** Whether a key press touched the attack state. */
  predicate AttackChanged(c: Controls, r: Controls)
  {
    r.attacking != c.attacking || r.attackFrame != c.attackFrame || r.attackCooldown != c.attackCooldown ||
    r.upAttack != c.upAttack || r.downAttack != c.downAttack
  }

  /** A started attack: full frame count and full cooldown, begun when the cooldown had run out. */
  predicate AttackStarted(c: Controls, r: Controls)
  {
    c.attackCooldown <= 0 && r.attacking && r.attackFrame == AttackDuration && r.attackCooldown == PlayerAttackCooldown
  }

  /** One key press never makes magic negative or raises it, and changes the attack state only by starting an attack. */
  lemma KeyPressRules(c: Controls, k: Key, held: Held, caster: Rect, facingRight: bool, jumpMult: int)
    requires 0 <= c.spells.selected < SpellCount && c.magic >= 0
    ensures var r := PressKey(c, k, held, caster, facingRight, jumpMult);
      0 <= r.magic <= c.magic &&
      (AttackChanged(c, r) ==> AttackStarted(c, r)) &&
      (k == KeyZ && AttackStarted(c, r) ==> r.upAttack == held.up && (r.downAttack ==> !c.onGround))
  {
    if k == KeyX {
      var cast := CastSelected(c.spells, caster, facingRight, c.magic);
      assert cast.spent == Cost(SpellAt(c.spells.selected)) || cast.spent == 0;
    }
  }

  /**
   * Over any sequence of key presses magic never goes negative or up
   * (casting only spends what is there), and the attack state changes
   * only by starting one attack, with a full 15-frame count and a
   * 30-frame cooldown, at a moment the cooldown had run out.
   */
  lemma {:induction false} KeyPressesRules(c: Controls, keys: seq<Key>, held: Held, caster: Rect, facingRight: bool, jumpMult: int)
    requires 0 <= c.spells.selected < SpellCount && c.magic >= 0
    ensures var r := PressKeys(c, keys, held, caster, facingRight, jumpMult);
      0 <= r.magic <= c.magic &&
      (AttackChanged(c, r) ==> AttackStarted(c, r))
    decreases |keys|
  {
    if keys != [] {
      var pre := keys[..|keys| - 1];
      KeyPressesRules(c, pre, held, caster, facingRight, jumpMult);
      var p := PressKeys(c, pre, held, caster, facingRight, jumpMult);
      KeyPressRules(p, keys[|keys| - 1], held, caster, facingRight, jumpMult);
    }
  }

  /** `velocity_x` from the held keys: right wins over left; 4 px per frame, 6 with swift. */
  function WalkVelocity(held: Held, speedMult: int): int
  {
    if held.right then PlayerSpeed * speedMult
    else if held.left then -PlayerSpeed * speedMult
    else 0
  }

  // -------------------------------------------------------------- physics

  /** What `update_level_physics` reads and writes. */
  datatype Body = Body(rect: Rect, vx: int, vy: int, onGround: bool, lastSafeX: int, lastSafeY: int)

  /**
   * `update_level_physics`: gravity, the horizontal move and its pass
   * over the tiles, then the vertical move and its pass; a landing
   * records the landed position as the last safe one.
   */
  function LevelPhysics(b: Body, tiles: seq<Rect>): Body
  {
    var vy := Gravity(b.vy);
    var across := HorizontalPass(b.rect.(x := Shift(b.rect.x, b.vx)), b.vx, tiles);
    var l := VerticalPass(across.(y := Shift(across.y, vy)), vy, tiles);
    Body(l.rect, b.vx, l.vy, l.landed,
         if l.landed then l.rect.x else b.lastSafeX,
         if l.landed then l.rect.y else b.lastSafeY)
  }

  /**
   * After the physics step the fall speed is at most terminal velocity.
   * The hero is on the ground exactly when it was falling and met a tile;
   * then it stands still vertically, its bottom on that tile's top, and
   * the landed position is the last safe one. Without a landing the last
   * safe position is kept. The box keeps its size.
   */
  lemma LevelPhysicsFacts(b: Body, tiles: seq<Rect>)
    ensures var r := LevelPhysics(b, tiles);
      var across := HorizontalPass(b.rect.(x := Shift(b.rect.x, b.vx)), b.vx, tiles);
      var dropped := across.(y := Shift(across.y, Gravity(b.vy)));
      r.vy <= TerminalVelocity &&
      r.rect.w == b.rect.w && r.rect.h == b.rect.h &&
      (r.onGround <==> Gravity(b.vy) > 0 && exists k :: 0 <= k < |tiles| && Collide(dropped, tiles[k])) &&
      (r.onGround ==> r.vy == 0 && r.lastSafeX == r.rect.x && r.lastSafeY == r.rect.y &&
                      exists k :: 0 <= k < |tiles| && r.rect.Bottom() == tiles[k].y) &&
      (!r.onGround ==> r.lastSafeX == b.lastSafeX && r.lastSafeY == b.lastSafeY)
  {
    var moved := b.rect.(x := Shift(b.rect.x, b.vx));
    HorizontalPassFacts(moved, b.vx, tiles);
    var across := HorizontalPass(moved, b.vx, tiles);
    VerticalPassFacts(across.(y := Shift(across.y, Gravity(b.vy))), Gravity(b.vy), tiles);
  }

  /** Whether a moved box overlaps a blocking world tile. */
  predicate Blocked(r: Rect, tiles: seq<WorldTile>)
  {
    exists k :: 0 <= k < |tiles| && !tiles[k].walkable && Collide(r, tiles[k].rect)
  }

  /** `update_world_movement`: move on both axes, and undo the whole move if it ran into a blocking tile. */
  function WorldStep(r: Rect, vx: int, vy: int, tiles: seq<WorldTile>): (q: Rect)
    ensures q == r || !Blocked(q, tiles)
    ensures q.w == r.w && q.h == r.h
  {
    var moved := r.(x := Shift(r.x, vx), y := Shift(r.y, vy));
    if Blocked(moved, tiles) then r else moved
  }

  // ----------------------------------------------------------- the hero

  class Player {
    const spells: SpellManager
    const size: nat
    var mode: Mode
    var frame: int
    var facingRight: bool
    var facing: Facing
    var isAttacking: bool
    var attackFrame: int
    var rect: Rect
    var velocityX: int
    var velocityY: int
    var onGround: bool
    var lastSafeX: int
    var lastSafeY: int
    var maxHealth: int
    var health: int
    var maxMagic: int
    var magic: int
    var attackCooldown: int
    var invincibility: int
    var isHurt: bool
    var isUpAttack: bool
    var isDownAttack: bool
    var score: int
    var invincibleMode: bool

    /** The objects the hero's methods may change. */
    ghost function Repr(): set<object>
    {
      {this, spells, spells.shield, spells.swift}
    }

    ghost predicate Valid()
      reads Repr()
    {
      spells.Valid() &&
      rect.w == size && rect.h == size && size > 0 &&
      0 < maxHealth && health <= maxHealth && 0 <= magic <= maxMagic &&
      attackCooldown >= 0 && invincibility >= 0
    }

    function CurrentStats(): Stats
      reads this`health, this`maxHealth, this`magic, this`maxMagic, this`score
    {
      Stats(health, maxHealth, magic, maxMagic, score)
    }

    function CurrentVitals(): Vitals
      reads this`health, this`invincibility
    {
      Vitals(health, invincibility)
    }

    function CurrentTimers(): Timers
      reads this`attackCooldown, this`invincibility, this`isHurt, this`isAttacking, this`attackFrame,
            this`isUpAttack, this`isDownAttack
    {
      Timers(attackCooldown, invincibility, isHurt, isAttacking, attackFrame, isUpAttack, isDownAttack)
    }

    function CurrentBody(): Body
      reads this`rect, this`velocityX, this`velocityY, this`onGround, this`lastSafeX, this`lastSafeY
    {
      Body(rect, velocityX, velocityY, onGround, lastSafeX, lastSafeY)
    }

    function CurrentControls(): Controls
      reads this, spells, spells.shield, spells.swift
    {
      Controls(velocityY, onGround, isAttacking, attackFrame, attackCooldown, isUpAttack, isDownAttack,
               magic, invincibleMode, spells.State())
    }

    constructor (x: int, y: int, mode: Mode)
      ensures Valid() && fresh(Repr())
      ensures this.mode == mode && rect == Rect(x, y, SpriteSize(mode), SpriteSize(mode))
      ensures CurrentStats() == Stats(PlayerMaxHealth, PlayerMaxHealth, PlayerMaxMagic, PlayerMaxMagic, 0)
      ensures lastSafeX == x && lastSafeY == y && velocityX == 0 && velocityY == 0 && !onGround
      ensures CurrentTimers() == Timers(0, 0, false, false, 0, false, false)
      ensures !invincibleMode && facingRight
      ensures spells.State() == SpellState(BuffState(false, 0), BuffState(false, 0), [], [], [], 0)
    {
      spells := new SpellManager();
      size := SpriteSize(mode);
      this.mode := mode;
      frame := 0;
      facingRight := true;
      facing := FaceDown;
      isAttacking := false;
      attackFrame := 0;
      rect := Rect(x, y, SpriteSize(mode), SpriteSize(mode));
      velocityX := 0;
      velocityY := 0;
      onGround := false;
      lastSafeX := x;
      lastSafeY := y;
      maxHealth := PlayerMaxHealth;
      health := PlayerMaxHealth;
      maxMagic := PlayerMaxMagic;
      magic := PlayerMaxMagic;
      attackCooldown := 0;
      invincibility := 0;
      isHurt := false;
      isUpAttack := false;
      isDownAttack := false;
      score := 0;
      invincibleMode := false;
    }

    /** `handle_input`: the side-scroller controls in a level, the top-down walk on the world map. */
    method HandleInput(held: Held, keys: seq<Key>)
      requires Valid()
      modifies this`velocityX, this`facingRight, this`velocityY, this`onGround, this`isAttacking, this`attackFrame,
               this`attackCooldown, this`isUpAttack, this`isDownAttack, this`magic, this`invincibleMode, this`facing,
               spells, spells.shield, spells.swift
      ensures Valid()
      ensures mode == LevelMode ==>
        velocityX == WalkVelocity(held, old(SpeedMultiplier(spells.swift.State()))) &&
        CurrentControls() ==
          PressKeys(old(CurrentControls()), keys, held, rect, facingRight, old(JumpMultiplier(spells.swift.State())))
      ensures mode == WorldMode ==>
        velocityX == (if held.right then WorldPlayerSpeed else if held.left then -WorldPlayerSpeed else 0) &&
        velocityY == (if held.down then WorldPlayerSpeed else if held.up then -WorldPlayerSpeed else 0) &&
        CurrentControls() == old(CurrentControls()).(vy := velocityY)
    {
      if mode == LevelMode {
        HandleLevelInput(held, keys);
      } else {
        HandleWorldInput(held);
      }
    }

    /** `handle_level_input`: walking from the held keys, then each key press in order. */
    method HandleLevelInput(held: Held, keys: seq<Key>)
      requires Valid()
      modifies this`velocityX, this`facingRight, this`velocityY, this`onGround, this`isAttacking, this`attackFrame,
               this`attackCooldown, this`isUpAttack, this`isDownAttack, this`magic, this`invincibleMode,
               spells, spells.shield, spells.swift
      ensures Valid()
      ensures velocityX == WalkVelocity(held, old(SpeedMultiplier(spells.swift.State())))
      ensures facingRight == (if held.right then true else if held.left then false else old(facingRight))
      ensures CurrentControls() ==
        PressKeys(old(CurrentControls()), keys, held, rect, facingRight, old(JumpMultiplier(spells.swift.State())))
    {
      var speedMult := SpeedMultiplier(spells.swift.State());
      var jumpMult := JumpMultiplier(spells.swift.State());
      velocityX := 0;
      if held.left {
        velocityX := -PlayerSpeed * speedMult;
        facingRight := false;
      }
      if held.right {
        velocityX := PlayerSpeed * speedMult;
        facingRight := true;
      }
      ghost var c0 := CurrentControls();
      var i := 0;
      while i < |keys|
        invariant 0 <= i <= |keys|
        invariant Valid()
        invariant CurrentControls() == PressKeys(c0, keys[..i], held, rect, facingRight, jumpMult)
        invariant velocityX == WalkVelocity(held, speedMult)
        invariant facingRight == (if held.right then true else if held.left then false else old(facingRight))
      {
        PressKeyDown(keys[i], held, jumpMult);
        assert keys[..i + 1][..i] == keys[..i];
        i := i + 1;
      }
      assert keys[..i] == keys;
    }

    /** One KEYDOWN event of `handle_level_input`. */
    method PressKeyDown(k: Key, held: Held, jumpMult: int)
      requires Valid()
      modifies this`velocityY, this`onGround, this`isAttacking, this`attackFrame, this`attackCooldown,
               this`isUpAttack, this`isDownAttack, this`magic, this`invincibleMode,
               spells, spells.shield, spells.swift
      ensures Valid()
      ensures CurrentControls() == PressKey(old(CurrentControls()), k, held, rect, facingRight, jumpMult)
    {
      match k {
        case Space => JumpKey(held, jumpMult);
        case KeyZ => AttackKey(held, jumpMult);
        case KeyX => CastKey(held, jumpMult);
        case Digit(n) => SelectKey(n, held, jumpMult);
        case KeyI => InvincibleKey(held, jumpMult);
        case _ =>
      }
    }

    /** SPACE: jump when on the ground. */
    method JumpKey(held: Held, jumpMult: int)
      requires Valid()
      modifies this`velocityY, this`onGround
      ensures Valid() && CurrentControls() == PressKey(old(CurrentControls()), Space, held, rect, facingRight, jumpMult)
    {
      if onGround {
        velocityY := PlayerJumpSpeed * jumpMult;
        onGround := false;
      }
    }

    /** Z: start an attack when the cooldown has run out. */
    method AttackKey(held: Held, jumpMult: int)
      requires Valid()
      modifies this`isAttacking, this`attackFrame, this`attackCooldown, this`isUpAttack, this`isDownAttack
      ensures Valid() && CurrentControls() == PressKey(old(CurrentControls()), KeyZ, held, rect, facingRight, jumpMult)
    {
      if attackCooldown <= 0 {
        isAttacking := true;
        attackFrame := AttackDuration;
        attackCooldown := PlayerAttackCooldown;
        isUpAttack := held.up;
        isDownAttack := held.down && !onGround;
      }
    }

    /** X: cast the selected spell. */
    method CastKey(held: Held, jumpMult: int)
      requires Valid()
      modifies this`magic, spells, spells.shield, spells.swift
      ensures Valid() && CurrentControls() == PressKey(old(CurrentControls()), KeyX, held, rect, facingRight, jumpMult)
    {
      CastSpell();
    }

    /** 1 to 5: select a spell. */
    method SelectKey(n: int, held: Held, jumpMult: int)
      requires Valid()
      modifies spells`selected
      ensures Valid() && CurrentControls() == PressKey(old(CurrentControls()), Digit(n), held, rect, facingRight, jumpMult)
    {
      spells.SelectSpell(n - 1);
    }

    /** I: toggle invincible mode. */
    method InvincibleKey(held: Held, jumpMult: int)
      requires Valid()
      modifies this`invincibleMode
      ensures Valid() && CurrentControls() == PressKey(old(CurrentControls()), KeyI, held, rect, facingRight, jumpMult)
    {
      invincibleMode := !invincibleMode;
    }

    /** The X key: cast the selected spell and pay what it cost. */
    method CastSpell()
      requires Valid()
      modifies this`magic, spells, spells.shield, spells.swift
      ensures Valid()
      ensures var cast := CastSelected(old(spells.State()), rect, facingRight, old(magic));
        spells.State() == cast.state && magic == old(magic) - cast.spent
    {
      var cost := spells.CastCurrentSpell(rect, magic, facingRight);
      magic := magic - cost;
      KeyPressRules(old(CurrentControls()), KeyX, Held(false, false, false, false), rect, facingRight, NoMultiplier);
    }

    /** `handle_world_input`: 3 px per frame; the last of left, right, up, down that is held sets the facing. */
    method HandleWorldInput(held: Held)
      modifies this`velocityX, this`velocityY, this`facing
      ensures velocityX == (if held.right then WorldPlayerSpeed else if held.left then -WorldPlayerSpeed else 0)
      ensures velocityY == (if held.down then WorldPlayerSpeed else if held.up then -WorldPlayerSpeed else 0)
      ensures facing == (if held.down then FaceDown else if held.up then FaceUp
                         else if held.right then FaceRight else if held.left then FaceLeft else old(facing))
    {
      velocityX := 0;
      velocityY := 0;
      if held.left {
        velocityX := -WorldPlayerSpeed;
        facing := FaceLeft;
      }
      if held.right {
        velocityX := WorldPlayerSpeed;
        facing := FaceRight;
      }
      if held.up {
        velocityY := -WorldPlayerSpeed;
        facing := FaceUp;
      }
      if held.down {
        velocityY := WorldPlayerSpeed;
        facing := FaceDown;
      }
    }

    /** `update`: countdowns, the spells, then level physics or world movement by mode. */
    method Update(tiles: seq<Rect>, worldTiles: seq<WorldTile>)
      requires Valid()
      modifies this`frame, this`attackCooldown, this`invincibility, this`isHurt, this`isAttacking, this`attackFrame,
               this`isUpAttack, this`isDownAttack, this`velocityY, this`rect, this`onGround,
               this`lastSafeX, this`lastSafeY, spells, spells.shield, spells.swift
      ensures Valid()
      ensures frame == old(frame) + 1
      ensures CurrentTimers() == TickTimers(old(CurrentTimers()))
      ensures spells.State() == TickSpells(old(spells.State()))
      ensures mode == LevelMode ==> CurrentBody() == LevelPhysics(old(CurrentBody()), tiles)
      ensures mode == WorldMode ==> CurrentBody() == old(CurrentBody()).(rect := WorldStep(old(rect), velocityX, velocityY, worldTiles))
    {
      Countdown();
      Move(tiles, worldTiles);
    }

    /** The animation frame count `update` advances. */
    method NextFrame()
      requires Valid()
      modifies this`frame
      ensures Valid() && frame == old(frame) + 1
    {
      frame := frame + 1;
    }

    /** The frame count, the countdowns and the spells' update at the start of `update`; the body is left as it is. */
    method Countdown()
      requires Valid()
      modifies this`frame, this`attackCooldown, this`invincibility, this`isHurt, this`isAttacking, this`attackFrame,
               this`isUpAttack, this`isDownAttack, spells, spells.shield, spells.swift
      ensures Valid()
      ensures CurrentTimers() == TickTimers(old(CurrentTimers()))
      ensures spells.State() == TickSpells(old(spells.State()))
      ensures CurrentBody() == old(CurrentBody()) && frame == old(frame) + 1
    {
      ghost var body := CurrentBody();
      NextFrame();
      UpdateTimers();
      assert CurrentBody() == body;
      ghost var timers1 := CurrentTimers();
      spells.Update();
      assert CurrentTimers() == timers1 && CurrentBody() == body;
    }

    /** The movement half of `update`, by mode. */
    method Move(tiles: seq<Rect>, worldTiles: seq<WorldTile>)
      requires Valid()
      modifies this`velocityY, this`rect, this`onGround, this`lastSafeX, this`lastSafeY
      ensures Valid()
      ensures mode == LevelMode ==> CurrentBody() == LevelPhysics(old(CurrentBody()), tiles)
      ensures mode == WorldMode ==> CurrentBody() == old(CurrentBody()).(rect := WorldStep(old(rect), velocityX, velocityY, worldTiles))
    {
      if mode == LevelMode {
        UpdateLevelPhysics(tiles);
      } else {
        UpdateWorldMovement(worldTiles);
      }
    }

    /** The countdowns at the start of `update`. */
    method UpdateTimers()
      requires Valid()
      modifies this`attackCooldown, this`invincibility, this`isHurt, this`isAttacking, this`attackFrame,
               this`isUpAttack, this`isDownAttack
      ensures Valid()
      ensures CurrentTimers() == TickTimers(old(CurrentTimers()))
    {
      if attackCooldown > 0 {
        attackCooldown := attackCooldown - 1;
      }
      if invincibility > 0 {
        invincibility := invincibility - 1;
        isHurt := invincibility % 10 < 5;
      } else {
        isHurt := false;
      }
      if isAttacking {
        attackFrame := attackFrame - 1;
        if attackFrame <= 0 {
          isAttacking := false;
          isUpAttack := false;
          isDownAttack := false;
        }
      }
    }

    /** `update_level_physics`: gravity, then the horizontal and the vertical pass. */
    method UpdateLevelPhysics(tiles: seq<Rect>)
      requires Valid()
      modifies this`velocityY, this`rect, this`onGround, this`lastSafeX, this`lastSafeY
      ensures Valid()
      ensures CurrentBody() == LevelPhysics(old(CurrentBody()), tiles)
    {
      velocityY := velocityY + PlayerGravity;
      if velocityY > TerminalVelocity {
        velocityY := TerminalVelocity;
      }
      MoveHorizontally(tiles);
      MoveVertically(tiles);
    }

    method MoveHorizontally(tiles: seq<Rect>)
      requires Valid()
      modifies this`rect
      ensures Valid()
      ensures rect == HorizontalPass(old(rect).(x := Shift(old(rect).x, velocityX)), velocityX, tiles)
    {
      rect := rect.(x := Shift(rect.x, velocityX));
      ghost var moved := rect;
      var i := 0;
      while i < |tiles|
        invariant 0 <= i <= |tiles|
        invariant rect == HorizontalPass(moved, velocityX, tiles[..i])
      {
        var t := tiles[i];
        if Collide(rect, t) {
          if velocityX > 0 {
            rect := rect.(x := t.x - rect.w);
          } else if velocityX < 0 {
            rect := rect.(x := t.x + t.w);
          }
        }
        assert tiles[..i + 1][..i] == tiles[..i];
        i := i + 1;
      }
      assert tiles[..i] == tiles;
      HorizontalPassFacts(moved, velocityX, tiles);
    }

    method MoveVertically(tiles: seq<Rect>)
      requires Valid()
      modifies this`velocityY, this`rect, this`onGround, this`lastSafeX, this`lastSafeY
      ensures Valid()
      ensures var l := VerticalPass(old(rect).(y := Shift(old(rect).y, old(velocityY))), old(velocityY), tiles);
        Landing(rect, velocityY, onGround) == l &&
        lastSafeX == (if l.landed then rect.x else old(lastSafeX)) &&
        lastSafeY == (if l.landed then rect.y else old(lastSafeY))
    {
      rect := rect.(y := Shift(rect.y, velocityY));
      onGround := false;
      ghost var dropped := rect;
      ghost var vy0 := velocityY;
      var i := 0;
      while i < |tiles|
        invariant 0 <= i <= |tiles|
        invariant Landing(rect, velocityY, onGround) == VerticalPass(dropped, vy0, tiles[..i])
        invariant onGround ==> velocityY == 0 && lastSafeX == rect.x && lastSafeY == rect.y
        invariant !onGround ==> lastSafeX == old(lastSafeX) && lastSafeY == old(lastSafeY)
      {
        PushOutOfTile(tiles[i]);
        assert tiles[..i + 1][..i] == tiles[..i];
        i := i + 1;
      }
      assert tiles[..i] == tiles;
      VerticalPassFacts(dropped, vy0, tiles);
    }

    /** One tile of the vertical pass; a landing records the safe position. */
    method PushOutOfTile(t: Rect)
      modifies this`velocityY, this`rect, this`onGround, this`lastSafeX, this`lastSafeY
      ensures Landing(rect, velocityY, onGround) == PushOutY(old(Landing(rect, velocityY, onGround)), t)
      ensures var lands := Collide(old(rect), t) && old(velocityY) > 0;
        lastSafeX == (if lands then rect.x else old(lastSafeX)) &&
        lastSafeY == (if lands then rect.y else old(lastSafeY))
    {
      if Collide(rect, t) {
        if velocityY > 0 {
          rect := rect.(y := t.y - rect.h);
          velocityY := 0;
          onGround := true;
          lastSafeX := rect.x;
          lastSafeY := rect.y;
        } else if velocityY < 0 {
          rect := rect.(y := t.y + t.h);
          velocityY := 0;
        }
      }
    }

    method UpdateWorldMovement(tiles: seq<WorldTile>)
      requires Valid()
      modifies this`rect
      ensures Valid()
      ensures rect == WorldStep(old(rect), velocityX, velocityY, tiles)
    {
      var oldX, oldY := rect.x, rect.y;
      rect := rect.(x := Shift(rect.x, velocityX), y := Shift(rect.y, velocityY));
      var i := 0;
      while i < |tiles|
        invariant 0 <= i <= |tiles|
        invariant rect == old(rect).(x := Shift(old(rect).x, velocityX), y := Shift(old(rect).y, velocityY))
        invariant forall k :: 0 <= k < i ==> !(!tiles[k].walkable && Collide(rect, tiles[k].rect))
      {
        if !tiles[i].walkable && Collide(rect, tiles[i].rect) {
          rect := rect.(x := oldX, y := oldY);
          return;
        }
        i := i + 1;
      }
    }

    method TakeDamage(amount: int) returns (died: bool)
      requires Valid()
      modifies this`health, this`invincibility
      ensures Valid()
      ensures Hurt(CurrentVitals(), died) ==
        TakeHit(old(CurrentVitals()), amount, DamageMultiplier(spells.shield.State()), invincibleMode)
    {
      if invincibleMode {
        return false;
      }
      if invincibility > 0 {
        return false;
      }
      var actual := ActualDamage(amount, DamageMultiplier(spells.shield.State()));
      health := health - actual;
      invincibility := PlayerInvincibilityFrames;
      if health <= 0 {
        health := 0;
        return true;
      }
      return false;
    }

    method Heal(amount: int)
      requires Valid()
      modifies this`health
      ensures Valid() && CurrentStats() == Healed(old(CurrentStats()), amount)
    {
      health := if maxHealth < health + amount then maxHealth else health + amount;
    }

    method RestoreMagic(amount: int)
      requires Valid() && amount >= 0
      modifies this`magic
      ensures Valid() && CurrentStats() == MagicRestored(old(CurrentStats()), amount)
    {
      magic := if maxMagic < magic + amount then maxMagic else magic + amount;
    }

    method IncreaseMaxHealth(amount: int)
      requires Valid() && amount >= 0
      modifies this`maxHealth, this`health
      ensures Valid() && CurrentStats() == MaxHealthRaised(old(CurrentStats()), amount)
    {
      maxHealth := maxHealth + amount;
      health := health + amount;
    }

    method IncreaseMaxMagic(amount: int)
      requires Valid() && amount >= 0
      modifies this`maxMagic, this`magic
      ensures Valid() && CurrentStats() == MaxMagicRaised(old(CurrentStats()), amount)
    {
      maxMagic := maxMagic + amount;
      magic := magic + amount;
    }

    method AddScore(points: int)
      modifies this`score
      ensures score == old(score) + points
    {
      score := score + points;
    }

    function AttackRect(): Option<Rect>
      reads this
    {
      AttackBox(rect, isAttacking, isUpAttack, isDownAttack, facingRight)
    }

    /** `set_mode`: switching modes stops the hero. */
    method SetMode(m: Mode)
      modifies this`mode, this`velocityX, this`velocityY
      ensures mode == m && velocityX == 0 && velocityY == 0
    {
      mode := m;
      velocityX := 0;
      velocityY := 0;
    }

    /** `reset_position`: place the hero, stop it, and make the spot the last safe one. */
    method ResetPosition(x: int, y: int)
      requires Valid()
      modifies this`rect, this`velocityX, this`velocityY, this`lastSafeX, this`lastSafeY
      ensures Valid()
      ensures rect == old(rect).(x := x, y := y) && velocityX == 0 && velocityY == 0
      ensures lastSafeX == x && lastSafeY == y
    {
      rect := rect.(x := x, y := y);
      velocityX := 0;
      velocityY := 0;
      lastSafeX := x;
      lastSafeY := y;
    }

    /** `respawn_at_safe_position`: back to the last safe spot, standing. */
    method RespawnAtSafePosition()
      requires Valid()
      modifies this`rect, this`velocityX, this`velocityY, this`onGround
      ensures Valid()
      ensures rect == old(rect).(x := lastSafeX, y := lastSafeY)
      ensures velocityX == 0 && velocityY == 0 && onGround
    {
      rect := rect.(x := lastSafeX, y := lastSafeY);
      velocityX := 0;
      velocityY := 0;
      onGround := true;
    }

    /** `fell_in_pit`: the hero's top is more than 100 px below the level's bottom. */
    predicate FellInPit(levelHeight: int): (b: bool)
      reads this
      ensures b ==> forall t: Rect :: t.Bottom() <= levelHeight ==> !Collide(rect, t)
    {
      rect.y > levelHeight + 100
    }
  }
}
