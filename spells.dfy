/**
 * The spell engine: two buffs with countdowns (shield, swift), the
 * fireball projectile, the two thunder effects with their "already hit"
 * sets, and the spell manager that gates casting on magic points.
 */
module Spells {
  import opened Rects
  import opened Settings

  /** The five spells, in the manager's selection order. */
  datatype SpellKind = Shield | Swift | FireballSpell | ThunderSpell | Thunder2Spell

  const SpellCount: int := 5

  function SpellAt(i: int): SpellKind
    requires 0 <= i < SpellCount
  {
    [Shield, Swift, FireballSpell, ThunderSpell, Thunder2Spell][i]
  }

  function Cost(k: SpellKind): int
  {
    match k
    case Shield => ShieldCost
    case Swift => SwiftCost
    case FireballSpell => FireballCost
    case ThunderSpell => ThunderCost
    case Thunder2Spell => Thunder2Cost
  }

  /** `Spell.can_cast`: enough magic points for the spell's cost. */
  predicate CanCast(k: SpellKind, magic: int)
  {
    magic >= Cost(k)
  }

  // ---------------------------------------------------------------- buffs

  /** What one buff remembers between frames. */
  datatype BuffState = BuffState(active: bool, remaining: int)

  /** A buff's `update`: an active buff counts down and switches off at 0; an inactive one is left alone. */
  function TickBuff(b: BuffState): (r: BuffState)
    ensures !b.active ==> r == b
    ensures b.active ==> r.remaining == b.remaining - 1 && (r.active <==> r.remaining > 0)
  {
    if !b.active then b
    else BuffState(b.remaining - 1 > 0, b.remaining - 1)
  }

  function TickBuffTimes(b: BuffState, n: nat): BuffState
  {
    if n == 0 then b else TickBuff(TickBuffTimes(b, n - 1))
  }

  /**
   * A buff cast with duration `d` stays active for the next `d - 1`
   * updates, goes inactive on the `d`-th and then stays inactive.
   */
  lemma {:induction false} BuffExpiry(d: int, n: nat)
    requires d >= 1
    ensures TickBuffTimes(BuffState(true, d), n) ==
      if n < d then BuffState(true, d - n) else BuffState(false, 0)
  {
    if n > 0 {
      BuffExpiry(d, n - 1);
    }
  }

  /** The shield or the swift spell: a cost, a fixed duration and a countdown. */
  class BuffSpell {
    const cost: int
    const duration: int
    var active: bool
    var remainingDuration: int

    function State(): BuffState
      reads this
    {
      BuffState(active, remainingDuration)
    }

    constructor (cost: int, duration: int)
      ensures this.cost == cost && this.duration == duration
      ensures State() == BuffState(false, 0)
    {
      this.cost := cost;
      this.duration := duration;
      active := false;
      remainingDuration := 0;
    }

    /** `cast`: (re)starts the full duration, even while already active. */
    method Cast() returns (ok: bool)
      modifies this
      ensures ok && State() == BuffState(true, duration)
    {
      active := true;
      remainingDuration := duration;
      ok := true;
    }

    method Update()
      modifies this
      ensures State() == TickBuff(old(State()))
    {
      if active {
        remainingDuration := remainingDuration - 1;
        if remainingDuration <= 0 {
          active := false;
        }
      }
    }
  }

  /** `get_damage_multiplier`, in tenths: the shield halves damage while active. */
  function DamageMultiplier(shield: BuffState): (m: int)
    ensures m == NoMultiplier <==> !shield.active
  {
    if shield.active then ShieldDamageReduction else NoMultiplier
  }

  /** `get_speed_multiplier`, in tenths. */
  function SpeedMultiplier(swift: BuffState): (m: int)
    ensures m == NoMultiplier <==> !swift.active
  {
    if swift.active then SwiftSpeedMultiplier else NoMultiplier
  }

  /** `get_jump_multiplier`, in tenths. */
  function JumpMultiplier(swift: BuffState): (m: int)
    ensures m == NoMultiplier <==> !swift.active
  {
    if swift.active then SwiftJumpMultiplier else NoMultiplier
  }

  // ------------------------------------------------------------ fireballs

  /** A fireball flying horizontally; `direction` is 1 (right) or -1 (left). */
  datatype Fireball = Fireball(rect: Rect, direction: int, lifetime: int)

  function NewFireball(cx: int, cy: int, facingRight: bool): (f: Fireball)
    ensures f.rect.CenterX() == cx && f.rect.CenterY() == cy
    ensures f.lifetime == FireballLifetime
  {
    Fireball(CenteredAt(cx, cy, FireballSize, FireballSize), if facingRight then 1 else -1, FireballLifetime)
  }

  /** `Fireball.update` without the removal: fly one step and age by one frame. */
  function StepFireball(f: Fireball): Fireball
  {
    f.(rect := f.rect.(x := f.rect.x + FireballSpeed * f.direction), lifetime := f.lifetime - 1)
  }

  function StepFireballTimes(f: Fireball, n: nat): Fireball
  {
    if n == 0 then f else StepFireball(StepFireballTimes(f, n - 1))
  }

  /** The projectile group's `update`: every fireball steps, and those whose lifetime reached 0 are killed. */
  function FireballsAfterUpdate(fs: seq<Fireball>): seq<Fireball>
  {
    if fs == [] then []
    else
      var g := StepFireball(fs[0]);
      (if g.lifetime > 0 then [g] else []) + FireballsAfterUpdate(fs[1..])
  }

  /**
   * A fresh fireball moves `FireballSpeed` pixels per update in its
   * direction, and is alive after `n` updates exactly when `n < 120`.
   */
  lemma {:induction false} FireballFlight(cx: int, cy: int, facingRight: bool, n: nat)
    ensures var f0 := NewFireball(cx, cy, facingRight);
      var f := StepFireballTimes(f0, n);
      f.rect == f0.rect.(x := f0.rect.x + FireballSpeed * f0.direction * n) &&
      f.direction == f0.direction &&
      (f.lifetime > 0 <==> n < FireballLifetime)
  {
    var f0 := NewFireball(cx, cy, facingRight);
    if n > 0 {
      FireballFlight(cx, cy, facingRight, n - 1);
      var p := StepFireballTimes(f0, n - 1);
      assert p.lifetime == FireballLifetime - (n - 1) by { FireballAging(f0, n - 1); }
    }
  }

  lemma {:induction false} FireballAging(f: Fireball, n: nat)
    ensures StepFireballTimes(f, n).lifetime == f.lifetime - n
  {
    if n > 0 {
      FireballAging(f, n - 1);
    }
  }

  /** A fireball group update keeps exactly the stepped fireballs that are still alive, in order. */
  lemma {:induction false} FireballsAfterUpdateKeeps(fs: seq<Fireball>)
    ensures forall g :: g in FireballsAfterUpdate(fs) <==>
      g.lifetime > 0 && exists f :: f in fs && g == StepFireball(f)
  {
    if fs != [] {
      FireballsAfterUpdateKeeps(fs[1..]);
      assert forall f :: f in fs <==> f == fs[0] || f in fs[1..];
    }
  }

  // -------------------------------------------------------------- thunder

  /**
   * The two thunder effects. `Thunder` is the area burst centred on its
   * box; `Thunder2` is the bolt striking down at column `x` onto
   * `targetY`, its drawn length being `height`. Both remember which
   * enemies they have already damaged.
   */
  datatype Effect =
    | Thunder(rect: Rect, lifetime: int, hit: set<object>)
    | Thunder2(x: int, targetY: int, height: int, lifetime: int, hit: set<object>, striking: bool)
  {
    function Damage(): int
    {
      if Thunder? then ThunderDamage else Thunder2Damage
    }
  }

  function NewThunder(cx: int, cy: int): (e: Effect)
    ensures e.Thunder? && e.rect.CenterX() == cx && e.rect.CenterY() == cy
    ensures e.lifetime == ThunderLifetime && e.hit == {}
  {
    Thunder(CenteredAt(cx, cy, ThunderSize, ThunderSize), ThunderLifetime, {})
  }

  /** `Thunder2Effect.__init__`, including the first `update_image`, which already grows the bolt once. */
  function NewThunder2(x: int, targetY: int): Effect
  {
    Thunder2(x, targetY, Grow(0), Thunder2Lifetime, {}, true)
  }

  /** `update_image` while striking: grow by 25, capped at 300. */
  function Grow(height: int): int
  {
    if height + Thunder2Growth < Thunder2MaxHeight then height + Thunder2Growth else Thunder2MaxHeight
  }

  /** An effect's `update` without the removal. */
  function StepEffect(e: Effect): Effect
  {
    match e
    case Thunder(r, life, hit) => Thunder(r, life - 1, hit)
    case Thunder2(x, ty, h, life, hit, striking) =>
      var s := striking && !(h >= Thunder2MaxHeight);
      Thunder2(x, ty, if s then Grow(h) else h, life - 1, hit, s)
  }

  function StepEffectTimes(e: Effect, n: nat): Effect
  {
    if n == 0 then e else StepEffect(StepEffectTimes(e, n - 1))
  }

  /** An effect group's `update`: every effect steps and the expired ones are killed. */
  function EffectsAfterUpdate(es: seq<Effect>): seq<Effect>
  {
    if es == [] then []
    else
      var g := StepEffect(es[0]);
      (if g.lifetime > 0 then [g] else []) + EffectsAfterUpdate(es[1..])
  }

  /**
   * The bolt after `n` updates: its height is `min(300, 25 * (n + 1))`, so
   * it grows by 25 per update up to the cap, and it keeps striking for
   * the update that reaches the cap and stops on the next one.
   */
  lemma {:induction false} BoltGrowth(x: int, targetY: int, n: nat)
    ensures StepEffectTimes(NewThunder2(x, targetY), n) ==
      Thunder2(x, targetY,
               if 25 * (n + 1) < Thunder2MaxHeight then 25 * (n + 1) else Thunder2MaxHeight,
               Thunder2Lifetime - n, {}, n <= 11)
  {
    if n > 0 {
      BoltGrowth(x, targetY, n - 1);
    }
  }

  /** A thunder burst lives 30 updates, a bolt 45. */
  lemma {:induction false} EffectLifetime(e: Effect, n: nat)
    ensures StepEffectTimes(e, n).lifetime == e.lifetime - n
    ensures StepEffectTimes(e, n).hit == e.hit
    ensures StepEffectTimes(e, n).Thunder? == e.Thunder?
  {
    if n > 0 {
      EffectLifetime(e, n - 1);
    }
  }

  /** The reach of an effect, given the target's box. */
  predicate InReach(e: Effect, target: Rect)
  {
    match e
    case Thunder(r, _, _) =>
      var dx := target.CenterX() - r.CenterX();
      var dy := target.CenterY() - r.CenterY();
      // sqrt(dx*dx + dy*dy) <= radius, squared
      dx * dx + dy * dy <= ThunderRadius * ThunderRadius
    case Thunder2(x, ty, h, _, _, _) =>
      -30 < target.CenterX() - x < 30 && target.y < ty && target.Bottom() > ty - h
  }

  /** The answer of `can_hit` and the effect after it (it records the hit). */
  datatype HitCheck = HitCheck(hits: bool, effect: Effect)

  /** `can_hit`: an enemy not yet hit and in reach is recorded and reported. */
  function CanHit(e: Effect, who: object, target: Rect): (c: HitCheck)
    ensures c.hits <==> who !in e.hit && InReach(e, target)
    ensures c.effect == e.(hit := if c.hits then e.hit + {who} else e.hit)
  {
    if who in e.hit then HitCheck(false, e)
    else if InReach(e, target) then HitCheck(true, e.(hit := e.hit + {who}))
    else HitCheck(false, e)
  }

  /** Something that happens to an effect during its life: an update, or a `can_hit` query. */
  datatype Probe = Tick | Query(who: object, target: Rect)

  /** The effect after a sequence of probes, with the enemies that `can_hit` accepted, in order. */
  datatype Life = Life(effect: Effect, accepted: seq<object>)

  function Run(e: Effect, probes: seq<Probe>): Life
    decreases |probes|
  {
    if probes == [] then Life(e, [])
    else
      var pre := Run(e, probes[..|probes| - 1]);
      match probes[|probes| - 1]
      case Tick => Life(StepEffect(pre.effect), pre.accepted)
      case Query(who, target) =>
        var c := CanHit(pre.effect, who, target);
        Life(c.effect, pre.accepted + if c.hits then [who] else [])
  }

  /**
   * However queries and updates interleave, `can_hit` accepts each enemy
   * at most once over the effect's life, never one already recorded,
   * and everything it accepted is recorded.
   */
  lemma {:induction false} HitAtMostOnce(e: Effect, probes: seq<Probe>)
    ensures var l := Run(e, probes);
      (forall i, j :: 0 <= i < j < |l.accepted| ==> l.accepted[i] != l.accepted[j]) &&
      (forall i :: 0 <= i < |l.accepted| ==> l.accepted[i] !in e.hit && l.accepted[i] in l.effect.hit) &&
      e.hit <= l.effect.hit
    decreases |probes|
  {
    if probes != [] {
      HitAtMostOnce(e, probes[..|probes| - 1]);
    }
  }

  // --------------------------------------------------------- the manager

  /** Everything the spell manager and its spells remember. */
  datatype SpellState = SpellState(
    shield: BuffState, swift: BuffState,
    fireballs: seq<Fireball>, thunders: seq<Effect>, bolts: seq<Effect>,
    selected: int)

  /** The manager's state after `cast_current_spell`, and the magic it spent. */
  datatype CastResult = CastResult(state: SpellState, spent: int)

  /**
   * `cast_current_spell`: the selected spell is cast only if its cost is
   * affordable, and then the cost is returned; otherwise nothing happens
   * and 0 is returned. Thunder lands 50 px ahead of the caster, Thunder2
   * 60 px ahead at the caster's feet.
   */
  function CastSelected(s: SpellState, caster: Rect, facingRight: bool, magic: int): (r: CastResult)
    requires 0 <= s.selected < SpellCount
    ensures r.spent == (if CanCast(SpellAt(s.selected), magic) then Cost(SpellAt(s.selected)) else 0)
    ensures r.spent == 0 ==> r.state == s
    ensures r.spent != 0 ==> r.spent > 0
    ensures r.state.selected == s.selected
    ensures r.spent != 0 ==>
      |r.state.fireballs| + |r.state.thunders| + |r.state.bolts|
        + (if r.state.shield.active && r.state.shield != s.shield then 1 else 0)
        + (if r.state.swift.active && r.state.swift != s.swift then 1 else 0)
      <= |s.fireballs| + |s.thunders| + |s.bolts| + 1
  {
    var k := SpellAt(s.selected);
    if !CanCast(k, magic) then CastResult(s, 0)
    else
      var st := match k
        case Shield => s.(shield := BuffState(true, ShieldDuration))
        case Swift => s.(swift := BuffState(true, SwiftDuration))
        case FireballSpell =>
          s.(fireballs := s.fireballs + [NewFireball(caster.CenterX(), caster.CenterY(), facingRight)])
        case ThunderSpell =>
          s.(thunders := s.thunders + [NewThunder(caster.CenterX() + (if facingRight then 50 else -50), caster.CenterY())])
        case Thunder2Spell =>
          s.(bolts := s.bolts + [NewThunder2(caster.CenterX() + (if facingRight then 60 else -60), caster.Bottom())]);
      CastResult(st, Cost(k))
  }

  /** `SpellManager.update`: every spell updates once. */
  function TickSpells(s: SpellState): SpellState
  {
    SpellState(TickBuff(s.shield), TickBuff(s.swift),
               FireballsAfterUpdate(s.fireballs), EffectsAfterUpdate(s.thunders), EffectsAfterUpdate(s.bolts),
               s.selected)
  }

  /** `select_spell`: only an index naming a spell is taken. */
  function Select(selected: int, index: int): (r: int)
    ensures 0 <= index < SpellCount ==> r == index
    ensures !(0 <= index < SpellCount) ==> r == selected
  {
    if 0 <= index < SpellCount then index else selected
  }

  /** `next_spell`, wrapping modulo 5 (Python's `%` agrees with Dafny's for a positive modulus). */
  function NextIndex(selected: int): (r: int)
    ensures 0 <= r < SpellCount
  {
    (selected + 1) % SpellCount
  }

  /** `prev_spell`, wrapping modulo 5. */
  function PrevIndex(selected: int): (r: int)
    ensures 0 <= r < SpellCount
  {
    (selected - 1) % SpellCount
  }

  function NextTimes(selected: int, n: nat): int
  {
    if n == 0 then selected else NextIndex(NextTimes(selected, n - 1))
  }

  /** Stepping forward and back are inverse, and five steps forward come back to the start. */
  lemma {:induction false} SelectionWraps(selected: int)
    requires 0 <= selected < SpellCount
    ensures PrevIndex(NextIndex(selected)) == selected
    ensures NextIndex(PrevIndex(selected)) == selected
    ensures NextTimes(selected, SpellCount) == selected
    ensures forall n: nat :: 0 < n < SpellCount ==> NextTimes(selected, n) == (selected + n) % SpellCount
  {
    assert NextTimes(selected, 1) == (selected + 1) % SpellCount;
    assert NextTimes(selected, 2) == (selected + 2) % SpellCount;
    assert NextTimes(selected, 3) == (selected + 3) % SpellCount;
    assert NextTimes(selected, 4) == (selected + 4) % SpellCount;
  }

  /** The spell manager: the two buff objects and the effect groups of the offensive spells. */
  class SpellManager {
    const shield: BuffSpell
    const swift: BuffSpell
    var fireballs: seq<Fireball>
    var thunders: seq<Effect>
    var bolts: seq<Effect>
    var selected: int

    ghost predicate Valid()
      reads this, shield, swift
    {
      shield != swift &&
      shield.cost == ShieldCost && shield.duration == ShieldDuration &&
      swift.cost == SwiftCost && swift.duration == SwiftDuration &&
      0 <= selected < SpellCount
    }

    function State(): SpellState
      reads this, shield, swift
    {
      SpellState(shield.State(), swift.State(), fireballs, thunders, bolts, selected)
    }

    constructor ()
      ensures Valid() && fresh(shield) && fresh(swift)
      ensures State() == SpellState(BuffState(false, 0), BuffState(false, 0), [], [], [], 0)
    {
      shield := new BuffSpell(ShieldCost, ShieldDuration);
      swift := new BuffSpell(SwiftCost, SwiftDuration);
      fireballs := [];
      thunders := [];
      bolts := [];
      selected := 0;
    }

    method SelectSpell(index: int)
      requires Valid()
      modifies this`selected
      ensures Valid() && selected == Select(old(selected), index)
    {
      if 0 <= index < SpellCount {
        selected := index;
      }
    }

    method NextSpell()
      requires Valid()
      modifies this`selected
      ensures Valid() && selected == NextIndex(old(selected))
    {
      selected := (selected + 1) % SpellCount;
    }

    method PrevSpell()
      requires Valid()
      modifies this`selected
      ensures Valid() && selected == PrevIndex(old(selected))
    {
      selected := (selected - 1) % SpellCount;
    }

    method CastCurrentSpell(caster: Rect, magic: int, facingRight: bool) returns (spent: int)
      requires Valid()
      modifies this, shield, swift
      ensures Valid()
      ensures CastResult(State(), spent) == CastSelected(old(State()), caster, facingRight, magic)
    {
      var k := SpellAt(selected);
      spent := 0;
      if magic >= Cost(k) {
        match k {
          case Shield =>
            var ok := shield.Cast();
          case Swift =>
            var ok := swift.Cast();
          case FireballSpell =>
            fireballs := fireballs + [NewFireball(caster.CenterX(), caster.CenterY(), facingRight)];
          case ThunderSpell =>
            thunders := thunders + [NewThunder(caster.CenterX() + (if facingRight then 50 else -50), caster.CenterY())];
          case Thunder2Spell =>
            bolts := bolts + [NewThunder2(caster.CenterX() + (if facingRight then 60 else -60), caster.Bottom())];
        }
        spent := Cost(k);
      }
    }

    method Update()
      requires Valid()
      modifies this, shield, swift
      ensures Valid() && State() == TickSpells(old(State()))
    {
      shield.Update();
      swift.Update();
      fireballs := FireballsAfterUpdate(fireballs);
      thunders := EffectsAfterUpdate(thunders);
      bolts := EffectsAfterUpdate(bolts);
    }

    /** The thunder effects after a combat pass has recorded whom each one hit: the first ones are the bursts. */
    method RecordHits(done: seq<Effect>)
      requires Valid() && |done| == |thunders| + |bolts|
      modifies this`thunders, this`bolts
      ensures Valid()
      ensures thunders == done[..|old(thunders)|] && bolts == done[|old(thunders)|..]
    {
      var n := |thunders|;
      thunders := done[..n];
      bolts := done[n..];
    }

    /** `get_effects`: the thunder bursts, then the bolts. */
    function Effects(): seq<Effect>
      reads this
    {
      thunders + bolts
    }
  }
}
