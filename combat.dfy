/**
 * `Game.check_combat`: the four sweeps of a level frame in which the hero
 * and the enemies hurt each other. The melee swing, the fireballs, the
 * thunder effects and body contact each run over the enemies still in
 * the level group. Each sweep is a pure fold over value snapshots of the
 * enemies ("foes"); the methods at the end follow those folds step by
 * step on the level's enemy objects and the hero.
 */
module Combat {
  import opened Options
  import opened Rects
  import opened Settings
  import opened Spells
  import opened Enemies
  import opened Players
  import opened Levels

  // ------------------------------------------------------------ snapshots

  /** What a sweep sees of one enemy: the object (its identity and constants), its health and everything else it remembers. */
  datatype Foe = Foe(who: Enemy, health: int, mind: Mind)

  function FoeOf(e: Enemy): Foe
    reads e
  {
    Foe(e, e.health, e.State())
  }

  function Foes(es: seq<Enemy>): (fs: seq<Foe>)
    reads es
    ensures |fs| == |es|
    decreases |es|
  {
    if es == [] then [] else Foes(es[..|es| - 1]) + [FoeOf(es[|es| - 1])]
  }

  /** The snapshot lists each enemy's state at its place. */
  lemma {:induction false} FoesAt(es: seq<Enemy>, i: nat)
    requires i < |es|
    ensures Foes(es)[i] == FoeOf(es[i])
    decreases |es|
  {
    if i < |es| - 1 {
      FoesAt(es[..|es| - 1], i);
    }
  }

  lemma FoesPointwise(es: seq<Enemy>)
    ensures forall j :: 0 <= j < |es| ==> Foes(es)[j] == FoeOf(es[j])
  {
    forall j | 0 <= j < |es|
      ensures Foes(es)[j] == FoeOf(es[j])
    {
      FoesAt(es, j);
    }
  }

  /** Every enemy appears at most once. */
  predicate Distinct(fs: seq<Foe>)
  {
    forall i, j :: 0 <= i < j < |fs| ==> fs[i].who != fs[j].who
  }

  /** The enemies a snapshot is about. */
  function WhoSet(fs: seq<Foe>): set<Enemy>
  {
    set i | 0 <= i < |fs| :: fs[i].who
  }

  lemma WhoSetSnoc(fs: seq<Foe>, f: Foe)
    ensures WhoSet(fs + [f]) == WhoSet(fs) + {f.who}
  {
    var s := fs + [f];
    forall x | x in WhoSet(s) ensures x in WhoSet(fs) + {f.who} {
      var i :| 0 <= i < |s| && s[i].who == x;
      if i < |fs| { assert fs[i] == s[i]; }
    }
    forall x | x in WhoSet(fs) ensures x in WhoSet(s) {
      var i :| 0 <= i < |fs| && fs[i].who == x;
      assert s[i] == fs[i];
    }
    assert s[|fs|] == f;
  }

  /** In a group without duplicates the last enemy is not among the ones before it. */
  lemma LastIsNew(pre: seq<Foe>, f: Foe)
    requires Distinct(pre + [f])
    ensures f.who !in WhoSet(pre) && Distinct(pre)
  {
    var fs := pre + [f];
    forall j | 0 <= j < |pre| ensures pre[j].who != f.who {
      assert pre[j] == fs[j] && f == fs[|pre|];
    }
    forall a, b | 0 <= a < b < |pre| ensures pre[a].who != pre[b].who {
      assert pre[a] == fs[a] && pre[b] == fs[b];
    }
  }

  /** The snapshot of an enemy in a sweep's result, looked up by identity. */
  function Find(fs: seq<Foe>, who: Enemy): (o: Option<Foe>)
    ensures o.Some? ==> o.value in fs && o.value.who == who
    ensures o.None? <==> who !in WhoSet(fs)
    decreases |fs|
  {
    if fs == [] then None
    else
      var pre := fs[..|fs| - 1];
      var p := Find(pre, who);
      assert fs == pre + [fs[|fs| - 1]];
      WhoSetSnoc(pre, fs[|fs| - 1]);
      if p.Some? then p
      else if fs[|fs| - 1].who == who then Some(fs[|fs| - 1])
      else None
  }

  lemma FindSnoc(fs: seq<Foe>, g: Foe, who: Enemy)
    ensures Find(fs + [g], who) == if Find(fs, who).Some? then Find(fs, who) else if g.who == who then Some(g) else None
  {
    assert (fs + [g])[..|fs|] == fs;
  }

  /** The score the enemies of a snapshot are worth together. */
  function Bounty(fs: seq<Foe>): int
    decreases |fs|
  {
    if fs == [] then 0 else Bounty(fs[..|fs| - 1]) + fs[|fs| - 1].who.score
  }

  lemma {:induction false} BountyAppend(a: seq<Foe>, b: seq<Foe>)
    ensures Bounty(a + b) == Bounty(a) + Bounty(b)
    decreases |b|
  {
    if b == [] {
      assert a + b == a;
    } else {
      assert (a + b)[..|a + b| - 1] == a + b[..|b| - 1];
      BountyAppend(a, b[..|b| - 1]);
    }
  }

  /** Removing or replacing the enemy at `i` by a snapshot of the same enemy changes the bounty by its score or not at all. */
  lemma BountySplice(s: seq<Foe>, i: nat, g: Foe)
    requires i < |s| && g.who == s[i].who
    ensures Bounty(s[..i] + s[i + 1..]) + s[i].who.score == Bounty(s)
    ensures Bounty(s[i := g]) == Bounty(s)
  {
    assert s == s[..i] + [s[i]] + s[i + 1..];
    assert s[i := g] == s[..i] + [g] + s[i + 1..];
    BountyAppend(s[..i] + [s[i]], s[i + 1..]);
    BountyAppend(s[..i] + [g], s[i + 1..]);
    BountyAppend(s[..i], s[i + 1..]);
    BountyAppend(s[..i], [s[i]]);
    BountyAppend(s[..i], [g]);
    assert Bounty([g]) == Bounty([s[i]]) by {
      assert [g][..0] == [] && [s[i]][..0] == [];
    }
  }

  // ----------------------------------------------------------- damage

  /** `enemy.take_damage(amount)` on a snapshot: the wounded enemy, or None when it died and left the group. */
  function Struck(f: Foe, amount: int): Option<Foe>
  {
    var w := Damaged(f.who.kind, f.health, amount);
    if w.died then None else Some(f.(health := w.health, mind := f.mind.(hurtTimer := HurtFrames)))
  }

  /** The enemies still in the group after a sweep, in group order, and the score their deaths gave the hero. */
  datatype Sweep = Sweep(kept: seq<Foe>, gained: int)

  /** One enemy's turn in a sweep: it stays as `o`, or it died and the hero gets its score. */
  function Settle(p: Sweep, f: Foe, o: Option<Foe>): Sweep
  {
    match o
    case None => Sweep(p.kept, p.gained + f.who.score)
    case Some(g) => Sweep(p.kept + [g], p.gained)
  }

  /** What damages every enemy it reaches: the attack box, or a thunder effect seen with its hit record as it was at the start. */
  datatype Weapon = Blade(box: Rect) | Burst(effect: Effect)

  predicate Hits(w: Weapon, f: Foe)
  {
    match w
    case Blade(box) => Collide(box, f.mind.rect)
    case Burst(e) => f.who !in e.hit && InReach(e, f.mind.rect)
  }

  /** The melee blow deals 1; an effect its own damage. */
  function Power(w: Weapon): int
  {
    match w
    case Blade(_) => 1
    case Burst(e) => e.Damage()
  }

  /** What becomes of one enemy under a weapon: untouched when not reached, else struck. */
  function Fate(w: Weapon, f: Foe): (o: Option<Foe>)
    ensures o.Some? ==> o.value.who == f.who && o.value.mind.rect == f.mind.rect
  {
    if Hits(w, f) then Struck(f, Power(w)) else Some(f)
  }

  /** A weapon swept over the group in order. */
  function Strike(fs: seq<Foe>, w: Weapon): Sweep
    decreases |fs|
  {
    if fs == [] then Sweep([], 0)
    else Settle(Strike(fs[..|fs| - 1], w), fs[|fs| - 1], Fate(w, fs[|fs| - 1]))
  }

  /** The boxes of a snapshot's enemies. */
  function RectSet(fs: seq<Foe>): set<Rect>
  {
    set i | 0 <= i < |fs| :: fs[i].mind.rect
  }

  lemma RectSetSnoc(fs: seq<Foe>, f: Foe)
    ensures RectSet(fs + [f]) == RectSet(fs) + {f.mind.rect}
  {
    var s := fs + [f];
    forall x | x in RectSet(s) ensures x in RectSet(fs) + {f.mind.rect} {
      var i :| 0 <= i < |s| && s[i].mind.rect == x;
      if i < |fs| { assert fs[i] == s[i]; }
    }
    forall x | x in RectSet(fs) ensures x in RectSet(s) {
      var i :| 0 <= i < |fs| && fs[i].mind.rect == x;
      assert s[i] == fs[i];
    }
    assert s[|fs|] == f;
  }

  /** A sweep's result: distinct enemies of the group it started from, with their boxes unchanged. */
  ghost predicate Within(kept: seq<Foe>, fs: seq<Foe>)
  {
    Distinct(kept) && WhoSet(kept) <= WhoSet(fs) && RectSet(kept) <= RectSet(fs)
  }

  /** Appending the survivor of the last enemy keeps a sweep's result within the group. */
  lemma WithinSnoc(kept: seq<Foe>, pre: seq<Foe>, f: Foe, g: Foe)
    requires Within(kept, pre) && Distinct(pre + [f]) && g.who == f.who && g.mind.rect == f.mind.rect
    ensures Within(kept + [g], pre + [f]) && Within(kept, pre + [f])
  {
    var fs := pre + [f];
    WhoSetSnoc(pre, f);
    WhoSetSnoc(kept, g);
    RectSetSnoc(pre, f);
    RectSetSnoc(kept, g);
    LastIsNew(pre, f);
    var s := kept + [g];
    forall a, b | 0 <= a < b < |s| ensures s[a].who != s[b].who {
      if b == |kept| { assert s[a].who in WhoSet(kept); } else { assert s[a] == kept[a] && s[b] == kept[b]; }
    }
  }

  /** A sweep gives up exactly the score of the enemies it removed and keeps the rest within the group. */
  lemma {:induction false} StrikeWithin(fs: seq<Foe>, w: Weapon)
    requires Distinct(fs)
    ensures var s := Strike(fs, w); Bounty(fs) == Bounty(s.kept) + s.gained && Within(s.kept, fs)
    decreases |fs|
  {
    if fs != [] {
      var pre := fs[..|fs| - 1];
      var f := fs[|fs| - 1];
      assert fs == pre + [f];
      LastIsNew(pre, f);
      StrikeWithin(pre, w);
      var p := Strike(pre, w);
      match Fate(w, f) {
        case None =>
          WithinSnoc(p.kept, pre, f, f);
        case Some(g) =>
          WithinSnoc(p.kept, pre, f, g);
          assert (p.kept + [g])[..|p.kept|] == p.kept;
      }
    }
  }

  /**
   * A sweep leaves each enemy exactly as its fate says: looked up by
   * identity in the result, an enemy the weapon did not reach is
   * unchanged, one it reached is wounded, and one it killed is gone.
   * The score gained is exactly what the removed enemies were worth.
   */
  lemma StrikeFacts(fs: seq<Foe>, w: Weapon)
    requires Distinct(fs)
    ensures var s := Strike(fs, w);
      Bounty(fs) == Bounty(s.kept) + s.gained && Within(s.kept, fs) &&
      forall i :: 0 <= i < |fs| ==> Find(s.kept, fs[i].who) == Fate(w, fs[i])
  {
    StrikeWithin(fs, w);
    StrikeFates(fs, w);
  }

  lemma {:induction false} StrikeFates(fs: seq<Foe>, w: Weapon)
    requires Distinct(fs)
    ensures forall i :: 0 <= i < |fs| ==> Find(Strike(fs, w).kept, fs[i].who) == Fate(w, fs[i])
    decreases |fs|
  {
    if fs != [] {
      var pre := fs[..|fs| - 1];
      var f := fs[|fs| - 1];
      assert fs == pre + [f];
      LastIsNew(pre, f);
      StrikeWithin(pre, w);
      StrikeFates(pre, w);
      var p := Strike(pre, w);
      assert f.who !in WhoSet(p.kept);
      assert Find(p.kept, f.who) == None;
      var o := Fate(w, f);
      if o.None? {
        assert Strike(fs, w).kept == p.kept;
        forall i | 0 <= i < |pre| ensures Find(p.kept, fs[i].who) == Fate(w, fs[i]) {
          assert fs[i] == pre[i];
        }
      } else {
        var g := o.value;
        assert Strike(fs, w).kept == p.kept + [g];
        forall i | 0 <= i < |fs| ensures Find(p.kept + [g], fs[i].who) == Fate(w, fs[i]) {
          FindSnoc(p.kept, g, fs[i].who);
          if i < |pre| {
            assert fs[i] == pre[i];
            assert fs[i].who != g.who;
          }
        }
      }
    }
  }

  // ----------------------------------------------------------- melee

  /** The attack sweep: every enemy overlapping the attack box takes 1, every frame the box exists. */
  function Swing(fs: seq<Foe>, attack: Option<Rect>): Sweep
  {
    match attack
    case None => Sweep(fs, 0)
    case Some(box) => Strike(fs, Blade(box))
  }

  // ------------------------------------------------------------ thunder

  /** The effects' `can_hit` decides, and records, enemy by enemy. */
  datatype Burned = Burned(sweep: Sweep, effect: Effect)

  /** One effect over the group: `if effect.can_hit(enemy): enemy.take_damage(effect.damage)`. */
  function Blast(fs: seq<Foe>, e: Effect): Burned
    decreases |fs|
  {
    if fs == [] then Burned(Sweep([], 0), e)
    else
      var p := Blast(fs[..|fs| - 1], e);
      var f := fs[|fs| - 1];
      var c := CanHit(p.effect, f.who, f.mind.rect);
      Burned(Settle(p.sweep, f, if c.hits then Struck(f, p.effect.Damage()) else Some(f)), c.effect)
  }

  /** Whether an effect reaches a box does not depend on whom it has hit. */
  lemma ReachIgnoresRecord(e: Effect, h: set<object>, r: Rect)
    ensures InReach(e.(hit := h), r) == InReach(e, r)
    ensures e.(hit := h).Damage() == e.Damage()
  {
  }

  /**
   * An effect over the group is the weapon `Burst(e)` of its starting
   * record: it strikes exactly the enemies in reach that it had not hit
   * before, records each of them, and otherwise stays the same effect.
   */
  lemma {:induction false} BlastFacts(fs: seq<Foe>, e: Effect)
    requires Distinct(fs)
    ensures var b := Blast(fs, e);
      b.sweep == Strike(fs, Burst(e)) &&
      b.effect == e.(hit := b.effect.hit) &&
      e.hit <= b.effect.hit <= e.hit + WhoSet(fs) &&
      forall i :: 0 <= i < |fs| ==> (fs[i].who in b.effect.hit <==> fs[i].who in e.hit || InReach(e, fs[i].mind.rect))
    decreases |fs|
  {
    if fs != [] {
      var pre := fs[..|fs| - 1];
      var f := fs[|fs| - 1];
      assert fs == pre + [f];
      WhoSetSnoc(pre, f);
      BlastFacts(pre, e);
      var p := Blast(pre, e);
      var h := p.effect.hit;
      LastIsNew(pre, f);
      ReachIgnoresRecord(e, h, f.mind.rect);
      var c := CanHit(p.effect, f.who, f.mind.rect);
      assert c.hits == Hits(Burst(e), f);
      forall i | 0 <= i < |pre| ensures fs[i].who in c.effect.hit <==> fs[i].who in e.hit || InReach(e, fs[i].mind.rect) {
        assert fs[i] == pre[i];
      }
    }
  }

  /** The queries an effect answers during one sweep. */
  function Queries(fs: seq<Foe>): (ps: seq<Probe>)
    ensures |ps| == |fs|
    decreases |fs|
  {
    if fs == [] then [] else Queries(fs[..|fs| - 1]) + [Query(fs[|fs| - 1].who, fs[|fs| - 1].mind.rect)]
  }

  /** A sweep is a run of `can_hit` queries, so the effect's lifelong at-most-once guarantee covers it. */
  lemma {:induction false} BlastIsRun(fs: seq<Foe>, e: Effect)
    ensures Blast(fs, e).effect == Run(e, Queries(fs)).effect
    decreases |fs|
  {
    if fs != [] {
      var q := Queries(fs);
      assert q[..|q| - 1] == Queries(fs[..|fs| - 1]);
      BlastIsRun(fs[..|fs| - 1], e);
    }
  }

  /** All the effects, one after the other, each over the enemies the previous ones left. */
  datatype Storm = Storm(sweep: Sweep, effects: seq<Effect>)

  function Thunderstorm(fs: seq<Foe>, es: seq<Effect>): (r: Storm)
    ensures |r.effects| == |es|
    decreases |es|
  {
    if es == [] then Storm(Sweep(fs, 0), [])
    else
      var p := Thunderstorm(fs, es[..|es| - 1]);
      var b := Blast(p.sweep.kept, es[|es| - 1]);
      Storm(Sweep(b.sweep.kept, p.sweep.gained + b.sweep.gained), p.effects + [b.effect])
  }

  lemma WithinTrans(a: seq<Foe>, b: seq<Foe>, c: seq<Foe>)
    requires Within(a, b) && Within(b, c)
    ensures Within(a, c)
  {
  }

  lemma WithinSelf(fs: seq<Foe>)
    requires Distinct(fs)
    ensures Within(fs, fs)
  {
  }

  /**
   * The thunder sweep gives up exactly the score of the enemies it
   * removed, and leaves every effect as it was apart from a larger hit
   * record.
   */
  lemma {:induction false} StormFacts(fs: seq<Foe>, es: seq<Effect>)
    requires Distinct(fs)
    ensures var r := Thunderstorm(fs, es);
      Bounty(fs) == Bounty(r.sweep.kept) + r.sweep.gained && Within(r.sweep.kept, fs) &&
      forall k :: 0 <= k < |es| ==> r.effects[k] == es[k].(hit := r.effects[k].hit) && es[k].hit <= r.effects[k].hit
    decreases |es|
  {
    if es == [] {
      WithinSelf(fs);
    } else {
      var pre := es[..|es| - 1];
      StormFacts(fs, pre);
      var p := Thunderstorm(fs, pre);
      BlastFacts(p.sweep.kept, es[|es| - 1]);
      StrikeFacts(p.sweep.kept, Burst(es[|es| - 1]));
      var b := Blast(p.sweep.kept, es[|es| - 1]);
      WithinTrans(b.sweep.kept, p.sweep.kept, fs);
      var r := Thunderstorm(fs, es);
      forall k | 0 <= k < |es| ensures r.effects[k] == es[k].(hit := r.effects[k].hit) && es[k].hit <= r.effects[k].hit {
        if k < |pre| { assert r.effects[k] == p.effects[k] && es[k] == pre[k]; }
      }
    }
  }

  // ---------------------------------------------------------- fireballs

  /** The first enemy of the group a box overlaps. */
  function FirstHit(fs: seq<Foe>, r: Rect): (o: Option<nat>)
    ensures o.Some? ==> o.value < |fs| && Collide(r, fs[o.value].mind.rect)
    ensures o.Some? ==> forall j :: 0 <= j < o.value ==> !Collide(r, fs[j].mind.rect)
    ensures o.None? ==> forall j :: 0 <= j < |fs| ==> !Collide(r, fs[j].mind.rect)
    decreases |fs|
  {
    if fs == [] then None
    else if Collide(r, fs[0].mind.rect) then Some(0)
    else match FirstHit(fs[1..], r)
      case None => None
      case Some(k) => Some(k + 1)
  }

  /** The enemy at `i` takes `amount`; it leaves the group when that kills it. */
  function Pierce(s: Sweep, i: nat, amount: int): Sweep
    requires i < |s.kept|
  {
    match Struck(s.kept[i], amount)
    case None => Sweep(s.kept[..i] + s.kept[i + 1..], s.gained + s.kept[i].who.score)
    case Some(g) => Sweep(s.kept[i := g], s.gained)
  }

  /** The fireballs still flying, and the group they leave. */
  datatype Salvo = Salvo(sweep: Sweep, flying: seq<Fireball>)

  /** Each fireball in order: the first enemy it overlaps takes its damage and the fireball is spent, killing or not. */
  function Fire(fs: seq<Foe>, bs: seq<Fireball>): Salvo
    decreases |bs|
  {
    if bs == [] then Salvo(Sweep(fs, 0), [])
    else
      var p := Fire(fs, bs[..|bs| - 1]);
      var b := bs[|bs| - 1];
      match FirstHit(p.sweep.kept, b.rect)
      case None => Salvo(p.sweep, p.flying + [b])
      case Some(i) => Salvo(Pierce(p.sweep, i, FireballDamage), p.flying)
  }

  lemma PierceFacts(s: Sweep, i: nat, amount: int, fs: seq<Foe>)
    requires i < |s.kept| && Within(s.kept, fs)
    ensures var t := Pierce(s, i, amount);
      Bounty(t.kept) + t.gained == Bounty(s.kept) + s.gained && Within(t.kept, fs) &&
      |t.kept| >= |s.kept| - 1
  {
    var k := s.kept;
    match Struck(k[i], amount) {
      case None =>
        BountySplice(k, i, k[i]);
        RemovalWithin(k, i);
      case Some(g) =>
        BountySplice(k, i, g);
        ReplacementWithin(k, i, g);
    }
  }

  lemma RemovalWithin(k: seq<Foe>, i: nat)
    requires i < |k| && Distinct(k)
    ensures Within(k[..i] + k[i + 1..], k)
  {
    var r := k[..i] + k[i + 1..];
    assert forall a :: 0 <= a < |r| ==> r[a] == (if a < i then k[a] else k[a + 1]);
    forall x | x in WhoSet(r) ensures x in WhoSet(k) {
      var a :| 0 <= a < |r| && r[a].who == x;
      if a < i { assert k[a] == r[a]; } else { assert k[a + 1] == r[a]; }
    }
    forall x | x in RectSet(r) ensures x in RectSet(k) {
      var a :| 0 <= a < |r| && r[a].mind.rect == x;
      if a < i { assert k[a] == r[a]; } else { assert k[a + 1] == r[a]; }
    }
    forall a, b | 0 <= a < b < |r| ensures r[a].who != r[b].who {
      if b < i { assert r[a] == k[a] && r[b] == k[b]; }
      else if a < i { assert r[a] == k[a] && r[b] == k[b + 1]; }
      else { assert r[a] == k[a + 1] && r[b] == k[b + 1]; }
    }
  }

  lemma ReplacementWithin(k: seq<Foe>, i: nat, g: Foe)
    requires i < |k| && Distinct(k) && g.who == k[i].who && g.mind.rect == k[i].mind.rect
    ensures Within(k[i := g], k)
  {
    var r := k[i := g];
    forall x | x in WhoSet(r) ensures x in WhoSet(k) {
      var a :| 0 <= a < |r| && r[a].who == x;
      assert r[a].who == k[a].who;
    }
    forall x | x in RectSet(r) ensures x in RectSet(k) {
      var a :| 0 <= a < |r| && r[a].mind.rect == x;
      assert r[a].mind.rect == k[a].mind.rect;
    }
    forall a, b | 0 <= a < b < |r| ensures r[a].who != r[b].who {
      assert r[a].who == k[a].who && r[b].who == k[b].who;
    }
  }

  /**
   * The fireball sweep gives up exactly the score of the enemies it
   * removed; the fireballs left are some of those there were, in a
   * sub-multiset; each spent fireball removed at most one enemy; and a
   * fireball that overlaps no enemy of the group keeps flying.
   */
  lemma {:induction false} FireFacts(fs: seq<Foe>, bs: seq<Fireball>)
    requires Distinct(fs)
    ensures var r := Fire(fs, bs);
      Bounty(fs) == Bounty(r.sweep.kept) + r.sweep.gained && Within(r.sweep.kept, fs) &&
      multiset(r.flying) <= multiset(bs) &&
      |fs| - |r.sweep.kept| <= |bs| - |r.flying| &&
      forall k :: 0 <= k < |bs| && (forall j :: 0 <= j < |fs| ==> !Collide(bs[k].rect, fs[j].mind.rect)) ==> bs[k] in r.flying
    decreases |bs|
  {
    if bs == [] {
      WithinSelf(fs);
    } else {
      var pre := bs[..|bs| - 1];
      var b := bs[|bs| - 1];
      assert bs == pre + [b];
      FireFacts(fs, pre);
      var p := Fire(fs, pre);
      var r := Fire(fs, bs);
      match FirstHit(p.sweep.kept, b.rect) {
        case None =>
          forall k | 0 <= k < |bs| && (forall j :: 0 <= j < |fs| ==> !Collide(bs[k].rect, fs[j].mind.rect))
            ensures bs[k] in r.flying
          {
            if k < |pre| { assert bs[k] == pre[k]; }
          }
        case Some(i) =>
          PierceFacts(p.sweep, i, FireballDamage, fs);
          var kept := p.sweep.kept;
          assert kept[i].mind.rect in RectSet(fs);
          var j :| 0 <= j < |fs| && fs[j].mind.rect == kept[i].mind.rect;
          assert Collide(b.rect, fs[j].mind.rect);
          forall k | 0 <= k < |bs| && (forall j :: 0 <= j < |fs| ==> !Collide(bs[k].rect, fs[j].mind.rect))
            ensures bs[k] in r.flying
          {
            assert k < |pre|;
            assert bs[k] == pre[k];
          }
      }
    }
  }

  // ------------------------------------------------------------ contact

  /** The boss balls that miss the hero, in order: every ball touching it is destroyed. */
  function Dodged(bs: seq<CannonBall>, hero: Rect): (r: seq<CannonBall>)
    ensures forall b :: b in r <==> b in bs && !Collide(hero, b.rect)
    ensures |r| <= |bs|
    decreases |bs|
  {
    if bs == [] then []
    else
      var p := Dodged(bs[..|bs| - 1], hero);
      var b := bs[|bs| - 1];
      assert bs == bs[..|bs| - 1] + [b];
      if Collide(hero, b.rect) then p else p + [b]
  }

  /** The damage of each boss ball touching the hero, in order (`proj.damage`). */
  function BallBlows(bs: seq<CannonBall>, hero: Rect): (d: seq<int>)
    ensures |d| + |Dodged(bs, hero)| == |bs|
    ensures forall k :: 0 <= k < |d| ==> d[k] == BallDamage
    decreases |bs|
  {
    if bs == [] then []
    else
      var p := BallBlows(bs[..|bs| - 1], hero);
      if Collide(hero, bs[|bs| - 1].rect) then p + [BallDamage] else p
  }

  /** The contact sweep: who stays, what the hero earned, and the damage of each `take_damage` call on the hero, in order. */
  datatype Clash = Clash(kept: seq<Foe>, gained: int, blows: seq<int>)

  /** One enemy's contact turn: its body, then (the boss only) its balls. */
  function Touch(p: Clash, f: Foe, hero: Rect, invincible: bool): Clash
  {
    var body := Collide(hero, f.mind.rect);
    var boss := f.who.kind == CannonKind;
    var blows := p.blows + (if body && !invincible then [f.who.damage] else [])
                 + (if boss && !invincible then BallBlows(f.mind.balls, hero) else []);
    var g := if boss then f.(mind := f.mind.(balls := Dodged(f.mind.balls, hero))) else f;
    if body && invincible then Clash(p.kept, p.gained + f.who.score, blows)
    else Clash(p.kept + [g], p.gained, blows)
  }

  function Contact(fs: seq<Foe>, hero: Rect, invincible: bool): Clash
    decreases |fs|
  {
    if fs == [] then Clash([], 0, [])
    else Touch(Contact(fs[..|fs| - 1], hero, invincible), fs[|fs| - 1], hero, invincible)
  }

  /** One contact turn, as the contact lemma needs it. */
  lemma TouchFacts(p: Clash, pre: seq<Foe>, f: Foe, hero: Rect, invincible: bool)
    requires Within(p.kept, pre) && Distinct(pre + [f])
    ensures var c := Touch(p, f, hero, invincible);
      Bounty(c.kept) + c.gained == Bounty(p.kept) + f.who.score + p.gained && Within(c.kept, pre + [f]) &&
      (invincible ==> c.blows == p.blows && (c.kept == p.kept || (c.kept == p.kept + [c.kept[|p.kept|]] && !Collide(hero, f.mind.rect)))) &&
      (!invincible ==> c.gained == p.gained && |c.kept| == |p.kept| + 1) &&
      (c.kept == p.kept || (c.kept == p.kept + [c.kept[|p.kept|]] && c.kept[|p.kept|].who == f.who &&
        c.kept[|p.kept|].mind.rect == f.mind.rect &&
        (f.who.kind == CannonKind ==> forall b :: b in c.kept[|p.kept|].mind.balls ==> !Collide(hero, b.rect))))
  {
    var g := if f.who.kind == CannonKind then f.(mind := f.mind.(balls := Dodged(f.mind.balls, hero))) else f;
    WithinSnoc(p.kept, pre, f, g);
    BountyAppend(p.kept, [g]);
    assert [g][..0] == [];
  }

  /**
   * In invincible mode contact removes every touching enemy for its
   * score and the hero takes no call of `take_damage`; otherwise no
   * enemy leaves and no score is earned. Either way no boss ball that
   * touches the hero survives.
   */
  lemma ContactFacts(fs: seq<Foe>, hero: Rect, invincible: bool)
    requires Distinct(fs)
    ensures var c := Contact(fs, hero, invincible);
      Bounty(fs) == Bounty(c.kept) + c.gained && Within(c.kept, fs) &&
      (invincible ==> c.blows == [] && forall k :: 0 <= k < |c.kept| ==> !Collide(hero, c.kept[k].mind.rect)) &&
      (!invincible ==> c.gained == 0 && |c.kept| == |fs|) &&
      forall k :: 0 <= k < |c.kept| && c.kept[k].who.kind == CannonKind ==>
        forall b :: b in c.kept[k].mind.balls ==> !Collide(hero, b.rect)
  {
    ContactWithin(fs, hero, invincible);
    ContactModes(fs, hero, invincible);
    ContactBalls(fs, hero, invincible);
  }

  lemma {:induction false} ContactWithin(fs: seq<Foe>, hero: Rect, invincible: bool)
    requires Distinct(fs)
    ensures var c := Contact(fs, hero, invincible); Bounty(fs) == Bounty(c.kept) + c.gained && Within(c.kept, fs)
    decreases |fs|
  {
    if fs != [] {
      var pre := fs[..|fs| - 1];
      var f := fs[|fs| - 1];
      assert fs == pre + [f];
      LastIsNew(pre, f);
      ContactWithin(pre, hero, invincible);
      TouchFacts(Contact(pre, hero, invincible), pre, f, hero, invincible);
      BountyAppend(pre, [f]);
      assert [f][..0] == [];
    }
  }

  lemma {:induction false} ContactModes(fs: seq<Foe>, hero: Rect, invincible: bool)
    requires Distinct(fs)
    ensures var c := Contact(fs, hero, invincible);
      (invincible ==> c.blows == [] && forall k :: 0 <= k < |c.kept| ==> !Collide(hero, c.kept[k].mind.rect)) &&
      (!invincible ==> c.gained == 0 && |c.kept| == |fs|)
    decreases |fs|
  {
    if fs != [] {
      var pre := fs[..|fs| - 1];
      var f := fs[|fs| - 1];
      assert fs == pre + [f];
      LastIsNew(pre, f);
      ContactWithin(pre, hero, invincible);
      ContactModes(pre, hero, invincible);
      var p := Contact(pre, hero, invincible);
      TouchFacts(p, pre, f, hero, invincible);
      var c := Contact(fs, hero, invincible);
      if invincible && c.kept != p.kept {
        forall k | 0 <= k < |c.kept| ensures !Collide(hero, c.kept[k].mind.rect) {
          if k < |p.kept| { assert c.kept[k] == p.kept[k]; }
        }
      }
    }
  }

  lemma {:induction false} ContactBalls(fs: seq<Foe>, hero: Rect, invincible: bool)
    requires Distinct(fs)
    ensures var c := Contact(fs, hero, invincible);
      forall k :: 0 <= k < |c.kept| && c.kept[k].who.kind == CannonKind ==>
        forall b :: b in c.kept[k].mind.balls ==> !Collide(hero, b.rect)
    decreases |fs|
  {
    if fs != [] {
      var pre := fs[..|fs| - 1];
      var f := fs[|fs| - 1];
      assert fs == pre + [f];
      LastIsNew(pre, f);
      ContactWithin(pre, hero, invincible);
      ContactBalls(pre, hero, invincible);
      var p := Contact(pre, hero, invincible);
      TouchFacts(p, pre, f, hero, invincible);
      var c := Contact(fs, hero, invincible);
      if c.kept != p.kept {
        forall k | 0 <= k < |c.kept| && c.kept[k].who.kind == CannonKind
          ensures forall b :: b in c.kept[k].mind.balls ==> !Collide(hero, b.rect)
        {
          if k < |p.kept| { assert c.kept[k] == p.kept[k]; }
        }
      }
    }
  }

  // ------------------------------------------------------------- the frame

  /** Everything `check_combat` reads and changes, as values. */
  datatype Arena = Arena(foes: seq<Foe>, score: int, vitals: Vitals,
                         fireballs: seq<Fireball>, thunders: seq<Effect>, bolts: seq<Effect>)

  /** The four sweeps, each over the enemies the one before left. */
  datatype Rounds = Rounds(melee: Sweep, salvo: Salvo, storm: Storm, clash: Clash)

  function Fight(a: Arena, hero: Rect, attack: Option<Rect>, invincible: bool): (r: Rounds)
    ensures |r.storm.effects| == |a.thunders| + |a.bolts|
  {
    var s1 := Swing(a.foes, attack);
    var s2 := Fire(s1.kept, a.fireballs);
    var s3 := Thunderstorm(s2.sweep.kept, a.thunders + a.bolts);
    var s4 := Contact(s3.sweep.kept, hero, invincible);
    Rounds(s1, s2, s3, s4)
  }

  /** `check_combat`: the group, the hero's score and vitals, and the spell groups afterwards. */
  function Resolve(a: Arena, hero: Rect, attack: Option<Rect>, mult: int, invincible: bool): Arena
  {
    var r := Fight(a, hero, attack, invincible);
    Arena(r.clash.kept,
          a.score + r.melee.gained + r.salvo.sweep.gained + r.storm.sweep.gained + r.clash.gained,
          TakeHits(a.vitals, r.clash.blows, mult, invincible),
          r.salvo.flying, r.storm.effects[..|a.thunders|], r.storm.effects[|a.thunders|..])
  }

  /**
   * Over a whole `check_combat`: the hero's score grows by exactly what
   * the removed enemies were worth; no enemy is added or duplicated; of
   * all the contact hits at most the first lands, and none in
   * invincible mode; fireballs are only ever spent; and the thunder
   * effects stay the same effects with larger hit records.
   */
  /** Every foe leaves the arena only with its bounty paid, and no foe appears from nowhere. */
  lemma CombatFoes(a: Arena, hero: Rect, attack: Option<Rect>, mult: int, invincible: bool)
    requires Distinct(a.foes)
    ensures var r := Resolve(a, hero, attack, mult, invincible);
      r.score + Bounty(r.foes) == a.score + Bounty(a.foes) &&
      Distinct(r.foes) && WhoSet(r.foes) <= WhoSet(a.foes)
  {
    var f := Fight(a, hero, attack, invincible);
    match attack {
      case None => WithinSelf(a.foes);
      case Some(box) => StrikeFacts(a.foes, Blade(box));
    }
    FireFacts(f.melee.kept, a.fireballs);
    WithinTrans(f.salvo.sweep.kept, f.melee.kept, a.foes);
    StormFacts(f.salvo.sweep.kept, a.thunders + a.bolts);
    WithinTrans(f.storm.sweep.kept, f.salvo.sweep.kept, a.foes);
    ContactFacts(f.storm.sweep.kept, hero, invincible);
    WithinTrans(f.clash.kept, f.storm.sweep.kept, a.foes);
  }

  /** At most the first body blow of a frame hurts, and none hurts an invincible player. */
  lemma CombatVitals(a: Arena, hero: Rect, attack: Option<Rect>, mult: int, invincible: bool)
    ensures var r := Resolve(a, hero, attack, mult, invincible);
      var blows := Fight(a, hero, attack, invincible).clash.blows;
      r.vitals == (if blows == [] then a.vitals else TakeHit(a.vitals, blows[0], mult, invincible).vitals) &&
      (invincible ==> r.vitals == a.vitals)
  {
    var f := Fight(a, hero, attack, invincible);
    AtMostOneHitLands(a.vitals, f.clash.blows, mult, invincible);
  }

  /** Fireballs only disappear; none is created by a frame of combat. */
  lemma CombatFireballs(a: Arena, hero: Rect, attack: Option<Rect>, mult: int, invincible: bool)
    requires Distinct(a.foes)
    ensures multiset(Resolve(a, hero, attack, mult, invincible).fireballs) <= multiset(a.fireballs)
  {
    var f := Fight(a, hero, attack, invincible);
    match attack {
      case None => WithinSelf(a.foes);
      case Some(box) => StrikeFacts(a.foes, Blade(box));
    }
    FireFacts(f.melee.kept, a.fireballs);
  }

  /** Thunder effects stay in place and in order, and only gain hit marks. */
  lemma CombatThunder(a: Arena, hero: Rect, attack: Option<Rect>, mult: int, invincible: bool)
    requires Distinct(a.foes)
    ensures var r := Resolve(a, hero, attack, mult, invincible);
      |r.thunders| == |a.thunders| && |r.bolts| == |a.bolts| &&
      (forall k :: 0 <= k < |a.thunders| ==>
         r.thunders[k] == a.thunders[k].(hit := r.thunders[k].hit) && a.thunders[k].hit <= r.thunders[k].hit) &&
      (forall k :: 0 <= k < |a.bolts| ==>
         r.bolts[k] == a.bolts[k].(hit := r.bolts[k].hit) && a.bolts[k].hit <= r.bolts[k].hit)
  {
    var f := Fight(a, hero, attack, invincible);
    match attack {
      case None => WithinSelf(a.foes);
      case Some(box) => StrikeFacts(a.foes, Blade(box));
    }
    FireFacts(f.melee.kept, a.fireballs);
    var es := a.thunders + a.bolts;
    StormFacts(f.salvo.sweep.kept, es);
    ThunderSplit(a.thunders, a.bolts, f.storm.effects);
  }

  /** Splitting per-effect facts about a concatenation back into its two parts. */
  lemma ThunderSplit(ts: seq<Effect>, bs: seq<Effect>, out: seq<Effect>)
    requires |out| == |ts| + |bs|
    requires forall k :: 0 <= k < |ts + bs| ==> out[k] == (ts + bs)[k].(hit := out[k].hit) && (ts + bs)[k].hit <= out[k].hit
    ensures forall k :: 0 <= k < |ts| ==>
      out[..|ts|][k] == ts[k].(hit := out[..|ts|][k].hit) && ts[k].hit <= out[..|ts|][k].hit
    ensures forall k :: 0 <= k < |bs| ==>
      out[|ts|..][k] == bs[k].(hit := out[|ts|..][k].hit) && bs[k].hit <= out[|ts|..][k].hit
  {
    forall k | 0 <= k < |bs|
      ensures out[|ts|..][k] == bs[k].(hit := out[|ts|..][k].hit) && bs[k].hit <= out[|ts|..][k].hit
    {
      assert out[|ts|..][k] == out[|ts| + k] && (ts + bs)[|ts| + k] == bs[k];
    }
    forall k | 0 <= k < |ts|
      ensures out[..|ts|][k] == ts[k].(hit := out[..|ts|][k].hit) && ts[k].hit <= out[..|ts|][k].hit
    {
      assert (ts + bs)[k] == ts[k];
    }
  }


  // ------------------------------------------------------------ the loops

  /** No enemy is listed twice, so neither is any snapshot. */
  lemma FoesDistinct(es: seq<Enemy>)
    requires Unique(es)
    ensures Distinct(Foes(es))
  {
    FoesPointwise(es);
  }

  /** The enemies a snapshot names are the group's objects, and distinct when the snapshot is. */
  lemma FoesWho(es: seq<Enemy>)
    ensures WhoSet(Foes(es)) == Crowd(es) && (Distinct(Foes(es)) ==> Unique(es))
  {
    FoesPointwise(es);
    assert forall e :: e in Crowd(es) ==> e in WhoSet(Foes(es)) by {
      forall e | e in Crowd(es) ensures e in WhoSet(Foes(es)) {
        var j :| 0 <= j < |es| && es[j] == e;
        assert Foes(es)[j].who == e;
      }
    }
  }

  lemma FoesSnoc(es: seq<Enemy>, e: Enemy)
    ensures Foes(es + [e]) == Foes(es) + [FoeOf(e)]
  {
    assert (es + [e])[..|es|] == es;
  }

  lemma StrikeStep(fs: seq<Foe>, i: nat, w: Weapon)
    requires i < |fs|
    ensures Strike(fs[..i + 1], w) == Settle(Strike(fs[..i], w), fs[i], Fate(w, fs[i]))
  {
    assert fs[..i + 1][..i] == fs[..i];
  }

  /** Where a sweep stands: `kept` holds the enemies `p` keeps, and the hero has earned what `p` gained. */
  ghost predicate SweptSoFar(player: Player, kept: seq<Enemy>, p: Sweep, score0: int)
    reads player, kept
  {
    Foes(kept) == p.kept && player.score == score0 + p.gained
  }

  /** The enemies from `i` on still have the snapshots `fs` gives them. */
  ghost predicate Pending(group: seq<Enemy>, i: nat, fs: seq<Foe>)
    reads group
  {
    |fs| == |group| && forall j :: i <= j < |group| ==> FoeOf(group[j]) == fs[j]
  }

  /** No enemy already swept is one of those still to come. */
  predicate Apart(kept: seq<Enemy>, group: seq<Enemy>, i: nat)
  {
    forall k, j :: 0 <= k < |kept| && i <= j < |group| ==> kept[k] != group[j]
  }

  /** A group's snapshot, as the loops over it start. */
  lemma PendingAll(group: seq<Enemy>)
    ensures Pending(group, 0, Foes(group))
  {
    FoesPointwise(group);
  }

  /** Every object of a sub-crowd is one of the group's. */
  lemma CrowdIn(kept: seq<Enemy>, group: seq<Enemy>)
    requires Crowd(kept) <= Crowd(group)
    ensures forall k :: 0 <= k < |kept| ==> kept[k] in group
  {
    forall k | 0 <= k < |kept| ensures kept[k] in group {
      assert kept[k] in Crowd(kept);
    }
  }

  /**
   * One enemy's turn when a weapon may reach it: `take_damage(amount)` when
   * it is reached, then it stays in the group or leaves it for its score.
   */
  method Smite(e: Enemy, player: Player, hits: bool, amount: int, kept: seq<Enemy>, ghost p: Sweep, ghost f: Foe, ghost score0: int)
    returns (next: seq<Enemy>)
    requires FoeOf(e) == f && SweptSoFar(player, kept, p, score0) && forall k :: 0 <= k < |kept| ==> kept[k] != e
    modifies e`health, e`hurtTimer, player`score
    ensures SweptSoFar(player, next, Settle(p, f, if hits then Struck(f, amount) else Some(f)), score0)
    ensures next == kept || next == kept + [e]
  {
    next := kept + [e];
    if hits {
      var died := Wounded(e, amount, f);
      if died {
        player.AddScore(e.score);
        next := kept;
      }
    }
    if next != kept {
      FoesSnoc(kept, e);
    }
  }

  /** The attack box reaching the enemy at `i`: the melee sweep after `i` enemies becomes the one after `i + 1`. */
  method SlashTurn(group: seq<Enemy>, player: Player, box: Rect, kept: seq<Enemy>, i: int, ghost fs: seq<Foe>, ghost score0: int)
    returns (next: seq<Enemy>)
    requires 0 <= i < |group| && Unique(group) && Pending(group, i, fs) && Apart(kept, group, i)
    requires SweptSoFar(player, kept, Strike(fs[..i], Blade(box)), score0)
    modifies group[i], player`score
    ensures Pending(group, i + 1, fs) && Apart(next, group, i + 1)
    ensures SweptSoFar(player, next, Strike(fs[..i + 1], Blade(box)), score0)
  {
    var e := group[i];
    assert forall k :: 0 <= k < |kept| ==> kept[k] != e;
    StrikeStep(fs, i, Blade(box));
    next := Smite(e, player, Collide(box, e.rect), 1, kept, Strike(fs[..i], Blade(box)), fs[i], score0);
    assert forall j :: i < j < |group| ==> group[j] != e;
  }

  /** The attack loop: every enemy of a copy of the group that the attack box overlaps takes 1. */
  method Slash(group: seq<Enemy>, player: Player, box: Rect) returns (kept: seq<Enemy>)
    requires Unique(group)
    modifies group, player`score
    ensures Unique(kept) && Crowd(kept) <= Crowd(group)
    ensures var s := Strike(old(Foes(group)), Blade(box));
      Foes(kept) == s.kept && player.score == old(player.score) + s.gained
  {
    ghost var fs := Foes(group);
    ghost var score0 := player.score;
    FoesWho(group);
    FoesDistinct(group);
    PendingAll(group);
    kept := [];
    var i := 0;
    while i < |group|
      invariant 0 <= i <= |group| && Pending(group, i, fs) && Apart(kept, group, i)
      invariant SweptSoFar(player, kept, Strike(fs[..i], Blade(box)), score0)
    {
      kept := SlashTurn(group, player, box, kept, i, fs, score0);
      i := i + 1;
    }
    assert fs[..i] == fs;
    StrikeWithin(fs, Blade(box));
    FoesWho(kept);
  }

  /** The inner loop of a fireball: the first enemy of the group its box overlaps. */
  method FirstOverlap(es: seq<Enemy>, r: Rect) returns (o: Option<nat>)
    ensures o == FirstHit(Foes(es), r)
  {
    FoesPointwise(es);
    var i := 0;
    while i < |es|
      invariant 0 <= i <= |es|
      invariant forall j :: 0 <= j < i ==> !Collide(r, Foes(es)[j].mind.rect)
    {
      if Collide(r, es[i].rect) {
        return Some(i);
      }
      i := i + 1;
    }
    return None;
  }

  /** Taking the enemy at `j` out of a group, in one state. */
  lemma Removal(es: seq<Enemy>, j: nat)
    requires j < |es| && Unique(es)
    ensures var rest := es[..j] + es[j + 1..];
      Foes(rest) == Foes(es)[..j] + Foes(es)[j + 1..] &&
      Unique(rest) && Crowd(rest) <= Crowd(es) && es[j] !in rest
  {
    var rest := es[..j] + es[j + 1..];
    assert forall k :: 0 <= k < |rest| ==> rest[k] == (if k < j then es[k] else es[k + 1]);
    FoesPointwise(es);
    FoesPointwise(rest);
    assert Foes(rest) == Foes(es)[..j] + Foes(es)[j + 1..];
  }

  /** `enemy.take_damage(amount)`, seen as a snapshot: the enemy dies, or it survives as `Struck` says. */
  method Wounded(e: Enemy, amount: int, ghost f: Foe) returns (died: bool)
    requires FoeOf(e) == f
    modifies e`health, e`hurtTimer
    ensures Struck(f, amount) == if died then None else Some(FoeOf(e))
  {
    ghost var m := e.State();
    died := e.TakeDamage(amount);
    assert e.State() == m.(hurtTimer := HurtFrames);
  }

  /** `enemy.take_damage(amount)` for the enemy at `j`: it leaves the group, for its score, when that kills it. */
  method Pierced(kept: seq<Enemy>, player: Player, j: nat, amount: int, ghost p: Sweep, ghost score0: int)
    returns (next: seq<Enemy>)
    requires j < |kept| && Unique(kept) && SweptSoFar(player, kept, p, score0)
    modifies kept[j], player`score
    ensures SweptSoFar(player, next, Pierce(p, j, amount), score0)
    ensures Unique(next) && Crowd(next) <= Crowd(kept)
  {
    var e := kept[j];
    var rest := kept[..j] + kept[j + 1..];
    Removal(kept, j);
    FoesPointwise(kept);
    ghost var fr := Foes(rest);
    var died := Wounded(e, amount, p.kept[j]);
    if died {
      assert Foes(rest) == fr;
      player.AddScore(e.score);
      next := rest;
    } else {
      next := kept;
      FoesPointwise(kept);
      assert Foes(kept) == p.kept[j := FoeOf(e)];
    }
  }

  /** One fireball: the salvo after `i` fireballs becomes the one after `i + 1`. */
  method VolleyTurn(group: seq<Enemy>, player: Player, kept: seq<Enemy>, flying: seq<Fireball>, shots: seq<Fireball>, i: int,
                    ghost fs: seq<Foe>, ghost score0: int)
    returns (next: seq<Enemy>, flown: seq<Fireball>)
    requires 0 <= i < |shots| && Unique(kept) && Crowd(kept) <= Crowd(group)
    requires SweptSoFar(player, kept, Fire(fs, shots[..i]).sweep, score0) && flying == Fire(fs, shots[..i]).flying
    modifies group, player`score
    ensures Unique(next) && Crowd(next) <= Crowd(group)
    ensures SweptSoFar(player, next, Fire(fs, shots[..i + 1]).sweep, score0) && flown == Fire(fs, shots[..i + 1]).flying
  {
    ghost var sv := Fire(fs, shots[..i]);
    var shot := shots[i];
    assert shots[..i + 1][..i] == shots[..i];
    var hit := FirstOverlap(kept, shot.rect);
    match hit {
      case None =>
        next, flown := kept, flying + [shot];
      case Some(j) =>
        CrowdIn(kept, group);
        next := Pierced(kept, player, j, FireballDamage, sv.sweep, score0);
        flown := flying;
    }
  }

  /** The fireball loop's walk over the fireballs, before the spent ones are dropped from the list. */
  method FireLoop(group: seq<Enemy>, player: Player, shots: seq<Fireball>, ghost score0: int)
    returns (kept: seq<Enemy>, flying: seq<Fireball>)
    requires Unique(group) && score0 == player.score
    modifies group, player`score
    ensures Unique(kept) && Crowd(kept) <= Crowd(group)
    ensures var r := Fire(old(Foes(group)), shots); SweptSoFar(player, kept, r.sweep, score0) && flying == r.flying
  {
    ghost var fs := Foes(group);
    kept, flying := group, [];
    var i := 0;
    while i < |shots|
      invariant 0 <= i <= |shots| && Unique(kept) && Crowd(kept) <= Crowd(group)
      invariant SweptSoFar(player, kept, Fire(fs, shots[..i]).sweep, score0) && flying == Fire(fs, shots[..i]).flying
    {
      kept, flying := VolleyTurn(group, player, kept, flying, shots, i, fs, score0);
      i := i + 1;
    }
    assert shots[..i] == shots;
  }

  /** The fireball loop: each fireball damages the first enemy it overlaps and is then spent. */
  method Volley(group: seq<Enemy>, player: Player) returns (kept: seq<Enemy>)
    requires Unique(group) && player.Valid()
    modifies group, player`score, player.spells`fireballs
    ensures Unique(kept) && Crowd(kept) <= Crowd(group) && player.Valid()
    ensures var r := Fire(old(Foes(group)), old(player.spells.fireballs));
      Foes(kept) == r.sweep.kept && player.score == old(player.score) + r.sweep.gained &&
      player.spells.fireballs == r.flying
  {
    var flying;
    kept, flying := FireLoop(group, player, player.spells.fireballs, player.score);
    player.spells.fireballs := flying;
  }

  lemma BlastStep(fs: seq<Foe>, i: nat, e: Effect)
    requires i < |fs|
    ensures var p := Blast(fs[..i], e); var c := CanHit(p.effect, fs[i].who, fs[i].mind.rect);
      Blast(fs[..i + 1], e) ==
        Burned(Settle(p.sweep, fs[i], if c.hits then Struck(fs[i], p.effect.Damage()) else Some(fs[i])), c.effect)
  {
    assert fs[..i + 1][..i] == fs[..i];
  }

  /** One thunder effect asked about the enemy at `i`: the burst after `i` enemies becomes the one after `i + 1`. */
  method ZapTurn(group: seq<Enemy>, player: Player, ghost effect: Effect, kept: seq<Enemy>, now: Effect, i: int,
                 ghost fs: seq<Foe>, ghost score0: int)
    returns (next: seq<Enemy>, after: Effect)
    requires 0 <= i < |group| && Unique(group) && Pending(group, i, fs) && Apart(kept, group, i)
    requires SweptSoFar(player, kept, Blast(fs[..i], effect).sweep, score0) && now == Blast(fs[..i], effect).effect
    modifies group[i], player`score
    ensures Pending(group, i + 1, fs) && Apart(next, group, i + 1)
    ensures SweptSoFar(player, next, Blast(fs[..i + 1], effect).sweep, score0) && after == Blast(fs[..i + 1], effect).effect
  {
    var e := group[i];
    assert forall k :: 0 <= k < |kept| ==> kept[k] != e;
    BlastStep(fs, i, effect);
    var c := CanHit(now, e, e.rect);
    next := Smite(e, player, c.hits, now.Damage(), kept, Blast(fs[..i], effect).sweep, fs[i], score0);
    after := c.effect;
    assert forall j :: i < j < |group| ==> group[j] != e;
  }

  /** The inner loop of one thunder effect: `can_hit` on every enemy of a copy of the group, in order. */
  method Zap(group: seq<Enemy>, player: Player, effect: Effect) returns (kept: seq<Enemy>, after: Effect)
    requires Unique(group)
    modifies group, player`score
    ensures Unique(kept) && Crowd(kept) <= Crowd(group)
    ensures var b := Blast(old(Foes(group)), effect);
      Foes(kept) == b.sweep.kept && player.score == old(player.score) + b.sweep.gained && after == b.effect
  {
    ghost var fs := Foes(group);
    ghost var score0 := player.score;
    FoesWho(group);
    FoesDistinct(group);
    PendingAll(group);
    kept := [];
    after := effect;
    var i := 0;
    while i < |group|
      invariant 0 <= i <= |group| && Pending(group, i, fs) && Apart(kept, group, i)
      invariant SweptSoFar(player, kept, Blast(fs[..i], effect).sweep, score0) && after == Blast(fs[..i], effect).effect
    {
      kept, after := ZapTurn(group, player, effect, kept, after, i, fs, score0);
      i := i + 1;
    }
    assert fs[..i] == fs;
    BlastFacts(fs, effect);
    StrikeWithin(fs, Burst(effect));
    FoesWho(kept);
  }

  /** One thunder effect over the group: the storm after `i` effects becomes the one after `i + 1`. */
  method StormTurn(group: seq<Enemy>, player: Player, kept: seq<Enemy>, done: seq<Effect>, all: seq<Effect>, i: int,
                   ghost fs: seq<Foe>, ghost score0: int)
    returns (next: seq<Enemy>, now: seq<Effect>)
    requires 0 <= i < |all| && Unique(kept) && Crowd(kept) <= Crowd(group)
    requires SweptSoFar(player, kept, Thunderstorm(fs, all[..i]).sweep, score0) && done == Thunderstorm(fs, all[..i]).effects
    modifies group, player`score
    ensures Unique(next) && Crowd(next) <= Crowd(group)
    ensures SweptSoFar(player, next, Thunderstorm(fs, all[..i + 1]).sweep, score0) && now == Thunderstorm(fs, all[..i + 1]).effects
  {
    assert all[..i + 1][..i] == all[..i];
    CrowdIn(kept, group);
    var after;
    next, after := Zap(kept, player, all[i]);
    now := done + [after];
  }

  /** The thunder loop's walk over `get_effects()`, before the hit records are stored back. */
  method StormLoop(group: seq<Enemy>, player: Player, all: seq<Effect>, ghost score0: int)
    returns (kept: seq<Enemy>, done: seq<Effect>)
    requires Unique(group) && score0 == player.score
    modifies group, player`score
    ensures Unique(kept) && Crowd(kept) <= Crowd(group)
    ensures var r := Thunderstorm(old(Foes(group)), all); SweptSoFar(player, kept, r.sweep, score0) && done == r.effects
  {
    ghost var fs := Foes(group);
    kept, done := group, [];
    var i := 0;
    while i < |all|
      invariant 0 <= i <= |all| && Unique(kept) && Crowd(kept) <= Crowd(group)
      invariant SweptSoFar(player, kept, Thunderstorm(fs, all[..i]).sweep, score0) && done == Thunderstorm(fs, all[..i]).effects
    {
      kept, done := StormTurn(group, player, kept, done, all, i, fs, score0);
      i := i + 1;
    }
    assert all[..i] == all;
  }

  /** The thunder loop over `get_effects()`: the bursts, then the bolts, each recording whom it hit. */
  method Storming(group: seq<Enemy>, player: Player) returns (kept: seq<Enemy>)
    requires Unique(group) && player.Valid()
    modifies group, player`score, player.spells`thunders, player.spells`bolts
    ensures Unique(kept) && Crowd(kept) <= Crowd(group) && player.Valid()
    ensures var r := Thunderstorm(old(Foes(group)), old(player.spells.thunders + player.spells.bolts));
      Foes(kept) == r.sweep.kept && player.score == old(player.score) + r.sweep.gained &&
      player.spells.thunders == r.effects[..|old(player.spells.thunders)|] &&
      player.spells.bolts == r.effects[|old(player.spells.thunders)|..]
  {
    var done;
    kept, done := StormLoop(group, player, player.spells.Effects(), player.score);
    player.spells.RecordHits(done);
  }

  /** Where the cannonball loop stands after the first `i` balls. */
  ghost predicate DodgedSoFar(player: Player, balls: seq<CannonBall>, i: nat, kept: seq<CannonBall>, v0: Vitals, mult: int)
    reads player, player.spells, player.spells.shield, player.spells.swift
  {
    i <= |balls| && player.Valid() && kept == Dodged(balls[..i], player.rect) &&
    player.CurrentVitals() ==
      TakeHits(v0, if player.invincibleMode then [] else BallBlows(balls[..i], player.rect), mult, player.invincibleMode)
  }

  /** One cannonball against the hero: it either hits and is gone, or flies on. */
  method DodgeTurn(player: Player, balls: seq<CannonBall>, i: nat, kept: seq<CannonBall>, ghost v0: Vitals, mult: int)
    returns (next: seq<CannonBall>)
    requires i < |balls| && mult == DamageMultiplier(player.spells.shield.State())
    requires DodgedSoFar(player, balls, i, kept, v0, mult)
    modifies player`health, player`invincibility
    ensures DodgedSoFar(player, balls, i + 1, next, v0, mult)
  {
    var b := balls[i];
    assert balls[..i + 1][..i] == balls[..i] && balls[..i + 1][i] == b;
    ghost var pre := BallBlows(balls[..i], player.rect);
    next := kept;
    if Collide(player.rect, b.rect) {
      assert Dodged(balls[..i + 1], player.rect) == kept;
      assert BallBlows(balls[..i + 1], player.rect) == pre + [BallDamage];
      if !player.invincibleMode {
        ghost var v := player.CurrentVitals();
        TakeHitsAppend(v0, pre, [BallDamage], mult, false);
        assert TakeHits(v, [BallDamage], mult, false) == TakeHit(v, BallDamage, mult, false).vitals;
        var died := player.TakeDamage(BallDamage);
      }
    } else {
      next := kept + [b];
    }
  }

  /** The boss's balls against the hero: each one touching the hero is destroyed, and hurts unless in invincible mode. */
  method DodgeBalls(e: Enemy, player: Player)
    requires player.Valid()
    modifies e`balls, player`health, player`invincibility
    ensures player.Valid()
    ensures e.balls == Dodged(old(e.balls), player.rect)
    ensures player.CurrentVitals() ==
      TakeHits(old(player.CurrentVitals()), if player.invincibleMode then [] else BallBlows(old(e.balls), player.rect),
               DamageMultiplier(player.spells.shield.State()), player.invincibleMode)
  {
    var balls := e.balls;
    var mult := DamageMultiplier(player.spells.shield.State());
    ghost var v0 := player.CurrentVitals();
    var kept: seq<CannonBall> := [];
    var i: nat := 0;
    assert balls[..0] == [];
    while i < |balls|
      invariant DodgedSoFar(player, balls, i, kept, v0, mult)
      invariant mult == DamageMultiplier(player.spells.shield.State())
    {
      kept := DodgeTurn(player, balls, i, kept, v0, mult);
      i := i + 1;
    }
    assert balls[..i] == balls;
    e.balls := kept;
  }

  /** The hero touching an enemy's body: the enemy is worth its score in invincible mode, and hurts otherwise. */
  method BodyBlow(e: Enemy, player: Player)
    requires player.Valid()
    modifies player`score, player`health, player`invincibility
    ensures player.Valid()
    ensures var body := Collide(player.rect, e.rect);
      player.score == old(player.score) + (if body && player.invincibleMode then e.score else 0) &&
      player.CurrentVitals() ==
        TakeHits(old(player.CurrentVitals()), if body && !player.invincibleMode then [e.damage] else [],
                 DamageMultiplier(player.spells.shield.State()), player.invincibleMode)
  {
    if Collide(player.rect, e.rect) {
      if player.invincibleMode {
        player.AddScore(e.score);
      } else {
        var died := player.TakeDamage(e.damage);
      }
    }
  }

  lemma ContactStep(fs: seq<Foe>, i: nat, hero: Rect, invincible: bool)
    requires i < |fs|
    ensures Contact(fs[..i + 1], hero, invincible) == Touch(Contact(fs[..i], hero, invincible), fs[i], hero, invincible)
  {
    assert fs[..i + 1][..i] == fs[..i];
  }

  /** What an enemy is after its contact turn: the boss loses the balls that touched the hero. */
  function Brushed(f: Foe, hero: Rect): Foe
  {
    if f.who.kind == CannonKind then f.(mind := f.mind.(balls := Dodged(f.mind.balls, hero))) else f
  }

  /** The hits an enemy's contact turn deals the hero, in order: its body, then (the boss only) its balls. */
  function TouchBlows(f: Foe, hero: Rect, invincible: bool): seq<int>
  {
    (if Collide(hero, f.mind.rect) && !invincible then [f.who.damage] else []) +
    (if f.who.kind == CannonKind && !invincible then BallBlows(f.mind.balls, hero) else [])
  }

  lemma TouchShape(p: Clash, f: Foe, hero: Rect, invincible: bool)
    ensures var t := Touch(p, f, hero, invincible); var gone := Collide(hero, f.mind.rect) && invincible;
      t.kept == (if gone then p.kept else p.kept + [Brushed(f, hero)]) &&
      t.gained == p.gained + (if gone then f.who.score else 0) &&
      t.blows == p.blows + TouchBlows(f, hero, invincible)
  {
    var a := if Collide(hero, f.mind.rect) && !invincible then [f.who.damage] else [];
    var b := if f.who.kind == CannonKind && !invincible then BallBlows(f.mind.balls, hero) else [];
    assert p.blows + a + b == p.blows + (a + b);
  }

  /** One enemy's contact turn on the objects: body contact, then the boss's balls. */
  method Brush(e: Enemy, player: Player, hero: Rect, invincible: bool, ghost mult: int)
    requires player.Valid()
    requires hero == player.rect && invincible == player.invincibleMode && mult == DamageMultiplier(player.spells.shield.State())
    modifies e`balls, player`score, player`health, player`invincibility
    ensures player.Valid()
    ensures FoeOf(e) == Brushed(old(FoeOf(e)), hero)
    ensures player.score == old(player.score) + (if Collide(hero, e.rect) && invincible then e.score else 0)
    ensures player.CurrentVitals() == TakeHits(old(player.CurrentVitals()), TouchBlows(old(FoeOf(e)), hero, invincible), mult, invincible)
  {
    ghost var f := FoeOf(e);
    ghost var v0 := player.CurrentVitals();
    ghost var first := if Collide(hero, e.rect) && !invincible then [e.damage] else [];
    ghost var second := if e.kind == CannonKind && !invincible then BallBlows(e.balls, hero) else [];
    BodyBlow(e, player);
    BossBalls(e, player, hero, invincible, mult);
    TakeHitsAppend(v0, first, second, mult, invincible);
  }

  /** The boss's part of its contact turn; other enemies have no balls to throw. */
  method BossBalls(e: Enemy, player: Player, hero: Rect, invincible: bool, ghost mult: int)
    requires player.Valid()
    requires hero == player.rect && invincible == player.invincibleMode && mult == DamageMultiplier(player.spells.shield.State())
    modifies e`balls, player`health, player`invincibility
    ensures player.Valid()
    ensures FoeOf(e) == Brushed(old(FoeOf(e)), hero)
    ensures player.CurrentVitals() ==
      TakeHits(old(player.CurrentVitals()), if e.kind == CannonKind && !invincible then BallBlows(old(e.balls), hero) else [],
               mult, invincible)
  {
    if e.kind == CannonKind {
      ghost var m := e.State();
      DodgeBalls(e, player);
      assert e.State() == m.(balls := Dodged(m.balls, hero));
    }
  }

  /** Where the contact loop stands: `kept` and the player's score and vitals as the clash `c` has them. */
  ghost predicate ContactSoFar(player: Player, kept: seq<Enemy>, c: Clash, score0: int, v0: Vitals, mult: int)
    reads player, player.spells, player.spells.shield, player.spells.swift, kept
  {
    player.Valid() && Foes(kept) == c.kept && player.score == score0 + c.gained &&
    player.CurrentVitals() == TakeHits(v0, c.blows, mult, player.invincibleMode)
  }

  /** One enemy's contact turn, as `Touch` describes it. */
  method Jostle(e: Enemy, player: Player, kept: seq<Enemy>, ghost p: Clash, ghost f: Foe,
                ghost score0: int, ghost v0: Vitals, hero: Rect, invincible: bool, ghost mult: int)
    returns (next: seq<Enemy>)
    requires FoeOf(e) == f && forall k :: 0 <= k < |kept| ==> kept[k] != e
    requires hero == player.rect && invincible == player.invincibleMode && mult == DamageMultiplier(player.spells.shield.State())
    requires ContactSoFar(player, kept, p, score0, v0, mult)
    modifies e`balls, player`score, player`health, player`invincibility
    ensures ContactSoFar(player, next, Touch(p, f, hero, invincible), score0, v0, mult)
    ensures next == kept || next == kept + [e]
  {
    TouchShape(p, f, hero, invincible);
    TakeHitsAppend(v0, p.blows, TouchBlows(f, hero, invincible), mult, invincible);
    var gone := Collide(hero, e.rect) && invincible;
    Brush(e, player, hero, invincible, mult);
    next := kept;
    if !gone {
      FoesSnoc(kept, e);
      next := kept + [e];
    }
  }

  /** The contact loop over a copy of the group: body contact, then the boss's balls. */
  method Contacts(group: seq<Enemy>, player: Player) returns (kept: seq<Enemy>)
    requires Unique(group) && player.Valid()
    modifies group, player`score, player`health, player`invincibility
    ensures Unique(kept) && Crowd(kept) <= Crowd(group) && player.Valid()
    ensures var c := Contact(old(Foes(group)), player.rect, player.invincibleMode);
      Foes(kept) == c.kept && player.score == old(player.score) + c.gained &&
      player.CurrentVitals() ==
        TakeHits(old(player.CurrentVitals()), c.blows, DamageMultiplier(player.spells.shield.State()), player.invincibleMode)
  {
    ghost var fs := Foes(group);
    FoesWho(group);
    FoesDistinct(group);
    FoesPointwise(group);
    ghost var score0 := player.score;
    kept := ContactLoop(group, player, fs, player.CurrentVitals(), DamageMultiplier(player.spells.shield.State()));
    assert ContactSoFar(player, kept, Contact(fs, player.rect, player.invincibleMode), score0, old(player.CurrentVitals()),
                        DamageMultiplier(player.spells.shield.State()));
    ContactWithin(fs, player.rect, player.invincibleMode);
    FoesWho(kept);
  }

  /** The contact sweep after each prefix of the group. */
  function ContactTrace(fs: seq<Foe>, hero: Rect, invincible: bool): (r: seq<Clash>)
    ensures |r| == |fs| + 1 && r[0] == Clash([], 0, []) && r[|fs|] == Contact(fs, hero, invincible)
    ensures forall k {:trigger fs[k]} :: 0 <= k < |fs| ==> r[k + 1] == Touch(r[k], fs[k], hero, invincible)
    decreases |fs|
  {
    if fs == [] then [Clash([], 0, [])]
    else
      var pre := fs[..|fs| - 1];
      assert forall k :: 0 <= k < |pre| ==> pre[k] == fs[k];
      ContactTrace(pre, hero, invincible) + [Contact(fs, hero, invincible)]
  }

  /** One pass of the contact loop, from the state after `i` enemies to the state after `i + 1`. */
  method ContactTurn(group: seq<Enemy>, player: Player, kept: seq<Enemy>, i: int, ghost fs: seq<Foe>, ghost trace: seq<Clash>,
                     ghost score0: int, ghost v0: Vitals, hero: Rect, invincible: bool, ghost mult: int)
    returns (next: seq<Enemy>)
    requires 0 <= i < |group| && Unique(group) && Pending(group, i, fs) && Apart(kept, group, i)
    requires hero == player.rect && invincible == player.invincibleMode && mult == DamageMultiplier(player.spells.shield.State())
    requires |trace| == |fs| + 1 && trace[i + 1] == Touch(trace[i], fs[i], hero, invincible)
    requires ContactSoFar(player, kept, trace[i], score0, v0, mult)
    modifies group[i], player`score, player`health, player`invincibility
    ensures Pending(group, i + 1, fs) && Apart(next, group, i + 1)
    ensures ContactSoFar(player, next, trace[i + 1], score0, v0, mult)
  {
    var e := group[i];
    assert forall k :: 0 <= k < |kept| ==> kept[k] != e;
    next := Jostle(e, player, kept, trace[i], fs[i], score0, v0, hero, invincible, mult);
    assert forall j :: i < j < |group| ==> group[j] != e;
  }

  method ContactLoop(group: seq<Enemy>, player: Player, ghost fs: seq<Foe>, ghost v0: Vitals, ghost mult: int)
    returns (kept: seq<Enemy>)
    requires Unique(group) && player.Valid() && Pending(group, 0, fs)
    requires v0 == player.CurrentVitals() && mult == DamageMultiplier(player.spells.shield.State())
    modifies group, player`score, player`health, player`invincibility
    ensures var c := Contact(fs, player.rect, player.invincibleMode); ContactSoFar(player, kept, c, old(player.score), v0, mult)
  {
    var hero := player.rect;
    var invincible := player.invincibleMode;
    ghost var trace := ContactTrace(fs, hero, invincible);
    ghost var score0 := player.score;
    kept := [];
    var i := 0;
    while i < |group|
      invariant 0 <= i <= |group| && Pending(group, i, fs) && Apart(kept, group, i)
      invariant ContactSoFar(player, kept, trace[i], score0, v0, mult)
    {
      kept := ContactTurn(group, player, kept, i, fs, trace, score0, v0, hero, invincible, mult);
      i := i + 1;
    }
  }

  /** What a sweep over `group` reads and changes: the group, the hero's score and vitals, and the spell groups. */
  function Standing(group: seq<Enemy>, player: Player): Arena
    reads group, player, player.spells
  {
    Arena(Foes(group), player.score, player.CurrentVitals(),
          player.spells.fireballs, player.spells.thunders, player.spells.bolts)
  }

  /** Everything `check_combat` reads and changes. */
  function ArenaOf(level: Level, player: Player): Arena
    reads level, level.enemies, player, player.spells
  {
    Standing(level.enemies, player)
  }

  /** The attack phase: the sweep of the attack box when the hero is attacking, nothing otherwise. */
  method Melee(group: seq<Enemy>, player: Player) returns (kept: seq<Enemy>)
    requires Unique(group)
    modifies group, player`score
    ensures Unique(kept) && Crowd(kept) <= Crowd(group)
    ensures var s := Swing(old(Foes(group)), old(player.AttackRect()));
      Foes(kept) == s.kept && player.score == old(player.score) + s.gained
  {
    var attack := player.AttackRect();
    match attack {
      case Some(box) =>
        kept := Slash(group, player, box);
      case None =>
        kept := group;
    }
  }

  /** The fireball phase, then the thunder phase, over what the attack left. */
  method Spellwork(group: seq<Enemy>, player: Player) returns (kept: seq<Enemy>)
    requires Unique(group) && player.Valid()
    modifies group, player`score, player.spells`fireballs, player.spells`thunders, player.spells`bolts
    ensures Unique(kept) && Crowd(kept) <= Crowd(group) && player.Valid()
    ensures var s2 := Fire(old(Foes(group)), old(player.spells.fireballs));
      var s3 := Thunderstorm(s2.sweep.kept, old(player.spells.thunders + player.spells.bolts));
      Foes(kept) == s3.sweep.kept && player.score == old(player.score) + s2.sweep.gained + s3.sweep.gained &&
      player.spells.fireballs == s2.flying &&
      player.spells.thunders == s3.effects[..|old(player.spells.thunders)|] &&
      player.spells.bolts == s3.effects[|old(player.spells.thunders)|..]
  {
    var thrown := Volley(group, player);
    CrowdIn(thrown, group);
    kept := Storming(thrown, player);
  }

  /** The three phases that damage enemies: the attack, the fireballs and the thunder effects. */
  method Strikes(group: seq<Enemy>, player: Player) returns (kept: seq<Enemy>)
    requires Unique(group) && player.Valid()
    modifies group, player`score, player.spells`fireballs, player.spells`thunders, player.spells`bolts
    ensures Unique(kept) && Crowd(kept) <= Crowd(group) && player.Valid()
    ensures var a := old(Standing(group, player));
      var r := Fight(a, player.rect, old(player.AttackRect()), player.invincibleMode);
      Foes(kept) == r.storm.sweep.kept &&
      player.score == a.score + r.melee.gained + r.salvo.sweep.gained + r.storm.sweep.gained &&
      player.spells.fireballs == r.salvo.flying &&
      player.spells.thunders == r.storm.effects[..|a.thunders|] && player.spells.bolts == r.storm.effects[|a.thunders|..]
  {
    var struck := Melee(group, player);
    CrowdIn(struck, group);
    kept := Spellwork(struck, player);
  }

  /** The four phases of `check_combat` over a copy of the group. */
  method Fighting(group: seq<Enemy>, player: Player) returns (kept: seq<Enemy>)
    requires Unique(group) && player.Valid()
    modifies group, player`score, player`health, player`invincibility,
             player.spells`fireballs, player.spells`thunders, player.spells`bolts
    ensures Unique(kept) && Crowd(kept) <= Crowd(group) && player.Valid()
    ensures Standing(kept, player) ==
      Resolve(old(Standing(group, player)), player.rect, old(player.AttackRect()),
              DamageMultiplier(player.spells.shield.State()), player.invincibleMode)
  {
    ghost var a := Standing(group, player);
    ghost var r := Fight(a, player.rect, player.AttackRect(), player.invincibleMode);
    var spent := Strikes(group, player);
    CrowdIn(spent, group);
    ghost var c := Contact(Foes(spent), player.rect, player.invincibleMode);
    assert c == r.clash;
    kept := Contacts(spent, player);
  }

  /** `check_combat`: the attack, the fireballs, the thunder effects, then contact, as `Resolve` says. */
  method CheckCombat(level: Level, player: Player)
    requires level.Valid() && player.Valid()
    modifies level`enemies, level.enemies, player`score, player`health, player`invincibility,
             player.spells`fireballs, player.spells`thunders, player.spells`bolts
    ensures level.Valid() && player.Valid() && level.EnemySet() <= old(level.EnemySet())
    ensures ArenaOf(level, player) ==
      Resolve(old(ArenaOf(level, player)), player.rect, old(player.AttackRect()),
              DamageMultiplier(player.spells.shield.State()), player.invincibleMode)
  {
    var group := Fighting(level.enemies, player);
    level.enemies := group;
  }
}
