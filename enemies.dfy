/**
 * The enemies: a slime that hops, a bat that flies within a band, a
 * knight that patrols, pursues and charges, and the cannon boss with its
 * intro, three phases and cannon balls.
 */
module Enemies {
  import opened Rects
  import opened Settings
  import opened Physics
  import opened Arith

  datatype EnemyKind = SlimeKind | BatKind | KnightKind | CannonKind

  /** The key of each kind in the enemy table. */
  function NameOf(k: EnemyKind): string
  {
    match k
    case SlimeKind => "slime"
    case BatKind => "bat"
    case KnightKind => "knight"
    case CannonKind => "cannon"
  }

  /** `create_enemy`: the kind named, and a slime for an unknown name. */
  function KindNamed(name: string): (k: EnemyKind)
    ensures k == SlimeKind <==> name != "bat" && name != "knight" && name != "cannon"
  {
    if name == "bat" then BatKind
    else if name == "knight" then KnightKind
    else if name == "cannon" then CannonKind
    else SlimeKind
  }

  lemma KindNamesRoundTrip(k: EnemyKind)
    ensures KindNamed(NameOf(k)) == k
  {
  }

  function MaxHealthOf(k: EnemyKind): int
  {
    match k
    case SlimeKind => SlimeHealth
    case BatKind => BatHealth
    case KnightKind => KnightHealth
    case CannonKind => CannonHealth
  }

  function DamageOf(k: EnemyKind): int
  {
    match k
    case SlimeKind => SlimeDamage
    case BatKind => BatDamage
    case KnightKind => KnightDamage
    case CannonKind => CannonDamage
  }

  /** Speed in tenths of a pixel per frame. */
  function SpeedOf(k: EnemyKind): int
  {
    match k
    case SlimeKind => SlimeSpeed
    case BatKind => BatSpeed
    case KnightKind => KnightSpeed
    case CannonKind => CannonSpeed
  }

  function ScoreOf(k: EnemyKind): int
  {
    match k
    case SlimeKind => SlimeScore
    case BatKind => BatScore
    case KnightKind => KnightScore
    case CannonKind => CannonScore
  }

  /** The side of the square sprite, which is the size of the enemy's box. */
  function SizeOf(k: EnemyKind): nat
  {
    match k
    case SlimeKind => 24
    case BatKind => 28
    case KnightKind => 32
    case CannonKind => 48
  }

  const PatrolDistance: int := 100
  const HurtFrames: int := 10

  // ---------------------------------------------------------- damage

  /** The enemy's health after `take_damage`, and whether it died (and was removed). */
  datatype Wound = Wound(health: int, died: bool)

  /**
   * `take_damage`: the health drops by the amount; the knight's shield is
   * always up and first lowers the amount to `max(1, amount - 1)`. The
   * enemy dies exactly when health reaches 0 or less.
   */
  function Damaged(k: EnemyKind, health: int, amount: int): (w: Wound)
    ensures w.died <==> w.health <= 0
    ensures k != KnightKind ==> w.health == health - amount
    ensures k == KnightKind ==> w.health == health - (if amount - 1 > 1 then amount - 1 else 1)
    ensures k == KnightKind ==> w.health < health
  {
    var dealt := if k == KnightKind then (if amount - 1 > 1 then amount - 1 else 1) else amount;
    Wound(health - dealt, health - dealt <= 0)
  }

  /** A knight needs at least as many blows as any other enemy with the same health, and every blow hurts it. */
  lemma KnightShieldSoftens(health: int, amount: int)
    requires amount >= 1
    ensures Damaged(KnightKind, health, amount).health >= Damaged(SlimeKind, health, amount).health
    ensures Damaged(KnightKind, health, amount).health <= health - 1
  {
  }

  // ------------------------------------------------------ cannon balls

  const BallSpeed: int := 50
  const BallDamage: int := 2
  const BallLifetime: int := 180
  const BallSize: nat := 16

  datatype CannonBall = CannonBall(rect: Rect, vx: int, vy: int, lifetime: int)

  /**
   * The velocity, in tenths, of a ball aimed along `(dx, dy)` at 5 px
   * per frame (50 tenths): the direction is normalised with the integer
   * square root of the squared distance at 1/100 px precision, so the
   * numerator carries 50 * 100; at zero distance the ball flies right.
   */
  function Aim(dx: int, dy: int): (v: (int, int))
    ensures dx == 0 && dy == 0 ==> v == (BallSpeed, 0)
  {
    if dx == 0 && dy == 0 then (BallSpeed, 0)
    else
      var d := ISqrt(ScaledDistance(dx, dy));
      RootAtLeast(100, ScaledDistance(dx, dy));
      (TruncDiv(5000 * dx, d), TruncDiv(5000 * dy, d))
  }

  /** The squared distance at 1/100 px precision covers each component's square. */
  function ScaledDistance(dx: int, dy: int): (n: nat)
    ensures dx * dx * 10000 <= n && dy * dy * 10000 <= n
    ensures dx != 0 || dy != 0 ==> 100 * 100 <= n
  {
    SquareFacts(dx);
    SquareFacts(dy);
    (dx * dx + dy * dy) * 10000
  }

  /** A component over a divisor at least 100 times its size gives at most the ball speed, with its sign. */
  lemma ComponentBound(c: int, d: int)
    requires d > 0 && 100 * c <= d && -100 * c <= d
    ensures -BallSpeed <= TruncDiv(5000 * c, d) <= BallSpeed
    ensures TruncDiv(5000 * c, d) > 0 ==> c > 0
    ensures TruncDiv(5000 * c, d) < 0 ==> c < 0
  {
    TruncDivBound(5000 * c, d, 50);
    TruncDivExact(0, d);
    if c <= 0 {
      TruncDivMonotone(5000 * c, 0, d);
    } else {
      TruncDivMonotone(0, 5000 * c, d);
    }
  }

  /** A root of a number covering 10000 times a square is at least 100 times the side. */
  lemma RootCovers(c: int, n: nat)
    requires c * c * 10000 <= n
    ensures 100 * c <= ISqrt(n) && -100 * c <= ISqrt(n)
  {
    var a: nat := if c >= 0 then c else -c;
    assert a * a == c * c;
    assert (100 * a) * (100 * a) == (a * a) * 10000;
    RootAtLeast(100 * a, n);
  }

  /** Along the x axis the normalised speed is exact. */
  lemma StraightShot(dx: int)
    requires dx != 0
    ensures Aim(dx, 0) == (if dx > 0 then BallSpeed else -BallSpeed, 0)
  {
    var a: nat := if dx >= 0 then dx else -dx;
    assert ScaledDistance(dx, 0) == (100 * a) * (100 * a);
    RootOfSquare(100 * a);
    var d := 100 * a;
    TruncDivExact(0, d);
    if dx > 0 {
      assert 5000 * dx == 50 * d;
      TruncDivExact(50, d);
    } else {
      assert 5000 * dx == -50 * d;
      TruncDivExact(-50, d);
    }
  }

  /**
   * The aim never exceeds the ball speed on either axis, each component
   * has the sign of the direction it follows, and shots along an axis
   * fly at exactly the ball speed.
   */
  lemma AimFacts(dx: int, dy: int)
    ensures var v := Aim(dx, dy);
      -BallSpeed <= v.0 <= BallSpeed && -BallSpeed <= v.1 <= BallSpeed &&
      (v.0 > 0 ==> dx > 0 || (dx == 0 && dy == 0)) && (v.0 < 0 ==> dx < 0) &&
      (v.1 > 0 ==> dy > 0) && (v.1 < 0 ==> dy < 0) &&
      (dy == 0 && dx != 0 ==> v == (if dx > 0 then BallSpeed else -BallSpeed, 0))
  {
    if dx != 0 || dy != 0 {
      var n := ScaledDistance(dx, dy);
      RootAtLeast(100, n);
      RootCovers(dx, n);
      RootCovers(dy, n);
      ComponentBound(dx, ISqrt(n));
      ComponentBound(dy, ISqrt(n));
      if dy == 0 {
        StraightShot(dx);
      }
    }
  }

  /** A ball centred on `(x, y)` aimed at `(tx, ty)`, with its full lifetime. */
  function NewCannonBall(x: int, y: int, tx: int, ty: int): (b: CannonBall)
    ensures b.rect.CenterX() == x && b.rect.CenterY() == y && b.rect.w == BallSize && b.rect.h == BallSize
    ensures b.lifetime == BallLifetime
    ensures x == tx && y == ty ==> b.vx == BallSpeed && b.vy == 0
  {
    var v := Aim(tx - x, ty - y);
    CannonBall(CenteredAt(x, y, BallSize, BallSize), v.0, v.1, BallLifetime)
  }

  /** `CannonBall.update` without the removal: fly one step and age by one frame. */
  function StepBall(b: CannonBall): CannonBall
  {
    b.(rect := b.rect.(x := Shift(b.rect.x, b.vx), y := Shift(b.rect.y, b.vy)), lifetime := b.lifetime - 1)
  }

  function StepBallTimes(b: CannonBall, n: nat): CannonBall
  {
    if n == 0 then b else StepBall(StepBallTimes(b, n - 1))
  }

  /** The group's `update`: every ball steps, and those whose lifetime ran out are removed. */
  function BallsAfterUpdate(bs: seq<CannonBall>): seq<CannonBall>
  {
    if bs == [] then []
    else
      var b := StepBall(bs[0]);
      (if b.lifetime > 0 then [b] else []) + BallsAfterUpdate(bs[1..])
  }

  function BallsAfterUpdates(bs: seq<CannonBall>, n: nat): seq<CannonBall>
  {
    if n == 0 then bs else BallsAfterUpdate(BallsAfterUpdates(bs, n - 1))
  }

  /** Each step ages a ball by exactly one frame and keeps its size and velocity. */
  lemma {:induction false} BallAging(b: CannonBall, n: nat)
    ensures var c := StepBallTimes(b, n);
      c.lifetime == b.lifetime - n && c.vx == b.vx && c.vy == b.vy &&
      c.rect.w == b.rect.w && c.rect.h == b.rect.h
  {
    if n > 0 {
      BallAging(b, n - 1);
    }
  }

  /** A fired ball is in the group for exactly 179 updates and removed by the 180th. */
  lemma {:induction false} BallLifespan(b: CannonBall, n: nat)
    requires b.lifetime == BallLifetime
    ensures BallsAfterUpdates([b], n) == if n < BallLifetime then [StepBallTimes(b, n)] else []
  {
    if n > 0 {
      BallLifespan(b, n - 1);
      BallAging(b, n);
      if n - 1 < BallLifetime {
        assert BallsAfterUpdate([StepBallTimes(b, n - 1)]) ==
          (if StepBallTimes(b, n).lifetime > 0 then [StepBallTimes(b, n)] else []) + BallsAfterUpdate([]);
      }
    }
  }

  // --------------------------------------------------------- the AI

  /** The per-enemy mutable state that `update` advances. */
  datatype Mind = Mind(
    rect: Rect, vx: int, vy: int, facingRight: bool, direction: int,
    frame: int, hurtTimer: int, attackCooldown: int,
    hopTimer: int,
    chargeTimer: int, charging: bool,
    phase: int, patternTimer: int, introActive: bool, introTimer: int,
    transition: bool, transitionTimer: int, lastPhase: int,
    balls: seq<CannonBall>)

  /** What the AI reads of the enemy's fixed attributes; `startY` is also the cannon's `original_y`. */
  datatype Profile = Profile(kind: EnemyKind, speed: int, maxHealth: int, startX: int, startY: int)

  function Abs(a: int): int { if a < 0 then -a else a }

  /** The first part of `update`: the frame counter and the two countdowns. */
  function Countdown(m: Mind): Mind
  {
    m.(frame := m.frame + 1,
       hurtTimer := if m.hurtTimer > 0 then m.hurtTimer - 1 else m.hurtTimer,
       attackCooldown := if m.attackCooldown > 0 then m.attackCooldown - 1 else m.attackCooldown)
  }

  /** The patrol direction flips back toward the start once the enemy is more than `reach` from it. */
  function PatrolDirection(x: int, startX: int, reach: int, direction: int): (d: int)
    ensures x > startX + reach ==> d == -1
    ensures x < startX - reach && x <= startX + reach ==> d == 1
    ensures startX - reach <= x <= startX + reach ==> d == direction
  {
    if x > startX + reach then -1 else if x < startX - reach then 1 else direction
  }

  /**
   * Slime `ai_update`: no horizontal motion except on every 60th call,
   * which is a hop: up at 6 px per frame and sideways at twice the speed
   * toward a player within 200 px, otherwise along the patrol direction.
   */
  function SlimeAi(p: Profile, m: Mind, player: Rect): (r: Mind)
    ensures r.hopTimer == (if m.hopTimer + 1 >= 60 then 0 else m.hopTimer + 1)
    ensures m.hopTimer + 1 < 60 ==> r == m.(vx := 0, hopTimer := r.hopTimer)
    ensures m.hopTimer + 1 >= 60 ==> r.vy == -60
    ensures m.hopTimer + 1 >= 60 && Abs(player.CenterX() - m.rect.CenterX()) < 200 ==>
      r.vx == (if player.CenterX() < m.rect.CenterX() then -2 * p.speed else 2 * p.speed) && r.direction == m.direction
    ensures m.hopTimer + 1 >= 60 && Abs(player.CenterX() - m.rect.CenterX()) >= 200 ==>
      r.direction == PatrolDirection(m.rect.x, p.startX, PatrolDistance, m.direction) && r.vx == p.speed * r.direction
  {
    var timer := m.hopTimer + 1;
    if timer < 60 then m.(vx := 0, hopTimer := timer)
    else
      var dx := player.CenterX() - m.rect.CenterX();
      if Abs(dx) < 200 then
        m.(hopTimer := 0, vy := -60, vx := if player.CenterX() < m.rect.CenterX() then -2 * p.speed else 2 * p.speed)
      else
        var d := PatrolDirection(m.rect.x, p.startX, PatrolDistance, m.direction);
        m.(hopTimer := 0, vy := -60, direction := d, vx := p.speed * d)
  }

  function SlimeAiTimes(p: Profile, m: Mind, player: Rect, n: nat): Mind
  {
    if n == 0 then m else SlimeAi(p, SlimeAiTimes(p, m, player, n - 1), player)
  }

  /** From a fresh hop timer the slime hops on exactly the calls numbered by multiples of 60. */
  lemma {:induction false} SlimeHopCadence(p: Profile, m: Mind, player: Rect, n: nat)
    requires m.hopTimer == 0
    ensures SlimeAiTimes(p, m, player, n).hopTimer == n % 60
    ensures n > 0 ==> (SlimeAiTimes(p, m, player, n).vy == -60 || n % 60 != 0)
    ensures n > 0 && n % 60 != 0 ==> SlimeAiTimes(p, m, player, n).vx == 0
  {
    if n > 0 {
      SlimeHopCadence(p, m, player, n - 1);
    }
  }

  /** Bat `ai_update`: its flight velocity (erratic patrol or swoop) is given; it faces the way it flies. */
  function BatAi(m: Mind, flight: (int, int)): (r: Mind)
    ensures r.vx == flight.0 && r.vy == flight.1 && r.facingRight == (flight.0 > 0)
    ensures r == m.(vx := r.vx, vy := r.vy, facingRight := r.facingRight)
  {
    m.(vx := flight.0, vy := flight.1, facingRight := flight.0 > 0)
  }

  /**
   * Knight `ai_update`. Beyond 250 px it patrols and forgets any charge.
   * Within 250 px the charge timer counts calls; the 90th starts a charge
   * and restarts the count. A charge runs at three times the speed toward
   * the player and is called off once the player is nearer than 30 px or
   * farther than 200 px; without a charge the knight walks toward a
   * player more than 40 px away.
   */
  function KnightAi(p: Profile, m: Mind, player: Rect): Mind
  {
    var dx := player.CenterX() - m.rect.CenterX();
    var m0 := m.(vx := 0, facingRight := dx > 0);
    if Abs(dx) < 250 then KnightPursuit(p, m0, dx) else KnightPatrol(p, m0)
  }

  /** The pursuit within 250 px, the knight already facing the player `dx` away. */
  function KnightPursuit(p: Profile, m: Mind, dx: int): Mind
  {
    var timer := m.chargeTimer + 1;
    var starts := timer >= 90;
    var m1 := m.(chargeTimer := if starts then 0 else timer, charging := m.charging || starts);
    if m1.charging then
      m1.(vx := (if m1.facingRight then 3 * p.speed else -3 * p.speed), charging := !(Abs(dx) < 30 || Abs(dx) > 200))
    else if Abs(dx) > 40 then
      m1.(vx := if dx > 0 then p.speed else -p.speed)
    else m1
  }

  /** The patrol beyond 250 px; a turn at either end also turns the knight around. */
  function KnightPatrol(p: Profile, m: Mind): Mind
  {
    var d := PatrolDirection(m.rect.x, p.startX, PatrolDistance, m.direction);
    var facing := if m.rect.x > p.startX + PatrolDistance then false
                  else if m.rect.x < p.startX - PatrolDistance then true
                  else m.facingRight;
    m.(vx := p.speed * d, facingRight := facing, direction := d, chargeTimer := 0, charging := false)
  }

  /**
   * What one knight call does. Beyond 250 px: patrol, no charge. Within
   * it: face the player; the charge timer counts and the 90th call starts
   * a charge at three times the speed, kept only 30 to 200 px away;
   * otherwise walk toward a player more than 40 px away. Only the motion
   * and charge fields change.
   */
  lemma KnightAiFacts(p: Profile, m: Mind, player: Rect)
    ensures var r := KnightAi(p, m, player);
      var dx := player.CenterX() - m.rect.CenterX();
      (Abs(dx) >= 250 ==>
         r.chargeTimer == 0 && !r.charging && r.vx == p.speed * r.direction &&
         r.direction == PatrolDirection(m.rect.x, p.startX, PatrolDistance, m.direction)) &&
      (Abs(dx) < 250 ==>
         r.facingRight == (dx > 0) && r.direction == m.direction &&
         r.chargeTimer == (if m.chargeTimer + 1 >= 90 then 0 else m.chargeTimer + 1)) &&
      (Abs(dx) < 250 && (m.charging || m.chargeTimer + 1 >= 90) ==>
         r.vx == (if dx > 0 then 3 * p.speed else -3 * p.speed) && (r.charging <==> 30 <= Abs(dx) <= 200)) &&
      (Abs(dx) < 250 && !(m.charging || m.chargeTimer + 1 >= 90) ==>
         !r.charging && r.vx == (if Abs(dx) <= 40 then 0 else if dx > 0 then p.speed else -p.speed))
    ensures var r := KnightAi(p, m, player);
      r == m.(vx := r.vx, facingRight := r.facingRight, direction := r.direction,
              chargeTimer := r.chargeTimer, charging := r.charging)
  {
  }


  function KnightAiTimes(p: Profile, m: Mind, player: Rect, n: nat): Mind
  {
    if n == 0 then m else KnightAi(p, KnightAiTimes(p, m, player, n - 1), player)
  }

  /**
   * With the player held within 250 px and a fresh charge timer, the
   * knight walks for 89 calls and starts its charge on the 90th; the
   * charge then holds only while the player is 30 to 200 px away.
   */
  lemma {:induction false} KnightChargeCadence(p: Profile, m: Mind, player: Rect, n: nat)
    requires Abs(player.CenterX() - m.rect.CenterX()) < 250
    requires m.chargeTimer == 0 && !m.charging
    requires n <= 90
    ensures var r := KnightAiTimes(p, m, player, n);
      var dx := player.CenterX() - m.rect.CenterX();
      r.rect == m.rect &&
      (n < 90 ==> r.chargeTimer == n && !r.charging) &&
      (n == 90 ==> r.chargeTimer == 0 && (r.charging <==> 30 <= Abs(dx) <= 200) &&
                   r.vx == (if dx > 0 then 3 * p.speed else -3 * p.speed))
  {
    if n > 0 {
      KnightChargeCadence(p, m, player, n - 1);
      KnightAiFacts(p, KnightAiTimes(p, m, player, n - 1), player);
    }
  }

  // cannon

  const IntroDuration: int := 180
  /** The descent takes `0.6 * intro_duration` frames. */
  const DescentFrames: int := 108
  const TransitionFrames: int := 60

  /**
   * The boss's height during the intro: `original_y - 200 * (1 - t/108)^3`
   * for the first 108 frames (an ease-out descent from 200 px above),
   * truncated to an int, and `original_y` afterwards; 1259712 is 108^3.
   */
  function IntroY(originalY: int, t: int): int
  {
    if t >= DescentFrames then originalY
    else TruncDiv(originalY * 1259712 - 200 * Cubed(DescentFrames - t), 1259712)
  }

  /** The boss descends without ever rising: from 200 px above its post at the start to exactly its post. */
  lemma IntroDescends(originalY: int, t1: int, t2: int)
    requires 0 <= t1 <= t2
    ensures originalY - 200 <= IntroY(originalY, t1) <= IntroY(originalY, t2) <= originalY
    ensures IntroY(originalY, 0) == originalY - 200
  {
    var K := 1259712;
    assert Cubed(108) == K;
    TruncDivExact(originalY - 200, K);
    TruncDivExact(originalY, K);
    if t1 < DescentFrames {
      CubeMonotone(DescentFrames - t1, DescentFrames);
      TruncDivMonotone((originalY - 200) * K, originalY * K - 200 * Cubed(DescentFrames - t1), K);
      if t2 < DescentFrames {
        CubeMonotone(DescentFrames - t2, DescentFrames - t1);
        TruncDivMonotone(originalY * K - 200 * Cubed(DescentFrames - t1), originalY * K - 200 * Cubed(DescentFrames - t2), K);
        TruncDivMonotone(originalY * K - 200 * Cubed(DescentFrames - t2), originalY * K, K);
      } else {
        TruncDivMonotone(originalY * K - 200 * Cubed(DescentFrames - t1), originalY * K, K);
      }
    }
  }

  /** The phase the boss's health calls for: 3 at or below 30% of the maximum, 2 at or below 50%, else 1. */
  function PhaseFor(health: int, maxHealth: int): (ph: int)
    ensures 1 <= ph <= 3
  {
    if 10 * health <= 3 * maxHealth then 3 else if 2 * health <= maxHealth then 2 else 1
  }

  /** The phase update: a phase is set when health calls for 2 or 3, and never set back to 1. */
  function PhaseAfter(phase: int, health: int, maxHealth: int): int
  {
    if 10 * health <= 3 * maxHealth then 3 else if 2 * health <= maxHealth then 2 else phase
  }

  /** A ball from the boss's centre toward a point. */
  function BallAt(r: Rect, tx: int, ty: int): CannonBall
  {
    NewCannonBall(r.CenterX(), r.CenterY(), tx, ty)
  }

  /** `phase1_ai`: patrol the arena (200 px either side of the start) and fire one ball every 90 calls. */
  function Phase1(p: Profile, m: Mind, player: Rect): Mind
  {
    var d := PatrolDirection(m.rect.x, p.startX, 200, m.direction);
    var m1 := m.(direction := d, vx := p.speed * d);
    if m1.patternTimer >= 90 then Volley(m1, player, false) else m1
  }

  /** `phase2_ai`: chase at double speed, the jump check, and a three-ball spread every 60 calls. */
  function Phase2(p: Profile, m: Mind, player: Rect): Mind
  {
    var m1 := Phase2Move(p, m, player);
    if m1.patternTimer >= 60 then Volley(m1, player, true) else m1
  }

  /** The motion part of `phase2_ai`: chase a player more than 80 px away; jump on a multiple of 120. */
  function Phase2Move(p: Profile, m: Mind, player: Rect): Mind
  {
    var dx := player.CenterX() - m.rect.CenterX();
    var m1 := if Abs(dx) > 80 then m.(vx := (if dx > 0 then 2 * p.speed else -2 * p.speed)) else m;
    if m1.patternTimer % 120 == 0 && m1.patternTimer > 0 then m1.(vy := -100) else m1
  }

  /** `phase3_ai`: pursue at double speed and fire one ball every 30 calls. */
  function Phase3(p: Profile, m: Mind, player: Rect): Mind
  {
    var dx := player.CenterX() - m.rect.CenterX();
    var m1 := m.(vx := (if dx > 0 then 2 * p.speed else -2 * p.speed));
    if m1.patternTimer >= 30 then Volley(m1, player, false) else m1
  }

  /** The balls of one volley: at the player's centre, then with `spread` 100 px above and below it. */
  function Shots(r: Rect, player: Rect, spread: bool): seq<CannonBall>
  {
    [BallAt(r, player.CenterX(), player.CenterY())] +
    (if spread then [BallAt(r, player.CenterX(), player.CenterY() - 100),
                     BallAt(r, player.CenterX(), player.CenterY() + 100)] else [])
  }

  /** A volley: its balls join the boss's and the pattern timer restarts. */
  function Volley(m: Mind, player: Rect, spread: bool): Mind
  {
    m.(balls := m.balls + Shots(m.rect, player, spread), patternTimer := 0)
  }

  /**
   * Cannon `ai_update`: the intro first, then a running phase transition,
   * and only then the phase update followed by that phase's behaviour.
   */
  function CannonAi(p: Profile, health: int, m: Mind, player: Rect): Mind
  {
    var m0 := m.(vx := 0);
    if m0.introActive then IntroStep(p, m0)
    else if m0.transition then TransitionStep(m0)
    else PhaseStep(p, health, m0, player)
  }

  /** One intro call: the timer advances and the boss is placed on the descent, at its post once the intro ends. */
  function IntroStep(p: Profile, m: Mind): Mind
  {
    var t := m.introTimer + 1;
    if t >= IntroDuration then m.(introTimer := t, introActive := false, rect := m.rect.(y := p.startY))
    else m.(introTimer := t, rect := m.rect.(y := IntroY(p.startY, t)))
  }

  /** One call of a running phase transition: the timer advances and ends the transition at 60. */
  function TransitionStep(m: Mind): Mind
  {
    var t := m.transitionTimer + 1;
    if t >= TransitionFrames then m.(transition := false, transitionTimer := 0) else m.(transitionTimer := t)
  }

  /** The phase update (starting a transition on a change), facing, the pattern timer and the phase's behaviour. */
  function PhaseStep(p: Profile, health: int, m: Mind, player: Rect): Mind
  {
    PhaseAi(p, PhaseTurn(p, health, m, player), player)
  }

  /** The phase update, then facing the player and advancing the pattern timer. */
  function PhaseTurn(p: Profile, health: int, m: Mind, player: Rect): Mind
  {
    var m1 := PhaseChange(p, health, m);
    m1.(facingRight := player.CenterX() - m1.rect.CenterX() > 0, patternTimer := m1.patternTimer + 1)
  }

  /** The behaviour of the current phase: `phase1_ai`, `phase2_ai` or `phase3_ai`. */
  function PhaseAi(p: Profile, m: Mind, player: Rect): Mind
  {
    if m.phase == 1 then Phase1(p, m, player) else if m.phase == 2 then Phase2(p, m, player) else Phase3(p, m, player)
  }

  /** The phase health calls for, starting a transition when it differs from the current one. */
  function PhaseChange(p: Profile, health: int, m: Mind): Mind
  {
    var ph := PhaseAfter(m.phase, health, p.maxHealth);
    if ph != m.phase then m.(phase := ph, transition := true, transitionTimer := 0, lastPhase := ph) else m
  }

  /**
   * During the intro a call only stops the boss, advances the intro timer
   * and places it on the descent; the call that brings the timer to 180
   * ends the intro with the boss at its post.
   */
  lemma CannonIntro(p: Profile, health: int, m: Mind, player: Rect)
    requires m.introActive
    ensures var r := CannonAi(p, health, m, player);
      r.introTimer == m.introTimer + 1 &&
      (r.introActive <==> m.introTimer + 1 < IntroDuration) &&
      r.rect.y == IntroY(p.startY, m.introTimer + 1) &&
      r == m.(vx := 0, introTimer := r.introTimer, introActive := r.introActive, rect := m.rect.(y := r.rect.y))
  {
  }

  /** The health thresholds in integers; rising health can only lower the phase health calls for. */
  lemma PhaseForMonotone(h1: int, h2: int, maxHealth: int)
    requires h1 <= h2
    ensures PhaseFor(h1, maxHealth) >= PhaseFor(h2, maxHealth)
  {
  }

  /**
   * The phase never goes back: while it is at most what health calls for,
   * one call leaves it between its old value and that bound, and lower
   * health later only raises the bound. A change of phase starts the
   * transition, yet the new phase's behaviour has already run on that call.
   */
  lemma CannonPhaseMonotone(p: Profile, health: int, m: Mind, player: Rect)
    requires 1 <= m.phase <= PhaseFor(health, p.maxHealth)
    ensures var r := CannonAi(p, health, m, player);
      m.phase <= r.phase <= PhaseFor(health, p.maxHealth) &&
      (!m.introActive && !m.transition ==> r.phase == PhaseFor(health, p.maxHealth)) &&
      (r.phase != m.phase ==> r.transition && r.transitionTimer == 0 && r.lastPhase == r.phase)
  {
    if !m.introActive && !m.transition {
      var t := PhaseTurn(p, health, m.(vx := 0), player);
      assert t.phase == PhaseAfter(m.phase, health, p.maxHealth);
      assert t.phase != m.phase ==> t.transition && t.transitionTimer == 0 && t.lastPhase == t.phase;
      PhaseAiKeepsPhase(p, t, player);
    }
  }

  /** A phase's behaviour moves and fires, but leaves the phase and its transition bookkeeping alone. */
  lemma PhaseAiKeepsPhase(p: Profile, m: Mind, player: Rect)
    ensures var r := PhaseAi(p, m, player);
      r.phase == m.phase && r.transition == m.transition && r.transitionTimer == m.transitionTimer &&
      r.lastPhase == m.lastPhase && r.introActive == m.introActive
  {
    var q := if m.phase == 1 then m.(direction := PatrolDirection(m.rect.x, p.startX, 200, m.direction))
      else if m.phase == 2 then Phase2Move(p, m, player) else m;
    assert q.phase == m.phase && q.transition == m.transition && q.transitionTimer == m.transitionTimer &&
      q.lastPhase == m.lastPhase && q.introActive == m.introActive;
  }

  /**
   * The pattern timer stays below 90 however the phases alternate, so
   * the phase-2 jump (at a multiple of 120) is never taken and the AI
   * never changes the vertical speed. A call that fires resets the timer
   * and adds one ball (phases 1 and 3) or three (phase 2); any other call
   * adds none.
   */
  lemma CannonCadence(p: Profile, health: int, m: Mind, player: Rect)
    requires 0 <= m.patternTimer < 90
    ensures var r := CannonAi(p, health, m, player);
      var ph := PhaseAfter(m.phase, health, p.maxHealth);
      var fired := !m.introActive && !m.transition &&
        m.patternTimer + 1 >= (if ph == 1 then 90 else if ph == 2 then 60 else 30);
      0 <= r.patternTimer < 90 && r.vy == m.vy &&
      (fired ==> r.patternTimer == 0 && |r.balls| == |m.balls| + (if ph == 2 then 3 else 1) && r.balls[..|m.balls|] == m.balls) &&
      (!fired ==> r.balls == m.balls) &&
      (!fired && !m.introActive && !m.transition ==> r.patternTimer == m.patternTimer + 1) &&
      (m.introActive || m.transition ==> r.patternTimer == m.patternTimer)
  {
    if !m.introActive && !m.transition {
      var m2 := PhaseTurn(p, health, m.(vx := 0), player);
      assert m2.phase == PhaseAfter(m.phase, health, p.maxHealth);
      assert m2.balls == m.balls && m2.vy == m.vy && m2.patternTimer == m.patternTimer + 1 && m2.rect == m.rect;
      PhaseCadence(p, m2, player);
      var shots := Shots(m.rect, player, m2.phase == 2);
      assert (m.balls + shots)[..|m.balls|] == m.balls;
    }
  }

  /**
   * One phase behaviour with the pattern timer at 1 to 90: it fires (and
   * restarts the timer) exactly when the timer has reached the phase's
   * period, and leaves the vertical speed alone.
   */
  lemma PhaseCadence(p: Profile, m: Mind, player: Rect)
    requires 1 <= m.patternTimer <= 90
    ensures var r := PhaseAi(p, m, player);
      var period := if m.phase == 1 then 90 else if m.phase == 2 then 60 else 30;
      r.vy == m.vy && r.rect == m.rect &&
      (m.patternTimer >= period ==> r.balls == m.balls + Shots(m.rect, player, m.phase == 2) && r.patternTimer == 0) &&
      (m.patternTimer < period ==> r.balls == m.balls && r.patternTimer == m.patternTimer)
  {
    if m.phase == 2 {
      assert Phase2Move(p, m, player).vy == m.vy;
    }
  }


  function CannonAiTimes(p: Profile, health: int, m: Mind, player: Rect, n: nat): Mind
  {
    if n == 0 then m else CannonAi(p, health, CannonAiTimes(p, health, m, player, n - 1), player)
  }

  /**
   * A phase transition suspends the boss for exactly 60 calls: for 59
   * calls it only stops and counts, and the 60th ends the transition
   * without acting.
   */
  lemma {:induction false} TransitionSuspends(p: Profile, health: int, m: Mind, player: Rect, n: nat)
    requires !m.introActive && m.transition && m.transitionTimer == 0
    requires 1 <= n <= TransitionFrames
    ensures var r := CannonAiTimes(p, health, m, player, n);
      r == m.(vx := 0, transition := n < TransitionFrames, transitionTimer := if n < TransitionFrames then n else 0)
  {
    if n > 1 {
      TransitionSuspends(p, health, m, player, n - 1);
    }
  }

  /** The AI of the enemy's kind; the bat's flight velocity comes from outside. */
  function Ai(p: Profile, health: int, m: Mind, player: Rect, flight: (int, int)): Mind
  {
    match p.kind
    case SlimeKind => SlimeAi(p, m, player)
    case BatKind => BatAi(m, flight)
    case KnightKind => KnightAi(p, m, player)
    case CannonKind => CannonAi(p, health, m, player)
  }

  // ------------------------------------------------------- physics

  /**
   * `Enemy.physics_update`: gravity, the move on both axes at once, then
   * a single pass over the tiles resolving only vertical overlap.
   */
  function FallPhysics(m: Mind, tiles: seq<Rect>): (r: Mind)
    ensures r.vy <= TerminalVelocity
    ensures r == m.(rect := r.rect, vy := r.vy)
    ensures r.rect.x == Shift(m.rect.x, m.vx) && r.rect.w == m.rect.w && r.rect.h == m.rect.h
  {
    var vy := Gravity(m.vy);
    var moved := m.rect.(x := Shift(m.rect.x, m.vx), y := Shift(m.rect.y, vy));
    VerticalPassFacts(moved, vy, tiles);
    var l := VerticalPass(moved, vy, tiles);
    m.(rect := l.rect, vy := l.vy)
  }

  /** A bat ignores gravity and tiles; its top always ends within 100 px of where it started. */
  function BatPhysics(p: Profile, m: Mind): (r: Mind)
    ensures p.startY - 100 <= r.rect.y <= p.startY + 100
    ensures r == m.(rect := r.rect)
    ensures r.rect == m.rect.(x := Shift(m.rect.x, m.vx), y := r.rect.y)
    ensures p.startY - 100 <= Shift(m.rect.y, m.vy) <= p.startY + 100 ==> r.rect.y == Shift(m.rect.y, m.vy)
  {
    var y := Shift(m.rect.y, m.vy);
    var y1 := if y < p.startY - 100 then p.startY - 100 else y;
    var y2 := if y1 > p.startY + 100 then p.startY + 100 else y1;
    m.(rect := m.rect.(x := Shift(m.rect.x, m.vx), y := y2))
  }

  /** One `update` of an enemy: countdowns, AI, physics, and for the boss its balls. */
  function Tick(p: Profile, health: int, m: Mind, player: Rect, tiles: seq<Rect>, flight: (int, int)): Mind
  {
    var a := Ai(p, health, Countdown(m), player, flight);
    var b := if p.kind == BatKind then BatPhysics(p, a) else FallPhysics(a, tiles);
    if p.kind == CannonKind then b.(balls := BallsAfterUpdate(b.balls)) else b
  }

  /** Only the boss has balls: a non-boss enemy's ball list stays as it was. */
  lemma OnlyTheBossFires(p: Profile, health: int, m: Mind, player: Rect, tiles: seq<Rect>, flight: (int, int))
    requires p.kind != CannonKind
    ensures Tick(p, health, m, player, tiles, flight).balls == m.balls
  {
  }

  /** The state of a freshly created enemy at `(x, y)`. */
  function InitialMind(k: EnemyKind, x: int, y: int): Mind
  {
    Mind(Rect(x, y, SizeOf(k), SizeOf(k)), 0, 0, true, 1, 0, 0, 0, 0, 0, false,
         1, 0, k == CannonKind, 0, false, 0, 1, [])
  }

  // ------------------------------------------------------- the class

  class Enemy {
    const kind: EnemyKind
    const maxHealth: int
    const damage: int
    const speed: int
    const score: int
    const startX: int
    const startY: int
    var health: int
    var rect: Rect
    var vx: int
    var vy: int
    var facingRight: bool
    var direction: int
    var frame: int
    var hurtTimer: int
    var attackCooldown: int
    var hopTimer: int
    var chargeTimer: int
    var charging: bool
    var phase: int
    var patternTimer: int
    var introActive: bool
    var introTimer: int
    var transition: bool
    var transitionTimer: int
    var lastPhase: int
    var balls: seq<CannonBall>

    function Attributes(): Profile
    {
      Profile(kind, speed, maxHealth, startX, startY)
    }

    function State(): Mind
      reads this`rect, this`vx, this`vy, this`facingRight, this`direction, this`frame, this`hurtTimer,
        this`attackCooldown, this`hopTimer, this`chargeTimer, this`charging, this`phase, this`patternTimer,
        this`introActive, this`introTimer, this`transition, this`transitionTimer, this`lastPhase, this`balls
    {
      Mind(rect, vx, vy, facingRight, direction, frame, hurtTimer, attackCooldown, hopTimer,
           chargeTimer, charging, phase, patternTimer, introActive, introTimer,
           transition, transitionTimer, lastPhase, balls)
    }

    /** `create_enemy(kind, x, y)`. */
    constructor (k: EnemyKind, x: int, y: int)
      ensures kind == k && State() == InitialMind(k, x, y)
      ensures maxHealth == MaxHealthOf(k) && health == maxHealth && damage == DamageOf(k)
      ensures speed == SpeedOf(k) && score == ScoreOf(k) && startX == x && startY == y
    {
      kind := k;
      maxHealth := MaxHealthOf(k);
      health := MaxHealthOf(k);
      damage := DamageOf(k);
      speed := SpeedOf(k);
      score := ScoreOf(k);
      startX := x;
      startY := y;
      rect := Rect(x, y, SizeOf(k), SizeOf(k));
      vx := 0;
      vy := 0;
      facingRight := true;
      direction := 1;
      frame := 0;
      hurtTimer := 0;
      attackCooldown := 0;
      hopTimer := 0;
      chargeTimer := 0;
      charging := false;
      phase := 1;
      patternTimer := 0;
      introActive := k == CannonKind;
      introTimer := 0;
      transition := false;
      transitionTimer := 0;
      lastPhase := 1;
      balls := [];
    }

    /** `take_damage`; a death is the caller's to act on (the enemy leaves the level's group). */
    method TakeDamage(amount: int) returns (died: bool)
      modifies this`health, this`hurtTimer
      ensures Wound(health, died) == Damaged(kind, old(health), amount)
      ensures hurtTimer == HurtFrames
    {
      var dealt := amount;
      if kind == KnightKind {
        dealt := if amount - 1 > 1 then amount - 1 else 1;
      }
      health := health - dealt;
      hurtTimer := HurtFrames;
      died := health <= 0;
    }

    /** `update`, with the bat's flight velocity given. */
    method Update(player: Rect, tiles: seq<Rect>, flight: (int, int))
      modifies this
      ensures State() == Tick(Attributes(), health, old(State()), player, tiles, flight)
      ensures health == old(health)
    {
      CountDown();
      ghost var counted := State();
      Think(player, flight);
      ghost var thought := State();
      assert thought == Ai(Attributes(), health, counted, player, flight);
      Move(tiles);
      ghost var moved := State();
      assert moved == (if kind == BatKind then BatPhysics(Attributes(), thought) else FallPhysics(thought, tiles));
      if kind == CannonKind {
        balls := BallsAfterUpdate(balls);
      }
    }

    /** The frame counter and the two countdowns. */
    method CountDown()
      modifies this`frame, this`hurtTimer, this`attackCooldown
      ensures State() == Countdown(old(State()))
    {
      frame := frame + 1;
      if hurtTimer > 0 {
        hurtTimer := hurtTimer - 1;
      }
      if attackCooldown > 0 {
        attackCooldown := attackCooldown - 1;
      }
    }

    /** `physics_update` of the enemy's kind. */
    method Move(tiles: seq<Rect>)
      modifies this`rect, this`vy
      ensures State() == if kind == BatKind then BatPhysics(Attributes(), old(State())) else FallPhysics(old(State()), tiles)
    {
      if kind == BatKind {
        BatMove();
      } else {
        Fall(tiles);
      }
    }

    /** `ai_update` of the enemy's kind. */
    method Think(player: Rect, flight: (int, int))
      modifies this
      ensures State() == Ai(Attributes(), health, old(State()), player, flight)
      ensures health == old(health)
    {
      match kind {
        case SlimeKind => SlimeUpdate(player);
        case BatKind => vx, vy, facingRight := flight.0, flight.1, flight.0 > 0;
        case KnightKind => KnightUpdate(player);
        case CannonKind => CannonUpdate(player);
      }
    }

    method SlimeUpdate(player: Rect)
      modifies this
      ensures State() == SlimeAi(Attributes(), old(State()), player) && health == old(health)
    {
      vx := 0;
      hopTimer := hopTimer + 1;
      if hopTimer >= 60 {
        hopTimer := 0;
        vy := -60;
        if Abs(player.CenterX() - rect.CenterX()) < 200 {
          if player.CenterX() < rect.CenterX() {
            vx := -2 * speed;
          } else {
            vx := 2 * speed;
          }
        } else {
          if rect.x > startX + PatrolDistance {
            direction := -1;
          } else if rect.x < startX - PatrolDistance {
            direction := 1;
          }
          vx := speed * direction;
        }
      }
    }

    method KnightUpdate(player: Rect)
      modifies this`vx, this`facingRight, this`chargeTimer, this`charging, this`direction
      ensures State() == KnightAi(Attributes(), old(State()), player)
    {
      vx := 0;
      var dx := player.CenterX() - rect.CenterX();
      facingRight := dx > 0;
      if Abs(dx) < 250 {
        KnightPursue(dx);
      } else {
        KnightWalkPatrol();
      }
    }

    method KnightPursue(dx: int)
      modifies this`vx, this`chargeTimer, this`charging
      ensures State() == KnightPursuit(Attributes(), old(State()), dx)
    {
      chargeTimer := chargeTimer + 1;
      if chargeTimer >= 90 {
        charging := true;
        chargeTimer := 0;
      }
      if charging {
        vx := if facingRight then 3 * speed else -3 * speed;
        if Abs(dx) < 30 || Abs(dx) > 200 {
          charging := false;
        }
      } else if Abs(dx) > 40 {
        vx := if dx > 0 then speed else -speed;
      }
    }

    method KnightWalkPatrol()
      modifies this`vx, this`facingRight, this`chargeTimer, this`charging, this`direction
      ensures State() == KnightPatrol(Attributes(), old(State()))
    {
      chargeTimer := 0;
      charging := false;
      if rect.x > startX + PatrolDistance {
        direction := -1;
        facingRight := false;
      } else if rect.x < startX - PatrolDistance {
        direction := 1;
        facingRight := true;
      }
      vx := speed * direction;
    }

    method CannonUpdate(player: Rect)
      modifies this
      ensures State() == CannonAi(Attributes(), health, old(State()), player) && health == old(health)
    {
      vx := 0;
      if introActive {
        IntroUpdate();
        return;
      }
      if transition {
        TransitionUpdate();
        return;
      }
      PhaseUpdate(player);
    }

    method IntroUpdate()
      modifies this`introTimer, this`introActive, this`rect
      ensures State() == IntroStep(Attributes(), old(State()))
    {
      introTimer := introTimer + 1;
      rect := rect.(y := IntroY(startY, introTimer));
      if introTimer >= IntroDuration {
        introActive := false;
        rect := rect.(y := startY);
      }
    }

    method TransitionUpdate()
      modifies this`transition, this`transitionTimer
      ensures State() == TransitionStep(old(State()))
    {
      transitionTimer := transitionTimer + 1;
      if transitionTimer >= TransitionFrames {
        transition := false;
        transitionTimer := 0;
      }
    }

    method PhaseUpdate(player: Rect)
      modifies this
      ensures State() == PhaseStep(Attributes(), health, old(State()), player) && health == old(health)
    {
      PhaseTurnUpdate(player);
      PhaseAiUpdate(player);
    }

    method PhaseTurnUpdate(player: Rect)
      modifies this`phase, this`transition, this`transitionTimer, this`lastPhase, this`facingRight, this`patternTimer
      ensures State() == PhaseTurn(Attributes(), health, old(State()), player)
    {
      UpdatePhase();
      facingRight := player.CenterX() - rect.CenterX() > 0;
      patternTimer := patternTimer + 1;
    }

    method PhaseAiUpdate(player: Rect)
      modifies this`direction, this`vx, this`vy, this`balls, this`patternTimer
      ensures State() == PhaseAi(Attributes(), old(State()), player)
    {
      if phase == 1 {
        Phase1Update(player);
      } else if phase == 2 {
        Phase2Update(player);
      } else {
        Phase3Update(player);
      }
    }

    method UpdatePhase()
      modifies this`phase, this`transition, this`transitionTimer, this`lastPhase
      ensures State() == PhaseChange(Attributes(), health, old(State()))
    {
      var oldPhase := phase;
      if 10 * health <= 3 * maxHealth {
        phase := 3;
      } else if 2 * health <= maxHealth {
        phase := 2;
      }
      if phase != oldPhase {
        transition := true;
        transitionTimer := 0;
        lastPhase := phase;
      }
    }

    method Phase1Update(player: Rect)
      modifies this`direction, this`vx, this`balls, this`patternTimer
      ensures State() == Phase1(Attributes(), old(State()), player)
    {
      if rect.x > startX + 200 {
        direction := -1;
      } else if rect.x < startX - 200 {
        direction := 1;
      }
      vx := speed * direction;
      if patternTimer >= 90 {
        FireVolley(player, false);
      }
    }

    method Phase2Update(player: Rect)
      modifies this`vx, this`vy, this`balls, this`patternTimer
      ensures State() == Phase2(Attributes(), old(State()), player)
    {
      Phase2Chase(player);
      if patternTimer >= 60 {
        FireVolley(player, true);
      }
    }

    method Phase2Chase(player: Rect)
      modifies this`vx, this`vy
      ensures State() == Phase2Move(Attributes(), old(State()), player)
    {
      var dx := player.CenterX() - rect.CenterX();
      if Abs(dx) > 80 {
        vx := if dx > 0 then 2 * speed else -2 * speed;
      }
      if patternTimer % 120 == 0 && patternTimer > 0 {
        vy := -100;
      }
    }

    method Phase3Update(player: Rect)
      modifies this`vx, this`balls, this`patternTimer
      ensures State() == Phase3(Attributes(), old(State()), player)
    {
      var dx := player.CenterX() - rect.CenterX();
      vx := if dx > 0 then 2 * speed else -2 * speed;
      if patternTimer >= 30 {
        FireVolley(player, false);
      }
    }

    /** A volley (`shoot_cannon_ball`, and `shoot_spread_shot` in phase 2), then the pattern timer restarts. */
    method FireVolley(player: Rect, spread: bool)
      modifies this`balls, this`patternTimer
      ensures State() == Volley(old(State()), player, spread)
    {
      ghost var b0 := balls;
      ShootCannonBall(player);
      if spread {
        ShootSpreadShot(player);
      }
      assert balls == b0 + Shots(rect, player, spread);
      patternTimer := 0;
    }

    /** `shoot_cannon_ball`: one ball at the player's centre. */
    method ShootCannonBall(player: Rect)
      modifies this`balls
      ensures balls == old(balls) + [BallAt(rect, player.CenterX(), player.CenterY())]
    {
      balls := balls + [NewCannonBall(rect.CenterX(), rect.CenterY(), player.CenterX(), player.CenterY())];
    }

    /** `shoot_spread_shot`: two more balls, aimed 100 px above and below the player's centre. */
    method ShootSpreadShot(player: Rect)
      modifies this`balls
      ensures balls == old(balls) + [BallAt(rect, player.CenterX(), player.CenterY() - 100),
                                     BallAt(rect, player.CenterX(), player.CenterY() + 100)]
    {
      balls := balls + [NewCannonBall(rect.CenterX(), rect.CenterY(), player.CenterX(), player.CenterY() - 100)];
      balls := balls + [NewCannonBall(rect.CenterX(), rect.CenterY(), player.CenterX(), player.CenterY() + 100)];
    }

    /** The bat's `physics_update`. */
    method BatMove()
      modifies this`rect
      ensures State() == BatPhysics(Attributes(), old(State()))
    {
      rect := rect.(x := Shift(rect.x, vx), y := Shift(rect.y, vy));
      if rect.y < startY - 100 {
        rect := rect.(y := startY - 100);
      }
      if rect.y > startY + 100 {
        rect := rect.(y := startY + 100);
      }
    }

    /** `Enemy.physics_update`, with its pass over the tiles. */
    method Fall(tiles: seq<Rect>)
      modifies this`rect, this`vy
      ensures State() == FallPhysics(old(State()), tiles)
    {
      vy := vy + PlayerGravity;
      if vy > TerminalVelocity {
        vy := TerminalVelocity;
      }
      rect := rect.(x := Shift(rect.x, vx), y := Shift(rect.y, vy));
      ghost var moved := rect;
      ghost var vy0 := vy;
      var i := 0;
      while i < |tiles|
        invariant 0 <= i <= |tiles|
        invariant VerticalPass(moved, vy0, tiles[..i]) == Landing(rect, vy, VerticalPass(moved, vy0, tiles[..i]).landed)
      {
        var t := tiles[i];
        if Collide(rect, t) {
          if vy > 0 {
            rect := rect.(y := t.y - rect.h);
            vy := 0;
          } else if vy < 0 {
            rect := rect.(y := t.y + t.h);
            vy := 0;
          }
        }
        assert tiles[..i + 1][..i] == tiles[..i];
        i := i + 1;
      }
      assert tiles[..i] == tiles;
    }
  }

  /** A group of enemies lists each at most once. */
  predicate Unique(es: seq<Enemy>)
  {
    forall i, j :: 0 <= i < j < |es| ==> es[i] != es[j]
  }

  /** The enemy objects of a group. */
  function Crowd(es: seq<Enemy>): set<Enemy>
  {
    set j | 0 <= j < |es| :: es[j]
  }
}
