/**
 * Gravity and the tile collision passes shared by the player
 * (player.py `update_level_physics`) and the enemies (enemies.py
 * `physics_update`). Each pass visits the tiles in list order and reacts
 * to a tile only if the box overlaps it at that moment, so it is written
 * as a left fold over the tile list.
 */
module Physics {
  import opened Rects
  import opened Settings

  /** `velocity_y += 0.5`, then the clamp to terminal velocity 15 (in tenths). */
  function Gravity(vy: int): (v: int)
    ensures v <= TerminalVelocity
    ensures vy + PlayerGravity <= TerminalVelocity ==> v == vy + PlayerGravity
    ensures vy + PlayerGravity > TerminalVelocity ==> v == TerminalVelocity
  {
    if vy + PlayerGravity > TerminalVelocity then TerminalVelocity else vy + PlayerGravity
  }

  /** One tile of the horizontal pass: moving right snaps the right edge to the tile's left edge, and vice versa. */
  function PushOutX(r: Rect, vx: int, t: Rect): Rect
  {
    if !Collide(r, t) then r
    else if vx > 0 then r.(x := t.x - r.w)
    else if vx < 0 then r.(x := t.x + t.w)
    else r
  }

  /** The horizontal pass over every tile in order. */
  function HorizontalPass(r: Rect, vx: int, tiles: seq<Rect>): Rect
    decreases |tiles|
  {
    if tiles == [] then r
    else PushOutX(HorizontalPass(r, vx, tiles[..|tiles| - 1]), vx, tiles[|tiles| - 1])
  }

  /** The state the vertical pass carries from tile to tile. */
  datatype Landing = Landing(rect: Rect, vy: int, landed: bool)

  /**
   * One tile of the vertical pass: falling onto a tile snaps the bottom
   * edge to its top, stops the fall and records a landing; rising into a
   * tile snaps the top edge to its bottom and stops the rise.
   */
  function PushOutY(l: Landing, t: Rect): Landing
  {
    if !Collide(l.rect, t) then l
    else if l.vy > 0 then Landing(l.rect.(y := t.y - l.rect.h), 0, true)
    else if l.vy < 0 then Landing(l.rect.(y := t.y + t.h), 0, l.landed)
    else l
  }

  /** The vertical pass over every tile in order, starting with no landing. */
  function VerticalPass(r: Rect, vy: int, tiles: seq<Rect>): Landing
    decreases |tiles|
  {
    if tiles == [] then Landing(r, vy, false)
    else PushOutY(VerticalPass(r, vy, tiles[..|tiles| - 1]), tiles[|tiles| - 1])
  }

  /**
   * The horizontal pass only moves the box horizontally, and only against
   * the direction of motion: whenever it moved the box, the box's leading
   * edge ends flush against the tile that stopped it.
   */
  lemma {:induction false} HorizontalPassFacts(r: Rect, vx: int, tiles: seq<Rect>)
    ensures var q := HorizontalPass(r, vx, tiles);
      q.y == r.y && q.w == r.w && q.h == r.h &&
      (vx == 0 ==> q == r) &&
      (vx > 0 ==> q.x <= r.x) &&
      (vx < 0 ==> q.x >= r.x) &&
      (q.x != r.x ==>
         exists k :: 0 <= k < |tiles| && (if vx > 0 then q.Right() == tiles[k].x else q.x == tiles[k].Right()))
    decreases |tiles|
  {
    if tiles != [] {
      var pre := tiles[..|tiles| - 1];
      var t := tiles[|tiles| - 1];
      HorizontalPassFacts(r, vx, pre);
      var p := HorizontalPass(r, vx, pre);
      var q := PushOutX(p, vx, t);
      if q.x != r.x {
        if q.x != p.x {
          assert if vx > 0 then q.Right() == tiles[|tiles| - 1].x else q.x == tiles[|tiles| - 1].Right();
        } else {
          var k :| 0 <= k < |pre| && (if vx > 0 then p.Right() == pre[k].x else p.x == pre[k].Right());
          assert pre[k] == tiles[k];
        }
      }
    }
  }

  /**
   * The vertical pass in a nutshell. It never changes the box's
   * horizontal extent; it leaves the velocity as it was or stops it; it
   * lands exactly when the box was falling and overlapped some tile after
   * the vertical move; a landing leaves the velocity 0 and the bottom edge
   * on a tile's top; and a pass that does not land leaves a falling box
   * where it was.
   */
  lemma {:induction false} VerticalPassFacts(r: Rect, vy: int, tiles: seq<Rect>)
    ensures var l := VerticalPass(r, vy, tiles);
      l.rect.x == r.x && l.rect.w == r.w && l.rect.h == r.h &&
      (l.vy == vy || l.vy == 0) &&
      (l.landed <==> vy > 0 && exists k :: 0 <= k < |tiles| && Collide(r, tiles[k])) &&
      (l.landed ==> l.vy == 0 && exists k :: 0 <= k < |tiles| && l.rect.Bottom() == tiles[k].y) &&
      (!l.landed && vy > 0 ==> l.rect == r && l.vy == vy) &&
      (vy == 0 ==> l == Landing(r, 0, false))
    decreases |tiles|
  {
    if tiles != [] {
      var pre := tiles[..|tiles| - 1];
      var t := tiles[|tiles| - 1];
      VerticalPassFacts(r, vy, pre);
      var p := VerticalPass(r, vy, pre);
      var l := PushOutY(p, t);
      assert forall k :: 0 <= k < |pre| ==> pre[k] == tiles[k];
      if p.landed {
        var k :| 0 <= k < |pre| && Collide(r, pre[k]);
        assert Collide(r, tiles[k]);
        var j :| 0 <= j < |pre| && p.rect.Bottom() == pre[j].y;
        assert l == p;
        assert l.rect.Bottom() == tiles[j].y;
      } else if vy > 0 {
        if Collide(r, t) {
          assert l.rect.Bottom() == tiles[|tiles| - 1].y;
        } else {
          assert l == p;
          assert forall k :: 0 <= k < |tiles| ==> !Collide(r, tiles[k]) by {
            forall k | 0 <= k < |tiles| ensures !Collide(r, tiles[k]) {
              if k < |pre| { assert tiles[k] == pre[k]; }
            }
          }
        }
      }
    }
  }
}
