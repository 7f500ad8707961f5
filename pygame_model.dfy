/** An optional value, for the places where the game returns `None`. */
module Options {
  datatype Option<T> = None | Some(value: T)
}

/**
 * Integer rectangles with the semantics of pygame's `Rect`, and the
 * fixed-point arithmetic used for fractional velocities.
 */
module Rects {
  /** An axis-aligned box: left `x`, top `y` and a non-negative size. */
  datatype Rect = Rect(x: int, y: int, w: nat, h: nat)
  {
    function Right(): int { x + w }
    function Bottom(): int { y + h }
    /** pygame computes centres with integer halving of the size. */
    function CenterX(): int { x + w / 2 }
    function CenterY(): int { y + h / 2 }
  }

  /**
   * `colliderect`: the open interiors overlap. Boxes that only share an
   * edge do not collide, and an empty box collides with nothing.
   */
  predicate Collide(a: Rect, b: Rect)
  {
    a.w > 0 && a.h > 0 && b.w > 0 && b.h > 0 &&
    a.x < b.x + b.w && b.x < a.x + a.w &&
    a.y < b.y + b.h && b.y < a.y + a.h
  }

  /** `get_rect(center=(cx, cy))` for a surface of the given size. */
  function CenteredAt(cx: int, cy: int, w: nat, h: nat): (r: Rect)
    ensures r.CenterX() == cx && r.CenterY() == cy
    ensures r.w == w && r.h == h
  {
    Rect(cx - w / 2, cy - h / 2, w, h)
  }

  /** Velocities are kept in tenths of a pixel. */
  const Scale: int := 10

  /** Integer division rounding toward zero, as Python's `int()` of a quotient does. */
  function TruncDiv(a: int, b: int): (q: int)
    requires b > 0
    ensures a >= 0 ==> 0 <= q && q * b <= a < q * b + b
    ensures a < 0 ==> q <= 0 && q * b - b < a <= q * b
  {
    if a >= 0 then DivBounds(a, b); a / b else DivBounds(-a, b); -((-a) / b)
  }

  /** Euclidean division of a non-negative number: the quotient is non-negative and within one divisor below. */
  lemma DivBounds(a: int, b: int)
    requires a >= 0 && b > 0
    ensures 0 <= a / b && (a / b) * b <= a < (a / b) * b + b
  {
    var q, r := a / b, a % b;
    assert a == q * b + r && 0 <= r < b;
    MulSign(q + 1, b);
    assert (q + 1) * b == a - r + b;
  }

  /** A non-positive multiple of a positive number is non-positive. */
  lemma {:induction false} MulSign(x: int, b: int)
    requires b > 0
    ensures x <= 0 ==> x * b <= 0
    decreases if x < 0 then -x else 0
  {
    if x < 0 {
      MulSign(x + 1, b);
      assert x * b == (x + 1) * b - b;
    }
  }

  /**
   * Moving a pixel coordinate by a velocity in tenths: pygame stores
   * `rect.x + v` back as an int, truncating toward zero.
   */
  function Shift(pos: int, v: int): (p: int)
    ensures pos * Scale + v - Scale < p * Scale < pos * Scale + v + Scale
    ensures v % Scale == 0 ==> p == pos + v / Scale
    ensures v >= 0 ==> p >= pos
    ensures v <= 0 ==> p <= pos
  {
    TruncDiv(pos * Scale + v, Scale)
  }
}

/** Input as the game sees it: held direction keys and the key presses of one frame. */
module Input {
  /** The keys whose KEYDOWN events the game reacts to; every other key is `OtherKey`. */
  datatype Key =
    | Space | KeyZ | KeyX | KeyI | KeyC | KeyQ
    | Digit(n: int)
    | Escape | Return | ArrowUp | ArrowDown
    | OtherKey

  /** Direction keys held this frame (arrow keys or WASD). */
  datatype Held = Held(left: bool, right: bool, up: bool, down: bool)

  /** The events of the pygame queue that the game distinguishes. */
  datatype Event = Quit | KeyDown(key: Key)
}
