/**
 * The camera arithmetic shared by the level and the world map: an
 * exponential approach to a target, a clamp to the map's bounds, and the
 * integer offset the drawing code uses. Positions are `real`; the float
 * rounding of the smoothing step is not modelled.
 */
module Cameras {
  /** `camera += (target - camera) * factor`. */
  function Smooth(camera: real, target: real, factor: real): real
  {
    camera + (target - camera) * factor
  }

  /** `max(0, min(c, hi))`: the view never starts left of or above the map, nor runs past its far edge when it fits. */
  function Clamp(c: real, hi: int): (r: real)
    ensures r >= 0.0
    ensures hi >= 0 ==> r <= hi as real
    ensures 0.0 <= c && c <= hi as real ==> r == c
    ensures hi < 0 ==> r == 0.0
    ensures c < 0.0 ==> r == 0.0
    ensures hi >= 0 && c > hi as real ==> r == hi as real
  {
    var m := if c < hi as real then c else hi as real;
    if m > 0.0 then m else 0.0
  }

  /** `int(camera)`: for the non-negative positions the clamp produces, the floor. */
  function Offset(camera: real): (k: int)
    requires camera >= 0.0
    ensures k >= 0 && k as real <= camera < (k + 1) as real
  {
    camera.Floor
  }
}
