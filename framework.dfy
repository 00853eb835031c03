/**
 * The few openFrameworks facilities the prototype leans on, stated as values:
 * the random generator becomes an explicit stream of raw draws, and the math
 * helpers ofRandom, ofClamp and ofMap become functions over `real`.
 * Floating-point rounding is not modelled.
 */
module Framework {

  /** The raw draws of the random generator, in the order they are taken. */
  type Draws = nat -> real

  /** Every raw draw of the generator lies in [0, 1). */
  ghost predicate IsUnitStream(d: Draws)
  {
    forall i: nat :: 0.0 <= d(i) < 1.0
  }

  /** An RGBA colour as ofColor holds it. */
  datatype Color = Color(r: int, g: int, b: int, a: int)

  /** ofColor(r, g, b): an opaque colour. */
  function Rgb(r: int, g: int, b: int): (c: Color)
    ensures c.a == 255 && c.r == r && c.g == g && c.b == b
  {
    Color(r, g, b, 255)
  }

  /** Every channel fits in an unsigned byte, as ofColor stores it. */
  predicate IsByteColor(c: Color)
  {
    0 <= c.r <= 255 && 0 <= c.g <= 255 && 0 <= c.b <= 255 && 0 <= c.a <= 255
  }

  lemma ProductSign(a: real, b: real)
    requires 0.0 <= a && 0.0 <= b
    ensures 0.0 <= a * b
    ensures 0.0 < a && 0.0 < b ==> 0.0 < a * b
  {
  }

  lemma ScaledDrawBounds(u: real, lo: real, hi: real)
    requires 0.0 <= u < 1.0 && lo <= hi
    ensures 0.0 <= (hi - lo) * u <= hi - lo
    ensures lo < hi ==> (hi - lo) * u < hi - lo
  {
    var span, rest := hi - lo, 1.0 - u;
    ProductSign(span, u);
    ProductSign(span, rest);
    assert span * u + span * rest == span;
  }

  /**
   * ofRandom(lo, hi) for the raw draw `u`: a value in [lo, hi) whenever the
   * draw is a unit draw and the range is not empty; ofRandom(max) is
   * Uniform(u, 0.0, max).
   */
  function Uniform(u: real, lo: real, hi: real): (r: real)
    ensures 0.0 <= u < 1.0 && lo <= hi ==> lo <= r <= hi
    ensures 0.0 <= u < 1.0 && lo < hi ==> r < hi
  {
    if 0.0 <= u < 1.0 && lo <= hi then ScaledDrawBounds(u, lo, hi); lo + (hi - lo) * u
    else lo + (hi - lo) * u
  }

  /** ofClamp(v, lo, hi): lo below the range, hi above it, v inside it. */
  function Clamp(v: real, lo: real, hi: real): (r: real)
    ensures lo <= hi ==> lo <= r <= hi
    ensures lo <= v <= hi ==> r == v
    ensures v < lo ==> r == lo
    ensures lo <= v && hi < v ==> r == hi
  {
    if v < lo then lo else if v > hi then hi else v
  }

  /** ofClamp applied to a whole number: the same three cases over `int`. */
  function ClampInt(v: int, lo: int, hi: int): (r: int)
    ensures lo <= hi ==> lo <= r <= hi
    ensures lo <= v <= hi ==> r == v
    ensures v < lo ==> r == lo
    ensures lo <= v && hi < v ==> r == hi
  {
    if v < lo then lo else if v > hi then hi else v
  }

  /**
   * ofMap(value, inMin, inMax, outMin, outMax, clamp): the linear map taking
   * inMin to outMin and inMax to outMax, clamped to the output range when
   * `clamp` is set; an empty input range yields outMin.
   */
  function MapRange(value: real, inMin: real, inMax: real, outMin: real, outMax: real, clamp: bool): (r: real)
    ensures inMin == inMax ==> r == outMin
    ensures inMin != inMax && clamp && outMin <= outMax ==> outMin <= r <= outMax
    ensures inMin != inMax && clamp && outMax < outMin ==> outMax <= r <= outMin
    ensures inMin != inMax && !clamp ==> (r - outMin) * (inMax - inMin) == (value - inMin) * (outMax - outMin)
  {
    if inMin == inMax then outMin
    else
      var out := (value - inMin) / (inMax - inMin) * (outMax - outMin) + outMin;
      if !clamp then out
      else if outMax < outMin then
        (if out < outMax then outMax else if out > outMin then outMin else out)
      else
        (if out > outMax then outMax else if out < outMin then outMin else out)
  }
}
