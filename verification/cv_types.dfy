/**
 * The small OpenCV value types the core uses: integer and float points,
 * the 3-channel colour of a pixel, the rectangle test used for bounds
 * checks, the float-to-int conversion and the uniform draws of `cv::RNG`.
 */
module CvTypes {

  /** `cv::Point`: integer pixel coordinates. */
  datatype Point = Point(x: int, y: int)

  /** `cv::Point2f`: real-valued coordinates. */
  datatype Point2f = Point2f(x: real, y: real)

  /** A `cv::Vec3b` pixel or colour in blue, green, red order; channels are exact reals. */
  datatype Bgr = Bgr(b: real, g: real, r: real)

  /** `cv::Rect`: the half-open box [x, x + width) x [y, y + height). */
  datatype Rect = Rect(x: int, y: int, width: int, height: int) {
    /** `Rect::contains`. */
    predicate Contains(p: Point) {
      x <= p.x < x + width && y <= p.y < y + height
    }
  }

  /** C++ conversion of a float to an int: the fractional part is dropped (rounds toward zero). */
  function Trunc(v: real): (n: int)
    ensures 0.0 <= v ==> n as real <= v < n as real + 1.0
    ensures v < 0.0 ==> n as real - 1.0 < v <= n as real
  {
    if v >= 0.0 then v.Floor else -((-v).Floor)
  }

  /** Converting a `Point2f` to a `Point` truncates each coordinate. */
  function TruncPoint(p: Point2f): Point {
    Point(Trunc(p.x), Trunc(p.y))
  }

  /**
   * `RNG::uniform(float a, float b)`, given the fraction `u` in [0, 1) that
   * the generator produced for this draw.
   */
  function UniformReal(a: real, b: real, u: real): real {
    a + FractionOf(b - a, u)
  }

  /**
   * `RNG::uniform(int a, int b)`, given the fraction `u` in [0, 1) that the
   * generator produced for this draw.
   */
  function UniformInt(a: int, b: int, u: real): int {
    a + FractionOf((b - a) as real, u).Floor
  }

  /** The part `t` of a width `w`. */
  function FractionOf(w: real, t: real): real {
    w * t
  }

  /** A float draw lies in the half-open range [a, b) it was asked for. */
  lemma UniformRealInRange(a: real, b: real, u: real)
    requires a < b && 0.0 <= u < 1.0
    ensures a <= UniformReal(a, b, u) < b
  {
    FractionOfWidth(b - a, u);
  }

  /** An integer draw lies in the half-open range [a, b) it was asked for. */
  lemma UniformIntInRange(a: int, b: int, u: real)
    requires a < b && 0.0 <= u < 1.0
    ensures a <= UniformInt(a, b, u) < b
  {
    FractionOfWidth((b - a) as real, u);
  }

  /** Alpha compositing `background * (1 - alpha) + colour * alpha`, channel by channel. */
  function Blend(background: Bgr, colour: Bgr, alpha: real): Bgr {
    Bgr(Mix(background.b, colour.b, alpha),
        Mix(background.g, colour.g, alpha),
        Mix(background.r, colour.r, alpha))
  }

  function Mix(a: real, b: real, t: real): real {
    a * (1.0 - t) + b * t
  }

  /** `v` lies between `a` and `b`, whichever is larger. */
  predicate Between(v: real, a: real, b: real) {
    (a <= v <= b) || (b <= v <= a)
  }

  /**
   * With an opacity in [0, 1] the blend is a convex combination: every
   * channel ends between the background and the colour, an opacity of 0
   * keeps the background and an opacity of 1 gives the colour.
   */
  lemma BlendIsConvex(background: Bgr, colour: Bgr, alpha: real)
    requires 0.0 <= alpha <= 1.0
    ensures var p := Blend(background, colour, alpha);
      && Between(p.b, background.b, colour.b)
      && Between(p.g, background.g, colour.g)
      && Between(p.r, background.r, colour.r)
      && (alpha == 0.0 ==> p == background)
      && (alpha == 1.0 ==> p == colour)
  {
    MixBetween(background.b, colour.b, alpha);
    MixBetween(background.g, colour.g, alpha);
    MixBetween(background.r, colour.r, alpha);
  }

  lemma MixBetween(a: real, b: real, t: real)
    requires 0.0 <= t <= 1.0
    ensures Between(Mix(a, b, t), a, b)
  {
    assert Mix(a, b, t) == a + (b - a) * t;
    if a <= b {
      ProductBounds(b - a, t);
    } else {
      ProductBounds(a - b, t);
      assert (b - a) * t == -((a - b) * t);
    }
  }

  /** A fraction in [0, 1) of a positive width is at least 0 and below the width. */
  lemma FractionOfWidth(w: real, t: real)
    requires w > 0.0 && 0.0 <= t < 1.0
    ensures 0.0 <= FractionOf(w, t) < w
  {
    assert w - w * t == w * (1.0 - t);
    assert w * (1.0 - t) > 0.0;
  }

  lemma ProductBounds(w: real, t: real)
    requires w >= 0.0 && 0.0 <= t <= 1.0
    ensures 0.0 <= w * t <= w
  {
    assert w - w * t == w * (1.0 - t);
    assert w * (1.0 - t) >= 0.0;
  }
}
