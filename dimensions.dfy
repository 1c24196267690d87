/** The target-dimension rule of `m5Photo::resizeImage`: given the decoded
    source size and the requested size, the size the image is resized to.
    The source computes `round(tw / (sw / sh))` in floating point; here the
    quotient is exact and rounded half away from zero, as PHP's `round()`
    does. */
module Dimensions {

  /** A width and a height in pixels (a requested size may be any integer). */
  datatype Dims = Dims(width: int, height: int)

  /** `round(n / d)` for an exact quotient; `RoundNearest` states what it is. */
  function RoundQuotient(n: int, d: int): int
    requires d > 0
  {
    if n >= 0 then (2 * n + d) / (2 * d) else -((d - 2 * n) / (2 * d))
  }

  /** `RoundQuotient(n, d)` is the integer nearest to `n / d`, a tie going
      away from zero, and has the sign of `n`. */
  lemma RoundNearest(n: int, d: int)
    requires d > 0
    ensures var r := RoundQuotient(n, d);
            (n >= 0 ==> -d < 2 * (r * d - n) <= d) &&
            (n < 0 ==> -d <= 2 * (r * d - n) < d) &&
            (n >= 0 ==> r >= 0) && (n <= 0 ==> r <= 0)
  {
    var a := if n >= 0 then 2 * n + d else d - 2 * n;
    var q := a / (2 * d);
    DivBounds(a, 2 * d);
    var p := q * d;
    assert (2 * d) * q == 2 * p;
    if n >= 0 {
      assert RoundQuotient(n, d) * d == p;
      if n == 0 {
        SmallQuotient(d, 2 * d);
      }
    } else {
      assert RoundQuotient(n, d) * d == -p;
    }
  }

  /** The quotient of Euclidean division lies in the interval it names. */
  lemma DivBounds(a: int, b: int)
    requires a >= 0 && b > 0
    ensures 0 <= a / b
    ensures b * (a / b) <= a < b * (a / b) + b
  {
  }

  /** A dividend below the divisor has quotient zero. */
  lemma SmallQuotient(a: int, b: int)
    requires 0 <= a < b
    ensures a / b == 0
  {
  }

  /** The rule as `resizeImage` applies it to `resize_to_width` and
      `resize_to_height` once the source is decoded: a landscape source keeps
      the requested width and derives the height from it, a portrait source
      keeps the requested height and derives the width, and a square source
      gets the smaller requested side on both axes. */
  function FitToSource(sw: int, sh: int, tw: int, th: int): (r: Dims)
    requires sw >= 1 && sh >= 1
  {
    if sw > sh then Dims(tw, RoundQuotient(tw * sh, sw))
    else if sh > sw then Dims(RoundQuotient(th * sw, sh), th)
    else if tw > th then Dims(th, th)
    else if tw < th then Dims(tw, tw)
    else Dims(tw, th)
  }

  /** A landscape source keeps the requested width; the height is the
      requested width scaled by the source's aspect ratio, to the nearest
      pixel; the requested height is thrown away. */
  lemma LandscapeRule(sw: int, sh: int, tw: int, th: int, th2: int)
    requires sw > sh >= 1
    ensures FitToSource(sw, sh, tw, th).width == tw
    ensures tw >= 0 ==> -sw < 2 * (FitToSource(sw, sh, tw, th).height * sw - tw * sh) <= sw
    ensures tw < 0 ==> -sw <= 2 * (FitToSource(sw, sh, tw, th).height * sw - tw * sh) < sw
    ensures FitToSource(sw, sh, tw, th2) == FitToSource(sw, sh, tw, th)
  {
    MulSign(tw, sh);
    RoundNearest(tw * sh, sw);
  }

  /** A portrait source keeps the requested height; the width is the
      requested height scaled by the source's aspect ratio, to the nearest
      pixel; the requested width is thrown away. */
  lemma PortraitRule(sw: int, sh: int, tw: int, th: int, tw2: int)
    requires sh > sw >= 1
    ensures FitToSource(sw, sh, tw, th).height == th
    ensures th >= 0 ==> -sh < 2 * (FitToSource(sw, sh, tw, th).width * sh - th * sw) <= sh
    ensures th < 0 ==> -sh <= 2 * (FitToSource(sw, sh, tw, th).width * sh - th * sw) < sh
    ensures FitToSource(sw, sh, tw2, th) == FitToSource(sw, sh, tw, th)
  {
    MulSign(th, sw);
    RoundNearest(th * sw, sh);
  }

  /** A positive factor keeps the sign of a product. */
  lemma MulSign(a: int, b: int)
    requires b >= 1
    ensures a >= 0 <==> a * b >= 0
    ensures a > 0 <==> a * b > 0
  {
    if a < 0 {
      assert a * b == a + a * (b - 1);
    }
  }

  /** A square source yields a square of the smaller requested side; an
      already square request is left as it is. */
  lemma SquareRule(s: int, tw: int, th: int)
    requires s >= 1
    ensures FitToSource(s, s, tw, th) == Dims(Min(tw, th), Min(tw, th))
    ensures tw == th ==> FitToSource(s, s, tw, th) == Dims(tw, th)
  {
  }

  function Min(a: int, b: int): int
  {
    if a <= b then a else b
  }

  /** For a non-negative request the output keeps the source's orientation:
      never taller than wide for a landscape source, never wider than tall
      for a portrait one, and square for a square one. */
  lemma OrientationKept(sw: int, sh: int, tw: int, th: int)
    requires sw >= 1 && sh >= 1 && tw >= 0 && th >= 0
    ensures sw > sh ==> 0 <= FitToSource(sw, sh, tw, th).height <= FitToSource(sw, sh, tw, th).width
    ensures sh > sw ==> 0 <= FitToSource(sw, sh, tw, th).width <= FitToSource(sw, sh, tw, th).height
    ensures sw == sh ==> 0 <= FitToSource(sw, sh, tw, th).width == FitToSource(sw, sh, tw, th).height
  {
    if sw > sh {
      ScaledDown(tw, sh, sw);
    } else if sh > sw {
      ScaledDown(th, sw, sh);
    }
  }

  /** Scaling a non-negative length by a ratio below one and rounding never
      makes it longer. */
  lemma ScaledDown(t: int, small: int, large: int)
    requires t >= 0 && 1 <= small < large
    ensures 0 <= RoundQuotient(t * small, large) <= t
  {
    var n := t * small;
    var m := t * large;
    assert m - n == t * (large - small);
    MulSign(t, large - small);
    MulSign(t, small);
    var r := RoundQuotient(n, large);
    RoundNearest(n, large);
    assert (r - t - 1) * large == r * large - m - large;
    MulSign(r - t - 1, large);
  }

  /** Applying the rule to its own output, for the same source, changes
      nothing. */
  lemma FitIdempotent(sw: int, sh: int, tw: int, th: int)
    requires sw >= 1 && sh >= 1
    ensures var r := FitToSource(sw, sh, tw, th);
            FitToSource(sw, sh, r.width, r.height) == r
  {
  }

  /** 1200x800 requested at 640x640 is resized to 640x427. */
  lemma LandscapeExample()
    ensures FitToSource(1200, 800, 640, 640) == Dims(640, 427)
  {
    assert RoundQuotient(640 * 800, 1200) == 427;
  }

  /** The rule is not a fit-inside-the-box rule: 1200x800 requested at
      640x300 comes out 640x427, taller than the requested height. */
  lemma NotABoundingBox()
    ensures FitToSource(1200, 800, 640, 300) == Dims(640, 427)
    ensures FitToSource(1200, 800, 640, 300).height > 300
  {
    assert RoundQuotient(640 * 800, 1200) == 427;
  }
}
