/**
 * The fit-and-centre arithmetic of the poster service's `/process` handler.
 *
 * An uploaded image of `w` x `h` pixels is scaled by the smaller of the two
 * ratios target/source, so that it fits inside the target canvas while keeping
 * its aspect ratio; the scaled size is rounded with JavaScript's `Math.round`,
 * and the scaled image is placed at the offset that centres it, rounded down
 * with `Math.floor`. The handler fixes the canvas at 1000 x 700.
 *
 * Arithmetic is exact: the divisions and the scale are `real`s, not IEEE
 * doubles.
 */
module Fit {

  /** Canvas width the handler uses. */
  const TargetWidth: nat := 1000
  /** Canvas height the handler uses. */
  const TargetHeight: nat := 700

  /** Width and height of an image, in pixels. */
  datatype Size = Size(width: int, height: int)

  /** Size of the scaled image and the offset of its top-left corner on the canvas. */
  datatype Placement = Placement(size: Size, x: int, y: int)

  /** Absolute value of an integer. */
  function Abs(n: int): (r: nat)
    ensures r == n || r == -n
  {
    if n < 0 then -n else n
  }

  /** The larger of two integers. */
  function Max(a: int, b: int): (m: int)
    ensures a <= m && b <= m
    ensures m == a || m == b
  {
    if a < b then b else a
  }

  /** JavaScript `Math.floor`: the greatest integer not above `v`. */
  function Floor(v: real): (r: int)
    ensures r as real <= v < r as real + 1.0
  {
    v.Floor
  }

  /**
   * JavaScript `Math.round`: halves go up, so the result is the one integer in
   * the half-open interval (v - 1/2, v + 1/2].
   */
  function Round(v: real): (r: int)
    ensures v - 0.5 < r as real <= v + 0.5
  {
    Floor(v + 0.5)
  }

  /** JavaScript `Math.min` on two numbers. */
  function Min(a: real, b: real): (m: real)
    ensures m <= a && m <= b
    ensures m == a || m == b
  {
    if a <= b then a else b
  }

  /**
   * The scale factor: the smaller of the two ratios target/source. Scaling
   * by it keeps both sides within the canvas, and it is one of the two ratios,
   * so one side fills its dimension exactly.
   */
  function Scale(w: int, h: int, tw: nat, th: nat): (s: real)
    requires w > 0 && h > 0
    ensures s >= 0.0
    ensures w as real * s <= tw as real && h as real * s <= th as real
    ensures s == tw as real / w as real || s == th as real / h as real
  {
    var sw := tw as real / w as real;
    var sh := th as real / h as real;
    assert w as real * sw == tw as real;
    assert h as real * sh == th as real;
    Min(sw, sh)
  }

  /** Rounding a value that is at most an integer gives at most that integer. */
  lemma RoundAtMost(v: real, n: int)
    requires v <= n as real
    ensures Round(v) <= n
  {
  }

  /** Rounding a value that is at least an integer gives at least that integer. */
  lemma RoundAtLeast(v: real, n: int)
    requires n as real <= v
    ensures n <= Round(v)
  {
  }

  /** Rounding an integer gives that integer back. */
  lemma RoundOfInt(n: int)
    ensures Round(n as real) == n
  {
  }

  /**
   * The margin `t - size` is split in two, the left (top) half rounded down:
   * the offset is non-negative, the image ends inside the canvas, and the far
   * margin equals the near one or exceeds it by one pixel.
   */
  function CentreOffset(t: int, size: int): (off: int)
    requires 0 <= size <= t
    ensures 0 <= off && off + size <= t
    ensures t - size - off == off || t - size - off == off + 1
  {
    Floor((t - size) as real / 2.0)
  }

  /**
   * The size the source is resized to: each side multiplied by the scale and
   * rounded. Both sides stay within the canvas.
   */
  function ScaledSize(w: int, h: int, tw: nat, th: nat): (sz: Size)
    requires w > 0 && h > 0
    ensures 0 <= sz.width <= tw && 0 <= sz.height <= th
  {
    var s := Scale(w, h, tw, th);
    RoundAtMost(w as real * s, tw);
    RoundAtMost(h as real * s, th);
    Size(Round(w as real * s), Round(h as real * s))
  }

  /**
   * The whole computation for a source of `w` x `h` pixels and a canvas of
   * `tw` x `th`: the scaled image fits inside the canvas, and the offsets
   * centre it to within one pixel.
   */
  function FitAndCenter(w: int, h: int, tw: nat, th: nat): (p: Placement)
    requires w > 0 && h > 0
    ensures p.size == ScaledSize(w, h, tw, th)
    ensures 0 <= p.x && p.x + p.size.width <= tw
    ensures 0 <= p.y && p.y + p.size.height <= th
    ensures tw - p.size.width - p.x == p.x || tw - p.size.width - p.x == p.x + 1
    ensures th - p.size.height - p.y == p.y || th - p.size.height - p.y == p.y + 1
  {
    var sz := ScaledSize(w, h, tw, th);
    Placement(sz, CentreOffset(tw, sz.width), CentreOffset(th, sz.height))
  }

  /**
   * The handler's instance: a 1000 x 700 canvas. The image always touches the
   * canvas on one side, and its offset on that side is zero.
   */
  function Process(w: int, h: int): (p: Placement)
    requires w > 0 && h > 0
    ensures 0 <= p.size.width <= TargetWidth && 0 <= p.size.height <= TargetHeight
    ensures (p.size.width == TargetWidth && p.x == 0) || (p.size.height == TargetHeight && p.y == 0)
    ensures 0 <= p.x <= TargetWidth / 2 && 0 <= p.y <= TargetHeight / 2
  {
    FitTouchesCanvas(w, h, TargetWidth, TargetHeight);
    FitAndCenter(w, h, TargetWidth, TargetHeight)
  }

  /**
   * No larger factor keeps both sides inside the canvas: the scale is the
   * largest that fits.
   */
  lemma ScaleIsLargest(w: int, h: int, tw: nat, th: nat, t: real)
    requires w > 0 && h > 0
    requires w as real * t <= tw as real && h as real * t <= th as real
    ensures t <= Scale(w, h, tw, th)
  {
    var s := Scale(w, h, tw, th);
    if s == tw as real / w as real {
      assert w as real * s == tw as real;
      assert w as real * t <= w as real * s;
    } else {
      assert h as real * s == th as real;
      assert h as real * t <= h as real * s;
    }
  }

  /**
   * At least one side fills the canvas exactly: the width when the width
   * ratio is the smaller one, the height otherwise.
   */
  lemma SizeTouchesCanvas(w: int, h: int, tw: nat, th: nat)
    requires w > 0 && h > 0
    ensures var sz := ScaledSize(w, h, tw, th);
      if tw as real / w as real <= th as real / h as real
      then sz.width == tw
      else sz.height == th
  {
    var s := Scale(w, h, tw, th);
    if tw as real / w as real <= th as real / h as real {
      assert w as real * s == tw as real;
      RoundOfInt(tw);
    } else {
      assert h as real * s == th as real;
      RoundOfInt(th);
    }
  }

  /**
   * The placed image spans the canvas on the side that touches it, so its
   * offset on that side is zero.
   */
  lemma FitTouchesCanvas(w: int, h: int, tw: nat, th: nat)
    requires w > 0 && h > 0
    ensures var p := FitAndCenter(w, h, tw, th);
      if tw as real / w as real <= th as real / h as real
      then p.size.width == tw && p.x == 0
      else p.size.height == th && p.y == 0
  {
    SizeTouchesCanvas(w, h, tw, th);
  }

  /**
   * The aspect ratio survives up to rounding:
   * |newWidth * h - newHeight * w| <= (w + h) / 2 <= max(w, h).
   */
  lemma AspectPreserved(w: int, h: int, tw: nat, th: nat)
    requires w > 0 && h > 0
    ensures var sz := ScaledSize(w, h, tw, th);
      2 * Abs(sz.width * h - sz.height * w) <= w + h
    ensures var sz := ScaledSize(w, h, tw, th);
      Abs(sz.width * h - sz.height * w) <= Max(w, h)
  {
    var s := Scale(w, h, tw, th);
    var sz := ScaledSize(w, h, tw, th);
    CrossError(w, h, s, sz.width, sz.height);
    assert 2 * Abs(sz.width * h - sz.height * w) <= 2 * Max(w, h);
  }

  /** The integer form of RoundingCrossError. */
  lemma CrossError(w: int, h: int, s: real, nw: int, nh: int)
    requires w > 0 && h > 0
    requires w as real * s - 0.5 < nw as real <= w as real * s + 0.5
    requires h as real * s - 0.5 < nh as real <= h as real * s + 0.5
    ensures 2 * Abs(nw * h - nh * w) <= w + h
  {
    RoundingCrossError(w as real, h as real, s, nw as real, nh as real);
    MulAsReal(nw, h);
    MulAsReal(nh, w);
  }

  /** Converting a product to `real` is the product of the conversions. */
  lemma MulAsReal(a: int, b: int)
    ensures (a * b) as real == a as real * b as real
  {
  }

  /**
   * If `nw` and `nh` are `w * s` and `h * s` each rounded to within half a
   * unit, then `nw * h - nh * w` is within `(w + h) / 2` of zero.
   */
  lemma RoundingCrossError(w: real, h: real, s: real, nw: real, nh: real)
    requires w > 0.0 && h > 0.0
    requires w * s - 0.5 < nw <= w * s + 0.5
    requires h * s - 0.5 < nh <= h * s + 0.5
    ensures -(w + h) <= 2.0 * (nw * h - nh * w) <= w + h
  {
    var ew := nw - w * s;
    var eh := nh - h * s;
    calc {
      nw * h - nh * w;
      (w * s + ew) * h - (h * s + eh) * w;
      ew * h - eh * w;
    }
    HalfBound(ew, h);
    HalfBound(eh, w);
  }

  /** An error within half a unit, times a positive length, is within half that length. */
  lemma HalfBound(e: real, n: real)
    requires -0.5 < e <= 0.5 && n > 0.0
    ensures -n / 2.0 < e * n <= n / 2.0
  {
    assert e * n <= 0.5 * n;
    assert -0.5 * n < e * n;
  }

  /**
   * The scale is not capped at 1: a source no larger than the canvas is
   * enlarged, never shrunk.
   */
  lemma SmallSourceEnlarged(w: int, h: int, tw: nat, th: nat)
    requires 0 < w <= tw && 0 < h <= th
    ensures Scale(w, h, tw, th) >= 1.0
    ensures var sz := ScaledSize(w, h, tw, th); sz.width >= w && sz.height >= h
  {
    var s := Scale(w, h, tw, th);
    assert s >= 1.0 by {
      assert w as real * 1.0 <= tw as real && h as real * 1.0 <= th as real;
      ScaleIsLargest(w, h, tw, th, 1.0);
    }
    var sz := ScaledSize(w, h, tw, th);
    assert sz.width >= w by { EnlargedSide(w, s); }
    assert sz.height >= h by { EnlargedSide(h, s); }
  }

  /** A side scaled by at least 1 rounds to at least its original length. */
  lemma EnlargedSide(n: int, s: real)
    requires n > 0 && s >= 1.0
    ensures n <= Round(n as real * s)
  {
    assert n as real * s >= n as real * 1.0;
    RoundAtLeast(n as real * s, n);
  }

  /** A 1 x 1 source is scaled by 700 to 700 x 700 and placed at (150, 0). */
  lemma OnePixelSource()
    ensures Scale(1, 1, TargetWidth, TargetHeight) == 700.0
    ensures Process(1, 1) == Placement(Size(700, 700), 150, 0)
  {
    RoundOfInt(700);
  }

  /** A 2000 x 1000 source is halved to 1000 x 500 and placed at (0, 100). */
  lemma WideSource()
    ensures Scale(2000, 1000, TargetWidth, TargetHeight) == 0.5
    ensures Process(2000, 1000) == Placement(Size(1000, 500), 0, 100)
  {
    RoundOfInt(1000);
    RoundOfInt(500);
  }

  /**
   * Nothing keeps a side from rounding to zero: a 10000 x 1 source is scaled
   * by 1/10, and its height of 0.1 rounds to 0.
   */
  lemma ThinSourceLosesHeight()
    ensures Process(10000, 1) == Placement(Size(1000, 0), 0, 350)
  {
    var s := Scale(10000, 1, TargetWidth, TargetHeight);
    assert s == 0.1;
    RoundOfInt(1000);
    assert Round(0.1) == 0;
  }
}
