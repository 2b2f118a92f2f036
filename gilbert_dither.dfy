/** The error-diffusion ditherer of GilbertCurve.cpp: it walks the image along
    the gilbert curve and quantizes each pixel after adding to it the weighted
    residuals of the last nine pixels it quantized. */
module GilbertDither {
  import opened Colors
  import opened GilbertCurve

  /** Length of the residual queue `errorq`. */
  const DITHER_MAX: nat := 9

  /** An ErrorBox: four float channels, in the order R, G, B, A. */
  type ErrorBox = s: seq<real> | |s| == 4 witness [0.0, 0.0, 0.0, 0.0]

  const ZeroBox: ErrorBox := [0.0, 0.0, 0.0, 0.0]

  /** `ErrorBox(const Color&)`. */
  function BoxOf(c: Color): ErrorBox
  {
    [c.r as real, c.g as real, c.b as real, c.a as real]
  }

  /** One step of the correction loop: `error[j] += eb[j] * weight`. */
  function AddScaled(e: ErrorBox, eb: ErrorBox, weight: real): ErrorBox
  {
    seq(4, j requires 0 <= j < 4 => e[j] + eb[j] * weight)
  }

  /** The pixel plus the first n queued residuals, each times its weight. */
  function Corrected(pixel: Color, q: seq<ErrorBox>, weights: seq<real>, n: nat): ErrorBox
    requires n <= |q| && n <= |weights|
  {
    if n == 0 then BoxOf(pixel)
    else AddScaled(Corrected(pixel, q, weights, n - 1), q[n - 1], weights[n - 1])
  }

  /** The corrected channels clamped to 0..255, packed as `MakeARGB(a, r, g, b)`. */
  function ClampColor(e: ErrorBox): Color
  {
    Color(ClampByte(e[3]), ClampByte(e[0]), ClampByte(e[1]), ClampByte(e[2]))
  }

  /** The clamped colour minus the palette colour chosen for it. */
  function Residual(c1: Color, c2: Color): ErrorBox
  {
    [(c1.r - c2.r) as real, (c1.g - c2.g) as real, (c1.b - c2.b) as real, (c1.a - c2.a) as real]
  }

  function RAbs(v: real): real
  {
    if v < 0.0 then -v else v
  }

  /** A residual channel of magnitude 9 or more is divided by 3. */
  function ShrinkChannel(v: real): real
  {
    if RAbs(v) < DITHER_MAX as real then v else v / 3.0
  }

  function Shrunk(e: ErrorBox): ErrorBox
  {
    seq(4, j requires 0 <= j < 4 => ShrinkChannel(e[j]))
  }

  /** The residual that enters the queue: shrunk only for palettes of more than
      16 colours. */
  function NewResidual(c1: Color, c2: Color, count: nat): ErrorBox
  {
    if count > 16 then Shrunk(Residual(c1, c2)) else Residual(c1, c2)
  }

  /** The weighted sum of `ditherPixel`, component by component. */
  method Correct(pixel: Color, q: seq<ErrorBox>, weights: seq<real>) returns (e: ErrorBox)
    requires |q| == DITHER_MAX && |weights| == DITHER_MAX
    ensures e == Corrected(pixel, q, weights, DITHER_MAX)
  {
    e := BoxOf(pixel);
    for c := 0 to DITHER_MAX
      invariant e == Corrected(pixel, q, weights, c)
    {
      e := AddScaled(e, q[c], weights[c]);
    }
  }

  /** The channel loop that shrinks large residuals. */
  method ShrinkBox(e: ErrorBox) returns (r: ErrorBox)
    ensures r == Shrunk(e)
  {
    r := e;
    for j := 0 to 4
      invariant forall k :: 0 <= k < j ==> r[k] == ShrinkChannel(e[k])
      invariant forall k :: j <= k < 4 ==> r[k] == e[k]
    {
      if RAbs(r[j]) < DITHER_MAX as real {
        continue;
      }
      r := r[j := r[j] / 3.0];
    }
    assert forall k :: 0 <= k < 4 ==> r[k] == Shrunk(e)[k];
  }

  lemma {:induction false} CorrectedNoError(pixel: Color, q: seq<ErrorBox>, weights: seq<real>, n: nat)
    requires n <= |q| && n <= |weights|
    requires forall k :: 0 <= k < n ==> q[k] == ZeroBox
    ensures Corrected(pixel, q, weights, n) == BoxOf(pixel)
  {
    if n > 0 {
      CorrectedNoError(pixel, q, weights, n - 1);
      assert forall j :: 0 <= j < 4 ==> Corrected(pixel, q, weights, n)[j] == BoxOf(pixel)[j];
    }
  }

  /** While the queue holds only empty residuals, as right after setup, a pixel
      reaches the palette lookup unchanged. */
  lemma {:induction false} FirstPixelUnchanged(pixel: Color, q: seq<ErrorBox>, weights: seq<real>)
    requires |q| == DITHER_MAX && |weights| == DITHER_MAX
    requires forall k :: 0 <= k < DITHER_MAX ==> q[k] == ZeroBox
    ensures ClampColor(Corrected(pixel, q, weights, DITHER_MAX)) == pixel
  {
    CorrectedNoError(pixel, q, weights, DITHER_MAX);
  }

  /** A queued residual never exceeds 255 in magnitude, and never 85 once the
      palette has more than 16 colours; a small channel is kept as it is. */
  lemma {:induction false} ResidualBound(c1: Color, c2: Color, count: nat, j: nat)
    requires j < 4
    ensures -255.0 <= NewResidual(c1, c2, count)[j] <= 255.0
    ensures count > 16 ==> -85.0 <= NewResidual(c1, c2, count)[j] <= 85.0
    ensures RAbs(Residual(c1, c2)[j]) < 9.0 ==> NewResidual(c1, c2, count)[j] == Residual(c1, c2)[j]
  {
  }

  /** Every pixel of s lies in the width x height image. */
  ghost predicate Inside(width: int, height: int, s: seq<Point>)
  {
    forall p :: p in s ==> InGrid(width, height, p)
  }

  lemma {:induction false} InsideConcat(width: int, height: int, s: seq<Point>, t: seq<Point>)
    requires Inside(width, height, s + t)
    ensures Inside(width, height, s) && Inside(width, height, t)
  {
    assert forall p :: p in s ==> p in s + t;
    assert forall p :: p in t ==> p in s + t;
  }

  lemma {:induction false} ConcatTwo(v0: seq<Point>, c1: seq<Point>, c2: seq<Point>, v1: seq<Point>, v2: seq<Point>)
    requires v1 == v0 + c1 && v2 == v1 + c2
    ensures v2 == v0 + (c1 + c2)
  {
  }

  lemma {:induction false} ConcatThree(v0: seq<Point>, c1: seq<Point>, c2: seq<Point>, c3: seq<Point>,
                    v1: seq<Point>, v2: seq<Point>, v3: seq<Point>)
    requires v1 == v0 + c1 && v2 == v1 + c2 && v3 == v2 + c3
    ensures v3 == v0 + (c1 + c2 + c3)
  {
  }

  /** The state `GilbertCurve::dither` keeps in module globals while it walks
      the curve. The palette lookup `ditherFn` and the slot function
      `getColorIndexFn` are parameters: any lookup that returns an index below
      `Count` and any slot function into 0..65535. */
  class Ditherer {
    const width: nat
    const height: nat
    const image: seq<Color>
    const palette: seq<Color>
    const ditherFn: Color -> int
    const getColorIndex: Color -> Slot
    const weights: seq<real>
    const qPixels: array<int>
    /** `m_lookup`: 0 for an empty slot, otherwise the palette index plus 1. */
    const lookup: array<int>
    var errorq: seq<ErrorBox>
    /** The pixels handed to `ditherPixel` so far, in order. */
    ghost var visited: seq<Point>

    ghost predicate Valid()
      reads this, qPixels, lookup
    {
      && |image| == width * height && qPixels.Length == width * height
      && lookup.Length == 65536 && qPixels != lookup
      && |weights| == DITHER_MAX && |errorq| == DITHER_MAX
      && |palette| >= 1
      && (forall c :: 0 <= ditherFn(c) < |palette|)
      && (forall i :: 0 <= i < lookup.Length ==> 0 <= lookup[i] <= |palette|)
      && (forall p :: p in visited ==>
            && InGrid(width, height, p)
            && 0 <= PixelIndex(width, p.x, p.y) < qPixels.Length
            && 0 <= qPixels[PixelIndex(width, p.x, p.y)] < |palette|)
    }

    /** The setup part of `GilbertCurve::dither`: the globals are set, the
        lookup table is zero-filled and `errorq` holds nine empty boxes. The
        weight series is given. */
    constructor (width: nat, height: nat, image: seq<Color>, palette: seq<Color>,
                 ditherFn: Color -> int, getColorIndex: Color -> Slot,
                 qPixels: array<int>, weights: seq<real>)
      requires |image| == width * height && qPixels.Length == width * height
      requires |palette| >= 1 && forall c :: 0 <= ditherFn(c) < |palette|
      requires |weights| == DITHER_MAX
      ensures Valid() && fresh(lookup)
      ensures this.width == width && this.height == height && this.image == image
      ensures this.palette == palette && this.ditherFn == ditherFn
      ensures this.getColorIndex == getColorIndex && this.weights == weights
      ensures this.qPixels == qPixels
      ensures errorq == seq(DITHER_MAX, _ => ZeroBox)
      ensures forall i :: 0 <= i < lookup.Length ==> lookup[i] == 0
      ensures visited == []
    {
      this.width := width;
      this.height := height;
      this.image := image;
      this.palette := palette;
      this.ditherFn := ditherFn;
      this.getColorIndex := getColorIndex;
      this.qPixels := qPixels;
      this.weights := weights;
      lookup := new int[65536](_ => 0);
      errorq := seq(DITHER_MAX, _ => ZeroBox);
      visited := [];
    }

    /** The palette index `ditherPixel` stores for the clamped colour c1:
        for palettes under 64 colours through the lookup memo, which is
        filled on first use of a slot, otherwise straight from `ditherFn`. */
    method Resolve(c1: Color) returns (k: int)
      requires Valid()
      modifies lookup
      ensures Valid()
      ensures 0 <= k < |palette|
      ensures var slot := getColorIndex(c1);
        && (|palette| < 64 ==>
              && lookup[slot] == (if old(lookup[slot]) != 0 then old(lookup[slot]) else ditherFn(c1) + 1)
              && k == lookup[slot] - 1
              && (forall i :: 0 <= i < lookup.Length && i != slot ==> lookup[i] == old(lookup[i])))
        && (|palette| >= 64 ==> k == ditherFn(c1) && lookup[..] == old(lookup[..]))
    {
      if |palette| < 64 {
        var offset := getColorIndex(c1);
        if lookup[offset] == 0 {
          lookup[offset] := ditherFn(c1) + 1;
        }
        k := lookup[offset] - 1;
      } else {
        k := ditherFn(c1);
      }
    }

    /** `ditherPixel(x, y)`: corrects the pixel, clamps it, resolves it to a
        palette index (through the lookup memo for palettes under 64 colours),
        writes that index to the output and pushes the new residual. */
    method DitherPixel(x: int, y: int)
      requires Valid() && InGrid(width, height, Point(x, y))
      modifies this`errorq, this`visited, qPixels, lookup
      ensures Valid()
      ensures visited == old(visited) + [Point(x, y)]
      ensures 0 <= PixelIndex(width, x, y) < qPixels.Length
      ensures var c1 := ClampColor(Corrected(image[PixelIndex(width, x, y)], old(errorq), weights, DITHER_MAX));
        var slot, k := getColorIndex(c1), qPixels[PixelIndex(width, x, y)];
        && (|palette| < 64 ==>
              && lookup[slot] == (if old(lookup[slot]) != 0 then old(lookup[slot]) else ditherFn(c1) + 1)
              && k == lookup[slot] - 1
              && (forall i :: 0 <= i < lookup.Length && i != slot ==> lookup[i] == old(lookup[i])))
        && (|palette| >= 64 ==> k == ditherFn(c1) && lookup[..] == old(lookup[..]))
        && 0 <= k < |palette|
        && errorq == old(errorq)[1..] + [NewResidual(c1, palette[k], |palette|)]
      ensures forall i :: 0 <= i < qPixels.Length && i != PixelIndex(width, x, y) ==> qPixels[i] == old(qPixels[i])
    {
      PixelIndexInRange(width, height, x, y);
      var bidx := PixelIndex(width, x, y);
      var pixel := image[bidx];
      var error := Correct(pixel, errorq, weights);
      var c1 := ClampColor(error);
      var k := Resolve(c1);
      qPixels[bidx] := k;
      errorq := errorq[1..];
      var c2 := palette[qPixels[bidx]];
      var residual := Residual(c1, c2);
      if |palette| > 16 {
        residual := ShrinkBox(residual);
      }
      errorq := errorq + [residual];
      visited := visited + [Point(x, y)];
    }

    /** `generate2d`: hands the pixels of the frame to `ditherPixel` in curve
        order. The two recursive branches are the methods SplitTwoWays and
        SplitThreeWays; there the corners and axes of the sub-frames are named
        locals, where the source passes them as expressions. */
    method Generate2d(x: int, y: int, aX: int, aY: int, bX: int, bY: int)
      requires Valid() && Aligned(aX, aY, bX, bY)
      requires Inside(width, height, Path(x, y, aX, aY, bX, bY))
      modifies this`errorq, this`visited, qPixels, lookup
      ensures Valid()
      ensures visited == old(visited) + Path(x, y, aX, aY, bX, bY)
      ensures forall i :: 0 <= i < lookup.Length && old(lookup[i]) != 0 ==> lookup[i] == old(lookup[i])
      decreases Width(aX, aY) + Height(bX, bY), 2
    {
      var w, h := Abs(aX + aY), Abs(bX + bY);
      BaseLines(x, y, aX, aY, bX, bY);
      if h == 1 {
        Walk(x, y, Sign(aX), Sign(aY), w, Path(x, y, aX, aY, bX, bY));
      } else if w == 1 {
        Walk(x, y, Sign(bX), Sign(bY), h, Path(x, y, aX, aY, bX, bY));
      } else if 2 * w > 3 * h {
        SplitTwoWays(x, y, aX, aY, bX, bY);
      } else {
        SplitThreeWays(x, y, aX, aY, bX, bY);
      }
    }

    /** The 2-way branch of `generate2d`: the major axis is halved (and the
        half made even when the axis is longer than 2), and each half is
        traversed in turn. */
    method SplitTwoWays(x: int, y: int, aX: int, aY: int, bX: int, bY: int)
      requires Valid() && Aligned(aX, aY, bX, bY)
      requires Width(aX, aY) >= 2 && Height(bX, bY) >= 2 && 2 * Width(aX, aY) > 3 * Height(bX, bY)
      requires Inside(width, height, Path(x, y, aX, aY, bX, bY))
      modifies this`errorq, this`visited, qPixels, lookup
      ensures Valid()
      ensures visited == old(visited) + Path(x, y, aX, aY, bX, bY)
      ensures forall i :: 0 <= i < lookup.Length && old(lookup[i]) != 0 ==> lookup[i] == old(lookup[i])
      decreases Width(aX, aY) + Height(bX, bY), 1
    {
      var w := Abs(aX + aY);
      var aX2, aY2 := Half(aX), Half(aY);
      var w2 := Abs(aX2 + aY2);
      if w2 % 2 != 0 && w > 2 {
        aX2, aY2 := aX2 + Sign(aX), aY2 + Sign(aY);
      }
      var x2, y2, rX, rY := x + aX2, y + aY2, aX - aX2, aY - aY2;
      TwoSplitAt(x, y, aX, aY, bX, bY, aX2, aY2, x2, y2, rX, rY);
      ghost var v0 := visited;
      ghost var c1, c2 := Path(x, y, aX2, aY2, bX, bY), Path(x2, y2, rX, rY, bX, bY);
      InsideConcat(width, height, c1, c2);
      Generate2d(x, y, aX2, aY2, bX, bY);
      ghost var v1 := visited;
      Generate2d(x2, y2, rX, rY, bX, bY);
      ConcatTwo(v0, c1, c2, v1, visited);
    }

    /** The 3-way branch of `generate2d`: up the first (evened) half of the
        minor axis, across the rest of the frame, and back down to the far
        corner. */
    method SplitThreeWays(x: int, y: int, aX: int, aY: int, bX: int, bY: int)
      requires Valid() && Aligned(aX, aY, bX, bY)
      requires Width(aX, aY) >= 2 && Height(bX, bY) >= 2 && 2 * Width(aX, aY) <= 3 * Height(bX, bY)
      requires Inside(width, height, Path(x, y, aX, aY, bX, bY))
      modifies this`errorq, this`visited, qPixels, lookup
      ensures Valid()
      ensures visited == old(visited) + Path(x, y, aX, aY, bX, bY)
      ensures forall i :: 0 <= i < lookup.Length && old(lookup[i]) != 0 ==> lookup[i] == old(lookup[i])
      decreases Width(aX, aY) + Height(bX, bY), 1
    {
      var h := Abs(bX + bY);
      var daX, daY, dbX, dbY := Sign(aX), Sign(aY), Sign(bX), Sign(bY);
      var aX2, aY2 := Half(aX), Half(aY);
      var bX2, bY2 := Half(bX), Half(bY);
      var h2 := Abs(bX2 + bY2);
      if h2 % 2 != 0 && h > 2 {
        bX2, bY2 := bX2 + dbX, bY2 + dbY;
      }
      var x2, y2, rX, rY := x + bX2, y + bY2, bX - bX2, bY - bY2;
      var x3, y3 := x + (aX - daX) + (bX2 - dbX), y + (aY - daY) + (bY2 - dbY);
      var cX, cY, dX, dY := -bX2, -bY2, -(aX - aX2), -(aY - aY2);
      ThreeFramesAt(aX, aY, bX, bY, aX2, aY2, bX2, bY2, rX, rY, cX, cY, dX, dY);
      ThreeSplitAt(x, y, aX, aY, bX, bY, aX2, aY2, bX2, bY2, x2, y2, rX, rY, x3, y3, cX, cY, dX, dY);
      RunThree(Width(aX, aY) + Height(bX, bY), x, y, bX2, bY2, aX2, aY2, x2, y2, aX, aY, rX, rY, x3, y3, cX, cY, dX, dY);
    }

    /** The three recursive calls of the 3-way branch, one frame after the
        other; n bounds the frames' sizes and is the size of the frame they
        split. */
    method RunThree(ghost n: nat, x1: int, y1: int, a1X: int, a1Y: int, b1X: int, b1Y: int,
                    x2: int, y2: int, a2X: int, a2Y: int, b2X: int, b2Y: int,
                    x3: int, y3: int, a3X: int, a3Y: int, b3X: int, b3Y: int)
      requires Valid()
      requires Aligned(a1X, a1Y, b1X, b1Y) && Width(a1X, a1Y) + Height(b1X, b1Y) < n
      requires Aligned(a2X, a2Y, b2X, b2Y) && Width(a2X, a2Y) + Height(b2X, b2Y) < n
      requires Aligned(a3X, a3Y, b3X, b3Y) && Width(a3X, a3Y) + Height(b3X, b3Y) < n
      requires Inside(width, height, Path(x1, y1, a1X, a1Y, b1X, b1Y) + Path(x2, y2, a2X, a2Y, b2X, b2Y) + Path(x3, y3, a3X, a3Y, b3X, b3Y))
      modifies this`errorq, this`visited, qPixels, lookup
      ensures Valid()
      ensures visited == old(visited) + (Path(x1, y1, a1X, a1Y, b1X, b1Y) + Path(x2, y2, a2X, a2Y, b2X, b2Y) + Path(x3, y3, a3X, a3Y, b3X, b3Y))
      ensures forall i :: 0 <= i < lookup.Length && old(lookup[i]) != 0 ==> lookup[i] == old(lookup[i])
      decreases n, 0
    {
      ghost var v0 := visited;
      ghost var c1, c2, c3 := Path(x1, y1, a1X, a1Y, b1X, b1Y), Path(x2, y2, a2X, a2Y, b2X, b2Y), Path(x3, y3, a3X, a3Y, b3X, b3Y);
      InsideConcat(width, height, c1 + c2, c3);
      InsideConcat(width, height, c1, c2);
      Generate2d(x1, y1, a1X, a1Y, b1X, b1Y);
      ghost var v1 := visited;
      Generate2d(x2, y2, a2X, a2Y, b2X, b2Y);
      ghost var v2 := visited;
      Generate2d(x3, y3, a3X, a3Y, b3X, b3Y);
      ConcatThree(v0, c1, c2, c3, v1, v2, visited);
    }

    /** The loop of a base case of `generate2d`: n pixels from (x, y) stepping
        by (dx, dy). */
    method Walk(x: int, y: int, dx: int, dy: int, n: nat, ghost curve: seq<Point>)
      requires Valid() && -1 <= dx <= 1 && -1 <= dy <= 1
      requires curve == Line(x, y, dx, dy, n)
      requires Inside(width, height, curve)
      modifies this`errorq, this`visited, qPixels, lookup
      ensures Valid()
      ensures visited == old(visited) + curve
      ensures forall i :: 0 <= i < lookup.Length && old(lookup[i]) != 0 ==> lookup[i] == old(lookup[i])
    {
      var i, px, py := 0, x, y;
      while i < n
        invariant 0 <= i <= n && px == x + Scale(dx, i) && py == y + Scale(dy, i)
        invariant Valid()
        invariant visited == old(visited) + Line(x, y, dx, dy, i)
        invariant forall j :: 0 <= j < lookup.Length && old(lookup[j]) != 0 ==> lookup[j] == old(lookup[j])
      {
        LineAt(x, y, dx, dy, n, i);
        ghost var v0 := visited;
        DitherPixel(px, py);
        LineSnoc(x, y, dx, dy, i);
        ConcatTwo(old(visited), Line(x, y, dx, dy, i), [Point(px, py)], v0, visited);
        px, py := px + dx, py + dy;
        i := i + 1;
      }
    }

    /** The traversal part of `GilbertCurve::dither`: the curve starts at the
        origin along the longer side. Every pixel is visited once, so every
        output cell ends up holding a palette index. */
    method Dither()
      requires Valid() && visited == [] && width >= 1 && height >= 1
      modifies this`errorq, this`visited, qPixels, lookup
      ensures Valid()
      ensures visited == ImageCurve(width, height)
      ensures forall i :: 0 <= i < qPixels.Length ==> 0 <= qPixels[i] < |palette|
    {
      ImageCurveExact(width, height);
      if width >= height {
        Generate2d(0, 0, width, 0, 0, height);
      } else {
        Generate2d(0, 0, 0, height, width, 0);
      }
      forall i | 0 <= i < qPixels.Length
        ensures 0 <= qPixels[i] < |palette|
      {
        PixelOfIndex(width, height, i);
        assert Point(i % width, i / width) in visited;
      }
    }
  }
}
