/** The generalised Hilbert ("gilbert") curve of GilbertCurve.cpp: the order in
    which `generate2d` visits the pixels of a rectangle, and the proof that it
    visits each pixel of the image exactly once. */
module GilbertCurve {

  datatype Point = Point(x: int, y: int)

  /** `sign` of GilbertCurve.cpp. */
  function Sign(x: int): (r: int)
    ensures r == -1 <==> x < 0
    ensures r == 0 <==> x == 0
    ensures r == 1 <==> x > 0
  {
    if x < 0 then -1 else if x > 0 then 1 else 0
  }

  function Abs(x: int): nat
  {
    if x < 0 then -x else x
  }

  /** C++ `x / 2` on an int: the quotient is truncated toward zero. */
  function Half(x: int): (r: int)
    ensures Abs(r) == Abs(x) / 2
    ensures r != 0 ==> Sign(r) == Sign(x)
  {
    if x >= 0 then x / 2 else -((-x) / 2)
  }

  /** `d * v` for a direction component d in {-1, 0, 1}, written without a
      product so that the solver stays in linear arithmetic. */
  function Scale(d: int, v: int): int
  {
    if d > 0 then v else if d < 0 then -v else 0
  }

  /** A vector parallel to one coordinate axis. */
  predicate Axis(u: int, v: int)
  {
    (u != 0 && v == 0) || (u == 0 && v != 0)
  }

  /** The axis vectors of a `generate2d` call: both non-zero, parallel to the
      coordinate axes and orthogonal to each other. Every call the curve makes
      from `dither` has this shape. */
  predicate Aligned(aX: int, aY: int, bX: int, bY: int)
  {
    Axis(aX, aY) && Axis(bX, bY) && (aX == 0 <==> bX != 0)
  }

  /** `abs(aX + aY)`: the length of the major axis. */
  function Width(aX: int, aY: int): nat { Abs(aX + aY) }

  /** `abs(bX + bY)`: the length of the minor axis. */
  function Height(bX: int, bY: int): nat { Abs(bX + bY) }

  /** `n` pixels from (x, y), stepping by (dx, dy): the two base cases. */
  function Line(x: int, y: int, dx: int, dy: int, n: nat): (s: seq<Point>)
    ensures |s| == n
    decreases n
  {
    if n == 0 then [] else [Point(x, y)] + Line(x + dx, y + dy, dx, dy, n - 1)
  }

  /** `ax2, ay2` (or `bx2, by2`) of `generate2d`: half of an axis vector,
      lengthened by one step when that half is odd and the axis is longer than 2. */
  function EvenHalf(u: int, v: int): (int, int)
  {
    var u2, v2 := Half(u), Half(v);
    if Width(u2, v2) % 2 != 0 && Width(u, v) > 2 then (u2 + Sign(u), v2 + Sign(v)) else (u2, v2)
  }

  /** The sequence of pixels `generate2d(x, y, aX, aY, bX, bY)` hands to
      `ditherPixel`, in order. The two recursive branches are CurveTwoWay and
      CurveThreeWay. */
  function Curve(x: int, y: int, aX: int, aY: int, bX: int, bY: int): seq<Point>
    requires Aligned(aX, aY, bX, bY)
    decreases Width(aX, aY) + Height(bX, bY), 1
  {
    var w, h := Width(aX, aY), Height(bX, bY);
    if h == 1 then Line(x, y, Sign(aX), Sign(aY), w)
    else if w == 1 then Line(x, y, Sign(bX), Sign(bY), h)
    else if 2 * w > 3 * h then CurveTwoWay(x, y, aX, aY, bX, bY)
    else CurveThreeWay(x, y, aX, aY, bX, bY)
  }

  /** The curve of a frame seen as one value, the name under which the two
      recursive branches refer to the curves of their parts. */
  function Path(x: int, y: int, aX: int, aY: int, bX: int, bY: int): seq<Point>
    requires Aligned(aX, aY, bX, bY)
    decreases Width(aX, aY) + Height(bX, bY), 2
  {
    Curve(x, y, aX, aY, bX, bY)
  }

  /** A long rectangle (2w > 3h) is cut across its major axis into two halves
      that are walked one after the other. */
  function CurveTwoWay(x: int, y: int, aX: int, aY: int, bX: int, bY: int): seq<Point>
    requires Aligned(aX, aY, bX, bY) && Width(aX, aY) >= 2 && Height(bX, bY) >= 2
    decreases Width(aX, aY) + Height(bX, bY), 0
  {
    var (aX2, aY2) := EvenHalf(aX, aY);
    SplitTwo(aX, aY, bX, bY);
    Path(x, y, aX2, aY2, bX, bY)
      + Path(x + aX2, y + aY2, aX - aX2, aY - aY2, bX, bY)
  }

  /** Otherwise the curve goes up the first part b2 of the minor axis, across
      the whole rest of the rectangle, and back down to the far corner. */
  function CurveThreeWay(x: int, y: int, aX: int, aY: int, bX: int, bY: int): seq<Point>
    requires Aligned(aX, aY, bX, bY) && Width(aX, aY) >= 2 && Height(bX, bY) >= 2
    decreases Width(aX, aY) + Height(bX, bY), 0
  {
    var aX2, aY2 := Half(aX), Half(aY);
    var (bX2, bY2) := EvenHalf(bX, bY);
    SplitThree(aX, aY, bX, bY);
    Path(x, y, bX2, bY2, aX2, aY2)
      + Path(x + bX2, y + bY2, aX, aY, bX - bX2, bY - bY2)
      + Path(x + (aX - Sign(aX)) + (bX2 - Sign(bX)), y + (aY - Sign(aY)) + (bY2 - Sign(bY)),
              -bX2, -bY2, -(aX - aX2), -(aY - aY2))
  }

  /** EvenHalf of an axis vector of length at least 2 is a proper, non-empty
      prefix of it. */
  lemma {:induction false} EvenHalfAxis(u: int, v: int)
    requires Axis(u, v) && Width(u, v) >= 2
    ensures var (cu, cv) := EvenHalf(u, v);
      && 1 <= Width(cu, cv) < Width(u, v)
      && cu == Scale(Sign(u), Width(cu, cv)) && cv == Scale(Sign(v), Width(cu, cv))
  {
    HalfAxis(u, v);
  }

  /** The two halves of the 2-way split are well-formed and smaller. */
  lemma {:induction false} SplitTwo(aX: int, aY: int, bX: int, bY: int)
    requires Aligned(aX, aY, bX, bY) && Width(aX, aY) >= 2 && Height(bX, bY) >= 2
    ensures var (aX2, aY2) := EvenHalf(aX, aY);
      && Aligned(aX2, aY2, bX, bY) && Aligned(aX - aX2, aY - aY2, bX, bY)
      && Width(aX2, aY2) < Width(aX, aY) && Width(aX - aX2, aY - aY2) < Width(aX, aY)
  {
    EvenHalfAxis(aX, aY);
    var (aX2, aY2) := EvenHalf(aX, aY);
    PrefixAxis(aX, aY, Width(aX2, aY2));
  }

  /** The three parts of the 3-way split are well-formed and smaller. */
  lemma {:induction false} SplitThree(aX: int, aY: int, bX: int, bY: int)
    requires Aligned(aX, aY, bX, bY) && Width(aX, aY) >= 2 && Height(bX, bY) >= 2
    ensures var aX2, aY2 := Half(aX), Half(aY);
      var (bX2, bY2) := EvenHalf(bX, bY);
      && Aligned(bX2, bY2, aX2, aY2)
      && Aligned(aX, aY, bX - bX2, bY - bY2)
      && Aligned(-bX2, -bY2, -(aX - aX2), -(aY - aY2))
      && Width(bX2, bY2) + Height(aX2, aY2) < Width(aX, aY) + Height(bX, bY)
      && Height(bX - bX2, bY - bY2) < Height(bX, bY)
      && Width(-bX2, -bY2) + Height(-(aX - aX2), -(aY - aY2)) < Width(aX, aY) + Height(bX, bY)
  {
    EvenHalfAxis(bX, bY);
    HalfAxis(aX, aY);
    var (bX2, bY2) := EvenHalf(bX, bY);
    PrefixAxis(bX, bY, Width(bX2, bY2));
    PrefixAxis(aX, aY, Width(aX, aY) / 2);
  }

  /** Halving an axis vector halves its length and keeps it on its axis. */
  lemma {:induction false} HalfAxis(u: int, v: int)
    requires Axis(u, v)
    ensures Half(u) == Scale(Sign(u), Width(u, v) / 2)
    ensures Half(v) == Scale(Sign(v), Width(u, v) / 2)
    ensures Width(Half(u), Half(v)) == Width(u, v) / 2
  {
  }

  /** The first t steps of an axis vector of length w, and what is left of it,
      are both axis vectors pointing the same way, of lengths t and w - t. */
  lemma {:induction false} PrefixAxis(u: int, v: int, t: int)
    requires Axis(u, v) && 1 <= t < Width(u, v)
    ensures var cu, cv := Scale(Sign(u), t), Scale(Sign(v), t);
      && (cu == 0 <==> u == 0) && (cv == 0 <==> v == 0)
      && (u - cu == 0 <==> u == 0) && (v - cv == 0 <==> v == 0)
      && Sign(cu) == Sign(u) && Sign(cv) == Sign(v)
      && Sign(u - cu) == Sign(u) && Sign(v - cv) == Sign(v)
      && Width(cu, cv) == t && Width(u - cu, v - cv) == Width(u, v) - t
      && Sign(-cu) == -Sign(u) && Sign(-cv) == -Sign(v)
  {
  }

  /** A frame `generate2d` splits in three. */
  predicate ThreeCase(aX: int, aY: int, bX: int, bY: int)
  {
    Aligned(aX, aY, bX, bY) && Width(aX, aY) >= 2 && Height(bX, bY) >= 2 && 2 * Width(aX, aY) <= 3 * Height(bX, bY)
  }

  /** The 2-way split of `generate2d`, unfolded. */
  lemma {:induction false} CurveTwo(x: int, y: int, aX: int, aY: int, bX: int, bY: int)
    requires Aligned(aX, aY, bX, bY)
    requires Width(aX, aY) >= 2 && Height(bX, bY) >= 2 && 2 * Width(aX, aY) > 3 * Height(bX, bY)
    ensures var (aX2, aY2) := EvenHalf(aX, aY);
      && Aligned(aX2, aY2, bX, bY) && Aligned(aX - aX2, aY - aY2, bX, bY)
      && Curve(x, y, aX, aY, bX, bY)
         == Path(x, y, aX2, aY2, bX, bY) + Path(x + aX2, y + aY2, aX - aX2, aY - aY2, bX, bY)
  {
    SplitTwo(aX, aY, bX, bY);
  }

  /** The 3-way split of `generate2d`, unfolded. */
  lemma {:induction false} CurveThree(x: int, y: int, aX: int, aY: int, bX: int, bY: int)
    requires Aligned(aX, aY, bX, bY)
    requires Width(aX, aY) >= 2 && Height(bX, bY) >= 2 && 2 * Width(aX, aY) <= 3 * Height(bX, bY)
    ensures var aX2, aY2 := Half(aX), Half(aY);
      var (bX2, bY2) := EvenHalf(bX, bY);
      var x3, y3 := x + (aX - Sign(aX)) + (bX2 - Sign(bX)), y + (aY - Sign(aY)) + (bY2 - Sign(bY));
      && Aligned(bX2, bY2, aX2, aY2)
      && Aligned(aX, aY, bX - bX2, bY - bY2)
      && Aligned(-bX2, -bY2, -(aX - aX2), -(aY - aY2))
      && Curve(x, y, aX, aY, bX, bY)
         == Path(x, y, bX2, bY2, aX2, aY2)
            + Path(x + bX2, y + bY2, aX, aY, bX - bX2, bY - bY2)
            + Path(x3, y3, -bX2, -bY2, -(aX - aX2), -(aY - aY2))
  {
    CurveIsThree(x, y, aX, aY, bX, bY);
    ThreeWayBody(x, y, aX, aY, bX, bY);
  }

  lemma {:induction false} CurveIsThree(x: int, y: int, aX: int, aY: int, bX: int, bY: int)
    requires Aligned(aX, aY, bX, bY)
    requires Width(aX, aY) >= 2 && Height(bX, bY) >= 2 && 2 * Width(aX, aY) <= 3 * Height(bX, bY)
    ensures Curve(x, y, aX, aY, bX, bY) == CurveThreeWay(x, y, aX, aY, bX, bY)
  {
  }

  lemma {:induction false} ThreeWayBody(x: int, y: int, aX: int, aY: int, bX: int, bY: int)
    requires Aligned(aX, aY, bX, bY) && Width(aX, aY) >= 2 && Height(bX, bY) >= 2
    ensures var aX2, aY2 := Half(aX), Half(aY);
      var (bX2, bY2) := EvenHalf(bX, bY);
      var x3, y3 := x + (aX - Sign(aX)) + (bX2 - Sign(bX)), y + (aY - Sign(aY)) + (bY2 - Sign(bY));
      && Aligned(bX2, bY2, aX2, aY2)
      && Aligned(aX, aY, bX - bX2, bY - bY2)
      && Aligned(-bX2, -bY2, -(aX - aX2), -(aY - aY2))
      && CurveThreeWay(x, y, aX, aY, bX, bY)
         == Path(x, y, bX2, bY2, aX2, aY2)
            + Path(x + bX2, y + bY2, aX, aY, bX - bX2, bY - bY2)
            + Path(x3, y3, -bX2, -bY2, -(aX - aX2), -(aY - aY2))
  {
    SplitThree(aX, aY, bX, bY);
  }

  /** The length of EvenHalf of an axis of length n. */
  function EvenLen(n: nat): nat
  {
    var n2 := n / 2;
    if n2 % 2 != 0 && n > 2 then n2 + 1 else n2
  }

  lemma {:induction false} EvenLenRange(n: nat)
    requires n >= 2
    ensures 1 <= EvenLen(n) < n
  {
  }

  // ---------------------------------------------------------------------
  // The reference curve, in the frame's own coordinates: cell (i, j) is i
  // steps along the major axis and j steps along the minor axis.
  // ---------------------------------------------------------------------

  function Row(n: nat): (r: seq<Point>)
    ensures |r| == n
  {
    seq(n, k => Point(k, 0))
  }

  function Column(n: nat): (r: seq<Point>)
    ensures |r| == n
  {
    seq(n, k => Point(0, k))
  }

  /** Every cell moved by (dx, dy). */
  function Shift(s: seq<Point>, dx: int, dy: int): (r: seq<Point>)
    ensures |r| == |s|
  {
    seq(|s|, k requires 0 <= k < |s| => Point(s[k].x + dx, s[k].y + dy))
  }

  /** Every cell with its two coordinates exchanged. */
  function Swap(s: seq<Point>): (r: seq<Point>)
    ensures |r| == |s|
  {
    seq(|s|, k requires 0 <= k < |s| => Point(s[k].y, s[k].x))
  }

  /** Every cell reflected through the anti-diagonal and moved so that (0, 0)
      lands on (cx, cy). */
  function Turn(s: seq<Point>, cx: int, cy: int): (r: seq<Point>)
    ensures |r| == |s|
  {
    seq(|s|, k requires 0 <= k < |s| => Point(cx - s[k].y, cy - s[k].x))
  }

  /** The cells of a w by h frame in the order `generate2d` visits them. */
  function LocalCurve(w: nat, h: nat): seq<Point>
    requires w >= 1 && h >= 1
    decreases w + h, 1
  {
    if h == 1 then Row(w)
    else if w == 1 then Column(h)
    else if 2 * w > 3 * h then LocalTwoWay(w, h)
    else LocalThreeWay(w, h)
  }

  function LocalTwoWay(w: nat, h: nat): seq<Point>
    requires w >= 2 && h >= 1
    decreases w + h, 0
  {
    var w2 := EvenLen(w);
    EvenLenRange(w);
    LocalCurve(w2, h) + Shift(LocalCurve(w - w2, h), w2, 0)
  }

  function LocalThreeWay(w: nat, h: nat): seq<Point>
    requires w >= 2 && h >= 2
    decreases w + h, 0
  {
    var w2, h2 := w / 2, EvenLen(h);
    EvenLenRange(h);
    Swap(LocalCurve(h2, w2))
      + Shift(LocalCurve(w, h - h2), 0, h2)
      + Turn(LocalCurve(h2, w - w2), w - 1, h2 - 1)
  }

  predicate InGrid(w: int, h: int, q: Point)
  {
    0 <= q.x < w && 0 <= q.y < h
  }

  predicate Distinct(s: seq<Point>)
  {
    forall i, j :: 0 <= i < j < |s| ==> s[i] != s[j]
  }

  lemma {:induction false} DistinctConcat(s: seq<Point>, t: seq<Point>)
    requires Distinct(s) && Distinct(t)
    requires forall p :: p in s ==> p !in t
    ensures Distinct(s + t)
  {
    var u := s + t;
    forall i, j | 0 <= i < j < |u| ensures u[i] != u[j]
    {
      if i < |s| && j >= |s| { assert u[i] in s && u[j] in t; }
      else if i >= |s| { assert u[i] == t[i - |s|] && u[j] == t[j - |s|]; }
    }
  }

  lemma {:induction false} InRow(n: nat, q: Point)
    ensures q in Row(n) <==> InGrid(n, 1, q)
  {
    if InGrid(n, 1, q) { assert Row(n)[q.x] == q; }
  }

  lemma {:induction false} InColumn(n: nat, q: Point)
    ensures q in Column(n) <==> InGrid(1, n, q)
  {
    if InGrid(1, n, q) { assert Column(n)[q.y] == q; }
  }

  lemma {:induction false} InShift(s: seq<Point>, dx: int, dy: int, q: Point)
    ensures q in Shift(s, dx, dy) <==> Point(q.x - dx, q.y - dy) in s
  {
    var r := Shift(s, dx, dy);
    if q in r {
      var k :| 0 <= k < |r| && r[k] == q;
      assert s[k] == Point(q.x - dx, q.y - dy);
    }
    if Point(q.x - dx, q.y - dy) in s {
      var k :| 0 <= k < |s| && s[k] == Point(q.x - dx, q.y - dy);
      assert r[k] == q;
    }
  }

  lemma {:induction false} InSwap(s: seq<Point>, q: Point)
    ensures q in Swap(s) <==> Point(q.y, q.x) in s
  {
    var r := Swap(s);
    if q in r {
      var k :| 0 <= k < |r| && r[k] == q;
      assert s[k] == Point(q.y, q.x);
    }
    if Point(q.y, q.x) in s {
      var k :| 0 <= k < |s| && s[k] == Point(q.y, q.x);
      assert r[k] == q;
    }
  }

  lemma {:induction false} InTurn(s: seq<Point>, cx: int, cy: int, q: Point)
    ensures q in Turn(s, cx, cy) <==> Point(cy - q.y, cx - q.x) in s
  {
    var r := Turn(s, cx, cy);
    if q in r {
      var k :| 0 <= k < |r| && r[k] == q;
      assert s[k] == Point(cy - q.y, cx - q.x);
    }
    if Point(cy - q.y, cx - q.x) in s {
      var k :| 0 <= k < |s| && s[k] == Point(cy - q.y, cx - q.x);
      assert r[k] == q;
    }
  }

  /** Membership in a concatenation, given membership in each part. */
  lemma {:induction false} InConcat3(s1: seq<Point>, s2: seq<Point>, s3: seq<Point>, q: Point, b1: bool, b2: bool, b3: bool)
    requires (q in s1 <==> b1) && (q in s2 <==> b2) && (q in s3 <==> b3)
    ensures q in s1 + s2 + s3 <==> b1 || b2 || b3
  {
  }

  lemma {:induction false} InConcat2(s1: seq<Point>, s2: seq<Point>, q: Point, b1: bool, b2: bool)
    requires (q in s1 <==> b1) && (q in s2 <==> b2)
    ensures q in s1 + s2 <==> b1 || b2
  {
  }

  /** The 2-way split cuts a grid into a left and a right part. */
  lemma {:induction false} TwoGrid(w: int, h: int, w2: int, q: Point)
    requires 1 <= w2 < w
    ensures var in1, in2 := InGrid(w2, h, q), InGrid(w - w2, h, Point(q.x - w2, q.y));
      (InGrid(w, h, q) <==> in1 || in2) && !(in1 && in2)
  {
  }

  /** The 3-way split cuts a grid into the lower-left part (walked with its
      axes exchanged), the upper part and the lower-right part (walked back
      from the far corner). */
  lemma {:induction false} ThreeGrid(w: int, h: int, w2: int, h2: int, q: Point)
    requires 1 <= w2 < w && 1 <= h2 < h
    ensures var in1 := InGrid(h2, w2, Point(q.y, q.x));
      var in2 := InGrid(w, h - h2, Point(q.x, q.y - h2));
      var in3 := InGrid(h2, w - w2, Point(h2 - 1 - q.y, w - 1 - q.x));
      (InGrid(w, h, q) <==> in1 || in2 || in3) && !(in1 && in2) && !(in1 && in3) && !(in2 && in3)
  {
  }

  /** The reference curve visits exactly the cells of its grid. */
  lemma {:induction false} LocalMember(w: nat, h: nat, q: Point)
    requires w >= 1 && h >= 1
    ensures q in LocalCurve(w, h) <==> InGrid(w, h, q)
    decreases w + h, 3
  {
    if h == 1 {
      InRow(w, q);
    } else if w == 1 {
      InColumn(h, q);
    } else if 2 * w > 3 * h {
      LocalTwoMember(w, h, q);
    } else {
      LocalThreeMember(w, h, q);
    }
  }

  /** Where a cell lies in each part of the 2-way split. */
  lemma {:induction false} LocalTwoParts(w: nat, h: nat, q: Point)
    requires w >= 2 && h >= 1
    ensures var w2 := EvenLen(w);
      && (q in LocalCurve(w2, h) <==> InGrid(w2, h, q))
      && (q in Shift(LocalCurve(w - w2, h), w2, 0) <==> InGrid(w - w2, h, Point(q.x - w2, q.y)))
    decreases w + h, 0
  {
    var w2 := EvenLen(w);
    EvenLenRange(w);
    LocalMember(w2, h, q);
    LocalMember(w - w2, h, Point(q.x - w2, q.y));
    InShift(LocalCurve(w - w2, h), w2, 0, q);
  }

  /** Where a cell lies in each part of the 3-way split. */
  lemma {:induction false} LocalThreeParts(w: nat, h: nat, q: Point)
    requires w >= 2 && h >= 2
    ensures var w2, h2 := w / 2, EvenLen(h);
      && (q in Swap(LocalCurve(h2, w2)) <==> InGrid(h2, w2, Point(q.y, q.x)))
      && (q in Shift(LocalCurve(w, h - h2), 0, h2) <==> InGrid(w, h - h2, Point(q.x, q.y - h2)))
      && (q in Turn(LocalCurve(h2, w - w2), w - 1, h2 - 1) <==> InGrid(h2, w - w2, Point(h2 - 1 - q.y, w - 1 - q.x)))
    decreases w + h, 1
  {
    LocalFirstPart(w, h, q);
    LocalSecondPart(w, h, q);
    LocalThirdPart(w, h, q);
  }

  lemma {:induction false} LocalFirstPart(w: nat, h: nat, q: Point)
    requires w >= 2 && h >= 2
    ensures var w2, h2 := w / 2, EvenLen(h);
      q in Swap(LocalCurve(h2, w2)) <==> InGrid(h2, w2, Point(q.y, q.x))
    decreases w + h, 0
  {
    var w2, h2 := w / 2, EvenLen(h);
    EvenLenRange(h);
    LocalMember(h2, w2, Point(q.y, q.x));
    InSwap(LocalCurve(h2, w2), q);
  }

  lemma {:induction false} LocalSecondPart(w: nat, h: nat, q: Point)
    requires w >= 2 && h >= 2
    ensures var h2 := EvenLen(h);
      q in Shift(LocalCurve(w, h - h2), 0, h2) <==> InGrid(w, h - h2, Point(q.x, q.y - h2))
    decreases w + h, 0
  {
    var h2 := EvenLen(h);
    EvenLenRange(h);
    LocalMember(w, h - h2, Point(q.x, q.y - h2));
    InShift(LocalCurve(w, h - h2), 0, h2, q);
  }

  lemma {:induction false} LocalThirdPart(w: nat, h: nat, q: Point)
    requires w >= 2 && h >= 2
    ensures var w2, h2 := w / 2, EvenLen(h);
      q in Turn(LocalCurve(h2, w - w2), w - 1, h2 - 1) <==> InGrid(h2, w - w2, Point(h2 - 1 - q.y, w - 1 - q.x))
    decreases w + h, 0
  {
    var w2, h2 := w / 2, EvenLen(h);
    EvenLenRange(h);
    LocalMember(h2, w - w2, Point(h2 - 1 - q.y, w - 1 - q.x));
    InTurn(LocalCurve(h2, w - w2), w - 1, h2 - 1, q);
  }

  lemma {:induction false} LocalTwoMember(w: nat, h: nat, q: Point)
    requires w >= 2 && h >= 1
    ensures q in LocalTwoWay(w, h) <==> InGrid(w, h, q)
    decreases w + h, 1
  {
    var w2 := EvenLen(w);
    EvenLenRange(w);
    LocalTwoParts(w, h, q);
    TwoGrid(w, h, w2, q);
    InConcat2(LocalCurve(w2, h), Shift(LocalCurve(w - w2, h), w2, 0), q,
              InGrid(w2, h, q), InGrid(w - w2, h, Point(q.x - w2, q.y)));
  }

  lemma {:induction false} LocalThreeMember(w: nat, h: nat, q: Point)
    requires w >= 2 && h >= 2
    ensures q in LocalThreeWay(w, h) <==> InGrid(w, h, q)
    decreases w + h, 2
  {
    var w2, h2 := w / 2, EvenLen(h);
    EvenLenRange(h);
    LocalThreeParts(w, h, q);
    ThreeGrid(w, h, w2, h2, q);
    InConcat3(Swap(LocalCurve(h2, w2)), Shift(LocalCurve(w, h - h2), 0, h2),
              Turn(LocalCurve(h2, w - w2), w - 1, h2 - 1), q,
              InGrid(h2, w2, Point(q.y, q.x)), InGrid(w, h - h2, Point(q.x, q.y - h2)),
              InGrid(h2, w - w2, Point(h2 - 1 - q.y, w - 1 - q.x)));
  }

  lemma {:induction false} DistinctShift(s: seq<Point>, dx: int, dy: int)
    requires Distinct(s)
    ensures Distinct(Shift(s, dx, dy))
  {
    var r := Shift(s, dx, dy);
    forall i, j | 0 <= i < j < |r| ensures r[i] != r[j] {
      assert s[i] != s[j];
    }
  }

  lemma {:induction false} DistinctSwap(s: seq<Point>)
    requires Distinct(s)
    ensures Distinct(Swap(s))
  {
    var r := Swap(s);
    forall i, j | 0 <= i < j < |r| ensures r[i] != r[j] {
      assert s[i] != s[j];
    }
  }

  lemma {:induction false} DistinctTurn(s: seq<Point>, cx: int, cy: int)
    requires Distinct(s)
    ensures Distinct(Turn(s, cx, cy))
  {
    var r := Turn(s, cx, cy);
    forall i, j | 0 <= i < j < |r| ensures r[i] != r[j] {
      assert s[i] != s[j];
    }
  }

  /** The reference curve visits no cell twice. */
  lemma {:induction false} LocalDistinct(w: nat, h: nat)
    requires w >= 1 && h >= 1
    ensures Distinct(LocalCurve(w, h))
    decreases w + h, 1
  {
    if h == 1 {
      assert Distinct(Row(w));
    } else if w == 1 {
      assert Distinct(Column(h));
    } else if 2 * w > 3 * h {
      LocalTwoDistinct(w, h);
    } else {
      LocalThreeDistinct(w, h);
    }
  }

  lemma {:induction false} LocalTwoDistinct(w: nat, h: nat)
    requires w >= 2 && h >= 1
    ensures Distinct(LocalTwoWay(w, h))
    decreases w + h, 0
  {
    var w2 := EvenLen(w);
    EvenLenRange(w);
    var c1, c2 := LocalCurve(w2, h), Shift(LocalCurve(w - w2, h), w2, 0);
    LocalDistinct(w2, h);
    LocalDistinct(w - w2, h);
    DistinctShift(LocalCurve(w - w2, h), w2, 0);
    forall q | q in c1 ensures q !in c2 {
      LocalTwoParts(w, h, q);
      TwoGrid(w, h, w2, q);
    }
    DistinctConcat(c1, c2);
  }

  lemma {:induction false} LocalThreeDistinct(w: nat, h: nat)
    requires w >= 2 && h >= 2
    ensures Distinct(LocalThreeWay(w, h))
    decreases w + h, 0
  {
    var w2, h2 := w / 2, EvenLen(h);
    EvenLenRange(h);
    var c1 := Swap(LocalCurve(h2, w2));
    var c2 := Shift(LocalCurve(w, h - h2), 0, h2);
    var c3 := Turn(LocalCurve(h2, w - w2), w - 1, h2 - 1);
    LocalDistinct(h2, w2);
    LocalDistinct(w, h - h2);
    LocalDistinct(h2, w - w2);
    DistinctSwap(LocalCurve(h2, w2));
    DistinctShift(LocalCurve(w, h - h2), 0, h2);
    DistinctTurn(LocalCurve(h2, w - w2), w - 1, h2 - 1);
    forall q | q in c1 ensures q !in c2 {
      LocalThreeParts(w, h, q);
      ThreeGrid(w, h, w2, h2, q);
    }
    DistinctConcat(c1, c2);
    forall q | q in c1 + c2 ensures q !in c3 {
      LocalThreeParts(w, h, q);
      ThreeGrid(w, h, w2, h2, q);
    }
    DistinctConcat(c1 + c2, c3);
  }

  /** The reference curve has one cell per pixel of its grid. */
  lemma {:induction false} LocalLength(w: nat, h: nat)
    requires w >= 1 && h >= 1
    ensures |LocalCurve(w, h)| == w * h
    decreases w + h
  {
    if h == 1 || w == 1 {
    } else if 2 * w > 3 * h {
      var w2 := EvenLen(w);
      EvenLenRange(w);
      LocalLength(w2, h);
      LocalLength(w - w2, h);
      assert w2 * h + (w - w2) * h == w * h by { ProductSplit(w2, w - w2, h); }
    } else {
      var w2, h2 := w / 2, EvenLen(h);
      EvenLenRange(h);
      LocalLength(h2, w2);
      LocalLength(w, h - h2);
      LocalLength(h2, w - w2);
      ProductSplit(w2, w - w2, h2);
      ProductSplit(h2, h - h2, w);
      assert h2 * w2 + w * (h - h2) + h2 * (w - w2) == w * h;
    }
  }

  lemma {:induction false} ProductSplit(a: int, b: int, c: int)
    ensures a * c + b * c == (a + b) * c
    ensures c * a + c * b == c * (a + b)
  {
  }

  // ---------------------------------------------------------------------
  // Placing the reference curve on the image: cell (i, j) of a frame with
  // corner (x, y) and unit axes da, db is the pixel (x, y) + i da + j db.
  // ---------------------------------------------------------------------

  function At(x: int, y: int, daX: int, daY: int, dbX: int, dbY: int, q: Point): Point
  {
    Point(x + Scale(daX, q.x) + Scale(dbX, q.y), y + Scale(daY, q.x) + Scale(dbY, q.y))
  }

  function Place(x: int, y: int, daX: int, daY: int, dbX: int, dbY: int, s: seq<Point>): (r: seq<Point>)
    ensures |r| == |s|
  {
    seq(|s|, k requires 0 <= k < |s| => At(x, y, daX, daY, dbX, dbY, s[k]))
  }

  lemma {:induction false} PlaceConcat(x: int, y: int, daX: int, daY: int, dbX: int, dbY: int, s: seq<Point>, t: seq<Point>)
    ensures Place(x, y, daX, daY, dbX, dbY, s + t)
         == Place(x, y, daX, daY, dbX, dbY, s) + Place(x, y, daX, daY, dbX, dbY, t)
  {
  }

  /** A frame whose corner is t steps along da and u steps along db places
      its cells where the shifted cells land in the original frame. */
  lemma {:induction false} PlaceShift(ox: int, oy: int, x: int, y: int, daX: int, daY: int, dbX: int, dbY: int,
                   s: seq<Point>, t: int, u: int)
    requires ox == x + Scale(daX, t) + Scale(dbX, u) && oy == y + Scale(daY, t) + Scale(dbY, u)
    ensures Place(ox, oy, daX, daY, dbX, dbY, s) == Place(x, y, daX, daY, dbX, dbY, Shift(s, t, u))
  {
  }

  /** Exchanging the two axes of a frame is exchanging the cell coordinates. */
  lemma {:induction false} PlaceSwap(x: int, y: int, daX: int, daY: int, dbX: int, dbY: int, s: seq<Point>)
    ensures Place(x, y, dbX, dbY, daX, daY, s) == Place(x, y, daX, daY, dbX, dbY, Swap(s))
  {
  }

  /** A frame walked backwards from cell (cx, cy), with its axes exchanged and
      reversed, places its cells where the turned cells land. */
  lemma {:induction false} PlaceTurn(ox: int, oy: int, x: int, y: int, daX: int, daY: int, dbX: int, dbY: int,
                  s: seq<Point>, cx: int, cy: int)
    requires ox == x + Scale(daX, cx) + Scale(dbX, cy) && oy == y + Scale(daY, cx) + Scale(dbY, cy)
    ensures Place(ox, oy, -dbX, -dbY, -daX, -daY, s) == Place(x, y, daX, daY, dbX, dbY, Turn(s, cx, cy))
  {
  }

  /** The k-th pixel of a line. */
  lemma {:induction false} LineAt(x: int, y: int, dx: int, dy: int, n: nat, k: nat)
    requires -1 <= dx <= 1 && -1 <= dy <= 1 && k < n
    ensures Line(x, y, dx, dy, n)[k] == Point(x + Scale(dx, k), y + Scale(dy, k))
    decreases k
  {
    if k > 0 {
      LineAt(x + dx, y + dy, dx, dy, n - 1, k - 1);
    }
  }

  /** A line one pixel longer ends in one more step. */
  lemma {:induction false} LineSnoc(x: int, y: int, dx: int, dy: int, n: nat)
    requires -1 <= dx <= 1 && -1 <= dy <= 1
    ensures Line(x, y, dx, dy, n + 1) == Line(x, y, dx, dy, n) + [Point(x + Scale(dx, n), y + Scale(dy, n))]
    decreases n
  {
    if n > 0 {
      LineSnoc(x + dx, y + dy, dx, dy, n - 1);
    }
  }

  lemma {:induction false} LineRow(x: int, y: int, daX: int, daY: int, dbX: int, dbY: int, n: nat)
    requires -1 <= daX <= 1 && -1 <= daY <= 1
    ensures Line(x, y, daX, daY, n) == Place(x, y, daX, daY, dbX, dbY, Row(n))
  {
    forall k | 0 <= k < n
      ensures Line(x, y, daX, daY, n)[k] == Place(x, y, daX, daY, dbX, dbY, Row(n))[k]
    {
      LineAt(x, y, daX, daY, n, k);
    }
  }

  lemma {:induction false} LineColumn(x: int, y: int, daX: int, daY: int, dbX: int, dbY: int, n: nat)
    requires -1 <= dbX <= 1 && -1 <= dbY <= 1
    ensures Line(x, y, dbX, dbY, n) == Place(x, y, daX, daY, dbX, dbY, Column(n))
  {
    forall k | 0 <= k < n
      ensures Line(x, y, dbX, dbY, n)[k] == Place(x, y, daX, daY, dbX, dbY, Column(n))[k]
    {
      LineAt(x, y, dbX, dbY, n, k);
    }
  }

  /** The lengths and directions of the two parts of the 2-way split. */
  lemma {:induction false} TwoDims(aX: int, aY: int, bX: int, bY: int)
    requires Aligned(aX, aY, bX, bY) && Width(aX, aY) >= 2
    ensures var (aX2, aY2) := EvenHalf(aX, aY);
      var w2 := EvenLen(Width(aX, aY));
      && Width(aX2, aY2) == w2 && Width(aX - aX2, aY - aY2) == Width(aX, aY) - w2
      && Sign(aX2) == Sign(aX) && Sign(aY2) == Sign(aY)
      && Sign(aX - aX2) == Sign(aX) && Sign(aY - aY2) == Sign(aY)
      && aX2 == Scale(Sign(aX), w2) + Scale(Sign(bX), 0)
      && aY2 == Scale(Sign(aY), w2) + Scale(Sign(bY), 0)
  {
    EvenHalfAxis(aX, aY);
    var (aX2, aY2) := EvenHalf(aX, aY);
    HalfAxis(aX, aY);
    PrefixAxis(aX, aY, Width(aX2, aY2));
  }

  /** The lengths, directions and corners of the three parts of the 3-way split. */
  lemma {:induction false} ThreeDims(aX: int, aY: int, bX: int, bY: int)
    requires Aligned(aX, aY, bX, bY) && Width(aX, aY) >= 2 && Height(bX, bY) >= 2
    ensures var aX2, aY2 := Half(aX), Half(aY);
      var (bX2, bY2) := EvenHalf(bX, bY);
      var w, h := Width(aX, aY), Height(bX, bY);
      var w2, h2 := w / 2, EvenLen(h);
      && Width(bX2, bY2) == h2 && Height(aX2, aY2) == w2
      && Height(bX - bX2, bY - bY2) == h - h2
      && Width(-bX2, -bY2) == h2 && Height(-(aX - aX2), -(aY - aY2)) == w - w2
      && Sign(bX2) == Sign(bX) && Sign(bY2) == Sign(bY)
      && Sign(aX2) == Sign(aX) && Sign(aY2) == Sign(aY)
      && Sign(bX - bX2) == Sign(bX) && Sign(bY - bY2) == Sign(bY)
      && Sign(-bX2) == -Sign(bX) && Sign(-bY2) == -Sign(bY)
      && Sign(-(aX - aX2)) == -Sign(aX) && Sign(-(aY - aY2)) == -Sign(aY)
      && bX2 == Scale(Sign(aX), 0) + Scale(Sign(bX), h2)
      && bY2 == Scale(Sign(aY), 0) + Scale(Sign(bY), h2)
      && (aX - Sign(aX)) + (bX2 - Sign(bX)) == Scale(Sign(aX), w - 1) + Scale(Sign(bX), h2 - 1)
      && (aY - Sign(aY)) + (bY2 - Sign(bY)) == Scale(Sign(aY), w - 1) + Scale(Sign(bY), h2 - 1)
  {
    EvenHalfAxis(bX, bY);
    HalfAxis(aX, aY);
    var (bX2, bY2) := EvenHalf(bX, bY);
    PrefixAxis(bX, bY, Width(bX2, bY2));
    PrefixAxis(aX, aY, Width(aX, aY) / 2);
  }

  /** `generate2d(x, y, aX, aY, bX, bY)` visits the pixels of its frame in the
      order of the reference curve of a Width(a) by Height(b) grid. */
  lemma {:induction false} CurvePlaced(x: int, y: int, aX: int, aY: int, bX: int, bY: int)
    requires Aligned(aX, aY, bX, bY)
    ensures Path(x, y, aX, aY, bX, bY)
         == Place(x, y, Sign(aX), Sign(aY), Sign(bX), Sign(bY), LocalCurve(Width(aX, aY), Height(bX, bY)))
    decreases Width(aX, aY) + Height(bX, bY), 3
  {
    var w, h := Width(aX, aY), Height(bX, bY);
    if h == 1 {
      LineRow(x, y, Sign(aX), Sign(aY), Sign(bX), Sign(bY), w);
    } else if w == 1 {
      LineColumn(x, y, Sign(aX), Sign(aY), Sign(bX), Sign(bY), h);
    } else if 2 * w > 3 * h {
      TwoWayPlaced(x, y, aX, aY, bX, bY);
    } else {
      ThreeWayPlaced(x, y, aX, aY, bX, bY);
    }
  }

  lemma {:induction false} TwoWayPlaced(x: int, y: int, aX: int, aY: int, bX: int, bY: int)
    requires Aligned(aX, aY, bX, bY)
    requires Width(aX, aY) >= 2 && Height(bX, bY) >= 2 && 2 * Width(aX, aY) > 3 * Height(bX, bY)
    ensures Path(x, y, aX, aY, bX, bY)
         == Place(x, y, Sign(aX), Sign(aY), Sign(bX), Sign(bY), LocalTwoWay(Width(aX, aY), Height(bX, bY)))
    decreases Width(aX, aY) + Height(bX, bY), 0
  {
    var w, h := Width(aX, aY), Height(bX, bY);
    var daX, daY, dbX, dbY := Sign(aX), Sign(aY), Sign(bX), Sign(bY);
    var (aX2, aY2) := EvenHalf(aX, aY);
    var w2 := EvenLen(w);
    CurveTwo(x, y, aX, aY, bX, bY);
    TwoDims(aX, aY, bX, bY);
    CurvePlaced(x, y, aX2, aY2, bX, bY);
    CurvePlaced(x + aX2, y + aY2, aX - aX2, aY - aY2, bX, bY);
    var l1, l2 := LocalCurve(w2, h), LocalCurve(w - w2, h);
    PlaceShift(x + aX2, y + aY2, x, y, daX, daY, dbX, dbY, l2, w2, 0);
    PlaceConcat(x, y, daX, daY, dbX, dbY, l1, Shift(l2, w2, 0));
  }

  lemma {:induction false} ThreeWayPlaced(x: int, y: int, aX: int, aY: int, bX: int, bY: int)
    requires ThreeCase(aX, aY, bX, bY)
    ensures Path(x, y, aX, aY, bX, bY)
         == Place(x, y, Sign(aX), Sign(aY), Sign(bX), Sign(bY), LocalThreeWay(Width(aX, aY), Height(bX, bY)))
    decreases Width(aX, aY) + Height(bX, bY), 2
  {
    ThreeWayParts(x, y, aX, aY, bX, bY);
    LocalThreePlaced(x, y, aX, aY, bX, bY);
  }

  /** The 3-way split of the curve, part by part. */
  lemma {:induction false} ThreeWayParts(x: int, y: int, aX: int, aY: int, bX: int, bY: int)
    requires ThreeCase(aX, aY, bX, bY)
    ensures var daX, daY, dbX, dbY := Sign(aX), Sign(aY), Sign(bX), Sign(bY);
      var w, h := Width(aX, aY), Height(bX, bY);
      var w2, h2 := w / 2, EvenLen(h);
      Path(x, y, aX, aY, bX, bY)
      == Place(x, y, daX, daY, dbX, dbY, Swap(LocalCurve(h2, w2)))
         + Place(x, y, daX, daY, dbX, dbY, Shift(LocalCurve(w, h - h2), 0, h2))
         + Place(x, y, daX, daY, dbX, dbY, Turn(LocalCurve(h2, w - w2), w - 1, h2 - 1))
    decreases Width(aX, aY) + Height(bX, bY), 1
  {
    ThreeSplitRaw(x, y, aX, aY, bX, bY);
    ThreeWayFirst(x, y, aX, aY, bX, bY);
    ThreeWaySecond(x, y, aX, aY, bX, bY);
    ThreeWayThird(x, y, aX, aY, bX, bY);
  }

  /** The placed reference 3-way split, part by part. */
  lemma {:induction false} LocalThreePlaced(x: int, y: int, aX: int, aY: int, bX: int, bY: int)
    requires ThreeCase(aX, aY, bX, bY)
    ensures var daX, daY, dbX, dbY := Sign(aX), Sign(aY), Sign(bX), Sign(bY);
      var w, h := Width(aX, aY), Height(bX, bY);
      var w2, h2 := w / 2, EvenLen(h);
      Place(x, y, daX, daY, dbX, dbY, LocalThreeWay(w, h))
      == Place(x, y, daX, daY, dbX, dbY, Swap(LocalCurve(h2, w2)))
         + Place(x, y, daX, daY, dbX, dbY, Shift(LocalCurve(w, h - h2), 0, h2))
         + Place(x, y, daX, daY, dbX, dbY, Turn(LocalCurve(h2, w - w2), w - 1, h2 - 1))
  {
    LocalThreeSplit(Width(aX, aY), Height(bX, bY));
    var w, h := Width(aX, aY), Height(bX, bY);
    var w2, h2 := w / 2, EvenLen(h);
    PlaceConcat3(x, y, Sign(aX), Sign(aY), Sign(bX), Sign(bY), Swap(LocalCurve(h2, w2)),
                 Shift(LocalCurve(w, h - h2), 0, h2), Turn(LocalCurve(h2, w - w2), w - 1, h2 - 1));
  }

  /** The reference 3-way split, unfolded. */
  lemma {:induction false} LocalThreeSplit(w: nat, h: nat)
    requires w >= 2 && h >= 2
    ensures EvenLen(h) >= 1 && h - EvenLen(h) >= 1
    ensures LocalThreeWay(w, h)
         == Swap(LocalCurve(EvenLen(h), w / 2)) + Shift(LocalCurve(w, h - EvenLen(h)), 0, EvenLen(h))
            + Turn(LocalCurve(EvenLen(h), w - w / 2), w - 1, EvenLen(h) - 1)
  {
    EvenLenRange(h);
  }

  lemma {:induction false} PlaceConcat3(x: int, y: int, daX: int, daY: int, dbX: int, dbY: int,
                     s1: seq<Point>, s2: seq<Point>, s3: seq<Point>)
    ensures Place(x, y, daX, daY, dbX, dbY, s1 + s2 + s3)
         == Place(x, y, daX, daY, dbX, dbY, s1) + Place(x, y, daX, daY, dbX, dbY, s2)
            + Place(x, y, daX, daY, dbX, dbY, s3)
  {
    PlaceConcat(x, y, daX, daY, dbX, dbY, s1, s2);
    PlaceConcat(x, y, daX, daY, dbX, dbY, s1 + s2, s3);
  }

  /** The first part of the 3-way split: the lower-left block, walked with
      its axes exchanged. */
  lemma {:induction false} ThreeWayFirst(x: int, y: int, aX: int, aY: int, bX: int, bY: int)
    requires ThreeCase(aX, aY, bX, bY)
    ensures var (bX2, bY2) := EvenHalf(bX, bY);
      var w2, h2 := Width(aX, aY) / 2, EvenLen(Height(bX, bY));
      && Aligned(bX2, bY2, Half(aX), Half(aY))
      && Path(x, y, bX2, bY2, Half(aX), Half(aY))
         == Place(x, y, Sign(aX), Sign(aY), Sign(bX), Sign(bY), Swap(LocalCurve(h2, w2)))
    decreases Width(aX, aY) + Height(bX, bY), 0
  {
    FirstDims(aX, aY, bX, bY);
    var (bX2, bY2) := EvenHalf(bX, bY);
    SwappedPart(x, y, bX2, bY2, Half(aX), Half(aY), Sign(aX), Sign(aY), Sign(bX), Sign(bY),
                EvenLen(Height(bX, bY)), Width(aX, aY) / 2);
  }

  /** The second part: the whole upper block, walked the same way as the frame. */
  lemma {:induction false} ThreeWaySecond(x: int, y: int, aX: int, aY: int, bX: int, bY: int)
    requires ThreeCase(aX, aY, bX, bY)
    ensures var (bX2, bY2) := EvenHalf(bX, bY);
      var w, h2 := Width(aX, aY), EvenLen(Height(bX, bY));
      && Aligned(aX, aY, bX - bX2, bY - bY2)
      && Path(x + bX2, y + bY2, aX, aY, bX - bX2, bY - bY2)
         == Place(x, y, Sign(aX), Sign(aY), Sign(bX), Sign(bY), Shift(LocalCurve(w, Height(bX, bY) - h2), 0, h2))
    decreases Width(aX, aY) + Height(bX, bY), 0
  {
    SecondDims(aX, aY, bX, bY);
    var (bX2, bY2) := EvenHalf(bX, bY);
    var h2 := EvenLen(Height(bX, bY));
    ShiftedPart(x + bX2, y + bY2, aX, aY, bX - bX2, bY - bY2, x, y, Sign(aX), Sign(aY), Sign(bX), Sign(bY),
                Width(aX, aY), Height(bX, bY) - h2, 0, h2);
  }

  /** The third part: the lower-right block, walked back from the far corner
      with its axes exchanged and reversed. */
  lemma {:induction false} ThreeWayThird(x: int, y: int, aX: int, aY: int, bX: int, bY: int)
    requires ThreeCase(aX, aY, bX, bY)
    ensures var aX2, aY2 := Half(aX), Half(aY);
      var (bX2, bY2) := EvenHalf(bX, bY);
      var x3, y3 := x + (aX - Sign(aX)) + (bX2 - Sign(bX)), y + (aY - Sign(aY)) + (bY2 - Sign(bY));
      var w, w2, h2 := Width(aX, aY), Width(aX, aY) / 2, EvenLen(Height(bX, bY));
      && Aligned(-bX2, -bY2, -(aX - aX2), -(aY - aY2))
      && Path(x3, y3, -bX2, -bY2, -(aX - aX2), -(aY - aY2))
         == Place(x, y, Sign(aX), Sign(aY), Sign(bX), Sign(bY), Turn(LocalCurve(h2, w - w2), w - 1, h2 - 1))
    decreases Width(aX, aY) + Height(bX, bY), 0
  {
    ThirdDims(x, y, aX, aY, bX, bY);
    var aX2, aY2 := Half(aX), Half(aY);
    var (bX2, bY2) := EvenHalf(bX, bY);
    var x3, y3 := x + (aX - Sign(aX)) + (bX2 - Sign(bX)), y + (aY - Sign(aY)) + (bY2 - Sign(bY));
    var w, w2, h2 := Width(aX, aY), Width(aX, aY) / 2, EvenLen(Height(bX, bY));
    TurnedPart(x3, y3, -bX2, -bY2, -(aX - aX2), -(aY - aY2), x, y, Sign(aX), Sign(aY), Sign(bX), Sign(bY),
               h2, w - w2, w - 1, h2 - 1);
  }

  /** A frame along (dbX, dbY), (daX, daY) at (x, y) walks the p x q reference
      curve exchanged: the block of the (daX, daY), (dbX, dbY) frame at the
      same corner. */
  lemma {:induction false} SwappedPart(x: int, y: int, cX: int, cY: int, dX: int, dY: int,
                                       daX: int, daY: int, dbX: int, dbY: int, p: nat, q: nat)
    requires Aligned(cX, cY, dX, dY) && Width(cX, cY) == p && Height(dX, dY) == q
    requires Sign(cX) == dbX && Sign(cY) == dbY && Sign(dX) == daX && Sign(dY) == daY
    ensures Path(x, y, cX, cY, dX, dY) == Place(x, y, daX, daY, dbX, dbY, Swap(LocalCurve(p, q)))
    decreases Width(cX, cY) + Height(dX, dY), 4
  {
    CurvePlaced(x, y, cX, cY, dX, dY);
    PlaceSwapAt(x, y, daX, daY, dbX, dbY, Sign(cX), Sign(cY), Sign(dX), Sign(dY),
                Width(cX, cY), Height(dX, dY), p, q);
  }

  /** A frame with the axis directions of the (daX, daY), (dbX, dbY) frame,
      started at its cell (t, u), walks the p x q reference curve shifted by
      (t, u). */
  lemma {:induction false} ShiftedPart(ox: int, oy: int, cX: int, cY: int, dX: int, dY: int,
                                       x: int, y: int, daX: int, daY: int, dbX: int, dbY: int,
                                       p: nat, q: nat, t: int, u: int)
    requires Aligned(cX, cY, dX, dY) && Width(cX, cY) == p && Height(dX, dY) == q
    requires Sign(cX) == daX && Sign(cY) == daY && Sign(dX) == dbX && Sign(dY) == dbY
    requires ox == x + Scale(daX, t) + Scale(dbX, u) && oy == y + Scale(daY, t) + Scale(dbY, u)
    ensures Path(ox, oy, cX, cY, dX, dY) == Place(x, y, daX, daY, dbX, dbY, Shift(LocalCurve(p, q), t, u))
    decreases Width(cX, cY) + Height(dX, dY), 4
  {
    CurvePlaced(ox, oy, cX, cY, dX, dY);
    PlaceShiftAt(ox, oy, x, y, daX, daY, dbX, dbY, Sign(dX), Sign(dY),
                 Width(cX, cY), Height(dX, dY), p, q, t, u);
  }

  /** A frame along the reversed, exchanged axes of the (daX, daY), (dbX, dbY)
      frame, started at its cell (cx, cy), walks the p x q reference curve
      turned about that cell. */
  lemma {:induction false} TurnedPart(ox: int, oy: int, cX: int, cY: int, dX: int, dY: int,
                                      x: int, y: int, daX: int, daY: int, dbX: int, dbY: int,
                                      p: nat, q: nat, cx: int, cy: int)
    requires Aligned(cX, cY, dX, dY) && Width(cX, cY) == p && Height(dX, dY) == q
    requires Sign(cX) == -dbX && Sign(cY) == -dbY && Sign(dX) == -daX && Sign(dY) == -daY
    requires ox == x + Scale(daX, cx) + Scale(dbX, cy) && oy == y + Scale(daY, cx) + Scale(dbY, cy)
    ensures Path(ox, oy, cX, cY, dX, dY) == Place(x, y, daX, daY, dbX, dbY, Turn(LocalCurve(p, q), cx, cy))
    decreases Width(cX, cY) + Height(dX, dY), 4
  {
    CurvePlaced(ox, oy, cX, cY, dX, dY);
    PlaceTurnAt(ox, oy, x, y, daX, daY, dbX, dbY, Sign(cX), Sign(cY), Sign(dX), Sign(dY),
                Width(cX, cY), Height(dX, dY), p, q, cx, cy);
  }

  /** PlaceSwap for a reference curve given by its dimensions. */
  lemma {:induction false} PlaceSwapAt(x: int, y: int, daX: int, daY: int, dbX: int, dbY: int,
                    eX: int, eY: int, fX: int, fY: int, p: nat, q: nat, p': nat, q': nat)
    requires p >= 1 && q >= 1 && p == p' && q == q'
    requires eX == dbX && eY == dbY && fX == daX && fY == daY
    ensures Place(x, y, eX, eY, fX, fY, LocalCurve(p, q)) == Place(x, y, daX, daY, dbX, dbY, Swap(LocalCurve(p', q')))
  {
    PlaceSwap(x, y, daX, daY, dbX, dbY, LocalCurve(p, q));
  }

  /** PlaceShift for a reference curve given by its dimensions. */
  lemma {:induction false} PlaceShiftAt(ox: int, oy: int, x: int, y: int, daX: int, daY: int, dbX: int, dbY: int,
                     fX: int, fY: int, p: nat, q: nat, p': nat, q': nat, t: int, u: int)
    requires p >= 1 && q >= 1 && p == p' && q == q'
    requires fX == dbX && fY == dbY
    requires ox == x + Scale(daX, t) + Scale(dbX, u) && oy == y + Scale(daY, t) + Scale(dbY, u)
    ensures Place(ox, oy, daX, daY, fX, fY, LocalCurve(p, q)) == Place(x, y, daX, daY, dbX, dbY, Shift(LocalCurve(p', q'), t, u))
  {
    PlaceShift(ox, oy, x, y, daX, daY, dbX, dbY, LocalCurve(p, q), t, u);
  }

  /** PlaceTurn for a reference curve given by its dimensions. */
  lemma {:induction false} PlaceTurnAt(ox: int, oy: int, x: int, y: int, daX: int, daY: int, dbX: int, dbY: int,
                    eX: int, eY: int, fX: int, fY: int, p: nat, q: nat, p': nat, q': nat, cx: int, cy: int)
    requires p >= 1 && q >= 1 && p == p' && q == q'
    requires eX == -dbX && eY == -dbY && fX == -daX && fY == -daY
    requires ox == x + Scale(daX, cx) + Scale(dbX, cy) && oy == y + Scale(daY, cx) + Scale(dbY, cy)
    ensures Place(ox, oy, eX, eY, fX, fY, LocalCurve(p, q)) == Place(x, y, daX, daY, dbX, dbY, Turn(LocalCurve(p', q'), cx, cy))
  {
    PlaceTurn(ox, oy, x, y, daX, daY, dbX, dbY, LocalCurve(p, q), cx, cy);
  }

  /** What the first part of the 3-way split needs to know about its frame. */
  lemma {:induction false} FirstDims(aX: int, aY: int, bX: int, bY: int)
    requires ThreeCase(aX, aY, bX, bY)
    ensures var aX2, aY2 := Half(aX), Half(aY);
      var (bX2, bY2) := EvenHalf(bX, bY);
      var w, h := Width(aX, aY), Height(bX, bY);
      var w2, h2 := w / 2, EvenLen(h);
      && Aligned(bX2, bY2, aX2, aY2)
      && Width(bX2, bY2) + Height(aX2, aY2) < w + h
      && Width(bX2, bY2) == h2 && Height(aX2, aY2) == w2 && h2 >= 1 && w2 >= 1
      && Sign(bX2) == Sign(bX) && Sign(bY2) == Sign(bY)
      && Sign(aX2) == Sign(aX) && Sign(aY2) == Sign(aY)
  {
    ThreeDims(aX, aY, bX, bY);
    SplitThree(aX, aY, bX, bY);
  }

  /** What the second part of the 3-way split needs to know about its frame. */
  lemma {:induction false} SecondDims(aX: int, aY: int, bX: int, bY: int)
    requires ThreeCase(aX, aY, bX, bY)
    ensures var (bX2, bY2) := EvenHalf(bX, bY);
      var w, h := Width(aX, aY), Height(bX, bY);
      var h2 := EvenLen(h);
      && Aligned(aX, aY, bX - bX2, bY - bY2)
      && Height(bX - bX2, bY - bY2) < h
      && Height(bX - bX2, bY - bY2) == h - h2 && h - h2 >= 1
      && Sign(bX - bX2) == Sign(bX) && Sign(bY - bY2) == Sign(bY)
      && bX2 == Scale(Sign(aX), 0) + Scale(Sign(bX), h2)
      && bY2 == Scale(Sign(aY), 0) + Scale(Sign(bY), h2)
  {
    ThreeDims(aX, aY, bX, bY);
    SplitThree(aX, aY, bX, bY);
  }

  /** What the third part of the 3-way split needs to know about its frame. */
  lemma {:induction false} ThirdDims(x: int, y: int, aX: int, aY: int, bX: int, bY: int)
    requires ThreeCase(aX, aY, bX, bY)
    ensures var aX2, aY2 := Half(aX), Half(aY);
      var (bX2, bY2) := EvenHalf(bX, bY);
      var w, h := Width(aX, aY), Height(bX, bY);
      var w2, h2 := w / 2, EvenLen(h);
      && Aligned(-bX2, -bY2, -(aX - aX2), -(aY - aY2))
      && Width(-bX2, -bY2) + Height(-(aX - aX2), -(aY - aY2)) < w + h
      && Width(-bX2, -bY2) == h2 && Height(-(aX - aX2), -(aY - aY2)) == w - w2 && h2 >= 1 && w - w2 >= 1
      && Sign(-bX2) == -Sign(bX) && Sign(-bY2) == -Sign(bY)
      && Sign(-(aX - aX2)) == -Sign(aX) && Sign(-(aY - aY2)) == -Sign(aY)
      && x + (aX - Sign(aX)) + (bX2 - Sign(bX)) == x + Scale(Sign(aX), w - 1) + Scale(Sign(bX), h2 - 1)
      && y + (aY - Sign(aY)) + (bY2 - Sign(bY)) == y + Scale(Sign(aY), w - 1) + Scale(Sign(bY), h2 - 1)
  {
    ThreeDims(aX, aY, bX, bY);
    SplitThree(aX, aY, bX, bY);
  }
  // ---------------------------------------------------------------------
  // The splits as `generate2d` computes them, for the ditherer.
  // ---------------------------------------------------------------------

  lemma {:induction false} TwoSplit(x: int, y: int, aX: int, aY: int, bX: int, bY: int, aX2: int, aY2: int)
    requires Aligned(aX, aY, bX, bY)
    requires Width(aX, aY) >= 2 && Height(bX, bY) >= 2 && 2 * Width(aX, aY) > 3 * Height(bX, bY)
    requires (aX2, aY2) == EvenHalf(aX, aY)
    ensures Aligned(aX2, aY2, bX, bY) && Aligned(aX - aX2, aY - aY2, bX, bY)
    ensures Width(aX2, aY2) + Height(bX, bY) < Width(aX, aY) + Height(bX, bY)
    ensures Width(aX - aX2, aY - aY2) + Height(bX, bY) < Width(aX, aY) + Height(bX, bY)
    ensures Path(x, y, aX, aY, bX, bY)
            == Path(x, y, aX2, aY2, bX, bY) + Path(x + aX2, y + aY2, aX - aX2, aY - aY2, bX, bY)
  {
    SplitTwo(aX, aY, bX, bY);
    CurveTwo(x, y, aX, aY, bX, bY);
  }

  lemma {:induction false} TwoSplitPath(x: int, y: int, aX: int, aY: int, bX: int, bY: int, aX2: int, aY2: int)
    requires Aligned(aX, aY, bX, bY)
    requires Width(aX, aY) >= 2 && Height(bX, bY) >= 2 && 2 * Width(aX, aY) > 3 * Height(bX, bY)
    requires (aX2, aY2) == EvenHalf(aX, aY)
    ensures Aligned(aX2, aY2, bX, bY) && Aligned(aX - aX2, aY - aY2, bX, bY)
    ensures Width(aX2, aY2) + Height(bX, bY) < Width(aX, aY) + Height(bX, bY)
    ensures Width(aX - aX2, aY - aY2) + Height(bX, bY) < Width(aX, aY) + Height(bX, bY)
    ensures Path(x, y, aX, aY, bX, bY)
            == Path(x, y, aX2, aY2, bX, bY) + Path(x + aX2, y + aY2, aX - aX2, aY - aY2, bX, bY)
  {
    TwoSplit(x, y, aX, aY, bX, bY, aX2, aY2);
  }

  /** The 2-way split of `generate2d`: `aX2, aY2` is the halved and evened
      major axis, and the second half starts at (x2, y2) with the rest
      (rX, rY) of the major axis. The two halves are smaller frames whose
      paths make up the frame's path. */
  lemma {:induction false} TwoSplitAt(x: int, y: int, aX: int, aY: int, bX: int, bY: int,
                   aX2: int, aY2: int, x2: int, y2: int, rX: int, rY: int)
    requires Aligned(aX, aY, bX, bY)
    requires Width(aX, aY) >= 2 && Height(bX, bY) >= 2 && 2 * Width(aX, aY) > 3 * Height(bX, bY)
    requires (aX2, aY2) == EvenHalf(aX, aY)
    requires x2 == x + aX2 && y2 == y + aY2 && rX == aX - aX2 && rY == aY - aY2
    ensures Aligned(aX2, aY2, bX, bY) && Aligned(rX, rY, bX, bY)
    ensures Width(aX2, aY2) + Height(bX, bY) < Width(aX, aY) + Height(bX, bY)
    ensures Width(rX, rY) + Height(bX, bY) < Width(aX, aY) + Height(bX, bY)
    ensures Path(x, y, aX, aY, bX, bY) == Path(x, y, aX2, aY2, bX, bY) + Path(x2, y2, rX, rY, bX, bY)
  {
    TwoSplitPath(x, y, aX, aY, bX, bY, aX2, aY2);
  }

  /** The three parts of the 3-way split are aligned frames, each smaller
      than the frame split. */
  lemma {:induction false} ThreeFrames(aX: int, aY: int, bX: int, bY: int, aX2: int, aY2: int, bX2: int, bY2: int)
    requires Aligned(aX, aY, bX, bY)
    requires Width(aX, aY) >= 2 && Height(bX, bY) >= 2 && 2 * Width(aX, aY) <= 3 * Height(bX, bY)
    requires aX2 == Half(aX) && aY2 == Half(aY) && (bX2, bY2) == EvenHalf(bX, bY)
    ensures Aligned(bX2, bY2, aX2, aY2)
    ensures Aligned(aX, aY, bX - bX2, bY - bY2)
    ensures Aligned(-bX2, -bY2, -(aX - aX2), -(aY - aY2))
    ensures Width(bX2, bY2) + Height(aX2, aY2) < Width(aX, aY) + Height(bX, bY)
    ensures Width(aX, aY) + Height(bX - bX2, bY - bY2) < Width(aX, aY) + Height(bX, bY)
    ensures Width(-bX2, -bY2) + Height(-(aX - aX2), -(aY - aY2)) < Width(aX, aY) + Height(bX, bY)
  {
    SplitThree(aX, aY, bX, bY);
  }

  lemma {:induction false} ThreeSplitRaw(x: int, y: int, aX: int, aY: int, bX: int, bY: int)
    requires Aligned(aX, aY, bX, bY)
    requires Width(aX, aY) >= 2 && Height(bX, bY) >= 2 && 2 * Width(aX, aY) <= 3 * Height(bX, bY)
    ensures var aX2, aY2 := Half(aX), Half(aY);
      var bX2, bY2 := EvenHalf(bX, bY).0, EvenHalf(bX, bY).1;
      var x3, y3 := x + (aX - Sign(aX)) + (bX2 - Sign(bX)), y + (aY - Sign(aY)) + (bY2 - Sign(bY));
      && Aligned(bX2, bY2, aX2, aY2)
      && Aligned(aX, aY, bX - bX2, bY - bY2)
      && Aligned(-bX2, -bY2, -(aX - aX2), -(aY - aY2))
      && Path(x, y, aX, aY, bX, bY)
         == Path(x, y, bX2, bY2, aX2, aY2)
            + Path(x + bX2, y + bY2, aX, aY, bX - bX2, bY - bY2)
            + Path(x3, y3, -bX2, -bY2, -(aX - aX2), -(aY - aY2))
  {
    CurveThree(x, y, aX, aY, bX, bY);
  }

  /** The frames of the 3-way split of `generate2d`: `aX2, aY2` is the halved
      major axis and `bX2, bY2` the halved and evened minor axis; the second
      part has the rest (rX, rY) of the minor axis, the third walks back along
      (cX, cY) with minor axis (dX, dY). All three are aligned frames smaller
      than the frame split. */
  lemma {:induction false} ThreeFramesAt(aX: int, aY: int, bX: int, bY: int,
                      aX2: int, aY2: int, bX2: int, bY2: int,
                      rX: int, rY: int, cX: int, cY: int, dX: int, dY: int)
    requires Aligned(aX, aY, bX, bY)
    requires Width(aX, aY) >= 2 && Height(bX, bY) >= 2 && 2 * Width(aX, aY) <= 3 * Height(bX, bY)
    requires aX2 == Half(aX) && aY2 == Half(aY) && (bX2, bY2) == EvenHalf(bX, bY)
    requires rX == bX - bX2 && rY == bY - bY2
    requires cX == -bX2 && cY == -bY2 && dX == -(aX - aX2) && dY == -(aY - aY2)
    ensures Aligned(bX2, bY2, aX2, aY2)
    ensures Aligned(aX, aY, rX, rY)
    ensures Aligned(cX, cY, dX, dY)
    ensures Width(bX2, bY2) + Height(aX2, aY2) < Width(aX, aY) + Height(bX, bY)
    ensures Width(aX, aY) + Height(rX, rY) < Width(aX, aY) + Height(bX, bY)
    ensures Width(cX, cY) + Height(dX, dY) < Width(aX, aY) + Height(bX, bY)
  {
    ThreeFrames(aX, aY, bX, bY, aX2, aY2, bX2, bY2);
  }

  /** The path of a 3-way split frame is the paths of its parts: the second
      part starts at (x2, y2), the third at the far corner (x3, y3). */
  lemma {:induction false} ThreeSplitAt(x: int, y: int, aX: int, aY: int, bX: int, bY: int,
                     aX2: int, aY2: int, bX2: int, bY2: int,
                     x2: int, y2: int, rX: int, rY: int,
                     x3: int, y3: int, cX: int, cY: int, dX: int, dY: int)
    requires Aligned(aX, aY, bX, bY)
    requires Width(aX, aY) >= 2 && Height(bX, bY) >= 2 && 2 * Width(aX, aY) <= 3 * Height(bX, bY)
    requires aX2 == Half(aX) && aY2 == Half(aY) && bX2 == EvenHalf(bX, bY).0 && bY2 == EvenHalf(bX, bY).1
    requires x2 == x + bX2 && y2 == y + bY2 && rX == bX - bX2 && rY == bY - bY2
    requires x3 == x + (aX - Sign(aX)) + (bX2 - Sign(bX)) && y3 == y + (aY - Sign(aY)) + (bY2 - Sign(bY))
    requires cX == -bX2 && cY == -bY2 && dX == -(aX - aX2) && dY == -(aY - aY2)
    requires Aligned(bX2, bY2, aX2, aY2) && Aligned(aX, aY, rX, rY) && Aligned(cX, cY, dX, dY)
    ensures Path(x, y, aX, aY, bX, bY)
            == Path(x, y, bX2, bY2, aX2, aY2) + Path(x2, y2, aX, aY, rX, rY) + Path(x3, y3, cX, cY, dX, dY)
  {
    ThreeSplitRaw(x, y, aX, aY, bX, bY);
  }

  // ---------------------------------------------------------------------
  // What `dither` relies on.
  // ---------------------------------------------------------------------

  /** The base cases of `generate2d`: a frame of height 1 is one row, a frame
      of width 1 one column. */
  lemma {:induction false} BaseLines(x: int, y: int, aX: int, aY: int, bX: int, bY: int)
    requires Aligned(aX, aY, bX, bY)
    ensures Height(bX, bY) == 1 ==> Path(x, y, aX, aY, bX, bY) == Line(x, y, Sign(aX), Sign(aY), Width(aX, aY))
    ensures Height(bX, bY) != 1 && Width(aX, aY) == 1
            ==> Path(x, y, aX, aY, bX, bY) == Line(x, y, Sign(bX), Sign(bY), Height(bX, bY))
  {
  }

  /** In both base cases `generate2d` emits one pixel per step of its single
      row or column, starting at the corner. */
  lemma {:induction false} BaseCases(x: int, y: int, aX: int, aY: int, bX: int, bY: int, k: nat)
    requires Aligned(aX, aY, bX, bY)
    ensures Height(bX, bY) == 1 && k < Width(aX, aY)
            ==> Curve(x, y, aX, aY, bX, bY)[k] == Point(x + Scale(Sign(aX), k), y + Scale(Sign(aY), k))
    ensures Height(bX, bY) != 1 && Width(aX, aY) == 1 && k < Height(bX, bY)
            ==> Curve(x, y, aX, aY, bX, bY)[k] == Point(x + Scale(Sign(bX), k), y + Scale(Sign(bY), k))
  {
    if Height(bX, bY) == 1 && k < Width(aX, aY) {
      LineAt(x, y, Sign(aX), Sign(aY), Width(aX, aY), k);
    } else if Height(bX, bY) != 1 && Width(aX, aY) == 1 && k < Height(bX, bY) {
      LineAt(x, y, Sign(bX), Sign(bY), Height(bX, bY), k);
    }
  }

  lemma {:induction false} EvenLenEven(n: nat)
    requires n > 2
    ensures EvenLen(n) % 2 == 0
  {
  }

  /** When the major axis is longer than 2, the 2-way split makes its first
      half even, and the two halves add up to the axis. */
  lemma {:induction false} EvenHalfEven(aX: int, aY: int, bX: int, bY: int)
    requires Aligned(aX, aY, bX, bY) && Width(aX, aY) > 2
    ensures var (aX2, aY2) := EvenHalf(aX, aY);
      && Width(aX2, aY2) % 2 == 0
      && Width(aX2, aY2) + Width(aX - aX2, aY - aY2) == Width(aX, aY)
  {
    TwoDims(aX, aY, bX, bY);
    EvenLenEven(Width(aX, aY));
  }

  /** `generate2d` emits exactly w * h pixels. */
  lemma {:induction false} CurveLength(x: int, y: int, aX: int, aY: int, bX: int, bY: int)
    requires Aligned(aX, aY, bX, bY)
    ensures |Path(x, y, aX, aY, bX, bY)| == Width(aX, aY) * Height(bX, bY)
  {
    CurvePlaced(x, y, aX, aY, bX, bY);
    LocalLength(Width(aX, aY), Height(bX, bY));
  }

  /** The pixels `dither` visits: `generate2d` starts at the origin with the
      longer side of the image as its major axis. */
  function ImageCurve(width: nat, height: nat): seq<Point>
    requires width >= 1 && height >= 1
  {
    if width >= height then Path(0, 0, width, 0, 0, height)
    else Path(0, 0, 0, height, width, 0)
  }

  lemma {:induction false} PlaceIdentity(s: seq<Point>)
    ensures Place(0, 0, 1, 0, 0, 1, s) == s
  {
  }

  lemma {:induction false} PlaceTranspose(s: seq<Point>)
    ensures Place(0, 0, 0, 1, 1, 0, s) == Swap(s)
  {
  }

  /** The curve of a landscape image is the reference curve itself. */
  lemma {:induction false} WideExact(width: nat, height: nat)
    requires 1 <= height <= width
    ensures Path(0, 0, width, 0, 0, height) == LocalCurve(width, height)
  {
    CurvePlaced(0, 0, width, 0, 0, height);
    PlaceIdentity(LocalCurve(width, height));
  }

  /** The curve of a portrait image is the reference curve with its
      coordinates exchanged. */
  lemma {:induction false} TallExact(width: nat, height: nat)
    requires 1 <= width < height
    ensures Path(0, 0, 0, height, width, 0) == Swap(LocalCurve(height, width))
  {
    CurvePlaced(0, 0, 0, height, width, 0);
    PlaceTranspose(LocalCurve(height, width));
  }

  /** The reference curve of a w x h block visits each of its pixels once. */
  lemma {:induction false} LocalExact(w: nat, h: nat)
    requires w >= 1 && h >= 1
    ensures |LocalCurve(w, h)| == w * h
    ensures Distinct(LocalCurve(w, h))
    ensures forall p :: p in LocalCurve(w, h) <==> InGrid(w, h, p)
  {
    LocalLength(w, h);
    LocalDistinct(w, h);
    forall p ensures p in LocalCurve(w, h) <==> InGrid(w, h, p) {
      LocalMember(w, h, p);
    }
  }

  /** So does the reference curve of an h x w block with its coordinates
      exchanged, on the w x h block. */
  lemma {:induction false} SwapExact(w: nat, h: nat)
    requires w >= 1 && h >= 1
    ensures |Swap(LocalCurve(h, w))| == w * h
    ensures Distinct(Swap(LocalCurve(h, w)))
    ensures forall p :: p in Swap(LocalCurve(h, w)) <==> InGrid(w, h, p)
  {
    var l := LocalCurve(h, w);
    LocalExact(h, w);
    DistinctSwap(l);
    forall p ensures p in Swap(l) <==> InGrid(w, h, p) {
      InSwap(l, p);
      LocalMember(h, w, Point(p.y, p.x));
    }
  }

  /** `dither` visits every pixel of the image exactly once and nothing
      outside it. */
  lemma {:induction false} ImageCurveExact(width: nat, height: nat)
    requires width >= 1 && height >= 1
    ensures |ImageCurve(width, height)| == width * height
    ensures Distinct(ImageCurve(width, height))
    ensures forall p :: p in ImageCurve(width, height) <==> InGrid(width, height, p)
  {
    if width >= height {
      WideExact(width, height);
      LocalExact(width, height);
    } else {
      TallExact(width, height);
      SwapExact(width, height);
    }
  }
}
