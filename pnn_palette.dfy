/** "Fill palette": the walk along the surviving chain from bin 0 that writes
    one palette entry per bin, moving a fully transparent entry to slot 0. */
module PnnPalette {
  import opened Colors
  import opened PnnBins
  import opened PnnQuant

  /** The bins the fill visits: the live chain, or bin 0 alone when there
      were no bins at all. */
  ghost function Walk(s: seq<Bin>, m: nat): seq<nat>
    requires 1 <= |s| && m <= |s|
  {
    if m == 0 then [0] else LiveOrder(s, m)
  }

  /** The palette colour of a surviving bin: alpha `rint(ac)` when the image
      has a transparent pixel and opaque otherwise, the colour channels
      truncated, each narrowed to a byte. */
  function Entry(b: Bin, hasTransparent: bool): (c: Color)
    ensures !hasTransparent ==> c.a == 255
    ensures hasTransparent && 0 <= Rint(b.ac) < 256 ==> c.a == Rint(b.ac)
    ensures 0.0 <= b.rc < 256.0 ==> c.r == b.rc.Floor
    ensures 0.0 <= b.gc < 256.0 ==> c.g == b.gc.Floor
    ensures 0.0 <= b.bc < 256.0 ==> c.b == b.bc.Floor
  {
    var alpha := if hasTransparent then Rint(b.ac) else BYTE_MAX;
    Color(ToByte(alpha), ToByte(Trunc(b.rc)), ToByte(Trunc(b.gc)), ToByte(Trunc(b.bc)))
  }

  /** The step for the k-th visited bin: write its entry at k; an entry of
      alpha 0 in an image with a transparent pixel is swapped with slot 0,
      and slot 0 then becomes the transparent colour. */
  function Place(pal: seq<Color>, k: nat, b: Bin, hasTransparent: bool, transparent: Color): (r: seq<Color>)
    requires k < |pal|
    ensures |r| == |pal|
  {
    var p := pal[k := Entry(b, hasTransparent)];
    if hasTransparent && Rint(b.ac) == 0 then p[k := p[0]][0 := transparent] else p
  }

  /** The palette after the fill has visited the bins of `order`. */
  ghost function Filled(pal: seq<Color>, s: seq<Bin>, order: seq<nat>, hasTransparent: bool, transparent: Color): (r: seq<Color>)
    requires |order| <= |pal| && forall j :: 0 <= j < |order| ==> order[j] < |s|
    ensures |r| == |pal|
    decreases |order|
  {
    if order == [] then pal
    else
      var k := |order| - 1;
      Place(Filled(pal, s, order[..k], hasTransparent, transparent), k, s[order[k]], hasTransparent, transparent)
  }

  /** The fill touches only the first |order| slots. */
  lemma {:induction false} FilledBeyond(pal: seq<Color>, s: seq<Bin>, order: seq<nat>, hasTransparent: bool, transparent: Color)
    requires |order| <= |pal| && forall j :: 0 <= j < |order| ==> order[j] < |s|
    ensures forall j :: |order| <= j < |pal| ==> Filled(pal, s, order, hasTransparent, transparent)[j] == pal[j]
    decreases |order|
  {
    if order != [] {
      FilledBeyond(pal, s, order[..|order| - 1], hasTransparent, transparent);
    }
  }

  /** Without an entry of alpha 0 to move, slot j holds the entry of the j-th
      visited bin. */
  lemma {:induction false} FilledInOrder(pal: seq<Color>, s: seq<Bin>, order: seq<nat>, hasTransparent: bool, transparent: Color)
    requires |order| <= |pal| && forall j :: 0 <= j < |order| ==> order[j] < |s|
    requires hasTransparent ==> forall j :: 0 <= j < |order| ==> Rint(s[order[j]].ac) != 0
    ensures forall j :: 0 <= j < |order| ==> Filled(pal, s, order, hasTransparent, transparent)[j] == Entry(s[order[j]], hasTransparent)
    decreases |order|
  {
    if order != [] {
      var k := |order| - 1;
      FilledInOrder(pal, s, order[..k], hasTransparent, transparent);
      assert forall j :: 0 <= j < k ==> order[..k][j] == order[j];
    }
  }

  /** Once a bin of alpha 0 has been visited in an image with a transparent
      pixel, slot 0 holds the transparent colour. */
  lemma {:induction false} FilledTransparent(pal: seq<Color>, s: seq<Bin>, order: seq<nat>, transparent: Color, j: nat)
    requires |order| <= |pal| && forall j :: 0 <= j < |order| ==> order[j] < |s|
    requires j < |order| && Rint(s[order[j]].ac) == 0
    ensures Filled(pal, s, order, true, transparent)[0] == transparent
    decreases |order|
  {
    var k := |order| - 1;
    if j < k {
      FilledTransparent(pal, s, order[..k], transparent, j);
    }
  }

  /** Step j of the walk w follows `fw` to a bin other than 0. */
  ghost predicate NextOf(s: seq<Bin>, w: seq<nat>, j: int)
    requires 0 <= j < |w| - 1 && w[j] < |s|
  {
    s[w[j]].fw == w[j + 1] != 0
  }

  /** The walk from bin 0 along `fw` visits the live bins in index order and
      stops at the last one, the only one whose `fw` is 0. */
  lemma {:induction false} ChainWalk(s: seq<Bin>, m: nat)
    requires 1 <= |s| && m <= |s| && Linked(s, m) && (m == 0 ==> s[0].fw == 0)
    ensures |Walk(s, m)| >= 1 && Walk(s, m)[0] == 0
    ensures forall j :: 0 <= j < |Walk(s, m)| ==> Walk(s, m)[j] < |s|
    ensures forall j :: 0 <= j < |Walk(s, m)| - 1 ==> NextOf(s, Walk(s, m), j)
    ensures forall j :: 0 <= j < |Walk(s, m)| ==> (s[Walk(s, m)[j]].fw == 0 <==> j == |Walk(s, m)| - 1)
  {
    if m > 0 {
      var r := LiveOrder(s, m);
      LiveOrderExact(s, m);
      assert 0 in r;
      assert r[0] == 0;
      forall j | 0 <= j < |r| - 1
        ensures NextOf(s, r, j)
      {
        WalkStep(s, m, r, j);
      }
      forall j | 0 <= j < |r|
        ensures s[r[j]].fw == 0 <==> j == |r| - 1
      {
        if j < |r| - 1 {
          WalkStep(s, m, r, j);
        } else {
          WalkLast(s, m, r);
        }
      }
    }
  }

  /** One step of the walk: the `fw` of a live bin is the next live bin. */
  lemma {:induction false} WalkStep(s: seq<Bin>, m: nat, r: seq<nat>, j: int)
    requires m <= |s| && Linked(s, m) && r == LiveOrder(s, m) && 0 <= j < |r| - 1
    requires forall j1, j2 :: 0 <= j1 < j2 < |r| ==> r[j1] < r[j2]
    requires forall x :: 0 <= x < m && !Dead(s, x) ==> x in r
    ensures s[r[j]].fw == r[j + 1] != 0
  {
    var a, b := r[j], r[j + 1];
    assert a < b && !Dead(s, b);
    assert LinkOk(s, m, a);
    var f := s[a].fw;
    assert f != 0;
    assert f in r;
    var t :| 0 <= t < |r| && r[t] == f;
    assert t > j;
    assert t == j + 1;
  }

  /** The last live bin's `fw` is 0. */
  lemma {:induction false} WalkLast(s: seq<Bin>, m: nat, r: seq<nat>)
    requires m <= |s| && Linked(s, m) && r == LiveOrder(s, m) && |r| >= 1
    requires forall j1, j2 :: 0 <= j1 < j2 < |r| ==> r[j1] < r[j2]
    requires forall x :: 0 <= x < m && !Dead(s, x) ==> x in r
    ensures s[r[|r| - 1]].fw == 0
  {
    var last := r[|r| - 1];
    forall x | last < x < m
      ensures Dead(s, x)
    {
    }
    assert LinkOk(s, m, last);
  }

  /** One step of the fill: the entry of bin b at slot k, moved to slot 0's
      place when it is fully transparent in an image with a transparent
      pixel. */
  method PlaceEntry(palette: array<Color>, k: nat, b: Bin, hasTransparent: bool, transparent: Color)
    requires k < palette.Length
    modifies palette
    ensures palette[..] == Place(old(palette[..]), k, b, hasTransparent, transparent)
  {
    var alpha := if hasTransparent then Rint(b.ac) else BYTE_MAX;
    palette[k] := Entry(b, hasTransparent);
    if hasTransparent && alpha == 0 {
      palette[k] := palette[0];
      palette[0] := transparent;
    }
  }

  /** "Fill palette": walk the chain from bin 0, write one entry per bin, and
      return the index of the last entry written. */
  method FillPalette(bins: array<Bin>, m: nat, hasTransparent: bool, transparent: Color, palette: array<Color>)
    returns (k: nat)
    requires 1 <= bins.Length && m <= bins.Length && Linked(bins[..], m)
    requires m == 0 ==> bins[0].fw == 0
    requires |Walk(bins[..], m)| <= palette.Length
    modifies palette
    ensures k + 1 == |Walk(bins[..], m)|
    ensures palette[..] == Filled(old(palette[..]), bins[..], Walk(bins[..], m), hasTransparent, transparent)
  {
    ghost var s := bins[..];
    ghost var order := Walk(s, m);
    ChainWalk(s, m);
    ghost var pal0 := palette[..];
    var i := 0;
    k := 0;
    while true
      invariant k < |order| && i == order[k]
      invariant palette[..] == Filled(pal0, s, order[..k], hasTransparent, transparent)
      decreases |order| - k
    {
      PlaceEntry(palette, k, bins[i], hasTransparent, transparent);
      assert order[..k + 1][..k] == order[..k];
      i := bins[i].fw;
      if i == 0 {
        assert k == |order| - 1;
        assert order[..k + 1] == order;
        break;
      }
      assert NextOf(s, order, k);
      k := k + 1;
    }
  }
}
