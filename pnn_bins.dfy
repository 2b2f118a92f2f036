/** The colour bins of the pairwise-nearest-neighbour quantizer: the histogram
    over 65536 slots, the compaction of the non-empty bins to the front, the
    reshaping of their counts and the doubly-linked chain through `fw`/`bk`
    that the merge phase works on. */
module PnnBins {
  import opened Colors

  /** `USHRT_MAX + 1` bins, one per 16-bit slot. */
  const BIN_COUNT: nat := 65536

  /** The `mtm` stamp of a deleted bin (USHRT_MAX). */
  const TOMBSTONE: int := 65535

  /** `pnnbin`: channel sums (later means), the cached merge cost, the pixel
      count, the nearest neighbour, the chain links and the two time stamps. */
  datatype Bin = Bin(ac: real, rc: real, gc: real, bc: real, err: Key, cnt: real,
                     nn: int, fw: int, bk: int, tm: int, mtm: int)

  const EmptyBin: Bin := Bin(0.0, 0.0, 0.0, 0.0, Fin(0.0), 0.0, 0, 0, 0, 0, 0)

  /** A bin whose neighbour, links and stamps are all still zero. */
  predicate Unlinked(b: Bin)
  {
    b.err == Fin(0.0) && b.nn == 0 && b.fw == 0 && b.bk == 0 && b.tm == 0 && b.mtm == 0
  }

  /** The channel weights PR, PG, PB and PA. */
  datatype Weights = Weights(pr: real, pg: real, pb: real, pa: real)

  function Sqr(v: real): real
  {
    v * v
  }

  /** What the merge cost of two bins depends on: their channel means and
      their counts. */
  datatype Cluster = Cluster(ac: real, rc: real, gc: real, bc: real, cnt: real)

  function ClusterOf(b: Bin): Cluster
  {
    Cluster(b.ac, b.rc, b.gc, b.bc, b.cnt)
  }

  /** `nerr` of `find_nn`: the weighted squared distance of the two means,
      alpha included only for semi-transparent images, times n1*n2/(n1+n2).
      Two empty clusters, which `pnnquan` never compares, cost 0. */
  function MergeCost(c1: Cluster, c2: Cluster, w: Weights, semi: bool): real
  {
    var d := w.pr * Sqr(c2.rc - c1.rc) + w.pg * Sqr(c2.gc - c1.gc) + w.pb * Sqr(c2.bc - c1.bc);
    var d2 := if semi then d + w.pa * Sqr(c2.ac - c1.ac) else d;
    if c1.cnt + c2.cnt == 0.0 then 0.0 else d2 * (c1.cnt * c2.cnt / (c1.cnt + c2.cnt))
  }

  lemma {:induction false} ProductNonNeg(a: real, b: real)
    requires a >= 0.0 && b >= 0.0
    ensures a * b >= 0.0
  {
  }

  /** With non-negative weights and counts no merge has a negative cost. */
  lemma {:induction false} MergeCostNonNeg(c1: Cluster, c2: Cluster, w: Weights, semi: bool)
    requires w.pr >= 0.0 && w.pg >= 0.0 && w.pb >= 0.0 && w.pa >= 0.0
    requires c1.cnt >= 0.0 && c2.cnt >= 0.0
    ensures MergeCost(c1, c2, w, semi) >= 0.0
  {
    ProductNonNeg(w.pr, Sqr(c2.rc - c1.rc));
    ProductNonNeg(w.pg, Sqr(c2.gc - c1.gc));
    ProductNonNeg(w.pb, Sqr(c2.bc - c1.bc));
    ProductNonNeg(w.pa, Sqr(c2.ac - c1.ac));
    var d := w.pr * Sqr(c2.rc - c1.rc) + w.pg * Sqr(c2.gc - c1.gc) + w.pb * Sqr(c2.bc - c1.bc);
    var d2 := if semi then d + w.pa * Sqr(c2.ac - c1.ac) else d;
    if c1.cnt + c2.cnt != 0.0 {
      ProductNonNeg(c1.cnt, c2.cnt);
      var n := c1.cnt * c2.cnt / (c1.cnt + c2.cnt);
      assert n >= 0.0;
      ProductNonNeg(d2, n);
    }
  }

  /** Two clusters with the same means (alpha only counting for a
      semi-transparent image) cost nothing to merge. */
  lemma {:induction false} MergeCostSame(c1: Cluster, c2: Cluster, w: Weights, semi: bool)
    requires c1.rc == c2.rc && c1.gc == c2.gc && c1.bc == c2.bc && (semi ==> c1.ac == c2.ac)
    ensures MergeCost(c1, c2, w, semi) == 0.0
  {
  }

  /** The merge cost does not depend on the order of the pair. */
  lemma {:induction false} MergeCostSymmetric(c1: Cluster, c2: Cluster, w: Weights, semi: bool)
    ensures MergeCost(c1, c2, w, semi) == MergeCost(c2, c1, w, semi)
  {
    assert Sqr(c2.rc - c1.rc) == Sqr(c1.rc - c2.rc);
    assert Sqr(c2.gc - c1.gc) == Sqr(c1.gc - c2.gc);
    assert Sqr(c2.bc - c1.bc) == Sqr(c1.bc - c2.bc);
    assert Sqr(c2.ac - c1.ac) == Sqr(c1.ac - c2.ac);
    assert c1.cnt * c2.cnt == c2.cnt * c1.cnt;
  }

  // ---------------------------------------------------------------- histogram

  /** A pixel whose alpha is at most the threshold counts as the transparent
      colour. */
  function Effective(c: Color, alphaThreshold: Byte, transparent: Color): Color
  {
    if c.a <= alphaThreshold then transparent else c
  }

  /** One pixel added to its bin: its channels to the sums, 1 to the count. */
  function AddPixel(b: Bin, c: Color): Bin
  {
    b.(ac := b.ac + c.a as real, rc := b.rc + c.r as real, gc := b.gc + c.g as real,
       bc := b.bc + c.b as real, cnt := b.cnt + 1.0)
  }

  /** The bins after the first n pixels. */
  function Histogram(pixels: seq<Color>, n: nat, alphaThreshold: Byte, transparent: Color,
                     slot: Color -> Slot): (h: seq<Bin>)
    requires n <= |pixels|
    ensures |h| == BIN_COUNT
    decreases n
  {
    if n == 0 then seq(BIN_COUNT, _ => EmptyBin)
    else
      var h := Histogram(pixels, n - 1, alphaThreshold, transparent, slot);
      var c := Effective(pixels[n - 1], alphaThreshold, transparent);
      h[slot(c) := AddPixel(h[slot(c)], c)]
  }

  /** The pixels among the first n that land in slot s. */
  ghost function SlotPixels(pixels: seq<Color>, n: nat, alphaThreshold: Byte, transparent: Color,
                            slot: Color -> Slot, s: Slot): set<nat>
    requires n <= |pixels|
  {
    set i | 0 <= i < n && slot(Effective(pixels[i], alphaThreshold, transparent)) == s
  }

  /** The "Build histogram" loop of `pnnquan`. */
  method BuildHistogram(pixels: seq<Color>, alphaThreshold: Byte, transparent: Color, slot: Color -> Slot)
    returns (bins: array<Bin>)
    ensures fresh(bins)
    ensures bins[..] == Histogram(pixels, |pixels|, alphaThreshold, transparent, slot)
  {
    bins := new Bin[BIN_COUNT](_ => EmptyBin);
    for p := 0 to |pixels|
      invariant bins.Length == BIN_COUNT
      invariant bins[..] == Histogram(pixels, p, alphaThreshold, transparent, slot)
    {
      var c := pixels[p];
      if c.a <= alphaThreshold {
        c := transparent;
      }
      var index := slot(c);
      ghost var before := bins[..];
      bins[index] := AddPixel(bins[index], c);
      assert bins[..] == before[index := AddPixel(before[index], c)];
    }
  }

  /** Each bin counts exactly the pixels whose (possibly replaced) colour maps
      to its slot. */
  lemma {:induction false} HistogramCounts(pixels: seq<Color>, n: nat, alphaThreshold: Byte, transparent: Color,
                                           slot: Color -> Slot, s: Slot)
    requires n <= |pixels|
    ensures Histogram(pixels, n, alphaThreshold, transparent, slot)[s].cnt
            == |SlotPixels(pixels, n, alphaThreshold, transparent, slot, s)| as real
    decreases n
  {
    if n > 0 {
      HistogramCounts(pixels, n - 1, alphaThreshold, transparent, slot, s);
      var prev := SlotPixels(pixels, n - 1, alphaThreshold, transparent, slot, s);
      var c := Effective(pixels[n - 1], alphaThreshold, transparent);
      if slot(c) == s {
        assert SlotPixels(pixels, n, alphaThreshold, transparent, slot, s) == prev + {n - 1};
      } else {
        assert SlotPixels(pixels, n, alphaThreshold, transparent, slot, s) == prev;
      }
    }
  }

  /** The total count over all bins. */
  function TotalCount(bs: seq<Bin>): real
  {
    if |bs| == 0 then 0.0 else TotalCount(bs[..|bs| - 1]) + bs[|bs| - 1].cnt
  }

  lemma {:induction false} TotalCountUpdate(bs: seq<Bin>, i: nat, b: Bin)
    requires i < |bs|
    ensures TotalCount(bs[i := b]) == TotalCount(bs) - bs[i].cnt + b.cnt
    decreases |bs|
  {
    var k := |bs| - 1;
    if i < k {
      assert bs[i := b][..k] == bs[..k][i := b];
      TotalCountUpdate(bs[..k], i, b);
    } else {
      assert bs[i := b][..k] == bs[..k];
    }
  }

  lemma {:induction false} TotalCountEmpty(n: nat)
    ensures TotalCount(seq(n, _ => EmptyBin)) == 0.0
    decreases n
  {
    if n > 0 {
      assert seq(n, _ => EmptyBin)[..n - 1] == seq(n - 1, _ => EmptyBin);
      TotalCountEmpty(n - 1);
    }
  }

  /** Every pixel adds exactly 1 to one bin: the counts sum to the number of
      pixels. */
  lemma {:induction false} HistogramTotal(pixels: seq<Color>, n: nat, alphaThreshold: Byte, transparent: Color,
                                          slot: Color -> Slot)
    requires n <= |pixels|
    ensures TotalCount(Histogram(pixels, n, alphaThreshold, transparent, slot)) == n as real
    decreases n
  {
    if n == 0 {
      TotalCountEmpty(BIN_COUNT);
    } else {
      HistogramTotal(pixels, n - 1, alphaThreshold, transparent, slot);
      var h := Histogram(pixels, n - 1, alphaThreshold, transparent, slot);
      var c := Effective(pixels[n - 1], alphaThreshold, transparent);
      TotalCountUpdate(h, slot(c), AddPixel(h[slot(c)], c));
    }
  }

  /** The histogram touches only sums and counts. */
  lemma {:induction false} HistogramUnlinked(pixels: seq<Color>, n: nat, alphaThreshold: Byte, transparent: Color,
                                             slot: Color -> Slot)
    requires n <= |pixels|
    ensures forall s :: 0 <= s < BIN_COUNT ==> Unlinked(Histogram(pixels, n, alphaThreshold, transparent, slot)[s])
    ensures forall s :: 0 <= s < BIN_COUNT ==> Histogram(pixels, n, alphaThreshold, transparent, slot)[s].cnt >= 0.0
    decreases n
  {
    if n > 0 {
      HistogramUnlinked(pixels, n - 1, alphaThreshold, transparent, slot);
    }
  }

  // --------------------------------------------------------------- compaction

  /** A non-empty bin's sums turned into means (`tb.ac *= 1.0 / tb.cnt`, ...). */
  function Averaged(b: Bin): Bin
    requires b.cnt > 0.0
  {
    var d := 1.0 / b.cnt;
    b.(ac := b.ac * d, rc := b.rc * d, gc := b.gc * d, bc := b.bc * d)
  }

  /** The indices of the non-empty bins, in increasing order. */
  function Kept(bs: seq<Bin>): (r: seq<nat>)
    ensures |r| <= |bs|
  {
    if |bs| == 0 then []
    else if bs[|bs| - 1].cnt > 0.0 then Kept(bs[..|bs| - 1]) + [|bs| - 1]
    else Kept(bs[..|bs| - 1])
  }

  lemma {:induction false} KeptInRange(bs: seq<Bin>)
    ensures forall j :: 0 <= j < |Kept(bs)| ==> Kept(bs)[j] < |bs| && bs[Kept(bs)[j]].cnt > 0.0
    decreases |bs|
  {
    if |bs| > 0 {
      var k := |bs| - 1;
      KeptInRange(bs[..k]);
    }
  }

  /** The bins that survive compaction, averaged, in their original order. */
  function Compacted(bs: seq<Bin>): (r: seq<Bin>)
    ensures |r| == |Kept(bs)|
  {
    KeptInRange(bs);
    seq(|Kept(bs)|, j requires 0 <= j < |Kept(bs)| => Averaged(bs[Kept(bs)[j]]))
  }

  /** The kept indices are exactly the non-empty bins, strictly increasing:
      compaction keeps every non-empty bin, drops every empty one and keeps
      their order. */
  lemma {:induction false} KeptExactly(bs: seq<Bin>)
    ensures forall j, k :: 0 <= j < k < |Kept(bs)| ==> Kept(bs)[j] < Kept(bs)[k]
    ensures forall p :: 0 <= p < |bs| && bs[p].cnt > 0.0 ==> p in Kept(bs)
    ensures forall p :: p in Kept(bs) ==> p < |bs| && bs[p].cnt > 0.0
    decreases |bs|
  {
    KeptInRange(bs);
    if |bs| > 0 {
      var k := |bs| - 1;
      KeptExactly(bs[..k]);
      KeptInRange(bs[..k]);
      assert forall p :: 0 <= p < k ==> bs[..k][p] == bs[p];
    }
  }

  /** One more bin examined by compaction. */
  lemma {:induction false} CompactedStep(s: seq<Bin>, i: nat)
    requires i < |s|
    ensures Kept(s[..i + 1]) == Kept(s[..i]) + (if s[i].cnt > 0.0 then [i] else [])
    ensures Compacted(s[..i + 1]) == Compacted(s[..i]) + (if s[i].cnt > 0.0 then [Averaged(s[i])] else [])
  {
    assert s[..i + 1][..i] == s[..i];
    var c, c1 := Compacted(s[..i]), Compacted(s[..i + 1]);
    KeptInRange(s[..i]);
    KeptInRange(s[..i + 1]);
    assert forall j :: 0 <= j < |c| ==> c1[j] == c[j];
  }

  /** What compaction leaves in the bin at index j at or beyond maxbins: the
      bin itself, averaged in place when it was not empty. */
  function Scaled(b: Bin): Bin
  {
    if b.cnt > 0.0 then Averaged(b) else b
  }

  /** The "Cluster nonempty bins at one end of array" loop. */
  method Compact(bins: array<Bin>) returns (maxbins: nat)
    modifies bins
    ensures maxbins == |Kept(old(bins[..]))|
    ensures bins[..maxbins] == Compacted(old(bins[..]))
    ensures forall j :: maxbins <= j < bins.Length ==> bins[j] == Scaled(old(bins[j]))
  {
    ghost var s := bins[..];
    maxbins := 0;
    for i := 0 to bins.Length
      invariant maxbins <= i
      invariant maxbins == |Kept(s[..i])|
      invariant bins[..maxbins] == Compacted(s[..i])
      invariant forall j :: maxbins <= j < i ==> bins[j] == Scaled(s[j])
      invariant forall j :: i <= j < bins.Length ==> bins[j] == s[j]
    {
      CompactedStep(s, i);
      if bins[i].cnt <= 0.0 {
        continue;
      }
      ghost var before := bins[..maxbins];
      bins[i] := Averaged(bins[i]);
      bins[maxbins] := bins[i];
      maxbins := maxbins + 1;
      assert bins[..maxbins] == before + [Averaged(s[i])];
    }
    assert s[..bins.Length] == s;
  }

  /** Compaction keeps sums, counts and links apart from the averaging. */
  /** Compaction drops only empty bins, so the total count is kept. */
  lemma {:induction false} CompactedTotal(bs: seq<Bin>)
    requires forall s :: 0 <= s < |bs| ==> bs[s].cnt >= 0.0
    ensures TotalCount(Compacted(bs)) == TotalCount(bs)
    decreases |bs|
  {
    if |bs| > 0 {
      var k := |bs| - 1;
      CompactedStep(bs, k);
      assert bs[..k + 1] == bs;
      CompactedTotal(bs[..k]);
      var c := Compacted(bs[..k]);
      if bs[k].cnt > 0.0 {
        assert (c + [Averaged(bs[k])])[..|c|] == c;
      } else {
        assert c + [] == c;
      }
    }
  }

  lemma {:induction false} CompactedUnlinked(bs: seq<Bin>)
    requires forall s :: 0 <= s < |bs| ==> Unlinked(bs[s])
    ensures forall j :: 0 <= j < |Compacted(bs)| ==> Unlinked(Compacted(bs)[j]) && Compacted(bs)[j].cnt > 0.0
  {
    KeptInRange(bs);
  }

  // ------------------------------------------------------------ count shaping

  /** `(int)` of a float: truncation toward zero. */
  function Trunc(v: real): (r: int)
    ensures v >= 0.0 ==> 0 <= r && r as real <= v < r as real + 1.0
  {
    if v >= 0.0 then v.Floor else -((-v).Floor)
  }

  /** `quan_rt`: 1, or -1 below 16 colours, or 0 when nMaxColors / maxbins
      lies strictly between .003 and .005. */
  function QuanRt(nMaxColors: nat, maxbins: nat): (r: int)
    ensures r == 0 <==> maxbins > 0 && 0.003 < nMaxColors as real / maxbins as real < 0.005
    ensures r == -1 <==> nMaxColors < 16 && !(maxbins > 0 && 0.003 < nMaxColors as real / maxbins as real < 0.005)
  {
    var q := if nMaxColors < 16 then -1 else 1;
    if maxbins > 0 && 0.003 < nMaxColors as real / maxbins as real < 0.005 then 0 else q
  }

  /** `getQuanFn`: how a bin's count is reshaped before merging. `pow75`,
      `sqrt` and `cbrt` stand for `pow(., 0.75)`, `_sqrt` and `cbrt`. */
  function GetQuanFn(nMaxColors: nat, quanRt: int, pow75: real -> real, sqrt: real -> real,
                     cbrt: real -> real): (real, bool) -> real
  {
    if quanRt > 0 then
      if nMaxColors < 64 then
        (cnt: real, isBlack: bool) => if isBlack then Trunc(pow75(cnt)) as real else Trunc(sqrt(cnt)) as real
      else
        (cnt: real, isBlack: bool) => if isBlack then pow75(cnt) else sqrt(cnt)
    else if quanRt < 0 then
      (cnt: real, isBlack: bool) => Trunc(cbrt(cnt)) as real
    else
      (cnt: real, isBlack: bool) => cnt
  }

  /** A reshaping that keeps every count of at least one at least one. */
  ghost predicate KeepsPositive(f: (real, bool) -> real)
  {
    forall cnt, isBlack :: cnt >= 1.0 ==> f(cnt, isBlack) >= 1.0
  }

  /** With `quan_rt == 0` counts are kept; otherwise, when the three roots map
      [1, inf) into [1, inf), so does the reshaping. */
  lemma {:induction false} QuanFnShape(nMaxColors: nat, quanRt: int, pow75: real -> real, sqrt: real -> real,
                                       cbrt: real -> real)
    requires forall v :: v >= 1.0 ==> pow75(v) >= 1.0 && sqrt(v) >= 1.0 && cbrt(v) >= 1.0
    ensures quanRt == 0 ==> forall cnt, isBlack :: GetQuanFn(nMaxColors, quanRt, pow75, sqrt, cbrt)(cnt, isBlack) == cnt
    ensures KeepsPositive(GetQuanFn(nMaxColors, quanRt, pow75, sqrt, cbrt))
  {
    var f := GetQuanFn(nMaxColors, quanRt, pow75, sqrt, cbrt);
    forall cnt, isBlack | cnt >= 1.0
      ensures f(cnt, isBlack) >= 1.0
    {
      var a, b, c := pow75(cnt), sqrt(cnt), cbrt(cnt);
      assert a >= 1.0 && b >= 1.0 && c >= 1.0;
      assert Trunc(a) >= 1 && Trunc(b) >= 1 && Trunc(c) >= 1;
    }
  }

  // ------------------------------------------------------------------- chain

  /** A bin is deleted once its `mtm` is the tombstone stamp. */
  predicate Dead(bs: seq<Bin>, c: int)
    requires 0 <= c < |bs|
  {
    bs[c].mtm == TOMBSTONE
  }

  /** No live bin strictly between lo and hi. */
  ghost predicate Gap(bs: seq<Bin>, lo: int, hi: int)
    requires 0 <= lo && hi <= |bs|
  {
    forall c :: lo < c < hi ==> Dead(bs, c)
  }

  /** The links of live bin b: `fw` is the next live bin, whose `bk` is b, or 0
      when b is the last live bin. */
  ghost predicate LinkOk(bs: seq<Bin>, m: nat, b: int)
    requires 0 <= b < m <= |bs|
  {
    var f := bs[b].fw;
    if f == 0 then Gap(bs, b, m)
    else b < f < m && !Dead(bs, f) && bs[f].bk == b && Gap(bs, b, f)
  }

  /** The chain: bin 0 is its live head and the live bins of 0..m-1 are linked
      through `fw`/`bk` in increasing index order. */
  ghost predicate Linked(bs: seq<Bin>, m: nat)
    requires m <= |bs|
  {
    && (m > 0 ==> !Dead(bs, 0))
    && forall b {:trigger LinkOk(bs, m, b)} :: 0 <= b < m && !Dead(bs, b) ==> LinkOk(bs, m, b)
  }

  /** The chain-building loop of `pnnquan`, count reshaping included, as a
      function of the bins before it. */
  function Chained(bs: seq<Bin>, m: nat, quanFn: (real, bool) -> real): (r: seq<Bin>)
    ensures |r| == |bs|
  {
    var last := if m == 0 then 0 else m - 1;
    seq(|bs|, j requires 0 <= j < |bs| =>
      var b := bs[j];
      var b1 := if j < m - 1 then b.(fw := j + 1) else b;
      var b2 := if 1 <= j < m then b1.(bk := j - 1) else b1;
      if j <= last then b2.(cnt := quanFn(b.cnt, j == 0)) else b2)
  }

  method BuildChain(bins: array<Bin>, maxbins: nat, quanFn: (real, bool) -> real)
    requires 1 <= bins.Length && maxbins <= bins.Length
    modifies bins
    ensures bins[..] == Chained(old(bins[..]), maxbins, quanFn)
  {
    ghost var s := bins[..];
    var j := 0;
    while j < maxbins - 1
      invariant 0 <= j && (j <= maxbins - 1 || j == 0)
      invariant forall t :: 0 <= t < j ==> bins[t] == Chained(s, maxbins, quanFn)[t]
      invariant j < bins.Length && bins[j] == (if j >= 1 then s[j].(bk := j - 1) else s[j])
      invariant forall t :: j < t < bins.Length ==> bins[t] == s[t]
    {
      bins[j] := bins[j].(fw := j + 1);
      bins[j + 1] := bins[j + 1].(bk := j);
      bins[j] := bins[j].(cnt := quanFn(bins[j].cnt, j == 0));
      j := j + 1;
    }
    bins[j] := bins[j].(cnt := quanFn(bins[j].cnt, j == 0));
    assert bins[..] == Chained(s, maxbins, quanFn);
  }

  /** Starting from bins whose links are all zero, the chain-building loop
      links bins 0..m-1 in order and leaves counts of at least one at least
      one. */
  lemma {:induction false} ChainedLinked(bs: seq<Bin>, m: nat, quanFn: (real, bool) -> real)
    requires m <= |bs| && forall j :: 0 <= j < |bs| ==> Unlinked(bs[j])
    ensures Linked(Chained(bs, m, quanFn), m)
    ensures forall j :: 0 <= j < m - 1 ==> Chained(bs, m, quanFn)[j].fw == j + 1
    ensures forall j :: 1 <= j < m ==> Chained(bs, m, quanFn)[j].bk == j - 1
    ensures m > 0 ==> Chained(bs, m, quanFn)[m - 1].fw == 0
    ensures m == 0 && |bs| > 0 ==> Chained(bs, m, quanFn)[0].fw == 0
    ensures forall j :: 0 <= j < |bs| ==> Chained(bs, m, quanFn)[j].mtm == 0
  {
    var r := Chained(bs, m, quanFn);
    forall b | 0 <= b < m && !Dead(r, b)
      ensures LinkOk(r, m, b)
    {
      if b < m - 1 {
        assert r[b].fw == b + 1;
        assert r[b + 1].bk == b;
      } else {
        assert r[b].fw == 0;
      }
    }
  }
}
