/** `PnnQuant`'s module state and entry points: the globals as the fields of
    a `Quantizer`, the memoised colour-index resolvers, `pnnquan` (histogram,
    compaction, count reshaping, chain, heap, merges and palette fill) and the
    palette and transparency fix-ups of `PnnQuantizer::QuantizeImage`. */
module PnnQuantizer {
  import opened Colors
  import opened PnnBins
  import opened PnnHeap
  import opened PnnQuant
  import opened PnnMerge
  import opened PnnPalette
  import opened PnnResolve
  import GilbertDither
  import BlueNoise

  // ------------------------------------------------------- weights and means

  /** `weight = nMaxColors * 1.0 / maxbins`, +infinity without bins. */
  function WeightOf(nMaxColors: nat, maxbins: nat): (r: Key)
    ensures r == Inf <==> maxbins == 0
    ensures r.Fin? ==> r.v >= 0.0 && r.v * maxbins as real == nMaxColors as real
  {
    if maxbins == 0 then Inf else Fin(nMaxColors as real / maxbins as real)
  }

  /** The retuning of PG and PB: when weight < .025 and PG < 1, the amount
      3 * (.025 + weight) moves from PG to PB. */
  function Retune(w: Weights, weight: Key): (r: Weights)
    ensures r.pr == w.pr && r.pa == w.pa && r.pg + r.pb == w.pg + w.pb
    ensures r != w ==> KeyLt(weight, Fin(0.025)) && w.pg < 1.0
    ensures weight.Fin? && weight.v >= 0.0 ==> w.pg - 0.15 < r.pg <= w.pg
  {
    if KeyLt(weight, Fin(0.025)) && w.pg < 1.0 then
      var delta := 3.0 * (0.025 + weight.v);
      w.(pg := w.pg - delta, pb := w.pb + delta)
    else w
  }

  /** Retuning keeps the weights non-negative when PG is at least .15, as it
      is for the weights `QuantizeImage` sets (.7152 or .587, or 1, which is
      never retuned). */
  lemma {:induction false} RetuneNonNeg(w: Weights, weight: Key)
    requires NonNeg(w) && w.pg >= 0.15 && weight.Fin? && weight.v >= 0.0
    ensures NonNeg(Retune(w, weight))
  {
  }

  /** One merged channel mean: `d * rint(n1 * x1 + n2 * x2)` with
      `d = 1 / (n1 + n2)`. */
  function MeanOf(x1: real, n1: real, x2: real, n2: real): real
    requires n1 + n2 != 0.0
  {
    (1.0 / (n1 + n2)) * Rint(n1 * x1 + n2 * x2) as real
  }

  /** The merged channel means of "do a merge". Two empty clusters, which
      are never merged, are left as the first. */
  function Absorbed(c1: Cluster, c2: Cluster): (r: Cluster)
  {
    var n := c1.cnt + c2.cnt;
    if n == 0.0 then c1
    else
      Cluster(MeanOf(c1.ac, c1.cnt, c2.ac, c2.cnt), MeanOf(c1.rc, c1.cnt, c2.rc, c2.cnt),
              MeanOf(c1.gc, c1.cnt, c2.gc, c2.cnt), MeanOf(c1.bc, c1.cnt, c2.bc, c2.cnt), n)
  }

  /** `mean`, scaled back by the joint count n1 + n2, is within 1/2 of the
      count-weighted sum `n1 * x1 + n2 * x2`. */
  ghost predicate WithinHalf(mean: real, x1: real, n1: real, x2: real, n2: real)
  {
    -0.5 <= mean * (n1 + n2) - (n1 * x1 + n2 * x2) <= 0.5
  }

  /** A merged mean is within 1/2 of the count-weighted sum it replaces. */
  lemma {:induction false} MeanChannel(x1: real, n1: real, x2: real, n2: real)
    requires n1 + n2 != 0.0
    ensures WithinHalf(MeanOf(x1, n1, x2, n2), x1, n1, x2, n2)
  {
    var r := Rint(n1 * x1 + n2 * x2) as real;
    assert (1.0 / (n1 + n2)) * r * (n1 + n2) == r;
  }

  /** The merged means are the count-weighted means of the pair up to the
      rounding of the weighted sums, and the count is the joint count. */
  lemma {:induction false} AbsorbedMean(c1: Cluster, c2: Cluster)
    requires c1.cnt + c2.cnt != 0.0
    ensures Absorbed(c1, c2).cnt == c1.cnt + c2.cnt
    ensures WithinHalf(Absorbed(c1, c2).ac, c1.ac, c1.cnt, c2.ac, c2.cnt)
    ensures WithinHalf(Absorbed(c1, c2).rc, c1.rc, c1.cnt, c2.rc, c2.cnt)
    ensures WithinHalf(Absorbed(c1, c2).gc, c1.gc, c1.cnt, c2.gc, c2.cnt)
    ensures WithinHalf(Absorbed(c1, c2).bc, c1.bc, c1.cnt, c2.bc, c2.cnt)
  {
    MeanChannel(c1.ac, c1.cnt, c2.ac, c2.cnt);
    MeanChannel(c1.rc, c1.cnt, c2.rc, c2.cnt);
    MeanChannel(c1.gc, c1.cnt, c2.gc, c2.cnt);
    MeanChannel(c1.bc, c1.cnt, c2.bc, c2.cnt);
  }

  // ------------------------------------------------------------ glue lemmas

  /** When every bin below k is live, all of them are in the chain. */
  lemma {:induction false} AllLive(s: seq<Bin>, k: nat)
    requires k <= |s| && forall b :: 0 <= b < k ==> !Dead(s, b)
    ensures |LiveOrder(s, k)| == k
    decreases k
  {
    if k > 0 {
      AllLive(s, k - 1);
    }
  }

  /** The state `BuildHeap` leaves, with all stamps still 0, is the state the
      merge loop starts from, with all m bins in the chain. */
  lemma {:induction false} SeededStarts(s: seq<Bin>, hs: seq<int>, m: nat, cost: (Cluster, Cluster) -> real)
    requires |s| == BIN_COUNT && Seeded(s, hs, m, m, cost)
    requires forall b :: 0 <= b < m ==> s[b].tm == 0 && s[b].mtm == 0
    ensures MergeState(s, hs, m, 0, cost) && |LiveOrder(s, m)| == m
  {
    forall b | 0 <= b < m && !Dead(s, b)
      ensures NearOk(s, m, b)
    {
      assert Nearest(s, m, b, cost);
    }
    forall b | 0 <= b < m && !Dead(s, b) && Fresh(s, b) && s[b].nn != 0
      ensures s[b].err == Fin(cost(ClusterOf(s[b]), ClusterOf(s[s[b].nn])))
    {
      assert Nearest(s, m, b, cost);
    }
    forall b | 0 <= b < m && !Dead(s, b)
      ensures b in Members(hs, hs[0])
    {
    }
    AllLive(s, m);
  }

  /** The total of the live bins below k depends only on those bins. */
  lemma {:induction false} LiveTotalAgree(s: seq<Bin>, t: seq<Bin>, k: nat)
    requires k <= |s| && k <= |t| && forall j :: 0 <= j < k ==> s[j] == t[j]
    ensures LiveTotal(s, k) == LiveTotal(t, k)
    decreases k
  {
    if k > 0 {
      LiveTotalAgree(s, t, k - 1);
    }
  }

  /** With every bin below k live, their total is the plain total count. */
  lemma {:induction false} LiveTotalAll(s: seq<Bin>, k: nat)
    requires k <= |s| && forall b :: 0 <= b < k ==> !Dead(s, b)
    ensures LiveTotal(s, k) == TotalCount(s[..k])
    decreases k
  {
    if k > 0 {
      LiveTotalAll(s, k - 1);
      assert s[..k][..k - 1] == s[..k - 1];
    }
  }

  /** Bins with the same counts have the same total count. */
  lemma {:induction false} TotalCountSame(s: seq<Bin>, t: seq<Bin>)
    requires |s| == |t| && forall j :: 0 <= j < |s| ==> s[j].cnt == t[j].cnt
    ensures TotalCount(s) == TotalCount(t)
    decreases |s|
  {
    if |s| > 0 {
      var k := |s| - 1;
      TotalCountSame(s[..k], t[..k]);
    }
  }

  /** A chain in which all k bins are still live lists them in index order. */
  lemma {:induction false} FullOrder(s: seq<Bin>, k: nat)
    requires k <= |s| && |LiveOrder(s, k)| == k
    ensures LiveOrder(s, k) == seq(k, j => j)
    ensures forall b :: 0 <= b < k ==> !Dead(s, b)
    decreases k
  {
    if k > 0 {
      assert |LiveOrder(s, k - 1)| <= k - 1;
      assert !Dead(s, k - 1);
      FullOrder(s, k - 1);
    }
  }

  // ------------------------------------------------------ what pnnquan builds

  /** The bins the merges of `pnnquan` start from: the compacted histogram,
      chained, with the counts reshaped by quanFn. */
  ghost function StartBins(pixels: seq<Color>, alphaThreshold: Byte, transparent: Color, slot: Color -> Slot,
                           quanFn: (real, bool) -> real): (r: seq<Bin>)
    ensures |r| == |Kept(Histogram(pixels, |pixels|, alphaThreshold, transparent, slot))| <= BIN_COUNT
  {
    var h := Histogram(pixels, |pixels|, alphaThreshold, transparent, slot);
    Chained(Compacted(h), |Kept(h)|, quanFn)
  }

  /** What the merges leave of the starting bins `start`: a chain of
      min(|start|, nMaxColors) live bins with the same total count and, when
      nothing had to be merged, the starting bins themselves, only their
      cached neighbours changed. */
  ghost predicate MergedFrom(bins: seq<Bin>, start: seq<Bin>, nMaxColors: nat)
  {
    && |bins| == BIN_COUNT && |start| <= BIN_COUNT && Linked(bins, |start|)
    && (|start| == 0 ==> bins[0].fw == 0)
    && |LiveOrder(bins, |start|)| == (if |start| > nMaxColors then nMaxColors else |start|)
    && LiveTotal(bins, |start|) == LiveTotal(start, |start|)
    && (|start| <= nMaxColors ==>
          forall b :: 0 <= b < |start| ==> bins[b] == start[b].(err := bins[b].err, nn := bins[b].nn))
  }

  /** The merge phase run on bins whose first m are c leaves what `MergedFrom`
      states for the chained c. */
  lemma {:induction false} MergedFromPrefix(u: seq<Bin>, c: seq<Bin>, s: seq<Bin>, m: nat, nMaxColors: nat,
                                            quanFn: (real, bool) -> real)
    requires |u| == BIN_COUNT && |s| == BIN_COUNT && m == |c| <= BIN_COUNT && u[..m] == c
    requires Linked(s, m) && (m == 0 ==> s[0].fw == 0)
    requires |LiveOrder(s, m)| == if m > nMaxColors then nMaxColors else m
    requires LiveTotal(s, m) == LiveTotal(Chained(u, m, quanFn), m)
    requires m <= nMaxColors ==> forall b :: 0 <= b < |s| ==> s[b] == Chained(u, m, quanFn)[b].(err := s[b].err, nn := s[b].nn)
    ensures MergedFrom(s, Chained(c, m, quanFn), nMaxColors)
  {
    var start := Chained(c, m, quanFn);
    assert forall j :: 0 <= j < m ==> u[j] == u[..m][j];
    assert forall j :: 0 <= j < m ==> Chained(u, m, quanFn)[j] == start[j];
    LiveTotalAgree(Chained(u, m, quanFn), start, m);
  }

  /** What `pnnquan` promises for an image: the number of entries written and
      the palette, filled from pal0 along the chain that the merges leave of
      the compacted, chained histogram (its slots from `GetARGBIndex`). */
  ghost predicate PnnBuilt(pixels: seq<Color>, nMaxColors: nat, alphaThreshold: Byte, semi: bool, tpi: int,
                           tColor: Color, env: Foreign, pal0: seq<Color>, pal: seq<Color>, count: nat, bins: seq<Bin>)
  {
    var slot := SlotOf(env.argbIndex, semi, nMaxColors < 64 || tpi >= 0);
    var maxbins := |Kept(Histogram(pixels, |pixels|, alphaThreshold, tColor, slot))|;
    && MergedFrom(bins, StartBins(pixels, alphaThreshold, tColor, slot,
                                  GetQuanFn(nMaxColors, QuanRt(nMaxColors, maxbins), env.pow75, env.sqrt, env.cbrt)),
                  nMaxColors)
    && count == |Walk(bins, maxbins)| <= |pal0|
    && pal == Filled(pal0, bins, Walk(bins, maxbins), tpi > -1, tColor)
  }

  /** The facts the phases of `pnnquan` establish make up `PnnBuilt`. */
  lemma {:induction false} BuiltByPhases(pixels: seq<Color>, nMaxColors: nat, alphaThreshold: Byte, semi: bool, tpi: int,
                                         tColor: Color, env: Foreign, pal0: seq<Color>, pal: seq<Color>, bins: seq<Bin>,
                                         m: nat, k: nat)
    requires var slot := SlotOf(env.argbIndex, semi, nMaxColors < 64 || tpi >= 0);
      var h := Histogram(pixels, |pixels|, alphaThreshold, tColor, slot);
      && m == |Kept(h)| && 2 < nMaxColors <= |pal0|
      && MergedFrom(bins, Chained(Compacted(h), m, GetQuanFn(nMaxColors, QuanRt(nMaxColors, m), env.pow75, env.sqrt, env.cbrt)),
                    nMaxColors)
      && k + 1 == |Walk(bins, m)|
      && pal == Filled(pal0, bins, Walk(bins, m), tpi > -1, tColor)
    ensures k + 1 == (if m == 0 then 1 else if m < nMaxColors then m else nMaxColors)
    ensures PnnBuilt(pixels, nMaxColors, alphaThreshold, semi, tpi, tColor, env, pal0, pal, k + 1, bins)
  {
  }

  /** Chaining unlinked bins without reshaping their counts keeps all of them
      live, with their total count. */
  lemma {:induction false} ChainedTotal(c: seq<Bin>, quanFn: (real, bool) -> real)
    requires forall x: real, first: bool :: quanFn(x, first) == x
    requires forall j :: 0 <= j < |c| ==> Unlinked(c[j])
    ensures LiveTotal(Chained(c, |c|, quanFn), |c|) == TotalCount(c)
  {
    var start := Chained(c, |c|, quanFn);
    assert forall j :: 0 <= j < |start| ==> start[j].cnt == c[j].cnt && start[j].mtm == 0;
    LiveTotalAll(start, |start|);
    assert start[..|start|] == start;
    TotalCountSame(start, c);
  }

  /** Without count reshaping (`quan_rt == 0`), the surviving bins of
      `pnnquan` still hold every pixel: their counts sum to the pixel count. */
  lemma {:induction false} MergedTotal(pixels: seq<Color>, alphaThreshold: Byte, transparent: Color, slot: Color -> Slot,
                                       quanFn: (real, bool) -> real, bins: seq<Bin>, nMaxColors: nat)
    requires forall x: real, first: bool :: quanFn(x, first) == x
    requires MergedFrom(bins, StartBins(pixels, alphaThreshold, transparent, slot, quanFn), nMaxColors)
    ensures LiveTotal(bins, |StartBins(pixels, alphaThreshold, transparent, slot, quanFn)|) == |pixels| as real
  {
    var h := Histogram(pixels, |pixels|, alphaThreshold, transparent, slot);
    HistogramUnlinked(pixels, |pixels|, alphaThreshold, transparent, slot);
    HistogramTotal(pixels, |pixels|, alphaThreshold, transparent, slot);
    CompactedUnlinked(h);
    CompactedTotal(h);
    ChainedTotal(Compacted(h), quanFn);
  }

  /** When no merge was needed, the walk visits every bin in order, and
      without an alpha-0 entry to move each palette slot holds the entry of
      its starting bin. */
  lemma {:induction false} UnmergedPalette(pal: seq<Color>, bins: seq<Bin>, start: seq<Bin>, nMaxColors: nat,
                                           hasTransparent: bool, transparent: Color)
    requires MergedFrom(bins, start, nMaxColors) && 1 <= |start| <= nMaxColors && |start| <= |pal|
    requires hasTransparent ==> forall j :: 0 <= j < |start| ==> Rint(start[j].ac) != 0
    ensures Walk(bins, |start|) == seq(|start|, j => j)
    ensures forall j :: 0 <= j < |start| ==>
      Filled(pal, bins, Walk(bins, |start|), hasTransparent, transparent)[j] == Entry(start[j], hasTransparent)
  {
    var m := |start|;
    FullOrder(bins, m);
    var order := Walk(bins, m);
    assert forall j :: 0 <= j < m ==> order[j] == j;
    assert forall j :: 0 <= j < m ==> bins[j].ac == start[j].ac;
    FilledInOrder(pal, bins, order, hasTransparent, transparent);
    forall j | 0 <= j < m
      ensures Entry(bins[order[j]], hasTransparent) == Entry(start[j], hasTransparent)
    {
      assert bins[j] == start[j].(err := bins[j].err, nn := bins[j].nn);
    }
  }

  /** A strictly increasing sequence of naturals spans at least its length. */
  lemma {:induction false} IncreasingSpan(q: seq<nat>)
    requires |q| >= 1 && forall j, k :: 0 <= j < k < |q| ==> q[j] < q[k]
    ensures q[|q| - 1] >= q[0] + |q| - 1
    decreases |q|
  {
    if |q| > 1 {
      var p := q[..|q| - 1];
      assert forall j, k :: 0 <= j < k < |p| ==> p[j] < p[k];
      IncreasingSpan(p);
      assert q[|q| - 2] < q[|q| - 1];
    }
  }

  /** Bins with one non-empty bin s keep only s. */
  lemma {:induction false} KeptSingle(bs: seq<Bin>, s: nat)
    requires s < |bs| && bs[s].cnt > 0.0 && forall x :: 0 <= x < |bs| && x != s ==> bs[x].cnt <= 0.0
    ensures Kept(bs) == [s]
  {
    KeptExactly(bs);
    var kept := Kept(bs);
    assert s in kept;
    forall j | 0 <= j < |kept|
      ensures kept[j] == s
    {
      assert kept[j] in kept;
    }
    IncreasingSpan(kept);
    assert kept[0] == s && kept[|kept| - 1] == s;
  }

  /** The histogram of a one-pixel image has the pixel's slot as its only
      non-empty bin. */
  lemma {:induction false} OnePixelHistogram(p: Color, alphaThreshold: Byte, transparent: Color, slot: Color -> Slot)
    ensures var c := Effective(p, alphaThreshold, transparent);
            var h := Histogram([p], 1, alphaThreshold, transparent, slot);
            Kept(h) == [slot(c)] && Compacted(h) == [Averaged(AddPixel(EmptyBin, c))]
  {
    var c := Effective(p, alphaThreshold, transparent);
    var s := slot(c);
    var h := Histogram([p], 1, alphaThreshold, transparent, slot);
    assert h == seq(BIN_COUNT, _ => EmptyBin)[s := AddPixel(EmptyBin, c)];
    KeptSingle(h, s);
  }

  /** A one-pixel image starts the merges from one bin holding the pixel's
      colour. */
  lemma {:induction false} OnePixelStart(p: Color, alphaThreshold: Byte, transparent: Color, slot: Color -> Slot,
                                         quanFn: (real, bool) -> real)
    ensures var c := Effective(p, alphaThreshold, transparent);
            var start := StartBins([p], alphaThreshold, transparent, slot, quanFn);
            && |start| == 1
            && start[0].ac == c.a as real && start[0].rc == c.r as real
            && start[0].gc == c.g as real && start[0].bc == c.b as real
  {
    var c := Effective(p, alphaThreshold, transparent);
    OnePixelHistogram(p, alphaThreshold, transparent, slot);
    var b := Averaged(AddPixel(EmptyBin, c));
    assert StartBins([p], alphaThreshold, transparent, slot, quanFn)[0] == b.(cnt := quanFn(b.cnt, true));
  }

  /** A one-pixel image: the one palette entry `pnnquan` writes is the
      pixel's colour, or the transparent colour when the pixel's alpha is at
      most the threshold; it is opaque when the image has no transparent
      pixel, and an alpha-0 entry becomes the transparent colour. */
  lemma {:induction false} OnePixelPalette(p: Color, alphaThreshold: Byte, transparent: Color, slot: Color -> Slot,
                                           quanFn: (real, bool) -> real, bins: seq<Bin>, nMaxColors: nat,
                                           pal: seq<Color>, hasTransparent: bool)
    requires nMaxColors >= 1 && |pal| >= 1
    requires MergedFrom(bins, StartBins([p], alphaThreshold, transparent, slot, quanFn), nMaxColors)
    ensures |StartBins([p], alphaThreshold, transparent, slot, quanFn)| == 1 && Walk(bins, 1) == [0]
    ensures var c := Effective(p, alphaThreshold, transparent);
            var e := Filled(pal, bins, Walk(bins, 1), hasTransparent, transparent)[0];
            && (!hasTransparent ==> e == c.(a := 255))
            && (hasTransparent && c.a != 0 ==> e == c)
            && (hasTransparent && c.a == 0 ==> e == transparent)
  {
    var c := Effective(p, alphaThreshold, transparent);
    OnePixelStart(p, alphaThreshold, transparent, slot, quanFn);
    var start := StartBins([p], alphaThreshold, transparent, slot, quanFn);
    FullOrder(bins, 1);
    assert Walk(bins, 1) == [0];
    assert bins[0] == start[0].(err := bins[0].err, nn := bins[0].nn);
    assert Entry(bins[0], hasTransparent) == (if hasTransparent then c else c.(a := 255));
    assert [0][..0] == [];
  }

  // ----------------------------------------------------------- the resolvers

  /** The palette index the chosen resolver gives colour c at position pos. */
  function Chosen(useNearest: bool, pal: seq<Color>, w: Weights, semi: bool, alphaThreshold: Byte,
                  c: Color, pos: nat): (k: nat)
    ensures |pal| >= 1 ==> k < |pal|
  {
    if useNearest then NearestIndex(pal, w, alphaThreshold, c)
    else ClosestIndex(pal, w, semi, alphaThreshold, c, pos)
  }

  /** The resolver a ditherer is handed, at a fixed position. */
  function ResolverOf(useNearest: bool, pal: seq<Color>, w: Weights, semi: bool, alphaThreshold: Byte,
                      pos: nat): (f: Color -> int)
    ensures |pal| >= 1 ==> forall c :: 0 <= f(c) < |pal|
  {
    c => Chosen(useNearest, pal, w, semi, alphaThreshold, c, pos)
  }

  /** The first pass of `quantize_image`: pixel p of a raster of the given
      width, resolved at position x + y. */
  function RasterIndices(useNearest: bool, pal: seq<Color>, w: Weights, semi: bool, alphaThreshold: Byte,
                         width: nat, pixels: seq<Color>): (q: seq<int>)
    requires width >= 1
    ensures |q| == |pixels|
    ensures |pal| >= 1 ==> forall p :: 0 <= p < |q| ==> 0 <= q[p] < |pal|
  {
    seq(|pixels|, p requires 0 <= p < |pixels| =>
      Chosen(useNearest, pal, w, semi, alphaThreshold, pixels[p], p % width + p / width))
  }

  /** A colour packed as a 32-bit ARGB value (`Color::GetValue`). */
  function Argb(c: Color): (v: int)
    ensures 0 <= v < 0x1_0000_0000
  {
    ((c.a * 256 + c.r) * 256 + c.g) * 256 + c.b
  }

  /** The four bytes of a packed ARGB value. */
  function Unpacked(v: int): Color
    requires 0 <= v < 0x1_0000_0000
  {
    Color(v / 0x100_0000, v / 0x1_0000 % 256, v / 0x100 % 256, v % 256)
  }

  lemma {:induction false} SplitByte(x: int, d: int)
    requires x >= 0 && 0 <= d < 256
    ensures (x * 256 + d) / 256 == x && (x * 256 + d) % 256 == d
  {
  }

  /** Packing loses nothing. */
  lemma {:induction false} UnpackArgb(c: Color)
    ensures Unpacked(Argb(c)) == c
  {
    var v1 := c.a * 256 + c.r;
    var v2 := v1 * 256 + c.g;
    var v := v2 * 256 + c.b;
    SplitByte(v2, c.b);
    SplitByte(v1, c.g);
    SplitByte(c.a, c.r);
    assert v / 0x100 == v2;
    assert v / 0x1_0000 == v2 / 256 == v1;
    assert v / 0x100_0000 == v1 / 256 == c.a;
  }

  /** The slot of every palette entry. */
  function SlotsOf(pal: seq<Color>, slot: Color -> Slot): seq<Slot>
  {
    seq(|pal|, j requires 0 <= j < |pal| => slot(pal[j]))
  }

  /** The output of a palette of more than 256 colours: every pixel as its
      palette entry's ARGB value, or as that entry's slot. */
  method HighColor(palette: seq<Color>, qPixels: seq<int>, semi: bool, slot: Color -> Slot) returns (argb: seq<int>)
    requires forall i :: 0 <= i < |qPixels| ==> 0 <= qPixels[i] < |palette|
    ensures |argb| == |qPixels|
    ensures semi ==> forall i :: 0 <= i < |argb| ==> 0 <= argb[i] < 0x1_0000_0000 && Unpacked(argb[i]) == palette[qPixels[i]]
    ensures !semi ==> forall i :: 0 <= i < |argb| ==> argb[i] == slot(palette[qPixels[i]])
  {
    argb := [];
    for i := 0 to |qPixels|
      invariant |argb| == i
      invariant semi ==> forall j :: 0 <= j < i ==> 0 <= argb[j] < 0x1_0000_0000 && Unpacked(argb[j]) == palette[qPixels[j]]
      invariant !semi ==> forall j :: 0 <= j < i ==> argb[j] == slot(palette[qPixels[j]])
    {
      var c := palette[qPixels[i]];
      UnpackArgb(c);
      argb := argb + [if semi then Argb(c) else slot(c)];
    }
  }

  /** The pruned scan of `nearestColorIndex`: the running distance adds
      the alpha, red, green and blue terms in turn and the entry is passed
      over as soon as it exceeds the best distance so far. */
  method PrunedScan(pal: seq<Color>, w: Weights, c: Color) returns (k: nat)
    ensures k == Scan(pal, w, c, |pal|).k
  {
    k := 0;
    var mindist: real := INT_MAX as real;
    for i := 0 to |pal|
      invariant Best(mindist, k) == Scan(pal, w, c, i)
    {
      var c2 := pal[i];
      var curdist := Term(w, c2, c, 1);
      assert curdist == Partial(w, c2, c, 1);
      if curdist > mindist {
        continue;
      }
      curdist := curdist + Term(w, c2, c, 2);
      assert curdist == Partial(w, c2, c, 2);
      if curdist > mindist {
        continue;
      }
      curdist := curdist + Term(w, c2, c, 3);
      assert curdist == Partial(w, c2, c, 3);
      if curdist > mindist {
        continue;
      }
      curdist := curdist + Term(w, c2, c, 4);
      assert curdist == Partial(w, c2, c, 4);
      if curdist > mindist {
        continue;
      }
      mindist := curdist;
      k := i;
    }
  }

  /** The ranking loop of `closestColorIndex`: the best and second best
      entries for c and their errors stored as unsigned shorts. */
  method Rank(pal: seq<Color>, w: Weights, semi: bool, c: Color) returns (t: Closest)
    ensures t == Ranked(pal, w, semi, c, |pal|)
  {
    t := Closest(0, 0, USHRT_MAX, USHRT_MAX);
    for i := 0 to |pal|
      invariant t == Ranked(pal, w, semi, c, i)
    {
      var c2 := pal[i];
      var err := ClosestError(w, semi, c2, c);
      if err < t.bestErr as real {
        t := Closest(i, t.best, ToUShort(err), t.bestErr);
      } else if err < t.secondErr as real {
        t := t.(second := i, secondErr := ToUShort(err));
      }
    }
  }

  // ----------------------------------------------------- the pnnquan phases

  /** `nerr` of `find_nn` with the weights and the alpha flag fixed. */
  function CostOf(w: Weights, semi: bool): (Cluster, Cluster) -> real
  {
    (x: Cluster, y: Cluster) => MergeCost(x, y, w, semi)
  }

  /** "Build histogram" and "cluster nonempty bins at one end of array": the
      averaged non-empty bins first, in slot order, every bin unlinked. */
  method HistogramPhase(pixels: seq<Color>, alphaThreshold: Byte, transparent: Color, slot: Color -> Slot)
    returns (bins: array<Bin>, m: nat)
    ensures fresh(bins) && bins.Length == BIN_COUNT
    ensures m == |Kept(Histogram(pixels, |pixels|, alphaThreshold, transparent, slot))| && m <= BIN_COUNT
    ensures bins[..m] == Compacted(Histogram(pixels, |pixels|, alphaThreshold, transparent, slot))
    ensures forall j :: 0 <= j < bins.Length ==> Unlinked(bins[j])
  {
    bins := BuildHistogram(pixels, alphaThreshold, transparent, slot);
    ghost var h := bins[..];
    HistogramUnlinked(pixels, |pixels|, alphaThreshold, transparent, slot);
    m := Compact(bins);
    CompactedUnlinked(h);
    forall j | 0 <= j < bins.Length
      ensures Unlinked(bins[j])
    {
      if j < m {
        assert bins[j] == bins[..m][j];
      }
    }
  }

  /** The chain, the heap and the merges of `pnnquan`: the m bins end up
      chained with at most nMaxColors of them live and the total count of the
      chained bins; when there are no more than nMaxColors bins nothing is
      merged and only the cached neighbours change. */
  method MergePhase(bins: array<Bin>, m: nat, nMaxColors: nat, quanFn: (real, bool) -> real,
                    cost: (Cluster, Cluster) -> real)
    requires bins.Length == BIN_COUNT && m <= BIN_COUNT && nMaxColors > 2
    requires forall j :: 0 <= j < bins.Length ==> Unlinked(bins[j])
    modifies bins
    ensures Linked(bins[..], m) && (m == 0 ==> bins[0].fw == 0)
    ensures |LiveOrder(bins[..], m)| == if m > nMaxColors then nMaxColors else m
    ensures LiveTotal(bins[..], m) == LiveTotal(Chained(old(bins[..]), m, quanFn), m)
    ensures m <= nMaxColors ==> forall b :: 0 <= b < bins.Length ==>
      bins[b] == Chained(old(bins[..]), m, quanFn)[b].(err := bins[b].err, nn := bins[b].nn)
  {
    ghost var u := bins[..];
    BuildChain(bins, m, quanFn);
    ChainedLinked(u, m, quanFn);
    assert forall b :: 0 <= b < bins.Length ==> bins[b].tm == 0 && bins[b].mtm == 0;
    ghost var c := bins[..];
    var heap := BuildHeap(bins, m, cost);
    assert Rekeyed(c, bins[..]);
    RekeyedKeeps(c, bins[..], m, m);
    SeededStarts(bins[..], heap[..], m, cost);
    MergeBins(bins, heap, m, nMaxColors, cost, Absorbed);
  }

  /** The phases of `pnnquan` after the histogram, on the compacted bins c:
      chain, heap and merges, then the palette fill along the surviving
      chain, which returns the index of the last entry written. */
  method MergeAndFill(bins: array<Bin>, m: nat, nMaxColors: nat, quanFn: (real, bool) -> real,
                      cost: (Cluster, Cluster) -> real, hasTransparent: bool, transparent: Color,
                      palette: array<Color>, ghost c: seq<Bin>) returns (k: nat)
    requires bins.Length == BIN_COUNT && m == |c| <= BIN_COUNT && bins[..m] == c
    requires 2 < nMaxColors <= palette.Length
    requires forall j :: 0 <= j < bins.Length ==> Unlinked(bins[j])
    modifies bins, palette
    ensures MergedFrom(bins[..], Chained(c, m, quanFn), nMaxColors)
    ensures k + 1 == |Walk(bins[..], m)|
    ensures palette[..] == Filled(old(palette[..]), bins[..], Walk(bins[..], m), hasTransparent, transparent)
  {
    ghost var u := bins[..];
    MergePhase(bins, m, nMaxColors, quanFn, cost);
    MergedFromPrefix(u, c, bins[..], m, nMaxColors, quanFn);
    k := FillPalette(bins, m, hasTransparent, transparent, palette);
  }

  /** The weights `QuantizeImage` sets before `pnnquan`: all 1 for at most 32
      colours, the Rec. 601 luma weights for an image under 512 pixels in
      either direction, otherwise the weights as they were. */
  function InitialWeights(w: Weights, nMaxColors: nat, width: nat, height: nat): Weights
  {
    if nMaxColors <= 32 then Weights(1.0, 1.0, 1.0, 1.0)
    else if width < 512 || height < 512 then w.(pr := 0.299, pg := 0.587, pb := 0.114)
    else w
  }

  /** The blue-noise pass of `QuantizeImage`, seen through the range of the
      indices it leaves. */
  method BlueNoisePass(width: nat, height: nat, pixels: seq<Color>, palette: seq<Color>,
                       ditherFn: Color -> int, getColorIndex: Color -> Slot, adj: BlueNoise.Adjust, qPixels: array<int>)
    requires |pixels| == width * height && qPixels.Length == width * height
    requires forall c :: 0 <= ditherFn(c) < |palette|
    requires forall i :: 0 <= i < qPixels.Length ==> 0 <= qPixels[i] < |palette|
    modifies qPixels
    ensures forall i :: 0 <= i < qPixels.Length ==> 0 <= qPixels[i] < |palette|
  {
    BlueNoise.Dither(width, height, pixels, palette, ditherFn, getColorIndex, adj, qPixels);
  }

  /** The fix-up for the palette entry k of the transparent pixel: with more
      than two colours the entry becomes the transparent colour; with two,
      the two entries swap unless entry k already is that colour. */
  method FixTransparent(palette: array<Color>, colors: nat, k: int, tColor: Color)
    requires 2 <= palette.Length && 0 <= k < colors <= palette.Length
    modifies palette
    ensures colors > 2 ==> palette[..] == old(palette[..])[k := tColor]
    ensures colors <= 2 && old(palette[k]) == tColor ==> palette[..] == old(palette[..])
    ensures colors <= 2 && old(palette[k]) != tColor ==>
      palette[..] == old(palette[..])[0 := old(palette[1])][1 := old(palette[0])]
    ensures colors <= 2 && old(palette[..2]) == [tColor, Black] ==> palette[..2] in {[tColor, Black], [Black, tColor]}
    ensures colors > 2 || tColor in old(palette[..2]) ==> palette[k] == tColor
  {
    if colors > 2 {
      palette[k] := tColor;
    } else if palette[k] != tColor {
      palette[0], palette[1] := palette[1], palette[0];
    }
    assert palette[..2] == [palette[0], palette[1]];
  }

  /** The Gilbert-curve pass of `QuantizeImage` into a new index buffer. */
  method GilbertPass(width: nat, height: nat, pixels: seq<Color>, palette: seq<Color>, ditherFn: Color -> int,
                     getColorIndex: Color -> Slot, weights: seq<real>) returns (qPixels: array<int>)
    requires |pixels| == width * height && width >= 1 && height >= 1
    requires |palette| >= 1 && (forall c :: 0 <= ditherFn(c) < |palette|) && |weights| == GilbertDither.DITHER_MAX
    ensures fresh(qPixels) && qPixels.Length == |pixels|
    ensures forall i :: 0 <= i < qPixels.Length ==> 0 <= qPixels[i] < |palette|
  {
    qPixels := new int[|pixels|](_ => 0);
    var gilbert := new GilbertDither.Ditherer(width, height, pixels, palette, ditherFn, getColorIndex, qPixels, weights);
    gilbert.Dither();
  }

  // ------------------------------------------------------------ the state

  /** `GetARGBIndex` with its two flags fixed: the lookup slot of a colour. */
  function SlotOf(argbIndex: (Color, bool, bool) -> Slot, semi: bool, small: bool): Color -> Slot
  {
    c => argbIndex(c, semi, small)
  }

  /** The foreign functions the quantizer relies on: `GetARGBIndex`, the
      roots `pow(., .75)`, `_sqrt` and `cbrt` of the count reshaping, the
      blue-noise perturbation, the Gilbert weight series, and the position
      the two ditherers hand to `closestColorIndex`. */
  datatype Foreign = Foreign(argbIndex: (Color, bool, bool) -> Slot, pow75: real -> real, sqrt: real -> real,
                             cbrt: real -> real, adj: BlueNoise.Adjust, series: seq<real>, pos: nat)

  /** What `QuantizeImage` hands to `ProcessImagePixels`: the palette, its
      `Count` and the palette index of every pixel, or, for more than 256
      colours, one ARGB value or slot per pixel. */
  datatype Quantized = Indexed(palette: seq<Color>, count: nat, indices: seq<int>) | Direct(argb: seq<int>)

  /** What the pixel pass makes of the built palette `built` of `colors`
      entries for an image of nPixels pixels: the ARGB values (or slots) of
      its entries, or the palette with every pixel's index into its first
      `colors` entries, the transparent pixel's entry made the transparent
      colour, or with two colours at most the first two entries exchanged. */
  ghost predicate Remapped(result: Quantized, built: seq<Color>, colors: nat, nPixels: nat, nMaxColors: nat,
                           semi: bool, tpi: int, tColor: Color, slot: Color -> Slot)
    requires 1 <= colors <= nMaxColors && |built| == nMaxColors + 1 && tpi < nPixels
  {
    match result
    case Direct(argb) =>
      && colors > 256 && |argb| == nPixels
      && (semi ==> forall i :: 0 <= i < |argb| ==> 0 <= argb[i] < 0x1_0000_0000 && Unpacked(argb[i]) in built[..colors])
      && (!semi ==> forall i :: 0 <= i < |argb| ==> argb[i] in SlotsOf(built[..colors], slot))
    case Indexed(palette, count, indices) =>
      && |palette| == |built| && count == colors && |indices| == nPixels
      && (forall i :: 0 <= i < nPixels ==> 0 <= indices[i] < colors)
      && (tpi < 0 ==> palette == built)
      && (tpi >= 0 && colors > 2 ==> palette == built[indices[tpi] := tColor])
      && (tpi >= 0 && colors <= 2 ==> palette == built || palette == built[0 := built[1]][1 := built[0]])
      && (tpi >= 0 && colors <= 2 && built[..2] == [tColor, Black] ==>
            palette[..2] in {[tColor, Black], [Black, tColor]})
      && (tpi >= 0 && (nMaxColors <= 2 || colors > 2) ==> palette[indices[tpi]] == tColor)
  }

  /** The module-level state of `PnnQuant`. */
  class Quantizer {
    var alphaThreshold: Byte
    var hasSemiTransparency: bool
    var transparentPixelIndex: int
    var transparentColor: Color
    /** PR, PG, PB and PA. */
    var w: Weights
    var weight: Key
    var nearestMap: map<Color, nat>
    var closestMap: map<Color, Closest>

    /** The initial values of the globals. */
    constructor ()
      ensures alphaThreshold == 0xF && !hasSemiTransparency && transparentPixelIndex == -1
      ensures transparentColor == Transparent && w == Weights(0.2126, 0.7152, 0.0722, 0.3333)
      ensures weight == Fin(0.0) && nearestMap == map[] && closestMap == map[]
    {
      alphaThreshold := 0xF;
      hasSemiTransparency := false;
      transparentPixelIndex := -1;
      transparentColor := Transparent;
      w := Weights(0.2126, 0.7152, 0.0722, 0.3333);
      weight := Fin(0.0);
      nearestMap := map[];
      closestMap := map[];
    }

    /** Both memos hold what the resolvers compute for palette pal. */
    ghost predicate CachesFor(pal: seq<Color>)
      reads this
    {
      && (forall c :: c in nearestMap ==> nearestMap[c] == NearestIndex(pal, w, alphaThreshold, c))
      && (forall c :: c in closestMap ==> closestMap[c] == Finished(Ranked(pal, w, hasSemiTransparency, c, |pal|)))
    }

    /** `nearestColorIndex`: a memoised answer is returned as it is; a colour
        at or below the alpha threshold gets 0 and is not memoised; otherwise
        the pruned scan runs and its answer is memoised. */
    method NearestColorIndex(pal: seq<Color>, c: Color) returns (k: nat)
      requires CachesFor(pal)
      modifies this`nearestMap
      ensures k == NearestIndex(pal, w, alphaThreshold, c)
      ensures CachesFor(pal)
      ensures nearestMap == if c in old(nearestMap) || c.a <= alphaThreshold then old(nearestMap)
                            else old(nearestMap)[c := k]
    {
      if c in nearestMap {
        return nearestMap[c];
      }
      k := 0;
      if c.a <= alphaThreshold {
        return;
      }
      k := PrunedScan(pal, w, c);
      nearestMap := nearestMap[c := k];
    }

    /** The memoised ranking of `closestColorIndex`: a colour met before gets
        its stored ranking, any other is ranked, finished and memoised. */
    method RankedFor(pal: seq<Color>, c: Color) returns (t: Closest)
      requires CachesFor(pal)
      modifies this`closestMap
      ensures t == Finished(Ranked(pal, w, hasSemiTransparency, c, |pal|))
      ensures CachesFor(pal)
      ensures closestMap == if c in old(closestMap) then old(closestMap) else old(closestMap)[c := t]
    {
      if c !in closestMap {
        t := Rank(pal, w, hasSemiTransparency, c);
        if t.secondErr == USHRT_MAX {
          t := t.(second := t.best);
        }
        closestMap := closestMap[c := t];
      } else {
        t := closestMap[c];
      }
    }

    /** `closestColorIndex`: 0 at or below the alpha threshold; otherwise the
        ranking (memoised) picks the best or the second best entry, falling
        back to `nearestColorIndex` when the picked error reaches `Count`. */
    method ClosestColorIndex(pal: seq<Color>, c: Color, pos: nat) returns (k: nat)
      requires CachesFor(pal)
      modifies this`nearestMap, this`closestMap
      ensures k == ClosestIndex(pal, w, hasSemiTransparency, alphaThreshold, c, pos)
      ensures CachesFor(pal)
      ensures closestMap == if c.a <= alphaThreshold || c in old(closestMap) then old(closestMap)
                            else old(closestMap)[c := Finished(Ranked(pal, w, hasSemiTransparency, c, |pal|))]
      ensures nearestMap == old(nearestMap) || nearestMap == old(nearestMap)[c := NearestIndex(pal, w, alphaThreshold, c)]
    {
      k := 0;
      if c.a <= alphaThreshold {
        return;
      }
      var t := RankedFor(pal, c);
      assert t == Finished(Ranked(pal, w, hasSemiTransparency, c, |pal|));
      var maxErr := |pal|;
      var idx := (pos + 1) % 2;
      if t.secondErr as real * 0.67 < (t.secondErr - t.bestErr) as real {
        idx := 0;
      } else if t.best > t.second {
        idx := pos % 2;
      }
      assert idx == Pick(t, pos);
      var err := if idx == 0 then t.bestErr else t.secondErr;
      if err >= maxErr {
        k := NearestColorIndex(pal, c);
        return;
      }
      k := if idx == 0 then t.best else t.second;
    }

    /** The colour index of the chosen resolver, through its memo. */
    method Resolve(useNearest: bool, pal: seq<Color>, c: Color, pos: nat) returns (k: nat)
      requires CachesFor(pal)
      modifies this`nearestMap, this`closestMap
      ensures k == Chosen(useNearest, pal, w, hasSemiTransparency, alphaThreshold, c, pos)
      ensures CachesFor(pal)
    {
      if useNearest {
        k := NearestColorIndex(pal, c);
      } else {
        k := ClosestColorIndex(pal, c, pos);
      }
    }

    /** Row y of the first pass of `quantize_image`: pixel x of the row is
        resolved at position x + y. */
    method ResolveRow(useNearest: bool, pal: seq<Color>, pixels: seq<Color>, qPixels: array<int>, width: nat, y: nat)
      requires qPixels.Length == |pixels| && (y + 1) * width <= |pixels|
      requires CachesFor(pal)
      modifies this`nearestMap, this`closestMap, qPixels
      ensures CachesFor(pal)
      ensures forall p :: 0 <= p < qPixels.Length && !(y * width <= p < (y + 1) * width) ==> qPixels[p] == old(qPixels[p])
      ensures forall p :: y * width <= p < (y + 1) * width ==>
        qPixels[p] == Chosen(useNearest, pal, w, hasSemiTransparency, alphaThreshold, pixels[p], p % width + p / width)
    {
      var pixelIndex := y * width;
      for x := 0 to width
        invariant CachesFor(pal)
        invariant pixelIndex == x + y * width
        invariant forall p :: 0 <= p < qPixels.Length && !(y * width <= p < pixelIndex) ==> qPixels[p] == old(qPixels[p])
        invariant forall p :: y * width <= p < pixelIndex ==>
          qPixels[p] == Chosen(useNearest, pal, w, hasSemiTransparency, alphaThreshold, pixels[p], p % width + p / width)
      {
        IndexOfPixel(width, x, y);
        var k := Resolve(useNearest, pal, pixels[pixelIndex], x + y);
        qPixels[pixelIndex] := k;
        pixelIndex := pixelIndex + 1;
      }
    }

    /** The first pass of `quantize_image`: all rows, top to bottom. */
    method ResolveRaster(useNearest: bool, pal: seq<Color>, pixels: seq<Color>, qPixels: array<int>, width: nat, height: nat)
      requires |pixels| == width * height && qPixels.Length == width * height && width >= 1
      requires CachesFor(pal)
      modifies this`nearestMap, this`closestMap, qPixels
      ensures CachesFor(pal)
      ensures qPixels[..] == RasterIndices(useNearest, pal, w, hasSemiTransparency, alphaThreshold, width, pixels)
    {
      ghost var first := RasterIndices(useNearest, pal, w, hasSemiTransparency, alphaThreshold, width, pixels);
      for y := 0 to height
        invariant CachesFor(pal)
        invariant forall p :: 0 <= p < y * width ==> qPixels[p] == first[p]
      {
        assert (y + 1) * width <= height * width;
        ResolveRow(useNearest, pal, pixels, qPixels, width, y);
      }
      assert qPixels[..] == first;
    }

    /** `quantize_image` without dithering: every pixel in raster order
        through `nearestColorIndex` (with a transparent pixel or under 256
        colours) or `closestColorIndex` at position x + y, then the
        blue-noise pass with the same resolver over the noise table (the
        source's is `BlueNoise.RAW_BLUE_NOISE`). */
    method QuantizeRaster(noise: BlueNoise.NoiseTable, pixels: seq<Color>, pal: seq<Color>, nMaxColors: nat, qPixels: array<int>,
                          width: nat, height: nat, getColorIndex: Color -> Slot, adj: BlueNoise.Adjust, pos: nat)
      requires |pixels| == width * height && qPixels.Length == width * height && |pal| >= 1
      requires CachesFor(pal)
      modifies this`nearestMap, this`closestMap, qPixels
      ensures CachesFor(pal)
      ensures var useNearest := transparentPixelIndex >= 0 || nMaxColors < 256;
        width >= 1 ==>
          qPixels[..] == BlueNoise.Output(
            BlueNoise.Perturbed(noise, adj, width, pixels, pal,
                                RasterIndices(useNearest, pal, w, hasSemiTransparency, alphaThreshold, width, pixels)),
            |pal|, ResolverOf(useNearest, pal, w, hasSemiTransparency, alphaThreshold, pos), getColorIndex)
      ensures forall i :: 0 <= i < qPixels.Length ==> 0 <= qPixels[i] < |pal|
    {
      var useNearest := transparentPixelIndex >= 0 || nMaxColors < 256;
      if width >= 1 {
        ResolveRaster(useNearest, pal, pixels, qPixels, width, height);
      }
      BlueNoise.DitherWith(noise, width, height, pixels, pal, ResolverOf(useNearest, pal, w, hasSemiTransparency, alphaThreshold, pos),
                       getColorIndex, adj, qPixels);
    }

    // ----------------------------------------------------------- pnnquan

    /** `pnnquan`: build the histogram over the slots `GetARGBIndex` gives,
        compact it, reshape the counts, chain and heap the bins, merge until
        nMaxColors bins are left and fill the palette from the chain. The
        returned `Count` is the number of palette entries written: one per
        surviving bin, or one when there were no pixels. */
    method PnnQuan(pixels: seq<Color>, nMaxColors: nat, palette: array<Color>, env: Foreign)
      returns (count: nat, ghost bins: seq<Bin>, ghost maxbins: nat)
      requires nMaxColors > 2 && nMaxColors <= palette.Length
      modifies this`w, this`weight, palette
      ensures var slot := SlotOf(env.argbIndex, hasSemiTransparency, nMaxColors < 64 || transparentPixelIndex >= 0);
        maxbins == |Kept(Histogram(pixels, |pixels|, alphaThreshold, transparentColor, slot))|
      ensures weight == WeightOf(nMaxColors, maxbins) && w == Retune(old(w), weight)
      ensures count == if maxbins == 0 then 1 else if maxbins < nMaxColors then maxbins else nMaxColors
      ensures PnnBuilt(pixels, nMaxColors, alphaThreshold, hasSemiTransparency, transparentPixelIndex, transparentColor,
                       env, old(palette[..]), palette[..], count, bins)
    {
      var slot := SlotOf(env.argbIndex, hasSemiTransparency, nMaxColors < 64 || transparentPixelIndex >= 0);
      var hist, m := HistogramPhase(pixels, alphaThreshold, transparentColor, slot);
      maxbins := m;
      var quanRt := QuanRt(nMaxColors, m);
      weight := WeightOf(nMaxColors, m);
      w := Retune(w, weight);
      var quanFn := GetQuanFn(nMaxColors, quanRt, env.pow75, env.sqrt, env.cbrt);
      var k := MergeAndFill(hist, m, nMaxColors, quanFn, CostOf(w, hasSemiTransparency),
                            transparentPixelIndex > -1, transparentColor, palette,
                            Compacted(Histogram(pixels, |pixels|, alphaThreshold, transparentColor, slot)));
      bins := hist[..];
      BuiltByPhases(pixels, nMaxColors, alphaThreshold, hasSemiTransparency, transparentPixelIndex, transparentColor,
                    env, old(palette[..]), palette[..], bins, m, k);
      count := if k < nMaxColors - 1 then k + 1 else nMaxColors;
    }

    // ------------------------------------------------------ QuantizeImage

    /** The weights and the palette of `QuantizeImage`: `pnnquan` for more
        than two colours, otherwise black and white, or the transparent
        colour and black when the image has a transparent pixel. */
    method MakePalette(pixels: seq<Color>, width: nat, height: nat, nMaxColors: nat, env: Foreign)
      returns (palette: array<Color>, colors: nat, ghost bins: seq<Bin>)
      requires nMaxColors >= 1
      modifies this`w, this`weight
      ensures fresh(palette) && palette.Length == nMaxColors + 1
      ensures nMaxColors > 2 ==>
        PnnBuilt(pixels, nMaxColors, alphaThreshold, hasSemiTransparency, transparentPixelIndex, transparentColor,
                 env, seq(nMaxColors + 1, _ => Color(0, 0, 0, 0)), palette[..], colors, bins)
      ensures 1 <= colors <= nMaxColors
      ensures var w0 := InitialWeights(old(w), nMaxColors, width, height);
        w == if nMaxColors > 2 then Retune(w0, weight) else w0
      ensures nMaxColors <= 2 ==> colors == nMaxColors && weight == old(weight)
      ensures nMaxColors <= 2 && transparentPixelIndex < 0 ==> palette[..2] == [Black, White]
      ensures nMaxColors <= 2 && transparentPixelIndex >= 0 ==> palette[..2] == [transparentColor, Black]
      ensures nMaxColors > 2 ==>
        var slot := SlotOf(env.argbIndex, hasSemiTransparency, nMaxColors < 64 || transparentPixelIndex >= 0);
        var maxbins := |Kept(Histogram(pixels, |pixels|, alphaThreshold, transparentColor, slot))|;
        weight == WeightOf(nMaxColors, maxbins)
        && colors == if maxbins == 0 then 1 else if maxbins < nMaxColors then maxbins else nMaxColors
    {
      palette := new Color[nMaxColors + 1](_ => Color(0, 0, 0, 0));
      assert palette[..] == seq(nMaxColors + 1, _ => Color(0, 0, 0, 0));
      colors := nMaxColors;
      bins := [];
      if nMaxColors <= 32 {
        w := Weights(1.0, 1.0, 1.0, 1.0);
      } else if width < 512 || height < 512 {
        w := w.(pr := 0.299, pg := 0.587, pb := 0.114);
      }
      if nMaxColors > 2 {
        var count, bins', maxbins := PnnQuan(pixels, nMaxColors, palette, env);
        colors, bins := count, bins';
      } else if transparentPixelIndex >= 0 {
        palette[0] := transparentColor;
        palette[1] := Black;
      } else {
        palette[0] := Black;
        palette[1] := White;
      }
    }

    /** The pixel pass of `QuantizeImage` over the built palette of `colors`
        entries: the Gilbert-curve dither; for more than 256 colours, unless
        the budget is at most 32 or the image is semi-transparent with weight
        under .3, the ARGB values or slots of the entries; otherwise the
        blue-noise pass when not dithering and the transparent fix-up. Both
        memos are cleared. */
    method RemapPixels(pixels: seq<Color>, width: nat, height: nat, nMaxColors: nat, dither: bool,
                       palette: array<Color>, colors: nat, env: Foreign) returns (result: Quantized)
      requires |pixels| == width * height && width >= 1 && height >= 1
      requires palette.Length == nMaxColors + 1 && 1 <= colors <= nMaxColors && (nMaxColors <= 2 ==> colors == nMaxColors)
      requires nMaxColors <= 2 && transparentPixelIndex >= 0 ==> palette[..2] == [transparentColor, Black]
      requires transparentPixelIndex < |pixels| && |env.series| == GilbertDither.DITHER_MAX
      modifies this`nearestMap, this`closestMap, palette
      ensures nearestMap == map[] && closestMap == map[]
      ensures Remapped(result, old(palette[..]), colors, |pixels|, nMaxColors, hasSemiTransparency,
                       transparentPixelIndex, transparentColor, SlotOf(env.argbIndex, false, transparentPixelIndex >= 0))
    {
      var semi, tpi, tColor := hasSemiTransparency, transparentPixelIndex, transparentColor;
      var pal := palette[..colors];
      var resolve := ResolverOf(dither, pal, w, semi, alphaThreshold, env.pos);
      var getColorIndex := SlotOf(env.argbIndex, semi, tpi >= 0);
      var qPixels := GilbertPass(width, height, pixels, pal, resolve, getColorIndex, env.series);
      if !(colors <= 32 || (semi && KeyLt(weight, Fin(0.3)))) && colors > 256 {
        var argb := HighColor(palette[..], qPixels[..], semi, SlotOf(env.argbIndex, false, tpi >= 0));
        forall i | 0 <= i < |argb|
          ensures palette[..][qPixels[i]] in palette[..colors]
          ensures SlotOf(env.argbIndex, false, tpi >= 0)(palette[..][qPixels[i]])
                  in SlotsOf(palette[..colors], SlotOf(env.argbIndex, false, tpi >= 0))
        {
          assert palette[..][qPixels[i]] == palette[..colors][qPixels[i]];
          assert SlotsOf(palette[..colors], SlotOf(env.argbIndex, false, tpi >= 0))[qPixels[i]]
                 == SlotOf(env.argbIndex, false, tpi >= 0)(palette[..colors][qPixels[i]]);
        }
        closestMap := map[];
        nearestMap := map[];
        return Direct(argb);
      }
      if !dither {
        BlueNoisePass(width, height, pixels, pal, resolve, getColorIndex, env.adj, qPixels);
      }
      if tpi >= 0 {
        FixTransparent(palette, colors, qPixels[tpi], tColor);
      }
      closestMap := map[];
      nearestMap := map[];
      result := Indexed(palette[..], colors, qPixels[..]);
    }

    /** `PnnQuantizer::QuantizeImage` after `GrabPixels`, which reports the
        pixels, whether some are semi-transparent, the index and colour of a
        transparent pixel (a negative index when there is none) and the
        colour budget: the weights are set, the palette is built (a fixed one
        for at most two colours), the image is dithered along the Gilbert
        curve and, without dithering, by the blue-noise pass, and the entry of
        the transparent pixel is made the transparent colour. */
    method QuantizeImage(pixels: seq<Color>, width: nat, height: nat, nMaxColors: nat, dither: bool,
                         semi: bool, tpi: int, tColor: Color, env: Foreign)
      returns (result: Quantized, colors: nat, ghost built: seq<Color>, ghost bins: seq<Bin>)
      requires |pixels| == width * height && width >= 1 && height >= 1
      requires nMaxColors >= 1 && tpi < |pixels| && |env.series| == GilbertDither.DITHER_MAX
      modifies this
      ensures hasSemiTransparency == semi && transparentPixelIndex == tpi && transparentColor == tColor
      ensures alphaThreshold == old(alphaThreshold) && nearestMap == map[] && closestMap == map[]
      ensures var w0 := InitialWeights(old(w), nMaxColors, width, height);
        w == if nMaxColors > 2 then Retune(w0, weight) else w0
      ensures 1 <= colors <= nMaxColors
      ensures nMaxColors <= 2 ==> colors == nMaxColors
      ensures nMaxColors > 2 ==>
        var slot := SlotOf(env.argbIndex, semi, nMaxColors < 64 || tpi >= 0);
        var maxbins := |Kept(Histogram(pixels, |pixels|, alphaThreshold, tColor, slot))|;
        weight == WeightOf(nMaxColors, maxbins)
        && colors == if maxbins == 0 then 1 else if maxbins < nMaxColors then maxbins else nMaxColors
      ensures |built| == nMaxColors + 1
      ensures nMaxColors > 2 ==>
        PnnBuilt(pixels, nMaxColors, alphaThreshold, semi, tpi, tColor, env,
                 seq(nMaxColors + 1, _ => Color(0, 0, 0, 0)), built, colors, bins)
      ensures nMaxColors <= 2 && tpi < 0 ==> built[..2] == [Black, White]
      ensures nMaxColors <= 2 && tpi >= 0 ==> built[..2] == [tColor, Black]
      ensures Remapped(result, built, colors, |pixels|, nMaxColors, semi, tpi, tColor, SlotOf(env.argbIndex, false, tpi >= 0))
    {
      hasSemiTransparency, transparentPixelIndex, transparentColor := semi, tpi, tColor;
      var palette;
      palette, colors, bins := MakePalette(pixels, width, height, nMaxColors, env);
      built := palette[..];
      result := RemapPixels(pixels, width, height, nMaxColors, dither, palette, colors, env);
    }
  }
}
