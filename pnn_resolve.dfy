/** What the two colour-index resolvers of the quantizer compute, as functions
    of the palette, the channel weights and the colour: `nearestColorIndex`,
    a weighted-distance argmin scanned with partial-sum pruning, and
    `closestColorIndex`, which ranks the best and second-best entries and
    alternates between them by pixel parity. */
module PnnResolve {
  import opened Colors
  import opened PnnBins

  /** All four channel weights are non-negative. */
  predicate NonNeg(w: Weights)
  {
    w.pr >= 0.0 && w.pg >= 0.0 && w.pb >= 0.0 && w.pa >= 0.0
  }

  /** The squared difference of two channel values. */
  function Diff2(x: Byte, y: Byte): (r: real)
    ensures r >= 0.0
  {
    Sqr((x - y) as real)
  }

  lemma {:induction false} WeightedNonNeg(a: real, d: real)
    requires a >= 0.0 && d >= 0.0
    ensures a * d >= 0.0
  {
  }

  // ------------------------------------------------------------ nearest

  /** The weighted square that the n-th step of `nearestColorIndex` adds:
      alpha first, then red, green and blue. */
  function Term(w: Weights, c2: Color, c: Color, n: nat): real
    requires 1 <= n <= 4
  {
    if n == 1 then w.pa * Diff2(c2.a, c.a)
    else if n == 2 then w.pr * Diff2(c2.r, c.r)
    else if n == 3 then w.pg * Diff2(c2.g, c.g)
    else w.pb * Diff2(c2.b, c.b)
  }

  /** The n-th running sum of `nearestColorIndex`. */
  function Partial(w: Weights, c2: Color, c: Color, n: nat): real
    requires 1 <= n <= 4
    decreases n
  {
    if n == 1 then Term(w, c2, c, 1) else Partial(w, c2, c, n - 1) + Term(w, c2, c, n)
  }

  /** The weighted squared distance of palette entry c2 from c. */
  function Distance(w: Weights, c2: Color, c: Color): real
  {
    Partial(w, c2, c, 4)
  }

  /** An entry survives the pruned scan when none of its running sums exceeds
      the best distance so far. */
  predicate Survives(w: Weights, c2: Color, c: Color, mindist: real)
  {
    && Partial(w, c2, c, 1) <= mindist && Partial(w, c2, c, 2) <= mindist
    && Partial(w, c2, c, 3) <= mindist && Partial(w, c2, c, 4) <= mindist
  }

  /** With non-negative weights the running sums only grow, so pruning at a
      partial sum rejects exactly the entries that are farther than `mindist`. */
  lemma {:induction false} SurvivesIff(w: Weights, c2: Color, c: Color, mindist: real)
    requires NonNeg(w)
    ensures Survives(w, c2, c, mindist) <==> Distance(w, c2, c) <= mindist
  {
    WeightedNonNeg(w.pa, Diff2(c2.a, c.a));
    WeightedNonNeg(w.pr, Diff2(c2.r, c.r));
    WeightedNonNeg(w.pg, Diff2(c2.g, c.g));
    WeightedNonNeg(w.pb, Diff2(c2.b, c.b));
    assert Partial(w, c2, c, 1) <= Partial(w, c2, c, 2) <= Partial(w, c2, c, 3) <= Partial(w, c2, c, 4);
  }

  /** The best distance so far and the index that holds it. */
  datatype Best = Best(dist: real, k: nat)

  /** The scan of the first n palette entries, from `mindist = INT_MAX` and
      `k = 0`: a surviving entry becomes the best. */
  function Scan(pal: seq<Color>, w: Weights, c: Color, n: nat): (b: Best)
    requires n <= |pal|
    ensures b.k < n || b.k == 0
    decreases n
  {
    if n == 0 then Best(INT_MAX as real, 0)
    else
      var b := Scan(pal, w, c, n - 1);
      if Survives(w, pal[n - 1], c, b.dist) then Best(Distance(w, pal[n - 1], c), n - 1) else b
  }

  /** `nearestColorIndex` without its memo: 0 for a colour at or below the
      alpha threshold, otherwise the index the scan ends on. */
  function NearestIndex(pal: seq<Color>, w: Weights, alphaThreshold: Byte, c: Color): (k: nat)
    ensures |pal| >= 1 ==> k < |pal|
    ensures c.a <= alphaThreshold ==> k == 0
  {
    if c.a <= alphaThreshold then 0 else Scan(pal, w, c, |pal|).k
  }

  /** k is the last index of least distance among the first n entries. */
  ghost predicate LastArgmin(pal: seq<Color>, w: Weights, c: Color, n: nat, k: nat)
    requires n <= |pal|
  {
    && k < n
    && (forall j :: 0 <= j < n ==> Distance(w, pal[k], c) <= Distance(w, pal[j], c))
    && (forall j :: k < j < n ==> Distance(w, pal[k], c) < Distance(w, pal[j], c))
  }

  /** The last least index is unique. */
  lemma {:induction false} LastArgminUnique(pal: seq<Color>, w: Weights, c: Color, n: nat, k1: nat, k2: nat)
    requires n <= |pal| && LastArgmin(pal, w, c, n, k1) && LastArgmin(pal, w, c, n, k2)
    ensures k1 == k2
  {
    assert Distance(w, pal[k1], c) == Distance(w, pal[k2], c);
  }

  /** With non-negative weights the scan keeps either the start value, when
      every entry so far is farther than INT_MAX, or the last least entry. */
  lemma {:induction false} ScanMeaning(pal: seq<Color>, w: Weights, c: Color, n: nat)
    requires n <= |pal| && NonNeg(w)
    ensures Scan(pal, w, c, n).dist <= INT_MAX as real
    ensures (forall j :: 0 <= j < n ==> Distance(w, pal[j], c) > INT_MAX as real)
            ==> Scan(pal, w, c, n) == Best(INT_MAX as real, 0)
    ensures (exists j :: 0 <= j < n && Distance(w, pal[j], c) <= INT_MAX as real)
            ==> LastArgmin(pal, w, c, n, Scan(pal, w, c, n).k)
                && Scan(pal, w, c, n).dist == Distance(w, pal[Scan(pal, w, c, n).k], c)
    decreases n
  {
    if n > 0 {
      ScanMeaning(pal, w, c, n - 1);
      var b := Scan(pal, w, c, n - 1);
      var d := Distance(w, pal[n - 1], c);
      SurvivesIff(w, pal[n - 1], c, b.dist);
      var earlier := exists j :: 0 <= j < n - 1 && Distance(w, pal[j], c) <= INT_MAX as real;
      if earlier {
        assert LastArgmin(pal, w, c, n - 1, b.k);
      }
      if d <= b.dist {
        assert Scan(pal, w, c, n) == Best(d, n - 1);
        assert forall j :: 0 <= j < n - 1 ==> d <= Distance(w, pal[j], c);
        assert LastArgmin(pal, w, c, n, n - 1);
      } else {
        assert Scan(pal, w, c, n) == b;
        if earlier {
          assert Distance(w, pal[b.k], c) < d;
          assert LastArgmin(pal, w, c, n, b.k);
        }
      }
    }
  }

  /** The promise of `nearestColorIndex`: with non-negative weights, for a
      colour above the alpha threshold it returns the last palette index of
      least weighted distance (ties go to the later index), unless every
      entry is farther than INT_MAX, when it returns 0. */
  lemma {:induction false} NearestIsArgmin(pal: seq<Color>, w: Weights, alphaThreshold: Byte, c: Color)
    requires NonNeg(w) && c.a > alphaThreshold
    ensures (exists j :: 0 <= j < |pal| && Distance(w, pal[j], c) <= INT_MAX as real)
            ==> LastArgmin(pal, w, c, |pal|, NearestIndex(pal, w, alphaThreshold, c))
    ensures (forall j :: 0 <= j < |pal| ==> Distance(w, pal[j], c) > INT_MAX as real)
            ==> NearestIndex(pal, w, alphaThreshold, c) == 0
  {
    ScanMeaning(pal, w, c, |pal|);
  }

  // ------------------------------------------------------------ closest

  /** The `closest` vector of `closestColorIndex`: best and second-best
      index, and their errors as stored in unsigned shorts. */
  datatype Closest = Closest(best: int, second: int, bestErr: int, secondErr: int)

  /** The error of palette entry c2 against c: red, green and blue, plus alpha
      for an image with semi-transparent pixels. */
  function ClosestError(w: Weights, semi: bool, c2: Color, c: Color): real
  {
    var e := w.pr * Diff2(c2.r, c.r) + w.pg * Diff2(c2.g, c.g) + w.pb * Diff2(c2.b, c.b);
    if semi then e + w.pa * Diff2(c2.a, c.a) else e
  }

  /** With non-negative weights the error is non-negative. */
  lemma {:induction false} ClosestErrorNonNeg(w: Weights, semi: bool, c2: Color, c: Color)
    requires NonNeg(w)
    ensures ClosestError(w, semi, c2, c) >= 0.0
  {
    WeightedNonNeg(w.pr, Diff2(c2.r, c.r));
    WeightedNonNeg(w.pg, Diff2(c2.g, c.g));
    WeightedNonNeg(w.pb, Diff2(c2.b, c.b));
    WeightedNonNeg(w.pa, Diff2(c2.a, c.a));
  }

  /** A double stored into an unsigned short: truncated, then reduced modulo
      65536. */
  function ToUShort(v: real): (r: int)
    ensures 0 <= r < 65536
    ensures 0.0 <= v < 65536.0 ==> r == v.Floor
  {
    Trunc(v) % 65536
  }

  /** The ranking loop over the first n palette entries, from errors
      USHRT_MAX and indices 0. */
  function Ranked(pal: seq<Color>, w: Weights, semi: bool, c: Color, n: nat): (t: Closest)
    requires n <= |pal|
    ensures 0 <= t.best && (t.best < n || t.best == 0) && 0 <= t.second && (t.second < n || t.second == 0)
    ensures 0 <= t.bestErr <= USHRT_MAX && 0 <= t.secondErr <= USHRT_MAX
    decreases n
  {
    if n == 0 then Closest(0, 0, USHRT_MAX, USHRT_MAX)
    else
      var t := Ranked(pal, w, semi, c, n - 1);
      var err := ClosestError(w, semi, pal[n - 1], c);
      if err < t.bestErr as real then Closest(n - 1, t.best, ToUShort(err), t.bestErr)
      else if err < t.secondErr as real then t.(second := n - 1, secondErr := ToUShort(err))
      else t
  }

  /** After the loop: without a second best, the second is the best. */
  function Finished(t: Closest): Closest
  {
    if t.secondErr == USHRT_MAX then t.(second := t.best) else t
  }

  /** With non-negative weights, the stored best error is a lower bound of
      every entry's error and the stored second-best error of every entry but
      the best; each stored error below USHRT_MAX is the truncated error of its
      entry, and the second best is a different entry from the best. */
  lemma {:induction false} RankedMeaning(pal: seq<Color>, w: Weights, semi: bool, c: Color, n: nat)
    requires n <= |pal| && NonNeg(w)
    ensures var t := Ranked(pal, w, semi, c, n);
      && t.bestErr <= t.secondErr
      && (forall j :: 0 <= j < n ==> t.bestErr as real <= ClosestError(w, semi, pal[j], c))
      && (forall j :: 0 <= j < n && j != t.best ==> t.secondErr as real <= ClosestError(w, semi, pal[j], c))
      && (t.bestErr < USHRT_MAX ==> t.best < n && t.bestErr == ClosestError(w, semi, pal[t.best], c).Floor)
      && (t.secondErr < USHRT_MAX ==> t.second < n && t.second != t.best
                                      && t.secondErr == ClosestError(w, semi, pal[t.second], c).Floor)
    decreases n
  {
    if n > 0 {
      RankedMeaning(pal, w, semi, c, n - 1);
      var c2 := pal[n - 1];
      ClosestErrorNonNeg(w, semi, c2, c);
      var t := Ranked(pal, w, semi, c, n - 1);
      var err := ClosestError(w, semi, c2, c);
      if err < t.bestErr as real {
        assert ToUShort(err) == err.Floor;
        assert Ranked(pal, w, semi, c, n) == Closest(n - 1, t.best, ToUShort(err), t.bestErr);
      } else if err < t.secondErr as real {
        assert ToUShort(err) == err.Floor;
        assert Ranked(pal, w, semi, c, n) == t.(second := n - 1, secondErr := ToUShort(err));
      } else {
        assert Ranked(pal, w, semi, c, n) == t;
      }
    }
  }

  /** Which of the two is taken: the best when its error is under a third of
      the second's (`closest[3] * .67 < closest[3] - closest[2]`), otherwise
      one of them by the parity of pos. */
  function Pick(t: Closest, pos: nat): (idx: nat)
    ensures idx <= 1
  {
    if t.secondErr as real * 0.67 < (t.secondErr - t.bestErr) as real then 0
    else if t.best > t.second then pos % 2
    else (pos + 1) % 2
  }

  /** Without a clear winner, neighbouring positions take different entries. */
  lemma {:induction false} PickAlternates(t: Closest, pos: nat)
    requires !(t.secondErr as real * 0.67 < (t.secondErr - t.bestErr) as real)
    ensures Pick(t, pos) != Pick(t, pos + 1)
  {
  }

  /** `closestColorIndex` without its memos: 0 at or below the alpha
      threshold; otherwise the picked entry of the finished ranking, unless
      its stored error is at least the palette size, when the nearest index
      is taken instead. */
  function ClosestIndex(pal: seq<Color>, w: Weights, semi: bool, alphaThreshold: Byte, c: Color, pos: nat): (k: nat)
    ensures |pal| >= 1 ==> k < |pal|
    ensures c.a <= alphaThreshold ==> k == 0
  {
    if c.a <= alphaThreshold then 0
    else
      var t := Finished(Ranked(pal, w, semi, c, |pal|));
      var idx := Pick(t, pos);
      var err := if idx == 0 then t.bestErr else t.secondErr;
      if err >= |pal| then NearestIndex(pal, w, alphaThreshold, c)
      else if idx == 0 then t.best else t.second
  }

  /** The resolver's answer is the nearest index, or an entry of the ranking
      whose stored error is below the palette size; it is the best entry
      whenever that one is a clear winner. */
  lemma {:induction false} ClosestChoice(pal: seq<Color>, w: Weights, semi: bool, alphaThreshold: Byte, c: Color, pos: nat)
    requires c.a > alphaThreshold
    ensures var t := Finished(Ranked(pal, w, semi, c, |pal|));
      var k := ClosestIndex(pal, w, semi, alphaThreshold, c, pos);
      && (k == NearestIndex(pal, w, alphaThreshold, c)
          || (k == t.best && t.bestErr < |pal|)
          || (k == t.second && t.secondErr < |pal|))
      && (t.secondErr as real * 0.67 < (t.secondErr - t.bestErr) as real && t.bestErr < |pal| ==> k == t.best)
  {
  }
}
