/** The merge phase of `pnnquan`: nearest-neighbour search along the chain,
    the heap of cached merge costs, the lazily validated selection of the
    cheapest pair, the merge that unlinks the absorbed bin, and the palette
    fill that walks the surviving chain. */
module PnnQuant {
  import opened Colors
  import opened PnnBins
  import opened PnnHeap

  // ------------------------------------------------------------ live bins

  /** The live bins below k, in increasing index order: the chain's order. */
  ghost function LiveOrder(s: seq<Bin>, k: nat): (r: seq<nat>)
    requires k <= |s|
    ensures |r| <= k
    ensures forall j :: 0 <= j < |r| ==> r[j] < k && !Dead(s, r[j])
    decreases k
  {
    if k == 0 then []
    else LiveOrder(s, k - 1) + (if Dead(s, k - 1) then [] else [k - 1])
  }

  /** What bin x contributes to the total count: its count while it is live. */
  ghost function Weight(s: seq<Bin>, x: int): real
    requires 0 <= x < |s|
  {
    if Dead(s, x) then 0.0 else s[x].cnt
  }

  /** The total count of the live bins below k. */
  ghost function LiveTotal(s: seq<Bin>, k: nat): real
    requires k <= |s|
    decreases k
  {
    if k == 0 then 0.0 else LiveTotal(s, k - 1) + Weight(s, k - 1)
  }

  /** s' differs from s at most in the cached cost, neighbour and `tm` stamp
      of its bins. */
  ghost predicate Rekeyed(s: seq<Bin>, s': seq<Bin>)
  {
    |s'| == |s| && forall b :: 0 <= b < |s| ==> s'[b] == s[b].(err := s'[b].err, nn := s'[b].nn, tm := s'[b].tm)
  }

  /** Rekeying changes neither the chain nor the live bins. */
  lemma {:induction false} RekeyedKeeps(s: seq<Bin>, s': seq<Bin>, m: nat, k: nat)
    requires Rekeyed(s, s') && k <= m <= |s|
    ensures Linked(s, m) ==> Linked(s', m)
    ensures LiveOrder(s', k) == LiveOrder(s, k) && LiveTotal(s', k) == LiveTotal(s, k)
    decreases k
  {
    assert forall b :: 0 <= b < |s| ==> Dead(s', b) == Dead(s, b) && s'[b].fw == s[b].fw && s'[b].bk == s[b].bk;
    if Linked(s, m) {
      forall b | 0 <= b < m && !Dead(s', b)
        ensures LinkOk(s', m, b)
      {
        assert LinkOk(s, m, b);
      }
    }
    if k > 0 {
      RekeyedKeeps(s, s', m, k - 1);
    }
  }

  /** The live order is strictly increasing and lists every live bin. */
  lemma {:induction false} LiveOrderExact(s: seq<Bin>, k: nat)
    requires k <= |s|
    ensures forall j1, j2 :: 0 <= j1 < j2 < |LiveOrder(s, k)| ==> LiveOrder(s, k)[j1] < LiveOrder(s, k)[j2]
    ensures forall x :: 0 <= x < k && !Dead(s, x) ==> x in LiveOrder(s, k)
    decreases k
  {
    if k > 0 {
      LiveOrderExact(s, k - 1);
    }
  }

  /** Without a live bin after bin 0 at most one bin is live. */
  lemma {:induction false} GapOrder(s: seq<Bin>, k: nat)
    requires k <= |s| && Gap(s, 0, k)
    ensures |LiveOrder(s, k)| <= 1
    decreases k
  {
    if k > 1 {
      assert Gap(s, 0, k - 1);
      GapOrder(s, k - 1);
    }
  }

  /** Killing one live bin shortens the live order by one. */
  lemma {:induction false} OrderShrinks(s: seq<Bin>, r: seq<Bin>, k: nat, c: int)
    requires |r| == |s| && k <= |s| && 0 <= c < |s|
    requires forall x :: 0 <= x < |s| && x != c ==> Dead(r, x) == Dead(s, x)
    requires !Dead(s, c) && Dead(r, c)
    ensures |LiveOrder(r, k)| == |LiveOrder(s, k)| - (if c < k then 1 else 0)
    decreases k
  {
    if k > 0 {
      OrderShrinks(s, r, k - 1, c);
    }
  }

  /** The total count moves only by what the two changed bins contribute. */
  lemma {:induction false} TotalMoved(s: seq<Bin>, r: seq<Bin>, k: nat, b1: int, c: int)
    requires |r| == |s| && k <= |s| && 0 <= b1 < |s| && 0 <= c < |s| && b1 != c
    requires forall x :: 0 <= x < |s| && x != b1 && x != c ==> Weight(r, x) == Weight(s, x)
    ensures LiveTotal(r, k) == LiveTotal(s, k) + (if b1 < k then Weight(r, b1) - Weight(s, b1) else 0.0)
                                              + (if c < k then Weight(r, c) - Weight(s, c) else 0.0)
    decreases k
  {
    if k > 0 {
      TotalMoved(s, r, k - 1, b1, c);
    }
  }

  // ------------------------------------------------------------- find_nn

  /** err and nn are what `find_nn` leaves in bin idx when its scan of the
      chain has covered every live bin strictly between idx and hi: nn is 0
      with an infinite cost when there is none, otherwise the first live bin
      of least merge cost, and err is that cost. */
  ghost predicate IsNearestUpTo(s: seq<Bin>, idx: int, hi: nat, err: Key, nn: int, cost: (Cluster, Cluster) -> real)
    requires 0 <= idx < hi <= |s| && !Dead(s, idx)
  {
    && (nn == 0 ==> err == Inf && Gap(s, idx, hi))
    && (nn != 0 ==> idx < nn < hi && !Dead(s, nn) && err == Fin(cost(ClusterOf(s[idx]), ClusterOf(s[nn]))))
    && (forall c :: idx < c < hi && !Dead(s, c) ==> KeyLe(err, Fin(cost(ClusterOf(s[idx]), ClusterOf(s[c])))))
    && (forall c :: idx < c < nn && !Dead(s, c) ==> KeyLt(err, Fin(cost(ClusterOf(s[idx]), ClusterOf(s[c])))))
  }

  /** The cached cost and neighbour of bin b are its nearest live successor. */
  ghost predicate Nearest(s: seq<Bin>, m: nat, b: int, cost: (Cluster, Cluster) -> real)
    requires 0 <= b < m <= |s| && !Dead(s, b)
  {
    IsNearestUpTo(s, b, m, s[b].err, s[b].nn, cost)
  }

  /** The first least-cost successor is unique: `find_nn`'s result is
      determined by the bins. */
  lemma {:induction false} NearestUnique(s: seq<Bin>, idx: int, hi: nat, cost: (Cluster, Cluster) -> real,
                                         e1: Key, n1: int, e2: Key, n2: int)
    requires 0 <= idx < hi <= |s| && !Dead(s, idx)
    requires IsNearestUpTo(s, idx, hi, e1, n1, cost) && IsNearestUpTo(s, idx, hi, e2, n2, cost)
    ensures e1 == e2 && n1 == n2
  {
    if n1 != 0 && n2 != 0 {
      assert KeyLe(e1, e2) && KeyLe(e2, e1);
    }
  }

  /** One step of the scan: the live bin i, followed in the chain by the bin
      `next`, is compared with the best so far. */
  lemma {:induction false} ScanStep(s: seq<Bin>, m: nat, idx: int, i: int, err: Key, nn: int, cost: (Cluster, Cluster) -> real,
                                    err': Key, nn': int)
    requires 0 <= idx < i < m <= |s| && !Dead(s, idx) && !Dead(s, i)
    requires LinkOk(s, m, i)
    requires IsNearestUpTo(s, idx, i, err, nn, cost)
    requires var nerr := cost(ClusterOf(s[idx]), ClusterOf(s[i]));
             if KeyLe(err, Fin(nerr)) then err' == err && nn' == nn else err' == Fin(nerr) && nn' == i
    ensures IsNearestUpTo(s, idx, if s[i].fw == 0 then m else s[i].fw, err', nn', cost)
  {
    var hi := if s[i].fw == 0 then m else s[i].fw;
    var nerr := cost(ClusterOf(s[idx]), ClusterOf(s[i]));
    forall c | idx < c < hi && !Dead(s, c)
      ensures KeyLe(err', Fin(cost(ClusterOf(s[idx]), ClusterOf(s[c]))))
    {
      if c < i {
        if !KeyLe(err, Fin(nerr)) {
          KeyLeTransitive(err', err, Fin(cost(ClusterOf(s[idx]), ClusterOf(s[c]))));
        }
      } else if c > i {
        assert false;
      }
    }
    forall c | idx < c < nn' && !Dead(s, c)
      ensures KeyLt(err', Fin(cost(ClusterOf(s[idx]), ClusterOf(s[c]))))
    {
      if !KeyLe(err, Fin(nerr)) {
        assert KeyLe(err, Fin(cost(ClusterOf(s[idx]), ClusterOf(s[c]))));
      }
    }
  }

  /** `find_nn`: walk the chain from idx through `fw`, keeping the first
      successor of strictly least merge cost. */
  method FindNN(bins: array<Bin>, idx: int, cost: (Cluster, Cluster) -> real, ghost m: nat)
    requires 0 <= idx < m <= bins.Length && !Dead(bins[..], idx)
    requires Linked(bins[..], m)
    modifies bins
    ensures bins[..] == old(bins[..])[idx := old(bins[idx]).(err := bins[idx].err, nn := bins[idx].nn)]
    ensures IsNearestUpTo(old(bins[..]), idx, m, bins[idx].err, bins[idx].nn, cost)
  {
    ghost var s := bins[..];
    var bin1 := bins[idx];
    var nn := 0;
    var err := Inf;
    var i := bin1.fw;
    assert LinkOk(s, m, idx);
    while i != 0
      invariant bins[..] == s && bin1 == s[idx]
      invariant i == 0 || (idx < i < m && !Dead(s, i))
      invariant IsNearestUpTo(s, idx, if i == 0 then m else i, err, nn, cost)
      decreases if i == 0 then 0 else m + 1 - i
    {
      assert LinkOk(s, m, i);
      var nerr := cost(ClusterOf(bin1), ClusterOf(bins[i]));
      var next := bins[i].fw;
      ghost var err0, nn0 := err, nn;
      if !KeyLe(err, Fin(nerr)) {
        err := Fin(nerr);
        nn := i;
      }
      ScanStep(s, m, idx, i, err0, nn0, cost, err, nn);
      i := next;
    }
    bins[idx] := bins[idx].(err := err, nn := nn);
  }

  /** A first least-cost successor satisfies the invariant the merge loop
      keeps about cached neighbours. */
  ghost predicate NearOk(s: seq<Bin>, m: nat, b: int)
    requires 0 <= b < m <= |s|
  {
    var nn := s[b].nn;
    && (nn == 0 ==> s[b].err == Inf && Gap(s, b, m))
    && (nn != 0 ==> b < nn < m && s[b].err != Inf)
  }

  /** Every live bin's cached neighbour is 0, with an infinite cost and no
      live successor, or a later bin, with a finite cost. */
  ghost predicate Nears(s: seq<Bin>, m: nat)
    requires m <= |s|
  {
    forall b {:trigger NearOk(s, m, b)} :: 0 <= b < m && !Dead(s, b) ==> NearOk(s, m, b)
  }

  /** A scan result stays true of bins that were only rekeyed. */
  lemma {:induction false} NearestMoved(s: seq<Bin>, s': seq<Bin>, idx: int, hi: nat, err: Key, nn: int,
                                        cost: (Cluster, Cluster) -> real)
    requires Rekeyed(s, s') && 0 <= idx < hi <= |s| && !Dead(s, idx)
    requires IsNearestUpTo(s, idx, hi, err, nn, cost)
    ensures !Dead(s', idx) && IsNearestUpTo(s', idx, hi, err, nn, cost)
  {
    assert forall c :: 0 <= c < |s| ==> Dead(s', c) == Dead(s, c);
    assert forall c :: 0 <= c < |s| ==> ClusterOf(s'[c]) == ClusterOf(s[c]);
  }

  /** The nearest-neighbour cache of a bin stays true as long as only other
      bins' caches change. */
  lemma {:induction false} NearestKept(s: seq<Bin>, s': seq<Bin>, m: nat, b: int, cost: (Cluster, Cluster) -> real)
    requires Rekeyed(s, s') && 0 <= b < m <= |s| && !Dead(s, b)
    requires s'[b].err == s[b].err && s'[b].nn == s[b].nn && Nearest(s, m, b, cost)
    ensures !Dead(s', b) && Nearest(s', m, b, cost)
  {
    NearestMoved(s, s', b, m, s[b].err, s[b].nn, cost);
  }

  // ----------------------------------------------------------- build heap

  /** The heap entries 1..n are bins below m when every bin in the heap is. */
  lemma {:induction false} EntriesFromMembers(hs: seq<int>, n: nat, k: nat, m: nat)
    requires Entries(hs, n, k) && forall v :: v in Members(hs, n) ==> v < m
    ensures Entries(hs, n, m)
  {
    forall j | 1 <= j <= n
      ensures hs[j] < m
    {
      assert hs[j] in Members(hs, n);
    }
  }

  /** The state of the heap-building loop after bins 0..i-1: those bins have
      their nearest successors cached and form the heap. */
  ghost predicate Seeded(s: seq<Bin>, hs: seq<int>, m: nat, i: nat, cost: (Cluster, Cluster) -> real)
  {
    && i <= m <= |s| && |hs| == HEAP_SIZE && hs[0] == i
    && Entries(hs, i, i) && Distinct(hs, i) && Ordered(hs, i, Keys(s))
    && (forall v :: v in Members(hs, i) <==> 0 <= v < i)
    && Linked(s, m) && (forall b :: 0 <= b < m ==> !Dead(s, b))
    && (forall b :: 0 <= b < i ==> Nearest(s, m, b, cost))
  }

  /** Caching the nearest successor of bin i keeps the chain and the other
      bins' caches and the heap order of bins 0..i-1. */
  lemma {:induction false} SeedKept(s: seq<Bin>, s': seq<Bin>, hs: seq<int>, m: nat, i: nat,
                                    cost: (Cluster, Cluster) -> real, e: Key, n: int)
    requires Seeded(s, hs, m, i, cost) && i < m
    requires s' == s[i := s[i].(err := e, nn := n)] && IsNearestUpTo(s, i, m, e, n, cost)
    ensures Linked(s', m) && forall b :: 0 <= b < m ==> !Dead(s', b)
    ensures forall b :: 0 <= b <= i ==> Nearest(s', m, b, cost)
    ensures Entries(hs, i, |s'|) && Ordered(hs, i, Keys(s'))
  {
    assert Rekeyed(s, s');
    RekeyedKeeps(s, s', m, 0);
    forall b | 0 <= b < m
      ensures !Dead(s', b)
    {
      assert s'[b].mtm == s[b].mtm;
    }
    forall b | 0 <= b < i
      ensures Nearest(s', m, b, cost)
    {
      NearestKept(s, s', m, b, cost);
    }
    NearestMoved(s, s', i, m, e, n, cost);
    SameKeys(hs, i, Keys(s), Keys(s'));
    EntriesFromMembers(hs, i, i, |s'|);
  }

  /** One round of the heap-building loop: `find_nn` for bin i, then its push. */
  method SeedBin(bins: array<Bin>, heap: array<int>, i: int, m: nat, cost: (Cluster, Cluster) -> real)
    requires bins.Length == BIN_COUNT && heap.Length == HEAP_SIZE && 0 <= i < m
    requires Seeded(bins[..], heap[..], m, i, cost)
    modifies bins, heap
    ensures bins[..] == old(bins[..])[i := old(bins[i]).(err := bins[i].err, nn := bins[i].nn)]
    ensures Seeded(bins[..], heap[..], m, i + 1, cost)
  {
    ghost var s := bins[..];
    FindNN(bins, i, cost, m);
    SeedKept(s, bins[..], heap[..], m, i, cost, bins[i].err, bins[i].nn);
    ghost var s' := bins[..];
    Push(heap, bins, i, Keys(s'));
    EntriesFromMembers(heap[..], i + 1, bins.Length, i + 1);
  }

  /** "Initialize nearest neighbors and build heap of them": every bin of the
      chain gets its nearest successor and is pushed onto the heap. */
  method BuildHeap(bins: array<Bin>, m: nat, cost: (Cluster, Cluster) -> real) returns (heap: array<int>)
    requires bins.Length == BIN_COUNT && m <= BIN_COUNT
    requires Linked(bins[..], m) && forall b :: 0 <= b < m ==> !Dead(bins[..], b)
    modifies bins
    ensures fresh(heap)
    ensures forall b :: 0 <= b < bins.Length ==> bins[b] == old(bins[b]).(err := bins[b].err, nn := bins[b].nn)
    ensures Seeded(bins[..], heap[..], m, m, cost)
  {
    heap := new int[HEAP_SIZE](_ => 0);
    ghost var s0 := bins[..];
    var i := 0;
    while i < m
      invariant 0 <= i <= m && heap.Length == HEAP_SIZE
      invariant Seeded(bins[..], heap[..], m, i, cost)
      invariant forall b :: 0 <= b < bins.Length ==> bins[b] == s0[b].(err := bins[b].err, nn := bins[b].nn)
    {
      SeedBin(bins, heap, i, m, cost);
      i := i + 1;
    }
  }
}
