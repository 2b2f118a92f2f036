/** The merge loop of `pnnquan`: the lazily validated choice of the cheapest
    pair from the heap, the merge that folds a bin into its neighbour and
    unlinks it from the chain, and the loop that repeats this until only
    nMaxColors bins are left. */
module PnnMerge {
  import opened Colors
  import opened PnnBins
  import opened PnnHeap
  import opened PnnQuant

  // ------------------------------------------------------------ the state

  /** No bin's `tm` is later than the merge counter i, nor any live bin's
      `mtm`; i itself is below the tombstone stamp. */
  ghost predicate Stamps(s: seq<Bin>, m: nat, i: nat)
    requires m <= |s|
  {
    i < TOMBSTONE && forall b :: 0 <= b < m ==> s[b].tm <= i && (Dead(s, b) || s[b].mtm <= i)
  }

  /** The test "is stored error up to date?": the cached cost of bin b was
      computed no earlier than the last merge into b or into its neighbour. */
  predicate Fresh(s: seq<Bin>, b: int)
    requires 0 <= b < |s|
  {
    s[b].tm >= s[b].mtm && 0 <= s[b].nn < |s| && s[s[b].nn].mtm <= s[b].tm
  }

  /** A live bin whose cache passes the test holds the true merge cost of
      itself and its neighbour. */
  ghost predicate Exact(s: seq<Bin>, m: nat, cost: (Cluster, Cluster) -> real)
    requires m <= |s|
  {
    forall b {:trigger Fresh(s, b)} :: 0 <= b < m && !Dead(s, b) && Fresh(s, b) && s[b].nn != 0 ==>
      s[b].err == Fin(cost(ClusterOf(s[b]), ClusterOf(s[s[b].nn])))
  }

  /** The heap holds distinct bins below m, every live one among them, in
      heap order of their cached costs. */
  ghost predicate HeapOk(s: seq<Bin>, hs: seq<int>, m: nat)
    requires m <= |s|
  {
    && |hs| == HEAP_SIZE && 0 <= hs[0] < HEAP_SIZE
    && Entries(hs, hs[0], m) && Distinct(hs, hs[0]) && Ordered(hs, hs[0], Keys(s))
    && forall b :: 0 <= b < m && !Dead(s, b) ==> b in Members(hs, hs[0])
  }

  /** What the merge loop keeps between rounds, i being its counter. */
  ghost predicate MergeState(s: seq<Bin>, hs: seq<int>, m: nat, i: nat, cost: (Cluster, Cluster) -> real)
  {
    && |s| == BIN_COUNT && m <= BIN_COUNT
    && Linked(s, m) && Stamps(s, m, i) && Nears(s, m) && Exact(s, m, cost) && HeapOk(s, hs, m)
  }

  /** The live bins whose cache fails the test. */
  ghost function Stale(s: seq<Bin>, m: nat): set<int>
    requires m <= |s|
  {
    set b | 0 <= b < m && !Dead(s, b) && !Fresh(s, b)
  }

  // ----------------------------------------------------- facts about bins

  /** The last live bin before c. */
  ghost function LastLive(s: seq<Bin>, c: int): (q: int)
    requires 0 < c <= |s| && !Dead(s, 0)
    ensures 0 <= q < c && !Dead(s, q) && Gap(s, q, c)
    decreases c
  {
    if !Dead(s, c - 1) then c - 1 else LastLive(s, c - 1)
  }

  /** In the chain, a live bin c other than the head is reached from its
      `bk`: the last live bin before it, whose `fw` is c. */
  lemma {:induction false} Predecessor(s: seq<Bin>, m: nat, c: int)
    requires m <= |s| && Linked(s, m) && 0 < c < m && !Dead(s, c)
    ensures 0 <= s[c].bk < c && !Dead(s, s[c].bk) && s[s[c].bk].fw == c && Gap(s, s[c].bk, c)
  {
    var q := LastLive(s, c);
    assert LinkOk(s, m, q);
  }

  // ------------------------------------------------------------ the heap

  lemma {:induction false} MembersBelow(hs: seq<int>, n: nat, m: nat)
    requires Entries(hs, n, m)
    ensures forall v :: v in Members(hs, n) ==> 0 <= v < m
  {
  }

  /** The root holds the least cached cost of all bins in the heap. */
  lemma {:induction false} RootIsLeast(hs: seq<int>, n: nat, ks: seq<Key>)
    requires Entries(hs, n, |ks|) && Ordered(hs, n, ks) && 1 <= n
    ensures forall v :: v in Members(hs, n) ==> KeyLe(ks[hs[1]], ks[v])
  {
    forall v | v in Members(hs, n)
      ensures KeyLe(ks[hs[1]], ks[v])
    {
      var j :| 1 <= j <= n && hs[j] == v;
      RootIsMin(hs, n, ks, j);
    }
  }

  lemma {:induction false} HeapOkIntro(s: seq<Bin>, hs: seq<int>, m: nat)
    requires m <= |s| && |hs| == HEAP_SIZE && 0 <= hs[0] < HEAP_SIZE
    requires Entries(hs, hs[0], |s|) && Distinct(hs, hs[0]) && Ordered(hs, hs[0], Keys(s))
    requires forall v :: v in Members(hs, hs[0]) ==> v < m
    requires forall b :: 0 <= b < m && !Dead(s, b) ==> b in Members(hs, hs[0])
    ensures HeapOk(s, hs, m)
  {
    EntriesFromMembers(hs, hs[0], |s|, m);
  }

  /** With two live bins the heap is not empty, its root is a bin below m,
      and a root that passes the freshness test is live with a cached
      neighbour in range. */
  lemma {:induction false} RootInRange(s: seq<Bin>, hs: seq<int>, m: nat, i: nat, cost: (Cluster, Cluster) -> real)
    requires MergeState(s, hs, m, i, cost) && |LiveOrder(s, m)| >= 2
    ensures 1 <= hs[0] && 0 <= hs[1] < m
    ensures s[hs[1]].tm >= s[hs[1]].mtm ==> !Dead(s, hs[1]) && 0 <= s[hs[1]].nn < m
  {
    assert m > 0;
    assert 0 in Members(hs, hs[0]);
    var b1 := hs[1];
    if s[b1].tm >= s[b1].mtm {
      assert NearOk(s, m, b1);
    }
  }

  /** Bin b1 and its cached neighbour are the pair `pnnquan` merges: b1 is
      live and its cache passes the test, the neighbour is a later live bin,
      the cached cost is the true cost of the pair, and no live bin has a
      smaller cached cost. */
  ghost predicate Cheapest(s: seq<Bin>, m: nat, b1: int, cost: (Cluster, Cluster) -> real)
    requires m <= |s|
  {
    && 0 <= b1 < m && !Dead(s, b1) && Fresh(s, b1)
    && b1 < s[b1].nn < m && !Dead(s, s[b1].nn)
    && s[b1].err == Fin(cost(ClusterOf(s[b1]), ClusterOf(s[s[b1].nn])))
    && forall b :: 0 <= b < m && !Dead(s, b) ==> KeyLe(s[b1].err, s[b].err)
  }

  /** A root that passes the test is the cheapest pair. */
  lemma {:induction false} AcceptedRoot(s: seq<Bin>, hs: seq<int>, m: nat, i: nat, cost: (Cluster, Cluster) -> real)
    requires MergeState(s, hs, m, i, cost) && |LiveOrder(s, m)| >= 2
    requires 1 <= hs[0] && 0 <= hs[1] < m && Fresh(s, hs[1])
    ensures Cheapest(s, m, hs[1], cost)
  {
    var b1 := hs[1];
    var ks := Keys(s);
    RootIsLeast(hs, hs[0], ks);
    assert 0 in Members(hs, hs[0]);
    assert NearOk(s, m, 0);
    if s[0].nn == 0 {
      GapOrder(s, m);
    }
    assert KeyLe(ks[b1], ks[0]);
    assert NearOk(s, m, b1);
    assert Fresh(s, b1);
  }

  /** Popping a deleted root: the heap still has a root, and keeps every
      live bin. */
  lemma {:induction false} PopKeeps(s: seq<Bin>, hs: seq<int>, m: nat, i: nat, cost: (Cluster, Cluster) -> real)
    requires MergeState(s, hs, m, i, cost) && 1 <= hs[0] && 0 <= hs[1] < m && Dead(s, hs[1])
    requires m > 0
    ensures var t := hs[0 := hs[0] - 1][1 := hs[hs[0]]];
            && 1 <= t[0] && 0 <= t[1] < m
            && Entries(t, t[0], |s|) && Distinct(t, t[0]) && OrderedBelow(t, t[0], Keys(s), 1)
            && (forall v :: v in Members(t, t[0]) ==> v < m)
            && (forall b :: 0 <= b < m && !Dead(s, b) ==> b in Members(t, t[0]))
  {
    var n := hs[0];
    assert 0 in Members(hs, n);
    assert n >= 2;
    EntriesFromMembers(hs, n, m, |s|);
    PopRoot(hs, n, Keys(s));
    MembersBelow(hs, n, m);
  }

  /** Recomputing the cache of a stale live bin b1 and stamping it with i
      keeps the chain, the stamps and the caches, and removes b1 from the
      stale bins. */
  lemma {:induction false} RecomputeState(s: seq<Bin>, s': seq<Bin>, m: nat, i: nat, b1: int,
                                          cost: (Cluster, Cluster) -> real, e: Key, n: int)
    requires |s| == BIN_COUNT && m <= BIN_COUNT
    requires Linked(s, m) && Stamps(s, m, i) && Nears(s, m) && Exact(s, m, cost)
    requires 0 <= b1 < m && !Dead(s, b1) && !Fresh(s, b1)
    requires IsNearestUpTo(s, b1, m, e, n, cost)
    requires s' == s[b1 := s[b1].(err := e, nn := n, tm := i)]
    ensures Rekeyed(s, s') && Linked(s', m) && Stamps(s', m, i) && Nears(s', m) && Exact(s', m, cost)
    ensures |Stale(s', m)| < |Stale(s, m)|
  {
    assert Rekeyed(s, s');
    RekeyedKeeps(s, s', m, 0);
    assert forall x :: 0 <= x < |s| ==> Dead(s', x) == Dead(s, x) && s'[x].mtm == s[x].mtm;
    assert forall x :: 0 <= x < |s| ==> ClusterOf(s'[x]) == ClusterOf(s[x]);
    forall b | 0 <= b < m && !Dead(s', b)
      ensures NearOk(s', m, b)
    {
      if b != b1 {
        assert NearOk(s, m, b);
      }
    }
    assert Fresh(s', b1);
    forall b | 0 <= b < m && !Dead(s', b) && Fresh(s', b) && s'[b].nn != 0
      ensures s'[b].err == Fin(cost(ClusterOf(s'[b]), ClusterOf(s'[s'[b].nn])))
    {
      if b != b1 {
        assert Fresh(s, b);
      }
    }
    assert forall b :: 0 <= b < |s| && b != b1 ==> Fresh(s', b) == Fresh(s, b);
    assert Stale(s', m) == Stale(s, m) - {b1};
  }

  /** Only the root's cost changed: the heap keeps its bins and its order
      below the root. */
  lemma {:induction false} RecomputeHeap(s: seq<Bin>, s': seq<Bin>, hs: seq<int>, m: nat)
    requires m <= |s| && HeapOk(s, hs, m) && 1 <= hs[0] && |s'| == |s|
    requires forall x :: 0 <= x < |s| && x != hs[1] ==> s'[x].err == s[x].err
    requires forall x :: 0 <= x < |s| ==> Dead(s', x) == Dead(s, x)
    ensures Entries(hs, hs[0], |s'|) && Distinct(hs, hs[0]) && OrderedBelow(hs, hs[0], Keys(s'), 1)
    ensures forall v :: v in Members(hs, hs[0]) ==> v < m
    ensures forall b :: 0 <= b < m && !Dead(s', b) ==> b in Members(hs, hs[0])
  {
    EntriesFromMembers(hs, hs[0], m, |s|);
    MembersBelow(hs, hs[0], m);
    RootRekeyed(hs, hs[0], Keys(s), Keys(s'));
  }

  /** A deleted root leaves the heap: the last entry takes its place and
      is pushed down. */
  method DropRoot(bins: array<Bin>, heap: array<int>, m: nat, i: nat, cost: (Cluster, Cluster) -> real)
    requires bins.Length == BIN_COUNT && heap.Length == HEAP_SIZE
    requires MergeState(bins[..], heap[..], m, i, cost) && m > 0
    requires 1 <= heap[0] && 0 <= heap[1] < m && Dead(bins[..], heap[1])
    modifies heap
    ensures MergeState(bins[..], heap[..], m, i, cost) && heap[0] < old(heap[0])
  {
    ghost var s := bins[..];
    ghost var hs := heap[..];
    PopKeeps(s, hs, m, i, cost);
    var n := heap[0];
    heap[0] := n - 1;
    heap[1] := heap[n];
    var b1 := heap[1];
    assert heap[..] == hs[0 := n - 1][1 := hs[n]];
    SiftDown(heap, bins, b1, Keys(s));
    HeapOkIntro(s, heap[..], m);
  }

  /** A live root whose cache is stale gets its nearest successor again,
      the stamp i, and is pushed down. */
  method Refresh(bins: array<Bin>, heap: array<int>, m: nat, i: nat, cost: (Cluster, Cluster) -> real)
    requires bins.Length == BIN_COUNT && heap.Length == HEAP_SIZE
    requires MergeState(bins[..], heap[..], m, i, cost)
    requires 1 <= heap[0] && 0 <= heap[1] < m && !Dead(bins[..], heap[1]) && !Fresh(bins[..], heap[1])
    modifies bins, heap
    ensures MergeState(bins[..], heap[..], m, i, cost) && Rekeyed(old(bins[..]), bins[..])
    ensures heap[0] == old(heap[0]) && |Stale(bins[..], m)| < old(|Stale(bins[..], m)|)
  {
    ghost var s := bins[..];
    ghost var hs := heap[..];
    var b1 := heap[1];
    FindNN(bins, b1, cost, m);
    bins[b1] := bins[b1].(tm := i);
    ghost var s' := bins[..];
    RecomputeState(s, s', m, i, b1, cost, s'[b1].err, s'[b1].nn);
    RecomputeHeap(s, s', hs, m);
    SiftDown(heap, bins, b1, Keys(s'));
    HeapOkIntro(s', heap[..], m);
  }

  /** "Use heap to find which bins to merge": pop deleted roots and
      recompute stale ones until the root's cache passes the test. */
  method SelectRoot(bins: array<Bin>, heap: array<int>, m: nat, i: nat, cost: (Cluster, Cluster) -> real)
    returns (b1: int)
    requires bins.Length == BIN_COUNT && heap.Length == HEAP_SIZE
    requires MergeState(bins[..], heap[..], m, i, cost) && |LiveOrder(bins[..], m)| >= 2
    modifies bins, heap
    ensures MergeState(bins[..], heap[..], m, i, cost) && Rekeyed(old(bins[..]), bins[..])
    ensures Cheapest(bins[..], m, b1, cost)
  {
    ghost var s0 := bins[..];
    RekeyedKeeps(s0, s0, m, m);
    while true
      invariant MergeState(bins[..], heap[..], m, i, cost) && Rekeyed(s0, bins[..])
      invariant |LiveOrder(bins[..], m)| >= 2
      decreases heap[0], |Stale(bins[..], m)|
    {
      ghost var s := bins[..];
      RootInRange(s, heap[..], m, i, cost);
      b1 := heap[1];
      var tb := bins[b1];
      if tb.tm >= tb.mtm && bins[tb.nn].mtm <= tb.tm {
        AcceptedRoot(s, heap[..], m, i, cost);
        break;
      }
      if tb.mtm == TOMBSTONE {
        DropRoot(bins, heap, m, i, cost);
      } else {
        Refresh(bins, heap, m, i, cost);
        RekeyedKeeps(s, bins[..], m, m);
        assert Rekeyed(s0, bins[..]);
      }
    }
  }

  // ---------------------------------------------------------- one merge

  /** The merged bin: the channel means that `absorb` gives for the pair,
      the sum of the counts, and stamp i + 1. */
  function Joined(tb: Bin, nb: Bin, i: nat, absorb: (Cluster, Cluster) -> Cluster): Bin
  {
    var mean := absorb(ClusterOf(tb), ClusterOf(nb));
    tb.(ac := mean.ac, rc := mean.rc, gc := mean.gc, bc := mean.bc, cnt := tb.cnt + nb.cnt, mtm := i + 1)
  }

  /** "Unchain deleted bin": c's predecessor skips to c's successor, the
      successor points back to the predecessor, and c gets the tombstone. */
  function Unchained(s: seq<Bin>, c: int): (r: seq<Bin>)
    requires 0 <= c < |s| && 0 <= s[c].bk < |s| && 0 <= s[c].fw < |s|
    ensures |r| == |s|
  {
    var nb := s[c];
    var s2 := s[nb.bk := s[nb.bk].(fw := nb.fw)];
    var s3 := s2[nb.fw := s2[nb.fw].(bk := nb.bk)];
    s3[c := s3[c].(mtm := TOMBSTONE)]
  }

  /** The bins after "do a merge" of b1 with its cached neighbour. */
  ghost function Merged(s: seq<Bin>, b1: int, i: nat, absorb: (Cluster, Cluster) -> Cluster): (r: seq<Bin>)
    requires 0 <= b1 < |s| && 0 <= s[b1].nn < |s| && s[b1].nn != b1
    requires 0 <= s[s[b1].nn].bk < |s| && 0 <= s[s[b1].nn].fw < |s|
    ensures |r| == |s|
  {
    var c := s[b1].nn;
    Unchained(s[b1 := Joined(s[b1], s[c], i, absorb)], c)
  }

  /** "Do a merge": fold the neighbour into b1, then unlink the neighbour. */
  method MergePair(bins: array<Bin>, b1: int, i: nat, absorb: (Cluster, Cluster) -> Cluster)
    requires 0 <= b1 < bins.Length && 0 <= bins[b1].nn < bins.Length && bins[b1].nn != b1
    requires 0 <= bins[bins[b1].nn].bk < bins.Length && 0 <= bins[bins[b1].nn].fw < bins.Length
    modifies bins
    ensures bins[..] == Merged(old(bins[..]), b1, i, absorb)
  {
    var c := bins[b1].nn;
    var nb := bins[c];
    bins[b1] := Joined(bins[b1], nb, i, absorb);
    bins[nb.bk] := bins[nb.bk].(fw := nb.fw);
    bins[nb.fw] := bins[nb.fw].(bk := nb.bk);
    bins[c] := bins[c].(mtm := TOMBSTONE);
  }

  /** Changing only clusters and stamps below the tombstone keeps the chain. */
  lemma {:induction false} LinksKept(s: seq<Bin>, r: seq<Bin>, m: nat)
    requires |r| == |s| && m <= |s| && Linked(s, m)
    requires forall x :: 0 <= x < |s| ==> r[x].fw == s[x].fw && r[x].bk == s[x].bk && Dead(r, x) == Dead(s, x)
    ensures Linked(r, m)
  {
    forall b | 0 <= b < m && !Dead(r, b)
      ensures LinkOk(r, m, b)
    {
      assert LinkOk(s, m, b);
    }
  }

  /** Unchaining a live bin other than the head keeps the chain of the
      remaining live bins. */
  lemma {:induction false} UnchainedLinked(s: seq<Bin>, m: nat, c: int)
    requires m <= |s| && Linked(s, m) && 0 < c < m && !Dead(s, c)
    ensures 0 <= s[c].bk < |s| && 0 <= s[c].fw < |s|
    ensures Linked(Unchained(s, c), m)
    ensures forall x :: 0 <= x < |s| && x != c ==> Dead(Unchained(s, c), x) == Dead(s, x)
    ensures Dead(Unchained(s, c), c)
  {
    Predecessor(s, m, c);
    assert LinkOk(s, m, c);
    var p, f := s[c].bk, s[c].fw;
    var r := Unchained(s, c);
    assert forall x :: 0 <= x < |s| && x != c ==> Dead(r, x) == Dead(s, x);
    forall b | 0 <= b < m && !Dead(r, b)
      ensures LinkOk(r, m, b)
    {
      assert LinkOk(s, m, b);
      if b == p {
        assert r[p].fw == f;
        if f != 0 {
          assert r[f].bk == p;
        }
      } else {
        assert r[b].fw == s[b].fw;
        var g := s[b].fw;
        if g != 0 {
          assert g != c && g != f;
          assert r[g].bk == s[g].bk;
        }
      }
    }
  }

  /** What a merge changes, bin by bin: the merged bin gets the summed count
      and the stamp i + 1, the absorbed bin the tombstone, everything else
      only links. */
  lemma {:induction false} MergedShape(s: seq<Bin>, b1: int, i: nat, absorb: (Cluster, Cluster) -> Cluster)
    requires 0 <= b1 < |s| && 0 <= s[b1].nn < |s| && s[b1].nn != b1
    requires 0 <= s[s[b1].nn].bk < |s| && 0 <= s[s[b1].nn].fw < |s|
    ensures var r, c := Merged(s, b1, i, absorb), s[b1].nn;
            && (forall x :: 0 <= x < |s| ==> r[x].err == s[x].err && r[x].nn == s[x].nn && r[x].tm == s[x].tm)
            && (forall x :: 0 <= x < |s| && x != b1 && x != c ==> ClusterOf(r[x]) == ClusterOf(s[x]) && r[x].mtm == s[x].mtm)
            && r[b1].mtm == i + 1 && r[c].mtm == TOMBSTONE && r[b1].cnt == s[b1].cnt + s[c].cnt
  {
  }

  /** The caches, stamps and heap survive a merge of the live bins b1 and c
      into b1, given what the merge changes bin by bin. */
  lemma {:induction false} MergedCaches(s: seq<Bin>, r: seq<Bin>, hs: seq<int>, m: nat, i: nat, b1: int, c: int,
                                        cost: (Cluster, Cluster) -> real)
    requires MergeState(s, hs, m, i, cost) && i + 1 < TOMBSTONE && |r| == |s| && Linked(r, m)
    requires 0 <= b1 < m && 0 <= c < m && b1 != c && !Dead(s, b1) && !Dead(s, c)
    requires forall x :: 0 <= x < |s| ==> r[x].err == s[x].err && r[x].nn == s[x].nn && r[x].tm == s[x].tm
    requires forall x :: 0 <= x < |s| && x != b1 && x != c ==> ClusterOf(r[x]) == ClusterOf(s[x]) && r[x].mtm == s[x].mtm
    requires r[b1].mtm == i + 1 && r[c].mtm == TOMBSTONE
    ensures MergeState(r, hs, m, i + 1, cost)
  {
    assert forall x :: 0 <= x < |s| && x != c ==> Dead(r, x) == Dead(s, x);
    forall b | 0 <= b < m && !Dead(r, b)
      ensures NearOk(r, m, b)
    {
      assert NearOk(s, m, b);
    }
    forall b | 0 <= b < m && !Dead(r, b) && Fresh(r, b) && r[b].nn != 0
      ensures r[b].err == Fin(cost(ClusterOf(r[b]), ClusterOf(r[r[b].nn])))
    {
      assert Fresh(s, b);
    }
    assert Keys(r) == Keys(s);
    MembersBelow(hs, hs[0], m);
    EntriesFromMembers(hs, hs[0], m, |r|);
    HeapOkIntro(r, hs, m);
  }

  /** One merge keeps the state for counter i + 1, removes one live bin, and
      keeps the total count. */
  lemma {:induction false} MergedKeeps(s: seq<Bin>, hs: seq<int>, m: nat, i: nat, b1: int,
                                       cost: (Cluster, Cluster) -> real, absorb: (Cluster, Cluster) -> Cluster)
    requires MergeState(s, hs, m, i, cost) && i + 1 < TOMBSTONE
    requires 0 <= b1 < m && b1 < s[b1].nn < m && !Dead(s, b1) && !Dead(s, s[b1].nn)
    ensures 0 <= s[s[b1].nn].bk < |s| && 0 <= s[s[b1].nn].fw < |s|
    ensures MergeState(Merged(s, b1, i, absorb), hs, m, i + 1, cost)
    ensures |LiveOrder(Merged(s, b1, i, absorb), m)| == |LiveOrder(s, m)| - 1
    ensures LiveTotal(Merged(s, b1, i, absorb), m) == LiveTotal(s, m)
  {
    var c := s[b1].nn;
    var s1 := s[b1 := Joined(s[b1], s[c], i, absorb)];
    LinksKept(s, s1, m);
    UnchainedLinked(s1, m, c);
    var r := Merged(s, b1, i, absorb);
    MergedShape(s, b1, i, absorb);
    MergedCaches(s, r, hs, m, i, b1, c, cost);
    OrderShrinks(s, r, m, c);
    TotalMoved(s, r, m, b1, c);
  }

  // ------------------------------------------------------------ the loop

  /** "Merge bins which increase error the least": starting from the heap of
      all m chained bins, merge until nMaxColors of them are left. */
  method MergeBins(bins: array<Bin>, heap: array<int>, m: nat, nMaxColors: nat,
                   cost: (Cluster, Cluster) -> real, absorb: (Cluster, Cluster) -> Cluster)
    requires bins.Length == BIN_COUNT && heap.Length == HEAP_SIZE && nMaxColors > 2
    requires MergeState(bins[..], heap[..], m, 0, cost) && |LiveOrder(bins[..], m)| == m
    modifies bins, heap
    ensures Linked(bins[..], m)
    ensures |LiveOrder(bins[..], m)| == if m > nMaxColors then nMaxColors else m
    ensures LiveTotal(bins[..], m) == old(LiveTotal(bins[..], m))
    ensures m <= nMaxColors ==> bins[..] == old(bins[..])
  {
    var extbins: int := m - nMaxColors;
    var i: int := 0;
    while i < extbins
      invariant 0 <= i <= (if extbins > 0 then extbins else 0)
      invariant MergeState(bins[..], heap[..], m, i, cost)
      invariant |LiveOrder(bins[..], m)| == m - i
      invariant LiveTotal(bins[..], m) == old(LiveTotal(bins[..], m))
      invariant i == 0 ==> bins[..] == old(bins[..])
    {
      ghost var s := bins[..];
      var b1 := SelectRoot(bins, heap, m, i, cost);
      RekeyedKeeps(s, bins[..], m, m);
      ghost var s' := bins[..];
      MergedKeeps(s', heap[..], m, i, b1, cost, absorb);
      MergePair(bins, b1, i, absorb);
      i := i + 1;
    }
  }
}
