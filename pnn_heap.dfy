/** The binary min-heap of `pnnquan`: an int array whose entry 0 is the size
    and whose entries 1..size are bin indices, ordered on the bins' cached
    merge costs. Both sifts move a hole instead of swapping: the element being
    placed is written once, where the hole stops. */
module PnnHeap {
  import opened Colors
  import opened PnnBins

  /** `bins.size() + 1` entries. */
  const HEAP_SIZE: nat := 65537

  /** The cached merge cost of every bin, by index. */
  function Keys(bs: seq<Bin>): seq<Key>
  {
    seq(|bs|, h requires 0 <= h < |bs| => bs[h].err)
  }

  /** ks holds the cached merge cost of every bin. */
  ghost predicate CostsAre(bins: array<Bin>, ks: seq<Key>)
    reads bins
  {
    |ks| == bins.Length && forall h :: 0 <= h < bins.Length ==> bins[h].err == ks[h]
  }

  /** Entries 1..n hold bin indices below m. */
  ghost predicate Entries(hs: seq<int>, n: nat, m: nat)
  {
    n < |hs| && forall j :: 1 <= j <= n ==> 0 <= hs[j] < m
  }

  ghost predicate Distinct(hs: seq<int>, n: nat)
    requires n < |hs|
  {
    forall j, k :: 1 <= j < k <= n ==> hs[j] != hs[k]
  }

  /** The bins in the heap. */
  ghost function Members(hs: seq<int>, n: nat): set<int>
    requires n < |hs|
  {
    set j | 1 <= j <= n :: hs[j]
  }

  /** Entry p is no costlier than entry j. */
  ghost predicate Below(hs: seq<int>, ks: seq<Key>, p: int, j: int)
  {
    0 <= p < |hs| && 0 <= j < |hs| && 0 <= hs[p] < |ks| && 0 <= hs[j] < |ks| && KeyLe(ks[hs[p]], ks[hs[j]])
  }

  /** The edge from entry j's parent to entry j is in order. */
  ghost predicate Edge(hs: seq<int>, ks: seq<Key>, j: int)
  {
    Below(hs, ks, j / 2, j)
  }

  /** The heap property: no entry's cost is below its parent's. */
  ghost predicate Ordered(hs: seq<int>, n: nat, ks: seq<Key>)
  {
    forall j :: 2 <= j <= n ==> Edge(hs, ks, j)
  }

  /** The heap property on every edge except the one from l's parent to l. */
  ghost predicate OrderedBut(hs: seq<int>, n: nat, ks: seq<Key>, l: nat)
  {
    forall j :: 2 <= j <= n && j != l ==> Edge(hs, ks, j)
  }

  /** Sifting up: l's parent is no costlier than l's children. */
  ghost predicate UpBridge(hs: seq<int>, n: nat, ks: seq<Key>, l: nat)
  {
    l > 1 ==> forall j :: 2 <= j <= n && j / 2 == l ==> Below(hs, ks, l / 2, j)
  }

  /** The heap property on every edge except the ones from l to its children. */
  ghost predicate OrderedBelow(hs: seq<int>, n: nat, ks: seq<Key>, l: nat)
  {
    forall j :: 2 <= j <= n && j / 2 != l ==> Edge(hs, ks, j)
  }

  /** Sifting down: l's parent is no costlier than l and than l's children. */
  ghost predicate DownBridge(hs: seq<int>, n: nat, ks: seq<Key>, l: nat)
  {
    l > 1 ==> Below(hs, ks, l / 2, l) && forall j :: 2 <= j <= n && j / 2 == l ==> Below(hs, ks, l / 2, j)
  }

  /** Exchanging two entries changes neither the members nor their
      distinctness. */
  lemma {:induction false} SwapKeeps(hs: seq<int>, n: nat, m: nat, p: nat, q: nat)
    requires Entries(hs, n, m) && Distinct(hs, n) && 1 <= p <= n && 1 <= q <= n
    ensures Entries(hs[p := hs[q]][q := hs[p]], n, m)
    ensures Distinct(hs[p := hs[q]][q := hs[p]], n)
    ensures Members(hs[p := hs[q]][q := hs[p]], n) == Members(hs, n)
  {
    var t := hs[p := hs[q]][q := hs[p]];
    forall v | v in Members(hs, n)
      ensures v in Members(t, n)
    {
      var j :| 1 <= j <= n && hs[j] == v;
      if j == p {
        assert t[q] == v;
      } else if j == q {
        assert t[p] == v;
      } else {
        assert t[j] == v;
      }
    }
    forall v | v in Members(t, n)
      ensures v in Members(hs, n)
    {
      var j :| 1 <= j <= n && t[j] == v;
      if j == p {
        assert hs[q] == v;
      } else if j == q {
        assert hs[p] == v;
      } else {
        assert hs[j] == v;
      }
    }
  }

  /** One step up: the parent's entry moves down into the hole at l. */
  lemma {:induction false} UpStep(hs: seq<int>, n: nat, ks: seq<Key>, l: nat)
    requires Entries(hs, n, |ks|) && 2 <= l <= n
    requires OrderedBut(hs, n, ks, l) && UpBridge(hs, n, ks, l)
    requires KeyLt(ks[hs[l]], ks[hs[l / 2]])
    ensures Entries(hs[l := hs[l / 2]][l / 2 := hs[l]], n, |ks|)
    ensures OrderedBut(hs[l := hs[l / 2]][l / 2 := hs[l]], n, ks, l / 2)
    ensures UpBridge(hs[l := hs[l / 2]][l / 2 := hs[l]], n, ks, l / 2)
  {
    var p := l / 2;
    var t := hs[l := hs[p]][p := hs[l]];
    forall j | 2 <= j <= n && j != p
      ensures Edge(t, ks, j)
    {
      if j == l {
        assert t[p] == hs[l] && t[l] == hs[p];
      } else if j / 2 == l {
        assert t[j] == hs[j] && Below(hs, ks, p, j);
      } else if j / 2 == p {
        assert t[j] == hs[j] && Edge(hs, ks, j);
      } else {
        assert t[j] == hs[j] && t[j / 2] == hs[j / 2] && Edge(hs, ks, j);
      }
    }
    if p > 1 {
      assert Edge(hs, ks, p);
      forall j | 2 <= j <= n && j / 2 == p
        ensures Below(t, ks, p / 2, j)
      {
        assert t[p / 2] == hs[p / 2];
        if j != l {
          assert Edge(hs, ks, j);
          KeyLeTransitive(ks[hs[p / 2]], ks[hs[p]], ks[hs[j]]);
        }
      }
    }
  }

  /** Where sifting up stops, the heap property holds everywhere. */
  lemma {:induction false} UpClose(hs: seq<int>, n: nat, ks: seq<Key>, l: nat)
    requires Entries(hs, n, |ks|) && 1 <= l <= n
    requires OrderedBut(hs, n, ks, l)
    requires l > 1 ==> KeyLe(ks[hs[l / 2]], ks[hs[l]])
    ensures Ordered(hs, n, ks)
  {
    forall j | 2 <= j <= n
      ensures Edge(hs, ks, j)
    {
    }
  }

  /** `++heap[0]` and the new bin in the new last entry: only the edge into
      the new entry may be out of order. */
  lemma {:induction false} Grow(hs: seq<int>, n: nat, ks: seq<Key>, i: int)
    requires Entries(hs, n, |ks|) && Distinct(hs, n) && Ordered(hs, n, ks)
    requires n + 1 < |hs| && 0 <= i < |ks| && i !in Members(hs, n)
    ensures Entries(hs[0 := n + 1][n + 1 := i], n + 1, |ks|)
    ensures Distinct(hs[0 := n + 1][n + 1 := i], n + 1)
    ensures Members(hs[0 := n + 1][n + 1 := i], n + 1) == Members(hs, n) + {i}
    ensures OrderedBut(hs[0 := n + 1][n + 1 := i], n + 1, ks, n + 1)
    ensures UpBridge(hs[0 := n + 1][n + 1 := i], n + 1, ks, n + 1)
  {
    var t := hs[0 := n + 1][n + 1 := i];
    assert forall j :: 1 <= j <= n ==> t[j] == hs[j];
    forall j | 2 <= j <= n
      ensures Edge(t, ks, j)
    {
      assert Edge(hs, ks, j);
    }
    forall v | v in Members(hs, n) + {i}
      ensures v in Members(t, n + 1)
    {
      if v == i {
        assert t[n + 1] == v;
      } else {
        var j :| 1 <= j <= n && hs[j] == v;
        assert t[j] == v;
      }
    }
  }

  /** The push of `pnnquan`: `++heap[0]`, then sift up from the new last
      entry. */
  method Push(heap: array<int>, bins: array<Bin>, i: int, ghost ks: seq<Key>)
    requires heap.Length == HEAP_SIZE && 0 <= heap[0] < BIN_COUNT && 0 <= i < bins.Length
    requires CostsAre(bins, ks)
    requires Entries(heap[..], heap[0], bins.Length) && Distinct(heap[..], heap[0])
    requires Ordered(heap[..], heap[0], ks)
    requires i !in Members(heap[..], heap[0])
    modifies heap
    ensures heap[0] == old(heap[0]) + 1
    ensures Entries(heap[..], heap[0], bins.Length) && Distinct(heap[..], heap[0])
    ensures Ordered(heap[..], heap[0], ks)
    ensures Members(heap[..], heap[0]) == old(Members(heap[..], heap[0])) + {i}
  {
    ghost var m0 := Members(heap[..], heap[0]);
    Grow(heap[..], heap[0], ks, i);
    ghost var a := heap[..][0 := heap[0] + 1][heap[0] + 1 := i];
    var err := bins[i].err;
    heap[0] := heap[0] + 1;
    var l := heap[0];
    ghost var n: nat := l;
    while l > 1
      invariant 1 <= l <= n && heap.Length == HEAP_SIZE && |a| == HEAP_SIZE
      invariant a[0] == n && a[l] == i
      invariant forall j :: 0 <= j < HEAP_SIZE && j != l ==> heap[j] == a[j]
      invariant Entries(a, n, |ks|) && Distinct(a, n) && Members(a, n) == m0 + {i}
      invariant OrderedBut(a, n, ks, l) && UpBridge(a, n, ks, l)
    {
      var l2 := l / 2;
      var h := heap[l2];
      if KeyLe(bins[h].err, err) {
        break;
      }
      heap[l] := h;
      UpStep(a, n, ks, l);
      SwapKeeps(a, n, |ks|, l, l2);
      a := a[l := a[l2]][l2 := a[l]];
      l := l2;
    }
    heap[l] := i;
    assert forall j :: 0 <= j < HEAP_SIZE ==> heap[j] == a[j];
    assert heap[..] == a;
    UpClose(a, n, ks, l);
  }

  /** One step down: the cheaper child c of the hole at l moves up into it. */
  lemma {:induction false} DownStep(hs: seq<int>, n: nat, ks: seq<Key>, l: nat, c: nat)
    requires Entries(hs, n, |ks|) && 1 <= l && (c == l + l || c == l + l + 1) && c <= n
    requires OrderedBelow(hs, n, ks, l) && DownBridge(hs, n, ks, l)
    requires KeyLe(ks[hs[c]], ks[hs[l + l]])
    requires l + l + 1 <= n ==> KeyLe(ks[hs[c]], ks[hs[l + l + 1]])
    requires KeyLt(ks[hs[c]], ks[hs[l]])
    ensures Entries(hs[l := hs[c]][c := hs[l]], n, |ks|)
    ensures OrderedBelow(hs[l := hs[c]][c := hs[l]], n, ks, c)
    ensures DownBridge(hs[l := hs[c]][c := hs[l]], n, ks, c)
  {
    var t := hs[l := hs[c]][c := hs[l]];
    assert c / 2 == l;
    forall j | 2 <= j <= n && j / 2 != c
      ensures Edge(t, ks, j)
    {
      if j == c {
      } else if j == l {
        assert t[j / 2] == hs[l / 2] && t[j] == hs[c] && Below(hs, ks, l / 2, c);
      } else if j / 2 == l {
        assert j == l + l || j == l + l + 1;
        assert t[j] == hs[j];
      } else {
        assert t[j] == hs[j] && t[j / 2] == hs[j / 2] && Edge(hs, ks, j);
      }
    }
    assert t[c / 2] == hs[c];
    forall j | 2 <= j <= n && j / 2 == c
      ensures Below(t, ks, c / 2, j)
    {
      assert t[j] == hs[j] && Edge(hs, ks, j);
    }
  }

  /** Where sifting down stops, the heap property holds everywhere. */
  lemma {:induction false} DownClose(hs: seq<int>, n: nat, ks: seq<Key>, l: nat)
    requires Entries(hs, n, |ks|) && 1 <= l
    requires OrderedBelow(hs, n, ks, l)
    requires 1 < l <= n ==> KeyLe(ks[hs[l / 2]], ks[hs[l]])
    requires l + l <= n ==> KeyLe(ks[hs[l]], ks[hs[l + l]])
    requires l + l + 1 <= n ==> KeyLe(ks[hs[l]], ks[hs[l + l + 1]])
    ensures Ordered(hs, n, ks)
  {
    forall j | 2 <= j <= n
      ensures Edge(hs, ks, j)
    {
      if j / 2 == l {
        assert j == l + l || j == l + l + 1;
      }
    }
  }

  /** `l2 = l + l; if (l2 < heap[0] && bins[heap[l2 + 1]].err < bins[heap[l2]].err) l2++`:
      the cheaper child of l, the left one on a tie. */
  method CheaperChild(heap: array<int>, bins: array<Bin>, l: nat, ghost a: seq<int>, ghost ks: seq<Key>) returns (l2: nat)
    requires heap.Length == |a| && 1 <= l && 0 < |a| && l + l <= a[0] < |a| && heap[0] == a[0]
    requires CostsAre(bins, ks) && Entries(a, a[0], |ks|)
    requires heap[l + l] == a[l + l] && (l + l + 1 <= a[0] ==> heap[l + l + 1] == a[l + l + 1])
    ensures (l2 == l + l || l2 == l + l + 1) && l2 <= a[0]
    ensures KeyLe(ks[a[l2]], ks[a[l + l]])
    ensures l + l + 1 <= a[0] ==> KeyLe(ks[a[l2]], ks[a[l + l + 1]])
    ensures l + l + 1 > a[0] ==> l2 == l + l
    ensures l + l + 1 <= a[0] ==> (l2 == l + l + 1 <==> KeyLt(ks[a[l + l + 1]], ks[a[l + l]]))
  {
    l2 := l + l;
    if l2 < heap[0] && KeyLt(bins[heap[l2 + 1]].err, bins[heap[l2]].err) {
      l2 := l2 + 1;
    }
  }

  /** The sift-down of `pnnquan`, from the root, of the bin b1 written there. */
  method SiftDown(heap: array<int>, bins: array<Bin>, b1: int, ghost ks: seq<Key>)
    requires heap.Length == HEAP_SIZE && 0 <= heap[0] < HEAP_SIZE && heap[1] == b1
    requires CostsAre(bins, ks)
    requires Entries(heap[..], heap[0], bins.Length) && Distinct(heap[..], heap[0])
    requires OrderedBelow(heap[..], heap[0], ks, 1)
    requires 0 <= b1 < bins.Length
    modifies heap
    ensures heap[0] == old(heap[0])
    ensures Entries(heap[..], heap[0], bins.Length) && Distinct(heap[..], heap[0])
    ensures Ordered(heap[..], heap[0], ks)
    ensures Members(heap[..], heap[0]) == old(Members(heap[..], heap[0]))
  {
    ghost var n: nat := heap[0];
    ghost var m0 := Members(heap[..], n);
    ghost var a := heap[..];
    var err := bins[b1].err;
    var l := 1;
    while l + l <= heap[0]
      invariant 1 <= l < HEAP_SIZE && (l <= n || l == 1) && heap.Length == HEAP_SIZE && |a| == HEAP_SIZE
      invariant a[0] == n && a[l] == b1
      invariant forall j :: 0 <= j < HEAP_SIZE && j != l ==> heap[j] == a[j]
      invariant Entries(a, n, |ks|) && Distinct(a, n) && Members(a, n) == m0
      invariant OrderedBelow(a, n, ks, l) && (l <= n ==> DownBridge(a, n, ks, l))
      decreases n - l
    {
      var l2 := CheaperChild(heap, bins, l, a, ks);
      var h := heap[l2];
      if KeyLe(err, bins[h].err) {
        assert l + l <= n ==> KeyLe(ks[a[l]], ks[a[l + l]]);
        break;
      }
      heap[l] := h;
      DownStep(a, n, ks, l, l2);
      SwapKeeps(a, n, |ks|, l, l2);
      a := a[l := a[l2]][l2 := a[l]];
      l := l2;
    }
    heap[l] := b1;
    assert forall j :: 0 <= j < HEAP_SIZE ==> heap[j] == a[j];
    assert heap[..] == a;
    DownClose(a, n, ks, l);
  }

  /** The cheapest entry is at the root. */
  lemma {:induction false} RootIsMin(hs: seq<int>, n: nat, ks: seq<Key>, j: nat)
    requires Entries(hs, n, |ks|) && Ordered(hs, n, ks) && 1 <= j <= n
    ensures KeyLe(ks[hs[1]], ks[hs[j]])
    decreases j
  {
    if j > 1 {
      RootIsMin(hs, n, ks, j / 2);
      assert Edge(hs, ks, j);
      KeyLeTransitive(ks[hs[1]], ks[hs[j / 2]], ks[hs[j]]);
    }
  }

  /** `heap[1] = heap[heap[0]--]`: the last entry replaces the root, which
      leaves the heap; only the root's edges may then be out of order. */
  lemma {:induction false} PopRoot(hs: seq<int>, n: nat, ks: seq<Key>)
    requires Entries(hs, n, |ks|) && Distinct(hs, n) && Ordered(hs, n, ks) && 1 <= n
    ensures Entries(hs[0 := n - 1][1 := hs[n]], n - 1, |ks|) && Distinct(hs[0 := n - 1][1 := hs[n]], n - 1)
    ensures OrderedBelow(hs[0 := n - 1][1 := hs[n]], n - 1, ks, 1)
    ensures Members(hs[0 := n - 1][1 := hs[n]], n - 1) == Members(hs, n) - {hs[1]}
  {
    var t := hs[0 := n - 1][1 := hs[n]];
    assert forall j :: 2 <= j <= n ==> t[j] == hs[j];
    forall v | v in Members(hs, n) - {hs[1]}
      ensures v in Members(t, n - 1)
    {
      var j :| 1 <= j <= n && hs[j] == v;
      if j == n {
        assert t[1] == v;
      } else {
        assert t[j] == v;
      }
    }
    forall j | 2 <= j <= n - 1 && j / 2 != 1
      ensures Edge(t, ks, j)
    {
      assert t[j] == hs[j] && t[j / 2] == hs[j / 2] && Edge(hs, ks, j);
    }
  }

  /** Only the root's cost changed: only the root's edges may be out of
      order. */
  lemma {:induction false} RootRekeyed(hs: seq<int>, n: nat, ks: seq<Key>, ks': seq<Key>)
    requires Entries(hs, n, |ks|) && Distinct(hs, n) && Ordered(hs, n, ks) && |ks'| == |ks|
    requires forall j :: 2 <= j <= n ==> ks'[hs[j]] == ks[hs[j]]
    ensures OrderedBelow(hs, n, ks', 1)
  {
    forall j | 2 <= j <= n && j / 2 != 1
      ensures Edge(hs, ks', j)
    {
      assert Edge(hs, ks, j);
    }
  }

  /** The costs of the heap's members did not change: neither did the heap
      property. */
  lemma {:induction false} SameKeys(hs: seq<int>, n: nat, ks: seq<Key>, ks': seq<Key>)
    requires Entries(hs, n, |ks|) && Ordered(hs, n, ks) && |ks'| == |ks|
    requires forall j :: 1 <= j <= n ==> ks'[hs[j]] == ks[hs[j]]
    ensures Ordered(hs, n, ks')
  {
    forall j | 2 <= j <= n
      ensures Edge(hs, ks', j)
    {
      assert Edge(hs, ks, j);
    }
  }
}
