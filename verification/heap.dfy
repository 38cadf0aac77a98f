/**
  The 4-ary heap of deps/ev/ev.c: sift loops on an array whose first HEAP0
  slots are unused, with the key of a watcher cached in its slot and the index
  of the slot stored back in the watcher.
 */
module FourHeap {
  import opened Watchers

  const DHEAP: nat := 4
  const HEAP0: nat := 3

  datatype Anhe = Anhe(at: real, w: Watcher)

  // C division truncates toward zero, so HPARENT (HEAP0) is HEAP0 itself.
  function TruncDiv(a: int, b: int): int
    requires b > 0
  {
    if a >= 0 then a / b else -((-a) / b)
  }

  function HParent(k: int): int {
    TruncDiv(k - HEAP0 - 1, 4) + HEAP0
  }

  // ---------- heaps as sequences: slots HEAP0 to E - 1 are in use ----------

  // HPARENT below the root
  function Parent(j: int): int
  {
    (j - 4) / 4 + 3
  }

  ghost predicate Ordered(l: seq<Anhe>, E: nat)
    requires E <= |l|
  {
    forall j {:trigger Parent(j)} :: HEAP0 < j < E ==> l[Parent(j)].at <= l[j].at
  }

  // Every pair that does not involve slot k is in order, and so are the parent and the children of k.
  ghost predicate OrderedExcept(l: seq<Anhe>, E: nat, k: nat)
    requires HEAP0 <= k < E <= |l|
  {
    && (forall j {:trigger Parent(j)} :: HEAP0 < j < E && j != k && Parent(j) != k ==> l[Parent(j)].at <= l[j].at)
    && (k > HEAP0 ==> forall j {:trigger Parent(j)} :: HEAP0 < j < E && Parent(j) == k ==> l[Parent(k)].at <= l[j].at)
  }

  ghost predicate NotBelowParent(l: seq<Anhe>, k: nat)
    requires HEAP0 <= k < |l|
  {
    k > HEAP0 ==> l[Parent(k)].at <= l[k].at
  }

  // the children of slot k have keys of at least `at`
  ghost predicate ChildrenFrom(l: seq<Anhe>, E: nat, k: nat, at: real)
    requires E <= |l|
  {
    forall j {:trigger Parent(j)} :: HEAP0 < j < E && Parent(j) == k ==> at <= l[j].at
  }

  // no other slot holds the watcher of slot k
  ghost predicate Apart(l: seq<Anhe>, E: nat, k: nat)
    requires k < E <= |l|
  {
    forall j :: HEAP0 <= j < E && j != k ==> l[j].w != l[k].w
  }

  // slot k is the only one that may be out of order, and only towards its children
  ghost predicate SinkAt(l: seq<Anhe>, E: nat, k: nat)
  {
    HEAP0 <= k < E <= |l| && OrderedExcept(l, E, k) && NotBelowParent(l, k) && Apart(l, E, k)
  }

  // slot k is the only one that may be out of order, and only towards its parent
  ghost predicate RiseAt(l: seq<Anhe>, E: nat, k: nat)
  {
    HEAP0 <= k < E <= |l| && OrderedExcept(l, E, k) && ChildrenFrom(l, E, k, l[k].at) && Apart(l, E, k)
  }

  // The root carries the least key of the whole heap.
  lemma {:induction false} RootIsLeast(l: seq<Anhe>, E: nat, j: nat)
    requires E <= |l| && Ordered(l, E) && HEAP0 <= j < E
    ensures l[HEAP0].at <= l[j].at
  {
    if j > HEAP0 {
      assert l[Parent(j)].at <= l[j].at;
      RootIsLeast(l, E, Parent(j));
    }
  }

  // One turn of the downheap loop.  With the entry he put into the hole at k the heap reads l; the
  // smallest child c of k moves up, and with he put into the hole it leaves the heap reads r.
  lemma DownTurn(a: seq<Anhe>, l: seq<Anhe>, E: nat, he: Anhe, k: nat, c: nat) returns (r: seq<Anhe>)
    requires k < c < E <= |a| && Parent(c) == k && a[c].at < he.at && ChildrenFrom(a, E, k, a[c].at)
    requires l == a[k := he] && SinkAt(l, E, k)
    ensures r == a[k := a[c]][c := he] && SinkAt(r, E, c) && multiset(r) == multiset(l)
  {
    r := l[k := l[c]][c := l[k]];
    assert r == a[k := a[c]][c := he];
    assert k > HEAP0 ==> l[Parent(k)].at <= l[c].at;
    forall j | HEAP0 < j < E && j != c && Parent(j) != c
      ensures r[Parent(j)].at <= r[j].at
    {
      if j != k && Parent(j) != k {
        assert l[Parent(j)].at <= l[j].at;
      }
    }
    forall j | HEAP0 < j < E && Parent(j) == c
      ensures r[Parent(c)].at <= r[j].at
    {
      assert l[Parent(j)].at <= l[j].at;
    }
  }

  lemma DownDone(a: seq<Anhe>, l: seq<Anhe>, E: nat, he: Anhe, k: nat)
    requires k < E <= |a| && l == a[k := he] && SinkAt(l, E, k)
    requires E <= 4 * (k - HEAP0) + HEAP0 + 1 || ChildrenFrom(a, E, k, he.at)
    ensures Ordered(l, E)
  {
    forall j | HEAP0 < j < E
      ensures l[Parent(j)].at <= l[j].at
    {
    }
  }

  // One turn of the upheap loop: the parent p of k moves down, the hole moves up.
  lemma UpTurn(a: seq<Anhe>, l: seq<Anhe>, E: nat, he: Anhe, k: nat, p: nat) returns (r: seq<Anhe>)
    requires HEAP0 < k < E <= |a| && Parent(k) == p && he.at < a[p].at
    requires l == a[k := he] && RiseAt(l, E, k)
    ensures r == a[k := a[p]][p := he] && RiseAt(r, E, p) && multiset(r) == multiset(l)
  {
    r := l[k := l[p]][p := l[k]];
    assert r == a[k := a[p]][p := he];
    assert p > HEAP0 ==> l[Parent(p)].at <= l[p].at;
    forall j | HEAP0 < j < E && j != p && Parent(j) != p
      ensures r[Parent(j)].at <= r[j].at
    {
      if Parent(j) != k {
        assert l[Parent(j)].at <= l[j].at;
      }
    }
    forall j | HEAP0 < j < E && Parent(j) == p
      ensures r[p].at <= r[j].at
      ensures p > HEAP0 ==> r[Parent(p)].at <= r[j].at
    {
      if j != k {
        assert l[Parent(j)].at <= l[j].at;
      }
    }
  }

  lemma UpDone(l: seq<Anhe>, E: nat, k: nat)
    requires RiseAt(l, E, k) && NotBelowParent(l, k)
    ensures Ordered(l, E)
  {
  }

  // ---------- the loops on the array ----------

  // Each watcher knows its slot, but for the one at k; all of them are in ws.
  ghost predicate IndexedExcept(l: seq<Anhe>, E: nat, k: int, ws: set<Watcher>)
    requires E <= |l|
    reads ws`active
  {
    forall j :: HEAP0 <= j < E ==> l[j].w in ws && (j != k ==> l[j].w.active == j)
  }

  ghost predicate Indexed(l: seq<Anhe>, E: nat, ws: set<Watcher>)
    requires E <= |l|
    reads ws`active
  {
    forall j :: HEAP0 <= j < E ==> l[j].w in ws && l[j].w.active == j
  }

  ghost predicate SameOutside(l: seq<Anhe>, r: seq<Anhe>, E: nat) {
    |l| == |r| && forall i :: 0 <= i < |l| && !(HEAP0 <= i < E) ==> l[i] == r[i]
  }

  // find the minimum child of slot k, whose first child is at pos
  method MinChild(heap: array<Anhe>, E: nat, k: nat, pos: nat) returns (minpos: nat, minat: real)
    requires HEAP0 <= k && pos == 4 * (k - HEAP0) + HEAP0 + 1 < E <= heap.Length
    ensures k < minpos < E && Parent(minpos) == k && minat == heap[minpos].at
    ensures ChildrenFrom(heap[..], E, k, minat)
  {
    minpos, minat := pos, heap[pos].at;
    if pos + DHEAP - 1 < E {
      if heap[pos + 1].at < minat { minpos := pos + 1; minat := heap[minpos].at; }
      if heap[pos + 2].at < minat { minpos := pos + 2; minat := heap[minpos].at; }
      if heap[pos + 3].at < minat { minpos := pos + 3; minat := heap[minpos].at; }
    } else {
      if pos + 1 < E && heap[pos + 1].at < minat { minpos := pos + 1; minat := heap[minpos].at; }
      if pos + 2 < E && heap[pos + 2].at < minat { minpos := pos + 2; minat := heap[minpos].at; }
      // the test for a fourth child in the C code cannot succeed on this path
    }
  }

  // heap [k] = heap [from]; the watcher learns its new index.  The hole moves from k to from.
  method Move(heap: array<Anhe>, ghost E: nat, from: nat, k: nat, ghost ws: set<Watcher>)
    requires HEAP0 <= from < E <= heap.Length && HEAP0 <= k < E && from != k
    requires IndexedExcept(heap[..], E, k, ws)
    modifies heap, ws`active
    ensures heap[..] == old(heap[..])[k := old(heap[from])]
    ensures IndexedExcept(heap[..], E, from, ws)
  {
    heap[k] := heap[from];
    heap[k].w.active := k;
  }

  // heap [k] = he, which closes the hole
  method Put(heap: array<Anhe>, ghost E: nat, he: Anhe, k: nat, ghost ws: set<Watcher>)
    requires HEAP0 <= k < E <= heap.Length
    requires IndexedExcept(heap[..], E, k, ws) && he.w in ws && Apart(heap[..][k := he], E, k)
    modifies heap, ws`active
    ensures heap[..] == old(heap[..])[k := he]
    ensures Indexed(heap[..], E, ws)
  {
    heap[k] := he;
    he.w.active := k;
  }

  // away from the root
  method Downheap(heap: array<Anhe>, N: nat, k0: nat, ghost ws: set<Watcher>)
    requires N + HEAP0 <= heap.Length && SinkAt(heap[..], N + HEAP0, k0)
    requires IndexedExcept(heap[..], N + HEAP0, k0, ws)
    modifies heap, ws`active
    ensures Ordered(heap[..], N + HEAP0) && Indexed(heap[..], N + HEAP0, ws)
    ensures multiset(heap[..]) == old(multiset(heap[..])) && SameOutside(heap[..], old(heap[..]), N + HEAP0)
  {
    var k := k0;
    var he := heap[k];
    var E := N + HEAP0;
    ghost var l := heap[..];  // the heap with he put into the hole at k
    while true
      invariant HEAP0 <= k < E && l == heap[..][k := he]
      invariant SinkAt(l, E, k) == true  // checked as a whole
      invariant multiset(l) == old(multiset(heap[..])) && SameOutside(l, old(heap[..]), E)
      invariant IndexedExcept(heap[..], E, k, ws) && he.w in ws
      decreases E - k
    {
      var pos := 4 * (k - HEAP0) + HEAP0 + 1;
      if pos >= E {
        break;
      }
      var minpos, minat := MinChild(heap, E, k, pos);
      if he.at <= minat {
        break;
      }
      l := DownTurn(heap[..], l, E, he, k, minpos);
      Move(heap, E, minpos, k, ws);
      k := minpos;
    }
    DownDone(heap[..], l, E, he, k);
    Put(heap, E, he, k, ws);
  }

  // towards the root
  method Upheap(heap: array<Anhe>, ghost E: nat, k0: nat, ghost ws: set<Watcher>)
    requires E <= heap.Length && RiseAt(heap[..], E, k0)
    requires IndexedExcept(heap[..], E, k0, ws)
    modifies heap, ws`active
    ensures Ordered(heap[..], E) && Indexed(heap[..], E, ws)
    ensures multiset(heap[..]) == old(multiset(heap[..])) && SameOutside(heap[..], old(heap[..]), E)
  {
    var k := k0;
    var he := heap[k];
    ghost var l := heap[..];  // the heap with he put into the hole at k
    while true
      invariant HEAP0 <= k < E && l == heap[..][k := he]
      invariant RiseAt(l, E, k) == true  // checked as a whole
      invariant multiset(l) == old(multiset(heap[..])) && SameOutside(l, old(heap[..]), E)
      invariant IndexedExcept(heap[..], E, k, ws) && he.w in ws
      decreases k
    {
      var p := HParent(k);
      if p == k || heap[p].at <= he.at {
        break;
      }
      l := UpTurn(heap[..], l, E, he, k, p);
      Move(heap, E, p, k, ws);
      k := p;
    }
    UpDone(l, E, k);
    Put(heap, E, he, k, ws);
  }

  // Overwriting one slot of a heap leaves every other pair in order.
  lemma OverwrittenExcept(l: seq<Anhe>, E: nat, k: nat, he: Anhe)
    requires E <= |l| && Ordered(l, E) && HEAP0 <= k < E
    ensures OrderedExcept(l[k := he], E, k)
  {
    var r := l[k := he];
    assert k > HEAP0 ==> l[Parent(k)].at <= l[k].at;
    forall j | HEAP0 < j < E
      ensures j != k && Parent(j) != k ==> r[Parent(j)].at <= r[j].at
      ensures k > HEAP0 && Parent(j) == k ==> r[Parent(k)].at <= r[j].at
    {
      assert l[Parent(j)].at <= l[j].at;
    }
  }

  // An entry that is not above its parent is not above its children either.
  lemma RisesFrom(l: seq<Anhe>, E: nat, k: nat)
    requires HEAP0 < k < E <= |l| && OrderedExcept(l, E, k) && Apart(l, E, k)
    requires l[k].at <= l[Parent(k)].at
    ensures RiseAt(l, E, k)
  {
    forall j | HEAP0 < j < E && Parent(j) == k
      ensures l[k].at <= l[j].at
    {
      assert l[Parent(k)].at <= l[j].at;
    }
  }

  // A heap with one slot overwritten is a case for upheap if the entry is not above its parent, else for downheap.
  lemma Overwritten(l: seq<Anhe>, E: nat, k: nat, he: Anhe)
    requires E <= |l| && Ordered(l, E) && HEAP0 <= k < E && Apart(l[k := he], E, k)
    ensures var r := l[k := he];
            OrderedExcept(r, E, k) && if k > HEAP0 && he.at <= r[Parent(k)].at then RiseAt(r, E, k) else SinkAt(r, E, k)
  {
    OverwrittenExcept(l, E, k, he);
    if k > HEAP0 && he.at <= l[k := he][Parent(k)].at {
      RisesFrom(l[k := he], E, k);
    }
  }

  // repair slot k, whichever way its entry has to go
  method Adjustheap(heap: array<Anhe>, N: nat, k: nat, ghost ws: set<Watcher>)
    requires HEAP0 <= k < N + HEAP0 <= heap.Length
    requires OrderedExcept(heap[..], N + HEAP0, k) && Apart(heap[..], N + HEAP0, k)
    requires IndexedExcept(heap[..], N + HEAP0, k, ws)
    modifies heap, ws`active
    ensures Ordered(heap[..], N + HEAP0) && Indexed(heap[..], N + HEAP0, ws)
    ensures multiset(heap[..]) == old(multiset(heap[..])) && SameOutside(heap[..], old(heap[..]), N + HEAP0)
  {
    if k > HEAP0 && heap[k].at <= heap[HParent(k)].at {
      RisesFrom(heap[..], N + HEAP0, k);
      Upheap(heap, N + HEAP0, k, ws);
    } else {
      Downheap(heap, N, k, ws);
    }
  }

  // ---------- rebuilding ----------

  ghost predicate AllApart(l: seq<Anhe>, E: nat)
    requires E <= |l|
  {
    forall i, j :: HEAP0 <= i < j < E ==> l[i].w != l[j].w
  }

  // A permutation of the whole that keeps the outside permutes the inside.
  lemma InsidePermuted<T>(l: seq<T>, r: seq<T>, lo: nat, hi: nat)
    requires lo <= hi <= |l| == |r| && multiset(l) == multiset(r)
    requires l[..lo] == r[..lo] && l[hi..] == r[hi..]
    ensures multiset(l[lo..hi]) == multiset(r[lo..hi])
  {
    InThree(l, lo, hi);
    InThree(r, lo, hi);
    var a, b := multiset(l[..lo]), multiset(l[hi..]);
    assert multiset(l[lo..hi]) == multiset(l) - a - b;
    assert multiset(r[lo..hi]) == multiset(r) - a - b;
  }

  lemma InThree<T>(l: seq<T>, lo: nat, hi: nat)
    requires lo <= hi <= |l|
    ensures multiset(l) == multiset(l[..lo]) + multiset(l[lo..hi]) + multiset(l[hi..])
  {
    assert l == (l[..lo] + l[lo..hi]) + l[hi..];
  }

  lemma LivePermuted(l: seq<Anhe>, r: seq<Anhe>, E: nat)
    requires HEAP0 <= E <= |l| && SameOutside(l, r, E) && multiset(l) == multiset(r)
    ensures multiset(l[HEAP0..E]) == multiset(r[HEAP0..E])
  {
    assert l[..HEAP0] == r[..HEAP0] && l[E..] == r[E..];
    InsidePermuted(l, r, HEAP0, E);
  }

  // what sits in the heap afterwards sat there before
  lemma Kept(l: seq<Anhe>, r: seq<Anhe>, E: nat, j: nat) returns (i: nat)
    requires HEAP0 <= j < E <= |l| && SameOutside(l, r, E) && multiset(l) == multiset(r)
    ensures HEAP0 <= i < E && r[j] == l[i]
  {
    LivePermuted(l, r, E);
    assert r[j] == r[HEAP0..E][j - HEAP0];
    assert r[j] in multiset(r[HEAP0..E]);
    assert r[j] in l[HEAP0..E];
    var m :| 0 <= m < E - HEAP0 && l[HEAP0..E][m] == r[j];
    i := m + HEAP0;
  }

  lemma StaysApart(l: seq<Anhe>, r: seq<Anhe>, E: nat, F: nat)
    requires HEAP0 <= E <= F <= |l| && SameOutside(l, r, E) && multiset(l) == multiset(r)
    requires AllApart(l, F) && AllApart(r, E)
    ensures AllApart(r, F)
  {
    forall i, j | HEAP0 <= i < j < F
      ensures r[i].w != r[j].w
    {
      if i < E <= j {
        var m := Kept(l, r, E, i);
      }
    }
  }

  lemma LastSlotRises(l: seq<Anhe>, k: nat)
    requires HEAP0 <= k < |l| && Ordered(l, k) && Apart(l, k + 1, k)
    ensures RiseAt(l, k + 1, k)
  {
  }

  // rebuild the heap, whatever its keys and back-indices were
  method Reheap(heap: array<Anhe>, N: nat, ghost ws: set<Watcher>)
    requires N + HEAP0 <= heap.Length && AllApart(heap[..], N + HEAP0)
    requires forall j :: HEAP0 <= j < N + HEAP0 ==> heap[j].w in ws
    modifies heap, ws`active
    ensures Ordered(heap[..], N + HEAP0) && Indexed(heap[..], N + HEAP0, ws)
    ensures multiset(heap[..]) == old(multiset(heap[..])) && SameOutside(heap[..], old(heap[..]), N + HEAP0)
  {
    ghost var F := N + HEAP0;
    for i := 0 to N
      invariant Ordered(heap[..], i + HEAP0) && Indexed(heap[..], i + HEAP0, ws)
      invariant multiset(heap[..]) == old(multiset(heap[..])) && SameOutside(heap[..], old(heap[..]), F)
      invariant AllApart(heap[..], F) && forall j :: HEAP0 <= j < F ==> heap[j].w in ws
    {
      ghost var l := heap[..];
      LastSlotRises(l, i + HEAP0);
      Upheap(heap, i + HEAP0 + 1, i + HEAP0, ws);
      StaysApart(l, heap[..], i + HEAP0 + 1, F);
    }
  }
}
