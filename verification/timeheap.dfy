/**
  A counted timer heap (`timers`/`timercnt` or `periodics`/`periodiccnt` of
  deps/ev/ev.c) together with the watchers it indexes.
 */
module TimeHeaps {
  import opened Basics
  import opened Watchers
  import opened FourHeap
  import Arrays

  const SIZEOF_ANHE: nat := 16

  // Of the watchers ms with the given keys, those listed in fed expired by `now`, the earliest first,
  // and none that did not expire was due before one that did.
  ghost predicate ExpiredInOrder(fed: seq<Watcher>, ms: set<Watcher>, key: map<Watcher, real>, now: real)
  {
    && ms <= key.Keys && Distinct(fed)
    && (forall i :: 0 <= i < |fed| ==> fed[i] in ms && key[fed[i]] < now)
    && (forall i, j :: 0 <= i < j < |fed| ==> key[fed[i]] <= key[fed[j]])
    && (forall i, w :: 0 <= i < |fed| && w in ms && w !in fed ==> key[fed[i]] <= key[w])
  }

  // whoever of ms was due is listed
  ghost predicate AllDue(fed: seq<Watcher>, ms: set<Watcher>, key: map<Watcher, real>, now: real) {
    forall w :: w in ms && w in key && key[w] < now ==> w in fed
  }

  ghost function Elements<T>(s: seq<T>): set<T> {
    set x | x in s
  }

  lemma ElementsMore<T>(s: seq<T>, x: T)
    ensures Elements(s + [x]) == Elements(s) + {x}
  {
    assert (s + [x])[|s|] == x;
    assert forall y :: y in s + [x] <==> y in s || y == x;
  }

  lemma OneMoreExpired(fed: seq<Watcher>, w: Watcher, ms: set<Watcher>, key: map<Watcher, real>, now: real)
    requires ExpiredInOrder(fed, ms, key, now) && w in ms && w !in fed && key[w] < now
    requires forall v :: v in ms && v !in fed ==> key[w] <= key[v]
    ensures ExpiredInOrder(fed + [w], ms, key, now)
  {
  }

  class TimeHeap {
    var heap: array<Anhe>
    var cnt: nat
    ghost const ws: set<Watcher>  // the watchers this heap may hold

    // one past the last slot in use
    ghost function End(): nat
      reads this`cnt
    {
      if cnt == 0 then 0 else cnt + HEAP0
    }

    ghost predicate Sized()
      reads this, heap
    {
      End() <= heap.Length
    }

    // verify_heap: heap order, back-indices, and keys that agree with their watchers
    ghost predicate Cached()
      requires Sized()
      reads this, heap, ws`at
    {
      forall j :: HEAP0 <= j < End() ==> heap[j].w in ws && heap[j].at == heap[j].w.at
    }

    // an active watcher is in its slot
    ghost predicate Placed()
      requires Sized()
      reads this, heap, ws`active
    {
      forall w :: w in ws && w.active != 0 ==> HEAP0 <= w.active < End() && heap[w.active].w == w
    }

    ghost predicate Valid()
      reads this, heap, ws`at, ws`active
    {
      Sized() && Ordered(heap[..], End()) && Indexed(heap[..], End(), ws) && Cached() && Placed()
    }

    // the active watchers
    ghost function Members(): set<Watcher>
      reads ws`active
    {
      set w | w in ws && w.active != 0
    }

    ghost function Keys(): (key: map<Watcher, real>)
      reads ws`at
      ensures key.Keys == ws
    {
      map w | w in ws :: w.at
    }

    constructor (ghost ws: set<Watcher>)
      requires forall w :: w in ws ==> w.active == 0
      ensures Valid() && fresh(heap) && this.ws == ws && cnt == 0
    {
      heap := new Anhe[] [];
      cnt := 0;
      this.ws := ws;
    }

    // every watcher of ms has a slot in l
    static ghost predicate Holds(l: seq<Anhe>, E: nat, ms: set<Watcher>)
      requires E <= |l|
    {
      forall w :: w in ms ==> exists j :: HEAP0 <= j < E && l[j].w == w
    }

    ghost predicate CachedIn(l: seq<Anhe>)
      requires End() <= |l|
      reads this, ws`at
    {
      forall j :: HEAP0 <= j < End() ==> l[j].w in ws && l[j].at == l[j].w.at
    }

    // What the sift methods leave behind is a valid heap again: l is the array before the call.
    lemma Resettled(l: seq<Anhe>, ms: set<Watcher>)
      requires Sized() && cnt > 0 && ms <= ws
      requires SameOutside(heap[..], l, End()) && multiset(heap[..]) == multiset(l)
      requires Ordered(heap[..], End()) && Indexed(heap[..], End(), ms)
      requires CachedIn(l) && Holds(l, End(), ms)
      requires forall w :: w in ws && w !in ms ==> w.active == 0
      ensures Valid() && Members() == ms
    {
      forall j | HEAP0 <= j < End()
        ensures heap[j].w in ws && heap[j].at == heap[j].w.at
      {
        var i := Kept(l, heap[..], End(), j);
      }
      forall w | w in ms
        ensures HEAP0 <= w.active < End() && heap[w.active].w == w
      {
        var j :| HEAP0 <= j < End() && l[j].w == w;
        var i := Kept(heap[..], l, End(), j);
        assert heap[..][i].w == w;
      }
    }

    // make room and fill the slot after the last one
    method Extend(w: Watcher)
      requires Sized()
      modifies this`cnt, this`heap, heap, w`active
      ensures Sized() && (heap == old(heap) || fresh(heap))
      ensures cnt == old(cnt) + 1 && w.active == cnt + HEAP0 - 1
      ensures heap[w.active] == Anhe(w.at, w)
      ensures forall j :: HEAP0 <= j < w.active ==> heap[j] == old(heap[j])
    {
      ghost var l := heap[..];
      cnt := cnt + 1;
      w.active := cnt + HEAP0 - 1;
      heap := Arrays.NeedSize(SIZEOF_ANHE, heap, w.active + 1, Anhe(w.at, w));
      assert forall j :: 0 <= j < |l| ==> heap[j] == heap[..|l|][j] == l[j];
      heap[w.active] := Anhe(w.at, w);
    }

    lemma StillOrdered(l: seq<Anhe>, r: seq<Anhe>, E: nat)
      requires E <= |l| && E <= |r| && Ordered(l, E)
      requires forall j :: HEAP0 <= j < E ==> l[j] == r[j]
      ensures Ordered(r, E)
    {
      assert forall j {:trigger Parent(j)} :: HEAP0 < j < E ==> l[Parent(j)] == r[Parent(j)];
    }

    // the new watcher takes the slot after the last one
    method Append(w: Watcher, ghost ms: set<Watcher>)
      requires Valid() && w in ws && w.active == 0 && ms == Members() + {w}
      modifies this`cnt, this`heap, heap, w`active
      ensures Sized() && (heap == old(heap) || fresh(heap))
      ensures cnt == old(cnt) + 1 && w.active == cnt + HEAP0 - 1
      ensures RiseAt(heap[..], End(), w.active)
      ensures IndexedExcept(heap[..], End(), w.active, ms)
      ensures CachedIn(heap[..]) && Holds(heap[..], End(), ms)
    {
      ghost var l := heap[..];
      ghost var E := End();
      Extend(w);
      if E > 0 {
        StillOrdered(l, heap[..], E);
      }
      LastSlotRises(heap[..], w.active);
    }

    // the part of ev_timer_start and ev_periodic_start that works on the heap
    method Insert(w: Watcher)
      requires Valid() && w in ws && w.active == 0
      modifies this`cnt, this`heap, heap, ws`active
      ensures Valid() && (heap == old(heap) || fresh(heap))
      ensures cnt == old(cnt) + 1 && Members() == old(Members()) + {w}
    {
      ghost var ms := Members() + {w};
      Append(w, ms);
      ghost var l := heap[..];
      Upheap(heap, End(), w.active, ms);
      Resettled(l, ms);
    }

    // give an inactive watcher its key and insert it
    method StartAt(w: Watcher, at: real)
      requires Valid() && w in ws && w.active == 0
      modifies this`cnt, this`heap, heap, ws`active, w`at
      ensures Valid() && (heap == old(heap) || fresh(heap)) && w.at == at
      ensures cnt == old(cnt) + 1 && Members() == old(Members()) + {w}
    {
      w.at := at;
      Insert(w);
    }

    // The last entry takes the slot of w, one slot less is in use.
    method Overwrite(w: Watcher, ghost ms: set<Watcher>)
      requires Valid() && w in ws && w.active != 0 && ms == Members() - {w}
      requires w.active < End() - 1
      modifies this`cnt, heap
      ensures Sized() && cnt == old(cnt) - 1 && cnt > 0
      ensures OrderedExcept(heap[..], End(), w.active) && Apart(heap[..], End(), w.active)
      ensures IndexedExcept(heap[..], End(), w.active, ms)
      ensures CachedIn(heap[..]) && Holds(heap[..], End(), ms)
    {
      ghost var l := heap[..];
      cnt := cnt - 1;
      heap[w.active] := heap[cnt + HEAP0];
      OverwrittenExcept(l, End(), w.active, l[End()]);
      assert heap[..] == l[w.active := l[End()]];
      forall v | v in ms
        ensures exists j :: HEAP0 <= j < End() && heap[j].w == v
      {
        assert l[v.active].w == v;
        assert heap[if v.active == End() then w.active else v.active].w == v;
      }
    }

    // the last entry takes the slot of w and goes where it belongs
    method Replace(w: Watcher, ghost ms: set<Watcher>)
      requires Valid() && w in ws && w.active != 0 && w.active < cnt + HEAP0 - 1 && ms == Members() - {w}
      modifies this`cnt, heap, ws`active
      ensures Valid() == true && cnt == old(cnt) - 1 && Members() == ms
    {
      ghost var l := Refill(w, ms);
      w.active := 0;
      Resettled(l, ms);
    }

    method Refill(w: Watcher, ghost ms: set<Watcher>) returns (ghost l: seq<Anhe>)
      requires Valid() && w in ws && w.active != 0 && w.active < End() - 1 && ms == Members() - {w}
      modifies this`cnt, heap, ms`active
      ensures Sized() && cnt == old(cnt) - 1 && cnt > 0
      ensures SameOutside(heap[..], l, End()) && multiset(heap[..]) == multiset(l)
      ensures Ordered(heap[..], End()) == true && Indexed(heap[..], End(), ms) == true
      ensures CachedIn(l) == true && Holds(l, End(), ms) == true
    {
      var active := w.active;
      Overwrite(w, ms);
      l := heap[..];
      Adjustheap(heap, cnt, active, ms);
    }

    // w sits in the last slot
    method DropLast(w: Watcher)
      requires Valid() && w in ws && w.active == End() - 1
      modifies this`cnt, w`active
      ensures Valid()
      ensures cnt == old(cnt) - 1 && Members() == old(Members()) - {w}
    {
      cnt := cnt - 1;
      w.active := 0;
    }

    // the part of ev_timer_stop and ev_periodic_stop that works on the heap
    method Remove(w: Watcher)
      requires Valid() && w in ws && w.active != 0
      modifies this`cnt, heap, ws`active
      ensures Valid()
      ensures cnt == old(cnt) - 1 && Members() == old(Members()) - {w}
    {
      ghost var ms := Members() - {w};
      var active := w.active;
      if active < cnt + HEAP0 - 1 {
        Replace(w, ms);
      } else {
        DropLast(w);
      }
    }

    // remove an active watcher and leave it with another key
    method StopAt(w: Watcher, at: real)
      requires Valid() && w in ws && w.active != 0
      modifies this`cnt, heap, ws`active, w`at
      ensures Valid() && w.at == at
      ensures cnt == old(cnt) - 1 && Members() == old(Members()) - {w}
    {
      Remove(w);
      w.at := at;
    }

    // all but the key of w is as it should be
    ghost predicate ValidExcept(w: Watcher)
      reads this, heap, ws`at, ws`active
    {
      && Sized() && Ordered(heap[..], End()) && Indexed(heap[..], End(), ws) && Placed()
      && w in ws && w.active != 0
      && forall j :: HEAP0 <= j < End() && heap[j].w != w ==> heap[j].at == heap[j].w.at
    }

    method Recache(w: Watcher, ghost ms: set<Watcher>)
      requires ValidExcept(w) && ms == Members()
      modifies heap
      ensures Sized() && HEAP0 <= w.active < End()
      ensures OrderedExcept(heap[..], End(), w.active) && Apart(heap[..], End(), w.active)
      ensures IndexedExcept(heap[..], End(), w.active, ms)
      ensures CachedIn(heap[..]) && Holds(heap[..], End(), ms)
    {
      ghost var l := heap[..];
      heap[w.active] := Anhe(w.at, heap[w.active].w);
      OverwrittenExcept(l, End(), w.active, Anhe(w.at, w));
      assert heap[..] == l[w.active := Anhe(w.at, w)];
      assert forall v :: v in ms ==> heap[v.active].w == v;
    }

    // ANHE_at_cache and adjustheap, after the key of w changed either way
    method Rekey(w: Watcher)
      requires ValidExcept(w)
      modifies heap, ws`active
      ensures Valid() && Members() == old(Members())
    {
      ghost var ms := Members();
      Recache(w, ms);
      ghost var l := heap[..];
      Adjustheap(heap, cnt, w.active, ms);
      Resettled(l, ms);
    }

    // ANHE_at_cache and downheap, after the key of the root w changed
    method RekeyRoot(w: Watcher)
      requires ValidExcept(w) && w.active == HEAP0
      modifies heap, ws`active
      ensures Valid() && Members() == old(Members())
    {
      ghost var ms := Members();
      Recache(w, ms);
      ghost var l := heap[..];
      Downheap(heap, cnt, HEAP0, ms);
      Resettled(l, ms);
    }

    // a new key for an active watcher
    method MoveTo(w: Watcher, at: real)
      requires Valid() && w in ws && w.active != 0
      modifies heap, ws`active, w`at
      ensures Valid() && Members() == old(Members()) && w.at == at
    {
      w.at := at;
      Rekey(w);
    }

    // a new key for the watcher at the root
    method MoveRoot(w: Watcher, at: real)
      requires Valid() && cnt > 0 && w == heap[HEAP0].w
      modifies heap, ws`active, w`at
      ensures Valid() && Members() == old(Members()) && w.at == at
    {
      w.at := at;
      RekeyRoot(w);
    }

    // the key of a watcher that is not active may change
    method SetIdle(w: Watcher, at: real)
      requires Valid() && w in ws && w.active == 0
      modifies w`at
      ensures Valid() && Members() == old(Members()) && w.at == at
    {
      w.at := at;
    }

    // the watcher at the root is due first
    lemma RootIsFirst()
      requires Valid() && cnt > 0
      ensures var r := heap[HEAP0]; r.w in Members() && r.at == r.w.at && forall v :: v in Members() ==> r.at <= v.at
    {
      forall v | v in Members()
        ensures heap[HEAP0].at <= v.at
      {
        RootIsLeast(heap[..], End(), v.active);
        assert heap[v.active].at == v.at;
      }
    }

    // nobody is active in an empty heap
    lemma EmptyHeap()
      requires Valid() && cnt == 0
      ensures Members() == {}
    {
    }

    // all but the order
    ghost predicate Consistent()
      reads this, heap, ws`at, ws`active
    {
      Sized() && Indexed(heap[..], End(), ws) && Cached() && Placed()
    }

    // a new key for the watcher in slot i, which stays where it is
    method PutKey(i: nat, at: real)
      requires Consistent() && HEAP0 <= i < End()
      modifies heap, {heap[i].w}`at
      ensures Consistent() && Members() == old(Members())
      ensures heap[i].w == old(heap[i].w) && heap[i].w.at == at
      ensures forall j :: HEAP0 <= j < End() ==> heap[j].w == old(heap[j].w)
    {
      var w := heap[i].w;
      w.at := at;
      heap[i] := Anhe(at, w);
    }

    // reheap, after the keys changed in place
    method Rebuild()
      requires Consistent()
      modifies heap, ws`active
      ensures Valid() && Members() == old(Members())
    {
      if cnt > 0 {
        ghost var ms := Members();
        ghost var l := heap[..];
        assert AllApart(l, End());
        assert Holds(l, End(), ms) by {
          assert forall v :: v in ms ==> l[v.active].w == v;
        }
        Reheap(heap, cnt, ms);
        Resettled(l, ms);
      }
    }

    // the loop of timers_reschedule
    method ShiftKeys(adjust: real)
      requires Sized() && Indexed(heap[..], End(), ws) && Cached() && Placed()
      modifies heap, ws`at
      ensures forall j :: HEAP0 <= j < End() ==>
        heap[j].w == old(heap[j].w) && heap[j].at == heap[j].w.at == old(heap[j].at) + adjust
      ensures forall w :: w in ws ==> w.at == if w in Members() then old(w.at) + adjust else old(w.at)
    {
      ghost var l := heap[..];
      for i := 0 to cnt
        invariant forall j :: HEAP0 <= j < End() ==>
          && heap[j].w == l[j].w
          && heap[j].at == l[j].w.at == if j < i + HEAP0 then l[j].at + adjust else l[j].at
        invariant forall w :: w in ws ==>
          w.at == if w in Members() && w.active < i + HEAP0 then old(w.at) + adjust else old(w.at)
      {
        var w := heap[i + HEAP0].w;
        w.at := w.at + adjust;
        heap[i + HEAP0] := Anhe(w.at, w);
      }
    }

    // timers_reschedule: every key moves by the same amount, so the order stays
    method Shift(adjust: real)
      requires Valid()
      modifies heap, ws`at
      ensures Valid()
      ensures forall w :: w in ws ==> w.at == if w in Members() then old(w.at) + adjust else old(w.at)
    {
      ghost var l := heap[..];
      ShiftKeys(adjust);
      OrderShifted(l, heap[..], End(), adjust);
    }

    static lemma OrderShifted(l: seq<Anhe>, r: seq<Anhe>, E: nat, adjust: real)
      requires E <= |l| == |r| && Ordered(l, E) && forall j :: HEAP0 <= j < E ==> r[j].at == l[j].at + adjust
      ensures Ordered(r, E)
    {
      forall j | HEAP0 < j < E
        ensures r[Parent(j)].at <= r[j].at
      {
        assert l[Parent(j)].at <= l[j].at;
      }
    }
  }
}
