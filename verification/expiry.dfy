/**
  From expiry to callbacks (deps/ev/ev.c): what timers_reify and
  periodics_reify leave on the pending stacks, and the order in which
  ev_invoke_pending calls it.
 */
module Expiry {
  import opened Basics
  import opened Watchers
  import opened TimeHeaps
  import opened PendingStacks
  import opened CallOrder

  ghost predicate SortedBy(s: seq<Watcher>, key: map<Watcher, real>) {
    && (forall w :: w in s ==> w in key)
    && (forall i, j :: 0 <= i < j < |s| ==> key[s[i]] <= key[s[j]])
  }

  lemma {:induction false} FreshInOrder(st: Stack<Watcher>, ws: seq<Watcher>, key: map<Watcher, real>)
    requires SortedBy(ws, key)
    ensures SortedBy(Fresh(st, ws), key) == true
  {
    if ws != [] {
      var rest, last := ws[..|ws| - 1], ws[|ws| - 1];
      FreshInOrder(st, rest, key);
      assert forall w :: w in rest ==> key[w] <= key[last];
      OneMoreSorted(Fresh(st, rest), last, key);
    }
  }

  lemma OneMoreSorted(s: seq<Watcher>, w: Watcher, key: map<Watcher, real>)
    requires SortedBy(s, key) && w in key && forall v :: v in s ==> key[v] <= key[w]
    ensures SortedBy(s + [w], key) && s + [] == s
  {
  }

  lemma {:induction false} FreshKeeps(st: Stack<Watcher>, ws: seq<Watcher>)
    ensures forall w :: w in ws && !Holds(st, w) ==> w in Fresh(st, ws)
  {
    if ws != [] {
      FreshKeeps(st, ws[..|ws| - 1]);
    }
  }

  lemma {:induction false} PriorityInOrder(ws: seq<Watcher>, pri: map<Watcher, nat>, p: nat, key: map<Watcher, real>)
    requires SortedBy(ws, key) && forall w :: w in ws ==> w in pri
    ensures SortedBy(OfPriority(ws, pri, p), key)
    ensures forall w :: w in ws && pri[w] == p ==> w in OfPriority(ws, pri, p)
  {
    if ws != [] {
      var rest, last := ws[..|ws| - 1], ws[|ws| - 1];
      PriorityInOrder(rest, pri, p, key);
      assert forall w :: w in rest ==> key[w] <= key[last];
    }
  }

  lemma StackAfterExpiry<W>(ss: Stacks<W>, fed: seq<W>, m: Mask, pri: map<W, nat>, p: nat)
    requires Distinct(fed) && Ranked(fed, pri, |ss|) && p < |ss|
    ensures FedBack(ss[p], OfPriority(fed, pri, p), m, FeedBackAll(ss, fed, m, pri)[p])
  {
    FeedBackPerPriority(ss, fed, m, pri, p);
    OfPriorityDistinct(fed, pri, p);
    FeedBackShape(ss[p], OfPriority(fed, pri, p), m);
  }

  lemma FreshAfterExpiry(st: Stack<Watcher>, fed: seq<Watcher>, pri: map<Watcher, nat>, p: nat,
                         ms: set<Watcher>, key: map<Watcher, real>, now: real)
    requires ExpiredInOrder(fed, ms, key, now) && forall w :: w in fed ==> w in pri
    ensures var f := Fresh(st, OfPriority(fed, pri, p));
            && SortedBy(f, key)
            && (forall w :: w in f <==> w in fed && pri[w] == p && !Holds(st, w))
  {
    var mine := OfPriority(fed, pri, p);
    PriorityInOrder(fed, pri, p, key);
    FreshInOrder(st, mine, key);
    FreshKeeps(st, mine);
    FreshOnly(st, mine);
    OfPriorityOnly(fed, pri, p);
  }

  // After timers_reify or periodics_reify the watchers of priority p that were not pending before lie on top
  // of its stack, the one that expired first uppermost.
  lemma EarliestUppermost(ss: Stacks<Watcher>, fed: seq<Watcher>, m: Mask, pri: map<Watcher, nat>, p: nat,
                          ms: set<Watcher>, key: map<Watcher, real>, now: real)
    requires ExpiredInOrder(fed, ms, key, now) && Ranked(fed, pri, |ss|) && p < |ss|
    ensures var f, r := Fresh(ss[p], OfPriority(fed, pri, p)), FeedBackAll(ss, fed, m, pri)[p];
            && FedBack(ss[p], OfPriority(fed, pri, p), m, r)
            && SortedBy(f, key)
            && (forall w :: w in f <==> w in fed && pri[w] == p && !Holds(ss[p], w))
  {
    StackAfterExpiry(ss, fed, m, pri, p);
    FreshAfterExpiry(ss[p], fed, pri, p, ms, key, now);
  }

  // ---------- the order of the calls ----------

  // v stands before w
  ghost predicate InOrder<W>(s: seq<W>, v: W, w: W) {
    exists i, j :: 0 <= i < j < |s| && s[i] == v && s[j] == w
  }

  lemma OneMoreInOrder<W>(s: seq<W>, last: W, v: W, w: W)
    ensures InOrder(s, v, w) ==> InOrder(s + [last], v, w)
    ensures v in s && w == last ==> InOrder(s + [last], v, w)
    ensures InOrder(s + [last], v, w) && w != last ==> InOrder(s, v, w)
    ensures InOrder(s + [last], v, w) ==> v in s
  {
    var r := s + [last];
    if InOrder(s, v, w) {
      var i, j :| 0 <= i < j < |s| && s[i] == v && s[j] == w;
      assert r[i] == v && r[j] == w;
    }
    if v in s && w == last {
      var i :| 0 <= i < |s| && s[i] == v;
      assert r[i] == v && r[|s|] == w;
    }
  }

  lemma {:induction false} OfPriorityInOrder<W>(ws: seq<W>, pri: map<W, nat>, p: nat, v: W, w: W)
    requires InOrder(ws, v, w) && v in pri && w in pri && pri[v] == p == pri[w]
    ensures InOrder(OfPriority(ws, pri, p), v, w)
  {
    var rest, last := ws[..|ws| - 1], ws[|ws| - 1];
    assert ws == rest + [last];
    OneMoreInOrder(rest, last, v, w);
    OneMoreInOrder(OfPriority(rest, pri, p), last, v, w);
    if InOrder(rest, v, w) {
      OfPriorityInOrder(rest, pri, p, v, w);
      assert OfPriority(rest, pri, p) + [] == OfPriority(rest, pri, p);
    } else {
      OfPriorityHas(rest, pri, p, v);
    }
  }

  lemma {:induction false} OfPriorityHas<W>(ws: seq<W>, pri: map<W, nat>, p: nat, w: W)
    requires w in ws && w in pri && pri[w] == p
    ensures w in OfPriority(ws, pri, p)
  {
    if ws[|ws| - 1] != w {
      OfPriorityHas(ws[..|ws| - 1], pri, p, w);
    }
  }

  lemma {:induction false} FreshInOrderToo<W>(st: Stack<W>, ws: seq<W>, v: W, w: W)
    requires InOrder(ws, v, w) && !Holds(st, v) && !Holds(st, w)
    ensures InOrder(Fresh(st, ws), v, w)
  {
    var rest, last := ws[..|ws| - 1], ws[|ws| - 1];
    assert ws == rest + [last];
    OneMoreInOrder(rest, last, v, w);
    OneMoreInOrder(Fresh(st, rest), last, v, w);
    if InOrder(rest, v, w) {
      FreshInOrderToo(st, rest, v, w);
      assert Fresh(st, rest) + [] == Fresh(st, rest);
    } else {
      FreshHas(st, rest, v);
    }
  }

  lemma {:induction false} FreshHas<W>(st: Stack<W>, ws: seq<W>, w: W)
    requires w in ws && !Holds(st, w)
    ensures w in Fresh(st, ws)
  {
    if ws[|ws| - 1] != w {
      FreshHas(st, ws[..|ws| - 1], w);
    }
  }

  // the later of two watchers fed backwards is found further down
  lemma EarlierIsHigher<W>(st: Stack<W>, fed: seq<W>, m: Mask, r: Stack<W>, v: W, w: W)
    requires FedBack(st, fed, m, r) && InOrder(fed, v, w) && !Holds(st, v) && !Holds(st, w)
    ensures exists i, j :: 0 <= i < j < |r| && r[i].w == w && r[j].w == v
  {
    FreshInOrderToo(st, fed, v, w);
    var f := Fresh(st, fed);
    var x, y :| 0 <= x < y < |f| && f[x] == v && f[y] == w;
    assert r[|r| - 1 - y].w == w && r[|r| - 1 - x].w == v;
  }

  // clearing gives a watcher no slot
  lemma {:induction false} ClearEachHolds<W>(ss: Stacks<W>, fed: seq<W>, which: set<W>, pri: map<W, nat>, dummy: W,
                                             p: nat, w: W)
    requires p < |ss| && !Holds(ss[p], w) && w != dummy
    ensures !Holds(ClearEach(ss, fed, which, pri, dummy)[p], w)
  {
    if fed != [] {
      var last, r := fed[|fed| - 1], ClearEach(ss, fed[..|fed| - 1], which, pri, dummy);
      ClearEachHolds(ss, fed[..|fed| - 1], which, pri, dummy, p, w);
      if last in which && last in pri && pri[last] == p {
        var c := Clear(r[p], last, dummy);
        assert forall i :: 0 <= i < |c| ==> c[i].w != w;
      }
    }
  }

  // Of two watchers of one priority that expired, neither of them pending before, the first to expire is
  // called first.
  ghost predicate CallsInOrder(fed: seq<Watcher>, ss: Stacks<Watcher>, pri: map<Watcher, nat>,
                               calls: seq<Slot<Watcher>>, script: Script<Watcher>, dummy: Watcher) {
    forall i, j :: 0 <= i < j < |fed| && Newcomer(ss, pri, fed[i]) && Newcomer(ss, pri, fed[j]) && pri[fed[i]] == pri[fed[j]] ==>
      CalledBefore(calls, script, fed[i], fed[j], dummy)
  }

  // w is not pending in ss
  ghost predicate Newcomer<W>(ss: Stacks<W>, pri: map<W, nat>, w: W) {
    w in pri && pri[w] < |ss| && !Holds(ss[pri[w]], w)
  }

  // ---------- two batches ----------

  // a stack after a batch of the priority p, which may have cleared some of its watchers before
  ghost function AfterBatch<W>(ss: Stacks<W>, fed: seq<W>, shots: set<W>, m: Mask, pri: map<W, nat>,
                               dummy: W): (r: Stacks<W>)
    requires Ranked(fed, pri, |ss|)
    ensures |r| == |ss|
  {
    FeedBackAll(ClearEach(ss, fed, shots, pri, dummy), fed, m, pri)
  }

  lemma {:induction false} ClearEachStays<W>(ss: Stacks<W>, fed: seq<W>, shots: set<W>, pri: map<W, nat>, dummy: W,
                                             p: nat)
    requires p < |ss|
    ensures var r := ClearEach(ss, fed, shots, pri, dummy)[p];
            |r| == |ss[p]| && forall k :: 0 <= k < |r| ==> r[k].w == ss[p][k].w || (ss[p][k].w in fed && r[k].w == dummy)
  {
    if fed != [] {
      ClearEachStays(ss, fed[..|fed| - 1], shots, pri, dummy, p);
    }
  }

  // r is st with the slots of some fed watchers cleared and other fed watchers on top
  ghost predicate Grown<W>(st: Stack<W>, fed: seq<W>, r: Stack<W>, dummy: W) {
    && |st| <= |r|
    && (forall k :: 0 <= k < |st| ==> r[k].w == st[k].w || (st[k].w in fed && r[k].w == dummy))
    && (forall k :: |st| <= k < |r| ==> r[k].w in fed)
  }

  lemma BatchGrows<W>(ss: Stacks<W>, fed: seq<W>, shots: set<W>, m: Mask, pri: map<W, nat>, dummy: W, p: nat)
    requires Distinct(fed) && Ranked(fed, pri, |ss|) && p < |ss|
    ensures Grown(ss[p], fed, AfterBatch(ss, fed, shots, m, pri, dummy)[p], dummy)
  {
    var cs := ClearEach(ss, fed, shots, pri, dummy);
    ClearEachStays(ss, fed, shots, pri, dummy, p);
    StackAfterExpiry(cs, fed, m, pri, p);
    TopIsFed(cs[p], OfPriority(fed, pri, p), m, AfterBatch(ss, fed, shots, m, pri, dummy)[p]);
  }

  lemma TopIsFed<W>(st: Stack<W>, fed: seq<W>, m: Mask, r: Stack<W>)
    requires FedBack(st, fed, m, r)
    ensures |st| <= |r| && forall k :: |st| <= k < |r| ==> r[k].w in fed
    ensures forall k :: 0 <= k < |st| ==> r[k].w == st[k].w
  {
    var f := Fresh(st, fed);
    forall k | |st| <= k < |r|
      ensures r[k].w in fed
    {
      assert r[|r| - 1 - (|r| - 1 - k)] == Slot(f[|r| - 1 - k], m);
    }
  }

  // the place of a fed watcher on its stack
  lemma FedHasSlot<W>(st: Stack<W>, fed: seq<W>, m: Mask, r: Stack<W>, w: W) returns (k: nat)
    requires FedBack(st, fed, m, r) && w in fed
    ensures k < |r| && r[k].w == w && (!Holds(st, w) ==> k >= |st|)
  {
    if Holds(st, w) {
      k := IndexOf(st, w);
    } else {
      FreshHas(st, fed, w);
      var f := Fresh(st, fed);
      var x :| 0 <= x < |f| && f[x] == w;
      k := |r| - 1 - x;
    }
  }

  lemma FedHasPlace<W>(ss: Stacks<W>, fed: seq<W>, shots: set<W>, m: Mask, pri: map<W, nat>, dummy: W, w: W)
    returns (k: nat)
    requires Distinct(fed) && Ranked(fed, pri, |ss|) && w in fed && w != dummy
    ensures var r := AfterBatch(ss, fed, shots, m, pri, dummy)[pri[w]];
            k < |r| && r[k].w == w && (Newcomer(ss, pri, w) ==> k >= |ss[pri[w]]|)
  {
    var p, cs := pri[w], ClearEach(ss, fed, shots, pri, dummy);
    ClearEachStays(ss, fed, shots, pri, dummy, p);
    if Newcomer(ss, pri, w) {
      ClearEachHolds(ss, fed, shots, pri, dummy, p, w);
    }
    OfPriorityHas(fed, pri, p, w);
    StackAfterExpiry(cs, fed, m, pri, p);
    k := FedHasSlot(cs[p], OfPriority(fed, pri, p), m, AfterBatch(ss, fed, shots, m, pri, dummy)[p], w);
  }

  // another batch does not make w pending
  lemma StaysNewcomer<W>(ss: Stacks<W>, fed: seq<W>, shots: set<W>, m: Mask, pri: map<W, nat>, dummy: W, w: W)
    requires Distinct(fed) && Ranked(fed, pri, |ss|) && Newcomer(ss, pri, w) && w !in fed && w != dummy
    ensures Newcomer(AfterBatch(ss, fed, shots, m, pri, dummy), pri, w)
  {
    var p := pri[w];
    var r := AfterBatch(ss, fed, shots, m, pri, dummy)[p];
    BatchGrows(ss, fed, shots, m, pri, dummy, p);
    assert forall k :: 0 <= k < |ss[p]| ==> ss[p][k].w != w;
    assert forall k :: 0 <= k < |r| ==> r[k].w != w;
  }

  // ---------- what the members of a batch owe ----------

  ghost predicate OnceAtMost<W>(st: Stack<W>, w: W) {
    forall i, j :: 0 <= i < j < |st| && st[i].w == w ==> st[j].w != w
  }

  // the slots of w are the same
  ghost predicate SlotsKept<W>(st: Stack<W>, r: Stack<W>, w: W) {
    |r| == |st| && forall k :: 0 <= k < |st| && (st[k].w == w || r[k].w == w) ==> r[k] == st[k]
  }

  // clearing takes a one-shot off its stack and leaves the slots of all others as they are
  lemma {:induction false} ClearEachOwes<W>(ss: Stacks<W>, fed: seq<W>, shots: set<W>, pri: map<W, nat>, dummy: W, w: W)
    requires dummy !in pri && w in pri && pri[w] < |ss| && OnceAtMost(ss[pri[w]], w)
    ensures var r := ClearEach(ss, fed, shots, pri, dummy)[pri[w]];
            OnceAtMost(r, w) && if w in fed && w in shots then !Holds(r, w) else SlotsKept(ss[pri[w]], r, w)
  {
    if fed != [] {
      var n := |fed| - 1;
      assert forall v :: v in fed <==> v in fed[..n] || v == fed[n];
      ClearEachOwes(ss, fed[..n], shots, pri, dummy, w);
    }
  }

  lemma OwesAt<W>(st: Stack<W>, w: W, k: nat)
    requires OnceAtMost(st, w) && k < |st| && st[k].w == w
    ensures Owes(st, w, st[k].events) && IndexOf(st, w) == k
  {
  }

  lemma SlotsKeptOwes<W>(st: Stack<W>, r: Stack<W>, w: W)
    requires SlotsKept(st, r, w) && OnceAtMost(st, w)
    ensures Holds(r, w) <==> Holds(st, w)
    ensures Holds(st, w) ==> IndexOf(r, w) == IndexOf(st, w) && r[IndexOf(r, w)] == st[IndexOf(st, w)]
  {
    if Holds(st, w) {
      assert r[IndexOf(st, w)].w == w;
    }
  }

  // what w owes on a stack once the batch is fed
  lemma FedBackOwes<W>(st: Stack<W>, fed: seq<W>, m: Mask, r: Stack<W>, w: W)
    requires FedBack(st, fed, m, r) && OnceAtMost(st, w) && Distinct(fed)
    ensures Holds(st, w) ==> Owes(r, w, st[IndexOf(st, w)].events + if w in fed then m else {})
    ensures !Holds(st, w) && w in fed ==> Owes(r, w, m)
  {
    if Holds(st, w) {
      var k := IndexOf(st, w);
      assert r[k].w == w && forall j :: 0 <= j < k ==> r[j].w == st[j].w;
      assert IndexOf(r, w) == k;
    } else if w in fed {
      var k := FedHasSlot(st, fed, m, r, w);
      var i := IndexOf(r, w);
      assert r[i].w == w && i >= |st|;
      assert r[|r| - 1 - (|r| - 1 - i)] == Slot(Fresh(st, fed)[|r| - 1 - i], m);
    }
  }

  // After a batch a one-shot in it, and whoever was not pending, owes just the bit of the batch, another watcher in
  // it owes that beside what it owed, and watchers that are not in it owe what they owed.
  lemma BatchOwes<W>(ss: Stacks<W>, fed: seq<W>, shots: set<W>, m: Mask, pri: map<W, nat>, dummy: W, w: W)
    requires Distinct(fed) && Ranked(fed, pri, |ss|) && dummy !in pri
    requires w in pri && pri[w] < |ss| && OnceAtMost(ss[pri[w]], w)
    ensures var st, r := ss[pri[w]], AfterBatch(ss, fed, shots, m, pri, dummy)[pri[w]];
            && (w in fed && (w in shots || !Holds(st, w)) ==> Owes(r, w, m))
            && (w in fed && w !in shots && Holds(st, w) ==> Owes(r, w, st[IndexOf(st, w)].events + m))
            && (w !in fed && Holds(st, w) ==> Owes(r, w, st[IndexOf(st, w)].events))
  {
    var p := pri[w];
    var cs := ClearEach(ss, fed, shots, pri, dummy);
    ClearEachOwes(ss, fed, shots, pri, dummy, w);
    StackAfterExpiry(cs, fed, m, pri, p);
    OfPriorityDistinct(fed, pri, p);
    if w in fed {
      OfPriorityHas(fed, pri, p, w);
    }
    FedBackOwes(cs[p], OfPriority(fed, pri, p), m, AfterBatch(ss, fed, shots, m, pri, dummy)[p], w);
    if !(w in fed && w in shots) {
      SlotsKeptOwes(ss[p], cs[p], w);
      if Holds(ss[p], w) {
        assert cs[p][IndexOf(cs[p], w)].events + {} == cs[p][IndexOf(cs[p], w)].events;
      }
    }
  }

  // a completed dispatch from the stacks `start`
  ghost predicate Completed(ds: seq<Dispatch<Watcher>>, calls: seq<Slot<Watcher>>, script: Script<Watcher>,
                            pri: map<Watcher, nat>, dummy: Watcher, start: Stacks<Watcher>) {
    && dummy !in pri && OneSlotEach(start, pri)
    && Dispatches(ds, calls, script, pri, dummy) && ds[0] == Dispatch(start, |start|)
    && ds[|calls|].below <= |ds[|calls|].ss| && Top(ds[|calls|]) == None
  }

  // Each watcher of the later batch that was not pending before is called before each of the earlier batch
  // that has the same priority.
  ghost predicate LaterFirst(later: seq<Watcher>, earlier: seq<Watcher>, ss: Stacks<Watcher>, pri: map<Watcher, nat>,
                             calls: seq<Slot<Watcher>>, script: Script<Watcher>, dummy: Watcher) {
    forall v, w :: v in later && w in earlier && Newcomer(ss, pri, v) && w in pri && pri[v] == pri[w] ==>
      CalledBefore(calls, script, v, w, dummy)
  }

  // each of fed is called; it is the dummy's call if a callback cleared the watcher by then
  ghost predicate EachCalled(fed: seq<Watcher>, calls: seq<Slot<Watcher>>, script: Script<Watcher>, dummy: Watcher) {
    forall w :: w in fed ==> IsCalled(calls, script, w, dummy)
  }

  // Everybody in a batch is called.
  lemma BatchCalled(ss: Stacks<Watcher>, fed: seq<Watcher>, shots: set<Watcher>, m: Mask, pri: map<Watcher, nat>,
                    ds: seq<Dispatch<Watcher>>, calls: seq<Slot<Watcher>>, script: Script<Watcher>, dummy: Watcher)
    requires Distinct(fed) && Ranked(fed, pri, |ss|)
    requires Completed(ds, calls, script, pri, dummy, AfterBatch(ss, fed, shots, m, pri, dummy))
    ensures EachCalled(fed, calls, script, dummy)
  {
    forall w | w in fed
      ensures IsCalled(calls, script, w, dummy)
    {
      var k := FedHasPlace(ss, fed, shots, m, pri, dummy, w);
      SlotIsCalled(ds, calls, script, pri, dummy, pri[w], k, w);
    }
  }

  // Whatever was on the stacks before a batch is called after the newcomers of the batch.
  lemma PendingCalledLater(ss: Stacks<Watcher>, fed: seq<Watcher>, shots: set<Watcher>, m: Mask, pri: map<Watcher,
                           nat>,
                           ds: seq<Dispatch<Watcher>>, calls: seq<Slot<Watcher>>, script: Script<Watcher>, dummy: Watcher,
                           v: Watcher, w: Watcher, k: nat)
    requires Distinct(fed) && Ranked(fed, pri, |ss|)
    requires Completed(ds, calls, script, pri, dummy, AfterBatch(ss, fed, shots, m, pri, dummy))
    requires v in fed && Newcomer(ss, pri, v) && w in pri && pri[w] == pri[v] && w !in fed
    requires k < |ss[pri[w]]| && ss[pri[w]][k].w == w
    ensures CalledBefore(calls, script, v, w, dummy)
  {
    var j := FedHasPlace(ss, fed, shots, m, pri, dummy, v);
    BatchGrows(ss, fed, shots, m, pri, dummy, pri[v]);
    UpperCalledFirst(ds, calls, script, pri, dummy, pri[v], k, j, w, v);
  }

  // Whoever was on a stack before a batch, and not in it, is called too.
  lemma PendingCalled(ss: Stacks<Watcher>, fed: seq<Watcher>, shots: set<Watcher>, m: Mask, pri: map<Watcher, nat>,
                      ds: seq<Dispatch<Watcher>>, calls: seq<Slot<Watcher>>, script: Script<Watcher>, dummy: Watcher,
                      w: Watcher, k: nat)
    requires Distinct(fed) && Ranked(fed, pri, |ss|)
    requires Completed(ds, calls, script, pri, dummy, AfterBatch(ss, fed, shots, m, pri, dummy))
    requires w in pri && w !in fed && pri[w] < |ss| && k < |ss[pri[w]]| && ss[pri[w]][k].w == w
    ensures IsCalled(calls, script, w, dummy)
  {
    BatchGrows(ss, fed, shots, m, pri, dummy, pri[w]);
    SlotIsCalled(ds, calls, script, pri, dummy, pri[w], k, w);
  }

  // Two watchers that were on a stack before a batch, and not in it, keep their order.
  lemma PendingStayInOrder(ss: Stacks<Watcher>, fed: seq<Watcher>, shots: set<Watcher>, m: Mask, pri: map<Watcher,
                           nat>,
                           ds: seq<Dispatch<Watcher>>, calls: seq<Slot<Watcher>>, script: Script<Watcher>, dummy: Watcher,
                           v: Watcher, w: Watcher, i: nat, j: nat)
    requires Distinct(fed) && Ranked(fed, pri, |ss|)
    requires Completed(ds, calls, script, pri, dummy, AfterBatch(ss, fed, shots, m, pri, dummy))
    requires v in pri && w in pri && pri[v] == pri[w] < |ss| && v !in fed && w !in fed
    requires i < j < |ss[pri[w]]| && ss[pri[w]][i].w == w && ss[pri[w]][j].w == v
    ensures CalledBefore(calls, script, v, w, dummy)
  {
    BatchGrows(ss, fed, shots, m, pri, dummy, pri[v]);
    UpperCalledFirst(ds, calls, script, pri, dummy, pri[v], i, j, w, v);
  }

  // two watchers of the batch, as they lie on their stack
  lemma BatchPlaces(ss: Stacks<Watcher>, fed: seq<Watcher>, shots: set<Watcher>, m: Mask, pri: map<Watcher, nat>,
                    dummy: Watcher, v: Watcher, w: Watcher) returns (i: nat, j: nat)
    requires Distinct(fed) && Ranked(fed, pri, |ss|) && dummy !in pri && InOrder(fed, v, w)
    requires Newcomer(ss, pri, v) && Newcomer(ss, pri, w) && pri[v] == pri[w]
    ensures var r := AfterBatch(ss, fed, shots, m, pri, dummy)[pri[v]]; i < j < |r| && r[i].w == w && r[j].w == v
  {
    var p, cs := pri[v], ClearEach(ss, fed, shots, pri, dummy);
    ClearEachHolds(ss, fed, shots, pri, dummy, p, v);
    ClearEachHolds(ss, fed, shots, pri, dummy, p, w);
    OfPriorityInOrder(fed, pri, p, v, w);
    StackAfterExpiry(cs, fed, m, pri, p);
    var r := AfterBatch(ss, fed, shots, m, pri, dummy)[p];
    EarlierIsHigher(cs[p], OfPriority(fed, pri, p), m, r, v, w);
    i, j :| 0 <= i < j < |r| && r[i].w == w && r[j].w == v;
  }

  // In a completed dispatch after a batch, for any callbacks and any stacks ss before it, newcomers of one
  // priority are called in the order of their expiry.
  lemma CalledInOrderOfExpiry(ss: Stacks<Watcher>, fed: seq<Watcher>, shots: set<Watcher>, m: Mask, pri: map<Watcher,
                              nat>,
                              ds: seq<Dispatch<Watcher>>, calls: seq<Slot<Watcher>>, script: Script<Watcher>, dummy: Watcher)
    requires Distinct(fed) && Ranked(fed, pri, |ss|)
    requires Completed(ds, calls, script, pri, dummy, AfterBatch(ss, fed, shots, m, pri, dummy))
    ensures CallsInOrder(fed, ss, pri, calls, script, dummy)
  {
    forall i, j | 0 <= i < j < |fed| && Newcomer(ss, pri, fed[i]) && Newcomer(ss, pri, fed[j]) && pri[fed[i]] == pri[fed[j]]
      ensures CalledBefore(calls, script, fed[i], fed[j], dummy)
    {
      assert InOrder(fed, fed[i], fed[j]);
      var x, y := BatchPlaces(ss, fed, shots, m, pri, dummy, fed[i], fed[j]);
      UpperCalledFirst(ds, calls, script, pri, dummy, pri[fed[i]], x, y, fed[j], fed[i]);
    }
  }

  lemma CalledAsExpired(ss: Stacks<Watcher>, fed: seq<Watcher>, shots: set<Watcher>, m: Mask, pri: map<Watcher, nat>,
                        ds: seq<Dispatch<Watcher>>, calls: seq<Slot<Watcher>>, script: Script<Watcher>, dummy: Watcher)
    requires Distinct(fed) && Ranked(fed, pri, |ss|)
    requires Completed(ds, calls, script, pri, dummy, AfterBatch(ss, fed, shots, m, pri, dummy))
    ensures EachCalled(fed, calls, script, dummy) == true && CallsInOrder(fed, ss, pri, calls, script, dummy) == true
  {
    BatchCalled(ss, fed, shots, m, pri, ds, calls, script, dummy);
    CalledInOrderOfExpiry(ss, fed, shots, m, pri, ds, calls, script, dummy);
  }

  // Two batches, one after the other, of different watchers: everybody is called.
  lemma BothCalled(ss: Stacks<Watcher>, fed1: seq<Watcher>, shots1: set<Watcher>, m1: Mask,
                   fed2: seq<Watcher>, shots2: set<Watcher>, m2: Mask, pri: map<Watcher, nat>,
                   ds: seq<Dispatch<Watcher>>, calls: seq<Slot<Watcher>>, script: Script<Watcher>, dummy: Watcher)
    requires Distinct(fed1) && Ranked(fed1, pri, |ss|) && Distinct(fed2) && Ranked(fed2, pri, |ss|)
    requires forall w :: w in fed1 ==> w !in fed2
    requires Completed(ds, calls, script, pri, dummy,
                       AfterBatch(AfterBatch(ss, fed1, shots1, m1, pri, dummy), fed2, shots2, m2, pri, dummy))
    ensures EachCalled(fed1, calls, script, dummy) && EachCalled(fed2, calls, script, dummy)
  {
    var mid := AfterBatch(ss, fed1, shots1, m1, pri, dummy);
    BatchCalled(mid, fed2, shots2, m2, pri, ds, calls, script, dummy);
    forall w | w in fed1
      ensures IsCalled(calls, script, w, dummy)
    {
      var k := FedHasPlace(ss, fed1, shots1, m1, pri, dummy, w);
      PendingCalled(mid, fed2, shots2, m2, pri, ds, calls, script, dummy, w, k);
    }
  }

  // Two batches, one after the other, of different watchers: each is called in the order of its expiry, and
  // the later one before the earlier one.
  lemma TwoBatches(ss: Stacks<Watcher>, fed1: seq<Watcher>, shots1: set<Watcher>, m1: Mask,
                   fed2: seq<Watcher>, shots2: set<Watcher>, m2: Mask, pri: map<Watcher, nat>,
                   ds: seq<Dispatch<Watcher>>, calls: seq<Slot<Watcher>>, script: Script<Watcher>, dummy: Watcher)
    requires Distinct(fed1) && Ranked(fed1, pri, |ss|) && Distinct(fed2) && Ranked(fed2, pri, |ss|)
    requires forall w :: w in fed1 ==> w !in fed2
    requires Completed(ds, calls, script, pri, dummy,
                       AfterBatch(AfterBatch(ss, fed1, shots1, m1, pri, dummy), fed2, shots2, m2, pri, dummy))
    ensures CallsInOrder(fed1, ss, pri, calls, script, dummy)
    ensures CallsInOrder(fed2, ss, pri, calls, script, dummy)
    ensures LaterFirst(fed2, fed1, ss, pri, calls, script, dummy)
  {
    var mid := AfterBatch(ss, fed1, shots1, m1, pri, dummy);
    forall i, j | 0 <= i < j < |fed1| && Newcomer(ss, pri, fed1[i]) && Newcomer(ss, pri, fed1[j]) && pri[fed1[i]] == pri[fed1[j]]
      ensures CalledBefore(calls, script, fed1[i], fed1[j], dummy)
    {
      assert InOrder(fed1, fed1[i], fed1[j]);
      var x, y := BatchPlaces(ss, fed1, shots1, m1, pri, dummy, fed1[i], fed1[j]);
      PendingStayInOrder(mid, fed2, shots2, m2, pri, ds, calls, script, dummy, fed1[i], fed1[j], x, y);
    }
    CalledInOrderOfExpiry(mid, fed2, shots2, m2, pri, ds, calls, script, dummy);
    forall w | w in fed2 && Newcomer(ss, pri, w)
      ensures Newcomer(mid, pri, w)
    {
      StaysNewcomer(ss, fed1, shots1, m1, pri, dummy, w);
    }
    forall v, w | v in fed2 && w in fed1 && Newcomer(ss, pri, v) && w in pri && pri[v] == pri[w]
      ensures CalledBefore(calls, script, v, w, dummy)
    {
      StaysNewcomer(ss, fed1, shots1, m1, pri, dummy, v);
      var k := FedHasPlace(ss, fed1, shots1, m1, pri, dummy, w);
      PendingCalledLater(mid, fed2, shots2, m2, pri, ds, calls, script, dummy, v, w, k);
    }
  }
}
