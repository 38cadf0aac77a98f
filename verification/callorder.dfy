/**
  The order in which ev_invoke_pending (deps/ev/ev.c) calls what it finds on
  the pending stacks, whatever the callbacks do meanwhile.
 */
module CallOrder {
  import opened Watchers
  import opened PendingStacks

  // the next call takes slot i of the stack for priority p
  ghost predicate Takes<W>(d: Dispatch<W>, p: nat, i: nat) {
    p < |d.ss| && d.below <= |d.ss| && Highest(d.ss, d.below) == p && |d.ss[p]| == i + 1
  }

  // turn n is the first that does so
  ghost predicate TakenAt<W>(ds: seq<Dispatch<W>>, p: nat, i: nat, n: nat) {
    n < |ds| && Takes(ds[n], p, i) && forall m :: 0 <= m < n ==> !Takes(ds[m], p, i)
  }

  ghost predicate Untaken<W>(ds: seq<Dispatch<W>>, p: nat, i: nat, n: nat)
    requires n <= |ds|
  {
    forall m :: 0 <= m < n ==> !Takes(ds[m], p, i)
  }

  // one of the first n callbacks cleared w
  ghost predicate ClearedBefore<W>(script: Script<W>, w: W, n: nat) {
    exists k :: 0 <= k < n && OpClear(w) in OpsAt(script, k)
  }

  // slot i of st belongs to w, or to the dummy if a callback cleared w
  ghost predicate Keeps<W>(st: Stack<W>, i: nat, w: W, cleared: bool, dummy: W) {
    i < |st| && (st[i].w == w || (cleared && st[i].w == dummy))
  }

  // a callback leaves the slot to its watcher, unless it clears it
  lemma {:induction false} ActKeeps<W>(ss: Stacks<W>, ops: seq<Op<W>>, pri: map<W, nat>, dummy: W, p: nat, i: nat, w: W, cleared: bool)
    requires Behaves(ops, pri, |ss|) && p < |ss| && Keeps(ss[p], i, w, cleared, dummy) && dummy !in pri
    ensures Keeps(ActAll(ss, ops, pri, dummy)[p], i, w, cleared || OpClear(w) in ops, dummy)
  {
    if ops != [] {
      var rest, op := ops[..|ops| - 1], ops[|ops| - 1];
      ActKeeps(ss, rest, pri, dummy, p, i, w, cleared);
      assert op in ops && forall o :: o in rest ==> o in ops;
    }
  }

  // a turn that does not take the slot leaves it to its watcher, and goes on looking at its stack
  lemma TurnKeeps<W>(d: Dispatch<W>, r: Dispatch<W>, call: Slot<W>, ops: seq<Op<W>>, pri: map<W, nat>, dummy: W,
                     p: nat, i: nat, w: W, cleared: bool)
    requires DispatchStep(d, r, call, ops, pri, dummy) && dummy !in pri
    requires p < |d.ss| && p < d.below && Keeps(d.ss[p], i, w, cleared, dummy) && !Takes(d, p, i)
    ensures |r.ss| == |d.ss| && p < r.below <= |r.ss|
    ensures Keeps(r.ss[p], i, w, cleared || OpClear(w) in ops, dummy)
  {
    var q := Highest(d.ss, d.below);
    ActKeeps(d.ss[q := d.ss[q][..|d.ss[q]| - 1]], ops, pri, dummy, p, i, w, cleared);
  }

  lemma {:induction false} SlotKept<W>(ds: seq<Dispatch<W>>, calls: seq<Slot<W>>, script: Script<W>, pri: map<W, nat>,
                                       dummy: W, p: nat, i: nat, n: nat)
    requires Dispatches(ds, calls, script, pri, dummy) && dummy !in pri && n <= |calls|
    requires p < ds[0].below <= |ds[0].ss| && i < |ds[0].ss[p]| && Untaken(ds, p, i, n)
    ensures |ds[n].ss| == |ds[0].ss| && p < ds[n].below <= |ds[n].ss|
    ensures Keeps(ds[n].ss[p], i, ds[0].ss[p][i].w, ClearedBefore(script, ds[0].ss[p][i].w, n), dummy)
  {
    if n > 0 {
      var w := ds[0].ss[p][i].w;
      SlotKept(ds, calls, script, pri, dummy, p, i, n - 1);
      assert DispatchStep(ds[n - 1], ds[n], calls[n - 1], OpsAt(script, n - 1), pri, dummy);
      TurnKeeps(ds[n - 1], ds[n], calls[n - 1], OpsAt(script, n - 1), pri, dummy, p, i, w, ClearedBefore(script, w, n - 1));
    }
  }

  // A slot that is taken is called, with its watcher unless that was cleared.
  lemma TakenIsCalled<W>(ds: seq<Dispatch<W>>, calls: seq<Slot<W>>, script: Script<W>, pri: map<W, nat>,
                         dummy: W, p: nat, i: nat, n: nat)
    requires Dispatches(ds, calls, script, pri, dummy) && dummy !in pri && n < |calls|
    requires p < ds[0].below <= |ds[0].ss| && i < |ds[0].ss[p]| && TakenAt(ds, p, i, n)
    ensures var w := ds[0].ss[p][i].w;
            calls[n].w == w || (calls[n].w == dummy && ClearedBefore(script, w, n))
  {
    SlotKept(ds, calls, script, pri, dummy, p, i, n);
    assert DispatchStep(ds[n], ds[n + 1], calls[n], OpsAt(script, n), pri, dummy);
  }

  // the first of the turns before n that takes the slot
  lemma {:induction false} FirstTake<W>(ds: seq<Dispatch<W>>, p: nat, i: nat, n: nat) returns (m: nat)
    requires n <= |ds| && !Untaken(ds, p, i, n)
    ensures m < n && TakenAt(ds, p, i, m)
  {
    if Untaken(ds, p, i, n - 1) {
      m := n - 1;
    } else {
      m := FirstTake(ds, p, i, n - 1);
    }
  }

  // When the dispatcher is done, every slot it found was taken.
  lemma EverySlotTaken<W>(ds: seq<Dispatch<W>>, calls: seq<Slot<W>>, script: Script<W>, pri: map<W, nat>,
                          dummy: W, p: nat, i: nat) returns (n: nat)
    requires Dispatches(ds, calls, script, pri, dummy) && dummy !in pri
    requires p < ds[0].below <= |ds[0].ss| && i < |ds[0].ss[p]|
    requires ds[|calls|].below <= |ds[|calls|].ss| && Top(ds[|calls|]) == None
    ensures n < |calls| && TakenAt(ds, p, i, n)
  {
    if Untaken(ds, p, i, |calls|) {
      SlotKept(ds, calls, script, pri, dummy, p, i, |calls|);
      assert false;
    }
    n := FirstTake(ds, p, i, |calls|);
  }

  // A slot is taken only after all slots above it.
  lemma UpperFirst<W>(ds: seq<Dispatch<W>>, calls: seq<Slot<W>>, script: Script<W>, pri: map<W, nat>,
                      dummy: W, p: nat, i: nat, j: nat, n: nat) returns (m: nat)
    requires Dispatches(ds, calls, script, pri, dummy) && dummy !in pri
    requires p < ds[0].below <= |ds[0].ss| && i < j < |ds[0].ss[p]| && n < |calls| && TakenAt(ds, p, i, n)
    ensures m < n && TakenAt(ds, p, j, m)
  {
    if Untaken(ds, p, j, n) {
      SlotKept(ds, calls, script, pri, dummy, p, j, n);
      assert false;
    }
    m := FirstTake(ds, p, j, n);
  }

  // A slot is taken only after all slots of higher priority that were there from the start.
  lemma HigherFirst<W>(ds: seq<Dispatch<W>>, calls: seq<Slot<W>>, script: Script<W>, pri: map<W, nat>,
                       dummy: W, p: nat, i: nat, q: nat, j: nat, n: nat) returns (m: nat)
    requires Dispatches(ds, calls, script, pri, dummy) && dummy !in pri
    requires p < q < ds[0].below <= |ds[0].ss| && i < |ds[0].ss[p]| && j < |ds[0].ss[q]|
    requires n < |calls| && TakenAt(ds, p, i, n)
    ensures m < n && TakenAt(ds, q, j, m)
  {
    if Untaken(ds, q, j, n) {
      SlotKept(ds, calls, script, pri, dummy, q, j, n);
      assert false;
    }
    m := FirstTake(ds, q, j, n);
  }

  // ---------- in terms of the watchers called ----------

  ghost predicate FirstCall<W>(calls: seq<Slot<W>>, w: W, n: nat) {
    n < |calls| && calls[n].w == w && forall m :: 0 <= m < n ==> calls[m].w != w
  }

  // w has slot i of the stack for priority p, and no other slot anywhere
  ghost predicate OnlyAt<W>(ss: Stacks<W>, p: nat, i: nat, w: W) {
    && p < |ss| && i < |ss[p]| && ss[p][i].w == w
    && forall q, k :: 0 <= q < |ss| && 0 <= k < |ss[q]| && (q != p || k != i) ==> ss[q][k].w != w
  }

  // every watcher has at most one slot, on the stack of its priority
  ghost predicate OneSlotEach<W>(ss: Stacks<W>, pri: map<W, nat>) {
    forall p, i :: 0 <= p < |ss| && 0 <= i < |ss[p]| && ss[p][i].w in pri ==>
      pri[ss[p][i].w] == p && OnlyAt(ss, p, i, ss[p][i].w)
  }

  lemma {:induction false} ActOnlyAt<W>(ss: Stacks<W>, ops: seq<Op<W>>, pri: map<W, nat>, dummy: W, p: nat, i: nat, w: W)
    requires Behaves(ops, pri, |ss|) && OnlyAt(ss, p, i, w) && OpClear(w) !in ops
    requires w != dummy && (w in pri ==> pri[w] == p)
    ensures OnlyAt(ActAll(ss, ops, pri, dummy), p, i, w)
  {
    if ops != [] {
      var rest, op := ops[..|ops| - 1], ops[|ops| - 1];
      assert op in ops && forall o :: o in rest ==> o in ops;
      ActOnlyAt(ss, rest, pri, dummy, p, i, w);
      OneActOnlyAt(ActAll(ss, rest, pri, dummy), op, pri, dummy, p, i, w);
    }
  }

  lemma OneActOnlyAt<W>(ss: Stacks<W>, op: Op<W>, pri: map<W, nat>, dummy: W, p: nat, i: nat, w: W)
    requires !op.OpPop? && op.w in pri && pri[op.w] < |ss| && OnlyAt(ss, p, i, w) && op != OpClear(w)
    requires w != dummy && (w in pri ==> pri[w] == p)
    ensures OnlyAt(Act(ss, op, pri, dummy), p, i, w)
  {
    var q := pri[op.w];
    var k := IndexOf(ss[q], op.w);
    if op.w == w {
      assert k == i;
    }
  }

  lemma TurnOnlyAt<W>(d: Dispatch<W>, r: Dispatch<W>, call: Slot<W>, ops: seq<Op<W>>, pri: map<W, nat>, dummy: W,
                      p: nat, i: nat, w: W)
    requires DispatchStep(d, r, call, ops, pri, dummy) && OnlyAt(d.ss, p, i, w) && OpClear(w) !in ops
    requires w != dummy && (w in pri ==> pri[w] == p) && !Takes(d, p, i)
    ensures OnlyAt(r.ss, p, i, w) && call.w != w
  {
    var q := Highest(d.ss, d.below);
    var popped := d.ss[q := d.ss[q][..|d.ss[q]| - 1]];
    assert OnlyAt(popped, p, i, w);
    ActOnlyAt(popped, ops, pri, dummy, p, i, w);
  }

  lemma {:induction false} NotCalledBefore<W>(ds: seq<Dispatch<W>>, calls: seq<Slot<W>>, script: Script<W>, pri: map<W, nat>,
                                              dummy: W, p: nat, i: nat, w: W, n: nat)
    requires Dispatches(ds, calls, script, pri, dummy) && n <= |calls| && Untaken(ds, p, i, n)
    requires OnlyAt(ds[0].ss, p, i, w) && w != dummy && (w in pri ==> pri[w] == p) && !ClearedBefore(script, w, n)
    ensures OnlyAt(ds[n].ss, p, i, w) && forall m :: 0 <= m < n ==> calls[m].w != w
  {
    if n > 0 {
      assert !ClearedBefore(script, w, n - 1);
      NotCalledBefore(ds, calls, script, pri, dummy, p, i, w, n - 1);
      assert DispatchStep(ds[n - 1], ds[n], calls[n - 1], OpsAt(script, n - 1), pri, dummy);
      TurnOnlyAt(ds[n - 1], ds[n], calls[n - 1], OpsAt(script, n - 1), pri, dummy, p, i, w);
    }
  }

  // The turn that takes the slot of a watcher nobody cleared is its first call.
  lemma TakenIsFirstCall<W>(ds: seq<Dispatch<W>>, calls: seq<Slot<W>>, script: Script<W>, pri: map<W, nat>,
                            dummy: W, p: nat, i: nat, w: W, n: nat)
    requires Dispatches(ds, calls, script, pri, dummy) && n < |calls| && TakenAt(ds, p, i, n)
    requires OnlyAt(ds[0].ss, p, i, w) && w != dummy && (w in pri ==> pri[w] == p) && !ClearedBefore(script, w, n)
    ensures FirstCall(calls, w, n)
  {
    NotCalledBefore(ds, calls, script, pri, dummy, p, i, w, n);
    assert DispatchStep(ds[n], ds[n + 1], calls[n], OpsAt(script, n), pri, dummy);
  }

  // v is called before w: in the turns that take their slots, to the dummy if a callback has cleared
  // them by then, and otherwise these are their first calls
  ghost predicate CalledBefore<W>(calls: seq<Slot<W>>, script: Script<W>, v: W, w: W, dummy: W) {
    exists m, n :: 0 <= m < n < |calls| && TurnOf(calls, script, v, m, dummy) && TurnOf(calls, script, w, n, dummy)
  }

  ghost predicate TurnOf<W>(calls: seq<Slot<W>>, script: Script<W>, w: W, n: nat, dummy: W) {
    if ClearedBefore(script, w, n) then n < |calls| && (calls[n].w == w || calls[n].w == dummy)
    else FirstCall(calls, w, n)
  }

  ghost predicate IsCalled<W>(calls: seq<Slot<W>>, script: Script<W>, w: W, dummy: W) {
    exists n :: TurnOf(calls, script, w, n, dummy)
  }

  // Whoever has a slot at the start is called.
  lemma SlotIsCalled<W>(ds: seq<Dispatch<W>>, calls: seq<Slot<W>>, script: Script<W>, pri: map<W, nat>,
                        dummy: W, p: nat, i: nat, w: W)
    requires Dispatches(ds, calls, script, pri, dummy) && dummy !in pri
    requires p < ds[0].below <= |ds[0].ss| && ds[|calls|].below <= |ds[|calls|].ss| && Top(ds[|calls|]) == None
    requires OnlyAt(ds[0].ss, p, i, w) && w in pri && pri[w] == p
    ensures IsCalled(calls, script, w, dummy)
  {
    var n := EverySlotTaken(ds, calls, script, pri, dummy, p, i);
    TakenIsCalled(ds, calls, script, pri, dummy, p, i, n);
    if !ClearedBefore(script, w, n) {
      TakenIsFirstCall(ds, calls, script, pri, dummy, p, i, w, n);
    }
    assert TurnOf(calls, script, w, n, dummy);
  }

  // The watchers of two slots are called in the order in which the slots are taken.
  lemma TakenInOrder<W>(ds: seq<Dispatch<W>>, calls: seq<Slot<W>>, script: Script<W>, pri: map<W, nat>,
                        dummy: W, q: nat, j: nat, v: W, m: nat, p: nat, i: nat, w: W, n: nat)
    requires Dispatches(ds, calls, script, pri, dummy) && dummy !in pri && m < n < |calls|
    requires p < ds[0].below <= |ds[0].ss| && q < ds[0].below && TakenAt(ds, q, j, m) && TakenAt(ds, p, i, n)
    requires OnlyAt(ds[0].ss, q, j, v) && OnlyAt(ds[0].ss, p, i, w)
    requires v in pri && w in pri && pri[v] == q && pri[w] == p
    ensures CalledBefore(calls, script, v, w, dummy)
  {
    TakenIsCalled(ds, calls, script, pri, dummy, p, i, n);
    TakenIsCalled(ds, calls, script, pri, dummy, q, j, m);
    if !ClearedBefore(script, w, n) {
      TakenIsFirstCall(ds, calls, script, pri, dummy, p, i, w, n);
    }
    if !ClearedBefore(script, v, m) {
      TakenIsFirstCall(ds, calls, script, pri, dummy, q, j, v, m);
    }
    assert TurnOf(calls, script, v, m, dummy) && TurnOf(calls, script, w, n, dummy);
  }

  // However callbacks feed and clear watchers: of two slots of a stack the upper one is called first.
  lemma UpperCalledFirst<W>(ds: seq<Dispatch<W>>, calls: seq<Slot<W>>, script: Script<W>, pri: map<W, nat>,
                            dummy: W, p: nat, i: nat, j: nat, w: W, v: W)
    requires Dispatches(ds, calls, script, pri, dummy) && dummy !in pri
    requires p < ds[0].below <= |ds[0].ss| && ds[|calls|].below <= |ds[|calls|].ss| && Top(ds[|calls|]) == None
    requires i < j && OnlyAt(ds[0].ss, p, i, w) && OnlyAt(ds[0].ss, p, j, v)
    requires w in pri && v in pri && pri[w] == p == pri[v]
    ensures CalledBefore(calls, script, v, w, dummy)
  {
    var n := EverySlotTaken(ds, calls, script, pri, dummy, p, i);
    var m := UpperFirst(ds, calls, script, pri, dummy, p, i, j, n);
    TakenInOrder(ds, calls, script, pri, dummy, p, j, v, m, p, i, w, n);
  }

  // And of two stacks the one of the higher priority is called first, as far as it was there from the start.
  lemma HigherCalledFirst<W>(ds: seq<Dispatch<W>>, calls: seq<Slot<W>>, script: Script<W>, pri: map<W, nat>,
                             dummy: W, p: nat, i: nat, w: W, q: nat, j: nat, v: W)
    requires Dispatches(ds, calls, script, pri, dummy) && dummy !in pri
    requires p < q < ds[0].below <= |ds[0].ss| && ds[|calls|].below <= |ds[|calls|].ss| && Top(ds[|calls|]) == None
    requires OnlyAt(ds[0].ss, p, i, w) && OnlyAt(ds[0].ss, q, j, v)
    requires w in pri && v in pri && pri[w] == p && pri[v] == q
    ensures CalledBefore(calls, script, v, w, dummy)
  {
    var n := EverySlotTaken(ds, calls, script, pri, dummy, p, i);
    var m := HigherFirst(ds, calls, script, pri, dummy, p, i, q, j, n);
    TakenInOrder(ds, calls, script, pri, dummy, q, j, v, m, p, i, w, n);
  }
}
