/**
  The pending stacks of a loop (deps/ev/ev.c), with the back-index that each
  watcher keeps.
 */
module PendingQueues {
  import opened Watchers
  import opened PendingStacks
  import opened CallOrder

  class PendingQueue {
    var pendings: Stacks<Watcher>
    var rfeeds: seq<Watcher>      // to be fed, the last one first
    const pending_w: Watcher      // the dummy
    ghost const ws: set<Watcher>  // the watchers of the loop

    // a pending watcher is in its slot (verify_watcher)
    ghost predicate Booked(w: Watcher)
      requires |pendings| == NUMPRI
      reads this, w`pending, w`priority
    {
      w.pending != 0 ==>
        && w.HasPriority()
        && 1 <= w.pending <= |pendings[w.AbsPri()]|
        && pendings[w.AbsPri()][w.pending - 1].w == w
    }

    // a slot of the stack for priority p holds the dummy or a watcher that knows about it
    ghost predicate Owned(st: Stack<Watcher>, p: int)
      reads this, ws`pending, ws`priority
    {
      forall i :: 0 <= i < |st| && st[i].w != pending_w ==>
        st[i].w in ws && st[i].w.AbsPri() == p && st[i].w.pending == i + 1
    }

    ghost predicate Valid()
      reads this, ws`pending, ws`priority
    {
      && |pendings| == NUMPRI && pending_w !in ws
      && (forall w :: w in ws ==> Booked(w))
      && (forall p :: 0 <= p < NUMPRI ==> Owned(pendings[p], p))
    }

    constructor (pending_w: Watcher, ghost ws: set<Watcher>)
      requires pending_w !in ws && forall w :: w in ws ==> w.pending == 0
      ensures Valid() && this.pending_w == pending_w && this.ws == ws
      ensures pendings == [[], [], [], [], []] && rfeeds == []
    {
      rfeeds := [];
      pendings := [[], [], [], [], []];
      this.pending_w := pending_w;
      this.ws := ws;
    }

    // The back-index says what a search of the stack would find.
    lemma SlotOf(w: Watcher)
      requires Valid() && w in ws && w.HasPriority()
      ensures var st := pendings[w.AbsPri()];
              IndexOf(st, w) == if w.pending != 0 then w.pending - 1 else |st|
    {
      var p := w.AbsPri();
      assert Booked(w) && Owned(pendings[p], p);
      var i := IndexOf(pendings[p], w);
      if i < |pendings[p]| {
        assert pendings[p][i].w == w;
      }
    }

    // a watcher is found on the stack of its priority only, and there once
    lemma OnlySlot(p: nat, i: nat)
      requires Valid() && p < NUMPRI && i < |pendings[p]| && pendings[p][i].w != pending_w
      ensures pendings[p][i].w in ws && pendings[p][i].w.AbsPri() == p && OnlyAt(pendings, p, i, pendings[p][i].w)
    {
      var w := pendings[p][i].w;
      assert Owned(pendings[p], p);
      forall q, k | 0 <= q < NUMPRI && 0 <= k < |pendings[q]| && (q != p || k != i)
        ensures pendings[q][k].w != w
      {
        assert Owned(pendings[q], q);
      }
    }

    lemma EachOneSlot(prim: map<Watcher, nat>)
      requires Valid() && Agrees(prim)
      ensures pending_w !in prim && OneSlotEach(pendings, prim)
    {
      forall p, i | 0 <= p < NUMPRI && 0 <= i < |pendings[p]| && pendings[p][i].w in prim
        ensures prim[pendings[p][i].w] == p && OnlyAt(pendings, p, i, pendings[p][i].w)
      {
        OnlySlot(p, i);
      }
    }

    // Only w and its stack changed, and they still agree: everything does.
    twostate lemma OneStackChanged(w: Watcher)
      requires old(Valid()) && w in ws && w.HasPriority() && w.priority == old(w.priority)
      requires |pendings| == NUMPRI && Booked(w) && Owned(pendings[w.AbsPri()], w.AbsPri())
      requires |pendings[w.AbsPri()]| >= |old(pendings)[w.AbsPri()]|
      requires forall v :: v in ws && v != w ==> v.pending == old(v.pending) && v.priority == old(v.priority)
      requires forall q :: 0 <= q < NUMPRI && q != w.AbsPri() ==> pendings[q] == old(pendings[q])
      requires forall i :: 0 <= i < |old(pendings)[w.AbsPri()]| && old(pendings)[w.AbsPri()][i].w != w ==>
        pendings[w.AbsPri()][i].w == old(pendings)[w.AbsPri()][i].w
      ensures Valid()
    {
      forall q | 0 <= q < NUMPRI && q != w.AbsPri()
        ensures Owned(pendings[q], q)
      {
        assert old(Owned(pendings[q], q));
      }
      forall v | v in ws && v != w
        ensures Booked(v)
      {
        assert old(Booked(v));
      }
    }

    // ev_feed_event
    method FeedEvent(w: Watcher, revents: Mask)
      requires Valid() && w in ws && w.HasPriority()
      modifies this`pendings, w`pending
      ensures Valid() && pendings == FeedAt(old(pendings), w.AbsPri(), w, revents)
    {
      SlotOf(w);
      var pri := w.AbsPri();
      var st := pendings[pri];
      assert Owned(st, pri);
      if w.pending != 0 {
        var s := st[w.pending - 1];
        pendings := pendings[pri := st[w.pending - 1 := s.(events := s.events + revents)]];
      } else {
        pendings := pendings[pri := st + [Slot(w, revents)]];
        w.pending := |st| + 1;
      }
      OneStackChanged(w);
    }

    // the stacks with the slot of w given to the dummy
    ghost function Without(ss: Stacks<Watcher>, w: Watcher): (r: Stacks<Watcher>)
      requires |ss| == NUMPRI
      reads w`priority
      ensures |r| == NUMPRI
    {
      if w.HasPriority() then ss[w.AbsPri() := Clear(ss[w.AbsPri()], w, pending_w)] else ss
    }

    // clear_pending
    method ClearPending(w: Watcher)
      requires Valid() && w in ws
      modifies this`pendings, w`pending
      ensures Valid() && w.pending == 0
      ensures pendings == Without(old(pendings), w)
    {
      assert Booked(w);
      if w.HasPriority() {
        SlotOf(w);
      }
      if w.pending != 0 {
        var pri := w.AbsPri();
        var st := pendings[pri];
        assert Owned(st, pri);
        pendings := pendings[pri := st[w.pending - 1 := st[w.pending - 1].(w := pending_w)]];
        w.pending := 0;
        OneStackChanged(w);
      }
    }

    // pri_adjust
    method PriAdjust(w: Watcher)
      requires Valid() && w in ws
      modifies w`priority
      ensures Valid() && w.HasPriority()
      ensures old(w.HasPriority()) ==> w.priority == old(w.priority)
      ensures old(w.priority) < EV_MINPRI ==> w.priority == EV_MINPRI
      ensures old(w.priority) > EV_MAXPRI ==> w.priority == EV_MAXPRI
    {
      var pri := w.priority;
      pri := if pri < EV_MINPRI then EV_MINPRI else pri;
      pri := if pri > EV_MAXPRI then EV_MAXPRI else pri;
      w.priority := pri;
    }

    // ---------- ev_invoke_pending ----------

    // prim is a record of the priorities, good for as long as nobody changes one
    ghost predicate Agrees(prim: map<Watcher, nat>)
      reads ws`priority
    {
      && prim.Keys <= ws
      && forall w :: w in ws ==> (w in prim <==> w.HasPriority()) && (w in prim ==> prim[w] == w.AbsPri())
    }

    // take the top slot of a stack
    method Pop(pri: nat) returns (s: Slot<Watcher>)
      requires Valid() && pri < NUMPRI && pendings[pri] != []
      modifies this`pendings, ws`pending, pending_w`pending
      ensures Valid()
      ensures var st := old(pendings)[pri];
              s == st[|st| - 1] && pendings == old(pendings)[pri := st[..|st| - 1]]
    {
      var st := pendings[pri];
      s := st[|st| - 1];
      assert Owned(st, pri);
      pendings := pendings[pri := st[..|st| - 1]];
      s.w.pending := 0;
      forall q | 0 <= q < NUMPRI
        ensures Owned(pendings[q], q)
      {
        assert old(Owned(pendings[q], q));
      }
      forall v | v in ws
        ensures Booked(v)
      {
        assert old(Booked(v));
      }
    }

    // one thing a callback does
    method Perform(op: Op<Watcher>, ghost prim: map<Watcher, nat>)
      requires Valid() && Agrees(prim) && Behaves([op], prim, NUMPRI)
      modifies this`pendings, ws`pending
      ensures Valid() == true && Agrees(prim) == true
      ensures !op.OpPop? && op.w in prim && prim[op.w] < NUMPRI && pendings == Act(old(pendings), op, prim, pending_w)
    {
      assert [op][0] == op;
      match op
      case OpFeed(w, m) => FeedEvent(w, m);
      case OpClear(w) => ClearPending(w);
    }

    // the part of a callback that concerns pending events
    method Callback(ops: seq<Op<Watcher>>, ghost prim: map<Watcher, nat>)
      requires Valid() && Agrees(prim) && Behaves(ops, prim, NUMPRI)
      modifies this`pendings, ws`pending
      ensures Valid() && Agrees(prim) && pendings == ActAll(old(pendings), ops, prim, pending_w)
    {
      for i := 0 to |ops|
        invariant Valid() == true && Agrees(prim) == true
        invariant pendings == ActAll(old(pendings), ops[..i], prim, pending_w)
      {
        assert ops[..i + 1][..i] == ops[..i];
        Perform(ops[i], prim);
      }
      assert ops[..|ops|] == ops;
    }

    // feed_reverse
    method FeedReverse(w: Watcher)
      modifies this`rfeeds
      ensures rfeeds == old(rfeeds) + [w]
      ensures old(Valid()) ==> Valid()
    {
      rfeeds := rfeeds + [w];
    }

    // every watcher to be fed is known
    ghost predicate Feedable(ws': seq<Watcher>)
      reads ws`priority
    {
      forall w :: w in ws' ==> w in ws && w.HasPriority()
    }

    // one turn of the loop of feed_reverse_done
    method FeedLast(revents: Mask, ghost prim: map<Watcher, nat>)
      requires Valid() && Agrees(prim) && rfeeds != [] && Feedable(rfeeds) && Ranked(rfeeds, prim, NUMPRI)
      modifies this`rfeeds, this`pendings, ws`pending
      ensures Valid() == true && Agrees(prim) == true
      ensures rfeeds == old(rfeeds)[..|old(rfeeds)| - 1] && Feedable(rfeeds) && Ranked(rfeeds, prim, NUMPRI)
      ensures FeedBackAll(pendings, rfeeds, revents, prim) == FeedBackAll(old(pendings), old(rfeeds), revents, prim)
    {
      var w := rfeeds[|rfeeds| - 1];
      rfeeds := rfeeds[..|rfeeds| - 1];
      assert w in old(rfeeds) && forall v :: v in rfeeds ==> v in old(rfeeds);
      FeedEvent(w, revents);
    }

    // feed_reverse_done
    method FeedReverseDone(revents: Mask, ghost prim: map<Watcher, nat>)
      requires Valid() && Agrees(prim) && rfeeds != []
      requires forall w :: w in rfeeds ==> w in ws && w.HasPriority()
      modifies this`rfeeds, this`pendings, ws`pending
      ensures Valid() && rfeeds == []
      ensures Ranked(old(rfeeds), prim, NUMPRI)
      ensures pendings == FeedBackAll(old(pendings), old(rfeeds), revents, prim)
    {
      ghost var fed, ss := rfeeds, pendings;
      assert Ranked(rfeeds, prim, NUMPRI);
      while rfeeds != []
        invariant Valid() == true && Agrees(prim) == true && Feedable(rfeeds) && Ranked(rfeeds, prim, NUMPRI)
        invariant FeedBackAll(pendings, rfeeds, revents, prim) == FeedBackAll(ss, fed, revents, prim)
        decreases |rfeeds|
      {
        FeedLast(revents, prim);
      }
    }

    // call the watcher on top of the stack for pri, the highest nonempty one
    method InvokeTop(pri: nat, ops: seq<Op<Watcher>>, ghost below: nat, ghost prim: map<Watcher, nat>)
      returns (p: Slot<Watcher>)
      requires Valid() && Agrees(prim) && pri < below <= NUMPRI && pendings[pri] != []
      requires forall q :: pri < q < below ==> pendings[q] == []
      requires Behaves(ops, prim, NUMPRI)
      modifies this`pendings, ws`pending, pending_w`pending
      ensures Valid() && Agrees(prim)
      ensures DispatchStep(old(Dispatch(pendings, below)), Dispatch(pendings, pri + 1), p, ops, prim, pending_w)
    {
      assert Highest(pendings, below) == pri;
      p := Pop(pri);
      Callback(ops, prim);
    }

    // Of two pending watchers the one with the greater priority is called first, whatever callbacks do.
    lemma GreaterPriorityFirst(v: Watcher, w: Watcher, prim: map<Watcher, nat>, ds: seq<Dispatch<Watcher>>,
                               calls: seq<Slot<Watcher>>, script: Script<Watcher>)
      requires Valid() && Agrees(prim) && v in ws && w in ws && v.pending != 0 && w.pending != 0
      requires v.priority > w.priority
      requires Dispatches(ds, calls, script, prim, pending_w) && ds[0] == Dispatch(pendings, NUMPRI)
      requires ds[|calls|].below <= |ds[|calls|].ss| && Top(ds[|calls|]) == None
      ensures CalledBefore(calls, script, v, w, pending_w)
    {
      EachOneSlot(prim);
      assert Booked(v) && Booked(w);
      SlotOf(v);
      SlotOf(w);
      HigherCalledFirst(ds, calls, script, prim, pending_w, w.AbsPri(), w.pending - 1, w, v.AbsPri(), v.pending - 1, v);
    }

    // ev_invoke_pending
    method InvokePending(script: Script<Watcher>, ghost prim: map<Watcher, nat>)
      returns (calls: seq<Slot<Watcher>>, ghost ds: seq<Dispatch<Watcher>>)
      requires Valid() && Agrees(prim) && BehavesAll(script, prim, NUMPRI)
      modifies this`pendings, ws`pending, pending_w`pending
      ensures Valid() && Dispatches(ds, calls, script, prim, pending_w)
      ensures ds[0] == Dispatch(old(pendings), NUMPRI)
      ensures pendings == ds[|calls|].ss && ds[|calls|].below <= NUMPRI && Top(ds[|calls|]) == None
    {
      calls := [];
      ghost var d := Dispatch(pendings, NUMPRI);
      ds := [d];
      var pri := NUMPRI;
      while pri > 0
        invariant 0 <= pri <= d.below <= NUMPRI && Valid() == true && Agrees(prim) == true
        invariant Dispatches(ds, calls, script, prim, pending_w) == true
        invariant ds[0] == Dispatch(old(pendings), NUMPRI) && ds[|calls|] == d && d.ss == pendings
        invariant forall q :: pri <= q < d.below ==> pendings[q] == []
      {
        pri := pri - 1;
        while |pendings[pri]| > 0
          invariant 0 <= pri < d.below <= NUMPRI && Valid() == true && Agrees(prim) == true
          invariant Dispatches(ds, calls, script, prim, pending_w) == true
          invariant ds[0] == Dispatch(old(pendings), NUMPRI) && ds[|calls|] == d && d.ss == pendings
          invariant forall q :: pri < q < d.below ==> pendings[q] == []
          decreases if |calls| < |script| then |script| - |calls| else 0, |pendings[pri]|
        {
          var ops := OpsAt(script, |calls|);
          var p := InvokeTop(pri, ops, d.below, prim);
          d := Dispatch(pendings, pri + 1);
          DispatchesMore(ds, calls, d, p, script, prim, pending_w);
          ds, calls := ds + [d], calls + [p];
        }
      }
    }
  }
}
