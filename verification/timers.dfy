/**
  Relative timers of deps/ev/ev.c: start, stop, again, and the step of the loop
  that expires them (timers_reify).
 */
module Timers {
  import opened Watchers
  import opened FourHeap
  import opened TimeHeaps
  import opened PendingStacks
  import opened PendingQueues
  import opened Expiry

  class TimerLoop {
    const timers: TimeHeap
    const pq: PendingQueue
    var activecnt: int
    var mn_now: real

    // the timer heap, and what the loop needs to know about its watchers
    ghost predicate HeapOk()
      reads timers, timers.heap, timers.ws`at, timers.ws`active, timers.ws`repeat, timers.ws`priority
    {
      && timers.Valid() && timers.ws <= pq.ws
      && (forall w :: w in timers.ws ==> w.repeat >= 0.0)
      && (forall w :: w in timers.Members() ==> w.HasPriority())
    }

    ghost predicate Valid()
      reads timers, timers.heap, timers.ws`at, timers.ws`active, timers.ws`repeat, timers.ws`priority
      reads pq, pq.ws`pending, pq.ws`priority
    {
      HeapOk() && pq.Valid()
    }

    constructor (timers: TimeHeap, pq: PendingQueue, now: real)
      requires timers.Valid() && timers.cnt == 0 && pq.Valid() && timers.ws <= pq.ws
      requires forall w :: w in timers.ws ==> w.repeat >= 0.0 && w.active == 0
      ensures Valid() && this.timers == timers && this.pq == pq && mn_now == now
      ensures activecnt == 0
    {
      this.timers, this.pq, mn_now := timers, pq, now;
      activecnt := 0;
    }

    // ev_timer_start
    method Start(w: Watcher)
      requires Valid() && w in timers.ws
      modifies this`activecnt, timers`cnt, timers`heap, timers.heap, timers.ws`active, w`at, w`priority
      ensures Valid() && (timers.heap == old(timers.heap) || fresh(timers.heap))
      ensures pq.pendings == old(pq.pendings)
      ensures timers.Members() == old(timers.Members()) + {w}
      ensures w.at == if old(w.active) != 0 then old(w.at) else old(w.at) + mn_now
      ensures activecnt - timers.cnt == old(activecnt - timers.cnt)
      ensures old(w.active) != 0 ==> timers.cnt == old(timers.cnt)
      ensures old(w.HasPriority()) ==> w.priority == old(w.priority)
    {
      if w.active != 0 {
        assert w in timers.Members();
        return;
      }
      Activate(w);
    }

    method Activate(w: Watcher)
      requires Valid() && w in timers.ws && w.active == 0
      modifies this`activecnt, timers`cnt, timers`heap, timers.heap, timers.ws`active, w`at, w`priority
      ensures HeapOk() == true && pq.Valid() == true
      ensures timers.heap == old(timers.heap) || fresh(timers.heap)
      ensures timers.Members() == old(timers.Members()) + {w}
      ensures w.at == old(w.at) + mn_now
      ensures activecnt == old(activecnt) + 1 && timers.cnt == old(timers.cnt) + 1
      ensures old(w.HasPriority()) ==> w.priority == old(w.priority)
    {
      pq.PriAdjust(w);
      Enter(w, w.at + mn_now);
    }

    method Enter(w: Watcher, at: real)
      requires HeapOk() && pq.Valid() && w in timers.ws && w.active == 0 && w.HasPriority()
      modifies this`activecnt, timers`cnt, timers`heap, timers.heap, timers.ws`active, w`at
      ensures HeapOk() == true && pq.Valid() == true
      ensures timers.heap == old(timers.heap) || fresh(timers.heap)
      ensures timers.Members() == old(timers.Members()) + {w} && w.at == at
      ensures activecnt == old(activecnt) + 1 && timers.cnt == old(timers.cnt) + 1
    {
      ghost var ms := timers.Members();
      assert forall v :: v in ms ==> v.HasPriority();
      activecnt := activecnt + 1;
      timers.StartAt(w, at);
      StillOk(ms + {w});
    }

    // the heap holds ms, all of which have a priority
    lemma StillOk(ms: set<Watcher>)
      requires timers.Valid() && timers.ws <= pq.ws && timers.Members() == ms
      requires forall v :: v in ms ==> v.HasPriority()
      requires forall v :: v in timers.ws ==> v.repeat >= 0.0
      ensures HeapOk()
    {
    }

    // ev_timer_stop
    method Stop(w: Watcher)
      requires Valid() && w in timers.ws
      modifies this`activecnt, timers`cnt, timers.heap, timers.ws`active, w`at, pq`pendings, w`pending
      ensures Valid() && w.pending == 0
      ensures pq.pendings == pq.Without(old(pq.pendings), w)
      ensures timers.Members() == old(timers.Members()) - {w}
      ensures w.at == if old(w.active) == 0 then old(w.at) else old(w.at) - mn_now
      ensures activecnt - timers.cnt == old(activecnt - timers.cnt)
    {
      pq.ClearPending(w);
      if w.active == 0 {
        assert w !in timers.Members();
        return;
      }
      Deactivate(w);
    }

    method Deactivate(w: Watcher)
      requires HeapOk() && pq.Valid() && w in timers.ws && w.active != 0
      modifies this`activecnt, timers`cnt, timers.heap, timers.ws`active, w`at
      ensures HeapOk() == true && pq.Valid() == true
      ensures timers.Members() == old(timers.Members()) - {w} && w.at == old(w.at) - mn_now
      ensures activecnt == old(activecnt) - 1 && timers.cnt == old(timers.cnt) - 1
    {
      timers.StopAt(w, w.at - mn_now);
      activecnt := activecnt - 1;
    }

    // ev_timer_again
    method Again(w: Watcher)
      requires Valid() && w in timers.ws
      modifies this`activecnt, timers`cnt, timers`heap, timers.heap, timers.ws`active
      modifies w`at, w`priority, w`pending, pq`pendings
      ensures Valid() && (timers.heap == old(timers.heap) || fresh(timers.heap)) && w.pending == 0
      ensures pq.pendings == old(pq.Without(pq.pendings, w))
      ensures timers.Members() == if w.repeat != 0.0 then old(timers.Members()) + {w} else old(timers.Members()) - {w}
      ensures w.at == if w.repeat != 0.0 then mn_now + w.repeat
                      else if old(w.active) != 0 then old(w.at) - mn_now else old(w.at)
      ensures activecnt - timers.cnt == old(activecnt - timers.cnt)
      ensures old(w.HasPriority()) ==> w.priority == old(w.priority)
    {
      pq.ClearPending(w);
      if w.active != 0 {
        if w.repeat != 0.0 {
          assert w in timers.Members();
          timers.MoveTo(w, mn_now + w.repeat);
        } else {
          StopCleared(w);
        }
      } else if w.repeat != 0.0 {
        StartAnew(w);
      } else {
        assert w !in timers.Members();
      }
    }

    // ev_timer_stop, when the timer is active and not pending
    method StopCleared(w: Watcher)
      requires Valid() && w in timers.ws && w.active != 0 && w.pending == 0
      modifies this`activecnt, timers`cnt, timers.heap, timers.ws`active, w`at, pq`pendings, w`pending
      ensures Valid() && w.pending == 0 && pq.pendings == old(pq.pendings)
      ensures timers.Members() == old(timers.Members()) - {w}
      ensures w.at == old(w.at) - mn_now
      ensures activecnt - timers.cnt == old(activecnt - timers.cnt)
    {
      assert w in timers.Members();
      pq.SlotOf(w);
      Stop(w);
    }

    // ev_at (w) = w->repeat; ev_timer_start (w)
    method StartAnew(w: Watcher)
      requires Valid() && w in timers.ws && w.active == 0
      modifies this`activecnt, timers`cnt, timers`heap, timers.heap, timers.ws`active, w`at, w`priority
      ensures Valid() && (timers.heap == old(timers.heap) || fresh(timers.heap)) && pq.pendings == old(pq.pendings)
      ensures timers.Members() == old(timers.Members()) + {w}
      ensures w.at == w.repeat + mn_now
      ensures activecnt - timers.cnt == old(activecnt - timers.cnt)
      ensures old(w.HasPriority()) ==> w.priority == old(w.priority)
    {
      w.at := w.repeat;
      Start(w);
    }

    // ---------- expiry ----------

    // the key of a timer that expired at `at`
    static ghost function Renewed(at: real, repeat: real, now: real): real {
      if repeat == 0.0 then at - now
      else if at + repeat < now then now
      else at + repeat
    }

    // a repeating timer gets its next key, but none in the past
    method RenewRoot(w: Watcher)
      requires Valid() && timers.cnt > 0 && w == timers.heap[HEAP0].w && w in timers.ws && w.repeat != 0.0
      modifies timers.heap, timers.ws`active, w`at
      ensures HeapOk() == true && pq.Valid() == true && timers.Members() == old(timers.Members())
      ensures w.at == Renewed(old(w.at), w.repeat, mn_now)
    {
      var at := w.at + w.repeat;
      timers.MoveRoot(w, if at < mn_now then mn_now else at);
    }

    // one turn of the loop of timers_reify
    method ExpireRoot() returns (w: Watcher)
      requires Valid() && timers.cnt > 0 && timers.heap[HEAP0].at < mn_now
      modifies this`activecnt, timers`cnt, timers.heap, timers.ws`active, timers.ws`at
      modifies pq`pendings, pq`rfeeds, timers.ws`pending
      ensures HeapOk() == true && pq.Valid() == true && pq.rfeeds == old(pq.rfeeds) + [w]
      ensures w == old(timers.heap[HEAP0].w) && w in old(timers.Members()) && old(w.at) == old(timers.heap[HEAP0].at)
      ensures w.at == Renewed(old(w.at), w.repeat, mn_now)
      ensures forall v :: v in timers.ws && v != w ==> v.at == old(v.at)
      ensures timers.Members() == if w.repeat != 0.0 then old(timers.Members()) else old(timers.Members()) - {w}
      ensures pq.pendings == if w.repeat != 0.0 then old(pq.pendings) else pq.Without(old(pq.pendings), w)
      ensures activecnt - timers.cnt == old(activecnt - timers.cnt)
    {
      w := timers.heap[HEAP0].w;
      assert w in timers.Members() && w.at == timers.heap[HEAP0].at by {
        timers.RootIsFirst();
      }
      RenewOrStop(w);
      pq.FeedReverse(w);
    }

    method RenewOrStop(w: Watcher)
      requires Valid() && timers.cnt > 0 && w == timers.heap[HEAP0].w && w in timers.ws
      modifies this`activecnt, timers`cnt, timers.heap, timers.ws`active, w`at, pq`pendings, w`pending
      ensures HeapOk() == true && pq.Valid() == true
      ensures w.at == Renewed(old(w.at), w.repeat, mn_now)
      ensures timers.Members() == if w.repeat != 0.0 then old(timers.Members()) else old(timers.Members()) - {w}
      ensures pq.pendings == if w.repeat != 0.0 then old(pq.pendings) else pq.Without(old(pq.pendings), w)
      ensures activecnt - timers.cnt == old(activecnt - timers.cnt)
    {
      if w.repeat != 0.0 {
        RenewRoot(w);
      } else {
        assert w.active != 0 by {
          timers.RootIsFirst();
        }
        Stop(w);
      }
    }

    // the timers that stay active after fed expired: all but the one-shots among them
    ghost function Remaining(fed: seq<Watcher>, ms: set<Watcher>): set<Watcher>
      requires ms <= timers.ws
      reads this, timers.ws`repeat
    {
      set w | w in ms && (w !in fed || w.repeat != 0.0)
    }

    // what the expiry of fed leaves of the heap
    ghost predicate Rescheduled(fed: seq<Watcher>, ms: set<Watcher>, key: map<Watcher, real>)
      requires key.Keys == timers.ws && ms <= timers.ws
      reads this, timers, timers.ws`at, timers.ws`active, timers.ws`repeat
    {
      && timers.Members() == Remaining(fed, ms)
      && forall w :: w in timers.ws ==> w.at == if w in fed then Renewed(key[w], w.repeat, mn_now) else key[w]
    }

    // a timer at the root that is due has not been expired before
    lemma NotYetExpired(fed: seq<Watcher>, ms: set<Watcher>, key: map<Watcher, real>, w: Watcher)
      requires Valid() && key.Keys == timers.ws && ms <= timers.ws && Rescheduled(fed, ms, key)
      requires w in timers.Members() && w.at < mn_now
      ensures w in ms && w !in fed && w.at == key[w]
    {
    }

    lemma RootIsNext(fed: seq<Watcher>, ms: set<Watcher>, key: map<Watcher, real>)
      requires Valid() && key.Keys == timers.ws && ms <= timers.ws && Rescheduled(fed, ms, key)
      requires timers.cnt > 0 && timers.heap[HEAP0].at < mn_now
      ensures var w := timers.heap[HEAP0].w; w in ms && w !in fed && w.at == key[w]
      ensures forall v :: v in ms && v !in fed ==> timers.heap[HEAP0].at <= key[v]
    {
      timers.RootIsFirst();
      NotYetExpired(fed, ms, key, timers.heap[HEAP0].w);
      forall v | v in ms && v !in fed
        ensures timers.heap[HEAP0].at <= key[v]
      {
        assert v in timers.Members() && v.at == key[v];
      }
    }

    lemma RemainingMore(fed: seq<Watcher>, w: Watcher, ms: set<Watcher>)
      requires ms <= timers.ws && w in ms && w !in fed
      ensures Remaining(fed + [w], ms) == if w.repeat != 0.0 then Remaining(fed, ms) else Remaining(fed, ms) - {w}
    {
    }

    lemma NothingDue()
      requires Valid() && (timers.cnt == 0 || timers.heap[HEAP0].at >= mn_now)
      ensures forall w :: w in timers.Members() ==> w.at >= mn_now
    {
      if timers.cnt == 0 {
        timers.EmptyHeap();
      } else {
        timers.RootIsFirst();
      }
    }

    // the heap after one more expiry; keys and members are those before it
    lemma RescheduledMore(fed: seq<Watcher>, w: Watcher, ms: set<Watcher>, key: map<Watcher, real>,
                          keys: map<Watcher, real>, members: set<Watcher>)
      requires key.Keys == timers.ws == keys.Keys && ms <= timers.ws && w in ms && w !in fed
      requires members == Remaining(fed, ms) && keys[w] == key[w]
      requires forall v :: v in timers.ws ==> keys[v] == if v in fed then Renewed(key[v], v.repeat, mn_now) else key[v]
      requires forall v :: v in timers.ws ==> v.at == if v == w then Renewed(keys[w], w.repeat, mn_now) else keys[v]
      requires timers.Members() == if w.repeat != 0.0 then members else members - {w}
      ensures Rescheduled(fed + [w], ms, key)
    {
      RemainingMore(fed, w, ms);
    }

    // one turn of the loop, with what the earlier turns did to the heap
    method ExpireOne(ghost ms: set<Watcher>, ghost key: map<Watcher, real>) returns (w: Watcher)
      requires Valid() && timers.cnt > 0 && timers.heap[HEAP0].at < mn_now
      requires key.Keys == timers.ws && ms <= timers.ws
      requires ExpiredInOrder(pq.rfeeds, ms, key, mn_now) && Rescheduled(pq.rfeeds, ms, key)
      modifies this`activecnt, timers`cnt, timers.heap, timers.ws`active, timers.ws`at
      modifies pq`pendings, pq`rfeeds, timers.ws`pending
      ensures HeapOk() == true && pq.Valid() == true && pq.rfeeds == old(pq.rfeeds) + [w]
      ensures ExpiredInOrder(pq.rfeeds, ms, key, mn_now) == true && Rescheduled(pq.rfeeds, ms, key) == true
      ensures w in ms && w !in old(pq.rfeeds) && w.HasPriority()
      ensures pq.pendings == if w.repeat != 0.0 then old(pq.pendings) else pq.Without(old(pq.pendings), w)
      ensures activecnt - timers.cnt == old(activecnt - timers.cnt)
    {
      ghost var fed, r := pq.rfeeds, timers.heap[HEAP0].w;
      ghost var keys, members := timers.Keys(), timers.Members();
      RootIsNext(fed, ms, key);
      OneMoreExpired(fed, r, ms, key, mn_now);
      w := ExpireRoot();
      RescheduledMore(fed, w, ms, key, keys, members);
    }

    ghost predicate RootIsDue()
      requires timers.Sized()
      reads this, timers, timers.heap
    {
      timers.cnt > 0 && timers.heap[HEAP0].at < mn_now
    }

    // Part of the way through the expiry of the watchers ms with the given keys: what became of the heap and
    // of the pending stacks ss.
    ghost predicate Midway(ms: set<Watcher>, key: map<Watcher, real>, ss: Stacks<Watcher>,
                           shots: set<Watcher>, pri: map<Watcher, nat>, spare: int)
      reads this, timers, timers.heap, timers.ws`at, timers.ws`active, timers.ws`priority
      reads timers.ws`repeat
      reads pq, pq.ws`pending, pq.ws`priority
    {
      && HeapOk() && pq.Valid() && key.Keys == timers.ws && ms <= timers.ws
      && ExpiredInOrder(pq.rfeeds, ms, key, mn_now) && Rescheduled(pq.rfeeds, ms, key)
      && pq.pendings == ClearEach(ss, pq.rfeeds, shots, pri, pq.pending_w)
      && activecnt - timers.cnt == spare
    }

    // one turn of the loop
    method ExpireNext(ghost ms: set<Watcher>, ghost key: map<Watcher, real>, ghost ss: Stacks<Watcher>,
                      ghost shots: set<Watcher>, ghost pri: map<Watcher, nat>, ghost spare: int) returns (w: Watcher)
      requires Midway(ms, key, ss, shots, pri, spare) && timers.cnt > 0 && timers.heap[HEAP0].at < mn_now
      requires forall v :: v in timers.ws ==> (v in shots <==> v.repeat == 0.0)
      requires forall v :: v in timers.ws && v.HasPriority() ==> v in pri && pri[v] == v.AbsPri()
      modifies this`activecnt, timers`cnt, timers.heap, timers.ws`active, timers.ws`at
      modifies pq`pendings, pq`rfeeds, timers.ws`pending
      ensures Midway(ms, key, ss, shots, pri, spare) == true
      ensures pq.rfeeds == old(pq.rfeeds) + [w] && w in ms && w !in old(pq.rfeeds)
    {
      ghost var fed := pq.rfeeds;
      w := ExpireOne(ms, key);
      ClearOneMore(ss, fed, w, shots, pri, pq.pending_w);
    }

    lemma NothingExpired(ms: set<Watcher>, key: map<Watcher, real>)
      requires Valid() && ms == timers.Members() && key == timers.Keys()
      ensures ExpiredInOrder([], ms, key, mn_now) && Rescheduled([], ms, key)
    {
    }

    // the loop of timers_reify
    method ExpireAll(ghost ms: set<Watcher>, ghost key: map<Watcher, real>, ghost ss: Stacks<Watcher>,
                     ghost shots: set<Watcher>, ghost pri: map<Watcher, nat>, ghost spare: int)
      requires Midway(ms, key, ss, shots, pri, spare) && pq.rfeeds == [] && RootIsDue()
      requires forall v :: v in timers.ws ==> (v in shots <==> v.repeat == 0.0)
      requires forall v :: v in timers.ws && v.HasPriority() ==> v in pri && pri[v] == v.AbsPri()
      modifies this`activecnt, timers`cnt, timers.heap, timers.ws`active, timers.ws`at
      modifies pq`pendings, pq`rfeeds, timers.ws`pending
      ensures Midway(ms, key, ss, shots, pri, spare) == true && pq.rfeeds != [] && !RootIsDue()
    {
      while timers.cnt > 0 && timers.heap[HEAP0].at < mn_now
        invariant Midway(ms, key, ss, shots, pri, spare) == true && (pq.rfeeds != [] || RootIsDue())
        decreases ms - Elements(pq.rfeeds)
      {
        ghost var fed := pq.rfeeds;
        var w := ExpireNext(ms, key, ss, shots, pri, spare);
        ElementsMore(fed, w);
      }
    }

    // feed_reverse_done, which leaves the heap alone
    method FeedExpired(ghost ms: set<Watcher>, ghost key: map<Watcher, real>, ghost pri: map<Watcher, nat>)
      requires HeapOk() && pq.Valid() && pq.Agrees(pri) && pq.rfeeds != [] && !RootIsDue()
      requires key.Keys == timers.ws && ms <= timers.ws
      requires ExpiredInOrder(pq.rfeeds, ms, key, mn_now) && Rescheduled(pq.rfeeds, ms, key)
      requires forall w :: w in ms ==> w in timers.ws && w.HasPriority()
      modifies pq`pendings, pq`rfeeds, pq.ws`pending
      ensures HeapOk() == true && pq.Valid() == true && pq.rfeeds == []
      ensures Rescheduled(old(pq.rfeeds), ms, key) == true
      ensures forall w :: w in timers.Members() ==> w.at >= mn_now
      ensures Ranked(old(pq.rfeeds), pri, NUMPRI) && activecnt - timers.cnt == old(activecnt - timers.cnt)
      ensures pq.pendings == FeedBackAll(old(pq.pendings), old(pq.rfeeds), {TimerDue}, pri)
    {
      NothingDue();
      ghost var fed := pq.rfeeds;
      assert forall w :: w in fed ==> w in ms;
      pq.FeedReverseDone({TimerDue}, pri);
    }

    // the loop and the feeding
    method ExpireBatch(ghost ms: set<Watcher>, ghost key: map<Watcher, real>,
                       ghost shots: set<Watcher>, ghost pri: map<Watcher, nat>) returns (ghost fed: seq<Watcher>)
      requires Valid() && pq.rfeeds == [] && ms == timers.Members() && key == timers.Keys() && pq.Agrees(pri)
      requires forall v :: v in timers.ws ==> (v in shots <==> v.repeat == 0.0)
      requires timers.cnt > 0 && timers.heap[HEAP0].at < mn_now
      modifies this`activecnt, timers`cnt, timers.heap, timers.ws`active, timers.ws`at
      modifies pq`pendings, pq`rfeeds, pq.ws`pending
      ensures HeapOk() == true && pq.Valid() == true && pq.rfeeds == []
      ensures ExpiredInOrder(fed, ms, key, mn_now) == true && Rescheduled(fed, ms, key) == true
      ensures forall w :: w in timers.Members() ==> w.at >= mn_now
      ensures Ranked(fed, pri, NUMPRI)
      ensures pq.pendings == FeedBackAll(ClearEach(old(pq.pendings), fed, shots, pri, pq.pending_w), fed, {TimerDue}, pri)
      ensures activecnt - timers.cnt == old(activecnt - timers.cnt)
    {
      NothingExpired(ms, key);
      ExpireAll(ms, key, pq.pendings, shots, pri, activecnt - timers.cnt);
      fed := pq.rfeeds;
      FeedExpired(ms, key, pri);
    }

    // timers_reify
    method TimersReify(ghost shots: set<Watcher>, ghost pri: map<Watcher, nat>) returns (ghost fed: seq<Watcher>)
      requires Valid() && pq.rfeeds == [] && pq.Agrees(pri)
      requires forall v :: v in timers.ws ==> (v in shots <==> v.repeat == 0.0)
      modifies this`activecnt, timers`cnt, timers.heap, timers.ws`active, timers.ws`at
      modifies pq`pendings, pq`rfeeds, pq.ws`pending
      ensures HeapOk() == true && pq.Valid() == true && pq.rfeeds == []
      ensures ExpiredInOrder(fed, old(timers.Members()), old(timers.Keys()), mn_now) == true
      ensures Rescheduled(fed, old(timers.Members()), old(timers.Keys())) == true
      ensures forall w :: w in timers.Members() ==> w.at >= mn_now
      ensures Ranked(fed, pri, NUMPRI)
      ensures pq.pendings == FeedBackAll(ClearEach(old(pq.pendings), fed, shots, pri, pq.pending_w),
                                         fed, {TimerDue}, pri)
      ensures activecnt - timers.cnt == old(activecnt - timers.cnt)
    {
      ghost var ms, key := timers.Members(), timers.Keys();
      fed := [];
      if timers.cnt > 0 && timers.heap[HEAP0].at < mn_now {
        fed := ExpireBatch(ms, key, shots, pri);
      } else {
        NothingDue();
        NothingExpired(ms, key);
      }
    }

    // what was due has expired
    lemma AllDueExpired(fed: seq<Watcher>, ms: set<Watcher>, key: map<Watcher, real>)
      requires ms <= timers.ws == key.Keys
      requires Rescheduled(fed, ms, key) && forall w :: w in timers.Members() ==> w.at >= mn_now
      ensures AllDue(fed, ms, key, mn_now) == true
    {
    }

    // timers_reify, and then ev_invoke_pending: whatever the callbacks feed and clear, expired timers of one
    // priority that were not pending before are called in order of expiry
    method ReifyAndInvoke(script: Script<Watcher>, ghost shots: set<Watcher>, ghost pri: map<Watcher, nat>)
      returns (ghost fed: seq<Watcher>, calls: seq<Slot<Watcher>>, ghost ds: seq<Dispatch<Watcher>>)
      requires Valid() && pq.rfeeds == [] && pq.Agrees(pri) && BehavesAll(script, pri, NUMPRI)
      requires forall v :: v in timers.ws ==> (v in shots <==> v.repeat == 0.0)
      modifies this`activecnt, timers`cnt, timers.heap, timers.ws`active, timers.ws`at
      modifies pq`pendings, pq`rfeeds, pq.ws`pending, pq.pending_w`pending
      ensures HeapOk() == true && pq.Valid() == true && pq.rfeeds == []
      ensures ExpiredInOrder(fed, old(timers.Members()), old(timers.Keys()), mn_now) == true
      ensures AllDue(fed, old(timers.Members()), old(timers.Keys()), mn_now) == true
      ensures Rescheduled(fed, old(timers.Members()), old(timers.Keys())) == true
      ensures |old(pq.pendings)| == NUMPRI && Ranked(fed, pri, NUMPRI)
      ensures Completed(ds, calls, script, pri, pq.pending_w,
                        AfterBatch(old(pq.pendings), fed, shots, {TimerDue}, pri, pq.pending_w)) == true
      ensures pq.pendings == ds[|calls|].ss && EachCalled(fed, calls, script, pq.pending_w) == true
      ensures CallsInOrder(fed, old(pq.pendings), pri, calls, script, pq.pending_w) == true
    {
      ghost var ss, ms, key := pq.pendings, timers.Members(), timers.Keys();
      fed := TimersReify(shots, pri);
      AllDueExpired(fed, ms, key);
      pq.EachOneSlot(pri);
      calls, ds := pq.InvokePending(script, pri);
      CalledAsExpired(ss, fed, shots, {TimerDue}, pri, ds, calls, script, pq.pending_w);
    }

    // timers_reschedule
    method TimersReschedule(adjust: real)
      requires Valid()
      modifies timers.heap, timers.ws`at
      ensures Valid() && timers.Members() == old(timers.Members())
      ensures forall w :: w in timers.ws ==> w.at == if w in timers.Members() then old(w.at) + adjust else old(w.at)
    {
      timers.Shift(adjust);
    }

    ghost function State(): TimerState
      reads this`mn_now, timers.ws`at, timers.ws`active, timers.ws`repeat
    {
      TimerState(timers.Keys(), map w | w in timers.ws :: w.repeat, timers.Members(), mn_now)
    }

    // the loop is in state s
    ghost predicate Is(s: TimerState)
      reads this`mn_now, timers.ws`at, timers.ws`active, timers.ws`repeat
    {
      && s.active <= timers.ws == s.at.Keys == s.repeat.Keys && s.now == mn_now
      && forall w :: w in timers.ws ==>
           w.at == s.at[w] && w.repeat == s.repeat[w] && (w.active != 0 <==> w in s.active)
    }

    lemma IsState(s: TimerState)
      ensures Is(s) <==> s == State()
    {
      if Is(s) {
        assert timers.Keys() == s.at && timers.Members() == s.active;
        assert State().repeat == s.repeat;
      }
    }

    lemma ReifyState(s: TimerState, fed: seq<Watcher>)
      requires s.active <= timers.ws == s.at.Keys == s.repeat.Keys && s.now == mn_now
      requires forall w :: w in timers.ws ==> w.repeat == s.repeat[w]
      requires ExpiredInOrder(fed, s.active, s.at, mn_now) && Rescheduled(fed, s.active, s.at)
      requires forall w :: w in timers.Members() ==> w.at >= mn_now
      ensures State() == TimerStep(s, DoReify)
    {
      forall w | w in s.active
        ensures w in fed <==> s.at[w] < s.now
      {
        if w !in fed {
          assert w in timers.Members() && w.at == s.at[w];
        }
      }
      var r := TimerStep(s, DoReify);
      assert timers.Members() == r.active;
      assert timers.Keys() == r.at;
    }

    // all timers but w are as in s
    ghost predicate SameBut(s: TimerState, w: Watcher)
      reads this`mn_now, (timers.ws - {w})`at, (timers.ws - {w})`repeat
    {
      && s.active <= s.at.Keys == timers.ws == s.repeat.Keys && w in timers.ws && s.now == mn_now
      && forall v :: v in timers.ws && v != w ==> v.at == s.at[v] && v.repeat == s.repeat[v]
    }

    lemma SameAtFirst(w: Watcher)
      requires w in timers.ws
      ensures SameBut(State(), w) == true && w in State().at && w.at == State().at[w]
      ensures w in State().repeat && w.repeat == State().repeat[w] && timers.Members() == State().active
    {
    }

    // what a step on the single timer w leaves behind
    lemma OneTimerState(s: TimerState, w: Watcher)
      requires SameBut(s, w)
      ensures State() == TimerState(s.at[w := w.at], s.repeat[w := w.repeat], timers.Members(), s.now)
      ensures w.repeat == s.repeat[w] ==> s.repeat[w := w.repeat] == s.repeat
      ensures w.at == s.at[w] ==> s.at[w := w.at] == s.at
    {
      assert timers.Keys() == s.at[w := w.at];
      assert State().repeat == s.repeat[w := w.repeat];
    }

    method StartOne(w: Watcher, ghost s: TimerState)
      requires Valid() && w in timers.ws
      requires SameBut(s, w) == true && timers.Members() == s.active && w in s.at && w.at == s.at[w]
      requires w in s.repeat && w.repeat == s.repeat[w]
      modifies this`activecnt, timers`cnt, timers`heap, timers.heap, timers.ws`active, w`at, w`priority
      ensures HeapOk() == true && pq.Valid() == true
      ensures timers.heap == old(timers.heap) || fresh(timers.heap)
      ensures SameBut(s, w) == true && w.repeat == s.repeat[w] && timers.Members() == s.active + {w}
      ensures w.at == if w in s.active then s.at[w] else s.at[w] + s.now
      ensures pq.pendings == old(pq.pendings)
      ensures old(w.HasPriority()) ==> w.priority == old(w.priority)
    {
      Start(w);
    }

    method StartStep(w: Watcher)
      requires Valid() && w in timers.ws
      modifies this`activecnt, timers`cnt, timers`heap, timers.heap, timers.ws`active, w`at, w`priority
      ensures HeapOk() == true && pq.Valid() == true
      ensures timers.heap == old(timers.heap) || fresh(timers.heap)
      ensures State() == TimerStep(old(State()), DoStart(w))
      ensures pq.pendings == old(pq.pendings)
      ensures old(w.HasPriority()) ==> w.priority == old(w.priority)
    {
      ghost var s := State();
      SameAtFirst(w);
      StartOne(w, s);
      OneTimerState(s, w);
    }

    method StopOne(w: Watcher, ghost s: TimerState)
      requires Valid() && w in timers.ws
      requires SameBut(s, w) == true && timers.Members() == s.active && w in s.at && w.at == s.at[w]
      requires w in s.repeat && w.repeat == s.repeat[w]
      modifies this`activecnt, timers`cnt, timers.heap, timers.ws`active, w`at, pq`pendings, w`pending
      ensures HeapOk() == true && pq.Valid() == true
      ensures SameBut(s, w) == true && w.repeat == s.repeat[w] && timers.Members() == s.active - {w}
      ensures w.at == if w in s.active then s.at[w] - s.now else s.at[w]
      ensures pq.pendings == pq.Without(old(pq.pendings), w)
    {
      Stop(w);
    }

    method StopStep(w: Watcher)
      requires Valid() && w in timers.ws
      modifies this`activecnt, timers`cnt, timers.heap, timers.ws`active, w`at, pq`pendings, w`pending
      ensures HeapOk() == true && pq.Valid() == true
      ensures State() == TimerStep(old(State()), DoStop(w))
      ensures pq.pendings == pq.Without(old(pq.pendings), w)
    {
      ghost var s := State();
      SameAtFirst(w);
      StopOne(w, s);
      OneTimerState(s, w);
    }

    method AgainOne(w: Watcher, ghost s: TimerState)
      requires Valid() && w in timers.ws
      requires SameBut(s, w) == true && timers.Members() == s.active && w in s.at && w.at == s.at[w]
      requires w in s.repeat && w.repeat == s.repeat[w]
      modifies this`activecnt, timers`cnt, timers`heap, timers.heap, timers.ws`active
      modifies w`at, w`priority, w`pending, pq`pendings
      ensures HeapOk() == true && pq.Valid() == true
      ensures timers.heap == old(timers.heap) || fresh(timers.heap)
      ensures SameBut(s, w) == true && w.repeat == s.repeat[w]
      ensures timers.Members() == if w.repeat != 0.0 then s.active + {w} else s.active - {w}
      ensures w.at == if w.repeat != 0.0 then s.now + w.repeat else if w in s.active then s.at[w] - s.now else s.at[w]
      ensures pq.pendings == pq.Without(old(pq.pendings), w)
      ensures old(w.HasPriority()) ==> w.priority == old(w.priority)
    {
      Again(w);
    }

    lemma AgainState(s: TimerState, w: Watcher)
      requires SameBut(s, w) && w.repeat == s.repeat[w]
      requires timers.Members() == if w.repeat != 0.0 then s.active + {w} else s.active - {w}
      requires w.at == if w.repeat != 0.0 then s.now + w.repeat else if w in s.active then s.at[w] - s.now else s.at[w]
      ensures State() == TimerStep(s, DoAgain(w))
    {
      OneTimerState(s, w);
    }

    method AgainStep(w: Watcher)
      requires Valid() && w in timers.ws
      modifies this`activecnt, timers`cnt, timers`heap, timers.heap, timers.ws`active
      modifies w`at, w`priority, w`pending, pq`pendings
      ensures HeapOk() == true && pq.Valid() == true
      ensures timers.heap == old(timers.heap) || fresh(timers.heap)
      ensures State() == TimerStep(old(State()), DoAgain(w))
      ensures pq.pendings == pq.Without(old(pq.pendings), w)
      ensures old(w.HasPriority()) ==> w.priority == old(w.priority)
    {
      ghost var s := State();
      SameAtFirst(w);
      AgainOne(w, s);
      AgainState(s, w);
    }

    method StartFrom(w: Watcher, ghost s: TimerState)
      requires Valid() && w in timers.ws && Is(s)
      modifies this`activecnt, timers`cnt, timers`heap, timers.heap, timers.ws`active, w`at, w`priority
      ensures HeapOk() == true && pq.Valid() == true
      ensures timers.heap == old(timers.heap) || fresh(timers.heap)
      ensures Is(TimerStep(s, DoStart(w))) == true
      ensures pq.pendings == old(pq.pendings)
      ensures old(w.HasPriority()) ==> w.priority == old(w.priority)
    {
      IsState(s);
      StartStep(w);
      IsState(TimerStep(s, DoStart(w)));
    }

    method StopFrom(w: Watcher, ghost s: TimerState)
      requires Valid() && w in timers.ws && Is(s)
      modifies this`activecnt, timers`cnt, timers.heap, timers.ws`active, w`at, pq`pendings, w`pending
      ensures HeapOk() == true && pq.Valid() == true
      ensures Is(TimerStep(s, DoStop(w))) == true
      ensures pq.pendings == pq.Without(old(pq.pendings), w)
    {
      IsState(s);
      StopStep(w);
      IsState(TimerStep(s, DoStop(w)));
    }

    method AgainFrom(w: Watcher, ghost s: TimerState)
      requires Valid() && w in timers.ws && Is(s)
      modifies this`activecnt, timers`cnt, timers`heap, timers.heap, timers.ws`active
      modifies w`at, w`priority, w`pending, pq`pendings
      ensures HeapOk() == true && pq.Valid() == true
      ensures timers.heap == old(timers.heap) || fresh(timers.heap)
      ensures Is(TimerStep(s, DoAgain(w))) == true
      ensures pq.pendings == pq.Without(old(pq.pendings), w)
      ensures old(w.HasPriority()) ==> w.priority == old(w.priority)
    {
      IsState(s);
      AgainStep(w);
      IsState(TimerStep(s, DoAgain(w)));
    }

    // ev_timer_set, which is not for active timers
    method Set(w: Watcher, after: real, repeat: real)
      requires Valid() && w in timers.ws && w.active == 0 && repeat >= 0.0
      modifies w`at, w`repeat
      ensures HeapOk() == true && pq.Valid() == true
      ensures w.at == after && w.repeat == repeat
    {
      timers.SetIdle(w, after);
      w.repeat := repeat;
    }

    method SetStep(w: Watcher, after: real, repeat: real)
      requires Valid() && w in timers.ws && repeat >= 0.0
      modifies w`at, w`repeat
      ensures HeapOk() == true && pq.Valid() == true
      ensures State() == TimerStep(old(State()), DoSet(w, after, repeat))
    {
      ghost var s := State();
      assert w.active != 0 <==> w in s.active;
      if w.active == 0 {
        Set(w, after, repeat);
      }
      OneTimerState(s, w);
    }

    // a new repeat value, which users may set at any time
    method RepeatStep(w: Watcher, repeat: real)
      requires Valid() && w in timers.ws && repeat >= 0.0
      modifies w`repeat
      ensures HeapOk() == true && pq.Valid() == true
      ensures State() == TimerStep(old(State()), DoRepeat(w, repeat))
    {
      ghost var s := State();
      w.repeat := repeat;
      OneTimerState(s, w);
    }

    method ExpireFrom(ghost s: TimerState, ghost pri: map<Watcher, nat>) returns (ghost fed: seq<Watcher>)
      requires Valid() && Is(s) && pq.rfeeds == [] && pq.Agrees(pri)
      modifies this`activecnt, timers`cnt, timers.heap, timers.ws`active, timers.ws`at
      modifies pq`pendings, pq`rfeeds, pq.ws`pending
      ensures HeapOk() == true && pq.Valid() == true && pq.rfeeds == [] && Is(TimerStep(s, DoReify)) == true
      ensures ExpiredInOrder(fed, s.active, s.at, s.now) == true
      ensures AllDue(fed, s.active, s.at, s.now) == true
      ensures Ranked(fed, pri, NUMPRI) && |old(pq.pendings)| == NUMPRI
      ensures pq.pendings == FeedBackAll(ClearEach(old(pq.pendings), fed, OneShots(s), pri, pq.pending_w), fed, {TimerDue}, pri)
    {
      IsState(s);
      fed := TimersReify(OneShots(s), pri);
      AllDueExpired(fed, s.active, s.at);
      ReifyState(s, fed);
      IsState(TimerStep(s, DoReify));
    }

    method ReifyStep()
      requires Valid() && pq.rfeeds == []
      modifies this`activecnt, timers`cnt, timers.heap, timers.ws`active, timers.ws`at
      modifies pq`pendings, pq`rfeeds, pq.ws`pending
      ensures HeapOk() == true && pq.Valid() == true && pq.rfeeds == []
      ensures State() == TimerStep(old(State()), DoReify)
    {
      ghost var s := State();
      ghost var shots := set w | w in timers.ws && w.repeat == 0.0;
      ghost var pri := map w | w in pq.ws && w.HasPriority() :: w.AbsPri();
      ghost var fed := TimersReify(shots, pri);
      ReifyState(s, fed);
    }

    method RescheduleStep(adjust: real)
      requires Valid()
      modifies timers.heap, timers.ws`at
      ensures HeapOk() == true && pq.Valid() == true
      ensures State() == TimerStep(old(State()), DoReschedule(adjust))
    {
      ghost var r := TimerStep(State(), DoReschedule(adjust));
      TimersReschedule(adjust);
      assert timers.Keys() == r.at;
      assert State().repeat == r.repeat;
    }

    method RescheduleFrom(adjust: real, ghost s: TimerState)
      requires Valid() && Is(s)
      modifies timers.heap, timers.ws`at
      ensures HeapOk() == true && pq.Valid() == true && Is(TimerStep(s, DoReschedule(adjust))) == true
    {
      IsState(s);
      RescheduleStep(adjust);
      IsState(TimerStep(s, DoReschedule(adjust)));
    }

    // time_update
    method TimeStep(now: real)
      requires Valid()
      modifies this`mn_now
      ensures HeapOk() == true && pq.Valid() == true
      ensures State() == TimerStep(old(State()), DoTime(now))
    {
      ghost var r := TimerStep(State(), DoTime(now));
      mn_now := now;
      assert timers.Keys() == r.at;
      assert State().repeat == r.repeat;
    }

    method Perform(op: TimerOp)
      requires Valid() && pq.rfeeds == [] && Concerns(op, timers.ws)
      modifies this, timers`cnt, timers`heap, timers.heap, timers.ws`active, timers.ws`at, timers.ws`priority
      modifies timers.ws`repeat, pq`pendings, pq`rfeeds, pq.ws`pending
      ensures HeapOk() == true && pq.Valid() == true && pq.rfeeds == []
      ensures timers.heap == old(timers.heap) || fresh(timers.heap)
      ensures State() == TimerStep(old(State()), op)
    {
      match op
      case DoStart(w) => StartStep(w);
      case DoStop(w) => StopStep(w);
      case DoAgain(w) => AgainStep(w);
      case DoSet(w, after, repeat) => SetStep(w, after, repeat);
      case DoRepeat(w, repeat) => RepeatStep(w, repeat);
      case DoReify => ReifyStep();
      case DoReschedule(adjust) => RescheduleStep(adjust);
      case DoTime(now) => TimeStep(now);
    }

    // Whatever is done to the timers, the heap stays valid and says the same as the plain set of timers.
    method Replay(ops: seq<TimerOp>)
      requires Valid() && pq.rfeeds == []
      requires forall i :: 0 <= i < |ops| ==> Concerns(ops[i], timers.ws)
      modifies this, timers`cnt, timers`heap, timers.heap, timers.ws`active, timers.ws`at, timers.ws`priority
      modifies timers.ws`repeat, pq`pendings, pq`rfeeds, pq.ws`pending
      ensures Valid() && pq.rfeeds == []
      ensures State() == TimerRun(old(State()), ops)
    {
      assert ops[..0] == [];
      for i := 0 to |ops|
        invariant HeapOk() == true && pq.Valid() == true && pq.rfeeds == []
        invariant timers.heap == old(timers.heap) || fresh(timers.heap)
        invariant State() == TimerRun(old(State()), ops[..i])
      {
        assert ops[..i + 1][..i] == ops[..i];
        Perform(ops[i]);
      }
      assert ops[..|ops|] == ops;
    }
  }

  // ---------- whole runs ----------

  // What a user of the timers can observe: who is active, every key and every repeat value.
  datatype TimerState = TimerState(at: map<Watcher, real>, repeat: map<Watcher, real>, active: set<Watcher>, now: real)

  // those that expire for good
  ghost function OneShots(s: TimerState): set<Watcher> {
    set w | w in s.repeat && s.repeat[w] == 0.0
  }

  datatype TimerOp =
    | DoStart(w: Watcher)
    | DoStop(w: Watcher)
    | DoAgain(w: Watcher)
    | DoSet(w: Watcher, after: real, repeat: real)
    | DoRepeat(w: Watcher, repeat: real)
    | DoReify
    | DoReschedule(adjust: real)
    | DoTime(now: real)

  // the same operations on a plain set of timers
  ghost function TimerStep(s: TimerState, op: TimerOp): TimerState
    requires s.active <= s.at.Keys == s.repeat.Keys
    requires Concerns(op, s.at.Keys)
  {
    match op
    case DoStart(w) =>
      s.(at := s.at[w := if w in s.active then s.at[w] else s.at[w] + s.now], active := s.active + {w})
    case DoStop(w) =>
      s.(at := s.at[w := if w in s.active then s.at[w] - s.now else s.at[w]], active := s.active - {w})
    case DoAgain(w) =>
      if s.repeat[w] != 0.0 then s.(at := s.at[w := s.now + s.repeat[w]], active := s.active + {w})
      else s.(at := s.at[w := if w in s.active then s.at[w] - s.now else s.at[w]], active := s.active - {w})
    case DoSet(w, after, repeat) =>
      if w in s.active then s else s.(at := s.at[w := after], repeat := s.repeat[w := repeat])
    case DoRepeat(w, repeat) => s.(repeat := s.repeat[w := repeat])
    case DoReify =>
      s.(at := map w | w in s.at ::
                 if w in s.active && s.at[w] < s.now then TimerLoop.Renewed(s.at[w], s.repeat[w], s.now) else s.at[w],
         active := set w | w in s.active && !(s.at[w] < s.now && s.repeat[w] == 0.0))
    case DoReschedule(adjust) =>
      s.(at := map w | w in s.at :: if w in s.active then s.at[w] + adjust else s.at[w])
    case DoTime(now) => s.(now := now)
  }

  // operations are on timers of the loop, and repeat values are not negative
  ghost predicate Concerns(op: TimerOp, ws: set<Watcher>) {
    && (op.DoStart? || op.DoStop? || op.DoAgain? || op.DoSet? || op.DoRepeat? ==> op.w in ws)
    && (op.DoSet? || op.DoRepeat? ==> op.repeat >= 0.0)
  }

  ghost function TimerRun(s: TimerState, ops: seq<TimerOp>): (r: TimerState)
    requires s.active <= s.at.Keys == s.repeat.Keys
    requires forall i :: 0 <= i < |ops| ==> Concerns(ops[i], s.at.Keys)
    ensures r.active <= r.at.Keys == r.repeat.Keys == s.at.Keys
  {
    if ops == [] then s else TimerStep(TimerRun(s, ops[..|ops| - 1]), ops[|ops| - 1])
  }

  // ---------- what repeating timers do ----------

  // t is not in the past, and no sooner than one repeat after `at`
  predicate MayFollow(t: real, at: real, repeat: real, now: real) {
    t >= now && t >= at + repeat
  }

  // The next key of a repeating timer is the least time that is not in the past and no sooner than one repeat
  // after the old key.
  lemma RenewedIsLeast(at: real, repeat: real, now: real)
    requires repeat > 0.0
    ensures var r := TimerLoop.Renewed(at, repeat, now);
            MayFollow(r, at, repeat, now) && forall t :: MayFollow(t, at, repeat, now) ==> r <= t
  {
  }

  // What an expiry does to one timer, due or not.
  lemma ReifyOne(s: TimerState, w: Watcher)
    requires s.active <= s.at.Keys == s.repeat.Keys && w in s.at && s.repeat[w] >= 0.0
    ensures var t, due := TimerStep(s, DoReify), w in s.active && s.at[w] < s.now;
            && (!due ==> t.at[w] == s.at[w] && (w in t.active <==> w in s.active))
            && (due && s.repeat[w] == 0.0 ==> w !in t.active && t.at[w] == s.at[w] - s.now)
            && (due && s.repeat[w] > 0.0 ==>
                  && w in t.active && MayFollow(t.at[w], s.at[w], s.repeat[w], s.now)
                  && forall x :: MayFollow(x, s.at[w], s.repeat[w], s.now) ==> t.at[w] <= x)
  {
    if s.repeat[w] > 0.0 {
      RenewedIsLeast(s.at[w], s.repeat[w], s.now);
    }
  }

  // A timer that is stopped and started again later has as much time left as it had.
  lemma StopKeepsTimeLeft(s: TimerState, w: Watcher, later: real)
    requires s.active <= s.at.Keys == s.repeat.Keys && w in s.active
    ensures var t := TimerStep(TimerStep(TimerStep(s, DoStop(w)), DoTime(later)), DoStart(w));
            w in t.active && t.now == later && t.at[w] - t.now == s.at[w] - s.now
  {
  }

  // op leaves the key of an active timer w to the expiries
  predicate LetsBe(op: TimerOp, w: Watcher) {
    op != DoStop(w) && op != DoAgain(w) && (op.DoRepeat? ==> op.w != w)
  }

  // n * x
  function Times(n: nat, x: real): real {
    if n == 0 then 0.0 else Times(n - 1, x) + x
  }

  // how often w expires in a run
  ghost function Expiries(s: TimerState, ops: seq<TimerOp>, w: Watcher): nat
    requires s.active <= s.at.Keys == s.repeat.Keys && w in s.at
    requires forall i :: 0 <= i < |ops| ==> Concerns(ops[i], s.at.Keys)
  {
    if ops == [] then 0
    else
      var n := |ops| - 1;
      var t := TimerRun(s, ops[..n]);
      Expiries(s, ops[..n], w) + if ops[n] == DoReify && w in t.active && t.at[w] < t.now then 1 else 0
  }

  // by how much all keys were moved along with a clock that jumped
  function Shifts(ops: seq<TimerOp>): real {
    if ops == [] then 0.0
    else Shifts(ops[..|ops| - 1]) + if ops[|ops| - 1].DoReschedule? then ops[|ops| - 1].adjust else 0.0
  }

  // no reify comes later than one repeat after the key of w
  ghost predicate OnTime(s: TimerState, ops: seq<TimerOp>, w: Watcher)
    requires s.active <= s.at.Keys == s.repeat.Keys && w in s.at
    requires forall i :: 0 <= i < |ops| ==> Concerns(ops[i], s.at.Keys)
  {
    forall i :: 0 <= i < |ops| && ops[i] == DoReify ==>
      var t := TimerRun(s, ops[..i]); t.now <= t.at[w] + s.repeat[w]
  }

  lemma {:induction false} OnTimeBefore(s: TimerState, ops: seq<TimerOp>, w: Watcher)
    requires s.active <= s.at.Keys == s.repeat.Keys && w in s.at && ops != []
    requires forall i :: 0 <= i < |ops| ==> Concerns(ops[i], s.at.Keys)
    requires OnTime(s, ops, w)
    ensures OnTime(s, ops[..|ops| - 1], w)
  {
    var before := ops[..|ops| - 1];
    forall i | 0 <= i < |before| && before[i] == DoReify
      ensures TimerRun(s, before[..i]).now <= TimerRun(s, before[..i]).at[w] + s.repeat[w]
    {
      assert before[..i] == ops[..i] && ops[i] == DoReify;
    }
  }

  // w is still active with its repeat, and its key has moved by d
  ghost predicate KeyMoved(s: TimerState, t: TimerState, w: Watcher, d: real) {
    && w in s.at && w in s.repeat && w in t.at && w in t.repeat
    && w in t.active && t.repeat[w] == s.repeat[w] && t.at[w] == s.at[w] + d
  }

  // Repeating timers do not drift: as long as they are seen to in time, each expiry moves the key by exactly one
  // repeat, however late within it the loop was.
  lemma {:induction false} NoDrift(s: TimerState, ops: seq<TimerOp>, w: Watcher)
    requires s.active <= s.at.Keys == s.repeat.Keys && w in s.active && s.repeat[w] > 0.0
    requires forall i :: 0 <= i < |ops| ==> Concerns(ops[i], s.at.Keys) && LetsBe(ops[i], w)
    requires OnTime(s, ops, w)
    ensures NotDrifted(s, ops, w) == true
  {
    if ops != [] {
      OnTimeBefore(s, ops, w);
      NoDrift(s, ops[..|ops| - 1], w);
      OneMoreOp(s, ops, w);
    }
  }

  // the key of w is that of s, moved by one repeat for each expiry
  ghost predicate NotDrifted(s: TimerState, ops: seq<TimerOp>, w: Watcher)
    requires s.active <= s.at.Keys == s.repeat.Keys && w in s.at
    requires forall i :: 0 <= i < |ops| ==> Concerns(ops[i], s.at.Keys)
  {
    KeyMoved(s, TimerRun(s, ops), w, Advance(s, ops, w))
  }

  // one repeat for each expiry, and what the clock made of it
  ghost function Advance(s: TimerState, ops: seq<TimerOp>, w: Watcher): real
    requires s.active <= s.at.Keys == s.repeat.Keys && w in s.at
    requires forall i :: 0 <= i < |ops| ==> Concerns(ops[i], s.at.Keys)
  {
    Times(Expiries(s, ops, w), s.repeat[w]) + Shifts(ops)
  }

  // what op adds to it in state t
  ghost function Added(t: TimerState, op: TimerOp, w: Watcher): real {
    (if op == DoReify && w in t.active && w in t.at && w in t.repeat && t.at[w] < t.now then t.repeat[w] else 0.0)
    + if op.DoReschedule? then op.adjust else 0.0
  }

  lemma {:induction false} ExpiriesMore(s: TimerState, ops: seq<TimerOp>, w: Watcher, t: TimerState)
    requires s.active <= s.at.Keys == s.repeat.Keys && w in s.at && ops != []
    requires forall i :: 0 <= i < |ops| ==> Concerns(ops[i], s.at.Keys)
    requires t == TimerRun(s, ops[..|ops| - 1])
    ensures var n, op := Expiries(s, ops[..|ops| - 1], w), ops[|ops| - 1];
            Expiries(s, ops, w) == if op == DoReify && w in t.active && t.at[w] < t.now then n + 1 else n
  {
  }

  lemma TimesMore(n: nat, x: real)
    ensures Times(n + 1, x) == Times(n, x) + x
  {
  }

  lemma {:induction false} AdvanceMore(s: TimerState, ops: seq<TimerOp>, w: Watcher, t: TimerState)
    requires s.active <= s.at.Keys == s.repeat.Keys && w in s.at && ops != []
    requires forall i :: 0 <= i < |ops| ==> Concerns(ops[i], s.at.Keys)
    requires t == TimerRun(s, ops[..|ops| - 1]) && t.repeat[w] == s.repeat[w]
    ensures Advance(s, ops, w) == Advance(s, ops[..|ops| - 1], w) + Added(t, ops[|ops| - 1], w)
  {
    ExpiriesMore(s, ops, w, t);
    TimesMore(Expiries(s, ops[..|ops| - 1], w), s.repeat[w]);
  }

  lemma {:induction false} OneMoreOp(s: TimerState, ops: seq<TimerOp>, w: Watcher)
    requires s.active <= s.at.Keys == s.repeat.Keys && w in s.active && s.repeat[w] > 0.0 && ops != []
    requires forall i :: 0 <= i < |ops| ==> Concerns(ops[i], s.at.Keys)
    requires LetsBe(ops[|ops| - 1], w) && OnTime(s, ops, w)
    requires NotDrifted(s, ops[..|ops| - 1], w)
    ensures NotDrifted(s, ops, w) == true
  {
    var n := |ops| - 1;
    var t := TimerRun(s, ops[..n]);
    OnTimeNow(s, ops, w);
    AdvanceMore(s, ops, w, t);
    NextKey(s, t, ops[n], w, Advance(s, ops[..n], w));
  }

  lemma NextKey(s: TimerState, t: TimerState, op: TimerOp, w: Watcher, d: real)
    requires KeyMoved(s, t, w, d) && t.active <= t.at.Keys == t.repeat.Keys && s.repeat[w] > 0.0
    requires Concerns(op, t.at.Keys) && LetsBe(op, w) && (op == DoReify ==> t.now <= t.at[w] + s.repeat[w])
    ensures KeyMoved(s, TimerStep(t, op), w, d + Added(t, op, w)) == true
  {
    OneStepOn(t, op, w);
  }

  lemma {:induction false} OnTimeNow(s: TimerState, ops: seq<TimerOp>, w: Watcher)
    requires s.active <= s.at.Keys == s.repeat.Keys && w in s.at && ops != []
    requires forall i :: 0 <= i < |ops| ==> Concerns(ops[i], s.at.Keys)
    requires OnTime(s, ops, w)
    ensures var n := |ops| - 1; ops[n] == DoReify ==>
      TimerRun(s, ops[..n]).now <= TimerRun(s, ops[..n]).at[w] + s.repeat[w]
  {
  }

  // one step of an active repeating timer
  lemma OneStepOn(s: TimerState, op: TimerOp, w: Watcher)
    requires s.active <= s.at.Keys == s.repeat.Keys && w in s.active && s.repeat[w] > 0.0
    requires Concerns(op, s.at.Keys) && LetsBe(op, w) && (op == DoReify ==> s.now <= s.at[w] + s.repeat[w])
    ensures var t := TimerStep(s, op);
            && w in t.active && t.repeat[w] == s.repeat[w]
            && t.at[w] == s.at[w] + (if op == DoReify && s.at[w] < s.now then s.repeat[w] else 0.0)
                          + if op.DoReschedule? then op.adjust else 0.0
  {
  }
}
