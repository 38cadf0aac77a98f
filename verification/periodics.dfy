/**
  Absolute timers of deps/ev/ev.c: start, stop, again, their expiry
  (periodics_reify) and the recalculation after a time jump.
 */
module Periodics {
  import opened Watchers
  import opened FourHeap
  import opened TimeHeaps
  import opened PendingStacks
  import opened PendingQueues
  import opened Expiry
  import opened Recalculation

  // a reschedule callback must not answer with a time in the past
  ghost predicate LooksAhead(cb: Option<real -> real>) {
    cb.Some? ==> forall t :: cb.value(t) >= t
  }

  // `at` is where a periodic goes from `before` at time now, by its callback, its interval, or not at all
  ghost predicate Follows(at: real, before: real, offset: real, interval: real, cb: Option<real -> real>, now: real) {
    if cb.Some? then at == cb.value(now)
    else if interval != 0.0 then
      && now < at <= now + interval
      && if interval >= MIN_INTERVAL then NextOnGrid(at, offset, interval, now) else NextOnFineGrid(at, offset, interval, now)
    else at == before
  }

  class PeriodicLoop {
    const periodics: TimeHeap
    const pq: PendingQueue
    var activecnt: int
    var ev_rt_now: real

    ghost predicate HeapOk()
      reads periodics, periodics.heap, periodics.ws`at, periodics.ws`active, periodics.ws`priority
      reads periodics.ws`interval, periodics.ws`reschedule_cb
    {
      && periodics.Valid() && periodics.ws <= pq.ws
      && (forall w :: w in periodics.ws ==> w.interval >= 0.0 && LooksAhead(w.reschedule_cb))
      && (forall w :: w in periodics.Members() ==> w.HasPriority())
    }

    ghost predicate Valid()
      reads periodics, periodics.heap, periodics.ws`at, periodics.ws`active, periodics.ws`priority
      reads periodics.ws`interval, periodics.ws`reschedule_cb
      reads pq, pq.ws`pending, pq.ws`priority
    {
      HeapOk() && pq.Valid()
    }

    constructor (periodics: TimeHeap, pq: PendingQueue, now: real)
      requires periodics.Valid() && periodics.cnt == 0 && pq.Valid() && periodics.ws <= pq.ws
      requires forall w :: w in periodics.ws ==> w.interval >= 0.0 && LooksAhead(w.reschedule_cb) && w.active == 0
      ensures Valid() && this.periodics == periodics && this.pq == pq && ev_rt_now == now && activecnt == 0
    {
      this.periodics, this.pq, ev_rt_now, activecnt := periodics, pq, now, 0;
    }

    // the key w has from now on
    method NextTime(w: Watcher) returns (at: real)
      requires w.interval >= 0.0
      ensures Follows(at, w.at, w.offset, w.interval, w.reschedule_cb, ev_rt_now)
    {
      if w.reschedule_cb.Some? {
        at := w.reschedule_cb.value(ev_rt_now);
      } else if w.interval != 0.0 {
        at := PeriodicRecalc(w.offset, w.interval, ev_rt_now);
      } else {
        at := w.at;
      }
    }

    // ev_periodic_start
    method Start(w: Watcher)
      requires Valid() && w in periodics.ws
      modifies this`activecnt, periodics`cnt, periodics`heap, periodics.heap, periodics.ws`active, w`at, w`priority
      ensures Valid() && (periodics.heap == old(periodics.heap) || fresh(periodics.heap))
      ensures periodics.Members() == old(periodics.Members()) + {w}
      ensures if old(w.active) != 0 then w.at == old(w.at)
              else Follows(w.at, w.offset, w.offset, w.interval, w.reschedule_cb, ev_rt_now)
      ensures activecnt - periodics.cnt == old(activecnt - periodics.cnt)
      ensures old(w.HasPriority()) ==> w.priority == old(w.priority)
    {
      if w.active != 0 {
        assert w in periodics.Members();
        return;
      }
      var at := w.offset;
      if w.reschedule_cb.Some? || w.interval != 0.0 {
        at := NextTime(w);
      }
      Activate(w, at);
    }

    method Activate(w: Watcher, at: real)
      requires Valid() && w in periodics.ws && w.active == 0
      modifies this`activecnt, periodics`cnt, periodics`heap, periodics.heap, periodics.ws`active, w`at, w`priority
      ensures HeapOk() == true && pq.Valid() == true
      ensures periodics.heap == old(periodics.heap) || fresh(periodics.heap)
      ensures periodics.Members() == old(periodics.Members()) + {w} && w.at == at
      ensures activecnt == old(activecnt) + 1 && periodics.cnt == old(periodics.cnt) + 1
      ensures old(w.HasPriority()) ==> w.priority == old(w.priority)
    {
      pq.PriAdjust(w);
      Enter(w, at);
    }

    method Enter(w: Watcher, at: real)
      requires HeapOk() && pq.Valid() && w in periodics.ws && w.active == 0 && w.HasPriority()
      modifies this`activecnt, periodics`cnt, periodics`heap, periodics.heap, periodics.ws`active, w`at
      ensures HeapOk() == true && pq.Valid() == true
      ensures periodics.heap == old(periodics.heap) || fresh(periodics.heap)
      ensures periodics.Members() == old(periodics.Members()) + {w} && w.at == at
      ensures activecnt == old(activecnt) + 1 && periodics.cnt == old(periodics.cnt) + 1
    {
      activecnt := activecnt + 1;
      EnterHeap(w, at, periodics.Members());
    }

    method EnterHeap(w: Watcher, at: real, ghost ms: set<Watcher>)
      requires HeapOk() && w in periodics.ws && w.active == 0 && w.HasPriority() && ms == periodics.Members()
      modifies periodics`cnt, periodics`heap, periodics.heap, periodics.ws`active, w`at
      ensures HeapOk() == true && (periodics.heap == old(periodics.heap) || fresh(periodics.heap))
      ensures periodics.Members() == ms + {w} && w.at == at && periodics.cnt == old(periodics.cnt) + 1
    {
      assert forall v :: v in ms ==> v.HasPriority();
      periodics.StartAt(w, at);
      StillOk(ms + {w});
    }

    // the heap holds ms, all of which have a priority
    lemma StillOk(ms: set<Watcher>)
      requires periodics.Valid() && periodics.ws <= pq.ws && periodics.Members() == ms
      requires forall v :: v in ms ==> v.HasPriority()
      requires forall v :: v in periodics.ws ==> v.interval >= 0.0 && LooksAhead(v.reschedule_cb)
      ensures HeapOk()
    {
    }

    // ev_periodic_stop, which leaves the key as it is
    method Stop(w: Watcher)
      requires Valid() && w in periodics.ws
      modifies this`activecnt, periodics`cnt, periodics.heap, periodics.ws`active, pq`pendings, w`pending
      ensures HeapOk() == true && pq.Valid() == true && w.pending == 0
      ensures pq.pendings == pq.Without(old(pq.pendings), w)
      ensures periodics.Members() == old(periodics.Members()) - {w}
      ensures activecnt - periodics.cnt == old(activecnt - periodics.cnt)
    {
      pq.ClearPending(w);
      if w.active == 0 {
        assert w !in periodics.Members();
        return;
      }
      Deactivate(w);
    }

    method Deactivate(w: Watcher)
      requires HeapOk() && pq.Valid() && w in periodics.ws && w.active != 0
      modifies this`activecnt, periodics`cnt, periodics.heap, periodics.ws`active
      ensures HeapOk() == true && pq.Valid() == true
      ensures periodics.Members() == old(periodics.Members()) - {w}
      ensures activecnt == old(activecnt) - 1 && periodics.cnt == old(periodics.cnt) - 1
    {
      periodics.Remove(w);
      activecnt := activecnt - 1;
    }

    // ev_periodic_again
    method Again(w: Watcher)
      requires Valid() && w in periodics.ws
      modifies this`activecnt, periodics`cnt, periodics`heap, periodics.heap, periodics.ws`active, w`at, w`priority
      modifies pq`pendings, w`pending
      ensures HeapOk() == true && pq.Valid() == true && w.pending == 0
      ensures periodics.heap == old(periodics.heap) || fresh(periodics.heap)
      ensures periodics.Members() == old(periodics.Members()) + {w}
      ensures pq.pendings == old(pq.Without(pq.pendings, w))
      ensures Follows(w.at, w.offset, w.offset, w.interval, w.reschedule_cb, ev_rt_now)
      ensures activecnt - periodics.cnt == old(activecnt - periodics.cnt)
      ensures old(w.HasPriority()) ==> w.priority == old(w.priority)
    {
      Stop(w);
      assert w !in periodics.Members();
      Start(w);
    }

    // ---------- expiry ----------

    // whether w is rescheduled rather than stopped when it expires
    static ghost predicate Recurs(w: Watcher)
      reads w`interval, w`reschedule_cb
    {
      w.reschedule_cb.Some? || w.interval != 0.0
    }

    // one turn of the inner loop of periodics_reify
    method ExpireRoot() returns (w: Watcher)
      requires Valid() && periodics.cnt > 0 && periodics.heap[HEAP0].at < ev_rt_now
      modifies this`activecnt, periodics`cnt, periodics.heap, periodics.ws`active, periodics.ws`at
      modifies pq`pendings, pq`rfeeds, periodics.ws`pending
      ensures HeapOk() == true && pq.Valid() == true && pq.rfeeds == old(pq.rfeeds) + [w]
      ensures w == old(periodics.heap[HEAP0].w) && w in old(periodics.Members()) && w.HasPriority()
      ensures old(w.at) == old(periodics.heap[HEAP0].at)
      ensures Follows(w.at, old(w.at), w.offset, w.interval, w.reschedule_cb, ev_rt_now)
      ensures forall v :: v in periodics.ws && v != w ==> v.at == old(v.at)
      ensures periodics.Members() == if Recurs(w) then old(periodics.Members()) else old(periodics.Members()) - {w}
      ensures pq.pendings == if Recurs(w) then old(pq.pendings) else pq.Without(old(pq.pendings), w)
      ensures activecnt - periodics.cnt == old(activecnt - periodics.cnt)
    {
      w := periodics.heap[HEAP0].w;
      assert w in periodics.Members() && w.at == periodics.heap[HEAP0].at by {
        periodics.RootIsFirst();
      }
      RenewOrStop(w);
      pq.FeedReverse(w);
    }

    method RenewOrStop(w: Watcher)
      requires Valid() && periodics.cnt > 0 && w == periodics.heap[HEAP0].w && w in periodics.ws
      modifies this`activecnt, periodics`cnt, periodics.heap, periodics.ws`active, w`at, pq`pendings, w`pending
      ensures HeapOk() == true && pq.Valid() == true
      ensures Follows(w.at, old(w.at), w.offset, w.interval, w.reschedule_cb, ev_rt_now)
      ensures periodics.Members() == if Recurs(w) then old(periodics.Members()) else old(periodics.Members()) - {w}
      ensures pq.pendings == if Recurs(w) then old(pq.pendings) else pq.Without(old(pq.pendings), w)
      ensures activecnt - periodics.cnt == old(activecnt - periodics.cnt)
    {
      if w.reschedule_cb.Some? || w.interval != 0.0 {
        RenewRoot(w);
      } else {
        Stop(w);
      }
    }

    method RenewRoot(w: Watcher)
      requires Valid() && periodics.cnt > 0 && w == periodics.heap[HEAP0].w && w in periodics.ws
      modifies periodics.heap, periodics.ws`active, w`at
      ensures HeapOk() == true && pq.Valid() == true && periodics.Members() == old(periodics.Members())
      ensures Follows(w.at, old(w.at), w.offset, w.interval, w.reschedule_cb, ev_rt_now)
    {
      var at := NextTime(w);
      periodics.MoveRoot(w, at);
    }

    // the periodics that stay active after fed expired
    ghost function Remaining(fed: seq<Watcher>, ms: set<Watcher>): set<Watcher>
      requires ms <= periodics.ws
      reads this, periodics.ws`interval, periodics.ws`reschedule_cb
    {
      set w | w in ms && (w !in fed || Recurs(w))
    }

    // what the expiry of fed leaves of the heap
    ghost predicate Rescheduled(fed: seq<Watcher>, ms: set<Watcher>, key: map<Watcher, real>)
      requires key.Keys == periodics.ws && ms <= periodics.ws
      reads this, periodics, periodics.ws`at, periodics.ws`active
      reads periodics.ws`offset, periodics.ws`interval, periodics.ws`reschedule_cb
    {
      && periodics.Members() == Remaining(fed, ms)
      && forall w :: w in periodics.ws ==>
           if w in fed then Follows(w.at, key[w], w.offset, w.interval, w.reschedule_cb, ev_rt_now) else w.at == key[w]
    }

    lemma RootIsNext(fed: seq<Watcher>, ms: set<Watcher>, key: map<Watcher, real>)
      requires Valid() && key.Keys == periodics.ws && ms <= periodics.ws && Rescheduled(fed, ms, key)
      requires periodics.cnt > 0 && periodics.heap[HEAP0].at < ev_rt_now
      ensures var w := periodics.heap[HEAP0].w; w in ms && w !in fed && w.at == key[w]
      ensures forall v :: v in ms && v !in fed ==> periodics.heap[HEAP0].at <= key[v]
    {
      periodics.RootIsFirst();
      var w := periodics.heap[HEAP0].w;
      assert LooksAhead(w.reschedule_cb);
      forall v | v in ms && v !in fed
        ensures periodics.heap[HEAP0].at <= key[v]
      {
        assert v in periodics.Members() && v.at == key[v];
      }
    }

    lemma NothingDue()
      requires Valid() && (periodics.cnt == 0 || periodics.heap[HEAP0].at >= ev_rt_now)
      ensures forall w :: w in periodics.Members() ==> w.at >= ev_rt_now
    {
      if periodics.cnt == 0 {
        periodics.EmptyHeap();
      } else {
        periodics.RootIsFirst();
      }
    }

    // the heap after one more expiry; keys and members are those before it
    lemma RescheduledMore(fed: seq<Watcher>, w: Watcher, ms: set<Watcher>, key: map<Watcher, real>,
                          keys: map<Watcher, real>, members: set<Watcher>)
      requires key.Keys == periodics.ws == keys.Keys && ms <= periodics.ws && w in ms && w !in fed
      requires members == Remaining(fed, ms) && keys[w] == key[w]
      requires forall v :: v in periodics.ws && v !in fed ==> keys[v] == key[v]
      requires forall v :: v in periodics.ws && v in fed ==>
                 Follows(keys[v], key[v], v.offset, v.interval, v.reschedule_cb, ev_rt_now)
      requires Follows(w.at, keys[w], w.offset, w.interval, w.reschedule_cb, ev_rt_now)
      requires forall v :: v in periodics.ws && v != w ==> v.at == keys[v]
      requires periodics.Members() == if Recurs(w) then members else members - {w}
      ensures Rescheduled(fed + [w], ms, key)
    {
      assert Remaining(fed + [w], ms) == if Recurs(w) then members else members - {w};
    }

    // one turn of the loop, with what the earlier turns did to the heap
    method ExpireOne(ghost ms: set<Watcher>, ghost key: map<Watcher, real>) returns (w: Watcher)
      requires Valid() && periodics.cnt > 0 && periodics.heap[HEAP0].at < ev_rt_now
      requires key.Keys == periodics.ws && ms <= periodics.ws
      requires ExpiredInOrder(pq.rfeeds, ms, key, ev_rt_now) && Rescheduled(pq.rfeeds, ms, key)
      modifies this`activecnt, periodics`cnt, periodics.heap, periodics.ws`active, periodics.ws`at
      modifies pq`pendings, pq`rfeeds, periodics.ws`pending
      ensures HeapOk() == true && pq.Valid() == true && pq.rfeeds == old(pq.rfeeds) + [w]
      ensures ExpiredInOrder(pq.rfeeds, ms, key, ev_rt_now) == true && Rescheduled(pq.rfeeds, ms, key) == true
      ensures w in ms && w !in old(pq.rfeeds) && w.HasPriority()
      ensures pq.pendings == if Recurs(w) then old(pq.pendings) else pq.Without(old(pq.pendings), w)
      ensures activecnt - periodics.cnt == old(activecnt - periodics.cnt)
    {
      ghost var fed, r := pq.rfeeds, periodics.heap[HEAP0].w;
      ghost var keys, members := periodics.Keys(), periodics.Members();
      RootIsNext(fed, ms, key);
      OneMoreExpired(fed, r, ms, key, ev_rt_now);
      w := ExpireRoot();
      RescheduledMore(fed, w, ms, key, keys, members);
    }

    ghost predicate RootIsDue()
      requires periodics.Sized()
      reads this, periodics, periodics.heap
    {
      periodics.cnt > 0 && periodics.heap[HEAP0].at < ev_rt_now
    }

    // Part of the way through the expiry of the watchers ms with the given keys: what became of the heap and
    // of the pending stacks ss.
    ghost predicate Midway(ms: set<Watcher>, key: map<Watcher, real>, ss: Stacks<Watcher>,
                           shots: set<Watcher>, pri: map<Watcher, nat>, spare: int)
      reads this, periodics, periodics.heap, periodics.ws`at, periodics.ws`active, periodics.ws`priority
      reads periodics.ws`interval, periodics.ws`reschedule_cb, periodics.ws`offset
      reads pq, pq.ws`pending, pq.ws`priority
    {
      && HeapOk() && pq.Valid() && key.Keys == periodics.ws && ms <= periodics.ws
      && ExpiredInOrder(pq.rfeeds, ms, key, ev_rt_now) && Rescheduled(pq.rfeeds, ms, key)
      && pq.pendings == ClearEach(ss, pq.rfeeds, shots, pri, pq.pending_w)
      && activecnt - periodics.cnt == spare
    }

    // one turn of the loop
    method ExpireNext(ghost ms: set<Watcher>, ghost key: map<Watcher, real>, ghost ss: Stacks<Watcher>,
                      ghost shots: set<Watcher>, ghost pri: map<Watcher, nat>, ghost spare: int) returns (w: Watcher)
      requires Midway(ms, key, ss, shots, pri, spare) && periodics.cnt > 0 && periodics.heap[HEAP0].at < ev_rt_now
      requires forall v :: v in periodics.ws ==> (v in shots <==> !Recurs(v))
      requires forall v :: v in periodics.ws && v.HasPriority() ==> v in pri && pri[v] == v.AbsPri()
      modifies this`activecnt, periodics`cnt, periodics.heap, periodics.ws`active, periodics.ws`at
      modifies pq`pendings, pq`rfeeds, periodics.ws`pending
      ensures Midway(ms, key, ss, shots, pri, spare) == true
      ensures pq.rfeeds == old(pq.rfeeds) + [w] && w in ms && w !in old(pq.rfeeds)
    {
      ghost var fed := pq.rfeeds;
      w := ExpireOne(ms, key);
      ClearOneMore(ss, fed, w, shots, pri, pq.pending_w);
    }

    // the inner loop of periodics_reify
    method ExpireAll(ghost ms: set<Watcher>, ghost key: map<Watcher, real>, ghost ss: Stacks<Watcher>,
                     ghost shots: set<Watcher>, ghost pri: map<Watcher, nat>, ghost spare: int)
      requires Midway(ms, key, ss, shots, pri, spare) && pq.rfeeds == [] && RootIsDue()
      requires forall v :: v in periodics.ws ==> (v in shots <==> !Recurs(v))
      requires forall v :: v in periodics.ws && v.HasPriority() ==> v in pri && pri[v] == v.AbsPri()
      modifies this`activecnt, periodics`cnt, periodics.heap, periodics.ws`active, periodics.ws`at
      modifies pq`pendings, pq`rfeeds, periodics.ws`pending
      ensures Midway(ms, key, ss, shots, pri, spare) == true && pq.rfeeds != [] && !RootIsDue()
    {
      while periodics.cnt > 0 && periodics.heap[HEAP0].at < ev_rt_now
        invariant Midway(ms, key, ss, shots, pri, spare) == true && (pq.rfeeds != [] || RootIsDue())
        decreases ms - Elements(pq.rfeeds)
      {
        ghost var fed := pq.rfeeds;
        var w := ExpireNext(ms, key, ss, shots, pri, spare);
        ElementsMore(fed, w);
      }
    }

    // feed_reverse_done, which leaves the heap alone
    method FeedExpired(ghost ms: set<Watcher>, ghost key: map<Watcher, real>, ghost pri: map<Watcher, nat>)
      requires HeapOk() && pq.Valid() && pq.Agrees(pri) && pq.rfeeds != [] && !RootIsDue()
      requires key.Keys == periodics.ws && ms <= periodics.ws
      requires ExpiredInOrder(pq.rfeeds, ms, key, ev_rt_now) && Rescheduled(pq.rfeeds, ms, key)
      requires forall w :: w in ms ==> w in periodics.ws && w.HasPriority()
      modifies pq`pendings, pq`rfeeds, pq.ws`pending
      ensures HeapOk() == true && pq.Valid() == true && pq.rfeeds == []
      ensures Rescheduled(old(pq.rfeeds), ms, key) == true
      ensures !RootIsDue()
      ensures Ranked(old(pq.rfeeds), pri, NUMPRI) && activecnt - periodics.cnt == old(activecnt - periodics.cnt)
      ensures pq.pendings == FeedBackAll(old(pq.pendings), old(pq.rfeeds), {PeriodicDue}, pri)
    {
      ghost var fed := pq.rfeeds;
      assert forall w :: w in fed ==> w in ms;
      pq.FeedReverseDone({PeriodicDue}, pri);
    }

    lemma NothingExpired(ms: set<Watcher>, key: map<Watcher, real>)
      requires Valid() && ms == periodics.Members() && key == periodics.Keys()
      ensures ExpiredInOrder([], ms, key, ev_rt_now) && Rescheduled([], ms, key)
    {
    }

    // one batch: the inner loop and the feeding
    method ExpireBatch(ghost ms: set<Watcher>, ghost key: map<Watcher, real>,
                       ghost shots: set<Watcher>, ghost pri: map<Watcher, nat>) returns (ghost fed: seq<Watcher>)
      requires Valid() && pq.rfeeds == [] && ms == periodics.Members() && key == periodics.Keys() && pq.Agrees(pri)
      requires forall v :: v in periodics.ws ==> (v in shots <==> !Recurs(v))
      requires periodics.cnt > 0 && periodics.heap[HEAP0].at < ev_rt_now
      modifies this`activecnt, periodics`cnt, periodics.heap, periodics.ws`active, periodics.ws`at
      modifies pq`pendings, pq`rfeeds, pq.ws`pending
      ensures HeapOk() == true && pq.Valid() == true && pq.rfeeds == []
      ensures ExpiredInOrder(fed, ms, key, ev_rt_now) == true && Rescheduled(fed, ms, key) == true && fed != []
      ensures !RootIsDue()
      ensures Ranked(fed, pri, NUMPRI)
      ensures pq.pendings == FeedBackAll(ClearEach(old(pq.pendings), fed, shots, pri, pq.pending_w), fed, {PeriodicDue}, pri)
      ensures activecnt - periodics.cnt == old(activecnt - periodics.cnt)
    {
      NothingExpired(ms, key);
      ExpireAll(ms, key, pq.pendings, shots, pri, activecnt - periodics.cnt);
      fed := pq.rfeeds;
      FeedExpired(ms, key, pri);
    }

    // The expiry of the watchers ms with the given keys, as far as it went: what became of the heap and of ss.
    ghost predicate Batched(fed: seq<Watcher>, ms: set<Watcher>, key: map<Watcher, real>, ss: Stacks<Watcher>,
                            shots: set<Watcher>, pri: map<Watcher, nat>, spare: int)
      reads this, periodics, periodics.heap, periodics.ws`at, periodics.ws`active, periodics.ws`priority
      reads periodics.ws`interval, periodics.ws`reschedule_cb, periodics.ws`offset
      reads pq, pq.ws`pending, pq.ws`priority
    {
      && HeapOk() && pq.Valid() && pq.rfeeds == [] && key.Keys == periodics.ws && ms <= periodics.ws && |ss| == NUMPRI
      && ExpiredInOrder(fed, ms, key, ev_rt_now) && Rescheduled(fed, ms, key) && Ranked(fed, pri, NUMPRI)
      && pq.pendings == FeedBackAll(ClearEach(ss, fed, shots, pri, pq.pending_w), fed, {PeriodicDue}, pri)
      && activecnt - periodics.cnt == spare
    }

    // one batch, with all it leaves
    method NextBatch(ghost ms: set<Watcher>, ghost key: map<Watcher, real>, ghost ss: Stacks<Watcher>,
                     ghost shots: set<Watcher>, ghost pri: map<Watcher, nat>, ghost spare: int)
      returns (ghost fed: seq<Watcher>)
      requires Valid() && pq.rfeeds == [] && pq.Agrees(pri) && ms == periodics.Members() && key == periodics.Keys()
      requires ss == pq.pendings && spare == activecnt - periodics.cnt
      requires forall v :: v in periodics.ws ==> (v in shots <==> !Recurs(v))
      requires periodics.cnt > 0 && periodics.heap[HEAP0].at < ev_rt_now
      modifies this`activecnt, periodics`cnt, periodics.heap, periodics.ws`active, periodics.ws`at
      modifies pq`pendings, pq`rfeeds, pq.ws`pending
      ensures Batched(fed, ms, key, ss, shots, pri, spare) == true && fed != [] && !RootIsDue()
    {
      fed := ExpireBatch(ms, key, shots, pri);
    }

    // the outer loop of periodics_reify, which runs at most once, as nobody is rescheduled into the past
    method ExpireBatches(ghost ms: set<Watcher>, ghost key: map<Watcher, real>, ghost ss: Stacks<Watcher>,
                         ghost shots: set<Watcher>, ghost pri: map<Watcher, nat>, ghost spare: int)
      returns (ghost fed: seq<Watcher>, ghost batches: nat)
      requires Valid() && pq.rfeeds == [] && pq.Agrees(pri) && ms == periodics.Members() && key == periodics.Keys()
      requires ss == pq.pendings && spare == activecnt - periodics.cnt
      requires forall v :: v in periodics.ws ==> (v in shots <==> !Recurs(v))
      requires Batched([], ms, key, ss, shots, pri, spare)
      modifies this`activecnt, periodics`cnt, periodics.heap, periodics.ws`active, periodics.ws`at
      modifies pq`pendings, pq`rfeeds, pq.ws`pending
      ensures Batched(fed, ms, key, ss, shots, pri, spare) == true && !RootIsDue()
      ensures batches == if fed == [] then 0 else 1
    {
      fed, batches := [], 0;
      while periodics.cnt > 0 && periodics.heap[HEAP0].at < ev_rt_now
        invariant Batched(fed, ms, key, ss, shots, pri, spare) == true
        invariant batches == if fed == [] then 0 else 1
        invariant if fed == [] then periodics.Members() == ms && periodics.Keys() == key else !RootIsDue()
        decreases 1 - batches
      {
        fed := NextBatch(ms, key, ss, shots, pri, spare);
        batches := batches + 1;
      }
    }

    lemma NothingBatched(shots: set<Watcher>, pri: map<Watcher, nat>)
      requires Valid() && pq.rfeeds == []
      ensures Batched([], periodics.Members(), periodics.Keys(), pq.pendings, shots, pri, activecnt - periodics.cnt) == true
    {
    }

    // periodics_reify
    method PeriodicsReify(ghost shots: set<Watcher>, ghost pri: map<Watcher, nat>)
      returns (ghost fed: seq<Watcher>, ghost batches: nat)
      requires Valid() && pq.rfeeds == [] && pq.Agrees(pri)
      requires forall v :: v in periodics.ws ==> (v in shots <==> !Recurs(v))
      modifies this`activecnt, periodics`cnt, periodics.heap, periodics.ws`active, periodics.ws`at
      modifies pq`pendings, pq`rfeeds, pq.ws`pending
      ensures HeapOk() == true && pq.Valid() == true && pq.rfeeds == []
      ensures ExpiredInOrder(fed, old(periodics.Members()), old(periodics.Keys()), ev_rt_now) == true
      ensures Rescheduled(fed, old(periodics.Members()), old(periodics.Keys())) == true
      ensures forall w :: w in periodics.Members() ==> w.at >= ev_rt_now
      ensures batches == if fed == [] then 0 else 1
      ensures Ranked(fed, pri, NUMPRI)
      ensures pq.pendings == FeedBackAll(ClearEach(old(pq.pendings), fed, shots, pri, pq.pending_w), fed, {PeriodicDue}, pri)
      ensures activecnt - periodics.cnt == old(activecnt - periodics.cnt)
    {
      NothingBatched(shots, pri);
      fed, batches := ExpireBatches(periodics.Members(), periodics.Keys(), pq.pendings, shots, pri,
                                    activecnt - periodics.cnt);
      NothingDue();
    }

    // what was due has expired
    lemma AllDueExpired(fed: seq<Watcher>, ms: set<Watcher>, key: map<Watcher, real>)
      requires ms <= periodics.ws == key.Keys
      requires Rescheduled(fed, ms, key) && forall w :: w in periodics.Members() ==> w.at >= ev_rt_now
      ensures AllDue(fed, ms, key, ev_rt_now) == true
    {
    }

    // periodics_reify, and then ev_invoke_pending: whatever the callbacks feed and clear, expired periodics of
    // one priority that were not pending before are called in order of expiry
    method ReifyAndInvoke(script: Script<Watcher>, ghost shots: set<Watcher>, ghost pri: map<Watcher, nat>)
      returns (ghost fed: seq<Watcher>, calls: seq<Slot<Watcher>>, ghost ds: seq<Dispatch<Watcher>>)
      requires Valid() && pq.rfeeds == [] && pq.Agrees(pri) && BehavesAll(script, pri, NUMPRI)
      requires forall v :: v in periodics.ws ==> (v in shots <==> !Recurs(v))
      modifies this`activecnt, periodics`cnt, periodics.heap, periodics.ws`active, periodics.ws`at
      modifies pq`pendings, pq`rfeeds, pq.ws`pending, pq.pending_w`pending
      ensures HeapOk() == true && pq.Valid() == true && pq.rfeeds == []
      ensures ExpiredInOrder(fed, old(periodics.Members()), old(periodics.Keys()), ev_rt_now) == true
      ensures AllDue(fed, old(periodics.Members()), old(periodics.Keys()), ev_rt_now) == true
      ensures Rescheduled(fed, old(periodics.Members()), old(periodics.Keys())) == true
      ensures |old(pq.pendings)| == NUMPRI && Ranked(fed, pri, NUMPRI)
      ensures Completed(ds, calls, script, pri, pq.pending_w,
                        AfterBatch(old(pq.pendings), fed, shots, {PeriodicDue}, pri, pq.pending_w)) == true
      ensures pq.pendings == ds[|calls|].ss && EachCalled(fed, calls, script, pq.pending_w) == true
      ensures CallsInOrder(fed, old(pq.pendings), pri, calls, script, pq.pending_w) == true
    {
      ghost var ss, ms, key, batches := pq.pendings, periodics.Members(), periodics.Keys(), 0;
      fed, batches := PeriodicsReify(shots, pri);
      AllDueExpired(fed, ms, key);
      pq.EachOneSlot(pri);
      calls, ds := pq.InvokePending(script, pri);
      CalledAsExpired(ss, fed, shots, {PeriodicDue}, pri, ds, calls, script, pq.pending_w);
    }

    // the loop of periodics_reschedule, which leaves the heap out of order
    method RecalculateAll()
      requires Valid()
      modifies periodics.heap, periodics.ws`at
      ensures periodics.Consistent() && periodics.Members() == old(periodics.Members())
      ensures forall w :: w in periodics.Members() ==>
                Follows(w.at, old(w.at), w.offset, w.interval, w.reschedule_cb, ev_rt_now)
      ensures forall w :: w in periodics.ws && w !in periodics.Members() ==> w.at == old(w.at)
    {
      ghost var ms := periodics.Members();
      for i := HEAP0 to periodics.cnt + HEAP0
        invariant periodics.Consistent() == true && periodics.Members() == ms
        invariant forall w :: w in periodics.ws && w in ms && w.active < i ==>
          Follows(w.at, old(w.at), w.offset, w.interval, w.reschedule_cb, ev_rt_now)
        invariant forall w :: w in periodics.ws && !(w in ms && w.active < i) ==> w.at == old(w.at)
      {
        var w := periodics.heap[i].w;
        var at := NextTime(w);
        periodics.PutKey(i, at);
      }
    }

    // periodics_reschedule
    method PeriodicsReschedule()
      requires Valid()
      modifies periodics.heap, periodics.ws`at, periodics.ws`active
      ensures Valid() && periodics.Members() == old(periodics.Members())
      ensures forall w :: w in periodics.Members() ==>
                Follows(w.at, old(w.at), w.offset, w.interval, w.reschedule_cb, ev_rt_now)
      ensures forall w :: w in periodics.ws && w !in periodics.Members() ==> w.at == old(w.at)
    {
      RecalculateAll();
      periodics.Rebuild();
    }

    // ---------- whole runs ----------

    ghost function State(): PeriodicState
      reads this`ev_rt_now, periodics.ws`at, periodics.ws`active
      reads periodics.ws`offset, periodics.ws`interval, periodics.ws`reschedule_cb
    {
      PeriodicState(periodics.Keys(), map w | w in periodics.ws :: Rule(w.offset, w.interval, w.reschedule_cb),
                    periodics.Members(), ev_rt_now)
    }

    // the loop is in state s
    ghost predicate Is(s: PeriodicState)
      reads this`ev_rt_now, periodics.ws`at, periodics.ws`active
      reads periodics.ws`offset, periodics.ws`interval, periodics.ws`reschedule_cb
    {
      && s.active <= periodics.ws == s.at.Keys == s.rules.Keys && s.now == ev_rt_now
      && forall w :: w in periodics.ws ==>
           w.at == s.at[w] && s.rules[w] == Rule(w.offset, w.interval, w.reschedule_cb) && (w.active != 0 <==> w in s.active)
    }

    lemma IsState(s: PeriodicState)
      ensures Is(s) <==> s == State()
    {
      if Is(s) {
        assert periodics.Keys() == s.at && periodics.Members() == s.active;
        assert State().rules == s.rules;
      }
    }

    // all periodics but w are as in s
    ghost predicate SameBut(s: PeriodicState, w: Watcher)
      reads this`ev_rt_now, (periodics.ws - {w})`at
      reads (periodics.ws - {w})`offset, (periodics.ws - {w})`interval, (periodics.ws - {w})`reschedule_cb
    {
      && s.active <= s.at.Keys == periodics.ws == s.rules.Keys && w in periodics.ws && s.now == ev_rt_now
      && forall v :: v in periodics.ws && v != w ==>
           v.at == s.at[v] && s.rules[v] == Rule(v.offset, v.interval, v.reschedule_cb)
    }

    lemma SameAtFirst(w: Watcher)
      requires w in periodics.ws
      ensures SameBut(State(), w) == true && w in State().at && w.at == State().at[w]
      ensures w in State().rules && State().rules[w] == Rule(w.offset, w.interval, w.reschedule_cb)
      ensures periodics.Members() == State().active
    {
    }

    // what a step on the single periodic w leaves behind
    lemma OnePeriodicState(s: PeriodicState, w: Watcher)
      requires SameBut(s, w)
      ensures var rule := Rule(w.offset, w.interval, w.reschedule_cb);
              && State() == PeriodicState(s.at[w := w.at], s.rules[w := rule], periodics.Members(), s.now)
              && (rule == s.rules[w] ==> s.rules[w := rule] == s.rules)
      ensures w.at == s.at[w] ==> s.at[w := w.at] == s.at
    {
      assert periodics.Keys() == s.at[w := w.at];
      assert State().rules == s.rules[w := Rule(w.offset, w.interval, w.reschedule_cb)];
    }

    method StartOne(w: Watcher, ghost s: PeriodicState)
      requires Valid() && w in periodics.ws
      requires SameBut(s, w) == true && periodics.Members() == s.active && w in s.at && w.at == s.at[w]
      requires w in s.rules && s.rules[w] == Rule(w.offset, w.interval, w.reschedule_cb)
      modifies this`activecnt, periodics`cnt, periodics`heap, periodics.heap, periodics.ws`active, w`at, w`priority
      ensures HeapOk() == true && pq.Valid() == true
      ensures periodics.heap == old(periodics.heap) || fresh(periodics.heap)
      ensures SameBut(s, w) == true && s.rules[w] == Rule(w.offset, w.interval, w.reschedule_cb)
      ensures periodics.Members() == s.active + {w}
      ensures if w in s.active then w.at == s.at[w] else Obeys(w.at, s.rules[w].offset, s.rules[w], s.now)
      ensures pq.pendings == old(pq.pendings)
      ensures old(w.HasPriority()) ==> w.priority == old(w.priority)
    {
      Start(w);
    }

    method StartStep(w: Watcher)
      requires Valid() && w in periodics.ws
      modifies this`activecnt, periodics`cnt, periodics`heap, periodics.heap, periodics.ws`active, w`at, w`priority
      ensures HeapOk() == true && pq.Valid() == true
      ensures periodics.heap == old(periodics.heap) || fresh(periodics.heap)
      ensures PeriodicStep(old(State()), DoStart(w), State())
      ensures pq.pendings == old(pq.pendings)
      ensures old(w.HasPriority()) ==> w.priority == old(w.priority)
    {
      ghost var s := State();
      SameAtFirst(w);
      StartOne(w, s);
      OnePeriodicState(s, w);
    }

    method StopOne(w: Watcher, ghost s: PeriodicState)
      requires Valid() && w in periodics.ws
      requires SameBut(s, w) == true && periodics.Members() == s.active && w in s.at && w.at == s.at[w]
      requires w in s.rules && s.rules[w] == Rule(w.offset, w.interval, w.reschedule_cb)
      modifies this`activecnt, periodics`cnt, periodics.heap, periodics.ws`active, pq`pendings, w`pending
      ensures HeapOk() == true && pq.Valid() == true
      ensures SameBut(s, w) == true && s.rules[w] == Rule(w.offset, w.interval, w.reschedule_cb)
      ensures periodics.Members() == s.active - {w} && w.at == s.at[w]
      ensures pq.pendings == pq.Without(old(pq.pendings), w)
    {
      Stop(w);
    }

    method StopStep(w: Watcher)
      requires Valid() && w in periodics.ws
      modifies this`activecnt, periodics`cnt, periodics.heap, periodics.ws`active, pq`pendings, w`pending
      ensures HeapOk() == true && pq.Valid() == true
      ensures PeriodicStep(old(State()), DoStop(w), State())
      ensures pq.pendings == pq.Without(old(pq.pendings), w)
    {
      ghost var s := State();
      SameAtFirst(w);
      StopOne(w, s);
      OnePeriodicState(s, w);
    }

    method AgainOne(w: Watcher, ghost s: PeriodicState)
      requires Valid() && w in periodics.ws
      requires SameBut(s, w) == true && periodics.Members() == s.active && w in s.at && w.at == s.at[w]
      requires w in s.rules && s.rules[w] == Rule(w.offset, w.interval, w.reschedule_cb)
      modifies this`activecnt, periodics`cnt, periodics`heap, periodics.heap, periodics.ws`active, w`at, w`priority
      modifies pq`pendings, w`pending
      ensures HeapOk() == true && pq.Valid() == true
      ensures periodics.heap == old(periodics.heap) || fresh(periodics.heap)
      ensures SameBut(s, w) == true && s.rules[w] == Rule(w.offset, w.interval, w.reschedule_cb)
      ensures periodics.Members() == s.active + {w} && Obeys(w.at, s.rules[w].offset, s.rules[w], s.now)
      ensures pq.pendings == pq.Without(old(pq.pendings), w)
      ensures old(w.HasPriority()) ==> w.priority == old(w.priority)
    {
      Again(w);
    }

    method AgainStep(w: Watcher)
      requires Valid() && w in periodics.ws
      modifies this`activecnt, periodics`cnt, periodics`heap, periodics.heap, periodics.ws`active, w`at, w`priority
      modifies pq`pendings, w`pending
      ensures HeapOk() == true && pq.Valid() == true
      ensures periodics.heap == old(periodics.heap) || fresh(periodics.heap)
      ensures PeriodicStep(old(State()), DoAgain(w), State())
      ensures pq.pendings == pq.Without(old(pq.pendings), w)
      ensures old(w.HasPriority()) ==> w.priority == old(w.priority)
    {
      ghost var s := State();
      SameAtFirst(w);
      AgainOne(w, s);
      OnePeriodicState(s, w);
    }

    // a new rule, which users may set at any time and which counts from the next rescheduling on
    method Set(w: Watcher, offset: real, interval: real, cb: Option<real -> real>)
      requires Valid() && w in periodics.ws && interval >= 0.0 && LooksAhead(cb)
      modifies w`offset, w`interval, w`reschedule_cb
      ensures HeapOk() == true && pq.Valid() == true
      ensures w.offset == offset && w.interval == interval && w.reschedule_cb == cb
    {
      w.offset, w.interval, w.reschedule_cb := offset, interval, cb;
    }

    method SetStep(w: Watcher, offset: real, interval: real, cb: Option<real -> real>)
      requires Valid() && w in periodics.ws && interval >= 0.0 && LooksAhead(cb)
      modifies w`offset, w`interval, w`reschedule_cb
      ensures HeapOk() == true && pq.Valid() == true
      ensures PeriodicStep(old(State()), DoSet(w, offset, interval, cb), State())
    {
      ghost var s := State();
      Set(w, offset, interval, cb);
      OnePeriodicState(s, w);
    }

    method StartFrom(w: Watcher, ghost s: PeriodicState) returns (ghost t: PeriodicState)
      requires Valid() && w in periodics.ws && Is(s)
      modifies this`activecnt, periodics`cnt, periodics`heap, periodics.heap, periodics.ws`active, w`at, w`priority
      ensures HeapOk() == true && pq.Valid() == true
      ensures periodics.heap == old(periodics.heap) || fresh(periodics.heap)
      ensures Is(t) == true && PeriodicRun([s, t], [DoStart(w)]) == true
      ensures pq.pendings == old(pq.pendings)
      ensures old(w.HasPriority()) ==> w.priority == old(w.priority)
    {
      IsState(s);
      StartStep(w);
      t := State();
      IsState(t);
      OneStep(s, DoStart(w), t);
    }

    method StopFrom(w: Watcher, ghost s: PeriodicState) returns (ghost t: PeriodicState)
      requires Valid() && w in periodics.ws && Is(s)
      modifies this`activecnt, periodics`cnt, periodics.heap, periodics.ws`active, pq`pendings, w`pending
      ensures HeapOk() == true && pq.Valid() == true
      ensures Is(t) == true && PeriodicRun([s, t], [DoStop(w)]) == true
      ensures pq.pendings == pq.Without(old(pq.pendings), w)
    {
      IsState(s);
      StopStep(w);
      t := State();
      IsState(t);
      OneStep(s, DoStop(w), t);
    }

    method AgainFrom(w: Watcher, ghost s: PeriodicState) returns (ghost t: PeriodicState)
      requires Valid() && w in periodics.ws && Is(s)
      modifies this`activecnt, periodics`cnt, periodics`heap, periodics.heap, periodics.ws`active, w`at, w`priority
      modifies pq`pendings, w`pending
      ensures HeapOk() == true && pq.Valid() == true
      ensures periodics.heap == old(periodics.heap) || fresh(periodics.heap)
      ensures Is(t) == true && PeriodicRun([s, t], [DoAgain(w)]) == true
      ensures pq.pendings == pq.Without(old(pq.pendings), w)
      ensures old(w.HasPriority()) ==> w.priority == old(w.priority)
    {
      IsState(s);
      AgainStep(w);
      t := State();
      IsState(t);
      OneStep(s, DoAgain(w), t);
    }

    lemma ReifyState(s: PeriodicState, fed: seq<Watcher>)
      requires s.active <= periodics.ws == s.at.Keys == s.rules.Keys && s.now == ev_rt_now
      requires forall w :: w in periodics.ws ==> s.rules[w] == Rule(w.offset, w.interval, w.reschedule_cb)
      requires ExpiredInOrder(fed, s.active, s.at, ev_rt_now) && Rescheduled(fed, s.active, s.at)
      requires forall w :: w in periodics.Members() ==> w.at >= ev_rt_now
      ensures PeriodicStep(s, DoReify, State())
    {
      var r := State();
      assert r.rules == s.rules;
      forall w | w in s.active
        ensures w in fed <==> s.at[w] < s.now
      {
        if w !in fed {
          assert w in periodics.Members() && w.at == s.at[w];
        }
      }
      assert forall w :: w in s.at ==> r.at[w] == w.at;
    }

    method ReifyFrom(ghost s: PeriodicState) returns (ghost fed: seq<Watcher>)
      requires Valid() && pq.rfeeds == [] && s == State()
      modifies this`activecnt, periodics`cnt, periodics.heap, periodics.ws`active, periodics.ws`at
      modifies pq`pendings, pq`rfeeds, pq.ws`pending
      ensures HeapOk() == true && pq.Valid() == true && pq.rfeeds == []
      ensures ExpiredInOrder(fed, s.active, s.at, ev_rt_now) == true && Rescheduled(fed, s.active, s.at) == true
      ensures forall w :: w in periodics.Members() ==> w.at >= ev_rt_now
      ensures forall w :: w in periodics.ws ==> s.rules[w] == Rule(w.offset, w.interval, w.reschedule_cb)
    {
      ghost var shots := set w | w in periodics.ws && !Recurs(w);
      ghost var pri := map w | w in pq.ws && w.HasPriority() :: w.AbsPri();
      ghost var batches;
      fed, batches := PeriodicsReify(shots, pri);
    }

    method ExpireFrom(ghost s: PeriodicState, ghost pri: map<Watcher, nat>)
      returns (ghost fed: seq<Watcher>, ghost t: PeriodicState)
      requires Valid() && Is(s) && pq.rfeeds == [] && pq.Agrees(pri)
      modifies this`activecnt, periodics`cnt, periodics.heap, periodics.ws`active, periodics.ws`at
      modifies pq`pendings, pq`rfeeds, pq.ws`pending
      ensures HeapOk() == true && pq.Valid() == true && pq.rfeeds == [] && Is(t) == true
      ensures PeriodicRun([s, t], [DoReify]) == true
      ensures ExpiredInOrder(fed, s.active, s.at, s.now) == true
      ensures AllDue(fed, s.active, s.at, s.now) == true
      ensures Ranked(fed, pri, NUMPRI) && |old(pq.pendings)| == NUMPRI
      ensures pq.pendings == FeedBackAll(ClearEach(old(pq.pendings), fed, OneShots(s), pri, pq.pending_w), fed, {PeriodicDue}, pri)
    {
      IsState(s);
      ghost var batches;
      fed, batches := PeriodicsReify(OneShots(s), pri);
      AllDueExpired(fed, s.active, s.at);
      ReifyState(s, fed);
      t := State();
      IsState(t);
      OneStep(s, DoReify, t);
    }

    method ReifyStep()
      requires Valid() && pq.rfeeds == []
      modifies this`activecnt, periodics`cnt, periodics.heap, periodics.ws`active, periodics.ws`at
      modifies pq`pendings, pq`rfeeds, pq.ws`pending
      ensures HeapOk() == true && pq.Valid() == true && pq.rfeeds == []
      ensures PeriodicStep(old(State()), DoReify, State())
    {
      ghost var s := State();
      ghost var fed := ReifyFrom(s);
      ReifyState(s, fed);
    }

    method RescheduleStep()
      requires Valid()
      modifies periodics.heap, periodics.ws`at, periodics.ws`active
      ensures HeapOk() == true && pq.Valid() == true
      ensures PeriodicStep(old(State()), DoReschedule, State())
    {
      ghost var s := State();
      PeriodicsReschedule();
      assert State().rules == s.rules;
    }

    method RescheduleFrom(ghost s: PeriodicState) returns (ghost t: PeriodicState)
      requires Valid() && Is(s)
      modifies periodics.heap, periodics.ws`at, periodics.ws`active
      ensures HeapOk() == true && pq.Valid() == true && Is(t) == true && PeriodicRun([s, t], [DoReschedule]) == true
    {
      IsState(s);
      RescheduleStep();
      t := State();
      IsState(t);
      OneStep(s, DoReschedule, t);
    }

    method TimeStep(now: real)
      requires Valid()
      modifies this`ev_rt_now
      ensures HeapOk() == true && pq.Valid() == true
      ensures PeriodicStep(old(State()), DoTime(now), State())
    {
      ghost var s := State();
      ev_rt_now := now;
      assert periodics.Keys() == s.at;
      assert State().rules == s.rules;
    }

    method Perform(op: PeriodicOp)
      requires Valid() && pq.rfeeds == [] && Concerns(op, periodics.ws)
      modifies this, periodics`cnt, periodics`heap, periodics.heap
      modifies periodics.ws`active, periodics.ws`at, periodics.ws`priority
      modifies periodics.ws`offset, periodics.ws`interval, periodics.ws`reschedule_cb
      modifies pq`pendings, pq`rfeeds, pq.ws`pending
      ensures HeapOk() == true && pq.Valid() == true && pq.rfeeds == []
      ensures periodics.heap == old(periodics.heap) || fresh(periodics.heap)
      ensures PeriodicStep(old(State()), op, State()) == true
    {
      match op
      case DoStart(w) => StartStep(w);
      case DoStop(w) => StopStep(w);
      case DoAgain(w) => AgainStep(w);
      case DoSet(w, offset, interval, cb) => SetStep(w, offset, interval, cb);
      case DoReify => ReifyStep();
      case DoReschedule => RescheduleStep();
      case DoTime(now) => TimeStep(now);
    }

    // Whatever is done to the periodics, the heap stays valid and does what the rules of a plain set of
    // periodics allow.
    method Replay(ops: seq<PeriodicOp>) returns (ghost ss: seq<PeriodicState>)
      requires Valid() && pq.rfeeds == []
      requires forall i :: 0 <= i < |ops| ==> Concerns(ops[i], periodics.ws)
      modifies this, periodics`cnt, periodics`heap, periodics.heap
      modifies periodics.ws`active, periodics.ws`at, periodics.ws`priority
      modifies periodics.ws`offset, periodics.ws`interval, periodics.ws`reschedule_cb
      modifies pq`pendings, pq`rfeeds, pq.ws`pending
      ensures Valid() && pq.rfeeds == []
      ensures PeriodicRun(ss, ops) && ss[0] == old(State()) && ss[|ops|] == State()
    {
      assert ops[..0] == [];
      ss := [State()];
      for i := 0 to |ops|
        invariant HeapOk() == true && pq.Valid() == true && pq.rfeeds == []
        invariant periodics.heap == old(periodics.heap) || fresh(periodics.heap)
        invariant PeriodicRun(ss, ops[..i]) == true && ss[0] == old(State()) && ss[i] == State()
      {
        Perform(ops[i]);
        ghost var t := State();
        RunMore(ss, ops[..i], ops[i], t);
        assert ops[..i + 1] == ops[..i] + [ops[i]];
        ss := ss + [t];
      }
      assert ops[..|ops|] == ops;
    }
  }

  // by what rule a periodic is rescheduled
  datatype Rule = Rule(offset: real, interval: real, cb: Option<real -> real>)

  datatype PeriodicState = PeriodicState(at: map<Watcher, real>, rules: map<Watcher, Rule>, active: set<Watcher>, now: real)

  // those that expire for good
  ghost function OneShots(s: PeriodicState): set<Watcher> {
    set w | w in s.rules && s.rules[w].cb.None? && s.rules[w].interval == 0.0
  }

  datatype PeriodicOp =
    | DoStart(w: Watcher)
    | DoStop(w: Watcher)
    | DoAgain(w: Watcher)
    | DoSet(w: Watcher, offset: real, interval: real, cb: Option<real -> real>)
    | DoReify
    | DoReschedule
    | DoTime(now: real)

  ghost predicate Concerns(op: PeriodicOp, ws: set<Watcher>) {
    && (op.DoStart? || op.DoStop? || op.DoAgain? || op.DoSet? ==> op.w in ws)
    && (op.DoSet? ==> op.interval >= 0.0 && LooksAhead(op.cb))
  }

  // w goes by its rule to `at`
  ghost predicate Obeys(at: real, before: real, rule: Rule, now: real) {
    Follows(at, before, rule.offset, rule.interval, rule.cb, now)
  }

  // the same operations on a plain set of periodics
  ghost predicate PeriodicStep(s: PeriodicState, op: PeriodicOp, t: PeriodicState) {
    && t.at.Keys == s.at.Keys == s.rules.Keys
    && match op
       case DoStart(w) =>
         w in s.at && t == s.(at := s.at[w := t.at[w]], active := s.active + {w})
         && if w in s.active then t.at[w] == s.at[w] else Obeys(t.at[w], s.rules[w].offset, s.rules[w], s.now)
       case DoStop(w) => t == s.(active := s.active - {w})
       case DoAgain(w) =>
         w in s.at && t == s.(at := s.at[w := t.at[w]], active := s.active + {w})
         && Obeys(t.at[w], s.rules[w].offset, s.rules[w], s.now)
       case DoSet(w, offset, interval, cb) => t == s.(rules := s.rules[w := Rule(offset, interval, cb)])
       case DoReify =>
         && (forall w :: w in s.at ==>
               if w in s.active && s.at[w] < s.now then Obeys(t.at[w], s.at[w], s.rules[w], s.now) else t.at[w] == s.at[w])
         && (forall w :: w in s.at ==>
               (w in t.active <==> w in s.active && !(s.at[w] < s.now && s.rules[w].cb.None? && s.rules[w].interval == 0.0)))
         && t.active <= s.at.Keys && t.rules == s.rules && t.now == s.now
       case DoReschedule =>
         && (forall w :: w in s.at ==>
               if w in s.active then Obeys(t.at[w], s.at[w], s.rules[w], s.now) else t.at[w] == s.at[w])
         && t == s.(at := t.at)
       case DoTime(now) => t == s.(now := now)
  }

  ghost predicate PeriodicRun(ss: seq<PeriodicState>, ops: seq<PeriodicOp>) {
    |ss| == |ops| + 1 && forall i :: 0 <= i < |ops| ==> PeriodicStep(ss[i], ops[i], ss[i + 1])
  }

  lemma OneStep(s: PeriodicState, op: PeriodicOp, t: PeriodicState)
    ensures PeriodicRun([s, t], [op]) <==> PeriodicStep(s, op, t)
  {
    assert [s, t][0] == s && [s, t][1] == t && [op][0] == op;
  }

  lemma RunMore(ss: seq<PeriodicState>, ops: seq<PeriodicOp>, op: PeriodicOp, t: PeriodicState)
    requires PeriodicRun(ss, ops) && PeriodicStep(ss[|ops|], op, t)
    ensures PeriodicRun(ss + [t], ops + [op]) == true
  {
    var rs, os := ss + [t], ops + [op];
    forall i | 0 <= i < |os|
      ensures PeriodicStep(rs[i], os[i], rs[i + 1])
    {
      if i < |ops| {
        assert rs[i] == ss[i] && rs[i + 1] == ss[i + 1] && os[i] == ops[i];
      }
    }
  }

  // ---------- what interval periodics do ----------

  // A periodic goes to the first point of its grid that lies after now, if its interval is not too small.
  lemma GoesToNextPoint(at: real, before: real, rule: Rule, now: real)
    requires Obeys(at, before, rule, now) && rule.cb.None? && rule.interval >= MIN_INTERVAL
    ensures OnGrid(at, rule.offset, rule.interval) && at > now
    ensures forall t :: OnGrid(t, rule.offset, rule.interval) && t > now ==> at <= t
  {
    forall t | OnGrid(t, rule.offset, rule.interval) && t > now
      ensures at <= t
    {
      NextOnGridLeast(at, t, rule.offset, rule.interval, now);
    }
  }

  // what an expiry does to one periodic
  lemma ReifyOne(s: PeriodicState, t: PeriodicState, w: Watcher)
    requires PeriodicStep(s, DoReify, t) && w in s.at && (s.rules[w].cb.None? ==> s.rules[w].interval >= 0.0)
    ensures var rule, due := s.rules[w], w in s.active && s.at[w] < s.now;
            && (!due ==> t.at[w] == s.at[w] && (w in t.active <==> w in s.active))
            && (due && rule.cb.Some? ==> w in t.active && t.at[w] == rule.cb.value(s.now))
            && (due && rule.cb.None? && rule.interval == 0.0 ==> w !in t.active && t.at[w] == s.at[w])
            && (due && rule.cb.None? && rule.interval > 0.0 ==> w in t.active && s.now < t.at[w] <= s.now + rule.interval)
            && (due && rule.cb.None? && 0.0 < rule.interval < MIN_INTERVAL ==>
                  NextOnFineGrid(t.at[w], rule.offset, rule.interval, s.now))
            && (due && rule.cb.None? && rule.interval >= MIN_INTERVAL ==>
                  && OnGrid(t.at[w], rule.offset, rule.interval)
                  && forall x :: OnGrid(x, rule.offset, rule.interval) && x > s.now ==> t.at[w] <= x)
  {
    if w in s.active && s.at[w] < s.now && s.rules[w].cb.None? && s.rules[w].interval >= MIN_INTERVAL {
      GoesToNextPoint(t.at[w], s.at[w], s.rules[w], s.now);
    }
  }

  // an active interval periodic w, its rule and where its key lies
  ghost predicate OnItsGrid(s: PeriodicState, w: Watcher, rule: Rule) {
    w in s.active && w in s.at && w in s.rules && s.rules[w] == rule && OnGrid(s.at[w], rule.offset, rule.interval)
  }

  lemma StaysOnGrid(s: PeriodicState, op: PeriodicOp, t: PeriodicState, w: Watcher, rule: Rule)
    requires PeriodicStep(s, op, t) && OnItsGrid(s, w, rule) && rule.cb.None? && rule.interval >= MIN_INTERVAL
    requires op != DoStop(w) && (op.DoSet? ==> op.w != w)
    ensures OnItsGrid(t, w, rule)
  {
  }

  // Interval periodics never leave their grid, however late they are seen to and wherever the clock jumps.
  lemma {:induction false} IntervalsKeepTheGrid(ss: seq<PeriodicState>, ops: seq<PeriodicOp>, w: Watcher, rule: Rule, n: nat)
    requires PeriodicRun(ss, ops) && n <= |ops|
    requires OnItsGrid(ss[0], w, rule) && rule.cb.None? && rule.interval >= MIN_INTERVAL
    requires forall i :: 0 <= i < |ops| ==> ops[i] != DoStop(w) && (ops[i].DoSet? ==> ops[i].w != w)
    ensures OnItsGrid(ss[n], w, rule)
  {
    if n > 0 {
      IntervalsKeepTheGrid(ss, ops, w, rule, n - 1);
      StaysOnGrid(ss[n - 1], ops[n - 1], ss[n], w, rule);
    }
  }
}
