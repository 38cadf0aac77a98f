/**
  ev_run (deps/ev/ev.c): timers, periodics and I/O watchers on one loop, with
  callbacks that start and stop any of them, proved against TurnSpecs.
 */
module LoopTurns {
  import opened Watchers
  import opened Basics
  import opened PendingStacks
  import opened PendingQueues
  import opened CallOrder
  import opened FourHeap
  import opened BlockTimes
  import opened Expiry
  import opened TurnSpecs
  import T = Timers
  import P = Periodics
  import D = Descriptors

  // the top of the stack for pri was taken and its callback did ops
  lemma TopTaken(ss: Stacks<Watcher>, r: Stacks<Watcher>, pri: nat, below: nat, p: Slot<Watcher>,
                 ops: seq<Op<Watcher>>, prim: map<Watcher, nat>, dummy: Watcher)
    requires pri < below <= |ss| && ss[pri] != [] && forall q :: pri < q < below ==> ss[q] == []
    requires p == ss[pri][|ss[pri]| - 1] && Behaves(ops, prim, |ss|)
    requires r == ActAll(ss[pri := ss[pri][..|ss[pri]| - 1]], ops, prim, dummy)
    ensures DispatchStep(Dispatch(ss, below), Dispatch(r, pri + 1), p, ops, prim, dummy) == true
  {
    assert Highest(ss, below) == pri;
  }

  ghost predicate TracedTo(ss: Stacks<Watcher>, ds: seq<Dispatch<Watcher>>, calls: seq<Slot<Watcher>>,
                           script: LoopScript, prim: map<Watcher, nat>, dummy: Watcher, start: Stacks<Watcher>, pri: nat) {
    && Dispatches(ds, calls, Stacked(script), prim, dummy) && ds[0] == Dispatch(start, NUMPRI)
    && |ss| == NUMPRI && ds[|calls|].ss == ss && pri <= ds[|calls|].below <= NUMPRI
    && forall q :: pri <= q < ds[|calls|].below ==> ss[q] == []
  }

  // up to pair number i + 1 the clocks were as far apart as never before
  ghost predicate ReadSoFar(diff0: real, rs: seq<Syscall>, i: nat) {
    InPairs(rs) && |rs| == 2 * (i + 1) && forall n :: 1 <= n <= i ==> Differs(diff0, Gap(rs, n))
  }

  // one more pair
  lemma ReadMore(diff0: real, rs: seq<Syscall>, i: nat, wall: real, mono: real)
    requires ReadSoFar(diff0, rs, i) && Differs(diff0, Gap(rs, i + 1))
    ensures var more := rs + [Wall(wall), Mono(mono)];
            && ReadSoFar(diff0, more, i + 1) && LastMono(more) == mono && LastWall(more) == wall
            && Gap(more, i + 1) == Gap(rs, i + 1)
  {
    var half := rs + [Wall(wall)];
    var more := rs + [Wall(wall), Mono(mono)];
    assert LastWall(half) == wall && more[..|more| - 1] == half;
    forall n | 1 <= n <= i + 1
      ensures Gap(more, n) == Gap(rs, n)
    {
      assert more[..2 * n] == rs[..2 * n];
    }
  }

  class EventLoop {
    const tl: T.TimerLoop
    const pl: P.PeriodicLoop
    const fl: D.FdLoop
    const pq: PendingQueue
    const have_monotonic: bool
    var now_floor: real
    var rtmn_diff: real
    const limits: Limits
    ghost var syscalls: seq<Syscall>
    ghost const seal: nat  // the number of layers of the invariants below

    constructor (tl: T.TimerLoop, pl: P.PeriodicLoop, fl: D.FdLoop, pq: PendingQueue, have_monotonic: bool,
                 limits: Limits)
      ensures this.tl == tl && this.pl == pl && this.fl == fl && this.pq == pq
      ensures this.have_monotonic == have_monotonic
      ensures this.limits == limits && syscalls == [] && seal == 3
    {
      this.tl, this.pl, this.fl, this.pq, this.have_monotonic, this.limits := tl, pl, fl, pq, have_monotonic, limits;
      syscalls := [];
      now_floor, rtmn_diff := tl.mn_now, pl.ev_rt_now - tl.mn_now;
      seal := 3;
    }

    // ---------- the invariant ----------

    // the parts share the pending stacks and nothing else
    ghost predicate Separate()
      reads tl.timers, pl.periodics
    {
      && seal > 2 && tl.pq == pq && pl.pq == pq && fl.pq == pq
      && tl.timers != pl.periodics && tl.timers.heap != pl.periodics.heap
      && tl.timers.ws !! pl.periodics.ws && tl.timers.ws !! fl.ws && pl.periodics.ws !! fl.ws
      && tl.timers.ws <= pq.ws && pl.periodics.ws <= pq.ws && fl.ws <= pq.ws && pq.pending_w !in pq.ws
    }

    // prim holds the priority of every watcher of the loop, all of which are in range
    ghost predicate Prioritised(prim: map<Watcher, nat>)
      reads pq.ws`priority
    {
      && prim.Keys == pq.ws
      && forall w :: w in pq.ws ==> w.HasPriority() && prim[w] == w.AbsPri()
    }

    // The invariants of the four parts, with what they have started.  Each is defined through `seal` layers that
    // add nothing, so that it is not unfolded in a method that only passes it on; the Open lemmas say that the
    // innermost layer, XAt(0, ..), is the invariant itself.

    // the timers are in order, and are those of s
    ghost predicate TimersOk(s: T.TimerState)
      reads tl`mn_now, tl.timers, tl.timers.heap
      reads tl.timers.ws`at, tl.timers.ws`active, tl.timers.ws`repeat, tl.timers.ws`priority
    {
      TimersAt(seal, s)
    }

    ghost predicate TimersAt(n: nat, s: T.TimerState)
      reads tl`mn_now, tl.timers, tl.timers.heap
      reads tl.timers.ws`at, tl.timers.ws`active, tl.timers.ws`repeat, tl.timers.ws`priority
      decreases n
    {
      if n > 0 then TimersAt(n - 1, s)
      else tl.HeapOk() && tl.Is(s)
    }

    lemma {:induction false} TimersAtAnyDepth(n: nat, s: T.TimerState)
      ensures TimersAt(n, s) <==> TimersAt(0, s)
    {
      if n > 0 {
        TimersAtAnyDepth(n - 1, s);
      }
    }

    lemma OpenTimers(s: T.TimerState)
      ensures TimersOk(s) <==> TimersAt(0, s)
    {
      TimersAtAnyDepth(seal, s);
    }

    // the periodics are in order, and are those of s
    ghost predicate PeriodicsOk(s: P.PeriodicState)
      reads pl`ev_rt_now, pl.periodics, pl.periodics.heap
      reads pl.periodics.ws`at, pl.periodics.ws`active, pl.periodics.ws`priority
      reads pl.periodics.ws`offset, pl.periodics.ws`interval, pl.periodics.ws`reschedule_cb
    {
      PeriodicsAt(seal, s)
    }

    ghost predicate PeriodicsAt(n: nat, s: P.PeriodicState)
      reads pl`ev_rt_now, pl.periodics, pl.periodics.heap
      reads pl.periodics.ws`at, pl.periodics.ws`active, pl.periodics.ws`priority
      reads pl.periodics.ws`offset, pl.periodics.ws`interval, pl.periodics.ws`reschedule_cb
      decreases n
    {
      if n > 0 then PeriodicsAt(n - 1, s)
      else pl.HeapOk() && pl.Is(s)
    }

    lemma {:induction false} PeriodicsAtAnyDepth(n: nat, s: P.PeriodicState)
      ensures PeriodicsAt(n, s) <==> PeriodicsAt(0, s)
    {
      if n > 0 {
        PeriodicsAtAnyDepth(n - 1, s);
      }
    }

    lemma OpenPeriodics(s: P.PeriodicState)
      ensures PeriodicsOk(s) <==> PeriodicsAt(0, s)
    {
      PeriodicsAtAnyDepth(seal, s);
    }

    // the I/O watchers are in order, and are those of s
    ghost predicate IoOk(s: D.IoState)
      reads fl, fl.ws`next, fl.ws`active, fl.ws`fd, fl.ws`events, fl.ws`priority
      reads fl.poll, fl.poll.pollidxs, fl.poll.polls, fl.sel, fl.sel.vec_ri, fl.sel.vec_wi
    {
      IoAt(seal, s)
    }

    ghost predicate IoAt(n: nat, s: D.IoState)
      reads fl, fl.ws`next, fl.ws`active, fl.ws`fd, fl.ws`events, fl.ws`priority
      reads fl.poll, fl.poll.pollidxs, fl.poll.polls, fl.sel, fl.sel.vec_ri, fl.sel.vec_wi
      decreases n
    {
      if n > 0 then IoAt(n - 1, s)
      else fl.ListsOk() && fl.InSync() && D.Queued(fl.fdchanges, 0, fl.anfds) && fl.Startable()
           && fl.BackendAgrees(fl.anfds, fl.epoll_eperms) && fl.Is(s)
    }

    lemma {:induction false} IoAtAnyDepth(n: nat, s: D.IoState)
      ensures IoAt(n, s) <==> IoAt(0, s)
    {
      if n > 0 {
        IoAtAnyDepth(n - 1, s);
      }
    }

    lemma OpenIo(s: D.IoState)
      ensures IoOk(s) <==> IoAt(0, s)
    {
      IoAtAnyDepth(seal, s);
    }

    // the pending stacks are in order, and prim holds the priorities
    ghost predicate QueueOk(prim: map<Watcher, nat>)
      reads pq, pq.ws`pending, pq.ws`priority
    {
      QueueAt(seal, prim)
    }

    ghost predicate QueueAt(n: nat, prim: map<Watcher, nat>)
      reads pq, pq.ws`pending, pq.ws`priority
      decreases n
    {
      if n > 0 then QueueAt(n - 1, prim)
      else pq.Valid() && Prioritised(prim)
    }

    lemma {:induction false} QueueAtAnyDepth(n: nat, prim: map<Watcher, nat>)
      ensures QueueAt(n, prim) <==> QueueAt(0, prim)
    {
      if n > 0 {
        QueueAtAnyDepth(n - 1, prim);
      }
    }

    lemma OpenQueue(prim: map<Watcher, nat>)
      ensures QueueOk(prim) <==> QueueAt(0, prim)
    {
      QueueAtAnyDepth(seal, prim);
    }

    // everything is in order between calls, and what is started is what r says
    ghost predicate Sound(r: Started, prim: map<Watcher, nat>)
      reads tl`mn_now, tl.timers, tl.timers.heap
      reads tl.timers.ws`at, tl.timers.ws`active, tl.timers.ws`repeat, tl.timers.ws`priority
      reads pl`ev_rt_now, pl.periodics, pl.periodics.heap
      reads pl.periodics.ws`at, pl.periodics.ws`active, pl.periodics.ws`priority
      reads pl.periodics.ws`offset, pl.periodics.ws`interval, pl.periodics.ws`reschedule_cb
      reads fl, fl.ws`next, fl.ws`active, fl.ws`fd, fl.ws`events, fl.ws`priority
      reads fl.poll, fl.poll.pollidxs, fl.poll.polls, fl.sel, fl.sel.vec_ri, fl.sel.vec_wi
      reads this`rtmn_diff, this`now_floor, this`syscalls, pq, pq.ws`pending, pq.ws`priority
    {
      SoundAt(seal, r, prim)
    }

    ghost predicate SoundAt(n: nat, r: Started, prim: map<Watcher, nat>)
      reads tl`mn_now, tl.timers, tl.timers.heap
      reads tl.timers.ws`at, tl.timers.ws`active, tl.timers.ws`repeat, tl.timers.ws`priority
      reads pl`ev_rt_now, pl.periodics, pl.periodics.heap
      reads pl.periodics.ws`at, pl.periodics.ws`active, pl.periodics.ws`priority
      reads pl.periodics.ws`offset, pl.periodics.ws`interval, pl.periodics.ws`reschedule_cb
      reads fl, fl.ws`next, fl.ws`active, fl.ws`fd, fl.ws`events, fl.ws`priority
      reads fl.poll, fl.poll.pollidxs, fl.poll.polls, fl.sel, fl.sel.vec_ri, fl.sel.vec_wi
      reads this`rtmn_diff, this`now_floor, this`syscalls, pq, pq.ws`pending, pq.ws`priority
      decreases n
    {
      if n > 0 then SoundAt(n - 1, r, prim)
      else
        && Separate() && TimersOk(r.timers) && PeriodicsOk(r.periodics) && IoOk(r.io) && QueueOk(prim)
        && |pq.pendings| == NUMPRI && rtmn_diff == r.diff && now_floor == r.floor && syscalls == r.log
    }

    lemma {:induction false} SoundAtAnyDepth(n: nat, r: Started, prim: map<Watcher, nat>)
      ensures SoundAt(n, r, prim) <==> SoundAt(0, r, prim)
    {
      if n > 0 {
        SoundAtAnyDepth(n - 1, r, prim);
      }
    }

    lemma OpenSound(r: Started, prim: map<Watcher, nat>)
      ensures Sound(r, prim) <==> SoundAt(0, r, prim)
    {
      SoundAtAnyDepth(seal, r, prim);
    }

    // a loop of parts in order is in order
    lemma SoundAtFirst(prim: map<Watcher, nat>)
      requires Separate() && tl.HeapOk() && pl.HeapOk() && fl.Valid() && fl.Startable()
      requires fl.BackendAgrees(fl.anfds, fl.epoll_eperms) && Prioritised(prim)
      ensures Sound(Started(tl.State(), pl.State(), fl.Io(), rtmn_diff, now_floor, syscalls), prim) == true
    {
      tl.IsState(tl.State());
      pl.IsState(pl.State());
      fl.IsIo(fl.Io());
      OpenTimers(tl.State());
      OpenPeriodics(pl.State());
      OpenIo(fl.Io());
      OpenQueue(prim);
      OpenSound(Started(tl.State(), pl.State(), fl.Io(), rtmn_diff, now_floor, syscalls), prim);
    }

    // the heaps are the old ones or newly allocated
    twostate predicate HeapsMoved(th: array<Anhe>, ph: array<Anhe>)
      reads tl.timers, pl.periodics
    {
      (tl.timers.heap == th || fresh(tl.timers.heap)) && (pl.periodics.heap == ph || fresh(pl.periodics.heap))
    }

    // ---------- what callbacks do ----------

    // an operation turned the stacks ss into ss'
    ghost predicate Acted(ss: Stacks<Watcher>, op: LoopOp, ss': Stacks<Watcher>, prim: map<Watcher, nat>) {
      && |ss| == NUMPRI && Behaves(StackOps(op), prim, NUMPRI)
      && ss' == ActAll(ss, StackOps(op), prim, pq.pending_w)
    }

    // the watchers an operation is for
    ghost predicate Known(op: LoopOp) {
      match op
      case FeedEvent(w, _) => w in pq.ws
      case ClearPending(w) => w in pq.ws
      case TimerStart(w) => w in tl.timers.ws
      case TimerStop(w) => w in tl.timers.ws
      case TimerAgain(w) => w in tl.timers.ws
      case PeriodicStart(w) => w in pl.periodics.ws
      case PeriodicStop(w) => w in pl.periodics.ws
      case PeriodicAgain(w) => w in pl.periodics.ws
      case IoStart(w) => w in fl.ws
      case IoStop(w) => w in fl.ws
    }

    // starting does nothing to the stacks, stopping and restarting clear
    lemma Effect(op: LoopOp, ss: Stacks<Watcher>, ss': Stacks<Watcher>, prim: map<Watcher, nat>)
      requires Prioritised(prim) && op.w in pq.ws && |ss| == NUMPRI
      requires ss' ==
        if op.TimerStart? || op.PeriodicStart? || op.IoStart? then ss
        else if op.FeedEvent? then FeedAt(ss, op.w.AbsPri(), op.w, op.revents)
        else pq.Without(ss, op.w)
      ensures Acted(ss, op, ss', prim) == true
    {
      var ops := StackOps(op);
      if ops != [] {
        assert ActAll(ss, ops[..|ops| - 1], prim, pq.pending_w) == ss;
      }
    }

    ghost predicate AllKnown(ops: seq<LoopOp>) {
      forall i :: 0 <= i < |ops| ==> Known(ops[i])
    }

    method StartTimer(w: Watcher, ghost s: T.TimerState, ghost prim: map<Watcher, nat>)
      returns (ghost s': T.TimerState)
      requires Separate() && TimersOk(s) && QueueOk(prim) && |pq.pendings| == NUMPRI && w in tl.timers.ws
      modifies tl`activecnt, tl.timers`cnt, tl.timers`heap, tl.timers.heap
      modifies tl.timers.ws`active, w`at, w`priority
      ensures Separate() == true && TimersOk(s') == true && QueueOk(prim) == true
      ensures TimerTrace([s, s'], [T.DoStart(w)]) == true
      ensures tl.timers.heap == old(tl.timers.heap) || fresh(tl.timers.heap)
      ensures |old(pq.pendings)| == NUMPRI && pq.pendings == old(pq.pendings)
    {
      OpenTimers(s);
      OpenQueue(prim);
      tl.StartFrom(w, s);
      s' := T.TimerStep(s, T.DoStart(w));
      OneTimerMove(s, T.DoStart(w), s');
      OpenTimers(s');
      OpenQueue(prim);
    }

    method StopTimer(w: Watcher, ghost s: T.TimerState, ghost prim: map<Watcher, nat>)
      returns (ghost s': T.TimerState)
      requires Separate() && TimersOk(s) && QueueOk(prim) && |pq.pendings| == NUMPRI && w in tl.timers.ws
      modifies tl`activecnt, tl.timers`cnt, tl.timers.heap, tl.timers.ws`active, w`at, pq`pendings, w`pending
      ensures Separate() == true && TimersOk(s') == true && QueueOk(prim) == true
      ensures TimerTrace([s, s'], [T.DoStop(w)]) == true
      ensures |old(pq.pendings)| == NUMPRI && pq.pendings == pq.Without(old(pq.pendings), w)
    {
      OpenTimers(s);
      OpenQueue(prim);
      tl.StopFrom(w, s);
      s' := T.TimerStep(s, T.DoStop(w));
      OneTimerMove(s, T.DoStop(w), s');
      OpenTimers(s');
      OpenQueue(prim);
    }

    method AgainTimerOpen(w: Watcher, ghost s: T.TimerState, ghost prim: map<Watcher, nat>)
      returns (ghost s': T.TimerState)
      requires Separate() && TimersAt(0, s) && QueueAt(0, prim) && w in tl.timers.ws
      modifies tl`activecnt, tl.timers`cnt, tl.timers`heap, tl.timers.heap, tl.timers.ws`active
      modifies w`at, w`priority, w`pending, pq`pendings
      ensures tl.HeapOk() == true && tl.Is(s') == true && pq.Valid() == true && Prioritised(prim) == true
      ensures TimerTrace([s, s'], [T.DoAgain(w)]) == true
      ensures tl.timers.heap == old(tl.timers.heap) || fresh(tl.timers.heap)
      ensures |old(pq.pendings)| == NUMPRI && pq.pendings == pq.Without(old(pq.pendings), w)
    {
      tl.AgainFrom(w, s);
      s' := T.TimerStep(s, T.DoAgain(w));
      OneTimerMove(s, T.DoAgain(w), s');
    }

    method AgainTimer(w: Watcher, ghost s: T.TimerState, ghost prim: map<Watcher, nat>)
      returns (ghost s': T.TimerState)
      requires Separate() && TimersOk(s) && QueueOk(prim) && |pq.pendings| == NUMPRI && w in tl.timers.ws
      modifies tl`activecnt, tl.timers`cnt, tl.timers`heap, tl.timers.heap, tl.timers.ws`active
      modifies w`at, w`priority, w`pending, pq`pendings
      ensures Separate() == true && TimersOk(s') == true && QueueOk(prim) == true
      ensures TimerTrace([s, s'], [T.DoAgain(w)]) == true
      ensures tl.timers.heap == old(tl.timers.heap) || fresh(tl.timers.heap)
      ensures |old(pq.pendings)| == NUMPRI && pq.pendings == pq.Without(old(pq.pendings), w)
    {
      OpenTimers(s);
      OpenQueue(prim);
      s' := AgainTimerOpen(w, s, prim);
      OpenTimers(s');
      OpenQueue(prim);
    }

    method StartPeriodic(w: Watcher, ghost s: P.PeriodicState, ghost prim: map<Watcher, nat>)
      returns (ghost s': P.PeriodicState)
      requires Separate() && PeriodicsOk(s) && QueueOk(prim) && |pq.pendings| == NUMPRI && w in pl.periodics.ws
      modifies pl`activecnt, pl.periodics`cnt, pl.periodics`heap, pl.periodics.heap
      modifies pl.periodics.ws`active, w`at, w`priority
      ensures Separate() == true && PeriodicsOk(s') == true && QueueOk(prim) == true
      ensures P.PeriodicRun([s, s'], [P.DoStart(w)]) == true
      ensures pl.periodics.heap == old(pl.periodics.heap) || fresh(pl.periodics.heap)
      ensures |old(pq.pendings)| == NUMPRI && pq.pendings == old(pq.pendings)
    {
      OpenPeriodics(s);
      OpenQueue(prim);
      s' := pl.StartFrom(w, s);
      OpenPeriodics(s');
      OpenQueue(prim);
    }

    method StopPeriodic(w: Watcher, ghost s: P.PeriodicState, ghost prim: map<Watcher, nat>)
      returns (ghost s': P.PeriodicState)
      requires Separate() && PeriodicsOk(s) && QueueOk(prim) && |pq.pendings| == NUMPRI && w in pl.periodics.ws
      modifies pl`activecnt, pl.periodics`cnt, pl.periodics.heap, pl.periodics.ws`active, pq`pendings, w`pending
      ensures Separate() == true && PeriodicsOk(s') == true && QueueOk(prim) == true
      ensures P.PeriodicRun([s, s'], [P.DoStop(w)]) == true
      ensures |old(pq.pendings)| == NUMPRI && pq.pendings == pq.Without(old(pq.pendings), w)
    {
      OpenPeriodics(s);
      OpenQueue(prim);
      s' := pl.StopFrom(w, s);
      OpenPeriodics(s');
      OpenQueue(prim);
    }

    method AgainPeriodicOpen(w: Watcher, ghost s: P.PeriodicState, ghost prim: map<Watcher, nat>)
      returns (ghost s': P.PeriodicState)
      requires Separate() && PeriodicsAt(0, s) && QueueAt(0, prim) && w in pl.periodics.ws
      modifies pl`activecnt, pl.periodics`cnt, pl.periodics`heap, pl.periodics.heap, pl.periodics.ws`active
      modifies w`at, w`priority, w`pending, pq`pendings
      ensures pl.HeapOk() == true && pl.Is(s') == true && pq.Valid() == true && Prioritised(prim) == true
      ensures P.PeriodicRun([s, s'], [P.DoAgain(w)]) == true
      ensures pl.periodics.heap == old(pl.periodics.heap) || fresh(pl.periodics.heap)
      ensures |old(pq.pendings)| == NUMPRI && pq.pendings == pq.Without(old(pq.pendings), w)
    {
      s' := pl.AgainFrom(w, s);
    }

    method AgainPeriodic(w: Watcher, ghost s: P.PeriodicState, ghost prim: map<Watcher, nat>)
      returns (ghost s': P.PeriodicState)
      requires Separate() && PeriodicsOk(s) && QueueOk(prim) && |pq.pendings| == NUMPRI && w in pl.periodics.ws
      modifies pl`activecnt, pl.periodics`cnt, pl.periodics`heap, pl.periodics.heap, pl.periodics.ws`active
      modifies w`at, w`priority, w`pending, pq`pendings
      ensures Separate() == true && PeriodicsOk(s') == true && QueueOk(prim) == true
      ensures P.PeriodicRun([s, s'], [P.DoAgain(w)]) == true
      ensures pl.periodics.heap == old(pl.periodics.heap) || fresh(pl.periodics.heap)
      ensures |old(pq.pendings)| == NUMPRI && pq.pendings == pq.Without(old(pq.pendings), w)
    {
      OpenPeriodics(s);
      OpenQueue(prim);
      s' := AgainPeriodicOpen(w, s, prim);
      OpenPeriodics(s');
      OpenQueue(prim);
    }

    method StartIoOpen(w: Watcher, ghost s: D.IoState, ghost prim: map<Watcher, nat>) returns (ghost s': D.IoState)
      requires Separate() && IoAt(0, s) && QueueAt(0, prim) && w in fl.ws
      modifies fl`anfds, fl`lists, fl`fdchanges, fl`activecnt, fl`gone, w`next, w`active, w`events, w`priority
      ensures fl.ListsOk() == true && fl.InSync() == true && D.Queued(fl.fdchanges, 0, fl.anfds) == true
      ensures fl.Startable() == true
      ensures fl.BackendAgrees(fl.anfds, fl.epoll_eperms) == true && fl.Is(s') == true
      ensures s' == s.(active := s.active + {w})
      ensures pq.Valid() == true && Prioritised(prim) == true
      ensures pq.pendings == old(pq.pendings)
    {
      fl.StartFrom(w, s);
      s' := s.(active := s.active + {w});
    }

    method StartIo(w: Watcher, ghost s: D.IoState, ghost prim: map<Watcher, nat>) returns (ghost s': D.IoState)
      requires Separate() && IoOk(s) && QueueOk(prim) && |pq.pendings| == NUMPRI && w in fl.ws
      modifies fl`anfds, fl`lists, fl`fdchanges, fl`activecnt, fl`gone, w`next, w`active, w`events, w`priority
      ensures Separate() == true && IoOk(s') == true && QueueOk(prim) == true && s' == s.(active := s.active + {w})
      ensures |old(pq.pendings)| == NUMPRI && pq.pendings == old(pq.pendings)
    {
      OpenIo(s);
      OpenQueue(prim);
      s' := StartIoOpen(w, s, prim);
      OpenIo(s');
      OpenQueue(prim);
    }

    method StopIo(w: Watcher, ghost s: D.IoState, ghost prim: map<Watcher, nat>) returns (ghost s': D.IoState)
      requires Separate() && IoOk(s) && QueueOk(prim) && |pq.pendings| == NUMPRI && w in fl.ws
      modifies fl`anfds, fl`lists, fl`fdchanges, fl`activecnt, fl`gone, fl.ws`next, w`active, w`pending, pq`pendings
      ensures Separate() == true && IoOk(s') == true && QueueOk(prim) == true && s' == s.(active := s.active - {w})
      ensures |old(pq.pendings)| == NUMPRI && pq.pendings == pq.Without(old(pq.pendings), w)
    {
      OpenIo(s);
      OpenQueue(prim);
      fl.StopFrom(w, s);
      s' := s.(active := s.active - {w});
      OpenIo(s');
      OpenQueue(prim);
    }

    method Feed(w: Watcher, revents: Mask, ghost prim: map<Watcher, nat>)
      requires Separate() && QueueOk(prim) && |pq.pendings| == NUMPRI && w in pq.ws
      modifies pq`pendings, w`pending
      ensures Separate() == true && QueueOk(prim) == true
      ensures |old(pq.pendings)| == NUMPRI && w.HasPriority()
      ensures pq.pendings == FeedAt(old(pq.pendings), w.AbsPri(), w, revents)
    {
      OpenQueue(prim);
      pq.FeedEvent(w, revents);
      OpenQueue(prim);
    }

    method Clear(w: Watcher, ghost prim: map<Watcher, nat>)
      requires Separate() && QueueOk(prim) && |pq.pendings| == NUMPRI && w in pq.ws
      modifies pq`pendings, w`pending
      ensures Separate() == true && QueueOk(prim) == true
      ensures |old(pq.pendings)| == NUMPRI && w.HasPriority() && pq.pendings == pq.Without(old(pq.pendings), w)
    {
      OpenQueue(prim);
      pq.ClearPending(w);
      OpenQueue(prim);
    }

    method TimerAlone(op: LoopOp, ghost s: T.TimerState, ghost prim: map<Watcher, nat>)
      returns (ghost s': T.TimerState)
      requires Separate() == true && TimersOk(s) == true && QueueOk(prim) == true && |pq.pendings| == NUMPRI
      requires Known(op) && IsTimerOp(op)
      modifies tl`activecnt, tl.timers`cnt, tl.timers`heap, tl.timers.heap
      modifies tl.timers.ws`active, tl.timers.ws`at, tl.timers.ws`priority
      modifies pq`pendings, pq.ws`pending
      ensures Separate() == true && TimersOk(s') == true && QueueOk(prim) == true
      ensures TimerTrace([s, s'], [TimerOp(op)]) == true
      ensures tl.timers.heap == old(tl.timers.heap) || fresh(tl.timers.heap)
      ensures Acted(old(pq.pendings), op, pq.pendings, prim) == true
    {
      ghost var ss := pq.pendings;
      match op {
        case TimerStart(w) => s' := StartTimer(w, s, prim);
        case TimerStop(w) => s' := StopTimer(w, s, prim);
        case TimerAgain(w) => s' := AgainTimer(w, s, prim);
      }
      OpenQueue(prim);
      Effect(op, ss, pq.pendings, prim);
    }

    method PerformTimer(op: LoopOp, ghost r: Started, ghost prim: map<Watcher, nat>) returns (ghost r': Started)
      requires Sound(r, prim) == true && Known(op) && IsTimerOp(op)
      modifies tl`activecnt, tl.timers`cnt, tl.timers`heap, tl.timers.heap
      modifies tl.timers.ws`active, tl.timers.ws`at, tl.timers.ws`priority
      modifies pq`pendings, pq.ws`pending
      ensures Sound(r', prim) == true && r' == r.(timers := r'.timers)
      ensures TimerTrace([r.timers, r'.timers], [TimerOp(op)]) == true
      ensures tl.timers.heap == old(tl.timers.heap) || fresh(tl.timers.heap)
      ensures Acted(old(pq.pendings), op, pq.pendings, prim) == true
    {
      OpenSound(r, prim);
      ghost var s := TimerAlone(op, r.timers, prim);
      r' := r.(timers := s);
      OpenSound(r', prim);
    }

    method PeriodicAlone(op: LoopOp, ghost s: P.PeriodicState, ghost prim: map<Watcher, nat>)
      returns (ghost s': P.PeriodicState)
      requires Separate() == true && PeriodicsOk(s) == true && QueueOk(prim) == true && |pq.pendings| == NUMPRI
      requires Known(op) && IsPeriodicOp(op)
      modifies pl`activecnt, pl.periodics`cnt, pl.periodics`heap, pl.periodics.heap
      modifies pl.periodics.ws`active, pl.periodics.ws`at, pl.periodics.ws`priority
      modifies pq`pendings, pq.ws`pending
      ensures Separate() == true && PeriodicsOk(s') == true && QueueOk(prim) == true
      ensures P.PeriodicRun([s, s'], [PeriodicOp(op)]) == true
      ensures pl.periodics.heap == old(pl.periodics.heap) || fresh(pl.periodics.heap)
      ensures Acted(old(pq.pendings), op, pq.pendings, prim) == true
    {
      ghost var ss := pq.pendings;
      match op {
        case PeriodicStart(w) => s' := StartPeriodic(w, s, prim);
        case PeriodicStop(w) => s' := StopPeriodic(w, s, prim);
        case PeriodicAgain(w) => s' := AgainPeriodic(w, s, prim);
      }
      OpenQueue(prim);
      Effect(op, ss, pq.pendings, prim);
    }

    method PerformPeriodic(op: LoopOp, ghost r: Started, ghost prim: map<Watcher, nat>) returns (ghost r': Started)
      requires Sound(r, prim) == true && Known(op) && IsPeriodicOp(op)
      modifies pl`activecnt, pl.periodics`cnt, pl.periodics`heap, pl.periodics.heap
      modifies pl.periodics.ws`active, pl.periodics.ws`at, pl.periodics.ws`priority
      modifies pq`pendings, pq.ws`pending
      ensures Sound(r', prim) == true && r' == r.(periodics := r'.periodics)
      ensures P.PeriodicRun([r.periodics, r'.periodics], [PeriodicOp(op)]) == true
      ensures pl.periodics.heap == old(pl.periodics.heap) || fresh(pl.periodics.heap)
      ensures Acted(old(pq.pendings), op, pq.pendings, prim) == true
    {
      OpenSound(r, prim);
      ghost var s := PeriodicAlone(op, r.periodics, prim);
      r' := r.(periodics := s);
      OpenSound(r', prim);
    }

    method OtherAlone(op: LoopOp, ghost s: D.IoState, ghost prim: map<Watcher, nat>) returns (ghost s': D.IoState)
      requires Separate() == true && IoOk(s) == true && QueueOk(prim) == true && |pq.pendings| == NUMPRI
      requires Known(op) && !IsTimerOp(op) && !IsPeriodicOp(op)
      modifies fl`anfds, fl`lists, fl`fdchanges, fl`activecnt, fl`gone
      modifies fl.ws`next, fl.ws`active, fl.ws`events, fl.ws`priority
      modifies pq`pendings, pq.ws`pending
      ensures Separate() == true && IoOk(s') == true && QueueOk(prim) == true && IoDoes(op, s, s') == true
      ensures Acted(old(pq.pendings), op, pq.pendings, prim) == true
    {
      ghost var ss := pq.pendings;
      s' := s;
      match op {
        case FeedEvent(w, m) => Feed(w, m, prim);
        case ClearPending(w) => Clear(w, prim);
        case IoStart(w) => s' := StartIo(w, s, prim);
        case IoStop(w) => s' := StopIo(w, s, prim);
      }
      OpenQueue(prim);
      Effect(op, ss, pq.pendings, prim);
    }

    method PerformOther(op: LoopOp, ghost r: Started, ghost prim: map<Watcher, nat>) returns (ghost r': Started)
      requires Sound(r, prim) == true && Known(op) && !IsTimerOp(op) && !IsPeriodicOp(op)
      modifies fl`anfds, fl`lists, fl`fdchanges, fl`activecnt, fl`gone
      modifies fl.ws`next, fl.ws`active, fl.ws`events, fl.ws`priority
      modifies pq`pendings, pq.ws`pending
      ensures Sound(r', prim) == true && r' == r.(io := r'.io) && IoDoes(op, r.io, r'.io) == true
      ensures Acted(old(pq.pendings), op, pq.pendings, prim) == true
    {
      OpenSound(r, prim);
      ghost var s := OtherAlone(op, r.io, prim);
      r' := r.(io := s);
      OpenSound(r', prim);
    }

    method Perform(op: LoopOp, ghost r: Started, ghost prim: map<Watcher, nat>) returns (ghost r': Started)
      requires Sound(r, prim) == true && Known(op)
      modifies tl`activecnt, tl.timers`cnt, tl.timers`heap, tl.timers.heap
      modifies tl.timers.ws`active, tl.timers.ws`at, tl.timers.ws`priority
      modifies pl`activecnt, pl.periodics`cnt, pl.periodics`heap, pl.periodics.heap
      modifies pl.periodics.ws`active, pl.periodics.ws`at, pl.periodics.ws`priority
      modifies fl`anfds, fl`lists, fl`fdchanges, fl`activecnt, fl`gone
      modifies fl.ws`next, fl.ws`active, fl.ws`events, fl.ws`priority
      modifies pq`pendings, pq.ws`pending
      ensures Sound(r', prim) == true && DoesAll([op], [r, r']) == true
      ensures HeapsMoved(old(tl.timers.heap), old(pl.periodics.heap)) == true
      ensures Acted(old(pq.pendings), op, pq.pendings, prim) == true
    {
      if IsTimerOp(op) {
        r' := PerformTimer(op, r, prim);
      } else if IsPeriodicOp(op) {
        r' := PerformPeriodic(op, r, prim);
      } else {
        r' := PerformOther(op, r, prim);
      }
      OneDone(op, r, r');
    }

    // a callback, which does one thing after the other
    method Callback(ops: seq<LoopOp>, ghost r: Started, ghost prim: map<Watcher, nat>)
      returns (ghost rs: seq<Started>)
      requires Sound(r, prim) == true && AllKnown(ops) && |pq.pendings| == NUMPRI
      modifies tl`activecnt, tl.timers`cnt, tl.timers`heap, tl.timers.heap
      modifies tl.timers.ws`active, tl.timers.ws`at, tl.timers.ws`priority
      modifies pl`activecnt, pl.periodics`cnt, pl.periodics`heap, pl.periodics.heap
      modifies pl.periodics.ws`active, pl.periodics.ws`at, pl.periodics.ws`priority
      modifies fl`anfds, fl`lists, fl`fdchanges, fl`activecnt, fl`gone
      modifies fl.ws`next, fl.ws`active, fl.ws`events, fl.ws`priority
      modifies pq`pendings, pq.ws`pending
      ensures DoesAll(ops, rs) == true && |rs| == |ops| + 1 && rs[0] == r && Sound(rs[|ops|], prim) == true
      ensures HeapsMoved(old(tl.timers.heap), old(pl.periodics.heap)) == true
      ensures Behaves(AllStackOps(ops), prim, NUMPRI)
      ensures pq.pendings == ActAll(old(pq.pendings), AllStackOps(ops), prim, pq.pending_w)
    {
      assert ops[..0] == [];
      rs := [r];
      ghost var r' := r;
      for i := 0 to |ops|
        invariant Sound(r', prim) == true && |rs| == i + 1 && rs[0] == r && rs[i] == r'
        invariant DoesAll(ops[..i], rs) == true
        invariant HeapsMoved(old(tl.timers.heap), old(pl.periodics.heap)) == true
        invariant Behaves(AllStackOps(ops[..i]), prim, NUMPRI)
        invariant pq.pendings == ActAll(old(pq.pendings), AllStackOps(ops[..i]), prim, pq.pending_w)
      {
        ghost var ss := pq.pendings;
        r' := Perform(ops[i], r', prim);
        OneMoreOp(old(pq.pendings), ss, ops, i, prim, pq.pending_w);
        DoesMore(ops, i, rs, r');
        rs := rs + [r'];
      }
      assert ops[..|ops|] == ops;
    }

    // ---------- ev_invoke_pending ----------

    // pq.Pop, which concerns nobody else
    method PopAlone(pri: nat, ghost prim: map<Watcher, nat>) returns (s: Slot<Watcher>)
      requires Separate() && QueueOk(prim) && pri < NUMPRI && |pq.pendings| == NUMPRI && pq.pendings[pri] != []
      modifies pq`pendings, pq.ws`pending, pq.pending_w`pending
      ensures QueueOk(prim) == true && |old(pq.pendings)| == NUMPRI
      ensures var st := old(pq.pendings)[pri];
              s == st[|st| - 1] && pq.pendings == old(pq.pendings)[pri := st[..|st| - 1]]
    {
      OpenQueue(prim);
      s := pq.Pop(pri);
      OpenQueue(prim);
    }

    method Pop(pri: nat, ghost r: Started, ghost prim: map<Watcher, nat>) returns (s: Slot<Watcher>)
      requires Sound(r, prim) == true && pri < NUMPRI && |pq.pendings| == NUMPRI && pq.pendings[pri] != []
      modifies pq`pendings, pq.ws`pending, pq.pending_w`pending
      ensures Sound(r, prim) == true && |old(pq.pendings)| == NUMPRI
      ensures var st := old(pq.pendings)[pri];
              s == st[|st| - 1] && pq.pendings == old(pq.pendings)[pri := st[..|st| - 1]]
    {
      OpenSound(r, prim);
      s := PopAlone(pri, prim);
      OpenSound(r, prim);
    }

    // call the watcher on top of the stack for pri, the highest nonempty one
    method CallTop(pri: nat, ops: seq<LoopOp>, ghost below: nat, ghost r: Started, ghost prim: map<Watcher, nat>)
      returns (s: Slot<Watcher>, ghost rs: seq<Started>)
      requires Sound(r, prim) == true && AllKnown(ops) && |pq.pendings| == NUMPRI
      requires pri < below <= NUMPRI && pq.pendings[pri] != [] && forall q :: pri < q < below ==> pq.pendings[q] == []
      modifies tl`activecnt, tl.timers`cnt, tl.timers`heap, tl.timers.heap
      modifies tl.timers.ws`active, tl.timers.ws`at, tl.timers.ws`priority
      modifies pl`activecnt, pl.periodics`cnt, pl.periodics`heap, pl.periodics.heap
      modifies pl.periodics.ws`active, pl.periodics.ws`at, pl.periodics.ws`priority
      modifies fl`anfds, fl`lists, fl`fdchanges, fl`activecnt, fl`gone
      modifies fl.ws`next, fl.ws`active, fl.ws`events, fl.ws`priority
      modifies pq`pendings, pq.ws`pending, pq.pending_w`pending
      ensures DoesAll(ops, rs) == true && |rs| == |ops| + 1 && rs[0] == r && Sound(rs[|ops|], prim) == true
      ensures HeapsMoved(old(tl.timers.heap), old(pl.periodics.heap)) == true && |pq.pendings| == NUMPRI
      ensures DispatchStep(old(Dispatch(pq.pendings, below)), Dispatch(pq.pendings, pri + 1), s, AllStackOps(ops), prim,
                           pq.pending_w) == true
    {
      ghost var ss := pq.pendings;
      s := Pop(pri, r, prim);
      rs := Callback(ops, r, prim);
      TopTaken(ss, pq.pendings, pri, below, s, AllStackOps(ops), prim, pq.pending_w);
    }

    // The calls so far, from a on, have led to r; no stack from pri on up to below has anything left.
    ghost predicate Traced(a: Loop, d: Dispatched, r: Started, prim: map<Watcher, nat>, pri: nat)
      reads pq`pendings
    {
      && TracedTo(pq.pendings, d.ds, d.calls, d.script, prim, pq.pending_w, a.pendings, pri)
      && |d.rss| == |d.calls| && Followed(d.script, a.started, d.rss) && r == Latest(a.started, d.rss)
    }

    ghost function WithCall(d: Dispatched, s: Slot<Watcher>, next: Dispatch<Watcher>, rs: seq<Started>): Dispatched {
      d.(calls := d.calls + [s], ds := d.ds + [next], rss := d.rss + [rs])
    }

    lemma TracedMore(a: Loop, d: Dispatched, r: Started, s: Slot<Watcher>, ss: Stacks<Watcher>, rs: seq<Started>,
                     prim: map<Watcher, nat>, pri: nat)
      requires TracedTo(ss, d.ds, d.calls, d.script, prim, pq.pending_w, a.pendings, pri + 1) && pri < NUMPRI
      requires ss[pri] != []
      requires |d.rss| == |d.calls| && Followed(d.script, a.started, d.rss) && r == Latest(a.started, d.rss)
      requires DispatchStep(d.ds[|d.calls|], Dispatch(pq.pendings, pri + 1), s, OpsAt(Stacked(d.script), |d.calls|), prim,
                            pq.pending_w)
      requires rs != [] && rs[0] == r && DoesAll(OpsOf(d.script, |d.calls|), rs)
      ensures Traced(a, WithCall(d, s, Dispatch(pq.pendings, pri + 1), rs), rs[|rs| - 1], prim, pri + 1) == true
      ensures |d.calls| >= |d.script| ==> |pq.pendings| == NUMPRI && |pq.pendings[pri]| < |ss[pri]|
    {
      var next := Dispatch(pq.pendings, pri + 1);
      DispatchesMore(d.ds, d.calls, next, s, Stacked(d.script), prim, pq.pending_w);
      FollowedMore(d.script, a.started, d.rss, rs);
    }

    // one turn of the inner loop
    method InvokeNext(pri: nat, n: nat, script: LoopScript, ghost a: Loop, ghost d: Dispatched, ghost r: Started,
                      ghost prim: map<Watcher, nat>)
      returns (s: Slot<Watcher>, ghost d': Dispatched, ghost r': Started)
      requires Sound(r, prim) == true && Traced(a, d, r, prim, pri + 1) && n == |d.calls| && script == d.script
      requires pri < NUMPRI && |pq.pendings| == NUMPRI && pq.pendings[pri] != []
      requires forall i :: 0 <= i < |script| ==> AllKnown(script[i])
      modifies tl`activecnt, tl.timers`cnt, tl.timers`heap, tl.timers.heap
      modifies tl.timers.ws`active, tl.timers.ws`at, tl.timers.ws`priority
      modifies pl`activecnt, pl.periodics`cnt, pl.periodics`heap, pl.periodics.heap
      modifies pl.periodics.ws`active, pl.periodics.ws`at, pl.periodics.ws`priority
      modifies fl`anfds, fl`lists, fl`fdchanges, fl`activecnt, fl`gone
      modifies fl.ws`next, fl.ws`active, fl.ws`events, fl.ws`priority
      modifies pq`pendings, pq.ws`pending, pq.pending_w`pending
      ensures Sound(r', prim) == true && HeapsMoved(old(tl.timers.heap), old(pl.periodics.heap)) == true
      ensures Traced(a, d', r', prim, pri + 1) == true && |pq.pendings| == NUMPRI
      ensures d'.script == d.script && d'.calls == d.calls + [s]
      ensures n >= |script| ==> |pq.pendings[pri]| < |old(pq.pendings)[pri]|
    {
      ghost var ss, ops := pq.pendings, OpsOf(script, n);
      ghost var rs;
      s, rs := CallTop(pri, OpsOf(script, n), d.ds[|d.calls|].below, r, prim);
      TracedMore(a, d, r, s, ss, rs, prim, pri);
      d', r' := WithCall(d, s, Dispatch(pq.pendings, pri + 1), rs), rs[|rs| - 1];
    }

    lemma StackDone(a: Loop, d: Dispatched, r: Started, prim: map<Watcher, nat>, pri: nat)
      requires Traced(a, d, r, prim, pri + 1) && pri < NUMPRI && pq.pendings[pri] == []
      ensures Traced(a, d, r, prim, pri) == true
    {
    }

    // the inner loop of ev_invoke_pending
    method InvokeAt(pri: nat, script: LoopScript, before: seq<Slot<Watcher>>, ghost a: Loop, ghost d0: Dispatched,
                    ghost r: Started, ghost prim: map<Watcher, nat>)
      returns (calls: seq<Slot<Watcher>>, ghost d: Dispatched, ghost r': Started)
      requires Sound(r, prim) == true && pri < NUMPRI && Traced(a, d0, r, prim, pri + 1)
      requires before == d0.calls && script == d0.script && |pq.pendings| == NUMPRI
      requires forall i :: 0 <= i < |script| ==> AllKnown(script[i])
      modifies tl`activecnt, tl.timers`cnt, tl.timers`heap, tl.timers.heap
      modifies tl.timers.ws`active, tl.timers.ws`at, tl.timers.ws`priority
      modifies pl`activecnt, pl.periodics`cnt, pl.periodics`heap, pl.periodics.heap
      modifies pl.periodics.ws`active, pl.periodics.ws`at, pl.periodics.ws`priority
      modifies fl`anfds, fl`lists, fl`fdchanges, fl`activecnt, fl`gone
      modifies fl.ws`next, fl.ws`active, fl.ws`events, fl.ws`priority
      modifies pq`pendings, pq.ws`pending, pq.pending_w`pending
      ensures Sound(r', prim) == true && HeapsMoved(old(tl.timers.heap), old(pl.periodics.heap)) == true
      ensures Traced(a, d, r', prim, pri) == true && calls == d.calls && script == d.script && |pq.pendings| == NUMPRI
    {
      calls, d, r' := before, d0, r;
      while |pq.pendings[pri]| > 0
        invariant Sound(r', prim) == true && HeapsMoved(old(tl.timers.heap), old(pl.periodics.heap)) == true
        invariant |pq.pendings| == NUMPRI && Traced(a, d, r', prim, pri + 1) == true && calls == d.calls
        invariant script == d.script
        decreases if |calls| < |script| then |script| - |calls| else 0, |pq.pendings[pri]|
      {
        var s;
        s, d, r' := InvokeNext(pri, |calls|, script, a, d, r', prim);
        calls := calls + [s];
      }
      StackDone(a, d, r', prim, pri);
    }

    // ev_invoke_pending; the i-th callback performs script[i]
    method InvokePending(script: LoopScript, ghost r: Started, ghost prim: map<Watcher, nat>)
      returns (calls: seq<Slot<Watcher>>, ghost d: Dispatched, ghost r': Started)
      requires Sound(r, prim) == true && |pq.pendings| == NUMPRI
      requires forall i :: 0 <= i < |script| ==> AllKnown(script[i])
      modifies tl`activecnt, tl.timers`cnt, tl.timers`heap, tl.timers.heap
      modifies tl.timers.ws`active, tl.timers.ws`at, tl.timers.ws`priority
      modifies pl`activecnt, pl.periodics`cnt, pl.periodics`heap, pl.periodics.heap
      modifies pl.periodics.ws`active, pl.periodics.ws`at, pl.periodics.ws`priority
      modifies fl`anfds, fl`lists, fl`fdchanges, fl`activecnt, fl`gone
      modifies fl.ws`next, fl.ws`active, fl.ws`events, fl.ws`priority
      modifies pq`pendings, pq.ws`pending, pq.pending_w`pending
      ensures Sound(r', prim) == true && HeapsMoved(old(tl.timers.heap), old(pl.periodics.heap)) == true
      ensures calls == d.calls && script == d.script && |pq.pendings| == NUMPRI
      ensures DispatchOk(Loop(r, old(pq.pendings)), d, Loop(r', pq.pendings), Settings(prim)) == true
    {
      ghost var a := Loop(r, pq.pendings);
      OpenSound(r, prim);
      OneSlotAtFirst(prim);
      calls, d, r' := [], Dispatched([], [Dispatch(pq.pendings, NUMPRI)], [], script), r;
      var pri := NUMPRI;
      while pri > 0
        invariant Sound(r', prim) == true && HeapsMoved(old(tl.timers.heap), old(pl.periodics.heap)) == true
        invariant 0 <= pri <= NUMPRI && |pq.pendings| == NUMPRI
        invariant Traced(a, d, r', prim, pri) == true && calls == d.calls && script == d.script
      {
        pri := pri - 1;
        calls, d, r' := InvokeAt(pri, script, calls, a, d, r', prim);
      }
      AllDispatched(a, d, r', prim);
    }

    // what does not change
    ghost function Settings(prim: map<Watcher, nat>): Setup {
      Setup(prim, pq.pending_w, have_monotonic, fl.backend == D.UseEpoll, limits)
    }

    lemma OneSlotAtFirst(prim: map<Watcher, nat>)
      requires Separate() && QueueOk(prim)
      ensures pq.pending_w !in prim && OneSlotEach(pq.pendings, prim)
    {
      OpenQueue(prim);
      PrioritiesAgree(prim);
      pq.EachOneSlot(prim);
    }

    lemma PrioritiesAgree(prim: map<Watcher, nat>)
      requires Prioritised(prim) && pq.pending_w !in pq.ws
      ensures pq.Agrees(prim) && pq.pending_w !in prim
    {
    }

    lemma AllDispatched(a: Loop, d: Dispatched, r: Started, prim: map<Watcher, nat>)
      requires Traced(a, d, r, prim, 0) && |a.pendings| == NUMPRI
      requires pq.pending_w !in prim && OneSlotEach(a.pendings, prim)
      ensures DispatchOk(a, d, Loop(r, pq.pendings), Settings(prim)) == true
    {
    }

    // ---------- fd_reify ----------

    lemma {:induction false} KillsAreOps(ss: Stacks<Watcher>, ks: seq<Watcher>, prim: map<Watcher, nat>)
      requires fl.pq == pq && |ss| == NUMPRI && Prioritised(prim) && forall w :: w in ks ==> w in pq.ws
      ensures Behaves(KillOps(ks), prim, NUMPRI) && fl.KillAll(ss, ks) == ActAll(ss, KillOps(ks), prim, pq.pending_w)
    {
      if ks != [] {
        var rest, w := ks[..|ks| - 1], ks[|ks| - 1];
        KillsAreOps(ss, rest, prim);
        OneKill(fl.KillAll(ss, rest), w, prim);
        ActAllMore(ss, KillOps(rest), [OpClear(w), OpFeed(w, {Error, Read, Write})], prim, pq.pending_w);
      }
    }

    lemma OneKill(ss: Stacks<Watcher>, w: Watcher, prim: map<Watcher, nat>)
      requires fl.pq == pq && |ss| == NUMPRI && Prioritised(prim) && w in pq.ws
      ensures var ops := [OpClear(w), OpFeed(w, {Error, Read, Write})];
              Behaves(ops, prim, NUMPRI) && fl.Kill(ss, w) == ActAll(ss, ops, prim, pq.pending_w)
    {
      var ops := [OpClear(w), OpFeed(w, {Error, Read, Write})];
      assert ops[..1] == [OpClear(w)] && ops[..1][..0] == [];
      assert ActAll(ss, ops[..1][..0], prim, pq.pending_w) == ss;
      assert ActAll(ss, ops[..1], prim, pq.pending_w) == pq.Without(ss, w);
    }

    // fd_reify
    method ReifyOpen(ghost s: D.IoState, ghost prim: map<Watcher, nat>) returns (ghost s': D.IoState)
      requires Separate() && IoAt(0, s) && QueueAt(0, prim)
      modifies fl`anfds, fl`lists, fl`fdchanges, fl`activecnt, fl`epoll_eperms, fl`told, fl`kills
      modifies fl.ws`next, fl.ws`active, fl.ws`pending, pq`pendings
      modifies fl.poll, fl.poll.pollidxs, fl.poll.polls, fl.sel, fl.sel.vec_ri, fl.sel.vec_wi
      ensures IoAt(0, s') == true && QueueAt(0, prim) == true && |old(pq.pendings)| == NUMPRI
      ensures s' == s.(active := s.active - set w | w in fl.kills) && fl.UpToDate() == true
      ensures fl.KillsOk(old(pq.pendings)) == true && (fl.backend != D.UseEpoll ==> fl.kills == [])
      ensures D.KilledWhole(s, fl.kills) == true
      ensures fl.TablesMoved(old(fl.poll.pollidxs), old(fl.poll.polls), old(fl.sel.vec_ri), old(fl.sel.vec_wi)) == true
    {
      s' := fl.ReifyFrom(s);
    }

    method ReifyAlone(ghost s: D.IoState, ghost prim: map<Watcher, nat>)
      returns (ghost killed: seq<Watcher>, ghost s': D.IoState)
      requires Separate() && IoOk(s) && QueueOk(prim) && |pq.pendings| == NUMPRI
      modifies fl`anfds, fl`lists, fl`fdchanges, fl`activecnt, fl`epoll_eperms, fl`told, fl`kills
      modifies fl.ws`next, fl.ws`active, fl.ws`pending, pq`pendings
      modifies fl.poll, fl.poll.pollidxs, fl.poll.polls, fl.sel, fl.sel.vec_ri, fl.sel.vec_wi
      ensures Separate() == true && IoOk(s') == true && QueueOk(prim) == true
      ensures s' == s.(active := s.active - set w | w in killed) && fl.UpToDate() == true
      ensures |old(pq.pendings)| == NUMPRI && Behaves(KillOps(killed), prim, NUMPRI)
      ensures pq.pendings == ActAll(old(pq.pendings), KillOps(killed), prim, pq.pending_w)
      ensures (fl.backend != D.UseEpoll ==> killed == []) && D.KilledWhole(s, killed) == true
      ensures fl.TablesMoved(old(fl.poll.pollidxs), old(fl.poll.polls), old(fl.sel.vec_ri), old(fl.sel.vec_wi)) == true
    {
      ghost var ss := pq.pendings;
      OpenIo(s);
      OpenQueue(prim);
      s' := ReifyOpen(s, prim);
      killed := fl.kills;
      OpenIo(s');
      OpenQueue(prim);
      KillsAreOps(ss, killed, prim);
    }

    method ReifyFds(ghost r: Started, ghost prim: map<Watcher, nat>)
      returns (ghost killed: seq<Watcher>, ghost r': Started)
      requires Sound(r, prim) == true && |pq.pendings| == NUMPRI
      modifies fl`anfds, fl`lists, fl`fdchanges, fl`activecnt, fl`epoll_eperms, fl`told, fl`kills
      modifies fl.ws`next, fl.ws`active, fl.ws`pending, pq`pendings
      modifies fl.poll, fl.poll.pollidxs, fl.poll.polls, fl.sel, fl.sel.vec_ri, fl.sel.vec_wi
      ensures Sound(r', prim) == true && fl.UpToDate() == true && |pq.pendings| == NUMPRI
      ensures ReifyOk(Loop(r, old(pq.pendings)), killed, Loop(r', pq.pendings), Settings(prim)) == true
      ensures fl.TablesMoved(old(fl.poll.pollidxs), old(fl.poll.polls), old(fl.sel.vec_ri), old(fl.sel.vec_wi)) == true
    {
      OpenSound(r, prim);
      ghost var s;
      killed, s := ReifyAlone(r.io, prim);
      r' := r.(io := s);
      OpenSound(r', prim);
    }

    // ---------- time_update ----------

    // any clock will do
    method EvTime() returns (t: real)
      modifies this`syscalls
      ensures syscalls == old(syscalls) + [Wall(t)]
    {
      t := *;
      syscalls := syscalls + [Wall(t)];
    }

    method GetClock() returns (t: real)
      modifies this`syscalls
      ensures syscalls == old(syscalls) + [Mono(t)]
    {
      t := *;
      syscalls := syscalls + [Mono(t)];
    }

    // timers_reschedule
    method MoveTimers(adjust: real, ghost s: T.TimerState, ghost prim: map<Watcher, nat>)
      returns (ghost s': T.TimerState)
      requires Separate() && TimersOk(s) && QueueOk(prim)
      modifies tl.timers.heap, tl.timers.ws`at
      ensures TimersOk(s') == true && QueueOk(prim) == true && TimersMove(s, s', adjust) == true && s'.now == s.now
    {
      OpenTimers(s);
      OpenQueue(prim);
      RescheduledMove(s, adjust);
      tl.RescheduleFrom(adjust, s);
      s' := T.TimerStep(s, T.DoReschedule(adjust));
      OpenTimers(s');
      OpenQueue(prim);
    }

    // periodics_reschedule
    method MovePeriodics(ghost s: P.PeriodicState, ghost prim: map<Watcher, nat>) returns (ghost s': P.PeriodicState)
      requires Separate() && PeriodicsOk(s) && QueueOk(prim)
      modifies pl.periodics.heap, pl.periodics.ws`at, pl.periodics.ws`active
      ensures PeriodicsOk(s') == true && QueueOk(prim) == true && P.PeriodicRun([s, s'], [P.DoReschedule]) == true
      ensures s'.now == s.now
    {
      OpenPeriodics(s);
      OpenQueue(prim);
      s' := pl.RescheduleFrom(s);
      OpenPeriodics(s');
      OpenQueue(prim);
    }

    // time_update with a monotonic clock, up to the decision whether time jumped
    method ReadClocks() returns (jump: bool, ghost rs: seq<Syscall>)
      modifies this`now_floor, this`rtmn_diff, this`syscalls, tl`mn_now, pl`ev_rt_now
      ensures syscalls == old(syscalls) + rs
      ensures ClocksRead(old(now_floor), old(rtmn_diff), rs, jump, tl.mn_now, pl.ev_rt_now, now_floor, rtmn_diff) == true
      ensures jump <==> |rs| == 8
    {
      var odiff := rtmn_diff;
      tl.mn_now := GetClock();
      rs := [Mono(tl.mn_now)];
      if tl.mn_now - now_floor < MIN_TIMEJUMP * 0.5 {
        pl.ev_rt_now := rtmn_diff + tl.mn_now;
        return false, rs;
      }
      now_floor := tl.mn_now;
      pl.ev_rt_now := EvTime();
      rs := rs + [Wall(pl.ev_rt_now)];
      for i := 0 to 3
        invariant syscalls == old(syscalls) + rs && ReadSoFar(odiff, rs, i)
        invariant rs[0].t - old(now_floor) >= MIN_TIMEJUMP * 0.5
        invariant LastMono(rs) == tl.mn_now == now_floor && LastWall(rs) == pl.ev_rt_now
        invariant i > 0 ==> rtmn_diff == Gap(rs, i)
      {
        assert rs[..2 * (i + 1)] == rs;
        rtmn_diff := pl.ev_rt_now - tl.mn_now;
        if !Differs(odiff, rtmn_diff) {
          return false, rs;
        }
        pl.ev_rt_now := EvTime();
        tl.mn_now := GetClock();
        now_floor := tl.mn_now;
        ReadMore(odiff, rs, i, pl.ev_rt_now, tl.mn_now);
        rs := rs + [Wall(pl.ev_rt_now), Mono(tl.mn_now)];
      }
      jump := true;
    }

    method SetClocks(ghost s: T.TimerState, ghost p: P.PeriodicState) returns (jump: bool, ghost rs: seq<Syscall>)
      requires Separate() && TimersOk(s) && PeriodicsOk(p)
      modifies this`now_floor, this`rtmn_diff, this`syscalls, tl`mn_now, pl`ev_rt_now
      ensures TimersOk(s.(now := tl.mn_now)) == true && PeriodicsOk(p.(now := pl.ev_rt_now)) == true
      ensures syscalls == old(syscalls) + rs && (jump <==> |rs| == 8)
      ensures ClocksRead(old(now_floor), old(rtmn_diff), rs, jump, tl.mn_now, pl.ev_rt_now, now_floor, rtmn_diff) == true
    {
      OpenTimers(s);
      OpenPeriodics(p);
      jump, rs := ReadClocks();
      OpenTimers(s.(now := tl.mn_now));
      OpenPeriodics(p.(now := pl.ev_rt_now));
    }

    // time_update with a monotonic clock: timers never move
    method UpdateBothTimes(ghost r: Started, ghost prim: map<Watcher, nat>)
      returns (ghost r': Started, ghost rs: seq<Syscall>)
      requires Separate() && TimersOk(r.timers) && PeriodicsOk(r.periodics) && QueueOk(prim)
      requires rtmn_diff == r.diff && now_floor == r.floor && syscalls == r.log
      modifies this`now_floor, this`rtmn_diff, this`syscalls, tl`mn_now, pl`ev_rt_now
      modifies tl.timers.heap, tl.timers.ws`at, pl.periodics.heap, pl.periodics.ws`at, pl.periodics.ws`active
      ensures TimersOk(r'.timers) == true && PeriodicsOk(r'.periodics) == true && QueueOk(prim) == true
      ensures rtmn_diff == r'.diff && now_floor == r'.floor && syscalls == r'.log
      ensures forall max_block :: Ticks(r, r', max_block, true, rs)
    {
      var jump;
      jump, rs := SetClocks(r.timers, r.periodics);
      ghost var p := r.periodics.(now := pl.ev_rt_now);
      r' := r.(timers := r.timers.(now := tl.mn_now), periodics := p, diff := rtmn_diff, floor := now_floor,
               log := syscalls);
      if jump {
        ghost var p' := MovePeriodics(p, prim);
        P.OneStep(p, P.DoReschedule, p');
        r' := r'.(periodics := p');
      }
    }

    method SetRealTime(rt: real, ghost p: P.PeriodicState)
      requires PeriodicsOk(p)
      modifies pl`ev_rt_now
      ensures PeriodicsOk(p.(now := rt)) == true && pl.ev_rt_now == rt
    {
      OpenPeriodics(p);
      pl.ev_rt_now := rt;
      OpenPeriodics(p.(now := rt));
    }

    method SetTime(now: real, ghost s: T.TimerState)
      requires TimersOk(s)
      modifies tl`mn_now
      ensures TimersOk(s.(now := now)) == true && tl.mn_now == now
    {
      OpenTimers(s);
      tl.mn_now := now;
      OpenTimers(s.(now := now));
    }

    // if the clock jumped, timers go with it
    method Reschedule(jump: bool, adjust: real, ghost s: T.TimerState, ghost p: P.PeriodicState,
                      ghost prim: map<Watcher, nat>)
      returns (ghost s': T.TimerState, ghost p': P.PeriodicState)
      requires Separate() && TimersOk(s) && PeriodicsOk(p) && QueueOk(prim)
      modifies tl.timers.heap, tl.timers.ws`at, pl.periodics.heap, pl.periodics.ws`at, pl.periodics.ws`active
      ensures TimersOk(s') == true && PeriodicsOk(p') == true && QueueOk(prim) == true
      ensures Jumped(jump, adjust, s, s', p, p') == true
    {
      s', p' := s, p;
      if jump {
        s' := MoveTimers(adjust, s, prim);
        p' := MovePeriodics(p, prim);
      }
    }

    // time_update without one, once the clock is read: if it jumps the timers go with it, so that each has as much
    // time left
    method FollowClock(rt: real, max_block: real, ghost r: Started, ghost prim: map<Watcher, nat>)
      returns (ghost r': Started)
      requires Separate() && TimersOk(r.timers) && PeriodicsOk(r.periodics) && QueueOk(prim)
      requires rtmn_diff == r.diff && now_floor == r.floor && tl.mn_now == r.timers.now
      modifies tl`mn_now, pl`ev_rt_now
      modifies tl.timers.heap, tl.timers.ws`at, pl.periodics.heap, pl.periodics.ws`at, pl.periodics.ws`active
      ensures TimersOk(r'.timers) == true && PeriodicsOk(r'.periodics) == true && QueueOk(prim) == true
      ensures rtmn_diff == r'.diff && now_floor == r'.floor && r'.log == r.log + [Wall(rt)]
      ensures Ticks(r, r', max_block, false, [Wall(rt)]) == true
    {
      SetRealTime(rt, r.periodics);
      var jump := tl.mn_now > pl.ev_rt_now || pl.ev_rt_now > tl.mn_now + max_block + MIN_TIMEJUMP;
      var adjust := pl.ev_rt_now - tl.mn_now;
      ghost var s, p := Reschedule(jump, adjust, r.timers, r.periodics.(now := rt), prim);
      SetTime(pl.ev_rt_now, s);
      r' := r.(timers := s.(now := rt), periodics := p, log := r.log + [Wall(rt)]);
      RealTimeTicks(r, s, p, rt, jump, adjust, max_block);
    }

    method UpdateRealTime(max_block: real, ghost r: Started, ghost prim: map<Watcher, nat>)
      returns (ghost r': Started, ghost rs: seq<Syscall>)
      requires Separate() && TimersOk(r.timers) && PeriodicsOk(r.periodics) && QueueOk(prim)
      requires rtmn_diff == r.diff && now_floor == r.floor && syscalls == r.log && tl.mn_now == r.timers.now
      modifies this`syscalls, tl`mn_now, pl`ev_rt_now
      modifies tl.timers.heap, tl.timers.ws`at, pl.periodics.heap, pl.periodics.ws`at, pl.periodics.ws`active
      ensures TimersOk(r'.timers) == true && PeriodicsOk(r'.periodics) == true && QueueOk(prim) == true
      ensures rtmn_diff == r'.diff && now_floor == r'.floor && syscalls == r'.log
      ensures Ticks(r, r', max_block, false, rs) == true
    {
      var rt := EvTime();
      rs := [Wall(rt)];
      r' := FollowClock(rt, max_block, r, prim);
    }

    static lemma RealTimeTicks(r: Started, s: T.TimerState, p: P.PeriodicState, rt: real, jump: bool, adjust: real,
                               max_block: real)
      requires jump <==> r.timers.now > rt || rt > r.timers.now + max_block + MIN_TIMEJUMP
      requires adjust == rt - r.timers.now && Jumped(jump, adjust, r.timers, s, r.periodics.(now := rt), p) == true
      ensures Ticks(r, r.(timers := s.(now := rt), periodics := p, log := r.log + [Wall(rt)]), max_block, false,
                    [Wall(rt)]) == true
    {
      P.OneStep(r.periodics.(now := rt), P.DoReschedule, p);
    }

    // time_update
    method TimeUpdate(max_block: real, ghost r: Started, ghost prim: map<Watcher, nat>)
      returns (ghost r': Started, ghost rs: seq<Syscall>)
      requires Separate() && TimersOk(r.timers) && PeriodicsOk(r.periodics) && QueueOk(prim)
      requires rtmn_diff == r.diff && now_floor == r.floor && syscalls == r.log
      modifies this`now_floor, this`rtmn_diff, this`syscalls, tl`mn_now, pl`ev_rt_now
      modifies tl.timers.heap, tl.timers.ws`at, pl.periodics.heap, pl.periodics.ws`at, pl.periodics.ws`active
      ensures Separate() == true && TimersOk(r'.timers) == true && PeriodicsOk(r'.periodics) == true
      ensures QueueOk(prim) == true
      ensures rtmn_diff == r'.diff && now_floor == r'.floor && syscalls == r'.log
      ensures Ticks(r, r', max_block, have_monotonic, rs) == true
    {
      if have_monotonic {
        r', rs := UpdateBothTimes(r, prim);
      } else {
        OpenTimers(r.timers);
        r', rs := UpdateRealTime(max_block, r, prim);
      }
    }

    // the same, which concerns nobody else
    method UpdateTime(max_block: real, ghost r: Started, ghost prim: map<Watcher, nat>)
      returns (ghost r': Started, ghost rs: seq<Syscall>)
      requires Sound(r, prim) == true && fl.UpToDate() == true
      modifies this`now_floor, this`rtmn_diff, this`syscalls, tl`mn_now, pl`ev_rt_now
      modifies tl.timers.heap, tl.timers.ws`at, pl.periodics.heap, pl.periodics.ws`at, pl.periodics.ws`active
      ensures Sound(r', prim) == true && fl.UpToDate() == true
      ensures Ticks(r, r', max_block, have_monotonic, rs) == true
    {
      OpenSound(r, prim);
      r', rs := TimeUpdate(max_block, r, prim);
      OpenSound(r', prim);
    }

    // ---------- how long to block ----------

    lemma NothingMissedHere(t: real, least: real, s: T.TimerState, p: P.PeriodicState)
      requires tl.Is(s) == true && pl.Is(p) == true
      requires NotTooLong(t, tl.timers, pl.periodics, tl.mn_now, pl.ev_rt_now, least) == true
      ensures NothingMissed(s, p, t, least) == true
    {
      assert forall w :: w in s.active ==> w in tl.timers.Members();
      assert forall w :: w in p.active ==> w in pl.periodics.Members();
    }

    lemma HasReasonHere(t: real, least: real, s: T.TimerState, p: P.PeriodicState)
      requires tl.Is(s) == true && pl.Is(p) == true
      requires NotTooShort(t, tl.timers, pl.periodics, tl.mn_now, pl.ev_rt_now, least) == true
      ensures HasReason(s, p, t, least) == true
    {
      assert forall w :: w in tl.timers.Members() ==> w in s.active && t == w.at - tl.mn_now ==> t == s.at[w] - s.now;
    }

    // the part of ev_run that decides how long to block, with the time noted before the time update
    method BlockHere(nowait: bool, prev: real, ghost s: T.TimerState, ghost p: P.PeriodicState)
      returns (slept: real, wait: real)
      requires tl.timers.Valid() == true && pl.periodics.Valid() == true && tl.Is(s) == true && pl.Is(p) == true
      requires tl.mn_now == s.now
      ensures Blocks(prev, s, p, nowait, slept, wait, limits) == true
    {
      slept, wait := BlockTime(nowait, tl.timers, pl.periodics, prev, tl.mn_now, pl.ev_rt_now,
                               limits.timeout_blocktime, limits.io_blocktime, limits.backend_mintime);
      if !nowait {
        ghost var total, least := slept + wait, MaxReal(limits.timeout_blocktime, limits.backend_mintime);
        NothingMissedHere(total, least, s, p);
        HasReasonHere(total, least, s, p);
        BlocksMade(prev, s, p, slept, wait, limits, total, least);
      }
    }

    method BlockOpen(nowait: bool, prev: real, ghost s: T.TimerState, ghost p: P.PeriodicState)
      returns (slept: real, wait: real)
      requires TimersAt(0, s) && PeriodicsAt(0, p)
      ensures Blocks(prev, s, p, nowait, slept, wait, limits) == true
    {
      slept, wait := BlockHere(nowait, prev, s, p);
    }

    method Block(nowait: bool, prev: real, ghost r: Started, ghost prim: map<Watcher, nat>)
      returns (slept: real, wait: real)
      requires Sound(r, prim) == true
      ensures Blocks(prev, r.timers, r.periodics, nowait, slept, wait, limits) == true
    {
      OpenSound(r, prim);
      OpenTimers(r.timers);
      OpenPeriodics(r.periodics);
      slept, wait := BlockOpen(nowait, prev, r.timers, r.periodics);
    }

    // ---------- backend_poll ----------

    method PollOpen(answer: seq<(nat, Mask)>, ghost s: D.IoState, ghost prim: map<Watcher, nat>)
      returns (reports: seq<(nat, Mask)>, ghost lists: seq<seq<Watcher>>)
      requires Separate() && IoAt(0, s) && QueueAt(0, prim) && fl.UpToDate()
      modifies pq`pendings, fl.ws`pending
      ensures QueueAt(0, prim) == true && |old(pq.pendings)| == NUMPRI
      ensures D.PollOk(s, answer, old(pq.pendings), lists, reports, pq.pendings, prim, pq.pending_w) == true
    {
      PrioritiesAgree(prim);
      reports, lists := fl.Poll(answer, s, prim);
    }

    method PollAlone(answer: seq<(nat, Mask)>, ghost s: D.IoState, ghost prim: map<Watcher, nat>)
      returns (reports: seq<(nat, Mask)>, ghost lists: seq<seq<Watcher>>)
      requires Separate() && IoOk(s) && QueueOk(prim) && fl.UpToDate() && |pq.pendings| == NUMPRI
      modifies pq`pendings, fl.ws`pending
      ensures Separate() == true && IoOk(s) == true && QueueOk(prim) == true
      ensures D.PollOk(s, answer, old(pq.pendings), lists, reports, pq.pendings, prim, pq.pending_w) == true
    {
      OpenIo(s);
      OpenQueue(prim);
      reports, lists := PollOpen(answer, s, prim);
      OpenQueue(prim);
    }

    // backend_poll
    method Poll(answer: seq<(nat, Mask)>, ghost r: Started, ghost prim: map<Watcher, nat>)
      returns (reports: seq<(nat, Mask)>, ghost lists: seq<seq<Watcher>>)
      requires Sound(r, prim) == true && fl.UpToDate() == true && |pq.pendings| == NUMPRI
      modifies pq`pendings, fl.ws`pending
      ensures Sound(r, prim) == true && fl.UpToDate() == true && |pq.pendings| == NUMPRI
      ensures D.PollOk(r.io, answer, old(pq.pendings), lists, reports, pq.pendings, prim, pq.pending_w) == true
    {
      OpenSound(r, prim);
      reports, lists := PollAlone(answer, r.io, prim);
      OpenSound(r, prim);
    }

    // ---------- timers_reify and periodics_reify ----------

    // timers_reify
    method ExpireTimersOpen(ghost s: T.TimerState, ghost prim: map<Watcher, nat>) returns (ghost fed: seq<Watcher>)
      requires Separate() && TimersAt(0, s) && QueueAt(0, prim) && pq.rfeeds == []
      modifies tl`activecnt, tl.timers`cnt, tl.timers.heap, tl.timers.ws`active, tl.timers.ws`at
      modifies pq`pendings, pq`rfeeds, pq.ws`pending
      ensures TimersAt(0, T.TimerStep(s, T.DoReify)) == true && QueueAt(0, prim) == true && pq.rfeeds == []
      ensures Expired(TimerBatch(s, fed), prim) == true && |old(pq.pendings)| == NUMPRI
      ensures pq.pendings == AfterBatch(old(pq.pendings), fed, T.OneShots(s), {TimerDue}, prim, pq.pending_w)
    {
      PrioritiesAgree(prim);
      fed := tl.ExpireFrom(s, prim);
    }

    method ExpireTimersAlone(ghost s: T.TimerState, ghost prim: map<Watcher, nat>)
      returns (ghost fed: seq<Watcher>, ghost s': T.TimerState)
      requires Separate() && TimersOk(s) && QueueOk(prim) && pq.rfeeds == [] && |pq.pendings| == NUMPRI
      modifies tl`activecnt, tl.timers`cnt, tl.timers.heap, tl.timers.ws`active, tl.timers.ws`at
      modifies pq`pendings, pq`rfeeds, pq.ws`pending
      ensures TimersOk(s') == true && QueueOk(prim) == true && TimerTrace([s, s'], [T.DoReify]) == true
      ensures pq.rfeeds == []
      ensures Expired(TimerBatch(s, fed), prim) == true && |old(pq.pendings)| == NUMPRI
      ensures pq.pendings == AfterBatch(old(pq.pendings), fed, T.OneShots(s), {TimerDue}, prim, pq.pending_w)
    {
      OpenTimers(s);
      OpenQueue(prim);
      fed := ExpireTimersOpen(s, prim);
      s' := T.TimerStep(s, T.DoReify);
      OneTimerMove(s, T.DoReify, s');
      OpenTimers(s');
      OpenQueue(prim);
    }

    method ExpireTimers(ghost r: Started, ghost prim: map<Watcher, nat>)
      returns (ghost fed: seq<Watcher>, ghost r': Started)
      requires Sound(r, prim) == true && pq.rfeeds == [] && |pq.pendings| == NUMPRI
      modifies tl`activecnt, tl.timers`cnt, tl.timers.heap, tl.timers.ws`active, tl.timers.ws`at
      modifies pq`pendings, pq`rfeeds, pq.ws`pending
      ensures Sound(r', prim) == true && tl.timers.heap == old(tl.timers.heap)
      ensures pl.periodics.heap == old(pl.periodics.heap) && pq.rfeeds == []
      ensures r' == r.(timers := r'.timers) && TimerTrace([r.timers, r'.timers], [T.DoReify]) == true
      ensures Expired(TimerBatch(r.timers, fed), prim) == true && |old(pq.pendings)| == NUMPRI
      ensures |pq.pendings| == NUMPRI
      ensures pq.pendings == AfterBatch(old(pq.pendings), fed, T.OneShots(r.timers), {TimerDue}, prim, pq.pending_w)
      ensures forall w :: w in fed ==> w in tl.timers.ws
    {
      OpenSound(r, prim);
      ghost var s;
      BatchesAreOwn(r, prim);
      fed, s := ExpireTimersAlone(r.timers, prim);
      r' := r.(timers := s);
      OpenSound(r', prim);
    }

    // who is active is of the loop's own
    lemma BatchesAreOwn(r: Started, prim: map<Watcher, nat>)
      requires Sound(r, prim)
      ensures r.timers.active <= tl.timers.ws && r.periodics.active <= pl.periodics.ws
      ensures tl.timers.ws !! pl.periodics.ws
    {
      OpenSound(r, prim);
      OpenTimers(r.timers);
      OpenPeriodics(r.periodics);
    }

    // periodics_reify
    method ExpirePeriodicsOpen(ghost s: P.PeriodicState, ghost prim: map<Watcher, nat>)
      returns (ghost fed: seq<Watcher>, ghost s': P.PeriodicState)
      requires Separate() && PeriodicsAt(0, s) && QueueAt(0, prim) && pq.rfeeds == []
      modifies pl`activecnt, pl.periodics`cnt, pl.periodics.heap, pl.periodics.ws`active, pl.periodics.ws`at
      modifies pq`pendings, pq`rfeeds, pq.ws`pending
      ensures PeriodicsAt(0, s') == true && QueueAt(0, prim) == true && pq.rfeeds == []
      ensures P.PeriodicRun([s, s'], [P.DoReify]) == true
      ensures Expired(PeriodicBatch(s, fed), prim) == true && |old(pq.pendings)| == NUMPRI
      ensures pq.pendings == AfterBatch(old(pq.pendings), fed, P.OneShots(s), {PeriodicDue}, prim, pq.pending_w)
    {
      PrioritiesAgree(prim);
      fed, s' := pl.ExpireFrom(s, prim);
    }

    method ExpirePeriodicsAlone(ghost s: P.PeriodicState, ghost prim: map<Watcher, nat>)
      returns (ghost fed: seq<Watcher>, ghost s': P.PeriodicState)
      requires Separate() && PeriodicsOk(s) && QueueOk(prim) && pq.rfeeds == [] && |pq.pendings| == NUMPRI
      modifies pl`activecnt, pl.periodics`cnt, pl.periodics.heap, pl.periodics.ws`active, pl.periodics.ws`at
      modifies pq`pendings, pq`rfeeds, pq.ws`pending
      ensures PeriodicsOk(s') == true && QueueOk(prim) == true && pq.rfeeds == []
      ensures P.PeriodicRun([s, s'], [P.DoReify]) == true
      ensures Expired(PeriodicBatch(s, fed), prim) == true && |old(pq.pendings)| == NUMPRI
      ensures pq.pendings == AfterBatch(old(pq.pendings), fed, P.OneShots(s), {PeriodicDue}, prim, pq.pending_w)
    {
      OpenPeriodics(s);
      OpenQueue(prim);
      fed, s' := ExpirePeriodicsOpen(s, prim);
      OpenPeriodics(s');
      OpenQueue(prim);
    }

    method ExpirePeriodics(ghost r: Started, ghost prim: map<Watcher, nat>)
      returns (ghost fed: seq<Watcher>, ghost r': Started)
      requires Sound(r, prim) == true && pq.rfeeds == [] && |pq.pendings| == NUMPRI
      modifies pl`activecnt, pl.periodics`cnt, pl.periodics.heap, pl.periodics.ws`active, pl.periodics.ws`at
      modifies pq`pendings, pq`rfeeds, pq.ws`pending
      ensures Sound(r', prim) == true && tl.timers.heap == old(tl.timers.heap)
      ensures pl.periodics.heap == old(pl.periodics.heap) && pq.rfeeds == []
      ensures r' == r.(periodics := r'.periodics) && P.PeriodicRun([r.periodics, r'.periodics], [P.DoReify]) == true
      ensures Expired(PeriodicBatch(r.periodics, fed), prim) == true && |old(pq.pendings)| == NUMPRI
      ensures |pq.pendings| == NUMPRI
      ensures pq.pendings == AfterBatch(old(pq.pendings), fed, P.OneShots(r.periodics), {PeriodicDue}, prim, pq.pending_w)
      ensures forall w :: w in fed ==> w in pl.periodics.ws
    {
      OpenSound(r, prim);
      ghost var s;
      BatchesAreOwn(r, prim);
      fed, s := ExpirePeriodicsAlone(r.periodics, prim);
      r' := r.(periodics := s);
      OpenSound(r', prim);
    }

    // the two, one after the other
    method Expire(ghost r: Started, ghost prim: map<Watcher, nat>)
      returns (ghost fed: seq<Watcher>, ghost fed': seq<Watcher>, ghost r': Started)
      requires Sound(r, prim) == true && pq.rfeeds == [] && |pq.pendings| == NUMPRI
      modifies tl`activecnt, tl.timers`cnt, tl.timers.heap, tl.timers.ws`active, tl.timers.ws`at
      modifies pl`activecnt, pl.periodics`cnt, pl.periodics.heap, pl.periodics.ws`active, pl.periodics.ws`at
      modifies pq`pendings, pq`rfeeds, pq.ws`pending
      ensures Sound(r', prim) == true && tl.timers.heap == old(tl.timers.heap)
      ensures pl.periodics.heap == old(pl.periodics.heap) && pq.rfeeds == [] && |pq.pendings| == NUMPRI
      ensures Lapses(r, r') == true
      ensures ExpiredTwice(old(pq.pendings), TimerBatch(r.timers, fed), PeriodicBatch(r.periodics, fed'), pq.pendings, prim,
                           pq.pending_w) == true
    {
      BatchesAreOwn(r, prim);
      ghost var ss := pq.pendings;
      ghost var r1;
      fed, r1 := ExpireTimers(r, prim);
      ghost var ss1 := pq.pendings;
      fed', r' := ExpirePeriodics(r1, prim);
      BothExpired(ss, r.timers, fed, ss1, r.periodics, fed', pq.pendings, prim, pq.pending_w);
      BothLapse(r, r1, r');
    }

    // ---------- one turn of ev_run ----------

    // the loop time
    method Now(ghost r: Started, ghost prim: map<Watcher, nat>) returns (now: real)
      requires Sound(r, prim) == true
      ensures now == r.timers.now
    {
      OpenSound(r, prim);
      OpenTimers(r.timers);
      now := tl.mn_now;
    }

    // time_update, and how long to block
    method GoToSleep(nowait: bool, ghost r: Started, ghost prim: map<Watcher, nat>)
      returns (slept: real, wait: real, ghost r': Started, ghost rs: seq<Syscall>)
      requires Sound(r, prim) == true && fl.UpToDate() == true
      modifies this`now_floor, this`rtmn_diff, this`syscalls, tl`mn_now, pl`ev_rt_now
      modifies tl.timers.heap, tl.timers.ws`at, pl.periodics.heap, pl.periodics.ws`at, pl.periodics.ws`active
      ensures Sound(r', prim) == true && fl.UpToDate() == true
      ensures Ticks(r, r', 1e100, have_monotonic, rs) == true
      ensures Blocks(r.timers.now, r'.timers, r'.periodics, nowait, slept, wait, limits) == true
    {
      var prev := Now(r, prim);
      r', rs := UpdateTime(1e100, r, prim);
      slept, wait := Block(nowait, prev, r', prim);
    }

    // ev_sleep
    method EvSleep(t: real)
      modifies this`syscalls
      ensures syscalls == old(syscalls) + [Slept(t)]
    {
      syscalls := syscalls + [Slept(t)];
    }

    // the system call of backend_poll
    method KernelPoll(timeout: real)
      modifies this`syscalls
      ensures syscalls == old(syscalls) + [Polled(timeout)]
    {
      syscalls := syscalls + [Polled(timeout)];
    }

    method BlockCalls(slept: real, wait: real)
      modifies this`syscalls
      ensures syscalls == old(syscalls) + Blocking(slept, wait)
    {
      if slept > 0.0 {
        EvSleep(slept);
      }
      KernelPoll(wait);
    }

    method BlockFor(slept: real, wait: real, ghost r: Started, ghost prim: map<Watcher, nat>)
      requires Sound(r, prim) == true
      modifies this`syscalls
      ensures Sound(Blocked(r, slept, wait), prim) == true
    {
      OpenSound(r, prim);
      BlockCalls(slept, wait);
      OpenSound(Blocked(r, slept, wait), prim);
    }

    // the sleep and backend_poll
    method BlockAndPoll(slept: real, wait: real, answer: seq<(nat, Mask)>, ghost r: Started, ghost prim: map<Watcher, nat>)
      returns (reports: seq<(nat, Mask)>, ghost lists: seq<seq<Watcher>>)
      requires Sound(r, prim) == true && fl.UpToDate() == true && |pq.pendings| == NUMPRI
      modifies this`syscalls, pq`pendings, fl.ws`pending
      ensures Sound(Blocked(r, slept, wait), prim) == true && fl.UpToDate() == true && |pq.pendings| == NUMPRI
      ensures D.PollOk(r.io, answer, old(pq.pendings), lists, reports, pq.pendings, prim, pq.pending_w) == true
    {
      BlockFor(slept, wait, r, prim);
      reports, lists := Poll(answer, Blocked(r, slept, wait), prim);
    }

    // backend_poll, after the sleep before it, and time_update
    method WakeUp(slept: real, wait: real, answer: seq<(nat, Mask)>, ghost r: Started, ghost prim: map<Watcher, nat>)
      returns (reports: seq<(nat, Mask)>, ghost lists: seq<seq<Watcher>>, ghost r': Started, ghost rs: seq<Syscall>)
      requires Sound(r, prim) == true && fl.UpToDate() == true && |pq.pendings| == NUMPRI
      modifies this`now_floor, this`rtmn_diff, this`syscalls, tl`mn_now, pl`ev_rt_now
      modifies tl.timers.heap, tl.timers.ws`at, pl.periodics.heap, pl.periodics.ws`at, pl.periodics.ws`active
      modifies pq`pendings, fl.ws`pending
      ensures Sound(r', prim) == true && fl.UpToDate() == true && |pq.pendings| == NUMPRI
      ensures D.PollOk(r.io, answer, old(pq.pendings), lists, reports, pq.pendings, prim, pq.pending_w) == true
      ensures Ticks(Blocked(r, slept, wait), r', slept + wait, have_monotonic, rs) == true
    {
      reports, lists := BlockAndPoll(slept, wait, answer, r, prim);
      r', rs := UpdateTime(slept + wait, Blocked(r, slept, wait), prim);
    }

    // from time_update to time_update, around the poll
    method Sleep(nowait: bool, answer: seq<(nat, Mask)>, ghost killed: seq<Watcher>, ghost r: Started,
                 ghost prim: map<Watcher, nat>)
      returns (reports: seq<(nat, Mask)>, ghost w: Waited)
      requires Sound(r, prim) == true && fl.UpToDate() == true && |pq.pendings| == NUMPRI
      modifies this`now_floor, this`rtmn_diff, this`syscalls, tl`mn_now, pl`ev_rt_now
      modifies tl.timers.heap, tl.timers.ws`at, pl.periodics.heap, pl.periodics.ws`at, pl.periodics.ws`active
      modifies pq`pendings, fl.ws`pending
      ensures Sound(w.due, prim) == true && fl.UpToDate() == true && |pq.pendings| == NUMPRI
      ensures w.reports == reports && w.nowait == nowait && w.answer == answer
      ensures w.killed == killed && SleepOk(Loop(r, old(pq.pendings)), w, Settings(prim)) == true
      ensures w.found == pq.pendings && tl.timers.heap == old(tl.timers.heap)
      ensures pl.periodics.heap == old(pl.periodics.heap)
    {
      ghost var ss := pq.pendings;
      ghost var r1, early, r2, late, lists;
      var slept, wait;
      slept, wait, r1, early := GoToSleep(nowait, r, prim);
      reports, lists, r2, late := WakeUp(slept, wait, answer, r1, prim);
      w := Waited(killed, early, r1, nowait, slept, wait, answer, lists, reports, late, r2, pq.pendings);
      SleepMade(Loop(r, ss), w, Settings(prim));
    }

    // from fd_reify to the time after the poll
    method Wait(nowait: bool, answer: seq<(nat, Mask)>, ghost r: Started, ghost prim: map<Watcher, nat>)
      returns (reports: seq<(nat, Mask)>, ghost b: Loop, ghost w: Waited)
      requires Sound(r, prim) == true && |pq.pendings| == NUMPRI
      modifies this`now_floor, this`rtmn_diff, this`syscalls, tl`mn_now, pl`ev_rt_now
      modifies tl.timers.heap, tl.timers.ws`at, pl.periodics.heap, pl.periodics.ws`at, pl.periodics.ws`active
      modifies fl`anfds, fl`lists, fl`fdchanges, fl`activecnt, fl`epoll_eperms, fl`told, fl`kills
      modifies fl.ws`next, fl.ws`active, fl.ws`pending, pq`pendings
      modifies fl.poll, fl.poll.pollidxs, fl.poll.polls, fl.sel, fl.sel.vec_ri, fl.sel.vec_wi
      ensures Sound(w.due, prim) == true && fl.UpToDate() == true && |pq.pendings| == NUMPRI
      ensures tl.timers.heap == old(tl.timers.heap) && pl.periodics.heap == old(pl.periodics.heap)
      ensures WaitOk(Loop(r, old(pq.pendings)), b, w, Settings(prim)) == true
      ensures w.found == pq.pendings && w.reports == reports && w.nowait == nowait && w.answer == answer
      ensures fl.TablesMoved(old(fl.poll.pollidxs), old(fl.poll.polls), old(fl.sel.vec_ri), old(fl.sel.vec_wi)) == true
    {
      ghost var a := Loop(r, pq.pendings);
      ghost var killed, r1 := ReifyFds(r, prim);
      b := Loop(r1, pq.pendings);
      reports, w := Sleep(nowait, answer, killed, r1, prim);
      WaitMade(a, b, w, Settings(prim));
    }

    // timers_reify, periodics_reify and ev_invoke_pending
    method ExpireAndInvoke(script: LoopScript, ghost r: Started, ghost prim: map<Watcher, nat>)
      returns (calls: seq<Slot<Watcher>>, ghost fed: seq<Watcher>, ghost fed': seq<Watcher>, ghost b: Loop,
               ghost d: Dispatched, ghost r': Started)
      requires Sound(r, prim) == true && pq.rfeeds == [] && |pq.pendings| == NUMPRI
      requires forall i :: 0 <= i < |script| ==> AllKnown(script[i])
      modifies tl`activecnt, tl.timers`cnt, tl.timers`heap, tl.timers.heap
      modifies tl.timers.ws`active, tl.timers.ws`at, tl.timers.ws`priority
      modifies pl`activecnt, pl.periodics`cnt, pl.periodics`heap, pl.periodics.heap
      modifies pl.periodics.ws`active, pl.periodics.ws`at, pl.periodics.ws`priority
      modifies fl`anfds, fl`lists, fl`fdchanges, fl`activecnt, fl`gone
      modifies fl.ws`next, fl.ws`active, fl.ws`events, fl.ws`priority
      modifies pq`pendings, pq`rfeeds, pq.ws`pending, pq.pending_w`pending
      ensures Sound(r', prim) == true && pq.rfeeds == [] && |pq.pendings| == NUMPRI
      ensures HeapsMoved(old(tl.timers.heap), old(pl.periodics.heap)) == true
      ensures ExpiredTwice(old(pq.pendings), TimerBatch(r.timers, fed), PeriodicBatch(r.periodics, fed'), b.pendings, prim,
                           pq.pending_w) == true
      ensures Lapses(r, b.started) == true && DispatchOk(b, d, Loop(r', pq.pendings), Settings(prim)) == true
      ensures calls == d.calls && script == d.script
    {
      ghost var r1;
      fed, fed', r1 := Expire(r, prim);
      b := Loop(r1, pq.pendings);
      calls, d, r' := InvokePending(script, r1, prim);
    }

    twostate predicate TablesKept()
      reads fl.poll, fl.sel
    {
      && fl.poll.pollidxs == old(fl.poll.pollidxs) && fl.poll.polls == old(fl.poll.polls)
      && fl.sel.vec_ri == old(fl.sel.vec_ri) && fl.sel.vec_wi == old(fl.sel.vec_wi)
    }

    // the same, which leaves the tables of the backend alone
    method ExpireLast(script: LoopScript, ghost r: Started, ghost prim: map<Watcher, nat>)
      returns (calls: seq<Slot<Watcher>>, ghost fed: seq<Watcher>, ghost fed': seq<Watcher>, ghost b: Loop,
               ghost d: Dispatched, ghost r': Started)
      requires Sound(r, prim) == true && pq.rfeeds == [] && |pq.pendings| == NUMPRI
      requires forall i :: 0 <= i < |script| ==> AllKnown(script[i])
      modifies tl`activecnt, tl.timers`cnt, tl.timers`heap, tl.timers.heap
      modifies tl.timers.ws`active, tl.timers.ws`at, tl.timers.ws`priority
      modifies pl`activecnt, pl.periodics`cnt, pl.periodics`heap, pl.periodics.heap
      modifies pl.periodics.ws`active, pl.periodics.ws`at, pl.periodics.ws`priority
      modifies fl`anfds, fl`lists, fl`fdchanges, fl`activecnt, fl`gone
      modifies fl.ws`next, fl.ws`active, fl.ws`events, fl.ws`priority
      modifies pq`pendings, pq`rfeeds, pq.ws`pending, pq.pending_w`pending
      ensures Sound(r', prim) == true && pq.rfeeds == [] && |pq.pendings| == NUMPRI
      ensures HeapsMoved(old(tl.timers.heap), old(pl.periodics.heap)) == true
      ensures ExpiredTwice(old(pq.pendings), TimerBatch(r.timers, fed), PeriodicBatch(r.periodics, fed'), b.pendings, prim,
                           pq.pending_w) == true
      ensures Lapses(r, b.started) == true && DispatchOk(b, d, Loop(r', pq.pendings), Settings(prim)) == true
      ensures calls == d.calls && script == d.script
      ensures TablesKept() == true
    {
      calls, fed, fed', b, d, r' := ExpireAndInvoke(script, r, prim);
    }

    // one turn
    method Turn(input: TurnInput, ghost a: Loop, ghost prim: map<Watcher, nat>)
      returns (reports: seq<(nat, Mask)>, calls: seq<Slot<Watcher>>, ghost t: Turned)
      requires Sound(a.started, prim) == true && a.pendings == pq.pendings && pq.rfeeds == []
      requires |pq.pendings| == NUMPRI
      requires forall i :: 0 <= i < |input.script| ==> AllKnown(input.script[i])
      modifies tl`activecnt, tl.timers`cnt, tl.timers`heap, tl.timers.heap
      modifies tl.timers.ws`active, tl.timers.ws`at, tl.timers.ws`priority
      modifies pl`activecnt, pl.periodics`cnt, pl.periodics`heap, pl.periodics.heap
      modifies pl.periodics.ws`active, pl.periodics.ws`at, pl.periodics.ws`priority
      modifies fl`anfds, fl`lists, fl`fdchanges, fl`activecnt, fl`gone
      modifies fl.ws`next, fl.ws`active, fl.ws`events, fl.ws`priority
      modifies pq`pendings, pq`rfeeds, pq.ws`pending, pq.pending_w`pending
      modifies this`now_floor, this`rtmn_diff, this`syscalls, tl`mn_now, pl`ev_rt_now
      modifies fl`epoll_eperms, fl`told, fl`kills, fl.ws`pending
      modifies fl.poll, fl.poll.pollidxs, fl.poll.polls, fl.sel, fl.sel.vec_ri, fl.sel.vec_wi
      ensures Sound(t.after.started, prim) == true && t.after.pendings == pq.pendings && pq.rfeeds == []
      ensures |pq.pendings| == NUMPRI
      ensures RunOk([t], [input], a, t.after, Settings(prim)) == true
      ensures t.wait.reports == reports && t.dispatch.calls == calls
      ensures tl.timers.heap == old(tl.timers.heap) || fresh(tl.timers.heap)
      ensures pl.periodics.heap == old(pl.periodics.heap) || fresh(pl.periodics.heap)
      ensures fl.poll.pollidxs == old(fl.poll.pollidxs) || fresh(fl.poll.pollidxs)
      ensures fl.poll.polls == old(fl.poll.polls) || fresh(fl.poll.polls)
      ensures fl.sel.vec_ri == old(fl.sel.vec_ri) || fresh(fl.sel.vec_ri)
      ensures fl.sel.vec_wi == old(fl.sel.vec_wi) || fresh(fl.sel.vec_wi)
    {
      ghost var b, w;
      reports, b, w := Wait(input.nowait, input.answer, a.started, prim);
      ghost var fed, fed', e, d, r;
      calls, fed, fed', e, d, r := ExpireLast(input.script, w.due, prim);
      t := Turned(a, b, w, fed, fed', e, d, Loop(r, pq.pendings));
      TurnMade(t, input, a, Settings(prim));
    }

    // any number of turns
    method Turns(inputs: seq<TurnInput>, ghost a: Loop, ghost prim: map<Watcher, nat>)
      returns (calls: seq<seq<Slot<Watcher>>>, ghost ts: seq<Turned>, ghost b: Loop)
      requires Sound(a.started, prim) == true && a.pendings == pq.pendings && pq.rfeeds == []
      requires |pq.pendings| == NUMPRI
      requires forall n, i :: 0 <= n < |inputs| && 0 <= i < |inputs[n].script| ==> AllKnown(inputs[n].script[i])
      modifies tl`activecnt, tl.timers`cnt, tl.timers`heap, tl.timers.heap
      modifies tl.timers.ws`active, tl.timers.ws`at, tl.timers.ws`priority
      modifies pl`activecnt, pl.periodics`cnt, pl.periodics`heap, pl.periodics.heap
      modifies pl.periodics.ws`active, pl.periodics.ws`at, pl.periodics.ws`priority
      modifies fl`anfds, fl`lists, fl`fdchanges, fl`activecnt, fl`gone
      modifies fl.ws`next, fl.ws`active, fl.ws`events, fl.ws`priority
      modifies pq`pendings, pq`rfeeds, pq.ws`pending, pq.pending_w`pending
      modifies this`now_floor, this`rtmn_diff, this`syscalls, tl`mn_now, pl`ev_rt_now
      modifies fl`epoll_eperms, fl`told, fl`kills, fl.ws`pending
      modifies fl.poll, fl.poll.pollidxs, fl.poll.polls, fl.sel, fl.sel.vec_ri, fl.sel.vec_wi
      ensures Sound(b.started, prim) == true && b.pendings == pq.pendings && pq.rfeeds == []
      ensures |ts| == |inputs| && RunOk(ts, inputs, a, b, Settings(prim)) == true && CallsOf(ts, calls) == true
    {
      calls, ts, b := [], [], a;
      for n := 0 to |inputs|
        invariant Sound(b.started, prim) == true && b.pendings == pq.pendings && pq.rfeeds == []
        invariant |pq.pendings| == NUMPRI
        invariant |ts| == n && RunOk(ts, inputs, a, b, Settings(prim)) == true && CallsOf(ts, calls) == true
        invariant HeapsMoved(old(tl.timers.heap), old(pl.periodics.heap)) == true
        invariant fl.TablesMoved(old(fl.poll.pollidxs), old(fl.poll.polls), old(fl.sel.vec_ri), old(fl.sel.vec_wi)) == true
      {
        var _, c, t := Turn(inputs[n], b, prim);
        RunMore(ts, t, inputs, a, b, Settings(prim));
        CallsMore(ts, calls, t);
        calls, ts, b := calls + [c], ts + [t], t.after;
      }
    }

    // ev_run: a dispatch of what is pending, and then any number of turns.  Whatever the polls report, the clocks
    // show and the callbacks do, each turn is as TurnSpecs says.
    method Run(first: LoopScript, inputs: seq<TurnInput>, ghost r: Started, ghost prim: map<Watcher, nat>)
      returns (before: seq<Slot<Watcher>>, calls: seq<seq<Slot<Watcher>>>, ghost d: Dispatched, ghost a: Loop,
               ghost ts: seq<Turned>, ghost b: Loop)
      requires Sound(r, prim) == true && pq.rfeeds == [] && |pq.pendings| == NUMPRI
      requires forall i :: 0 <= i < |first| ==> AllKnown(first[i])
      requires forall n, i :: 0 <= n < |inputs| && 0 <= i < |inputs[n].script| ==> AllKnown(inputs[n].script[i])
      modifies tl`activecnt, tl.timers`cnt, tl.timers`heap, tl.timers.heap
      modifies tl.timers.ws`active, tl.timers.ws`at, tl.timers.ws`priority
      modifies pl`activecnt, pl.periodics`cnt, pl.periodics`heap, pl.periodics.heap
      modifies pl.periodics.ws`active, pl.periodics.ws`at, pl.periodics.ws`priority
      modifies fl`anfds, fl`lists, fl`fdchanges, fl`activecnt, fl`gone
      modifies fl.ws`next, fl.ws`active, fl.ws`events, fl.ws`priority
      modifies pq`pendings, pq`rfeeds, pq.ws`pending, pq.pending_w`pending
      modifies this`now_floor, this`rtmn_diff, this`syscalls, tl`mn_now, pl`ev_rt_now
      modifies fl`epoll_eperms, fl`told, fl`kills, fl.ws`pending
      modifies fl.poll, fl.poll.pollidxs, fl.poll.polls, fl.sel, fl.sel.vec_ri, fl.sel.vec_wi
      ensures DispatchOk(Loop(r, old(pq.pendings)), d, a, Settings(prim)) == true && d.script == first
      ensures d.calls == before
      ensures |ts| == |inputs| && RunOk(ts, inputs, a, b, Settings(prim)) == true && CallsOf(ts, calls) == true
      ensures Sound(b.started, prim) == true && b.pendings == pq.pendings && pq.rfeeds == []
    {
      ghost var r1;
      before, d, r1 := InvokePending(first, r, prim);
      a := Loop(r1, pq.pendings);
      calls, ts, b := Turns(inputs, a, prim);
    }
  }
}
