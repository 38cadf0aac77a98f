/**
  What one turn of ev_run (deps/ev/ev.c) does to the loop, as a relation between
  values: what is started, what is pending, and the calls that are made.
 */
module TurnSpecs {
  import opened Watchers
  import opened PendingStacks
  import opened TimeHeaps
  import opened Expiry
  import opened Basics
  import opened BlockTimes
  import T = Timers
  import P = Periodics
  import D = Descriptors

  const MIN_TIMEJUMP: real := 1.0

  // the two differences between the clocks mean that one of them jumped
  predicate Differs(odiff: real, diff: real) {
    (if odiff - diff < 0.0 then -(odiff - diff) else odiff - diff) >= MIN_TIMEJUMP
  }

  // ---------- system calls ----------

  // a reading of the monotonic clock or of the real-time clock, a sleep, or a poll with its timeout
  datatype Syscall = Mono(t: real) | Wall(t: real) | Slept(t: real) | Polled(t: real)

  // what the clocks showed last
  function LastMono(rs: seq<Syscall>): real {
    if rs == [] then 0.0
    else if rs[|rs| - 1].Mono? then rs[|rs| - 1].t
    else LastMono(rs[..|rs| - 1])
  }

  function LastWall(rs: seq<Syscall>): real {
    if rs == [] then 0.0
    else if rs[|rs| - 1].Wall? then rs[|rs| - 1].t
    else LastWall(rs[..|rs| - 1])
  }

  // the difference of the clocks after the first n pairs of readings
  function Gap(rs: seq<Syscall>, n: nat): real
    requires 2 * n <= |rs|
  {
    LastWall(rs[..2 * n]) - LastMono(rs[..2 * n])
  }

  // First the monotonic clock is read and then both in turn, in pairs.
  predicate InPairs(rs: seq<Syscall>) {
    && |rs| % 2 == 0 && |rs| >= 2 && rs[0].Mono? && rs[1].Wall?
    && forall i :: 2 <= i < |rs| ==> (rs[i].Mono? <==> i % 2 == 1)
  }

  // What the loop makes of its readings rs.  Within half of MIN_TIMEJUMP of the last full reading the monotonic
  // clock alone is read, and real time follows it.  Otherwise both are read, up to four times, until they are as
  // far apart as they were; that they never are is a jump.
  predicate ClocksRead(floor0: real, diff0: real, rs: seq<Syscall>, jump: bool, mn: real, rt: real, floor: real,
                       diff: real) {
    && rs != [] && rs[0].Mono? && mn == LastMono(rs)
    && if rs[0].t - floor0 < MIN_TIMEJUMP * 0.5 then
         |rs| == 1 && !jump && rt == mn + diff && floor == floor0 && diff == diff0
       else
         && InPairs(rs) && |rs| <= 8 && rt == LastWall(rs) && floor == mn
         && (jump <==> |rs| == 8)
         && (forall n :: 1 <= n < |rs| / 2 ==> Differs(diff0, Gap(rs, n)))
         && (if jump then diff == Gap(rs, 3) else !Differs(diff0, Gap(rs, |rs| / 2)) && diff == Gap(rs, |rs| / 2))
  }

  // So there is a jump iff the difference that the loop notes has changed by MIN_TIMEJUMP or more.
  lemma JumpIsDifference(floor0: real, diff0: real, rs: seq<Syscall>, jump: bool, mn: real, rt: real, floor: real,
                         diff: real)
    requires ClocksRead(floor0, diff0, rs, jump, mn, rt, floor, diff)
    ensures jump <==> Differs(diff0, diff)
  {
  }

  // ---------- what callbacks do ----------

  // what a callback may do to the loop
  datatype LoopOp =
    | FeedEvent(w: Watcher, revents: Mask)
    | ClearPending(w: Watcher)
    | TimerStart(w: Watcher)
    | TimerStop(w: Watcher)
    | TimerAgain(w: Watcher)
    | PeriodicStart(w: Watcher)
    | PeriodicStop(w: Watcher)
    | PeriodicAgain(w: Watcher)
    | IoStart(w: Watcher)
    | IoStop(w: Watcher)

  // what that means for the pending stacks
  function StackOps(op: LoopOp): seq<Op<Watcher>> {
    match op
    case FeedEvent(w, m) => [OpFeed(w, m)]
    case ClearPending(w) => [OpClear(w)]
    case TimerStart(_) => []
    case TimerStop(w) => [OpClear(w)]
    case TimerAgain(w) => [OpClear(w)]
    case PeriodicStart(_) => []
    case PeriodicStop(w) => [OpClear(w)]
    case PeriodicAgain(w) => [OpClear(w)]
    case IoStart(_) => []
    case IoStop(w) => [OpClear(w)]
  }

  function AllStackOps(ops: seq<LoopOp>): seq<Op<Watcher>> {
    if ops == [] then [] else AllStackOps(ops[..|ops| - 1]) + StackOps(ops[|ops| - 1])
  }

  // the callbacks of one dispatch: the i-th one called performs script[i]
  type LoopScript = seq<seq<LoopOp>>

  function Stacked(script: LoopScript): (r: Script<Watcher>)
    ensures |r| == |script|
  {
    seq(|script|, i requires 0 <= i < |script| => AllStackOps(script[i]))
  }

  function OpsOf(script: LoopScript, n: nat): (r: seq<LoopOp>)
    ensures AllStackOps(r) == OpsAt(Stacked(script), n)
  {
    if n < |script| then script[n] else []
  }

  lemma OneMoreOp(ss0: Stacks<Watcher>, ss: Stacks<Watcher>, ops: seq<LoopOp>, i: nat, pri: map<Watcher, nat>,
                  dummy: Watcher)
    requires i < |ops| && |ss0| == NUMPRI
    requires Behaves(AllStackOps(ops[..i]), pri, NUMPRI) && Behaves(StackOps(ops[i]), pri, NUMPRI)
    requires ss == ActAll(ss0, AllStackOps(ops[..i]), pri, dummy)
    ensures Behaves(AllStackOps(ops[..i + 1]), pri, NUMPRI)
    ensures ActAll(ss, StackOps(ops[i]), pri, dummy) == ActAll(ss0, AllStackOps(ops[..i + 1]), pri, dummy)
  {
    assert ops[..i + 1][..i] == ops[..i];
    ActAllMore(ss0, AllStackOps(ops[..i]), StackOps(ops[i]), pri, dummy);
  }

  // what is started, and when; diff and floor are the loop's rtmn_diff and now_floor, and log is all its
  // system calls
  datatype Started = Started(timers: T.TimerState, periodics: P.PeriodicState, io: D.IoState, diff: real, floor: real,
                             log: seq<Syscall>)

  predicate IsTimerOp(op: LoopOp) {
    op.TimerStart? || op.TimerStop? || op.TimerAgain?
  }

  predicate IsPeriodicOp(op: LoopOp) {
    op.PeriodicStart? || op.PeriodicStop? || op.PeriodicAgain?
  }

  function TimerOp(op: LoopOp): T.TimerOp
    requires IsTimerOp(op)
  {
    match op
    case TimerStart(w) => T.DoStart(w)
    case TimerStop(w) => T.DoStop(w)
    case TimerAgain(w) => T.DoAgain(w)
  }

  function PeriodicOp(op: LoopOp): P.PeriodicOp
    requires IsPeriodicOp(op)
  {
    match op
    case PeriodicStart(w) => P.DoStart(w)
    case PeriodicStop(w) => P.DoStop(w)
    case PeriodicAgain(w) => P.DoAgain(w)
  }

  ghost predicate TimerMoves(s: T.TimerState, op: T.TimerOp, t: T.TimerState) {
    s.active <= s.at.Keys == s.repeat.Keys && T.Concerns(op, s.at.Keys) && t == T.TimerStep(s, op)
  }

  // ops lead through the states ss
  ghost predicate TimerTrace(ss: seq<T.TimerState>, ops: seq<T.TimerOp>) {
    |ss| == |ops| + 1 && forall i :: 0 <= i < |ops| ==> TimerMoves(ss[i], ops[i], ss[i + 1])
  }

  lemma OneTimerMove(s: T.TimerState, op: T.TimerOp, t: T.TimerState)
    ensures TimerTrace([s, t], [op]) <==> TimerMoves(s, op, t)
  {
    assert [s, t][0] == s && [s, t][1] == t && [op][0] == op;
  }

  ghost predicate IoDoes(op: LoopOp, a: D.IoState, b: D.IoState) {
    match op
    case IoStart(w) => b == a.(active := a.active + {w})
    case IoStop(w) => b == a.(active := a.active - {w})
    case _ => b == a
  }

  // an operation, as far as it starts or stops something
  ghost predicate Does(op: LoopOp, a: Started, b: Started) {
    if IsTimerOp(op) then b == a.(timers := b.timers) && TimerMoves(a.timers, TimerOp(op), b.timers)
    else if IsPeriodicOp(op) then
      b == a.(periodics := b.periodics) && P.PeriodicStep(a.periodics, PeriodicOp(op), b.periodics)
    else b == a.(io := b.io) && IoDoes(op, a.io, b.io)
  }

  // a callback: the states between its operations
  ghost predicate DoesAll(ops: seq<LoopOp>, rs: seq<Started>) {
    |rs| == |ops| + 1 && forall i :: 0 <= i < |ops| ==> Does(ops[i], rs[i], rs[i + 1])
  }

  lemma OneDone(op: LoopOp, a: Started, b: Started)
    requires IsTimerOp(op) ==> b == a.(timers := b.timers) && TimerTrace([a.timers, b.timers], [TimerOp(op)])
    requires IsPeriodicOp(op) ==>
      b == a.(periodics := b.periodics) && P.PeriodicRun([a.periodics, b.periodics], [PeriodicOp(op)])
    requires !IsTimerOp(op) && !IsPeriodicOp(op) ==> b == a.(io := b.io) && IoDoes(op, a.io, b.io)
    ensures DoesAll([op], [a, b]) == true
  {
    if IsTimerOp(op) {
      OneTimerMove(a.timers, TimerOp(op), b.timers);
    } else if IsPeriodicOp(op) {
      P.OneStep(a.periodics, PeriodicOp(op), b.periodics);
    }
  }

  lemma DoesMore(ops: seq<LoopOp>, i: nat, rs: seq<Started>, r: Started)
    requires i < |ops| && DoesAll(ops[..i], rs) && DoesAll([ops[i]], [rs[i], r])
    ensures DoesAll(ops[..i + 1], rs + [r]) == true
  {
    assert Does([ops[i]][0], [rs[i], r][0], [rs[i], r][1]);
  }

  // the state after the callbacks rss, from a on
  function Latest(a: Started, rss: seq<seq<Started>>): Started {
    if rss == [] || rss[|rss| - 1] == [] then a else var rs := rss[|rss| - 1]; rs[|rs| - 1]
  }

  // the callbacks of a dispatch, from a on
  ghost predicate Followed(script: LoopScript, a: Started, rss: seq<seq<Started>>) {
    forall n :: 0 <= n < |rss| ==> FollowedAt(script, a, rss, n)
  }

  // callback number n of rss, from a on
  ghost predicate FollowedAt(script: LoopScript, a: Started, rss: seq<seq<Started>>, n: nat) {
    n < |rss| && DoesAll(OpsOf(script, n), rss[n]) && rss[n][0] == Latest(a, rss[..n])
  }

  lemma FollowedStill(script: LoopScript, a: Started, rss: seq<seq<Started>>, rs: seq<Started>, n: nat)
    requires FollowedAt(script, a, rss, n)
    ensures FollowedAt(script, a, rss + [rs], n) == true
  {
    assert (rss + [rs])[..n] == rss[..n];
  }

  lemma FollowedBefore(script: LoopScript, a: Started, rss: seq<seq<Started>>, n: nat, i: nat)
    requires Followed(script, a, rss) && i < n <= |rss|
    ensures FollowedAt(script, a, rss[..n], i) == true
  {
    assert FollowedAt(script, a, rss, i);
    assert rss[..n][..i] == rss[..i];
  }

  lemma FollowedMore(script: LoopScript, a: Started, rss: seq<seq<Started>>, rs: seq<Started>)
    requires Followed(script, a, rss) && DoesAll(OpsOf(script, |rss|), rs) && rs[0] == Latest(a, rss)
    ensures Followed(script, a, rss + [rs]) == true && Latest(a, rss + [rs]) == rs[|rs| - 1]
  {
    assert (rss + [rs])[..|rss|] == rss;
    forall n | 0 <= n < |rss|
      ensures FollowedAt(script, a, rss + [rs], n) == true
    {
      FollowedStill(script, a, rss, rs, n);
    }
  }

  // ---------- ev_invoke_pending ----------

  // how long the loop may block and sleep, as configured
  datatype Limits = Limits(timeout_blocktime: real, io_blocktime: real, backend_mintime: real)

  // what does not change: priorities, the dummy watcher, the kinds of clock and backend, the limits
  datatype Setup = Setup(prim: map<Watcher, nat>, dummy: Watcher, mono: bool, epoll: bool, limits: Limits)

  // the loop between two steps of ev_run
  datatype Loop = Loop(started: Started, pendings: Stacks<Watcher>)

  // a dispatch: the calls, the stacks between them, and what each callback started and stopped
  datatype Dispatched = Dispatched(calls: seq<Slot<Watcher>>, ds: seq<Dispatch<Watcher>>, rss: seq<seq<Started>>,
                                   script: LoopScript)

  ghost predicate DispatchOk(a: Loop, d: Dispatched, b: Loop, k: Setup) {
    && Completed(d.ds, d.calls, Stacked(d.script), k.prim, k.dummy, a.pendings)
    && |d.rss| == |d.calls| && Followed(d.script, a.started, d.rss)
    && b == Loop(Latest(a.started, d.rss), d.ds[|d.calls|].ss)
  }

  // ---------- fd_reify, the poll, and the time ----------

  // killing a watcher clears it and feeds it the error
  function KillOps(ks: seq<Watcher>): seq<Op<Watcher>> {
    if ks == [] then []
    else
      var w := ks[|ks| - 1];
      KillOps(ks[..|ks| - 1]) + [OpClear(w), OpFeed(w, {Error, Read, Write})]
  }

  // time_update, with the readings rs: after a jump without a monotonic clock the active timers move along, and
  // after any jump the active periodics are recalculated
  ghost predicate Ticks(a: Started, b: Started, max_block: real, mono: bool, rs: seq<Syscall>) {
    var jump := if mono then |rs| == 8
                else a.timers.now > b.timers.now || b.timers.now > a.timers.now + max_block + MIN_TIMEJUMP;
    && b.io == a.io && b.log == a.log + rs
    && (if mono then ClocksRead(a.floor, a.diff, rs, jump, b.timers.now, b.periodics.now, b.floor, b.diff)
        else rs == [Wall(b.timers.now)] && b.periodics.now == b.timers.now && b.diff == a.diff && b.floor == a.floor)
    && TimersMove(a.timers, b.timers, if jump && !mono then b.timers.now - a.timers.now else 0.0)
    && PeriodicsMove(a.periodics, b.periodics, jump)
  }

  ghost predicate TimersMove(s: T.TimerState, t: T.TimerState, adjust: real) {
    && t.repeat == s.repeat && t.active == s.active && t.at.Keys == s.at.Keys
    && forall w :: w in s.at ==> t.at[w] == if w in s.active then s.at[w] + adjust else s.at[w]
  }

  lemma RescheduledMove(s: T.TimerState, adjust: real)
    requires s.active <= s.at.Keys == s.repeat.Keys
    ensures TimersMove(s, T.TimerStep(s, T.DoReschedule(adjust)), adjust) == true
  {
  }

  ghost predicate PeriodicsMove(s: P.PeriodicState, t: P.PeriodicState, jump: bool) {
    if jump then P.PeriodicStep(s.(now := t.now), P.DoReschedule, t) else t == s.(now := t.now)
  }

  // the loop sleeps for `slept` and then polls for `wait`, unless it may not wait
  ghost predicate Blocks(prev: real, s: T.TimerState, p: P.PeriodicState, nowait: bool, slept: real, wait: real, l: Limits) {
    if nowait then slept == 0.0 && wait == 0.0
    else
      var total, least := slept + wait, MaxReal(l.timeout_blocktime, l.backend_mintime);
      && wait >= l.backend_mintime
      && SleepsRightly(slept, wait, s.now - prev, l.io_blocktime, l.backend_mintime)
      && total >= least && NothingMissed(s, p, total, least) && HasReason(s, p, total, least)
  }

  // nothing that is active is due before t is over, save for the least
  ghost predicate NothingMissed(s: T.TimerState, p: P.PeriodicState, t: real, least: real) {
    && t <= MaxReal(MAX_BLOCKTIME, least)
    && (forall w :: w in s.active && w in s.at ==> t <= MaxReal(s.at[w] - s.now, least))
    && (forall w :: w in p.active && w in p.at ==> t <= MaxReal(p.at[w] - p.now, least))
  }

  // there is a reason not to block for longer than t
  ghost predicate HasReason(s: T.TimerState, p: P.PeriodicState, t: real, least: real) {
    || t == MAX_BLOCKTIME || t == least
    || (exists w :: w in s.active && w in s.at && t == s.at[w] - s.now)
    || (exists w :: w in p.active && w in p.at && t == p.at[w] - p.now)
  }

  lemma BlocksMade(prev: real, s: T.TimerState, p: P.PeriodicState, slept: real, wait: real, l: Limits, total: real,
                   least: real)
    requires total == slept + wait && least == MaxReal(l.timeout_blocktime, l.backend_mintime)
    requires wait >= l.backend_mintime && total >= least
    requires SleepsRightly(slept, wait, s.now - prev, l.io_blocktime, l.backend_mintime) == true
    requires NothingMissed(s, p, total, least) == true && HasReason(s, p, total, least) == true
    ensures Blocks(prev, s, p, false, slept, wait, l) == true
  {
  }

  // after a jump timers and periodics went from s and p to s' and p'
  ghost predicate Jumped(jump: bool, adjust: real, s: T.TimerState, s': T.TimerState, p: P.PeriodicState,
                         p': P.PeriodicState) {
    if jump then TimersMove(s, s', adjust) && s'.now == s.now && P.PeriodicRun([p, p'], [P.DoReschedule]) && p'.now == p.now
    else s' == s && p' == p
  }

  // from fd_reify to the time after the poll: the watchers killed, the clocks read before the poll and what is
  // started then, how long the loop blocks, what the kernel answers, the watcher lists and the reports, the clocks
  // read after the poll, and what is started and pending then
  datatype Waited = Waited(killed: seq<Watcher>, early: seq<Syscall>, polling: Started, nowait: bool,
                           slept: real, wait: real, answer: seq<(nat, Mask)>, lists: seq<seq<Watcher>>, reports: seq<(nat, Mask)>,
                           late: seq<Syscall>, due: Started, found: Stacks<Watcher>)

  // the calls that block
  function Blocking(slept: real, wait: real): seq<Syscall> {
    (if slept > 0.0 then [Slept(slept)] else []) + [Polled(wait)]
  }

  function Blocked(r: Started, slept: real, wait: real): Started {
    r.(log := r.log + Blocking(slept, wait))
  }

  ghost predicate ReifyOk(a: Loop, killed: seq<Watcher>, b: Loop, k: Setup) {
    && |a.pendings| == NUMPRI && (!k.epoll ==> killed == []) && D.KilledWhole(a.started.io, killed)
    && b.started == a.started.(io := a.started.io.(active := a.started.io.active - set w | w in killed))
    && Behaves(KillOps(killed), k.prim, NUMPRI) && b.pendings == ActAll(a.pendings, KillOps(killed), k.prim, k.dummy)
  }

  // the clocks are read, the loop decides how long to block, polls, and reads the clocks again
  ghost predicate SleepOk(a: Loop, w: Waited, k: Setup) {
    && Ticks(a.started, w.polling, 1e100, k.mono, w.early)
    && Blocks(a.started.timers.now, w.polling.timers, w.polling.periodics, w.nowait, w.slept, w.wait, k.limits)
    && D.PollOk(w.polling.io, w.answer, a.pendings, w.lists, w.reports, w.found, k.prim, k.dummy)
    && Ticks(Blocked(w.polling, w.slept, w.wait), w.due, w.slept + w.wait, k.mono, w.late)
  }

  ghost predicate WaitOk(a: Loop, reified: Loop, w: Waited, k: Setup) {
    ReifyOk(a, w.killed, reified, k) && SleepOk(reified, w, k)
  }

  lemma SleepMade(a: Loop, w: Waited, k: Setup)
    requires Ticks(a.started, w.polling, 1e100, k.mono, w.early) == true
    requires Blocks(a.started.timers.now, w.polling.timers, w.polling.periodics, w.nowait, w.slept, w.wait, k.limits) == true
    requires D.PollOk(w.polling.io, w.answer, a.pendings, w.lists, w.reports, w.found, k.prim, k.dummy) == true
    requires Ticks(Blocked(w.polling, w.slept, w.wait), w.due, w.slept + w.wait, k.mono, w.late) == true
    ensures SleepOk(a, w, k) == true
  {
  }

  lemma WaitMade(a: Loop, reified: Loop, w: Waited, k: Setup)
    requires ReifyOk(a, w.killed, reified, k) == true && SleepOk(reified, w, k) == true
    ensures WaitOk(a, reified, w, k) == true
  {
  }

  // ---------- timers_reify and periodics_reify ----------

  // a batch of expired watchers, what there was to expire, and when
  datatype Batch = Batch(fed: seq<Watcher>, active: set<Watcher>, at: map<Watcher, real>, now: real, shots: set<Watcher>)

  // whatever was due, and nothing else, in order
  ghost predicate Expired(b: Batch, prim: map<Watcher, nat>) {
    && ExpiredInOrder(b.fed, b.active, b.at, b.now) && Ranked(b.fed, prim, NUMPRI)
    && AllDue(b.fed, b.active, b.at, b.now)
  }

  // the stacks went from ss to r by the expiry of b and then of b'
  ghost predicate ExpiredTwice(ss: Stacks<Watcher>, b: Batch, b': Batch, r: Stacks<Watcher>,
                               prim: map<Watcher, nat>, dummy: Watcher) {
    && |ss| == NUMPRI && Expired(b, prim) && Expired(b', prim) && (forall w :: w in b.fed ==> w !in b'.fed)
    && r == AfterBatch(AfterBatch(ss, b.fed, b.shots, {TimerDue}, prim, dummy), b'.fed, b'.shots, {PeriodicDue}, prim, dummy)
  }

  // what timers_reify finds, and fed of it
  ghost function TimerBatch(s: T.TimerState, fed: seq<Watcher>): Batch {
    Batch(fed, s.active, s.at, s.now, T.OneShots(s))
  }

  ghost function PeriodicBatch(s: P.PeriodicState, fed: seq<Watcher>): Batch {
    Batch(fed, s.active, s.at, s.now, P.OneShots(s))
  }

  // what expires is rescheduled or stopped
  ghost predicate Lapses(a: Started, b: Started) {
    && a.timers.active <= a.timers.at.Keys == a.timers.repeat.Keys
    && b == a.(timers := T.TimerStep(a.timers, T.DoReify), periodics := b.periodics)
    && P.PeriodicStep(a.periodics, P.DoReify, b.periodics)
  }

  lemma BothLapse(a: Started, b: Started, c: Started)
    requires b == a.(timers := b.timers) && TimerTrace([a.timers, b.timers], [T.DoReify])
    requires c == b.(periodics := c.periodics) && P.PeriodicRun([b.periodics, c.periodics], [P.DoReify])
    ensures Lapses(a, c) == true
  {
    OneTimerMove(a.timers, T.DoReify, b.timers);
    P.OneStep(b.periodics, P.DoReify, c.periodics);
  }

  lemma BothExpired(ss: Stacks<Watcher>, s: T.TimerState, fed: seq<Watcher>, ss1: Stacks<Watcher>, p: P.PeriodicState,
                    fed': seq<Watcher>, r: Stacks<Watcher>, prim: map<Watcher, nat>, dummy: Watcher)
    requires |ss| == NUMPRI && Expired(TimerBatch(s, fed), prim) && Expired(PeriodicBatch(p, fed'), prim)
    requires ss1 == AfterBatch(ss, fed, T.OneShots(s), {TimerDue}, prim, dummy)
    requires r == AfterBatch(ss1, fed', P.OneShots(p), {PeriodicDue}, prim, dummy)
    requires forall w :: w in fed ==> w !in fed'
    ensures ExpiredTwice(ss, TimerBatch(s, fed), PeriodicBatch(p, fed'), r, prim, dummy) == true
  {
  }

  // ---------- one turn ----------

  datatype Turned = Turned(before: Loop, reified: Loop, wait: Waited, fed: seq<Watcher>, fed': seq<Watcher>,
                           expired: Loop, dispatch: Dispatched, after: Loop)

  ghost predicate TurnOk(t: Turned, k: Setup) {
    && WaitOk(t.before, t.reified, t.wait, k)
    && ExpiredTwice(t.wait.found, TimerBatch(t.wait.due.timers, t.fed), PeriodicBatch(t.wait.due.periodics, t.fed'),
                    t.expired.pendings, k.prim, k.dummy)
    && Lapses(t.wait.due, t.expired.started)
    && DispatchOk(t.expired, t.dispatch, t.after, k)
  }

  // expired timers and expired periodics are all called, each kind in the order of expiry, and the periodics first
  ghost predicate CalledAsDue(t: Turned, k: Setup) {
    && EachCalled(t.fed, t.dispatch.calls, Stacked(t.dispatch.script), k.dummy)
    && EachCalled(t.fed', t.dispatch.calls, Stacked(t.dispatch.script), k.dummy)
    && CallsInOrder(t.fed, t.wait.found, k.prim, t.dispatch.calls, Stacked(t.dispatch.script), k.dummy)
    && CallsInOrder(t.fed', t.wait.found, k.prim, t.dispatch.calls, Stacked(t.dispatch.script), k.dummy)
    && LaterFirst(t.fed', t.fed, t.wait.found, k.prim, t.dispatch.calls, Stacked(t.dispatch.script), k.dummy)
  }

  lemma TurnCallsAsDue(t: Turned, k: Setup)
    requires TurnOk(t, k)
    ensures CalledAsDue(t, k)
  {
    var b, b' := TimerBatch(t.wait.due.timers, t.fed), PeriodicBatch(t.wait.due.periodics, t.fed');
    var script := Stacked(t.dispatch.script);
    BothCalled(t.wait.found, t.fed, b.shots, {TimerDue}, t.fed', b'.shots, {PeriodicDue},
               k.prim, t.dispatch.ds, t.dispatch.calls, script, k.dummy);
    TwoBatches(t.wait.found, t.fed, b.shots, {TimerDue}, t.fed', b'.shots, {PeriodicDue},
               k.prim, t.dispatch.ds, t.dispatch.calls, script, k.dummy);
  }

  // callbacks make none of these system calls
  lemma {:induction false} DispatchCallsNothing(script: LoopScript, a: Started, rss: seq<seq<Started>>)
    requires Followed(script, a, rss)
    ensures Latest(a, rss).log == a.log
  {
    if rss != [] {
      var n := |rss| - 1;
      forall i | 0 <= i < n
        ensures FollowedAt(script, a, rss[..n], i) == true
      {
        FollowedBefore(script, a, rss, n, i);
      }
      DispatchCallsNothing(script, a, rss[..n]);
      assert FollowedAt(script, a, rss, n);
      CallbackCallsNothing(OpsOf(script, n), rss[n]);
    }
  }

  lemma {:induction false} CallbackCallsNothing(ops: seq<LoopOp>, rs: seq<Started>)
    requires DoesAll(ops, rs)
    ensures rs[|ops|].log == rs[0].log
  {
    if ops != [] {
      var n := |ops| - 1;
      CallbackCallsNothing(ops[..n], rs[..n + 1]);
      assert Does(ops[n], rs[n], rs[n + 1]);
    }
  }

  // A turn reads the clocks, sleeps and polls for as long as it may, and reads the clocks again, all once.
  lemma TurnCalls(t: Turned, k: Setup)
    requires TurnOk(t, k)
    ensures var w := t.wait;
            && w.early != [] && w.late != []
            && t.after.started.log == t.before.started.log + w.early + Blocking(w.slept, w.wait) + w.late
  {
    DispatchCallsNothing(t.dispatch.script, t.expired.started, t.dispatch.rss);
  }

  // Whether a timer expires is decided by the clock as it is read after the poll, and by nothing else: with a
  // monotonic clock just those expire that were active when the turn began and whose keys lie before that reading.
  lemma TurnExpires(t: Turned, k: Setup)
    requires TurnOk(t, k)
    ensures var a, p := t.before.started.timers, t.wait.due;
            && p.timers.now == (if k.mono then LastMono(t.wait.late) else LastWall(t.wait.late))
            && (forall w :: w in t.fed <==> w in a.active && p.timers.at[w] < p.timers.now)
            && (k.mono ==> forall w :: w in t.fed <==> w in a.active && a.at[w] < LastMono(t.wait.late))
            && forall w :: w in t.fed' <==> w in p.periodics.active && p.periodics.at[w] < p.periodics.now
  {
  }

  // ---------- a run ----------

  // what a turn depends on: whether it may not wait, what the kernel answers, and what the callbacks do
  datatype TurnInput = TurnInput(nowait: bool, answer: seq<(nat, Mask)>, script: LoopScript)

  // t is a turn with this input, from a on, and calls what is due as it should
  ghost predicate TurnFrom(t: Turned, input: TurnInput, a: Loop, k: Setup) {
    && TurnOk(t, k) && CalledAsDue(t, k) && t.before == a
    && input == TurnInput(t.wait.nowait, t.wait.answer, t.dispatch.script)
  }

  // the calls of each turn
  ghost predicate CallsOf(ts: seq<Turned>, calls: seq<seq<Slot<Watcher>>>) {
    |calls| == |ts| && forall i :: 0 <= i < |ts| ==> calls[i] == ts[i].dispatch.calls
  }

  lemma CallsMore(ts: seq<Turned>, calls: seq<seq<Slot<Watcher>>>, t: Turned)
    requires CallsOf(ts, calls)
    ensures CallsOf(ts + [t], calls + [t.dispatch.calls]) == true
  {
  }

  // where the first n turns lead to from a
  function Reached(a: Loop, ts: seq<Turned>, n: nat): Loop
    requires n <= |ts|
  {
    if n == 0 then a else ts[n - 1].after
  }

  // each turn is as `ok` says of it, its number and the state where the one before ended
  ghost predicate Chained(ts: seq<Turned>, ok: (Turned, nat, Loop) -> bool, a: Loop, b: Loop) {
    b == Reached(a, ts, |ts|) && forall i :: 0 <= i < |ts| ==> ok(ts[i], i, Reached(a, ts, i))
  }

  lemma ReachedBefore(ts: seq<Turned>, t: Turned, a: Loop, n: nat)
    requires n <= |ts|
    ensures Reached(a, ts + [t], n) == Reached(a, ts, n) && (n < |ts| ==> (ts + [t])[n] == ts[n])
  {
  }

  lemma ChainedMore(ts: seq<Turned>, t: Turned, ok: (Turned, nat, Loop) -> bool, a: Loop, b: Loop)
    requires Chained(ts, ok, a, b) && ok(t, |ts|, b)
    ensures Chained(ts + [t], ok, a, t.after)
  {
    var more := ts + [t];
    ReachedBefore(ts, t, a, |ts|);
    forall i | 0 <= i < |ts|
      ensures ok(more[i], i, Reached(a, more, i))
    {
      ReachedBefore(ts, t, a, i);
    }
  }

  ghost function Wanted(inputs: seq<TurnInput>, k: Setup): (Turned, nat, Loop) -> bool {
    (t: Turned, i: nat, from: Loop) => i < |inputs| && TurnFrom(t, inputs[i], from, k)
  }

  // turns with these inputs, each starting where the one before ended, lead from a to b
  ghost predicate RunOk(ts: seq<Turned>, inputs: seq<TurnInput>, a: Loop, b: Loop, k: Setup) {
    |ts| <= |inputs| && Chained(ts, Wanted(inputs, k), a, b)
  }

  lemma TurnWanted(t: Turned, inputs: seq<TurnInput>, n: nat, a: Loop, k: Setup)
    requires n < |inputs| && TurnFrom(t, inputs[n], a, k) == true
    ensures Wanted(inputs, k)(t, n, a) == true
  {
  }

  lemma OneTurn(t: Turned, input: TurnInput, a: Loop, k: Setup)
    ensures RunOk([t], [input], a, t.after, k) <==> TurnFrom(t, input, a, k)
  {
    assert [t][0] == t && [input][0] == input && Reached(a, [t], 0) == a;
    assert Wanted([input], k)(t, 0, a) <==> TurnFrom(t, input, a, k);
  }

  // one turn is a run
  lemma TurnMade(t: Turned, input: TurnInput, a: Loop, k: Setup)
    requires WaitOk(t.before, t.reified, t.wait, k) == true && Lapses(t.wait.due, t.expired.started) == true
    requires ExpiredTwice(t.wait.found, TimerBatch(t.wait.due.timers, t.fed), PeriodicBatch(t.wait.due.periodics, t.fed'),
                          t.expired.pendings, k.prim, k.dummy) == true
    requires DispatchOk(t.expired, t.dispatch, t.after, k) == true && t.before == a
    requires input == TurnInput(t.wait.nowait, t.wait.answer, t.dispatch.script)
    ensures RunOk([t], [input], a, t.after, k) == true
  {
    TurnCallsAsDue(t, k);
    OneTurn(t, input, a, k);
  }

  lemma RunMore(ts: seq<Turned>, t: Turned, inputs: seq<TurnInput>, a: Loop, b: Loop, k: Setup)
    requires RunOk(ts, inputs, a, b, k) && |ts| < |inputs| && RunOk([t], [inputs[|ts|]], b, t.after, k)
    ensures RunOk(ts + [t], inputs, a, t.after, k) == true
  {
    OneTurn(t, inputs[|ts|], b, k);
    TurnWanted(t, inputs, |ts|, b, k);
    ChainedMore(ts, t, Wanted(inputs, k), a, b);
  }
}
