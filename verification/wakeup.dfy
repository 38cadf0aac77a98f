/**
  Waking a sleeping loop (deps/ev/ev.c): evpipe_write, run by any number of
  threads and signal handlers, against ev_run and pipecb.  Each shared access
  is one step, and steps interleave in any order (the C code has fences where
  that matters).  A callback that sends to its own loop is a sender that runs
  while the loop works.
 */
module Wakeup {

  datatype Kind = Signal | Async

  // an ev_async watcher or a signal number; its `sent` or `pending` field is 1 iff it is in State.sent
  datatype Item = Item(kind: Kind, index: nat)

  datatype Event = Sent(item: Item) | Fed(item: Item)

  // where a thread is in ev_async_send or ev_feed_signal; `sent` is already set
  datatype Sender =
    | Idle
    | Check(item: Item)
    | SetFlag(item: Item)
    | SetSkipped(item: Item)
    | ReadWanted(item: Item)
    | ClearSkipped(item: Item)
    | WritePipe(item: Item)

  // where the loop is; Work is everything that does not concern the pipe
  datatype Loop =
    | Work
    | Decide
    | Poll(block: bool)
    | ClearWanted
    | TestSkipped
    | CbRead
    | CbClearSkipped
    | CbTest(kind: Kind)
    | CbClear(kind: Kind)
    | CbScan(kind: Kind, left: nat)
    | CbTake(kind: Kind, left: nat)

  datatype Config = Config(eventfd: bool, signals: nat, asyncs: nat, threads: nat)

  datatype State = State(
    sent: set<Item>,
    flags: set<Kind>,      // sig_pending, async_pending
    wanted: bool,          // pipe_write_wanted
    skipped: bool,         // pipe_write_skipped
    pipe: nat,             // what the pipe or the eventfd holds
    readable: bool,        // pipe_w is pending with EV_READ
    loop: Loop,
    senders: seq<Sender>,
    log: seq<Event>)

  datatype Action =
    | Send(thread: nat, item: Item)          // set `sent` and enter evpipe_write
    | Continue(thread: nat, full: bool)      // next step of a sender; a full pipe takes no more
    | Advance(choice: bool)                  // next step of the loop; whether it may not wait, or what poll reports

  function Count(c: Config, kind: Kind): nat {
    if kind == Signal then c.signals else c.asyncs
  }

  function Init(c: Config): State {
    State({}, {}, false, false, 0, false, Work, seq(c.threads, i => Idle), [])
  }

  // evpipe_write
  function SenderStep(s: State, j: nat, full: bool): State
    requires j < |s.senders|
  {
    match s.senders[j]
    case Idle => s
    case Check(x) => s.(senders := s.senders[j := if x.kind in s.flags then Idle else SetFlag(x)])
    case SetFlag(x) => s.(flags := s.flags + {x.kind}, senders := s.senders[j := SetSkipped(x)])
    case SetSkipped(x) => s.(skipped := true, senders := s.senders[j := ReadWanted(x)])
    case ReadWanted(x) => s.(senders := s.senders[j := if s.wanted then ClearSkipped(x) else Idle])
    case ClearSkipped(x) => s.(skipped := false, senders := s.senders[j := WritePipe(x)])
    case WritePipe(x) =>
      s.(pipe := if full && s.pipe > 0 then s.pipe else s.pipe + 1, senders := s.senders[j := Idle])
  }

  // the part of ev_run around backend_poll, and pipecb
  function LoopStep(c: Config, s: State, choice: bool): State {
    match s.loop
    case Work => s.(wanted := true, loop := Decide)
    case Decide => s.(loop := Poll(!choice && !s.skipped))
    case Poll(_) => s.(readable := choice && s.pipe > 0, loop := ClearWanted)
    case ClearWanted => s.(wanted := false, loop := TestSkipped)
    case TestSkipped => s.(loop := if s.skipped || s.readable then CbRead else Work)
    case CbRead =>
      s.(pipe := if !s.readable || s.pipe == 0 then s.pipe else if c.eventfd then 0 else s.pipe - 1,
         readable := false, loop := CbClearSkipped)
    case CbClearSkipped => s.(skipped := false, loop := CbTest(Signal))
    case CbTest(k) => s.(loop := if k in s.flags then CbClear(k) else AfterKind(k))
    case CbClear(k) => s.(flags := s.flags - {k}, loop := CbScan(k, Count(c, k)))
    case CbScan(k, left) =>
      s.(loop := if left == 0 then AfterKind(k) else if Item(k, left - 1) in s.sent then CbTake(k, left - 1) else CbScan(k, left - 1))
    case CbTake(k, left) =>
      s.(sent := s.sent - {Item(k, left)}, log := s.log + [Fed(Item(k, left))], loop := CbScan(k, left))
  }

  function AfterKind(k: Kind): Loop {
    if k == Signal then CbTest(Async) else Work
  }

  function Next(c: Config, s: State, a: Action): State {
    match a
    case Send(j, x) =>
      if j < |s.senders| && s.senders[j] == Idle && x.index < Count(c, x.kind) then
        s.(sent := s.sent + {x}, log := s.log + [Sent(x)], senders := s.senders[j := Check(x)])
      else s
    case Continue(j, full) => if j < |s.senders| then SenderStep(s, j, full) else s
    case Advance(choice) => LoopStep(c, s, choice)
  }

  function Run(c: Config, actions: seq<Action>): State {
    if actions == [] then Init(c) else Next(c, Run(c, actions[..|actions| - 1]), actions[|actions| - 1])
  }

  // x was sent, and no event for it was fed since
  ghost predicate Owed(log: seq<Event>, x: Item) {
    if log == [] then false
    else if log[|log| - 1].item == x then log[|log| - 1].Sent?
    else Owed(log[..|log| - 1], x)
  }

  // ---------- what every step keeps ----------

  // about to raise the flag for x
  ghost predicate Raising(s: State, x: Item) {
    exists j :: 0 <= j < |s.senders| && (s.senders[j] == Check(x) || s.senders[j] == SetFlag(x))
  }

  // between raising the flag and the end of evpipe_write
  predicate Late(p: Sender) {
    p.SetSkipped? || p.ReadWanted? || p.ClearSkipped? || p.WritePipe?
  }

  ghost predicate SomeLate(s: State) {
    exists j :: 0 <= j < |s.senders| && Late(s.senders[j])
  }

  ghost predicate SomeUnskipped(s: State) {
    exists j :: 0 <= j < |s.senders| && (s.senders[j].SetSkipped? || s.senders[j].WritePipe?)
  }

  // pipecb is going to look at the flag k, or is doing so
  predicate WillTest(s: State, k: Kind) {
    match s.loop
    case ClearWanted => s.readable
    case TestSkipped => s.readable
    case CbRead => true
    case CbClearSkipped => true
    case CbTest(l) => l == Signal || k == Async
    case CbClear(l) => l == Signal || k == Async
    case CbScan(l, _) => l == Signal && k == Async
    case CbTake(l, _) => l == Signal && k == Async
    case _ => false
  }

  // pipecb is going to look at x, or is taking it
  predicate WillTake(s: State, x: Item) {
    || (s.loop.CbScan? && s.loop.kind == x.kind && x.index < s.loop.left)
    || (s.loop.CbTake? && s.loop.kind == x.kind && x.index <= s.loop.left)
  }

  ghost predicate ItemSafe(c: Config, s: State, x: Item) {
    x in s.sent ==> x.index < Count(c, x.kind) && (x.kind in s.flags || Raising(s, x) || WillTake(s, x))
  }

  ghost predicate FlagSafe(s: State, k: Kind) {
    && (k in s.flags ==> s.skipped || s.pipe > 0 || SomeUnskipped(s) || WillTest(s, k))
    && (k in s.flags && s.loop == Poll(true) ==> s.pipe > 0 || SomeLate(s))
  }

  ghost predicate Safe(c: Config, s: State) {
    && (forall x :: ItemSafe(c, s, x))
    && (forall k :: FlagSafe(s, k))
    && (s.wanted <==> s.loop.Decide? || s.loop.Poll? || s.loop.ClearWanted?)
  }

  // the other senders stay where they are
  lemma Moved(s: State, r: State, j: nat)
    requires j < |s.senders| == |r.senders| && r.senders == s.senders[j := r.senders[j]]
    ensures forall x :: Raising(s, x) && s.senders[j] != Check(x) && s.senders[j] != SetFlag(x) ==> Raising(r, x)
    ensures SomeLate(s) && !Late(s.senders[j]) ==> SomeLate(r)
    ensures SomeUnskipped(s) && !s.senders[j].SetSkipped? && !s.senders[j].WritePipe? ==> SomeUnskipped(r)
    ensures Late(r.senders[j]) ==> SomeLate(r)
    ensures r.senders[j].SetSkipped? || r.senders[j].WritePipe? ==> SomeUnskipped(r)
    ensures forall x :: r.senders[j] == Check(x) || r.senders[j] == SetFlag(x) ==> Raising(r, x)
  {
    forall x | Raising(s, x) && s.senders[j] != Check(x) && s.senders[j] != SetFlag(x)
      ensures Raising(r, x)
    {
      var i :| 0 <= i < |s.senders| && (s.senders[i] == Check(x) || s.senders[i] == SetFlag(x));
      assert r.senders[i] == s.senders[i];
    }
    if SomeLate(s) && !Late(s.senders[j]) {
      var i :| 0 <= i < |s.senders| && Late(s.senders[i]);
      assert r.senders[i] == s.senders[i];
    }
    if SomeUnskipped(s) && !s.senders[j].SetSkipped? && !s.senders[j].WritePipe? {
      var i :| 0 <= i < |s.senders| && (s.senders[i].SetSkipped? || s.senders[i].WritePipe?);
      assert r.senders[i] == s.senders[i];
    }
  }

  lemma SenderItemsSafe(c: Config, s: State, j: nat, full: bool)
    requires Safe(c, s) && j < |s.senders|
    ensures forall x :: ItemSafe(c, SenderStep(s, j, full), x)
  {
    var r := SenderStep(s, j, full);
    Moved(s, r, j);
    forall x
      ensures ItemSafe(c, r, x)
    {
      assert ItemSafe(c, s, x);
    }
  }

  lemma SenderSafe(c: Config, s: State, j: nat, full: bool)
    requires Safe(c, s) && j < |s.senders|
    ensures Safe(c, SenderStep(s, j, full))
  {
    var r := SenderStep(s, j, full);
    SenderItemsSafe(c, s, j, full);
    Moved(s, r, j);
    forall k
      ensures FlagSafe(r, k)
    {
      assert FlagSafe(s, k);
    }
  }

  lemma SendSafe(c: Config, s: State, j: nat, x: Item)
    requires Safe(c, s)
    ensures Safe(c, Next(c, s, Send(j, x)))
  {
    var r := Next(c, s, Send(j, x));
    if r != s {
      Moved(s, r, j);
      forall y
        ensures ItemSafe(c, r, y)
      {
        assert ItemSafe(c, s, y);
      }
      forall k
        ensures FlagSafe(r, k)
      {
        assert FlagSafe(s, k);
      }
    }
  }

  lemma LoopItemsSafe(c: Config, s: State, choice: bool)
    requires Safe(c, s)
    ensures forall x :: ItemSafe(c, LoopStep(c, s, choice), x)
  {
    var r := LoopStep(c, s, choice);
    forall x
      ensures ItemSafe(c, r, x)
    {
      assert ItemSafe(c, s, x) && (Raising(s, x) ==> Raising(r, x));
    }
  }

  lemma LoopKeepsSenders(c: Config, s: State, choice: bool)
    ensures var r := LoopStep(c, s, choice);
            && (SomeLate(s) ==> SomeLate(r)) && (SomeUnskipped(s) ==> SomeUnskipped(r) && SomeLate(r))
  {
    var r := LoopStep(c, s, choice);
    assert r.senders == s.senders;
  }

  lemma LoopFlagSafe(c: Config, s: State, choice: bool, k: Kind)
    requires FlagSafe(s, k)
    ensures FlagSafe(LoopStep(c, s, choice), k) == true
  {
    LoopKeepsSenders(c, s, choice);
    match s.loop
    case CbTest(_) => PartFlagSafe(c, s, choice, k);
    case CbClear(_) => PartFlagSafe(c, s, choice, k);
    case CbScan(_, _) => PartFlagSafe(c, s, choice, k);
    case CbTake(_, _) => PartFlagSafe(c, s, choice, k);
    case _ =>
  }

  // the same for the steps that concern one kind of items
  lemma PartFlagSafe(c: Config, s: State, choice: bool, k: Kind)
    requires FlagSafe(s, k) && (s.loop.CbTest? || s.loop.CbClear? || s.loop.CbScan? || s.loop.CbTake?)
    ensures FlagSafe(LoopStep(c, s, choice), k) == true
  {
    LoopKeepsSenders(c, s, choice);
    assert k == Signal || k == Async;
    assert s.loop.kind == Signal || s.loop.kind == Async;
  }

  lemma LoopSafe(c: Config, s: State, choice: bool)
    requires Safe(c, s)
    ensures Safe(c, LoopStep(c, s, choice))
  {
    LoopItemsSafe(c, s, choice);
    forall k
      ensures FlagSafe(LoopStep(c, s, choice), k)
    {
      LoopFlagSafe(c, s, choice, k);
    }
  }

  lemma {:induction false} RunSafe(c: Config, actions: seq<Action>)
    ensures Safe(c, Run(c, actions))
  {
    if actions != [] {
      var before, a := actions[..|actions| - 1], actions[|actions| - 1];
      RunSafe(c, before);
      var s := Run(c, before);
      match a
      case Send(j, x) => SendSafe(c, s, j, x);
      case Continue(j, full) =>
        if j < |s.senders| {
          SenderSafe(c, s, j, full);
        }
      case Advance(choice) => LoopSafe(c, s, choice);
    }
  }

  // a step logs at most one event, and `sent` follows it
  ghost predicate Logs(s: State, r: State) {
    || (r.log == s.log && r.sent == s.sent)
    || (r.log != [] && r.log[..|r.log| - 1] == s.log
        && var e := r.log[|r.log| - 1]; r.sent == if e.Sent? then s.sent + {e.item} else s.sent - {e.item})
  }

  lemma NextLogs(c: Config, s: State, a: Action)
    ensures Logs(s, Next(c, s, a)) == true
  {
    match a
    case Send(j, x) => Appended(s.log, Sent(x));
    case Continue(j, full) => assert j < |s.senders| ==> SenderStep(s, j, full).log == s.log;
    case Advance(choice) => LoopLogs(c, s, choice);
  }

  lemma LoopLogs(c: Config, s: State, choice: bool)
    ensures Logs(s, LoopStep(c, s, choice)) == true
  {
    if s.loop.CbTake? {
      Appended(s.log, Fed(Item(s.loop.kind, s.loop.left)));
    } else {
      assert LoopStep(c, s, choice).log == s.log;
    }
  }

  lemma Appended(log: seq<Event>, e: Event)
    ensures var r := log + [e]; r[..|r| - 1] == log && r[|r| - 1] == e
  {
  }

  lemma StepOwed(s: State, r: State, x: Item)
    requires Logs(s, r) && (Owed(s.log, x) <==> x in s.sent)
    ensures Owed(r.log, x) <==> x in r.sent
  {
  }

  // `sent` is set for exactly the items that were sent and not fed since
  lemma {:induction false} OwedIsSent(c: Config, actions: seq<Action>, x: Item)
    ensures Owed(Run(c, actions).log, x) <==> x in Run(c, actions).sent
  {
    if actions != [] {
      var before := actions[..|actions| - 1];
      OwedIsSent(c, before, x);
      NextLogs(c, Run(c, before), actions[|actions| - 1]);
      StepOwed(Run(c, before), Run(c, actions), x);
    }
  }

  // every event fed so far had been sent, and not fed since
  ghost predicate FedOnlyOwed(log: seq<Event>) {
    forall i :: 0 <= i < |log| && log[i].Fed? ==> Owed(log[..i], log[i].item)
  }

  // what pipecb is about to take was sent
  ghost predicate TakesSent(s: State) {
    s.loop.CbTake? ==> Item(s.loop.kind, s.loop.left) in s.sent
  }

  lemma StepTakesSent(c: Config, s: State, a: Action)
    requires TakesSent(s)
    ensures var r := Next(c, s, a);
            && TakesSent(r)
            && (r.log == s.log || exists x :: r.log == s.log + [Sent(x)] || (x in s.sent && r.log == s.log + [Fed(x)]))
  {
    if a.Advance? {
      if s.loop.CbTake? {
        assert LoopStep(c, s, a.choice).log == s.log + [Fed(Item(s.loop.kind, s.loop.left))];
      }
    } else if a.Send? && Next(c, s, a) != s {
      assert Next(c, s, a).log == s.log + [Sent(a.item)];
    }
  }

  // Nothing is fed that was not sent, and nothing is fed twice for one send.
  lemma {:induction false} FedWasOwed(c: Config, actions: seq<Action>)
    ensures FedOnlyOwed(Run(c, actions).log) && TakesSent(Run(c, actions))
  {
    if actions != [] {
      var before := actions[..|actions| - 1];
      FedWasOwed(c, before);
      var s, r := Run(c, before), Run(c, actions);
      StepTakesSent(c, s, actions[|actions| - 1]);
      if r.log != s.log {
        var x :| r.log == s.log + [Sent(x)] || (x in s.sent && r.log == s.log + [Fed(x)]);
        OwedIsSent(c, before, x);
        forall i | 0 <= i < |r.log| && r.log[i].Fed?
          ensures Owed(r.log[..i], r.log[i].item)
        {
          assert r.log[..i] == s.log[..i];
        }
      }
    }
  }

  // ---------- no lost wakeup ----------

  // n more steps of sender j, which nobody interrupts
  function Solo(s: State, j: nat, full: bool, n: nat): State
    requires j < |s.senders|
    decreases n
  {
    if n == 0 then s else Solo(SenderStep(s, j, full), j, full, n - 1)
  }

  // the number of steps to the end of the write, if the loop wants one
  function StepsToWrite(p: Sender): nat {
    match p
    case Idle => 0
    case Check(_) => 6
    case SetFlag(_) => 5
    case SetSkipped(_) => 4
    case ReadWanted(_) => 3
    case ClearSkipped(_) => 2
    case WritePipe(_) => 1
  }

  lemma {:induction false} SoloWrites(s: State, j: nat, full: bool)
    requires j < |s.senders| && !s.senders[j].Idle? && s.wanted
    requires s.senders[j].Check? ==> s.senders[j].item.kind !in s.flags
    ensures Solo(s, j, full, StepsToWrite(s.senders[j])).pipe > 0
    decreases StepsToWrite(s.senders[j])
  {
    var r := SenderStep(s, j, full);
    if !s.senders[j].WritePipe? {
      SoloWrites(r, j, full);
    }
  }

  // The loop never sleeps on an undelivered item unless the pipe will wake it: the pipe is readable, or
  // some sender is inside evpipe_write and makes it so by merely going on.
  lemma NoLostWakeup(c: Config, actions: seq<Action>, x: Item)
    requires Run(c, actions).loop == Poll(true) && Owed(Run(c, actions).log, x)
    ensures var s := Run(c, actions);
            || s.pipe > 0
            || exists j :: 0 <= j < |s.senders| && WillWrite(s, j)
  {
    var s := Run(c, actions);
    RunSafe(c, actions);
    OwedIsSent(c, actions, x);
    assert ItemSafe(c, s, x) && FlagSafe(s, x.kind);
    if s.pipe == 0 {
      var j :| 0 <= j < |s.senders| && (
        if x.kind in s.flags then Late(s.senders[j])
        else s.senders[j] == Check(x) || s.senders[j] == SetFlag(x));
      SoloWrites(s, j, false);
      SoloWrites(s, j, true);
      assert WillWrite(s, j);
    }
  }

  ghost predicate WillWrite(s: State, j: nat) {
    && j < |s.senders| && s.senders[j] != Idle
    && forall full :: Solo(s, j, full, StepsToWrite(s.senders[j])).pipe > 0
  }

  // Once the senders are done, a loop that still sleeps has a readable pipe.
  lemma QuietSleep(c: Config, actions: seq<Action>, x: Item)
    requires Run(c, actions).loop == Poll(true) && Owed(Run(c, actions).log, x)
    requires forall j :: 0 <= j < |Run(c, actions).senders| ==> Run(c, actions).senders[j] == Idle
    ensures Run(c, actions).pipe > 0
  {
    NoLostWakeup(c, actions, x);
  }

  // a run that goes on from s
  function RunOn(c: Config, s: State, actions: seq<Action>): State {
    if actions == [] then s else Next(c, RunOn(c, s, actions[..|actions| - 1]), actions[|actions| - 1])
  }

  function OwnSteps(actions: seq<Action>, j: nat): nat {
    if actions == [] then 0
    else
      var a := actions[|actions| - 1];
      OwnSteps(actions[..|actions| - 1], j) + if a.Continue? && a.thread == j then 1 else 0
  }

  // Whatever the others do while the loop sleeps, a sender that has raised the flag fills the pipe in at
  // most four steps of its own, unless somebody else does so before.
  lemma {:induction false} WritesDespiteOthers(c: Config, s: State, actions: seq<Action>, j: nat)
    requires s.loop == Poll(true) && s.wanted && j < |s.senders| && Late(s.senders[j])
    requires forall i :: 0 <= i < |actions| ==> !actions[i].Advance?
    ensures var r := RunOn(c, s, actions);
            && r.wanted && j < |r.senders|
            && (r.pipe > 0 || (Late(r.senders[j]) && StepsToWrite(r.senders[j]) == StepsToWrite(s.senders[j]) - OwnSteps(actions, j)))
    ensures OwnSteps(actions, j) >= 4 ==> RunOn(c, s, actions).pipe > 0
  {
    if actions != [] {
      var before, a := actions[..|actions| - 1], actions[|actions| - 1];
      WritesDespiteOthers(c, s, before, j);
      OthersStay(c, RunOn(c, s, before), a, j);
    }
  }

  lemma OthersStay(c: Config, s: State, a: Action, j: nat)
    requires s.wanted && j < |s.senders| && !a.Advance?
    ensures var r := Next(c, s, a);
            && r.wanted && j < |r.senders| && (s.pipe > 0 ==> r.pipe > 0)
            && (Late(s.senders[j]) && !(a.Continue? && a.thread == j) ==> r.senders[j] == s.senders[j])
            && (Late(s.senders[j]) && a.Continue? && a.thread == j ==>
                  r.pipe > 0 || (Late(r.senders[j]) && StepsToWrite(r.senders[j]) == StepsToWrite(s.senders[j]) - 1))
  {
  }

  // ---------- what senders write ----------

  // about to write to the pipe, whatever the loop does
  predicate SureToWrite(p: Sender) {
    p.ClearSkipped? || p.WritePipe?
  }

  // the loop does not want a wakeup, and nobody is past looking
  ghost predicate NobodyWrites(s: State) {
    s.loop == Work && !s.wanted && forall j :: 0 <= j < |s.senders| ==> !SureToWrite(s.senders[j])
  }

  lemma StillNobodyWrites(c: Config, s: State, a: Action)
    requires NobodyWrites(s) && !a.Advance?
    ensures NobodyWrites(Next(c, s, a)) && Next(c, s, a).pipe == s.pipe
  {
  }

  lemma {:induction false} NobodyEverWrites(c: Config, s: State, actions: seq<Action>)
    requires NobodyWrites(s) && forall a :: a in actions ==> !a.Advance?
    ensures NobodyWrites(RunOn(c, s, actions)) && RunOn(c, s, actions).pipe == s.pipe
  {
    if actions != [] {
      NobodyEverWrites(c, s, actions[..|actions| - 1]);
      StillNobodyWrites(c, RunOn(c, s, actions[..|actions| - 1]), actions[|actions| - 1]);
    }
  }

  // While the loop is at its other work nobody writes who was not about to: a wakeup is marked as skipped instead.
  lemma WorkIsNotWoken(c: Config, history: seq<Action>, actions: seq<Action>)
    requires Run(c, history).loop == Work && forall a :: a in actions ==> !a.Advance?
    requires forall j :: 0 <= j < |Run(c, history).senders| ==> !SureToWrite(Run(c, history).senders[j])
    ensures RunOn(c, Run(c, history), actions).pipe == Run(c, history).pipe
  {
    RunSafe(c, history);
    NobodyEverWrites(c, Run(c, history), actions);
  }

  // the bytes that a sender may still write before a flag is cleared: one for what it is at, if it is past the
  // test of its flag, and one for each flag that is down
  function MayWrite(p: Sender, flags: set<Kind>): nat {
    var down := (if Signal in flags then 0 else 1) + if Async in flags then 0 else 1;
    match p
    case Idle => down
    case Check(_) => down
    case SetFlag(x) => if x.kind in flags then 1 + down else down
    case _ => 1 + down
  }

  function AllMayWrite(ps: seq<Sender>, flags: set<Kind>): nat {
    if ps == [] then 0 else AllMayWrite(ps[..|ps| - 1], flags) + MayWrite(ps[|ps| - 1], flags)
  }

  lemma FlagsOnlyHelp(p: Sender, flags: set<Kind>, flags': set<Kind>)
    requires flags <= flags'
    ensures MayWrite(p, flags') <= MayWrite(p, flags)
  {
    assert p.Idle? || p.item.kind == Signal || p.item.kind == Async;
  }

  lemma {:induction false} FlagsHelpAll(ps: seq<Sender>, flags: set<Kind>, flags': set<Kind>)
    requires flags <= flags'
    ensures AllMayWrite(ps, flags') <= AllMayWrite(ps, flags)
  {
    if ps != [] {
      FlagsHelpAll(ps[..|ps| - 1], flags, flags');
      FlagsOnlyHelp(ps[|ps| - 1], flags, flags');
    }
  }

  // more flags are up, and sender j is now at q
  lemma {:induction false} MayWriteLess(ps: seq<Sender>, flags: set<Kind>, flags': set<Kind>, j: nat, q: Sender)
    requires flags <= flags' && j < |ps|
    ensures AllMayWrite(ps[j := q], flags') - MayWrite(q, flags') <= AllMayWrite(ps, flags) - MayWrite(ps[j], flags)
  {
    var n := |ps| - 1;
    if j < n {
      assert ps[j := q][..n] == ps[..n][j := q];
      MayWriteLess(ps[..n], flags, flags', j, q);
      FlagsOnlyHelp(ps[n], flags, flags');
    } else {
      assert ps[j := q][..n] == ps[..n];
      FlagsHelpAll(ps[..n], flags, flags');
    }
  }

  lemma OneMayWrite(c: Config, s: State, a: Action)
    requires !a.Advance? && a.thread < |s.senders|
    ensures var r, j := Next(c, s, a), a.thread;
            && s.flags <= r.flags && |r.senders| == |s.senders| && r.senders == s.senders[j := r.senders[j]]
            && r.pipe + MayWrite(r.senders[j], r.flags) <= s.pipe + MayWrite(s.senders[j], s.flags)
  {
    var p := s.senders[a.thread];
    assert p.Idle? || p.item.kind == Signal || p.item.kind == Async;
  }

  lemma SendMayWrite(c: Config, s: State, a: Action)
    requires !a.Advance?
    ensures var r := Next(c, s, a);
            && |r.senders| == |s.senders|
            && r.pipe + AllMayWrite(r.senders, r.flags) <= s.pipe + AllMayWrite(s.senders, s.flags)
  {
    var r := Next(c, s, a);
    if a.thread < |s.senders| {
      OneMayWrite(c, s, a);
      MayWriteLess(s.senders, s.flags, r.flags, a.thread, r.senders[a.thread]);
    }
  }

  lemma {:induction false} IdleMayWrite(ps: seq<Sender>, flags: set<Kind>)
    requires forall j :: 0 <= j < |ps| ==> ps[j] == Idle
    ensures AllMayWrite(ps, flags) <= 2 * |ps|
  {
    if ps != [] {
      IdleMayWrite(ps[..|ps| - 1], flags);
    }
  }

  // However much is sent while the loop does not move, senders that were idle write no more than two bytes each.
  lemma {:induction false} SendsCoalesce(c: Config, s: State, actions: seq<Action>)
    requires AllIdle(s) && forall a :: a in actions ==> !a.Advance?
    ensures var r := RunOn(c, s, actions);
            && r.pipe + AllMayWrite(r.senders, r.flags) <= s.pipe + 2 * |s.senders| && r.pipe <= s.pipe + 2 * |s.senders|
  {
    if actions == [] {
      IdleMayWrite(s.senders, s.flags);
    } else {
      SendsCoalesce(c, s, actions[..|actions| - 1]);
      SendMayWrite(c, RunOn(c, s, actions[..|actions| - 1]), actions[|actions| - 1]);
    }
  }

  // ---------- delivery ----------

  // One turn of the loop, from Work to Work, in which no sender moves.
  ghost predicate Turn(c: Config, ss: seq<State>) {
    && |ss| >= 2
    && ss[0].loop == Work && ss[|ss| - 1].loop == Work
    && (forall i :: 0 < i < |ss| - 1 ==> ss[i].loop != Work)
    && (forall i :: 0 <= i < |ss| - 1 ==> TurnStep(c, ss[i], ss[i + 1]))
  }

  ghost predicate TurnStep(c: Config, s: State, r: State) {
    exists choice :: r == LoopStep(c, s, choice)
  }

  ghost predicate AllIdle(s: State) {
    forall j :: 0 <= j < |s.senders| ==> s.senders[j] == Idle
  }

  // a turn begins by polling, which concerns neither items nor flags
  lemma TurnBegins(c: Config, ss: seq<State>)
    requires Turn(c, ss)
    ensures |ss| > 5 && ss[2].loop.Poll? && ss[2].pipe == ss[0].pipe && (ss[3].readable ==> ss[0].pipe > 0)
    ensures ss[4] == ss[0].(loop := TestSkipped, wanted := false, readable := ss[3].readable)
    ensures ss[5] == ss[4].(loop := if ss[0].skipped || ss[3].readable then CbRead else Work)
  {
    assert TurnStep(c, ss[0], ss[1]);
    assert TurnStep(c, ss[1], ss[2]);
    assert TurnStep(c, ss[2], ss[3]);
    assert TurnStep(c, ss[3], ss[4]);
    assert TurnStep(c, ss[4], ss[5]);
  }

  // pipecb was called, and the rest of this turn takes what there is
  ghost predicate OnItsWay(s: State) {
    && (s.loop.CbRead? || s.loop.CbClearSkipped? || s.loop.CbTest? || s.loop.CbClear? || s.loop.CbScan?
        || s.loop.CbTake? || s.loop.Work?)
    && (AsyncPart(s.loop) || s.loop == Work ==> Signal !in s.flags && forall x :: x in s.sent ==> x.kind != Signal)
    && (s.loop.CbScan? || s.loop.CbTake? ==> s.loop.kind !in s.flags)
    && (s.loop == Work ==> s.flags == {} && s.sent == {})
  }

  predicate AsyncPart(l: Loop) {
    (l.CbTest? || l.CbClear? || l.CbScan? || l.CbTake?) && l.kind == Async
  }

  lemma TurnGoesOn(c: Config, s: State, r: State)
    requires Safe(c, s) && AllIdle(s) && s.loop != Work && OnItsWay(s) && TurnStep(c, s, r)
    ensures Safe(c, r) && AllIdle(r) && OnItsWay(r)
  {
    var choice :| r == LoopStep(c, s, choice);
    LoopSafe(c, s, choice);
    forall x | x in s.sent
      ensures x.kind in s.flags || WillTake(s, x)
    {
      assert ItemSafe(c, s, x);
    }
    if r.loop == Work {
      forall k
        ensures k !in s.flags
      {
        assert k == Signal || k == Async;
      }
    }
  }

  lemma {:induction false} TurnSafe(c: Config, ss: seq<State>, n: nat)
    requires Turn(c, ss) && Safe(c, ss[0]) && AllIdle(ss[0]) && 5 <= n < |ss| && (ss[0].skipped || ss[3].readable)
    ensures Safe(c, ss[n]) && AllIdle(ss[n]) && OnItsWay(ss[n])
  {
    TurnBegins(c, ss);
    if n > 5 {
      TurnSafe(c, ss, n - 1);
      assert TurnStep(c, ss[n - 1], ss[n]);
      TurnGoesOn(c, ss[n - 1], ss[n]);
    } else {
      forall x
        ensures ItemSafe(c, ss[5], x)
      {
        assert ItemSafe(c, ss[0], x);
      }
      forall k
        ensures FlagSafe(ss[5], k)
      {
        assert FlagSafe(ss[0], k);
      }
    }
  }

  ghost predicate NothingOwed(s: State) {
    forall x :: !Owed(s.log, x)
  }

  // A quiet turn delivers everything iff there was nothing to deliver, a wakeup was skipped, or the poll reports
  // the pipe; and if the poll reports a readable pipe, the turn always does.
  lemma TurnDelivers(c: Config, actions: seq<Action>, ss: seq<State>)
    requires Turn(c, ss) && ss[0] == Run(c, actions) && AllIdle(ss[0])
    ensures |ss| > 5 && ss[2].loop.Poll?
    ensures NothingOwed(ss[|ss| - 1]) <==> NothingOwed(ss[0]) || ss[0].skipped || ss[3].readable
    ensures (ss[2].pipe > 0 ==> ss[3].readable) ==> NothingOwed(ss[|ss| - 1])
  {
    RunSafe(c, actions);
    TurnBegins(c, ss);
    if ss[0].skipped || ss[3].readable {
      AllTaken(c, actions, ss);
    } else if ss[0].pipe == 0 {
      forall x
        ensures !Owed(ss[0].log, x)
      {
        OwedIsSent(c, actions, x);
        assert ItemSafe(c, ss[0], x) && FlagSafe(ss[0], x.kind);
      }
    }
  }

  lemma AllTaken(c: Config, actions: seq<Action>, ss: seq<State>)
    requires Turn(c, ss) && ss[0] == Run(c, actions) && AllIdle(ss[0])
    requires |ss| > 5 && (ss[0].skipped || ss[3].readable)
    ensures NothingOwed(ss[|ss| - 1])
  {
    RunSafe(c, actions);
    TurnSafe(c, ss, |ss| - 1);
    var r := ss[|ss| - 1];
    forall x
      ensures !Owed(r.log, x)
    {
      OwedIsSent(c, actions, x);
      TurnOwed(c, ss, |ss| - 1, x);
    }
  }

  // once pipecb has read the pipe and cleared the skip flag it leaves both alone
  ghost predicate Emptied(s: State, pipe: nat) {
    && s.pipe == pipe && !s.skipped && !s.readable
    && (s.loop.CbTest? || s.loop.CbClear? || s.loop.CbScan? || s.loop.CbTake? || s.loop.Work?)
  }

  lemma StaysEmptied(c: Config, s: State, r: State, pipe: nat)
    requires Emptied(s, pipe) && s.loop != Work && TurnStep(c, s, r)
    ensures Emptied(r, pipe)
  {
  }

  lemma {:induction false} TurnEmpties(c: Config, ss: seq<State>, n: nat)
    requires Turn(c, ss) && |ss| > 7 && 7 <= n < |ss| && Emptied(ss[7], ss[7].pipe)
    ensures Emptied(ss[n], ss[7].pipe)
  {
    if n > 7 {
      TurnEmpties(c, ss, n - 1);
      assert TurnStep(c, ss[n - 1], ss[n]);
      StaysEmptied(c, ss[n - 1], ss[n], ss[7].pipe);
    }
  }

  // A turn that is told of the pipe empties the eventfd, or takes one byte out of the pipe, and no other does;
  // no turn leaves a wakeup marked as skipped.  So a loop that may wait sleeps in the next one.
  lemma TurnEmptiesPipe(c: Config, ss: seq<State>)
    requires Turn(c, ss)
    ensures |ss| > 5 && (ss[3].readable ==> ss[0].pipe > 0)
    ensures var r := ss[|ss| - 1];
            && !r.skipped && (!ss[3].readable ==> r.pipe == ss[0].pipe)
            && (ss[3].readable ==> if c.eventfd then r.pipe == 0 else r.pipe == ss[0].pipe - 1)
            && LoopStep(c, LoopStep(c, r, false), false).loop == Poll(true)
  {
    TurnBegins(c, ss);
    if ss[0].skipped || ss[3].readable {
      assert TurnStep(c, ss[5], ss[6]);
      assert TurnStep(c, ss[6], ss[7]);
      TurnEmpties(c, ss, |ss| - 1);
    }
  }

  lemma {:induction false} TurnOwed(c: Config, ss: seq<State>, n: nat, x: Item)
    requires Turn(c, ss) && n < |ss| && (Owed(ss[0].log, x) <==> x in ss[0].sent)
    ensures Owed(ss[n].log, x) <==> x in ss[n].sent
  {
    if n > 0 {
      TurnOwed(c, ss, n - 1, x);
      TurnStepOwed(c, ss[n - 1], ss[n], x);
    }
  }

  lemma TurnStepOwed(c: Config, s: State, r: State, x: Item)
    requires TurnStep(c, s, r) && (Owed(s.log, x) <==> x in s.sent)
    ensures Owed(r.log, x) <==> x in r.sent
  {
    var choice :| r == LoopStep(c, s, choice);
    NextLogs(c, s, Advance(choice));
    StepOwed(s, r, x);
  }

  // ---------- delivery while others send ----------

  // x was sent and pipecb will come across it: it still looks at the raised flag, or at x itself
  ghost predicate Coming(s: State, x: Item) {
    x in s.sent && ((x.kind in s.flags && WillTest(s, x.kind)) || WillTake(s, x))
  }

  lemma StaysComing(c: Config, s: State, a: Action, x: Item)
    requires Coming(s, x) && x.index < Count(c, x.kind)
    ensures var r := Next(c, s, a); Coming(r, x) || r.log == s.log + [Fed(x)]
  {
    match a
    case Send(_, _) =>
    case Continue(j, full) =>
      if j < |s.senders| {
        SenderLeavesLoop(s, j, full);
      }
    case Advance(choice) => LoopStaysComing(c, s, choice, x);
  }

  lemma LoopStaysComing(c: Config, s: State, choice: bool, x: Item)
    requires Coming(s, x) && x.index < Count(c, x.kind)
    ensures var r := LoopStep(c, s, choice); Coming(r, x) || r.log == s.log + [Fed(x)]
  {
    assert s.loop.CbTake? && x == Item(s.loop.kind, s.loop.left) ==> LoopStep(c, s, choice).log == s.log + [Fed(x)];
  }

  lemma SenderLeavesLoop(s: State, j: nat, full: bool)
    requires j < |s.senders|
    ensures var r := SenderStep(s, j, full);
            r.sent == s.sent && s.flags <= r.flags && r.loop == s.loop && r.readable == s.readable
  {
  }

  // x was fed in the part of the log from n on
  ghost predicate FedSince(log: seq<Event>, n: nat, x: Item) {
    exists i :: n <= i < |log| && log[i] == Fed(x)
  }

  lemma LogGrows(c: Config, s: State, a: Action, n: nat, x: Item)
    ensures FedSince(s.log, n, x) ==> FedSince(Next(c, s, a).log, n, x)
    ensures |s.log| <= |Next(c, s, a).log|
  {
    NextLogs(c, s, a);
    var r := Next(c, s, a);
    if FedSince(s.log, n, x) {
      var i :| n <= i < |s.log| && s.log[i] == Fed(x);
      assert r.log[i] == Fed(x);
    }
  }

  lemma {:induction false} ComingIsFed(c: Config, s: State, actions: seq<Action>, x: Item)
    requires Coming(s, x) && x.index < Count(c, x.kind)
    ensures var r := RunOn(c, s, actions);
            |s.log| <= |r.log| && (Coming(r, x) || FedSince(r.log, |s.log|, x))
  {
    if actions != [] {
      var before, a := actions[..|actions| - 1], actions[|actions| - 1];
      ComingIsFed(c, s, before, x);
      var t := RunOn(c, s, before);
      LogGrows(c, t, a, |s.log|, x);
      if !FedSince(t.log, |s.log|, x) {
        StaysComing(c, t, a, x);
        assert Next(c, t, a).log == t.log + [Fed(x)] ==> Next(c, t, a).log[|t.log|] == Fed(x);
      }
    }
  }

  // A poll that reports the readable pipe delivers every item whose flag is up, before the loop is back at
  // its other work, whatever the senders do meanwhile.
  lemma WakeupDelivers(c: Config, history: seq<Action>, actions: seq<Action>, x: Item)
    requires Run(c, history).loop.Poll? && Run(c, history).pipe > 0
    requires Owed(Run(c, history).log, x) && x.kind in Run(c, history).flags
    requires RunOn(c, LoopStep(c, Run(c, history), true), actions).loop == Work
    ensures FedSince(RunOn(c, LoopStep(c, Run(c, history), true), actions).log, |Run(c, history).log|, x)
  {
    var s := Run(c, history);
    RunSafe(c, history);
    OwedIsSent(c, history, x);
    assert ItemSafe(c, s, x);
    ComingIsFed(c, LoopStep(c, s, true), actions, x);
  }

  // The same when the loop notices a wakeup that was skipped.
  lemma SkippedDelivers(c: Config, history: seq<Action>, actions: seq<Action>, x: Item)
    requires Run(c, history).loop == TestSkipped && Run(c, history).skipped
    requires Owed(Run(c, history).log, x) && x.kind in Run(c, history).flags
    requires RunOn(c, LoopStep(c, Run(c, history), true), actions).loop == Work
    ensures FedSince(RunOn(c, LoopStep(c, Run(c, history), true), actions).log, |Run(c, history).log|, x)
  {
    var s := Run(c, history);
    RunSafe(c, history);
    OwedIsSent(c, history, x);
    assert ItemSafe(c, s, x);
    ComingIsFed(c, LoopStep(c, s, true), actions, x);
  }

  // ---------- the length of a turn ----------

  // the steps left with one kind of items
  function PartLeft(c: Config, l: Loop): nat
    requires l.CbTest? || l.CbClear? || l.CbScan? || l.CbTake?
  {
    match l
    case CbTest(k) => 3 + 2 * Count(c, k)
    case CbClear(k) => 2 + 2 * Count(c, k)
    case CbScan(_, left) => 1 + 2 * left
    case CbTake(_, left) => 2 + 2 * left
  }

  // an upper bound on the steps left until the loop is back at its other work
  function StepsLeft(c: Config, l: Loop): nat {
    var async := PartLeft(c, CbTest(Async));
    var all := PartLeft(c, CbTest(Signal)) + async;
    match l
    case Work => 0
    case CbClearSkipped => all + 1
    case CbRead => all + 2
    case TestSkipped => all + 3
    case ClearWanted => all + 4
    case Poll(_) => all + 5
    case Decide => all + 6
    case _ => PartLeft(c, l) + if l.kind == Signal then async else 0
  }

  // A turn cannot go on for ever, whatever the senders do meanwhile.
  lemma TurnShrinks(c: Config, s: State, choice: bool)
    requires s.loop != Work
    ensures StepsLeft(c, LoopStep(c, s, choice).loop) < StepsLeft(c, s.loop)
  {
    if s.loop.CbTest? || s.loop.CbClear? || s.loop.CbScan? || s.loop.CbTake? {
      PartShrinks(c, s, choice);
    }
  }

  // a step goes on with the same kind, or leaves it
  lemma PartShrinks(c: Config, s: State, choice: bool)
    requires s.loop.CbTest? || s.loop.CbClear? || s.loop.CbScan? || s.loop.CbTake?
    ensures var l, k := LoopStep(c, s, choice).loop, s.loop.kind;
            || l == AfterKind(k)
            || ((l.CbClear? || l.CbScan? || l.CbTake?) && l.kind == k && PartLeft(c, l) < PartLeft(c, s.loop))
    ensures PartLeft(c, s.loop) > 0
  {
  }
}
