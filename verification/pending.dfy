/**
  Pending events of deps/ev/ev.c: one stack of slots per priority, and in each
  watcher the index of its slot.
 */

/** What the stacks do, and what their users may rely on. */
module PendingStacks {
  import opened Basics
  import opened Watchers

  datatype Slot<W> = Slot(w: W, events: Mask)

  type Stack<W> = seq<Slot<W>>

  // position of w in the stack, or its length
  function IndexOf<W(==)>(st: Stack<W>, w: W): (i: nat)
    ensures i <= |st|
    ensures i < |st| ==> st[i].w == w
    ensures forall j :: 0 <= j < i ==> st[j].w != w
  {
    if st == [] then 0
    else if st[0].w == w then 0
    else 1 + IndexOf(st[1..], w)
  }

  predicate Holds<W(==)>(st: Stack<W>, w: W) {
    IndexOf(st, w) < |st|
  }

  // ev_feed_event
  function Feed<W(==)>(st: Stack<W>, w: W, revents: Mask): Stack<W> {
    var i := IndexOf(st, w);
    if i < |st| then st[i := Slot(w, st[i].events + revents)] else st + [Slot(w, revents)]
  }

  // clear_pending: the slot stays, with the dummy watcher in it
  function Clear<W(==)>(st: Stack<W>, w: W, dummy: W): Stack<W> {
    var i := IndexOf(st, w);
    if i < |st| then st[i := Slot(dummy, st[i].events)] else st
  }

  // the slot of w carries exactly m
  ghost predicate Owes<W>(st: Stack<W>, w: W, m: Mask) {
    Holds(st, w) && st[IndexOf(st, w)].events == m
  }

  lemma OwesOthers<W>(st: Stack<W>, v: W, w: W, m: Mask, revents: Mask, dummy: W)
    requires v != w && w != dummy && Owes(st, w, m)
    ensures Owes(Feed(st, v, revents), w, m) && Owes(Clear(st, v, dummy), w, m)
  {
    var i := IndexOf(st, w);
    StaysFirst(st, Feed(st, v, revents), w);
    StaysFirst(st, Clear(st, v, dummy), w);
  }

  lemma StaysFirst<W>(st: Stack<W>, r: Stack<W>, w: W)
    requires Holds(st, w) && |st| <= |r|
    requires forall i :: 0 <= i < |st| ==> (st[i].w == w <==> r[i].w == w)
    ensures IndexOf(r, w) == IndexOf(st, w)
  {
    var i := IndexOf(st, w);
    assert r[i].w == w;
  }

  lemma OwesFresh<W>(st: Stack<W>, w: W, m: Mask, dummy: W)
    requires w != dummy && forall i, j :: 0 <= i < j < |st| && st[i].w == w ==> st[j].w != w
    ensures Owes(Feed(Clear(st, w, dummy), w, m), w, m)
  {
    var c := Clear(st, w, dummy);
    assert !Holds(c, w);
    var r := c + [Slot(w, m)];
    assert r[|c|].w == w;
  }

  // ---------- runs of one stack ----------

  datatype Op<W> = OpFeed(w: W, revents: Mask) | OpClear(w: W) | OpPop

  // what a user of the stack sees
  datatype Event<W> = Fed(w: W, revents: Mask) | Cleared(w: W) | Called(w: W, events: Mask)

  datatype History<W> = History(st: Stack<W>, log: seq<Event<W>>)

  function Step<W(==)>(h: History<W>, op: Op<W>, dummy: W): History<W> {
    match op
    case OpFeed(w, m) => History(Feed(h.st, w, m), h.log + [Fed(w, m)])
    case OpClear(w) => History(Clear(h.st, w, dummy), h.log + [Cleared(w)])
    case OpPop =>
      if h.st == [] then h
      else
        var top := h.st[|h.st| - 1];
        History(h.st[..|h.st| - 1], h.log + [Called(top.w, top.events)])
  }

  function Run<W(==)>(ops: seq<Op<W>>, dummy: W): History<W> {
    if ops == [] then History([], [])
    else Step(Run(ops[..|ops| - 1], dummy), ops[|ops| - 1], dummy)
  }

  // Nobody feeds or clears the dummy watcher.
  predicate ProperOp<W(==)>(op: Op<W>, dummy: W) {
    op.OpPop? || op.w != dummy
  }

  predicate Proper<W(==)>(ops: seq<Op<W>>, dummy: W) {
    forall i :: 0 <= i < |ops| ==> ProperOp(ops[i], dummy)
  }

  // What is owed to w, judged by the log alone: the masks fed since the last call or clear.
  function Due<W(==)>(log: seq<Event<W>>, w: W): Option<Mask> {
    if log == [] then None
    else
      var before := Due(log[..|log| - 1], w);
      match log[|log| - 1]
      case Fed(v, m) => if v != w then before else if before.Some? then Some(before.value + m) else Some(m)
      case Cleared(v) => if v != w then before else None
      case Called(v, _) => if v != w then before else None
  }

  // The stack holds w in one slot with the mask owed to it, or not at all.
  ghost predicate Settles<W>(h: History<W>, w: W) {
    && (forall i, j :: 0 <= i < j < |h.st| && h.st[i].w == w ==> h.st[j].w != w)
    && (forall i :: 0 <= i < |h.st| && h.st[i].w == w ==> Due(h.log, w) == Some(h.st[i].events))
    && (Due(h.log, w).Some? ==> Holds(h.st, w))
  }

  // Every call to w so far delivered exactly what was owed.
  ghost predicate Honest<W>(log: seq<Event<W>>, w: W) {
    forall t :: 0 <= t < |log| && log[t].Called? && log[t].w == w ==> Due(log[..t], w) == Some(log[t].events)
  }

  // a watcher with a slot is found in it
  lemma Found<W>(h: History<W>, w: W, i: nat)
    requires Settles(h, w) && i < |h.st| && h.st[i].w == w
    ensures IndexOf(h.st, w) == i
  {
  }

  lemma FeedSettles<W>(h: History<W>, v: W, m: Mask, dummy: W, w: W)
    requires Settles(h, w)
    ensures Settles(Step(h, OpFeed(v, m), dummy), w)
  {
    var r := Step(h, OpFeed(v, m), dummy);
    assert r.log[..|h.log|] == h.log;
    var k := IndexOf(h.st, v);
    if k < |h.st| {
      assert forall j :: 0 <= j < |h.st| ==> r.st[j].w == h.st[j].w;
      if Holds(h.st, w) {
        assert r.st[IndexOf(h.st, w)].w == w;
      }
      forall i | 0 <= i < |r.st| && r.st[i].w == w
        ensures Due(r.log, w) == Some(r.st[i].events)
      {
        Found(h, w, i);
      }
    } else {
      assert forall j :: 0 <= j < |h.st| ==> r.st[j] == h.st[j];
      if Holds(h.st, w) {
        assert r.st[IndexOf(h.st, w)].w == w;
      } else if v == w {
        assert r.st[|h.st|].w == w;
      }
    }
  }

  lemma ClearSettles<W>(h: History<W>, v: W, dummy: W, w: W)
    requires Settles(h, w) && w != dummy
    ensures Settles(Step(h, OpClear(v), dummy), w)
  {
    var r := Step(h, OpClear(v), dummy);
    assert r.log[..|h.log|] == h.log;
    if Holds(h.st, w) && v != w {
      assert r.st[IndexOf(h.st, w)].w == w;
    }
  }

  lemma PopSettles<W>(h: History<W>, dummy: W, w: W)
    requires Settles(h, w)
    ensures Settles(Step(h, OpPop, dummy), w)
  {
    if h.st != [] {
      var r := Step(h, OpPop, dummy);
      assert r.log[..|h.log|] == h.log;
      if Holds(h.st, w) && IndexOf(h.st, w) < |r.st| {
        assert r.st[IndexOf(h.st, w)].w == w;
      }
    }
  }

  lemma StepSettles<W>(h: History<W>, op: Op<W>, dummy: W, w: W)
    requires Settles(h, w) && w != dummy && ProperOp(op, dummy)
    ensures Settles(Step(h, op, dummy), w)
  {
    match op
    case OpFeed(v, m) => FeedSettles(h, v, m, dummy, w);
    case OpClear(v) => ClearSettles(h, v, dummy, w);
    case OpPop => PopSettles(h, dummy, w);
  }

  lemma StepHonest<W>(h: History<W>, op: Op<W>, dummy: W, w: W)
    requires Settles(h, w) && Honest(h.log, w) && w != dummy
    ensures Honest(Step(h, op, dummy).log, w)
  {
    var r := Step(h, op, dummy);
    forall t | 0 <= t < |r.log| && r.log[t].Called? && r.log[t].w == w
      ensures Due(r.log[..t], w) == Some(r.log[t].events)
    {
      assert r.log[..t] == h.log[..t];
      if t == |h.log| {
        assert h.log[..t] == h.log;
      }
    }
  }

  // In every run each watcher has at most one slot, that slot carries the OR of the masks fed since it
  // was last called or cleared, and every call delivers just that.
  lemma {:induction false} RunSettles<W>(ops: seq<Op<W>>, dummy: W, w: W)
    requires Proper(ops, dummy) && w != dummy
    ensures Settles(Run(ops, dummy), w) && Honest(Run(ops, dummy).log, w)
  {
    if ops != [] {
      var before, op := ops[..|ops| - 1], ops[|ops| - 1];
      RunSettles(before, dummy, w);
      StepSettles(Run(before, dummy), op, dummy, w);
      StepHonest(Run(before, dummy), op, dummy, w);
    }
  }

  // ---------- conservation ----------

  // debts opened by a feed
  function Opened<W(==)>(log: seq<Event<W>>): nat {
    if log == [] then 0
    else
      var before, last := log[..|log| - 1], log[|log| - 1];
      Opened(before) + if last.Fed? && Due(before, last.w).None? then 1 else 0
  }

  // debts voided by a clear
  function Voided<W(==)>(log: seq<Event<W>>): nat {
    if log == [] then 0
    else
      var before, last := log[..|log| - 1], log[|log| - 1];
      Voided(before) + if last.Cleared? && Due(before, last.w).Some? then 1 else 0
  }

  function Calls<W>(log: seq<Event<W>>): nat {
    if log == [] then 0
    else Calls(log[..|log| - 1]) + if log[|log| - 1].Called? then 1 else 0
  }

  function CallsTo<W(==)>(log: seq<Event<W>>, w: W): nat {
    if log == [] then 0
    else
      var last := log[|log| - 1];
      CallsTo(log[..|log| - 1], w) + if last.Called? && last.w == w then 1 else 0
  }

  function SlotsOf<W(==)>(st: Stack<W>, w: W): nat {
    if st == [] then 0
    else SlotsOf(st[..|st| - 1], w) + if st[|st| - 1].w == w then 1 else 0
  }

  lemma {:induction false} SlotsOfUpdate<W>(st: Stack<W>, i: nat, s: Slot<W>, w: W)
    requires i < |st|
    ensures SlotsOf(st[i := s], w) + (if st[i].w == w then 1 else 0) == SlotsOf(st, w) + (if s.w == w then 1 else 0)
  {
    var r := st[i := s];
    if i == |st| - 1 {
      assert r[..i] == st[..i];
    } else {
      assert r[..|st| - 1] == st[..|st| - 1][i := s];
      SlotsOfUpdate(st[..|st| - 1], i, s, w);
    }
  }

  lemma StepConserves<W>(h: History<W>, op: Op<W>, dummy: W)
    requires ProperOp(op, dummy) && (!op.OpPop? ==> Settles(h, op.w))
    requires |h.st| + Calls(h.log) == Opened(h.log)
    requires SlotsOf(h.st, dummy) + CallsTo(h.log, dummy) == Voided(h.log)
    ensures var r := Step(h, op, dummy);
            && |r.st| + Calls(r.log) == Opened(r.log)
            && SlotsOf(r.st, dummy) + CallsTo(r.log, dummy) == Voided(r.log)
  {
    var r := Step(h, op, dummy);
    if r.log != h.log {
      assert r.log[..|r.log| - 1] == h.log;
    }
    if !op.OpPop? {
      var i := IndexOf(h.st, op.w);
      if i < |h.st| {
        SlotsOfUpdate(h.st, i, r.st[i], dummy);
        assert r.st == h.st[i := r.st[i]];
      } else if op.OpFeed? {
        assert r.st[..|h.st|] == h.st;
      }
    }
  }

  // Each debt ends in exactly one call, to its watcher or, once voided, to the dummy, or is still held.
  lemma {:induction false} RunConserves<W>(ops: seq<Op<W>>, dummy: W)
    requires Proper(ops, dummy)
    ensures var h := Run(ops, dummy);
            && |h.st| + Calls(h.log) == Opened(h.log)
            && SlotsOf(h.st, dummy) + CallsTo(h.log, dummy) == Voided(h.log)
  {
    if ops != [] {
      var before, op := ops[..|ops| - 1], ops[|ops| - 1];
      RunConserves(before, dummy);
      if !op.OpPop? {
        RunSettles(before, dummy, op.w);
      }
      StepConserves(Run(before, dummy), op, dummy);
    }
  }

  // ---------- feeding backwards (feed_reverse, feed_reverse_done) ----------

  // the last watcher of fed is fed first
  function FeedBack<W(==)>(st: Stack<W>, fed: seq<W>, m: Mask): Stack<W>
    decreases |fed|
  {
    if fed == [] then st
    else FeedBack(Feed(st, fed[|fed| - 1], m), fed[..|fed| - 1], m)
  }

  // those without a slot so far, in the same order
  function Fresh<W(==)>(st: Stack<W>, fed: seq<W>): (r: seq<W>)
    ensures |r| <= |fed| && forall w :: w in r ==> w in fed
  {
    if fed == [] then []
    else
      var last := fed[|fed| - 1];
      Fresh(st, fed[..|fed| - 1]) + if Holds(st, last) then [] else [last]
  }

  lemma {:induction false} FreshOnly<W>(st: Stack<W>, fed: seq<W>)
    ensures forall w :: w in Fresh(st, fed) ==> !Holds(st, w)
  {
    if fed != [] {
      FreshOnly(st, fed[..|fed| - 1]);
    }
  }

  lemma {:induction false} FreshAgrees<W>(st: Stack<W>, r: Stack<W>, fed: seq<W>)
    requires forall w :: w in fed ==> (Holds(st, w) <==> Holds(r, w))
    ensures Fresh(st, fed) == Fresh(r, fed)
  {
    if fed != [] {
      FreshAgrees(st, r, fed[..|fed| - 1]);
      assert fed[|fed| - 1] in fed;
    }
  }

  // the slots of st get m added where their watcher is fed, and behind them stands
  // every other fed watcher, the first one on top
  ghost predicate FedBack<W>(st: Stack<W>, fed: seq<W>, m: Mask, r: Stack<W>) {
    var f := Fresh(st, fed);
    && |r| == |st| + |f|
    && (forall i :: 0 <= i < |st| ==>
          r[i] == if st[i].w in fed && IndexOf(st, st[i].w) == i then Slot(st[i].w, st[i].events + m) else st[i])
    && (forall i :: 0 <= i < |f| ==> r[|r| - 1 - i] == Slot(f[i], m))
  }

  lemma IndexOfSame<W>(st: Stack<W>, r: Stack<W>, w: W)
    requires |st| <= |r| && forall i :: 0 <= i < |st| ==> st[i].w == r[i].w
    ensures Holds(st, w) ==> IndexOf(r, w) == IndexOf(st, w)
    ensures !Holds(st, w) ==> IndexOf(r, w) >= |st|
  {
  }

  lemma {:induction false} FeedBackShape<W>(st: Stack<W>, fed: seq<W>, m: Mask)
    requires Distinct(fed)
    ensures FedBack(st, fed, m, FeedBack(st, fed, m))
    decreases |fed|
  {
    if fed != [] {
      var rest, last := fed[..|fed| - 1], fed[|fed| - 1];
      var mid := Feed(st, last, m);
      FeedBackShape(mid, rest, m);
      forall w | w in rest
        ensures Holds(st, w) <==> Holds(mid, w)
      {
        IndexOfSame(st, mid, w);
      }
      FreshAgrees(st, mid, rest);
      FeedBackStep(st, fed, m, FeedBack(st, fed, m));
    }
  }

  // the slot of st at i after last was fed
  lemma SlotFed<W>(st: Stack<W>, last: W, m: Mask, i: nat)
    requires i < |st|
    ensures var mid := Feed(st, last, m);
      && |mid| >= |st| && mid[i].w == st[i].w
      && (IndexOf(mid, st[i].w) == i <==> IndexOf(st, st[i].w) == i)
      && mid[i] == if st[i].w == last && IndexOf(st, last) == i then Slot(st[i].w, st[i].events + m) else st[i]
  {
    IndexOfSame(st, Feed(st, last, m), st[i].w);
  }

  lemma LastApart<W>(fed: seq<W>)
    requires Distinct(fed) && fed != []
    ensures fed[|fed| - 1] !in fed[..|fed| - 1] && Distinct(fed[..|fed| - 1])
  {
  }

  lemma SlotFedBack<W>(st: Stack<W>, fed: seq<W>, m: Mask, r: Stack<W>, i: nat)
    requires Distinct(fed) && fed != [] && i < |st|
    requires FedBack(Feed(st, fed[|fed| - 1], m), fed[..|fed| - 1], m, r)
    ensures r[i] == if st[i].w in fed && IndexOf(st, st[i].w) == i then Slot(st[i].w, st[i].events + m) else st[i]
  {
    var rest, last := fed[..|fed| - 1], fed[|fed| - 1];
    LastApart(fed);
    SlotFed(st, last, m, i);
    assert st[i].w in fed <==> st[i].w in rest || st[i].w == last;
  }

  lemma FeedBackStep<W>(st: Stack<W>, fed: seq<W>, m: Mask, r: Stack<W>)
    requires Distinct(fed) && fed != []
    requires var rest, mid := fed[..|fed| - 1], Feed(st, fed[|fed| - 1], m);
      Fresh(st, rest) == Fresh(mid, rest) && FedBack(mid, rest, m, r)
    ensures FedBack(st, fed, m, r) == true
  {
    var rest, last := fed[..|fed| - 1], fed[|fed| - 1];
    var mid := Feed(st, last, m);
    forall i | 0 <= i < |st|
      ensures r[i] == if st[i].w in fed && IndexOf(st, st[i].w) == i then Slot(st[i].w, st[i].events + m) else st[i]
    {
      SlotFedBack(st, fed, m, r, i);
    }
    FreshOnTop(st, fed, m, r);
  }

  lemma FreshOnTop<W>(st: Stack<W>, fed: seq<W>, m: Mask, r: Stack<W>)
    requires Distinct(fed) && fed != []
    requires var rest, mid := fed[..|fed| - 1], Feed(st, fed[|fed| - 1], m);
      Fresh(st, rest) == Fresh(mid, rest) && FedBack(mid, rest, m, r)
    ensures var f := Fresh(st, fed);
      |r| == |st| + |f| && forall i :: 0 <= i < |f| ==> r[|r| - 1 - i] == Slot(f[i], m)
  {
    var rest, last := fed[..|fed| - 1], fed[|fed| - 1];
    LastApart(fed);
  }

  // ---------- all priorities ----------

  type Stacks<W> = seq<Stack<W>>

  function FeedAt<W(==)>(ss: Stacks<W>, p: nat, w: W, m: Mask): (r: Stacks<W>)
    requires p < |ss|
    ensures |r| == |ss|
  {
    ss[p := Feed(ss[p], w, m)]
  }

  ghost predicate Ranked<W>(ws: seq<W>, pri: map<W, nat>, n: nat) {
    forall w :: w in ws ==> w in pri && pri[w] < n
  }

  ghost function FeedBackAll<W>(ss: Stacks<W>, fed: seq<W>, m: Mask, pri: map<W, nat>): (r: Stacks<W>)
    requires Ranked(fed, pri, |ss|)
    ensures |r| == |ss|
    decreases |fed|
  {
    if fed == [] then ss
    else
      var last := fed[|fed| - 1];
      assert last in fed;
      FeedBackAll(FeedAt(ss, pri[last], last, m), fed[..|fed| - 1], m, pri)
  }

  // clear the watchers of `which` among fed, in turn
  ghost function ClearEach<W>(ss: Stacks<W>, fed: seq<W>, which: set<W>, pri: map<W, nat>, dummy: W): (r: Stacks<W>)
    ensures |r| == |ss|
  {
    if fed == [] then ss
    else
      var last := fed[|fed| - 1];
      var r := ClearEach(ss, fed[..|fed| - 1], which, pri, dummy);
      if last in which && last in pri && pri[last] < |ss| then r[pri[last] := Clear(r[pri[last]], last, dummy)] else r
  }

  lemma ClearOneMore<W>(ss: Stacks<W>, fed: seq<W>, w: W, which: set<W>, pri: map<W, nat>, dummy: W)
    requires w in pri && pri[w] < |ss|
    ensures var r := ClearEach(ss, fed, which, pri, dummy);
            ClearEach(ss, fed + [w], which, pri, dummy) == if w in which then r[pri[w] := Clear(r[pri[w]], w, dummy)] else r
  {
    assert (fed + [w])[..|fed|] == fed;
  }

  ghost function OfPriority<W>(ws: seq<W>, pri: map<W, nat>, p: nat): (r: seq<W>)
    ensures forall w :: w in r ==> w in ws
  {
    if ws == [] then []
    else
      var last := ws[|ws| - 1];
      OfPriority(ws[..|ws| - 1], pri, p) + if last in pri && pri[last] == p then [last] else []
  }

  lemma {:induction false} OfPriorityOnly<W>(ws: seq<W>, pri: map<W, nat>, p: nat)
    ensures forall w :: w in OfPriority(ws, pri, p) ==> w in pri && pri[w] == p
  {
    if ws != [] {
      OfPriorityOnly(ws[..|ws| - 1], pri, p);
    }
  }

  lemma {:induction false} OfPriorityDistinct<W>(ws: seq<W>, pri: map<W, nat>, p: nat)
    requires Distinct(ws)
    ensures Distinct(OfPriority(ws, pri, p))
  {
    if ws != [] {
      OfPriorityDistinct(ws[..|ws| - 1], pri, p);
      assert ws[|ws| - 1] !in ws[..|ws| - 1];
    }
  }

  // stacks of different priority do not meet
  lemma {:induction false} FeedBackPerPriority<W>(ss: Stacks<W>, fed: seq<W>, m: Mask, pri: map<W, nat>, p: nat)
    requires Ranked(fed, pri, |ss|) && p < |ss|
    ensures FeedBackAll(ss, fed, m, pri)[p] == FeedBack(ss[p], OfPriority(fed, pri, p), m)
    decreases |fed|
  {
    if fed != [] {
      var last, rest := fed[|fed| - 1], fed[..|fed| - 1];
      assert last in fed;
      FeedBackPerPriority(FeedAt(ss, pri[last], last, m), rest, m, pri, p);
      var mine := OfPriority(fed, pri, p);
      if pri[last] == p {
        assert mine[..|mine| - 1] == OfPriority(rest, pri, p) && mine[|mine| - 1] == last;
        assert FeedBack(ss[p], mine, m) == FeedBack(Feed(ss[p], last, m), OfPriority(rest, pri, p), m);
      } else {
        assert mine == OfPriority(rest, pri, p);
      }
    }
  }

  // ---------- ev_invoke_pending ----------

  // the highest priority below `below` with something pending, or -1
  function Highest<W>(ss: Stacks<W>, below: nat): (p: int)
    requires below <= |ss|
    ensures -1 <= p < below
    ensures p >= 0 ==> ss[p] != []
    ensures forall q :: p < q < below ==> ss[q] == []
  {
    if below == 0 then -1
    else if ss[below - 1] != [] then below - 1
    else Highest(ss, below - 1)
  }

  // callbacks may feed and clear watchers, among them the one being called
  ghost predicate Behaves<W>(ops: seq<Op<W>>, pri: map<W, nat>, n: nat) {
    forall i :: 0 <= i < |ops| ==> !ops[i].OpPop? && ops[i].w in pri && pri[ops[i].w] < n
  }

  ghost function Act<W>(ss: Stacks<W>, op: Op<W>, pri: map<W, nat>, dummy: W): (r: Stacks<W>)
    requires !op.OpPop? && op.w in pri && pri[op.w] < |ss|
    ensures |r| == |ss|
  {
    var p := pri[op.w];
    if op.OpFeed? then FeedAt(ss, p, op.w, op.revents) else ss[p := Clear(ss[p], op.w, dummy)]
  }

  ghost function ActAll<W>(ss: Stacks<W>, ops: seq<Op<W>>, pri: map<W, nat>, dummy: W): (r: Stacks<W>)
    requires Behaves(ops, pri, |ss|)
    ensures |r| == |ss|
  {
    if ops == [] then ss
    else Act(ActAll(ss, ops[..|ops| - 1], pri, dummy), ops[|ops| - 1], pri, dummy)
  }

  lemma ActOneMore<W>(ss: Stacks<W>, ops: seq<Op<W>>, op: Op<W>, pri: map<W, nat>, dummy: W)
    requires Behaves(ops, pri, |ss|) && !op.OpPop? && op.w in pri && pri[op.w] < |ss|
    ensures Behaves(ops + [op], pri, |ss|)
    ensures ActAll(ss, ops + [op], pri, dummy) == Act(ActAll(ss, ops, pri, dummy), op, pri, dummy)
  {
    assert (ops + [op])[..|ops|] == ops;
  }

  lemma {:induction false} ActAllMore<W>(ss: Stacks<W>, a: seq<Op<W>>, b: seq<Op<W>>, pri: map<W, nat>, dummy: W)
    requires Behaves(a, pri, |ss|) && Behaves(b, pri, |ss|)
    ensures Behaves(a + b, pri, |ss|)
    ensures ActAll(ss, a + b, pri, dummy) == ActAll(ActAll(ss, a, pri, dummy), b, pri, dummy)
    decreases |b|
  {
    if b == [] {
      assert a + b == a;
    } else {
      var n := |b| - 1;
      ActAllMore(ss, a, b[..n], pri, dummy);
      assert (a + b)[..|a + b| - 1] == a + b[..n];
    }
  }

  // what the callbacks do: the i-th one called performs script[i]
  type Script<W> = seq<seq<Op<W>>>

  ghost predicate BehavesAll<W>(script: Script<W>, pri: map<W, nat>, n: nat) {
    forall i :: 0 <= i < |script| ==> Behaves(script[i], pri, n)
  }

  // the stacks after n callbacks, and the priority above which the dispatcher no longer looks
  datatype Dispatch<W> = Dispatch(ss: Stacks<W>, below: nat)

  function OpsAt<W>(script: Script<W>, n: nat): seq<Op<W>> {
    if n < |script| then script[n] else []
  }

  // the next slot to call
  ghost function Top<W>(d: Dispatch<W>): Option<Slot<W>>
    requires d.below <= |d.ss|
  {
    var p := Highest(d.ss, d.below);
    if p < 0 then None else Some(d.ss[p][|d.ss[p]| - 1])
  }

  // its callback performs ops
  ghost function Turn<W>(d: Dispatch<W>, ops: seq<Op<W>>, pri: map<W, nat>, dummy: W): (r: Dispatch<W>)
    requires d.below <= |d.ss| && Behaves(ops, pri, |d.ss|)
    ensures |r.ss| == |d.ss| && r.below <= |r.ss|
  {
    var p := Highest(d.ss, d.below);
    if p < 0 then d
    else Dispatch(ActAll(d.ss[p := d.ss[p][..|d.ss[p]| - 1]], ops, pri, dummy), p + 1)
  }

  // One state per call and the last: each call takes the top of the highest nonempty stack the
  // dispatcher still looks at, and its callback acts before the next one is chosen.
  ghost predicate Dispatches<W>(ds: seq<Dispatch<W>>, calls: seq<Slot<W>>, script: Script<W>, pri: map<W, nat>, dummy: W) {
    && |ds| == |calls| + 1
    && (forall n :: 0 <= n < |calls| ==> DispatchStep(ds[n], ds[n + 1], calls[n], OpsAt(script, n), pri, dummy))
  }

  ghost predicate DispatchStep<W>(d: Dispatch<W>, r: Dispatch<W>, call: Slot<W>, ops: seq<Op<W>>, pri: map<W, nat>, dummy: W) {
    && d.below <= |d.ss| && Behaves(ops, pri, |d.ss|)
    && Top(d) == Some(call) && r == Turn(d, ops, pri, dummy)
  }

  lemma DispatchesMore<W>(ds: seq<Dispatch<W>>, calls: seq<Slot<W>>, d: Dispatch<W>, call: Slot<W>,
                          script: Script<W>, pri: map<W, nat>, dummy: W)
    requires Dispatches(ds, calls, script, pri, dummy)
    requires DispatchStep(ds[|calls|], d, call, OpsAt(script, |calls|), pri, dummy)
    ensures Dispatches(ds + [d], calls + [call], script, pri, dummy)
  {
    var es, cs := ds + [d], calls + [call];
    forall n | 0 <= n < |cs|
      ensures DispatchStep(es[n], es[n + 1], cs[n], OpsAt(script, n), pri, dummy)
    {
      if n < |calls| {
        assert es[n] == ds[n] && es[n + 1] == ds[n + 1] && cs[n] == calls[n];
      }
    }
  }

  // The stacks at the start and what the callbacks do determine the calls.
  lemma {:induction false} DispatchDetermined<W>(ds: seq<Dispatch<W>>, calls: seq<Slot<W>>,
      es: seq<Dispatch<W>>, others: seq<Slot<W>>, script: Script<W>, pri: map<W, nat>, dummy: W, n: nat)
    requires Dispatches(ds, calls, script, pri, dummy) && Dispatches(es, others, script, pri, dummy)
    requires ds[0] == es[0] && n <= |calls| && n <= |others|
    ensures ds[n] == es[n] && calls[..n] == others[..n]
  {
    if n > 0 {
      DispatchDetermined(ds, calls, es, others, script, pri, dummy, n - 1);
      assert DispatchStep(ds[n - 1], ds[n], calls[n - 1], OpsAt(script, n - 1), pri, dummy);
      assert DispatchStep(es[n - 1], es[n], others[n - 1], OpsAt(script, n - 1), pri, dummy);
      assert calls[..n] == calls[..n - 1] + [calls[n - 1]] && others[..n] == others[..n - 1] + [others[n - 1]];
    }
  }

  // ---------- the dispatcher, seen from one stack ----------

  // what the ops of a callback do to the stack of priority p
  ghost function ActLog<W>(h: History<W>, ops: seq<Op<W>>, pri: map<W, nat>, p: nat, dummy: W): History<W> {
    if ops == [] then h
    else
      var before, op := ActLog(h, ops[..|ops| - 1], pri, p, dummy), ops[|ops| - 1];
      if !op.OpPop? && op.w in pri && pri[op.w] == p then Step(before, op, dummy) else before
  }

  lemma {:induction false} ActLogFaithful<W>(ss: Stacks<W>, h: History<W>, ops: seq<Op<W>>, pri: map<W, nat>, p: nat, dummy: W, w: W)
    requires Behaves(ops, pri, |ss|) && p < |ss| && h.st == ss[p] && dummy !in pri && w != dummy
    requires Settles(h, w) && Honest(h.log, w)
    ensures var r := ActLog(h, ops, pri, p, dummy);
            r.st == ActAll(ss, ops, pri, dummy)[p] && Settles(r, w) && Honest(r.log, w)
  {
    if ops != [] {
      var rest, op := ops[..|ops| - 1], ops[|ops| - 1];
      ActLogFaithful(ss, h, rest, pri, p, dummy, w);
      var before := ActLog(h, rest, pri, p, dummy);
      StepSettles(before, op, dummy, w);
      StepHonest(before, op, dummy, w);
    }
  }

  lemma {:induction false} ActLogStack<W>(ss: Stacks<W>, h: History<W>, ops: seq<Op<W>>, pri: map<W, nat>, p: nat, dummy: W)
    requires Behaves(ops, pri, |ss|) && p < |ss| && h.st == ss[p]
    ensures ActLog(h, ops, pri, p, dummy).st == ActAll(ss, ops, pri, dummy)[p]
  {
    if ops != [] {
      ActLogStack(ss, h, ops[..|ops| - 1], pri, p, dummy);
    }
  }

  lemma PopFaithful<W>(h: History<W>, dummy: W, w: W)
    requires Settles(h, w) && Honest(h.log, w) && w != dummy
    ensures var r := Step(h, OpPop, dummy);
            Settles(r, w) && Honest(r.log, w) && r.st == if h.st == [] then [] else h.st[..|h.st| - 1]
  {
    PopSettles(h, dummy, w);
    StepHonest(h, OpPop, dummy, w);
  }

  // what a turn of the dispatcher does to the stack of priority p
  ghost function TurnLog<W>(h: History<W>, q: int, ops: seq<Op<W>>, pri: map<W, nat>, p: nat, dummy: W): History<W> {
    ActLog(if q == p then Step(h, OpPop, dummy) else h, ops, pri, p, dummy)
  }

  lemma TurnStack<W>(h: History<W>, ss: Stacks<W>, q: nat, ops: seq<Op<W>>, pri: map<W, nat>, p: nat, dummy: W)
    requires q < |ss| && ss[q] != [] && Behaves(ops, pri, |ss|) && p < |ss| && h.st == ss[p]
    ensures TurnLog(h, q, ops, pri, p, dummy).st == ActAll(ss[q := ss[q][..|ss[q]| - 1]], ops, pri, dummy)[p]
  {
    var popped := if q == p then Step(h, OpPop, dummy) else h;
    ActLogStack(ss[q := ss[q][..|ss[q]| - 1]], popped, ops, pri, p, dummy);
  }

  lemma TurnFaithful<W>(h: History<W>, ss: Stacks<W>, q: nat, ops: seq<Op<W>>, pri: map<W, nat>, p: nat, dummy: W, w: W)
    requires q < |ss| && ss[q] != [] && Behaves(ops, pri, |ss|)
    requires p < |ss| && h.st == ss[p] && dummy !in pri && w != dummy
    requires Settles(h, w) && Honest(h.log, w)
    ensures var r := TurnLog(h, q, ops, pri, p, dummy);
            && r.st == ActAll(ss[q := ss[q][..|ss[q]| - 1]], ops, pri, dummy)[p]
            && Settles(r, w) && Honest(r.log, w)
  {
    PopFaithful(h, dummy, w);
    var popped := if q == p then Step(h, OpPop, dummy) else h;
    ActLogFaithful(ss[q := ss[q][..|ss[q]| - 1]], popped, ops, pri, p, dummy, w);
  }

  // what the first n turns of the dispatcher do to the stack of priority p, which has the history h so far
  ghost function DispatchLog<W>(h: History<W>, ds: seq<Dispatch<W>>, script: Script<W>, pri: map<W, nat>, p: nat,
                                dummy: W, n: nat): History<W>
    requires n < |ds| && forall i :: 0 <= i < n ==> ds[i].below <= |ds[i].ss|
  {
    if n == 0 then h
    else
      var d := ds[n - 1];
      TurnLog(DispatchLog(h, ds, script, pri, p, dummy, n - 1), Highest(d.ss, d.below), OpsAt(script, n - 1), pri, p, dummy)
  }

  lemma DispatchDepth<W>(ds: seq<Dispatch<W>>, calls: seq<Slot<W>>, script: Script<W>, pri: map<W, nat>, dummy: W)
    requires Dispatches(ds, calls, script, pri, dummy)
    ensures forall i :: 0 <= i < |calls| ==> ds[i].below <= |ds[i].ss|
  {
    forall i | 0 <= i < |calls|
      ensures ds[i].below <= |ds[i].ss|
    {
      assert DispatchStep(ds[i], ds[i + 1], calls[i], OpsAt(script, i), pri, dummy);
    }
  }

  // h leads to the stack st, and is right about w
  ghost predicate Tells<W>(h: History<W>, st: Stack<W>, w: W) {
    h.st == st && Settles(h, w) && Honest(h.log, w)
  }

  lemma StepTells<W>(h: History<W>, d: Dispatch<W>, r: Dispatch<W>, call: Slot<W>, ops: seq<Op<W>>,
                     pri: map<W, nat>, p: nat, dummy: W, w: W)
    requires DispatchStep(d, r, call, ops, pri, dummy) && p < |d.ss| && dummy !in pri && w != dummy
    requires Tells(h, d.ss[p], w)
    ensures p < |r.ss| && Tells(TurnLog(h, Highest(d.ss, d.below), ops, pri, p, dummy), r.ss[p], w) == true
  {
    TurnFaithful(h, d.ss, Highest(d.ss, d.below), ops, pri, p, dummy, w);
  }

  lemma {:induction false} DispatchFaithful<W>(h: History<W>, ds: seq<Dispatch<W>>, calls: seq<Slot<W>>, script: Script<W>,
                                               pri: map<W, nat>, p: nat, dummy: W, w: W, n: nat)
    requires Dispatches(ds, calls, script, pri, dummy) && n <= |calls|
    requires forall i :: 0 <= i < |calls| ==> ds[i].below <= |ds[i].ss|
    requires p < |ds[0].ss| && dummy !in pri && w != dummy && Tells(h, ds[0].ss[p], w)
    ensures p < |ds[n].ss| && Tells(DispatchLog(h, ds, script, pri, p, dummy, n), ds[n].ss[p], w) == true
  {
    if n > 0 {
      DispatchFaithful(h, ds, calls, script, pri, p, dummy, w, n - 1);
      var before := DispatchLog(h, ds, script, pri, p, dummy, n - 1);
      StepTells(before, ds[n - 1], ds[n], calls[n - 1], OpsAt(script, n - 1), pri, p, dummy, w);
    }
  }

  // However the callbacks feed and clear watchers meanwhile, each call of the dispatcher delivers to its
  // watcher the OR of exactly the masks fed since it was last called or cleared.
  lemma EveryCallIsDue<W>(h: History<W>, ds: seq<Dispatch<W>>, calls: seq<Slot<W>>, script: Script<W>,
                          pri: map<W, nat>, dummy: W, n: nat)
    requires Dispatches(ds, calls, script, pri, dummy) && n < |calls| && calls[n].w != dummy && dummy !in pri
    requires ds[n].below <= |ds[n].ss| == |ds[0].ss|
    requires var p := Highest(ds[n].ss, ds[n].below);
             p >= 0 && h.st == ds[0].ss[p] && Settles(h, calls[n].w) && Honest(h.log, calls[n].w)
    ensures forall i :: 0 <= i < n ==> ds[i].below <= |ds[i].ss|
    ensures Due(DispatchLog(h, ds, script, pri, Highest(ds[n].ss, ds[n].below), dummy, n).log, calls[n].w) == Some(calls[n].events)
  {
    var p, w := Highest(ds[n].ss, ds[n].below), calls[n].w;
    DispatchDepth(ds, calls, script, pri, dummy);
    DispatchFaithful(h, ds, calls, script, pri, p, dummy, w, n);
    assert DispatchStep(ds[n], ds[n + 1], calls[n], OpsAt(script, n), pri, dummy);
  }

  // ---------- when the callbacks leave the stacks alone ----------

  // all slots, by falling priority, each stack from the top
  function Drain<W>(ss: Stacks<W>, below: nat): seq<Slot<W>>
    requires below <= |ss|
  {
    if below == 0 then [] else Reverse(ss[below - 1]) + Drain(ss, below - 1)
  }

  lemma {:induction false} DrainStep<W>(ss: Stacks<W>, below: nat)
    requires below <= |ss|
    ensures var p := Highest(ss, below);
            if p < 0 then Drain(ss, below) == []
            else Drain(ss, below) == [ss[p][|ss[p]| - 1]] + Drain(ss[p := ss[p][..|ss[p]| - 1]], p + 1)
  {
    if below > 0 {
      if ss[below - 1] == [] {
        DrainStep(ss, below - 1);
        DrainEmpty(ss, below);
      } else {
        DrainTop(ss, below - 1);
      }
    }
  }

  lemma DrainEmpty<W>(ss: Stacks<W>, below: nat)
    requires 0 < below <= |ss| && ss[below - 1] == []
    ensures Drain(ss, below) == Drain(ss, below - 1) && Highest(ss, below) == Highest(ss, below - 1)
  {
    assert [] + Drain(ss, below - 1) == Drain(ss, below - 1);
  }

  lemma DrainTop<W>(ss: Stacks<W>, p: nat)
    requires p < |ss| && ss[p] != []
    ensures Drain(ss, p + 1) == [ss[p][|ss[p]| - 1]] + Drain(ss[p := ss[p][..|ss[p]| - 1]], p + 1)
  {
    var st := ss[p];
    var less := st[..|st| - 1];
    var r := ss[p := less];
    DrainSame(ss, r, p);
    var top, tail, rest := [st[|st| - 1]], Reverse(less), Drain(r, p);
    assert Drain(ss, p + 1) == (top + tail) + rest;
    assert (top + tail) + rest == top + (tail + rest);
  }

  lemma {:induction false} DrainSame<W>(ss: Stacks<W>, rr: Stacks<W>, below: nat)
    requires below <= |ss| == |rr| && forall q :: 0 <= q < below ==> ss[q] == rr[q]
    ensures Drain(ss, below) == Drain(rr, below)
  {
    if below > 0 {
      DrainSame(ss, rr, below - 1);
    }
  }

  // Then every slot is called once, higher priorities first, each stack from the top.
  lemma {:induction false} QuietDispatchDrains<W>(ds: seq<Dispatch<W>>, calls: seq<Slot<W>>, pri: map<W, nat>, dummy: W, n: nat)
    requires Dispatches(ds, calls, [], pri, dummy) && n <= |calls|
    requires ds[|calls|].below <= |ds[|calls|].ss| && Top(ds[|calls|]) == None
    ensures ds[n].below <= |ds[n].ss| && calls[n..] == Drain(ds[n].ss, ds[n].below)
    decreases |calls| - n
  {
    var d := ds[n];
    if n < |calls| {
      assert DispatchStep(d, ds[n + 1], calls[n], OpsAt([], n), pri, dummy);
      QuietDispatchDrains(ds, calls, pri, dummy, n + 1);
      assert calls[n..] == [calls[n]] + calls[n + 1..];
    }
    DrainStep(d.ss, d.below);
  }
}
