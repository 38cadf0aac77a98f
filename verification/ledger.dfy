/**
  Book-keeping for the pending stacks of deps/ev/ev.c: every slot ever created
  is a numbered debt, and every call settles one of them.
 */
module Ledgers {
  import opened Watchers
  import opened PendingStacks

  // slot number id was created for w, got the masks in `mask`, and lost its watcher if it was cleared
  datatype Debt<W> = Debt(id: nat, w: W, mask: Mask, cleared: bool)

  // those still to be called, the oldest first, and those called, in the order of the calls
  datatype Ledger<W> = Ledger(open: seq<Debt<W>>, settled: seq<Debt<W>>)

  // the open debt of w that was not cleared, or the length
  function OpenFor<W(==)>(open: seq<Debt<W>>, w: W): (i: nat)
    ensures i <= |open|
    ensures i < |open| ==> open[i].w == w && !open[i].cleared
    ensures forall j :: 0 <= j < i ==> open[j].w != w || open[j].cleared
  {
    if open == [] then 0
    else if open[0].w == w && !open[0].cleared then 0
    else 1 + OpenFor(open[1..], w)
  }

  function Entered<W(==)>(b: Ledger<W>, e: Event<W>): Ledger<W> {
    match e
    case Fed(w, m) =>
      var i := OpenFor(b.open, w);
      if i < |b.open| then b.(open := b.open[i := b.open[i].(mask := b.open[i].mask + m)])
      else b.(open := b.open + [Debt(|b.settled| + |b.open|, w, m, false)])
    case Cleared(w) =>
      var i := OpenFor(b.open, w);
      if i < |b.open| then b.(open := b.open[i := b.open[i].(cleared := true)]) else b
    case Called(_, _) =>
      if b.open == [] then b
      else Ledger(b.open[..|b.open| - 1], b.settled + [b.open[|b.open| - 1]])
  }

  // the ledger that belongs to a log of feeds, clears and calls
  function Books<W(==)>(log: seq<Event<W>>): Ledger<W> {
    if log == [] then Ledger([], []) else Entered(Books(log[..|log| - 1]), log[|log| - 1])
  }

  // the calls of a log
  function CallsMade<W>(log: seq<Event<W>>): seq<Slot<W>> {
    if log == [] then []
    else
      var last := log[|log| - 1];
      CallsMade(log[..|log| - 1]) + if last.Called? then [Slot(last.w, last.events)] else []
  }

  // what the call that settles d must deliver: all that was fed, to the watcher or to the dummy
  function Owing<W>(d: Debt<W>, dummy: W): Slot<W> {
    Slot(if d.cleared then dummy else d.w, d.mask)
  }

  ghost predicate AllOwing<W>(slots: seq<Slot<W>>, debts: seq<Debt<W>>, dummy: W) {
    |slots| == |debts| && forall k :: 0 <= k < |slots| ==> slots[k] == Owing(debts[k], dummy)
  }

  ghost predicate Stands<W>(ds: seq<Debt<W>>, id: nat) {
    exists k :: 0 <= k < |ds| && ds[k].id == id
  }

  // each number below |ds| stands at exactly one place
  ghost predicate Numbered<W>(ds: seq<Debt<W>>) {
    && (forall k :: 0 <= k < |ds| ==> ds[k].id < |ds|)
    && (forall i, j :: 0 <= i < j < |ds| ==> ds[i].id != ds[j].id)
    && (forall id: nat :: id < |ds| ==> Stands(ds, id))
  }

  // Each slot ever created is either still on the stack, with all that was fed to it, or it was called
  // exactly once, and that call delivered just this.
  ghost predicate Balanced<W>(h: History<W>, dummy: W) {
    var b := Books(h.log);
    && AllOwing(h.st, b.open, dummy)
    && AllOwing(CallsMade(h.log), b.settled, dummy)
    && Numbered(b.settled + b.open)
    && forall d :: d in b.open ==> d.w != dummy
  }

  lemma BooksMore<W>(log: seq<Event<W>>, e: Event<W>)
    ensures Books(log + [e]) == Entered(Books(log), e)
    ensures CallsMade(log + [e]) == CallsMade(log) + if e.Called? then [Slot(e.w, e.events)] else []
  {
    assert (log + [e])[..|log|] == log;
  }

  // the slot of w and its open debt are found at the same place
  lemma SamePlace<W>(st: Stack<W>, open: seq<Debt<W>>, w: W, dummy: W)
    requires AllOwing(st, open, dummy) && w != dummy
    ensures IndexOf(st, w) == OpenFor(open, w)
  {
    var i, j := IndexOf(st, w), OpenFor(open, w);
    if i < |st| {
      assert st[i] == Owing(open[i], dummy);
    }
    if j < |st| {
      assert st[j] == Owing(open[j], dummy);
    }
  }

  lemma NumberedMore<W>(ds: seq<Debt<W>>, d: Debt<W>)
    requires Numbered(ds) && d.id == |ds|
    ensures Numbered(ds + [d])
  {
    var r := ds + [d];
    forall id: nat | id < |r|
      ensures Stands(r, id)
    {
      if id == |ds| {
        assert r[|ds|].id == id;
      } else {
        assert Stands(ds, id);
        var k :| 0 <= k < |ds| && ds[k].id == id;
        assert r[k].id == id;
      }
    }
  }

  lemma NumberedSame<W>(ds: seq<Debt<W>>, r: seq<Debt<W>>)
    requires Numbered(ds) && |r| == |ds| && forall k :: 0 <= k < |ds| ==> r[k].id == ds[k].id
    ensures Numbered(r)
  {
    forall id: nat | id < |r|
      ensures Stands(r, id)
    {
      assert Stands(ds, id);
      var k :| 0 <= k < |ds| && ds[k].id == id;
      assert r[k].id == id;
    }
  }

  // the last open debt becomes the last settled one
  lemma NumberedMoved<W>(settled: seq<Debt<W>>, open: seq<Debt<W>>)
    requires open != [] && Numbered(settled + open)
    ensures Numbered((settled + [open[|open| - 1]]) + open[..|open| - 1])
  {
    var n, s := |open| - 1, |settled|;
    var ds, r := settled + open, (settled + [open[n]]) + open[..n];
    assert forall k :: 0 <= k < |r| ==> r[k] == ds[if k < s then k else if k == s then s + n else k - 1];
    forall id: nat | id < |r|
      ensures Stands(r, id)
    {
      assert Stands(ds, id);
      var k :| 0 <= k < |ds| && ds[k].id == id;
      assert r[if k < s then k else if k == s + n then s else k + 1].id == id;
    }
  }

  lemma FeedBalances<W>(h: History<W>, w: W, m: Mask, dummy: W)
    requires Balanced(h, dummy) && w != dummy
    ensures Balanced(Step(h, OpFeed(w, m), dummy), dummy)
  {
    var b := Books(h.log);
    BooksMore(h.log, Fed(w, m));
    SamePlace(h.st, b.open, w, dummy);
    var r := Entered(b, Fed(w, m));
    if OpenFor(b.open, w) < |b.open| {
      NumberedSame(b.settled + b.open, r.settled + r.open);
    } else {
      NumberedMore(b.settled + b.open, r.open[|b.open|]);
      assert r.settled + r.open == (b.settled + b.open) + [r.open[|b.open|]];
    }
  }

  lemma ClearBalances<W>(h: History<W>, w: W, dummy: W)
    requires Balanced(h, dummy) && w != dummy
    ensures Balanced(Step(h, OpClear(w), dummy), dummy)
  {
    var b := Books(h.log);
    BooksMore(h.log, Cleared(w));
    SamePlace(h.st, b.open, w, dummy);
    var r := Entered(b, Cleared(w));
    NumberedSame(b.settled + b.open, r.settled + r.open);
  }

  lemma PopBalances<W>(h: History<W>, dummy: W)
    requires Balanced(h, dummy)
    ensures Balanced(Step(h, OpPop, dummy), dummy)
  {
    if h.st != [] {
      var b, top := Books(h.log), h.st[|h.st| - 1];
      BooksMore(h.log, Called(top.w, top.events));
      NumberedMoved(b.settled, b.open);
    }
  }

  lemma StepBalances<W>(h: History<W>, op: Op<W>, dummy: W)
    requires Balanced(h, dummy) && ProperOp(op, dummy)
    ensures Balanced(Step(h, op, dummy), dummy)
  {
    match op
    case OpFeed(w, m) => FeedBalances(h, w, m, dummy);
    case OpClear(w) => ClearBalances(h, w, dummy);
    case OpPop => PopBalances(h, dummy);
  }

  // The books balance in every run.
  lemma {:induction false} RunBalances<W>(ops: seq<Op<W>>, dummy: W)
    requires Proper(ops, dummy)
    ensures Balanced(Run(ops, dummy), dummy)
  {
    if ops != [] {
      RunBalances(ops[..|ops| - 1], dummy);
      StepBalances(Run(ops[..|ops| - 1], dummy), ops[|ops| - 1], dummy);
    }
  }

  // ---------- along a dispatch ----------

  lemma {:induction false} ActLogBalances<W>(h: History<W>, ops: seq<Op<W>>, pri: map<W, nat>, p: nat, dummy: W)
    requires Balanced(h, dummy) && dummy !in pri
    ensures var r := ActLog(h, ops, pri, p, dummy);
            Balanced(r, dummy) && CallsMade(r.log) == CallsMade(h.log)
  {
    if ops != [] {
      var rest, op := ops[..|ops| - 1], ops[|ops| - 1];
      ActLogBalances(h, rest, pri, p, dummy);
      var before := ActLog(h, rest, pri, p, dummy);
      if !op.OpPop? && op.w in pri && pri[op.w] == p {
        StepBalances(before, op, dummy);
        BooksMore(before.log, if op.OpFeed? then Fed(op.w, op.revents) else Cleared(op.w));
      }
    }
  }

  lemma TurnBalances<W>(h: History<W>, q: int, ops: seq<Op<W>>, pri: map<W, nat>, p: nat, dummy: W)
    requires Balanced(h, dummy) && dummy !in pri && (q == p ==> h.st != [])
    ensures var r := TurnLog(h, q, ops, pri, p, dummy);
            && Balanced(r, dummy)
            && CallsMade(r.log) == CallsMade(h.log) + if q == p then [h.st[|h.st| - 1]] else []
  {
    var popped := if q == p then Step(h, OpPop, dummy) else h;
    if q == p {
      var top := h.st[|h.st| - 1];
      PopBalances(h, dummy);
      BooksMore(h.log, Called(top.w, top.events));
    }
    ActLogBalances(popped, ops, pri, p, dummy);
  }

  // the calls among the first n that took a slot of priority p
  ghost function CallsAt<W>(ds: seq<Dispatch<W>>, calls: seq<Slot<W>>, p: nat, n: nat): seq<Slot<W>>
    requires n <= |calls| && n < |ds| && forall i :: 0 <= i < n ==> ds[i].below <= |ds[i].ss|
  {
    if n == 0 then []
    else CallsAt(ds, calls, p, n - 1) + if Highest(ds[n - 1].ss, ds[n - 1].below) == p then [calls[n - 1]] else []
  }

  // r continues h to the stack st by making the calls `made`, and balances
  ghost predicate Continues<W>(h: History<W>, r: History<W>, st: Stack<W>, made: seq<Slot<W>>, dummy: W) {
    r.st == st && Balanced(r, dummy) && CallsMade(r.log) == CallsMade(h.log) + made
  }

  lemma ContinuesMore<W>(h: History<W>, s: History<W>, t: History<W>, st: Stack<W>, st': Stack<W>,
                         made: seq<Slot<W>>, more: seq<Slot<W>>, dummy: W)
    requires Continues(h, s, st, made, dummy) && Balanced(t, dummy) && t.st == st'
    requires CallsMade(t.log) == CallsMade(s.log) + more
    ensures Continues(h, t, st', made + more, dummy) == true
  {
    assert (CallsMade(h.log) + made) + more == CallsMade(h.log) + (made + more);
  }

  lemma StepContinues<W>(h: History<W>, s: History<W>, made: seq<Slot<W>>, d: Dispatch<W>, r: Dispatch<W>,
                         call: Slot<W>,
                         ops: seq<Op<W>>, pri: map<W, nat>, p: nat, dummy: W)
    requires DispatchStep(d, r, call, ops, pri, dummy) && p < |d.ss| && dummy !in pri
    requires Continues(h, s, d.ss[p], made, dummy)
    ensures var q := Highest(d.ss, d.below);
            && p < |r.ss|
            && Continues(h, TurnLog(s, q, ops, pri, p, dummy), r.ss[p], made + if q == p then [call] else [], dummy) == true
  {
    var q := Highest(d.ss, d.below);
    TurnBalances(s, q, ops, pri, p, dummy);
    TurnStack(s, d.ss, q, ops, pri, p, dummy);
    ContinuesMore(h, s, TurnLog(s, q, ops, pri, p, dummy), d.ss[p], r.ss[p], made, if q == p then [call] else [], dummy);
  }

  // after n turns of a dispatch
  ghost predicate ContinuesAt<W>(h: History<W>, ds: seq<Dispatch<W>>, calls: seq<Slot<W>>, script: Script<W>,
                                 pri: map<W, nat>, p: nat, dummy: W, n: nat) {
    && |ds| == |calls| + 1 && n <= |calls| && (forall i :: 0 <= i < |calls| ==> ds[i].below <= |ds[i].ss|)
    && p < |ds[n].ss|
    && Continues(h, DispatchLog(h, ds, script, pri, p, dummy, n), ds[n].ss[p], CallsAt(ds, calls, p, n), dummy)
  }

  lemma NothingCalled<W>(h: History<W>, ds: seq<Dispatch<W>>, calls: seq<Slot<W>>, script: Script<W>,
                         pri: map<W, nat>, p: nat, dummy: W)
    requires |ds| == |calls| + 1 && forall i :: 0 <= i < |calls| ==> ds[i].below <= |ds[i].ss|
    requires p < |ds[0].ss| && h.st == ds[0].ss[p] && Balanced(h, dummy)
    ensures ContinuesAt(h, ds, calls, script, pri, p, dummy, 0) == true
  {
    assert CallsMade(h.log) + [] == CallsMade(h.log);
  }

  lemma TurnContinues<W>(h: History<W>, ds: seq<Dispatch<W>>, calls: seq<Slot<W>>, script: Script<W>,
                         pri: map<W, nat>, p: nat, dummy: W, n: nat)
    requires Dispatches(ds, calls, script, pri, dummy) && n < |calls| && dummy !in pri
    requires ContinuesAt(h, ds, calls, script, pri, p, dummy, n)
    ensures ContinuesAt(h, ds, calls, script, pri, p, dummy, n + 1) == true
  {
    var before, made := DispatchLog(h, ds, script, pri, p, dummy, n), CallsAt(ds, calls, p, n);
    StepContinues(h, before, made, ds[n], ds[n + 1], calls[n], OpsAt(script, n), pri, p, dummy);
  }

  lemma {:induction false} DispatchContinues<W>(h: History<W>, ds: seq<Dispatch<W>>, calls: seq<Slot<W>>,
                                                script: Script<W>,
                                                pri: map<W, nat>, p: nat, dummy: W, n: nat)
    requires Dispatches(ds, calls, script, pri, dummy) == true && dummy !in pri && n <= |calls|
    requires ContinuesAt(h, ds, calls, script, pri, p, dummy, 0) == true
    ensures ContinuesAt(h, ds, calls, script, pri, p, dummy, n) == true
  {
    if n > 0 {
      var m: nat := n - 1;
      DispatchContinues(h, ds, calls, script, pri, p, dummy, m);
      TurnContinues(h, ds, calls, script, pri, p, dummy, m);
      assert m + 1 == n;
    }
  }

  // Along a dispatch the books of every stack balance, and its calls are those the dispatcher made there.
  lemma DispatchBalances<W>(h: History<W>, ds: seq<Dispatch<W>>, calls: seq<Slot<W>>, script: Script<W>,
                            pri: map<W, nat>, p: nat, dummy: W, n: nat)
    requires Dispatches(ds, calls, script, pri, dummy) && n <= |calls|
    requires forall i :: 0 <= i < |calls| ==> ds[i].below <= |ds[i].ss|
    requires p < |ds[0].ss| && h.st == ds[0].ss[p] && dummy !in pri && Balanced(h, dummy)
    ensures p < |ds[n].ss|
    ensures Continues(h, DispatchLog(h, ds, script, pri, p, dummy, n), ds[n].ss[p], CallsAt(ds, calls, p, n), dummy) == true
  {
    NothingCalled(h, ds, calls, script, pri, p, dummy);
    DispatchContinues(h, ds, calls, script, pri, p, dummy, n);
  }

  // When the dispatcher is done, each slot it found on a stack or that callbacks put there while it still
  // looked at it was called exactly once, to its watcher or if cleared to the dummy, with all that was fed to it.
  lemma DispatchSettles<W>(h: History<W>, ds: seq<Dispatch<W>>, calls: seq<Slot<W>>, script: Script<W>,
                           pri: map<W, nat>, p: nat, dummy: W)
    requires Dispatches(ds, calls, script, pri, dummy) && dummy !in pri
    requires p < |ds[0].ss| && h.st == ds[0].ss[p] && Balanced(h, dummy)
    requires p < ds[|calls|].below <= |ds[|calls|].ss| && Top(ds[|calls|]) == None
    ensures forall i :: 0 <= i < |calls| ==> ds[i].below <= |ds[i].ss|
    ensures var b := Books(DispatchLog(h, ds, script, pri, p, dummy, |calls|).log);
            && b.open == [] && Numbered(b.settled)
            && AllOwing(CallsMade(h.log) + CallsAt(ds, calls, p, |calls|), b.settled, dummy)
  {
    DispatchDepth(ds, calls, script, pri, dummy);
    DispatchBalances(h, ds, calls, script, pri, p, dummy, |calls|);
    var b := Books(DispatchLog(h, ds, script, pri, p, dummy, |calls|).log);
    assert b.settled + b.open == b.settled;
  }
}
