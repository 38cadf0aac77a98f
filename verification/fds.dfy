/**
  Interest in descriptors (deps/ev/ev.c): watcher lists that change at once, a
  queue of changed descriptors, and fd_reify, which brings the backend up to
  date.  With epoll the backend may kill a descriptor while fd_reify runs.
 */
module Descriptors {
  import opened Basics
  import opened Watchers
  import opened WatcherLists
  import opened PendingStacks
  import opened PendingQueues
  import opened PollBackends
  import opened SelectBackends
  import Arrays

  datatype ReifyFlag = Reify | FdSet

  datatype Anfd = Anfd(head: Watcher?, events: Mask, reify: set<ReifyFlag>, emask: Mask)

  datatype BackendKind = UsePoll | UseSelect | UseEpoll

  // what epoll_ctl may answer
  datatype CtlResult = CtlOk | ENOENT | EEXIST | EPERM | OtherError

  datatype CtlOp = CtlAdd | CtlMod

  datatype Ctl = Ctl(op: CtlOp, result: CtlResult)

  const SIZEOF_ANFD: nat := 16

  // what the backend was last told about fd
  function EventsAt(anfds: seq<Anfd>, fd: nat): Mask {
    if fd < |anfds| then anfds[fd].events else {}
  }

  // epoll_modify leaves in emask what the kernel is assumed to watch for, or the note that it refused
  ghost predicate EmasksOk(anfds: seq<Anfd>, eperms: seq<int>) {
    forall fd :: 0 <= fd < |anfds| ==>
      && (anfds[fd].events != {} ==> anfds[fd].emask == anfds[fd].events || anfds[fd].emask == {EmaskEperm})
      && (EmaskEperm in anfds[fd].emask ==> fd in eperms)
  }

  // ---------- what epoll is told ----------

  // the calls of epoll_modify: ADD or MOD, and the other one if that turns out to be wrong
  predicate Dialogue(oev: Mask, oldmask: Mask, nev: Mask, calls: seq<Ctl>) {
    && calls != [] && calls[0].op == (if oev != {} && oldmask != nev then CtlMod else CtlAdd)
    && |calls| == (if calls[0].result == ENOENT || (calls[0].result == EEXIST && oldmask != nev) then 2 else 1)
    && (|calls| == 2 ==> calls[1].op == if calls[0].result == ENOENT then CtlAdd else CtlMod)
  }

  predicate Refused(calls: seq<Ctl>) {
    |calls| == 1 && calls[0].result == EPERM
  }

  predicate Fatal(calls: seq<Ctl>) {
    (|calls| == 1 && calls[0].result == OtherError) || (|calls| == 2 && calls[1].result != CtlOk)
  }

  // The call finds the descriptor in the kernel's set with the mask `found`, or not at all, and leaves it as
  // `left`: ADD wants it out of the set, MOD wants it in, and a call that fails changes nothing.
  ghost predicate Answers(found: Option<Mask>, call: Ctl, nev: Mask, left: Option<Mask>) {
    match call.result
    case CtlOk => (call.op == CtlAdd <==> found.None?) && left == Some(nev)
    case EEXIST => call.op == CtlAdd && found.Some? && left == found
    case ENOENT => call.op == CtlMod && found.None? && left == found
    case EPERM => left == found
    case OtherError => left == found
  }

  // closing a descriptor takes it out of the set
  ghost predicate Dropped(k: Option<Mask>, k': Option<Mask>) {
    k' == k || k' == None
  }

  // a descriptor as epoll_modify and the kernel see it; `live` says that it was neither killed nor refused
  datatype EpollFd = EpollFd(events: Mask, emask: Mask, kernel: Option<Mask>, live: bool)

  // one epoll_modify with new events nev: what the first call found and left, and what the last one found
  datatype EpollTurn = EpollTurn(nev: Mask, calls: seq<Ctl>, first: Option<Mask>, mid: Option<Mask>, last: Option<Mask>)

  ghost predicate EpollStep(s: EpollFd, turn: EpollTurn, t: EpollFd) {
    if turn.nev == {} then Dropped(s.kernel, t.kernel) && t == s.(events := {}, kernel := t.kernel)
    else
      && turn.nev <= {Read, Write} && Dialogue(s.events, s.emask, turn.nev, turn.calls)
      && Dropped(s.kernel, turn.first)
      && (if |turn.calls| == 1 then turn.last == turn.first && Answers(turn.first, turn.calls[0], turn.nev, t.kernel)
          else Answers(turn.first, turn.calls[0], turn.nev, turn.mid) && Dropped(turn.mid, turn.last)
               && Answers(turn.last, turn.calls[1], turn.nev, t.kernel))
      && t.emask == (if Refused(turn.calls) then {EmaskEperm} else turn.nev)
      && t.events == turn.nev && t.live == (!Fatal(turn.calls) && !Refused(turn.calls))
  }

  ghost predicate EpollHistory(ss: seq<EpollFd>, turns: seq<EpollTurn>) {
    |ss| == |turns| + 1 && forall i :: 0 <= i < |turns| ==> EpollStep(ss[i], turns[i], ss[i + 1])
  }

  // the last call failed for good while the kernel watched for something else
  predicate Stranded(turn: EpollTurn) {
    turn.nev != {} && Fatal(turn.calls) && turn.last.Some? && turn.last.value != turn.nev
  }

  // if the kernel watches at all it uses the recorded mask, or the record says that it refused
  ghost predicate RecordOk(s: EpollFd) {
    s.kernel.Some? ==> s.kernel.value == s.emask || s.emask == {EmaskEperm}
  }

  // after a turn that asked for something and was neither refused nor fatal, the kernel watches for just that
  ghost predicate Follows(turn: EpollTurn, t: EpollFd) {
    turn.nev != {} && t.live ==> t.kernel == Some(turn.nev)
  }

  // a record that epoll_modify can have left
  ghost predicate Recorded(s: EpollFd) {
    s.kernel.Some? ==> s.emask == {EmaskEperm} || (s.emask != {} && s.emask <= {Read, Write})
  }

  // One turn: what is skipped on a right record does no harm, and the record stays right unless the turn is stranded.
  lemma TurnFollows(s: EpollFd, turn: EpollTurn, t: EpollFd)
    requires EpollStep(s, turn, t) && RecordOk(s) && Recorded(s)
    ensures Follows(turn, t) && Recorded(t) && (RecordOk(t) <==> !Stranded(turn))
  {
  }

  ghost predicate NoneStranded(turns: seq<EpollTurn>) {
    forall i :: 0 <= i < |turns| ==> !Stranded(turns[i])
  }

  lemma {:induction false} HistoryRecorded(ss: seq<EpollFd>, turns: seq<EpollTurn>, n: nat)
    requires EpollHistory(ss, turns) && Recorded(ss[0]) && n <= |turns|
    ensures Recorded(ss[n])
  {
    if n > 0 {
      HistoryRecorded(ss, turns, n - 1);
      assert EpollStep(ss[n - 1], turns[n - 1], ss[n]);
    }
  }

  lemma {:induction false} HistoryFollows(ss: seq<EpollFd>, turns: seq<EpollTurn>, n: nat)
    requires EpollHistory(ss, turns) && RecordOk(ss[0]) && Recorded(ss[0]) && NoneStranded(turns) && n <= |turns|
    ensures RecordOk(ss[n]) && Recorded(ss[n])
    ensures n > 0 ==> Follows(turns[n - 1], ss[n])
  {
    if n > 0 {
      HistoryFollows(ss, turns, n - 1);
      TurnFollows(ss[n - 1], turns[n - 1], ss[n]);
    }
  }

  // Over any history, with the descriptor closed and opened again at any time: the record stays right iff no
  // turn is stranded, and then the kernel follows every turn.
  lemma KernelFollows(ss: seq<EpollFd>, turns: seq<EpollTurn>)
    requires EpollHistory(ss, turns) && RecordOk(ss[0]) && Recorded(ss[0])
    ensures (forall i :: 0 <= i < |ss| ==> RecordOk(ss[i])) <==> NoneStranded(turns)
    ensures NoneStranded(turns) ==> forall i :: 0 <= i < |turns| ==> Follows(turns[i], ss[i + 1])
  {
    if NoneStranded(turns) {
      forall i | 0 <= i < |ss|
        ensures RecordOk(ss[i])
      {
        HistoryFollows(ss, turns, i);
      }
      forall i | 0 <= i < |turns|
        ensures Follows(turns[i], ss[i + 1])
      {
        HistoryFollows(ss, turns, i + 1);
      }
    } else {
      var i :| 0 <= i < |turns| && Stranded(turns[i]);
      HistoryRecorded(ss, turns, i);
      if RecordOk(ss[i]) {
        TurnFollows(ss[i], turns[i], ss[i + 1]);
      }
    }
  }

  // From s on the kernel follows whatever happens, as long as no further turn is stranded.
  ghost predicate FollowsFrom(s: EpollFd) {
    forall ss, turns :: EpollHistory(ss, turns) && ss[0] == s && NoneStranded(turns) ==>
      forall i :: 0 <= i < |turns| ==> Follows(turns[i], ss[i + 1])
  }

  // A wrong record misleads: stop watching, ask for what is recorded, and nobody tells the kernel.
  lemma WrongRecordMisleads(s: EpollFd) returns (ss: seq<EpollFd>, turns: seq<EpollTurn>)
    requires Recorded(s) && !RecordOk(s)
    ensures EpollHistory(ss, turns) && ss[0] == s && NoneStranded(turns)
    ensures |turns| == 2 && !Follows(turns[1], ss[2])
  {
    var idle := s.(events := {});
    var asking := s.(events := s.emask, live := true);
    var again := EpollTurn(s.emask, [Ctl(CtlAdd, EEXIST)], s.kernel, s.kernel, s.kernel);
    ss, turns := [s, idle, asking], [EpollTurn({}, [], None, None, None), again];
    assert EpollStep(ss[0], turns[0], ss[1]) && EpollStep(ss[1], turns[1], ss[2]);
  }

  // So a stranded turn is exactly what spoils the future: the kernel follows from then on iff it was none.
  lemma StrandedDecides(s: EpollFd, turn: EpollTurn, t: EpollFd)
    requires EpollStep(s, turn, t) && RecordOk(s) && Recorded(s)
    ensures FollowsFrom(t) <==> !Stranded(turn)
  {
    TurnFollows(s, turn, t);
    if Stranded(turn) {
      var ss, turns := WrongRecordMisleads(t);
    } else {
      forall ss, turns | EpollHistory(ss, turns) && ss[0] == t && NoneStranded(turns)
        ensures forall i :: 0 <= i < |turns| ==> Follows(turns[i], ss[i + 1])
      {
        KernelFollows(ss, turns);
      }
    }
  }

  // For instance: a MOD from Read to Write fails, and later Write is asked for again.
  lemma FailedModStrands()
    ensures var s, t, u := EpollFd({Read}, {Read}, Some({Read}), true), EpollFd({Write}, {Write}, Some({Read}), false),
                           EpollFd({Write}, {Write}, Some({Read}), true);
      exists turns: seq<EpollTurn> :: |turns| == 3 && EpollHistory([s, t, t.(events := {}), u], turns)
  {
    var r, w := Some({Read}), {Write};
    var turns := [EpollTurn(w, [Ctl(CtlMod, OtherError)], r, r, r), EpollTurn({}, [], None, None, None),
                  EpollTurn(w, [Ctl(CtlAdd, EEXIST)], r, r, r)];
    var s, t, u := EpollFd({Read}, {Read}, r, true), EpollFd(w, w, r, false), EpollFd(w, w, r, true);
    var ss := [s, t, t.(events := {}), u];
    assert {Read} != w by {
      assert Read in {Read} && Read !in w;
    }
    assert EpollStep(ss[0], turns[0], ss[1]) && EpollStep(ss[1], turns[1], ss[2]) && EpollStep(ss[2], turns[2], ss[3]);
    assert EpollHistory(ss, turns);
  }

  // ---------- the log of what epoll was told ----------

  // one epoll_modify, or a descriptor that was closed and perhaps opened again
  datatype Told =
    | Told(fd: nat, nev: Mask, calls: seq<Ctl>)
    | Closed(fd: nat)

  // the events and the emask of a descriptor after the turns of a log
  ghost function Known(told: seq<Told>, fd: nat): (Mask, Mask) {
    if told == [] then ({}, {})
    else
      var before, last := Known(told[..|told| - 1], fd), told[|told| - 1];
      if last.fd != fd || last.Closed? then before
      else (last.nev, if last.nev == {} then before.1 else if Refused(last.calls) then {EmaskEperm} else last.nev)
  }

  ghost predicate ToldRightly(before: seq<Told>, x: Told) {
    x.Told? ==>
    && x.nev <= {Read, Write}
    && if x.nev == {} then x.calls == [] else Dialogue(Known(before, x.fd).0, Known(before, x.fd).1, x.nev, x.calls)
  }

  ghost predicate RightLog(told: seq<Told>) {
    forall i :: 0 <= i < |told| ==> ToldRightly(told[..i], told[i])
  }

  // the descriptor was closed after the last epoll_modify for it
  ghost predicate Stale(told: seq<Told>, fd: nat) {
    if told == [] then false
    else if told[|told| - 1].fd == fd then told[|told| - 1].Closed?
    else Stale(told[..|told| - 1], fd)
  }

  // what was closed, in order
  function Closes(told: seq<Told>): seq<nat> {
    if told == [] then []
    else
      var last := told[|told| - 1];
      Closes(told[..|told| - 1]) + if last.Closed? then [last.fd] else []
  }

  // nothing was logged since but calls of epoll_modify
  ghost predicate ToldOnly(before: seq<Told>, told: seq<Told>) {
    before <= told && forall i :: |before| <= i < |told| ==> told[i].Told?
  }

  lemma ToldOn(a: seq<Told>, b: seq<Told>, c: seq<Told>)
    requires ToldOnly(a, b) && ToldOnly(b, c)
    ensures ToldOnly(a, c) == true
  {
  }

  lemma {:induction false} NothingClosed(before: seq<Told>, told: seq<Told>)
    requires ToldOnly(before, told)
    ensures Closes(told) == Closes(before)
  {
    if |told| > |before| {
      NothingClosed(before, told[..|told| - 1]);
    } else {
      assert told == before;
    }
  }

  // a descriptor that was closed and is up to date has been told about since
  lemma {:induction false} ToldSince(told: seq<Told>, n: nat, fd: nat)
    requires n < |told| && told[n] == Closed(fd) && !Stale(told, fd)
    ensures exists i :: n < i < |told| && told[i].Told? && told[i].fd == fd
  {
    var last := |told| - 1;
    if told[last].fd != fd {
      ToldSince(told[..last], n, fd);
      var i :| n < i < last && told[..last][i].Told? && told[..last][i].fd == fd;
      assert told[i].Told?;
    }
  }

  lemma ClosedThenTold(told0: seq<Told>, told: seq<Told>, fd: nat)
    requires ToldOnly(told0 + [Closed(fd)], told) == true && !Stale(told, fd)
    ensures |told| > |told0| && told[|told0|] == Closed(fd)
    ensures exists i :: |told0| < i < |told| && told[i].Told? && told[i].fd == fd
  {
    assert told[|told0|] == (told0 + [Closed(fd)])[|told0|];
    ToldSince(told, |told0|, fd);
  }

  function ReifyAt(anfds: seq<Anfd>, fd: nat): set<ReifyFlag> {
    if fd < |anfds| then anfds[fd].reify else {}
  }

  // Descriptors closed since epoll was told are due to be told about, save for those that nobody has set anew.
  ghost predicate Renewing(told: seq<Told>, gone: set<nat>, anfds: seq<Anfd>) {
    forall fd: nat :: Stale(told, fd) && fd !in gone ==> FdSet in ReifyAt(anfds, fd)
  }

  function EmaskAt(anfds: seq<Anfd>, fd: nat): Mask {
    if fd < |anfds| then anfds[fd].emask else {}
  }

  // the log is one of epoll_modify, and leads to the records of the loop
  ghost predicate Accounted(told: seq<Told>, gone: set<nat>, anfds: seq<Anfd>) {
    && RightLog(told) && (forall fd: nat :: Known(told, fd) == (EventsAt(anfds, fd), EmaskAt(anfds, fd)))
    && Renewing(told, gone, anfds)
  }

  lemma ToldMore(told: seq<Told>, gone: set<nat>, x: Told, before: seq<Anfd>, as': seq<Anfd>)
    requires Accounted(told, gone, before) && x.Told? && ToldRightly(told, x)
    requires |before| == |as'| && x.fd < |as'| && as'[x.fd].events == x.nev
    requires forall g :: 0 <= g < |as'| && g != x.fd ==> as'[g].events == before[g].events && as'[g].emask == before[g].emask
    requires forall g :: 0 <= g < |as'| && g != x.fd && FdSet in before[g].reify ==> FdSet in as'[g].reify
    requires as'[x.fd].emask == if x.nev == {} then before[x.fd].emask else if Refused(x.calls) then {EmaskEperm} else x.nev
    ensures Accounted(told + [x], gone, as') == true
  {
    var r := told + [x];
    assert r[..|told|] == told;
    forall fd: nat
      ensures Known(r, fd) == (EventsAt(as', fd), EmaskAt(as', fd))
    {
      assert Known(told, fd) == (EventsAt(before, fd), EmaskAt(before, fd));
    }
    forall i | 0 <= i < |r|
      ensures ToldRightly(r[..i], r[i])
    {
      if i < |told| {
        assert r[..i] == told[..i] && r[i] == told[i];
      }
    }
  }

  lemma ClosedMore(told: seq<Told>, gone: set<nat>, fd: nat, anfds: seq<Anfd>)
    requires Accounted(told, gone, anfds)
    ensures Accounted(told + [Closed(fd)], gone + {fd}, anfds) == true
  {
    var r := told + [Closed(fd)];
    assert r[..|told|] == told;
    forall g: nat
      ensures Known(r, g) == Known(told, g) && (g != fd ==> (Stale(r, g) <==> Stale(told, g)))
    {
    }
    forall i | 0 <= i < |r|
      ensures ToldRightly(r[..i], r[i])
    {
      if i < |told| {
        assert r[..i] == told[..i] && r[i] == told[i];
      }
    }
  }

  lemma StillAccounted(told: seq<Told>, gone: set<nat>, before: seq<Anfd>, gone': set<nat>, as': seq<Anfd>)
    requires Accounted(told, gone, before)
    requires forall fd: nat :: FdSet in ReifyAt(before, fd) || (fd in gone && fd !in gone') ==> FdSet in ReifyAt(as', fd)
    requires forall fd: nat :: EventsAt(as', fd) == EventsAt(before, fd) && EmaskAt(as', fd) == EmaskAt(before, fd)
    ensures Accounted(told, gone', as')
  {
  }

  // how the kernel's mask for the descriptor went along with one epoll_modify
  datatype Reaction = Reaction(first: Option<Mask>, mid: Option<Mask>, last: Option<Mask>, left: Option<Mask>)

  ghost predicate Reacts(k: Option<Mask>, x: Told, r: Reaction) {
    if x.Closed? || x.nev == {} then Dropped(k, r.left)
    else
      && Dropped(k, r.first)
      && if |x.calls| == 1 then r.last == r.first && Answers(r.first, x.calls[0], x.nev, r.left)
         else
           && |x.calls| == 2 && Answers(r.first, x.calls[0], x.nev, r.mid)
           && Dropped(r.mid, r.last) && Answers(r.last, x.calls[1], x.nev, r.left)
  }

  function TurnFor(x: Told, r: Reaction): EpollTurn
    requires x.Told?
  {
    EpollTurn(x.nev, x.calls, r.first, r.mid, r.last)
  }

  ghost function NextEpoll(s: EpollFd, x: Told, r: Reaction): EpollFd {
    if x.Closed? then s.(kernel := r.left)
    else if x.nev == {} then s.(events := {}, kernel := r.left)
    else EpollFd(x.nev, if Refused(x.calls) then {EmaskEperm} else x.nev, r.left, !Fatal(x.calls) && !Refused(x.calls))
  }

  // one descriptor after the turns of a log and the kernel's reactions to them
  ghost function EpollAfter(told: seq<Told>, rs: seq<Reaction>, fd: nat): EpollFd
    requires |rs| == |told|
  {
    if told == [] then EpollFd({}, {}, None, false)
    else
      var n := |told| - 1;
      var before := EpollAfter(told[..n], rs[..n], fd);
      if told[n].fd == fd then NextEpoll(before, told[n], rs[n]) else before
  }

  // a kernel may have reacted like this, and no turn was stranded
  ghost predicate Smooth(told: seq<Told>, rs: seq<Reaction>, fd: nat) {
    && |rs| == |told|
    && forall i :: 0 <= i < |told| && told[i].fd == fd ==>
         && Reacts(EpollAfter(told[..i], rs[..i], fd).kernel, told[i], rs[i])
         && (told[i].Told? ==> !Stranded(TurnFor(told[i], rs[i])))
  }

  // what epoll_modify does and the kernel's reaction make a step of the relation above
  lemma ModifyIsStep(s: EpollFd, x: Told, r: Reaction)
    requires x.Told? && x.nev <= {Read, Write} && Reacts(s.kernel, x, r)
    requires if x.nev == {} then x.calls == [] else Dialogue(s.events, s.emask, x.nev, x.calls)
    ensures EpollStep(s, TurnFor(x, r), NextEpoll(s, x, r))
  {
  }

  lemma SmoothBefore(told: seq<Told>, rs: seq<Reaction>, fd: nat)
    requires Smooth(told, rs, fd) && RightLog(told) && told != []
    ensures var n := |told| - 1; Smooth(told[..n], rs[..n], fd) && RightLog(told[..n])
  {
    var n := |told| - 1;
    forall i | 0 <= i < n
      ensures told[..n][..i] == told[..i] && rs[..n][..i] == rs[..i]
    {
    }
    assert forall i :: 0 <= i < n ==> ToldRightly(told[..i], told[i]);
  }

  // Unless a turn was stranded, the kernel watches for what the descriptor was last wanted for, if it was
  // neither refused nor killed then, nor closed since.
  lemma {:induction false} KernelWatches(told: seq<Told>, rs: seq<Reaction>, fd: nat)
    requires RightLog(told) && Smooth(told, rs, fd)
    ensures var s := EpollAfter(told, rs, fd);
      && RecordOk(s) && Recorded(s) && (s.events, s.emask) == Known(told, fd)
      && (s.events != {} && s.live && !Stale(told, fd) ==> s.kernel == Some(s.events))
  {
    if told != [] {
      var n := |told| - 1;
      var before := EpollAfter(told[..n], rs[..n], fd);
      SmoothBefore(told, rs, fd);
      KernelWatches(told[..n], rs[..n], fd);
      if told[n] == Closed(fd) {
        assert Dropped(before.kernel, rs[n].left);
      } else if told[n].fd == fd {
        assert ToldRightly(told[..n], told[n]);
        ModifyIsStep(before, told[n], rs[n]);
        TurnFollows(before, TurnFor(told[n], rs[n]), NextEpoll(before, told[n], rs[n]));
      }
    }
  }

  lemma SmoothMore(told: seq<Told>, rs: seq<Reaction>, x: Told, r: Reaction, fd: nat)
    requires |rs| == |told|
    ensures Smooth(told + [x], rs + [r], fd) <==>
            && Smooth(told, rs, fd)
            && (x.fd == fd ==> Reacts(EpollAfter(told, rs, fd).kernel, x, r) && (x.Told? ==> !Stranded(TurnFor(x, r))))
    ensures EpollAfter(told + [x], rs + [r], fd) ==
            var s := EpollAfter(told, rs, fd); if x.fd == fd then NextEpoll(s, x, r) else s
  {
    var more, rs' := told + [x], rs + [r];
    assert more[..|told|] == told && rs'[..|told|] == rs && more[|told|] == x && rs'[|told|] == r;
    forall i | 0 <= i < |told|
      ensures more[..i] == told[..i] && rs'[..i] == rs[..i] && more[i] == told[i] && rs'[i] == rs[i]
    {
    }
    if Smooth(more, rs', fd) {
      forall i | 0 <= i < |told| && told[i].fd == fd
        ensures Reacts(EpollAfter(told[..i], rs[..i], fd).kernel, told[i], rs[i])
        ensures told[i].Told? ==> !Stranded(TurnFor(told[i], rs[i]))
      {
        assert more[i].fd == fd;
      }
    }
  }

  // A descriptor that was closed since may be one that the kernel does not watch, whatever it did before.
  lemma {:induction false} StaleUnwatched(told: seq<Told>, rs: seq<Reaction>, fd: nat) returns (rs': seq<Reaction>)
    requires Smooth(told, rs, fd) && Stale(told, fd)
    ensures Smooth(told, rs', fd) && EpollAfter(told, rs', fd) == EpollAfter(told, rs, fd).(kernel := None)
  {
    var n := |told| - 1;
    var before, x, bs, r := told[..n], told[n], rs[..n], rs[n];
    assert told == before + [x] && rs == bs + [r];
    SmoothMore(before, bs, x, r, fd);
    if x.fd == fd {
      rs' := bs + [r.(left := None)];
      SmoothMore(before, bs, x, r.(left := None), fd);
    } else {
      var bs' := StaleUnwatched(before, bs, fd);
      rs' := bs' + [r];
      SmoothMore(before, bs', x, r, fd);
    }
  }

  // ---------- the queue of changes, as values ----------

  // changes[k..] lists every descriptor with a reify flag once, and nothing else
  ghost predicate Queued(changes: seq<int>, k: nat, anfds: seq<Anfd>) {
    && (forall i :: k <= i < |changes| ==> 0 <= changes[i] < |anfds| && anfds[changes[i]].reify != {})
    && (forall i, j :: k <= i < j < |changes| ==> changes[i] != changes[j])
    && (forall fd :: 0 <= fd < |anfds| && anfds[fd].reify != {} ==> exists i :: k <= i < |changes| && changes[i] == fd)
  }

  lemma QueueMore(changes: seq<int>, k: nat, anfds: seq<Anfd>, fd: nat, a: Anfd)
    requires Queued(changes, k, anfds) && k <= |changes| && fd < |anfds| && anfds[fd].reify == {} && a.reify != {}
    ensures Queued(changes + [fd], k, anfds[fd := a])
  {
    var cs, as' := changes + [fd], anfds[fd := a];
    forall g | 0 <= g < |as'| && as'[g].reify != {}
      ensures exists i :: k <= i < |cs| && cs[i] == g
    {
      if g == fd {
        assert cs[|changes|] == g;
      } else {
        var i :| k <= i < |changes| && changes[i] == g;
        assert cs[i] == g;
      }
    }
  }

  lemma QueueSame(changes: seq<int>, k: nat, anfds: seq<Anfd>, fd: nat, a: Anfd)
    requires Queued(changes, k, anfds) && fd < |anfds| && anfds[fd].reify != {} && a.reify != {}
    ensures Queued(changes, k, anfds[fd := a])
  {
  }

  // only the reify flags matter
  lemma QueueReflag(changes: seq<int>, k: nat, anfds: seq<Anfd>, as': seq<Anfd>)
    requires Queued(changes, k, anfds) && |anfds| == |as'|
    requires forall fd :: 0 <= fd < |anfds| ==> as'[fd].reify == anfds[fd].reify
    ensures Queued(changes, k, as')
  {
    forall g | 0 <= g < |as'| && as'[g].reify != {}
      ensures exists i :: k <= i < |changes| && changes[i] == g
    {
      assert anfds[g].reify != {};
    }
  }

  lemma QueueTake(changes: seq<int>, k: nat, anfds: seq<Anfd>, a: Anfd)
    requires Queued(changes, k, anfds) && k < |changes| && a.reify == {}
    requires 0 <= changes[k] < |anfds|
    ensures Queued(changes, k + 1, anfds[changes[k] := a])
  {
    var fd := changes[k];
    var as' := anfds[fd := a];
    forall g | 0 <= g < |as'| && as'[g].reify != {}
      ensures exists i :: k + 1 <= i < |changes| && changes[i] == g
    {
      var i :| k <= i < |changes| && changes[i] == g;
    }
  }

  lemma QueueGrow(changes: seq<int>, k: nat, anfds: seq<Anfd>, more: seq<Anfd>)
    requires Queued(changes, k, anfds) && forall i :: 0 <= i < |more| ==> more[i].reify == {}
    ensures Queued(changes, k, anfds + more)
  {
    var as' := anfds + more;
    forall g | 0 <= g < |as'| && as'[g].reify != {}
      ensures exists i :: k <= i < |changes| && changes[i] == g
    {
      assert g < |anfds| && anfds[g].reify != {};
    }
  }

  // how many watchers there are
  ghost function Total(lists: seq<seq<Watcher>>): nat {
    if lists == [] then 0 else Total(lists[..|lists| - 1]) + |lists[|lists| - 1]|
  }

  lemma {:induction false} TotalUpdate(lists: seq<seq<Watcher>>, fd: nat, l: seq<Watcher>)
    requires fd < |lists|
    ensures Total(lists[fd := l]) == Total(lists) - |lists[fd]| + |l|
  {
    var r := lists[fd := l];
    if fd == |lists| - 1 {
      assert r[..fd] == lists[..fd];
    } else {
      assert r[..|lists| - 1] == lists[..|lists| - 1][fd := l];
      TotalUpdate(lists[..|lists| - 1], fd, l);
    }
  }

  // ---------- events from the backend, as values ----------

  // what fd_event feeds to the watchers l, which ask for what asked says
  ghost function Reports(l: seq<Watcher>, asked: map<Watcher, Mask>, revents: Mask): (r: seq<Op<Watcher>>) {
    if l == [] then []
    else
      var w := l[|l| - 1];
      var ev := if w in asked then asked[w] * revents else {};
      Reports(l[..|l| - 1], asked, revents) + if ev == {} then [] else [OpFeed(w, ev)]
  }

  lemma {:induction false} ReportsAre(l: seq<Watcher>, asked: map<Watcher, Mask>, revents: Mask)
    requires Distinct(l) && forall w :: w in l ==> w in asked
    ensures var r := Reports(l, asked, revents);
            && (forall i, j :: 0 <= i < j < |r| ==> r[i] != r[j])
            && forall op :: op in r <==> op.OpFeed? && op.w in l && op.revents == asked[op.w] * revents != {}
  {
    if l != [] {
      var rest, w := l[..|l| - 1], l[|l| - 1];
      ReportsAre(rest, asked, revents);
      assert forall v :: v in l <==> v in rest || v == w;
      assert w !in rest;
    }
  }

  // feeding the watchers l turned the stacks ss into r
  ghost predicate FedTo(ss: Stacks<Watcher>, l: seq<Watcher>, asked: map<Watcher, Mask>, revents: Mask,
                        prim: map<Watcher, nat>, dummy: Watcher, r: Stacks<Watcher>) {
    && |ss| == NUMPRI && Behaves(Reports(l, asked, revents), prim, NUMPRI)
    && r == ActAll(ss, Reports(l, asked, revents), prim, dummy)
  }

  // one more watcher on the list; r is what its feed, if there is one, makes of the stacks
  lemma ReportMore(w: Watcher, revents: Mask, l: seq<Watcher>, asked: map<Watcher, Mask>, ss: Stacks<Watcher>,
                   prim: map<Watcher, nat>, dummy: Watcher, before: Stacks<Watcher>, r: Stacks<Watcher>)
    requires FedTo(ss, l, asked, revents, prim, dummy, before) && w in prim && prim[w] < NUMPRI && w in asked
    requires r == if asked[w] * revents == {} then before else FeedAt(before, prim[w], w, asked[w] * revents)
    ensures FedTo(ss, l + [w], asked, revents, prim, dummy, r) == true
  {
    assert (l + [w])[..|l|] == l;
    var ev, ops := asked[w] * revents, Reports(l, asked, revents);
    if ev == {} {
      assert ops + [] == ops;
    } else {
      ActOneMore(ss, ops, OpFeed(w, ev), prim, dummy);
    }
  }

  // the I/O watchers: who is active, on which descriptor, and for which events
  datatype IoState = IoState(active: set<Watcher>, fd: map<Watcher, int>, asked: map<Watcher, Mask>)

  // the lists hold just the active watchers
  ghost predicate ListsOf(lists: seq<seq<Watcher>>, io: IoState) {
    && (forall w :: w in io.active ==> w in io.fd && 0 <= io.fd[w] < |lists| && w in lists[io.fd[w]])
    && forall fd :: 0 <= fd < |lists| ==>
         Distinct(lists[fd]) && forall w :: w in lists[fd] ==> w in io.active && w in io.fd && io.fd[w] == fd
  }

  // only active watchers are killed, and all those of a descriptor together
  ghost predicate KilledWhole(io: IoState, ks: seq<Watcher>) {
    forall w :: w in ks ==>
      w in io.active && w in io.fd && forall v :: v in io.active && v in io.fd && io.fd[v] == io.fd[w] ==> v in ks
  }

  // what a number of reports, each a descriptor with its events, feed
  ghost function AllReports(lists: seq<seq<Watcher>>, asked: map<Watcher, Mask>, reports: seq<(nat, Mask)>)
    : seq<Op<Watcher>> {
    if reports == [] then []
    else
      var (fd, revents) := reports[|reports| - 1];
      AllReports(lists, asked, reports[..|reports| - 1]) + if fd < |lists| then Reports(lists[fd], asked, revents) else []
  }

  // somebody active asks for something of fd
  ghost predicate Wanted(io: IoState, fd: nat) {
    exists w :: w in io.active && w in io.fd && w in io.asked && io.fd[w] == fd && io.asked[w] != {}
  }

  // the answer of the kernel, as far as it is about descriptors that somebody wants
  ghost function Heard(io: IoState, answer: seq<(nat, Mask)>): seq<(nat, Mask)> {
    if answer == [] then []
    else
      var last := answer[|answer| - 1];
      Heard(io, answer[..|answer| - 1]) + if Wanted(io, last.0) then [last] else []
  }

  // the poll reports just what the kernel answers about descriptors of active watchers, and each report feeds
  // those that ask for it
  ghost predicate PollOk(io: IoState, answer: seq<(nat, Mask)>, ss: Stacks<Watcher>, lists: seq<seq<Watcher>>,
                         reports: seq<(nat, Mask)>, r: Stacks<Watcher>, prim: map<Watcher, nat>, dummy: Watcher) {
    && reports == Heard(io, answer) && ListsOf(lists, io)
    && (forall i :: 0 <= i < |reports| ==> reports[i].0 < |lists| && lists[reports[i].0] != [])
    && |ss| == NUMPRI && Behaves(AllReports(lists, io.asked, reports), prim, NUMPRI)
    && r == ActAll(ss, AllReports(lists, io.asked, reports), prim, dummy)
  }

  lemma OneMoreReport(lists: seq<seq<Watcher>>, asked: map<Watcher, Mask>, reports: seq<(nat, Mask)>, i: nat,
                      ss: Stacks<Watcher>, prim: map<Watcher, nat>, dummy: Watcher, before: Stacks<Watcher>, r: Stacks<Watcher>)
    requires i < |reports| && reports[i].0 < |lists| && |ss| == NUMPRI
    requires Behaves(AllReports(lists, asked, reports[..i]), prim, NUMPRI)
    requires Behaves(Reports(lists[reports[i].0], asked, reports[i].1), prim, NUMPRI)
    requires before == ActAll(ss, AllReports(lists, asked, reports[..i]), prim, dummy)
    requires r == ActAll(before, Reports(lists[reports[i].0], asked, reports[i].1), prim, dummy)
    ensures Behaves(AllReports(lists, asked, reports[..i + 1]), prim, NUMPRI)
    ensures r == ActAll(ss, AllReports(lists, asked, reports[..i + 1]), prim, dummy)
  {
    assert reports[..i + 1][..i] == reports[..i];
    ActAllMore(ss, AllReports(lists, asked, reports[..i]), Reports(lists[reports[i].0], asked, reports[i].1), prim, dummy);
  }

  // ---------- the loop ----------

  // l is the watcher list of fd: active watchers of a descriptor, all of them among ws
  ghost predicate Listed(head: Watcher?, l: seq<Watcher>, fd: int, ws: set<Watcher>)
    reads ws`next, ws`active, ws`fd, ws`events, ws`priority
  {
    && (forall i :: 0 <= i < |l| ==> l[i] in ws)
    && Chained(head, l) && Distinct(l)
    && forall i :: 0 <= i < |l| ==>
         l[i].fd == fd && l[i].active == 1 && l[i].events <= {Read, Write} && l[i].HasPriority()
  }

  class FdLoop {
    var anfds: seq<Anfd>
    var fdchanges: seq<int>
    var epoll_eperms: seq<int>
    ghost var told: seq<Told>           // what epoll_modify was called for
    ghost var gone: set<nat>            // closed, and not asked for by a watcher that was set since
    ghost var kills: seq<Watcher>       // the watchers killed since the last fd_reify began
    var activecnt: int
    ghost var lists: seq<seq<Watcher>>  // the watchers of each descriptor
    ghost const ws: set<Watcher>
    const pq: PendingQueue
    const backend: BackendKind
    const poll: PollBackend
    const sel: SelectBackend

    constructor (pq: PendingQueue, backend: BackendKind, poll: PollBackend, sel: SelectBackend, ghost ws: set<Watcher>)
      requires pq.Valid() && ws <= pq.ws && poll.Valid() && sel.Valid()
      requires forall w :: w in ws ==> w.active == 0
      requires forall fd: nat :: poll.Asked(fd) == {} && sel.Asked(fd) == {}
      ensures this.pq == pq && this.backend == backend && this.poll == poll && this.sel == sel && this.ws == ws
      ensures ListsOk() && anfds == [] && lists == [] && fdchanges == [] && epoll_eperms == [] && told == []
      ensures gone == {}
      ensures kills == [] && activecnt == 0
      ensures Valid() && BackendAgrees(anfds, epoll_eperms)
    {
      this.pq, this.backend, this.poll, this.sel, this.ws := pq, backend, poll, sel, ws;
      anfds, fdchanges, epoll_eperms, told, gone, kills, activecnt, lists := [], [], [], [], {}, [], 0, [];
    }

    ghost predicate ListsOk()
      reads this`anfds, this`lists, ws`next, ws`active, ws`fd, ws`events, ws`priority
    {
      && |lists| == |anfds|
      && (forall fd :: 0 <= fd < |lists| ==> Listed(anfds[fd].head, lists[fd], fd, ws))
      && (forall w :: w in ws && w.active != 0 ==> 0 <= w.fd < |lists| && w in lists[w.fd])
    }

    // Only w and the list of its descriptor changed.
    twostate lemma OneListChanged(w: Watcher)
      requires old(ListsOk()) && w in ws && 0 <= w.fd < |lists| == |anfds| == |old(lists)|
      requires Listed(anfds[w.fd].head, lists[w.fd], w.fd, ws)
      requires forall g :: 0 <= g < |lists| && g != w.fd ==> lists[g] == old(lists)[g] && anfds[g] == old(anfds)[g]
      requires forall v :: v in ws && v != w ==> v.active == old(v.active)
      requires forall v :: v in ws && v.fd != w.fd ==> v.next == old(v.next)
      requires forall v :: v in ws ==> v.fd == old(v.fd) && v.events == old(v.events) && v.priority == old(v.priority)
      requires forall v :: v in ws && v.fd == w.fd && v.active != 0 ==> v in lists[w.fd]
      ensures ListsOk()
    {
      forall g | 0 <= g < |lists| && g != w.fd
        ensures Listed(anfds[g].head, lists[g], g, ws)
      {
        assert old(Listed(anfds[g].head, lists[g], g, ws));
      }
    }

    // put w on the list of its descriptor
    method Link(w: Watcher)
      requires ListsOk() && w in ws && w.active == 0 && 0 <= w.fd < |anfds|
      requires w.events <= {Read, Write} && w.HasPriority()
      modifies this`anfds, this`lists, w`next, w`active
      ensures ListsOk()
      ensures lists == old(lists)[w.fd := [w] + old(lists)[w.fd]]
      ensures anfds == old(anfds)[w.fd := old(anfds)[w.fd].(head := anfds[w.fd].head)]
    {
      var fd := w.fd;
      var head := anfds[fd].head;
      ghost var l := lists[fd];
      assert Listed(head, l, fd, ws);
      var h := Push(head, l, w);
      anfds := anfds[fd := anfds[fd].(head := h)];
      lists := lists[fd := [w] + l];
      OneListChanged(w);
    }

    method Push(head: Watcher?, ghost l: seq<Watcher>, w: Watcher) returns (h: Watcher?)
      requires Listed(head, l, w.fd, ws) && w in ws && w.active == 0
      requires w.events <= {Read, Write} && w.HasPriority()
      modifies w`next, w`active
      ensures Listed(h, [w] + l, w.fd, ws)
    {
      w.active := 1;
      h := WlistAdd(head, w, l);
    }

    // take w off the list of its descriptor
    method Unlink(w: Watcher)
      requires ListsOk() && w in ws && w.active != 0
      modifies this`anfds, this`lists, ws`next, w`active
      ensures ListsOk() && w.active == 0
      ensures 0 <= w.fd < |lists| == |old(lists)| && TakenOut(old(lists)[w.fd], w, lists[w.fd])
      ensures lists == old(lists)[w.fd := lists[w.fd]]
      ensures anfds == old(anfds)[w.fd := old(anfds)[w.fd].(head := anfds[w.fd].head)]
    {
      var fd := w.fd;
      var head := anfds[fd].head;
      ghost var l := lists[fd];
      assert Listed(head, l, fd, ws);
      assert forall v :: v in ws && v.fd == fd && v.active != 0 ==> v in l;
      var h, r := Pull(head, l, w);
      anfds := anfds[fd := anfds[fd].(head := h)];
      lists := lists[fd := r];
      OneListChanged(w);
    }

    method Pull(head: Watcher?, ghost l: seq<Watcher>, w: Watcher) returns (h: Watcher?, ghost r: seq<Watcher>)
      requires Listed(head, l, w.fd, ws) && w in l
      modifies ws`next, w`active
      ensures Listed(h, r, w.fd, ws) && w.active == 0 && TakenOut(l, w, r)
      ensures forall v :: v in l && v != w ==> v in r
      ensures forall v :: v in ws && v.fd != w.fd ==> v.next == old(v.next)
    {
      assert forall v :: v in l ==> v in ws && v.fd == w.fd;
      h, r := WlistDel(head, w, l);
      TakenOutMembers(l, w, r);
      w.active := 0;
      assert forall j :: 0 <= j < |r| ==> r[j] in l && r[j] != w;
    }

    // the simple definition: what the active watchers of fd ask for, taken together
    ghost function Interest(fd: int): Mask
      reads ws`active, ws`fd, ws`events
    {
      set w, f | w in ws && w.active != 0 && w.fd == fd && f in w.events :: f
    }

    // descriptors without a pending change are up to date
    ghost predicate InSync()
      reads this`anfds, ws`active, ws`fd, ws`events
    {
      forall fd :: 0 <= fd < |anfds| && anfds[fd].reify == {} ==> anfds[fd].events == Interest(fd)
    }

    // a change of w concerns its own descriptor only
    twostate lemma InterestElsewhere(w: Watcher)
      requires w in ws && w.fd == old(w.fd)
      requires forall v :: v in ws && v != w ==> v.active == old(v.active) && v.fd == old(v.fd) && v.events == old(v.events)
      ensures forall g :: g != w.fd ==> Interest(g) == old(Interest(g))
    {
      forall g | g != w.fd
        ensures Interest(g) == old(Interest(g))
      {
        assert forall v :: v in ws && v.fd == g ==> v.active == old(v.active) && v.events == old(v.events);
      }
    }

    twostate lemma InterestJoined(w: Watcher)
      requires w in ws && w.fd == old(w.fd) && old(w.active) == 0 && w.active != 0
      requires forall v :: v in ws && v != w ==> v.active == old(v.active) && v.fd == old(v.fd) && v.events == old(v.events)
      ensures Interest(w.fd) == old(Interest(w.fd)) + w.events
      ensures forall g :: g != w.fd ==> Interest(g) == old(Interest(g))
    {
      InterestElsewhere(w);
    }

    // fd_change
    method FdChange(fd: nat, flags: set<ReifyFlag>, ghost k: nat)
      requires ListsOk() && Queued(fdchanges, k, anfds) && k <= |fdchanges| && fd < |anfds| && flags != {}
      modifies this`anfds, this`fdchanges
      ensures ListsOk() && Queued(fdchanges, k, anfds) && old(fdchanges) <= fdchanges
      ensures anfds == old(anfds)[fd := old(anfds)[fd].(reify := old(anfds)[fd].reify + flags)]
    {
      var a := anfds[fd];
      var r := a.(reify := a.reify + flags);
      if a.reify == {} {
        QueueMore(fdchanges, k, anfds, fd, r);
        fdchanges := fdchanges + [fd];
      } else {
        QueueSame(fdchanges, k, anfds, fd, r);
      }
      anfds := anfds[fd := r];
    }

    // array_needsize on anfds with array_init_zero
    method GrowAnfds(cnt: nat)
      requires ListsOk() && Queued(fdchanges, 0, anfds) && InSync() && pq.Valid()
      modifies this`anfds, this`lists
      ensures ListsOk() == true && Queued(fdchanges, 0, anfds) == true && InSync() == true && pq.Valid() == true
      ensures forall g :: Interest(g) == old(Interest(g))
      ensures cnt <= |anfds| && old(anfds) <= anfds && old(lists) <= lists
      ensures forall fd :: |old(anfds)| <= fd < |anfds| ==> anfds[fd] == Anfd(null, {}, {}, {}) && lists[fd] == []
    {
      if cnt > |anfds| {
        var n := |anfds|;
        var cur := Arrays.ArrayNextSize(SIZEOF_ANFD, n, cnt);
        Arrays.NextSizeGrows(SIZEOF_ANFD, n, cnt);
        AddDescriptors(cur - n);
      }
    }

    method AddDescriptors(k: nat)
      requires ListsOk() && Queued(fdchanges, 0, anfds) && InSync()
      modifies this`anfds, this`lists
      ensures ListsOk() == true && Queued(fdchanges, 0, anfds) == true && InSync() == true
      ensures |anfds| == |old(anfds)| + k && old(anfds) <= anfds && old(lists) <= lists
      ensures forall fd :: |old(anfds)| <= fd < |anfds| ==> anfds[fd] == Anfd(null, {}, {}, {}) && lists[fd] == []
    {
      var n, more := |anfds|, seq(k, i => Anfd(null, {}, {}, {}));
      QueueGrow(fdchanges, 0, anfds, more);
      anfds := anfds + more;
      lists := lists + seq(k, i => []);
      NewDescriptors(n);
    }

    // nobody watches a descriptor that had no entry so far
    lemma NewDescriptors(n: nat)
      requires |lists| == |anfds| && n <= |anfds|
      requires forall w :: w in ws && w.active != 0 ==> 0 <= w.fd < n && w in lists[w.fd]
      requires forall fd :: 0 <= fd < n ==> Listed(anfds[fd].head, lists[fd], fd, ws)
      requires forall fd :: 0 <= fd < n && anfds[fd].reify == {} ==> anfds[fd].events == Interest(fd)
      requires forall fd :: n <= fd < |anfds| ==> anfds[fd] == Anfd(null, {}, {}, {}) && lists[fd] == []
      ensures ListsOk() && InSync()
    {
      forall fd | n <= fd < |anfds|
        ensures Interest(fd) == {}
      {
      }
    }

    // pri_adjust, and w->events &= ~EV__IOFDSET, which is done by the time w is on its list
    method Prepare(w: Watcher)
      requires ListsOk() && InSync() && pq.Valid() && ws <= pq.ws && w in ws && w.active == 0
      modifies w`priority, w`events
      ensures ListsOk() && InSync() && pq.Valid() && w.HasPriority()
      ensures w.events == old(w.events) - {IoFdSet}
      ensures forall g :: Interest(g) == old(Interest(g))
      ensures old(w.HasPriority()) ==> w.priority == old(w.priority)
    {
      pq.PriAdjust(w);
      w.events := w.events - {IoFdSet};
      InactiveChanged(w);
    }

    twostate lemma InactiveChanged(w: Watcher)
      requires old(ListsOk()) && old(InSync()) && anfds == old(anfds) && lists == old(lists)
      requires w in ws && w.active == 0 && old(w.active) == 0
      requires forall v :: v in ws && v != w ==> v.active == old(v.active) && v.fd == old(v.fd) && v.events == old(v.events)
      requires forall v :: v in ws && v != w ==> v.next == old(v.next) && v.priority == old(v.priority)
      ensures ListsOk() && InSync()
      ensures forall g :: Interest(g) == old(Interest(g))
    {
      forall g | 0 <= g < |lists|
        ensures Listed(anfds[g].head, lists[g], g, ws)
      {
        assert old(Listed(anfds[g].head, lists[g], g, ws));
      }
      forall g
        ensures Interest(g) == old(Interest(g))
      {
      }
    }

    // between calls
    ghost predicate Valid()
      reads this, ws`next, ws`active, ws`fd, ws`events, ws`priority
      reads pq, pq.ws`pending, pq.ws`priority
    {
      ListsOk() && InSync() && Queued(fdchanges, 0, anfds) && pq.Valid() && ws <= pq.ws
    }

    twostate lemma Resync(w: Watcher)
      requires old(InSync()) && 0 <= w.fd < |anfds| == |old(anfds)| && anfds[w.fd].reify != {}
      requires forall g :: 0 <= g < |anfds| && g != w.fd ==> anfds[g] == old(anfds)[g]
      requires forall g :: g != w.fd ==> Interest(g) == old(Interest(g))
      ensures InSync()
    {
    }

    // put a prepared watcher on its list and note the change
    method Activate(w: Watcher, flags: set<ReifyFlag>)
      requires ListsOk() && InSync() && Queued(fdchanges, 0, anfds) && pq.Valid()
      requires w in ws && w.active == 0 && 0 <= w.fd < |anfds| && w.events <= {Read, Write} && w.HasPriority()
      requires flags != {}
      modifies this`anfds, this`lists, this`fdchanges, w`next, w`active
      ensures ListsOk() == true && InSync() == true && Queued(fdchanges, 0, anfds) == true && pq.Valid() == true
      ensures w.active != 0
      ensures Interest(w.fd) == old(Interest(w.fd)) + w.events
      ensures forall g :: g != w.fd ==> Interest(g) == old(Interest(g))
      ensures Requested(old(anfds), anfds) && |anfds| == |old(anfds)| && flags <= anfds[w.fd].reify
    {
      LinkAndNote(w, flags);
      InterestJoined(w);
      Resync(w);
    }

    method LinkQueued(w: Watcher)
      requires ListsOk() && Queued(fdchanges, 0, anfds)
      requires w in ws && w.active == 0 && 0 <= w.fd < |anfds| && w.events <= {Read, Write} && w.HasPriority()
      modifies this`anfds, this`lists, w`next, w`active
      ensures ListsOk() == true && Queued(fdchanges, 0, anfds) == true
      ensures |lists| == |old(lists)| == |anfds| && w.fd < |lists| && w in lists[w.fd]
      ensures |anfds| == |old(anfds)| && anfds == old(anfds)[w.fd := old(anfds)[w.fd].(head := anfds[w.fd].head)]
    {
      ghost var before := anfds;
      Link(w);
      QueueReflag(fdchanges, 0, before, anfds);
    }

    method LinkAndNote(w: Watcher, flags: set<ReifyFlag>)
      requires ListsOk() && Queued(fdchanges, 0, anfds)
      requires w in ws && w.active == 0 && 0 <= w.fd < |anfds| && w.events <= {Read, Write} && w.HasPriority()
      requires flags != {}
      modifies this`anfds, this`lists, this`fdchanges, w`next, w`active
      ensures ListsOk() == true && Queued(fdchanges, 0, anfds) == true && w.active != 0
      ensures |anfds| == |old(anfds)| && flags <= anfds[w.fd].reify
      ensures forall g :: 0 <= g < |anfds| && g != w.fd ==> anfds[g] == old(anfds)[g]
      ensures Requested(old(anfds), anfds) == true
    {
      LinkQueued(w);
      FdChange(w.fd, flags, 0);
      LinkedIsActive(w);
    }

    lemma LinkedIsActive(w: Watcher)
      requires ListsOk() && 0 <= w.fd < |lists| && w in lists[w.fd]
      ensures w.active != 0
    {
      assert Listed(anfds[w.fd].head, lists[w.fd], w.fd, ws);
    }

    // what the backend was told about each descriptor is as before, and what it is to be told of still is
    static ghost predicate Requested(before: seq<Anfd>, anfds: seq<Anfd>) {
      && |before| <= |anfds|
      && (forall fd :: 0 <= fd < |before| ==> anfds[fd].events == before[fd].events && anfds[fd].emask == before[fd].emask)
      && (forall fd :: 0 <= fd < |before| && FdSet in before[fd].reify ==> FdSet in anfds[fd].reify)
      && (forall fd :: |before| <= fd < |anfds| ==> anfds[fd].events == {} && anfds[fd].emask == {})
    }

    // starting an inactive watcher that was set anew asks for its descriptor anew
    ghost function Regained(g: set<nat>, w: Watcher, active: int, events: Mask): set<nat>
      reads w`fd
    {
      if active == 0 && IoFdSet in events && w.fd >= 0 then g - {w.fd} else g
    }

    // ev_io_start
    method IoStart(w: Watcher)
      requires Valid() && w in ws
      requires w.active == 0 ==> w.fd >= 0 && w.events <= {IoFdSet, Read, Write}
      modifies this`anfds, this`lists, this`fdchanges, this`activecnt, this`gone, w`next, w`active, w`events, w`priority
      ensures Valid() && w.active != 0 && pq.pendings == old(pq.pendings)
      ensures w.events == if old(w.active) != 0 then old(w.events) else old(w.events) - {IoFdSet}
      ensures Requested(old(anfds), anfds)
      ensures gone == Regained(old(gone), w, old(w.active), old(w.events))
      ensures forall g :: g in old(gone) && g !in gone ==> FdSet in ReifyAt(anfds, g)
      ensures Interest(w.fd) ==
              if old(w.active) != 0 then old(Interest(w.fd)) else old(Interest(w.fd)) + (old(w.events) - {IoFdSet})
      ensures forall g :: g != w.fd ==> Interest(g) == old(Interest(g))
      ensures activecnt == if old(w.active) != 0 then old(activecnt) else old(activecnt) + 1
      ensures old(w.HasPriority()) ==> w.priority == old(w.priority)
    {
      if w.active != 0 {
        return;
      }
      activecnt := activecnt + 1;
      gone := Regained(gone, w, w.active, w.events);
      StartInactive(w);
    }

    method StartInactive(w: Watcher)
      requires Valid() && w in ws && w.active == 0 && w.fd >= 0 && w.events <= {IoFdSet, Read, Write}
      modifies this`anfds, this`lists, this`fdchanges, w`next, w`active, w`events, w`priority
      ensures ListsOk() == true && InSync() == true && Queued(fdchanges, 0, anfds) == true && pq.Valid() == true
      ensures w.active != 0 && w.events == old(w.events) - {IoFdSet} && Requested(old(anfds), anfds) == true
      ensures IoFdSet in old(w.events) ==> FdSet in ReifyAt(anfds, w.fd)
      ensures Interest(w.fd) == old(Interest(w.fd)) + (old(w.events) - {IoFdSet})
      ensures forall g :: g != w.fd ==> Interest(g) == old(Interest(g))
      ensures old(w.HasPriority()) ==> w.priority == old(w.priority)
    {
      var flags := (if IoFdSet in w.events then {FdSet} else {}) + {Reify};
      ghost var before := anfds;
      Prepare(w);
      GrowAnfds(w.fd + 1);
      ghost var grown := anfds;
      Activate(w, flags);
      RequestedSince(before, grown, anfds);
    }

    static lemma RequestedSince(before: seq<Anfd>, grown: seq<Anfd>, anfds: seq<Anfd>)
      requires before <= grown && Requested(grown, anfds) && |anfds| == |grown|
      requires forall fd :: |before| <= fd < |grown| ==> grown[fd] == Anfd(null, {}, {}, {})
      ensures Requested(before, anfds)
    {
      assert forall fd :: 0 <= fd < |before| ==> grown[fd] == before[fd];
    }

    // take an active watcher off its list and note the change, with the changes from k on still to come
    method UnlinkAndNote(w: Watcher, ghost k: nat)
      requires ListsOk() && Queued(fdchanges, k, anfds) && k <= |fdchanges| && w in ws && w.active != 0
      modifies this`anfds, this`lists, this`fdchanges, ws`next, w`active
      ensures ListsOk() == true && Queued(fdchanges, k, anfds) == true
      ensures w.active == 0 && old(fdchanges) <= fdchanges
      ensures 0 <= w.fd < |lists| == |old(lists)| && TakenOut(old(lists)[w.fd], w, lists[w.fd]) == true
      ensures lists == old(lists)[w.fd := lists[w.fd]]
      ensures |anfds| == |old(anfds)| && w.fd < |anfds| && anfds[w.fd].reify != {}
      ensures forall g :: 0 <= g < |anfds| && g != w.fd ==> anfds[g] == old(anfds)[g]
      ensures Requested(old(anfds), anfds) == true
    {
      ghost var before := anfds;
      Unlink(w);
      QueueReflag(fdchanges, k, before, anfds);
      FdChange(w.fd, {Reify}, k);
    }

    // the part of ev_io_stop from wlist_del on, but for activecnt
    method Deactivate(w: Watcher, ghost k: nat)
      requires ListsOk() && InSync() && Queued(fdchanges, k, anfds) && k <= |fdchanges| && pq.Valid()
      requires w in ws && w.active != 0
      modifies this`anfds, this`lists, this`fdchanges, ws`next, w`active
      ensures ListsOk() == true && InSync() == true && Queued(fdchanges, k, anfds) == true && pq.Valid() == true
      ensures w.active == 0 && old(fdchanges) <= fdchanges
      ensures 0 <= w.fd < |lists| == |old(lists)| && TakenOut(old(lists)[w.fd], w, lists[w.fd]) == true
      ensures lists == old(lists)[w.fd := lists[w.fd]]
      ensures forall g :: g != w.fd ==> Interest(g) == old(Interest(g))
      ensures Requested(old(anfds), anfds) == true && |anfds| == |old(anfds)|
    {
      UnlinkAndNote(w, k);
      InterestElsewhere(w);
      Resync(w);
    }

    // ev_io_stop
    method IoStop(w: Watcher, ghost k: nat)
      requires ListsOk() && InSync() && Queued(fdchanges, k, anfds) && k <= |fdchanges|
      requires pq.Valid() && ws <= pq.ws && w in ws
      modifies this`anfds, this`lists, this`fdchanges, this`activecnt, ws`next, w`active, w`pending, pq`pendings
      ensures ListsOk() == true && InSync() == true && Queued(fdchanges, k, anfds) == true && pq.Valid() == true
      ensures w.active == 0 && w.pending == 0 && pq.pendings == pq.Without(old(pq.pendings), w)
      ensures old(fdchanges) <= fdchanges && |lists| == |old(lists)|
      ensures old(w.active) == 0 ==> lists == old(lists) && anfds == old(anfds) && activecnt == old(activecnt)
      ensures old(w.active) != 0 ==> 0 <= w.fd < |lists| && lists == old(lists)[w.fd := lists[w.fd]]
      ensures old(w.active) != 0 ==> TakenOut(old(lists)[w.fd], w, lists[w.fd]) && activecnt == old(activecnt) - 1
      ensures forall g :: g != w.fd ==> Interest(g) == old(Interest(g))
      ensures Requested(old(anfds), anfds) && |anfds| == |old(anfds)|
    {
      pq.ClearPending(w);
      if w.active == 0 {
        return;
      }
      StopActive(w, k);
    }

    method StopActive(w: Watcher, ghost k: nat)
      requires ListsOk() && InSync() && Queued(fdchanges, k, anfds) && k <= |fdchanges| && pq.Valid()
      requires w in ws && w.active != 0
      modifies this`anfds, this`lists, this`fdchanges, this`activecnt, ws`next, w`active
      ensures ListsOk() == true && InSync() == true && Queued(fdchanges, k, anfds) == true && pq.Valid() == true
      ensures w.active == 0 && old(fdchanges) <= fdchanges && activecnt == old(activecnt) - 1
      ensures 0 <= w.fd < |lists| == |old(lists)| && TakenOut(old(lists)[w.fd], w, lists[w.fd]) == true
      ensures lists == old(lists)[w.fd := lists[w.fd]]
      ensures forall g :: g != w.fd ==> Interest(g) == old(Interest(g))
      ensures Requested(old(anfds), anfds) == true && |anfds| == |old(anfds)|
    {
      Deactivate(w, k);
      activecnt := activecnt - 1;
    }

    // one turn of the loop of fd_kill
    method StopFirst(fd: nat, ghost k: nat) returns (w: Watcher)
      requires ListsOk() && InSync() && Queued(fdchanges, k, anfds) && k <= |fdchanges|
      requires pq.Valid() && ws <= pq.ws && fd < |anfds| && anfds[fd].head != null
      modifies this`anfds, this`lists, this`fdchanges, this`activecnt, ws`next, ws`active, ws`pending, pq`pendings
      ensures ListsOk() == true && InSync() == true && Queued(fdchanges, k, anfds) == true && pq.Valid() == true
      ensures w == old(anfds)[fd].head && w in ws && w.fd == fd && w.active == 0 && w.HasPriority()
      ensures forall v :: v in ws && v != w ==> v.active == old(v.active)
      ensures pq.pendings == pq.Without(old(pq.pendings), w)
      ensures old(fdchanges) <= fdchanges && fd < |lists| == |old(lists)|
      ensures lists == old(lists)[fd := lists[fd]] && TakenOut(old(lists)[fd], w, lists[fd]) == true
      ensures forall g :: g != fd ==> Interest(g) == old(Interest(g))
      ensures Requested(old(anfds), anfds) == true && |anfds| == |old(anfds)|
    {
      w := anfds[fd].head;
      assert Listed(w, lists[fd], fd, ws) && w == lists[fd][0];
      IoStop(w, k);
    }

    method KillFirst(fd: nat, ghost k: nat) returns (w: Watcher)
      requires ListsOk() && InSync() && Queued(fdchanges, k, anfds) && k <= |fdchanges|
      requires pq.Valid() && ws <= pq.ws && fd < |anfds| && anfds[fd].head != null
      modifies this`anfds, this`lists, this`fdchanges, this`activecnt, ws`next, ws`active, ws`pending, pq`pendings
      ensures ListsOk() == true && InSync() == true && Queued(fdchanges, k, anfds) == true && pq.Valid() == true
      ensures w == old(anfds)[fd].head && w in ws && w.fd == fd && w.active == 0 && w.HasPriority()
      ensures forall v :: v in ws && v != w ==> v.active == old(v.active)
      ensures pq.pendings == FeedAt(pq.Without(old(pq.pendings), w), w.AbsPri(), w, {Error, Read, Write})
      ensures old(fdchanges) <= fdchanges && fd < |lists| == |old(lists)|
      ensures lists == old(lists)[fd := lists[fd]] && TakenOut(old(lists)[fd], w, lists[fd]) == true
      ensures forall g :: g != fd ==> Interest(g) == old(Interest(g))
      ensures Requested(old(anfds), anfds) == true && |anfds| == |old(anfds)|
    {
      w := StopFirst(fd, k);
      pq.FeedEvent(w, {Error, Read, Write});
    }

    // v is stopped, and its one pending slot says so
    ghost predicate Killed(v: Watcher)
      reads pq`pendings, v`active, v`priority
    {
      && v.active == 0 && v.HasPriority() && |pq.pendings| == NUMPRI
      && Owes(pq.pendings[v.AbsPri()], v, {Error, Read, Write})
    }

    // what killing w makes of the stacks
    ghost function Kill(ss: Stacks<Watcher>, w: Watcher): (r: Stacks<Watcher>)
      requires |ss| == NUMPRI
      reads w`priority
      ensures |r| == NUMPRI
    {
      if w.HasPriority() then FeedAt(pq.Without(ss, w), w.AbsPri(), w, {Error, Read, Write}) else ss
    }

    ghost function KillAll(ss: Stacks<Watcher>, ks: seq<Watcher>): (r: Stacks<Watcher>)
      requires |ss| == NUMPRI
      reads ks`priority
      ensures |r| == NUMPRI
    {
      if ks == [] then ss else Kill(KillAll(ss, ks[..|ks| - 1]), ks[|ks| - 1])
    }

    // all watchers killed so far, from the stacks ss0 on, are on record
    ghost predicate KillsOk(ss0: Stacks<Watcher>)
      reads this`kills, pq`pendings, ws`active, ws`priority
    {
      KillsAre(ss0, kills)
    }

    ghost predicate KillsAre(ss0: Stacks<Watcher>, ks: seq<Watcher>)
      reads pq`pendings, ws`active, ws`priority
    {
      && |ss0| == NUMPRI && (forall v :: v in ks ==> v in ws && Killed(v))
      && pq.pendings == KillAll(ss0, ks)
    }

    lemma StillOwing(ss: Stacks<Watcher>, w: Watcher, v: Watcher)
      requires |ss| == NUMPRI && w.HasPriority() && v.HasPriority() && v != w && v != pq.pending_w
      requires Owes(ss[v.AbsPri()], v, {Error, Read, Write})
      ensures Owes(FeedAt(pq.Without(ss, w), w.AbsPri(), w, {Error, Read, Write})[v.AbsPri()], v, {Error, Read, Write})
    {
      var p := v.AbsPri();
      OwesOthers(ss[p], w, v, {Error, Read, Write}, {Error, Read, Write}, pq.pending_w);
      OwesOthers(Clear(ss[p], w, pq.pending_w), w, v, {Error, Read, Write}, {Error, Read, Write}, pq.pending_w);
    }

    lemma NowOwing(w: Watcher)
      requires pq.Valid() && w in pq.ws && w.HasPriority()
      ensures Owes(FeedAt(pq.Without(pq.pendings, w), w.AbsPri(), w, {Error, Read, Write})[w.AbsPri()], w, {Error, Read, Write})
    {
      var p := w.AbsPri();
      assert pq.Owned(pq.pendings[p], p);
      OwesFresh(pq.pendings[p], w, {Error, Read, Write}, pq.pending_w);
    }

    // one turn of the loop of fd_kill, with what became of the watchers killed before
    method KillAgain(fd: nat, ghost k: nat, ghost dead: seq<Watcher>) returns (w: Watcher)
      requires ListsOk() && InSync() && Queued(fdchanges, k, anfds) && k <= |fdchanges|
      requires pq.Valid() && ws <= pq.ws && fd < |anfds| && anfds[fd].head != null
      requires forall v :: v in dead ==> v in ws && Killed(v)
      modifies this`anfds, this`lists, this`fdchanges, this`activecnt, ws`next, ws`active, ws`pending, pq`pendings
      ensures ListsOk() == true && InSync() == true && Queued(fdchanges, k, anfds) == true && pq.Valid() == true
      ensures w in ws && Killed(w) && forall v :: v in dead ==> Killed(v)
      ensures |old(pq.pendings)| == NUMPRI && pq.pendings == Kill(old(pq.pendings), w)
      ensures old(fdchanges) <= fdchanges && fd < |lists| == |old(lists)|
      ensures lists == old(lists)[fd := lists[fd]] && TakenOut(old(lists)[fd], w, lists[fd]) == true
      ensures forall g :: g != fd ==> Interest(g) == old(Interest(g))
      ensures Requested(old(anfds), anfds) == true && |anfds| == |old(anfds)|
    {
      ghost var ss := pq.pendings;
      ghost var h := anfds[fd].head;
      assert Listed(h, lists[fd], fd, ws) && h == lists[fd][0];
      NowOwing(h);
      forall v | v in dead
        ensures v != h
        ensures Owes(FeedAt(pq.Without(ss, h), h.AbsPri(), h, {Error, Read, Write})[v.AbsPri()], v, {Error, Read, Write})
      {
        assert Killed(v);
        StillOwing(ss, h, v);
      }
      w := KillFirst(fd, k);
    }

    lemma KillsMore(ss0: Stacks<Watcher>, ks: seq<Watcher>, w: Watcher, ss: Stacks<Watcher>)
      requires w in ws && Killed(w) && forall v :: v in ks ==> v in ws && Killed(v)
      requires |ss0| == NUMPRI && ss == KillAll(ss0, ks) && pq.pendings == Kill(ss, w)
      ensures KillsAre(ss0, ks + [w]) == true
    {
      assert (ks + [w])[..|ks|] == ks;
    }

    ghost method Record(w: Watcher, ss: Stacks<Watcher>, ss0: Stacks<Watcher>)
      requires w in ws && Killed(w) && forall v :: v in kills ==> v in ws && Killed(v)
      requires |ss0| == NUMPRI && ss == KillAll(ss0, kills) && pq.pendings == Kill(ss, w)
      modifies this`kills
      ensures KillsOk(ss0) == true && kills == old(kills) + [w]
    {
      KillsMore(ss0, kills, w, ss);
      kills := kills + [w];
    }

    method KillNext(fd: nat, ghost k: nat, ghost ss0: Stacks<Watcher>) returns (w: Watcher)
      requires ListsOk() && InSync() && Queued(fdchanges, k, anfds) && k <= |fdchanges|
      requires pq.Valid() && ws <= pq.ws && fd < |anfds| && anfds[fd].head != null && KillsOk(ss0)
      modifies this`anfds, this`lists, this`fdchanges, this`activecnt, this`kills
      modifies ws`next, ws`active, ws`pending, pq`pendings
      ensures ListsOk() == true && InSync() == true && Queued(fdchanges, k, anfds) == true && pq.Valid() == true
      ensures KillsOk(ss0) == true && kills == old(kills) + [w]
      ensures old(fdchanges) <= fdchanges && fd < |lists| == |old(lists)|
      ensures lists == old(lists)[fd := lists[fd]] && TakenOut(old(lists)[fd], w, lists[fd]) == true
      ensures forall g :: g != fd ==> Interest(g) == old(Interest(g))
      ensures Requested(old(anfds), anfds) == true && |anfds| == |old(anfds)|
    {
      ghost var ss := pq.pendings;
      w := KillAgain(fd, k, kills);
      Record(w, ss, ss0);
    }

    static lemma RequestedAgain(a: seq<Anfd>, b: seq<Anfd>, c: seq<Anfd>)
      requires Requested(a, b) && Requested(b, c) && |a| == |b| == |c|
      ensures Requested(a, c)
    {
    }

    // of the watchers l0, those in l are left, and ks adds the others to ks0
    static ghost predicate Killing(l0: seq<Watcher>, l: seq<Watcher>, ks0: seq<Watcher>, ks: seq<Watcher>) {
      && (forall v :: v in l0 ==> v in l || v in ks) && (forall v :: v in l ==> v in l0)
      && (forall v :: v in ks ==> v in ks0 || v in l0) && ks0 <= ks && (l0 == [] ==> ks == ks0)
    }

    static lemma KillingMore(l0: seq<Watcher>, l: seq<Watcher>, w: Watcher, l': seq<Watcher>, ks0: seq<Watcher>,
                             ks: seq<Watcher>)
      requires Killing(l0, l, ks0, ks) && Distinct(l) && TakenOut(l, w, l')
      ensures Killing(l0, l', ks0, ks + [w]) == true && |l'| < |l|
    {
      TakenOutMembers(l, w, l');
    }

    // fd_kill
    method FdKill(fd: nat, ghost k: nat, ghost ss0: Stacks<Watcher>)
      requires ListsOk() && InSync() && Queued(fdchanges, k, anfds) && k <= |fdchanges|
      requires pq.Valid() && ws <= pq.ws && fd < |anfds| && KillsOk(ss0)
      modifies this`anfds, this`lists, this`fdchanges, this`activecnt, this`kills
      modifies ws`next, ws`active, ws`pending, pq`pendings
      ensures ListsOk() == true && InSync() == true && Queued(fdchanges, k, anfds) == true && pq.Valid() == true
      ensures old(fdchanges) <= fdchanges
      ensures fd < |old(lists)| && lists == old(lists)[fd := []]
      ensures KillsOk(ss0) == true && old(kills) <= kills && (old(lists)[fd] == [] ==> kills == old(kills))
      ensures JustThese(old(lists)[fd], old(kills), kills) && forall v :: v in old(lists)[fd] ==> Killed(v)
      ensures forall g :: g != fd ==> Interest(g) == old(Interest(g))
      ensures Requested(old(anfds), anfds) == true && |anfds| == |old(anfds)|
    {
      ghost var l0 := lists[fd];
      while anfds[fd].head != null
        invariant ListsOk() == true && InSync() == true && Queued(fdchanges, k, anfds) == true && pq.Valid() == true
        invariant old(fdchanges) <= fdchanges && |lists| == |anfds| == |old(lists)|
        invariant lists == old(lists)[fd := lists[fd]]
        invariant KillsOk(ss0) == true && Killing(l0, lists[fd], old(kills), kills) == true
        invariant forall g :: g != fd ==> Interest(g) == old(Interest(g))
        invariant Requested(old(anfds), anfds) == true
        decreases |lists[fd]|
      {
        ghost var before, l, ks := anfds, lists[fd], kills;
        assert Listed(anfds[fd].head, l, fd, ws);
        var w := KillNext(fd, k, ss0);
        KillingMore(l0, l, w, lists[fd], old(kills), ks);
        RequestedAgain(old(anfds), before, anfds);
      }
      assert Listed(anfds[fd].head, lists[fd], fd, ws);
    }

    // ---------- the backend ----------

    // any answer is possible; the call is noted in the log, under the epoll_modify that makes it
    method EpollCtl(op: CtlOp, fd: nat, events: Mask, ghost before: seq<Told>, ghost calls: seq<Ctl>) returns (r: CtlResult)
      requires told == before + [Told(fd, events, calls)]
      modifies this`told
      ensures told == before + [Told(fd, events, calls + [Ctl(op, r)])]
    {
      r := *;
      told := before + [Told(fd, events, calls + [Ctl(op, r)])];
    }

    // the epoll_ctl part of epoll_modify; `failed` says that the descriptor has to be killed
    method EpollTell(fd: nat, oev: Mask, nev: Mask) returns (failed: bool, ghost calls: seq<Ctl>)
      requires fd < |anfds| && nev != {} && nev <= {Read, Write}
      modifies this`anfds, this`epoll_eperms, this`told
      ensures told == old(told) + [Told(fd, nev, calls)]
      ensures Dialogue(oev, old(anfds)[fd].emask, nev, calls) && (failed <==> Fatal(calls))
      ensures anfds == old(anfds)[fd := old(anfds)[fd].(emask := if Refused(calls) then {EmaskEperm} else nev)]
      ensures epoll_eperms == if Refused(calls) && EmaskEperm !in old(anfds)[fd].emask
                              then old(epoll_eperms) + [fd] else old(epoll_eperms)
    {
      ghost var before := told;
      calls := [];
      told := before + [Told(fd, nev, calls)];
      var oldmask := anfds[fd].emask;
      anfds := anfds[fd := anfds[fd].(emask := nev)];
      var op := if oev != {} && oldmask != nev then CtlMod else CtlAdd;
      var r := EpollCtl(op, fd, nev, before, calls);
      calls := calls + [Ctl(op, r)];
      failed := false;
      match r
      case CtlOk =>
      case ENOENT =>
        r := EpollCtl(CtlAdd, fd, nev, before, calls);
        calls := calls + [Ctl(CtlAdd, r)];
        failed := r != CtlOk;
      case EEXIST =>
        if oldmask != nev {
          r := EpollCtl(CtlMod, fd, nev, before, calls);
          calls := calls + [Ctl(CtlMod, r)];
          failed := r != CtlOk;
        }
      case EPERM =>
        anfds := anfds[fd := anfds[fd].(emask := {EmaskEperm})];
        if EmaskEperm !in oldmask {
          epoll_eperms := epoll_eperms + [fd];
        }
      case OtherError =>
        failed := true;
    }

    // fd_reify: what the watchers of fd ask for, taken from their list
    method OrEvents(fd: nat) returns (m: Mask)
      requires ListsOk() && fd < |anfds|
      ensures m == Interest(fd) && m <= {Read, Write}
    {
      m := {};
      var w := anfds[fd].head;
      ghost var l, i := lists[fd], 0;
      assert Listed(w, l, fd, ws);
      while w != null
        invariant 0 <= i <= |l| && w == At(l, i)
        invariant forall j :: 0 <= j < i ==> l[j].events <= m
        invariant forall f :: f in m ==> exists j :: 0 <= j < i && f in l[j].events
        decreases |l| - i
      {
        m := m + w.events;
        w := w.next;
        i := i + 1;
      }
      assert forall v :: v in ws && v.active != 0 && v.fd == fd ==> v in l;
    }

    // ---------- events from the backend ----------

    // what the watchers ask for
    ghost function Masks(): map<Watcher, Mask>
      reads ws`events
    {
      map w | w in ws :: w.events - {IoFdSet}
    }

    ghost function Fds(): map<Watcher, int>
      reads ws`fd
    {
      map w | w in ws :: w.fd
    }

    // the I/O watchers as values
    ghost function Io(): IoState
      reads ws`active, ws`fd, ws`events
    {
      IoState(Active(), Fds(), Masks())
    }

    ghost predicate Is(io: IoState)
      reads ws`active, ws`fd, ws`events
    {
      && io.active <= ws == io.fd.Keys == io.asked.Keys
      && forall w :: w in ws ==>
           w.fd == io.fd[w] && w.events - {IoFdSet} == io.asked[w] && (w.active != 0 <==> w in io.active)
    }

    lemma IsIo(io: IoState)
      ensures Is(io) <==> io == Io()
    {
      if Is(io) {
        assert Fds() == io.fd && Masks() == io.asked && Active() == io.active;
      }
    }

    lemma ListsAreOf()
      requires ListsOk()
      ensures ListsOf(lists, Io())
    {
      forall fd | 0 <= fd < |lists|
        ensures Distinct(lists[fd]) && forall w :: w in lists[fd] ==> w in Active() && w.fd == fd
      {
        assert Listed(anfds[fd].head, lists[fd], fd, ws);
      }
    }

    // a started watcher asks for all its events
    lemma AskedByListed(fd: nat)
      requires ListsOk() && fd < |lists|
      ensures forall w :: w in lists[fd] ==> w in Masks() && Masks()[w] == w.events
    {
      assert Listed(anfds[fd].head, lists[fd], fd, ws);
      assert forall w :: w in lists[fd] ==> w.events - {IoFdSet} == w.events;
    }

    // Every active watcher of fd that asks for one of the events is told once, of just those it asks for.
    lemma EventReaches(fd: nat, revents: Mask)
      requires ListsOk() && fd < |lists|
      ensures var r := Reports(lists[fd], Masks(), revents);
              && (forall i, j :: 0 <= i < j < |r| ==> r[i] != r[j])
              && forall op :: op in r <==> op.OpFeed? && op.w in ws && op.w.active != 0 && op.w.fd == fd
                                           && op.revents == op.w.events * revents != {}
    {
      assert Listed(anfds[fd].head, lists[fd], fd, ws);
      AskedByListed(fd);
      ReportsAre(lists[fd], Masks(), revents);
    }

    // one turn of fd_event_nocheck
    method ReportTo(w: Watcher, revents: Mask)
      requires pq.Valid() && w in pq.ws && w.HasPriority()
      modifies pq`pendings, w`pending
      ensures pq.Valid() == true && |old(pq.pendings)| == NUMPRI
      ensures var ev := w.events * revents;
              pq.pendings == if ev == {} then old(pq.pendings) else FeedAt(old(pq.pendings), w.AbsPri(), w, ev)
    {
      var ev := w.events * revents;
      if ev != {} {
        pq.FeedEvent(w, ev);
      }
    }

    method ReportNext(w: Watcher, revents: Mask, ghost l: seq<Watcher>, ghost asked: map<Watcher, Mask>,
                      ghost ss: Stacks<Watcher>, ghost prim: map<Watcher, nat>)
      requires pq.Valid() && w in pq.ws && w.HasPriority() && w in prim && prim[w] == w.AbsPri()
      requires w in asked && asked[w] == w.events && FedTo(ss, l, asked, revents, prim, pq.pending_w, pq.pendings)
      modifies pq`pendings, w`pending
      ensures pq.Valid() == true && FedTo(ss, l + [w], asked, revents, prim, pq.pending_w, pq.pendings) == true
    {
      ghost var before := pq.pendings;
      ReportTo(w, revents);
      ReportMore(w, revents, l, asked, ss, prim, pq.pending_w, before, pq.pendings);
    }

    // fd_event_nocheck, for the watchers l
    method FdEventNocheck(head: Watcher?, revents: Mask, ghost l: seq<Watcher>, ghost asked: map<Watcher, Mask>,
                          ghost prim: map<Watcher, nat>)
      requires Chained(head, l) && pq.Valid()
      requires forall v :: v in l ==> v in pq.ws && v in ws && v.HasPriority() && v in prim && prim[v] == v.AbsPri()
      requires forall v :: v in l ==> v in asked && asked[v] == v.events
      modifies pq`pendings, ws`pending
      ensures pq.Valid() == true
      ensures FedTo(old(pq.pendings), l, asked, revents, prim, pq.pending_w, pq.pendings) == true
    {
      var w := head;
      ghost var done: seq<Watcher> := [];
      while w != null
        invariant |done| <= |l| && done == l[..|done|] && w == At(l, |done|) && pq.Valid() == true
        invariant FedTo(old(pq.pendings), done, asked, revents, prim, pq.pending_w, pq.pendings) == true
        decreases |l| - |done|
      {
        ReportNext(w, revents, done, asked, old(pq.pendings), prim);
        NextOfChain(head, l, |done|);
        done, w := done + [w], w.next;
      }
      assert done == l;
    }

    // fd_event; a descriptor with a pending change is not reported
    method FdEvent(fd: nat, revents: Mask, ghost l: seq<Watcher>, ghost asked: map<Watcher, Mask>,
                   ghost prim: map<Watcher, nat>)
      requires ListsOk() && pq.Valid() && ws <= pq.ws && pq.Agrees(prim) && fd < |anfds| && asked == Masks()
      requires l == lists[fd]
      modifies pq`pendings, ws`pending
      ensures pq.Valid() == true && |old(pq.pendings)| == NUMPRI
      ensures var ops := if anfds[fd].reify == {} then Reports(l, asked, revents) else [];
              Behaves(ops, prim, NUMPRI) && pq.pendings == ActAll(old(pq.pendings), ops, prim, pq.pending_w)
    {
      assert Listed(anfds[fd].head, l, fd, ws);
      AskedByListed(fd);
      if anfds[fd].reify == {} {
        FdEventNocheck(anfds[fd].head, revents, l, asked, prim);
      }
    }

    // one report about a descriptor without a pending change
    method FdEventNow(fd: nat, revents: Mask, ghost l: seq<Watcher>, ghost asked: map<Watcher, Mask>,
                      ghost prim: map<Watcher, nat>)
      requires ListsOk() && pq.Valid() && ws <= pq.ws && pq.Agrees(prim) && fd < |anfds| && asked == Masks()
      requires anfds[fd].reify == {} && l == lists[fd]
      modifies pq`pendings, ws`pending
      ensures ListsOk() == true && pq.Valid() == true && pq.Agrees(prim) == true && Masks() == asked
      ensures |old(pq.pendings)| == NUMPRI && Behaves(Reports(l, asked, revents), prim, NUMPRI)
      ensures pq.pendings == ActAll(old(pq.pendings), Reports(l, asked, revents), prim, pq.pending_w)
    {
      FdEvent(fd, revents, l, asked, prim);
    }

    // the events that one poll reports, just after fd_reify
    method FdEvents(reports: seq<(nat, Mask)>, ghost ls: seq<seq<Watcher>>, ghost asked: map<Watcher, Mask>,
                    ghost prim: map<Watcher, nat>)
      requires ListsOk() && pq.Valid() && ws <= pq.ws && pq.Agrees(prim) && asked == Masks() && ls == lists
      requires Queued(fdchanges, 0, anfds) && fdchanges == []
      requires forall i :: 0 <= i < |reports| ==> reports[i].0 < |anfds|
      modifies pq`pendings, ws`pending
      ensures ListsOk() == true && pq.Valid() == true
      ensures |old(pq.pendings)| == NUMPRI && Behaves(AllReports(ls, asked, reports), prim, NUMPRI)
      ensures pq.pendings == ActAll(old(pq.pendings), AllReports(ls, asked, reports), prim, pq.pending_w)
    {
      assert reports[..0] == [];
      for i := 0 to |reports|
        invariant ListsOk() == true && pq.Valid() == true && pq.Agrees(prim) == true && Masks() == asked
        invariant Behaves(AllReports(ls, asked, reports[..i]), prim, NUMPRI)
        invariant pq.pendings == ActAll(old(pq.pendings), AllReports(ls, asked, reports[..i]), prim, pq.pending_w)
      {
        ghost var before := pq.pendings;
        FdEventNow(reports[i].0, reports[i].1, ls[reports[i].0], asked, prim);
        OneMoreReport(ls, asked, reports, i, old(pq.pendings), prim, pq.pending_w, before, pq.pendings);
      }
      assert reports[..|reports|] == reports;
    }

    // the backend watches for what the loop thinks it does
    ghost predicate BackendAgrees(as': seq<Anfd>, eperms: seq<int>)
      reads this`told, this`gone, poll, poll.pollidxs, poll.polls, sel, sel.vec_ri, sel.vec_wi
    {
      AgreesBut(gone, as', eperms)
    }

    // the same, but for the descriptors g
    ghost predicate AgreesBut(g: set<nat>, as': seq<Anfd>, eperms: seq<int>)
      reads this`told, poll, poll.pollidxs, poll.polls, sel, sel.vec_ri, sel.vec_wi
    {
      match backend
      case UsePoll => poll.Valid() && forall fd: nat :: poll.Asked(fd) == EventsAt(as', fd)
      case UseSelect => sel.Valid() && forall fd: nat :: sel.Asked(fd) == EventsAt(as', fd)
      case UseEpoll => EmasksOk(as', eperms) && Accounted(told, g, as')
    }

    // what epoll_modify records after its calls
    static ghost predicate Recording(as0: seq<Anfd>, as': seq<Anfd>, eperms0: seq<int>, eperms: seq<int>,
                                     fd: nat, nev: Mask, calls: seq<Ctl>) {
      && |as0| == |as'| && fd < |as'|
      && (forall g :: 0 <= g < |as'| && g != fd ==> as'[g].emask == as0[g].emask)
      && as'[fd].emask == (if nev == {} then as0[fd].emask else if Refused(calls) then {EmaskEperm} else nev)
      && eperms == if nev != {} && Refused(calls) && EmaskEperm !in as0[fd].emask then eperms0 + [fd] else eperms0
    }

    static lemma RecordingKept(as0: seq<Anfd>, as1: seq<Anfd>, as2: seq<Anfd>, eperms0: seq<int>, eperms: seq<int>,
                               fd: nat, nev: Mask, calls: seq<Ctl>)
      requires Recording(as0, as1, eperms0, eperms, fd, nev, calls) && |as1| == |as2|
      requires forall g :: 0 <= g < |as1| ==> as2[g].emask == as1[g].emask
      ensures Recording(as0, as2, eperms0, eperms, fd, nev, calls)
    {
    }

    // epoll_modify, which may kill the descriptor
    method EpollModify(fd: nat, oev: Mask, nev: Mask, ghost before: seq<Anfd>, ghost k: nat,
                       ghost ss0: Stacks<Watcher>)
      returns (ghost calls: seq<Ctl>)
      requires KillsOk(ss0)
      requires ListsOk() && InSync() && Queued(fdchanges, k, anfds) && k <= |fdchanges|
      requires pq.Valid() && ws <= pq.ws && fd < |anfds| && nev <= {Read, Write} && nev == Interest(fd)
      requires EmasksOk(before, epoll_eperms) && OnlyEvents(before, anfds, fd, oev, nev)
      requires Accounted(told, gone, before)
      modifies this`anfds, this`lists, this`fdchanges, this`activecnt, this`epoll_eperms, this`told, this`kills
      modifies ws`next, ws`active, ws`pending, pq`pendings
      ensures ListsOk() == true && InSync() == true && Queued(fdchanges, k, anfds) == true && pq.Valid() == true
      ensures EmasksOk(anfds, epoll_eperms) == true && Accounted(told, gone, anfds) == true
      ensures told == old(told) + [Told(fd, nev, calls)]
      ensures old(fdchanges) <= fdchanges && |anfds| == |old(anfds)|
      ensures Progress(old(lists), lists, old(fdchanges), fdchanges) == true
      ensures KillsOnly(old(lists), old(kills), fd) == true && KillsOk(ss0) == true
      ensures if nev == {} then calls == [] else Dialogue(oev, old(anfds)[fd].emask, nev, calls)
      ensures lists == if Fatal(calls) then old(lists)[fd := []] else old(lists)
      ensures Recording(old(anfds), anfds, old(epoll_eperms), epoll_eperms, fd, nev, calls) == true
    {
      calls := [];
      if nev == {} {
        EmasksForget(before, anfds, epoll_eperms, fd, oev);
        ToldMore(told, gone, Told(fd, nev, calls), before, anfds);
        told := told + [Told(fd, nev, calls)];
      } else {
        calls := EpollAsk(fd, oev, nev, before, k, ss0);
      }
    }

    // epoll_modify when there is something to watch for
    method EpollAsk(fd: nat, oev: Mask, nev: Mask, ghost before: seq<Anfd>, ghost k: nat, ghost ss0: Stacks<Watcher>)
      returns (ghost calls: seq<Ctl>)
      requires KillsOk(ss0)
      requires ListsOk() && InSync() && Queued(fdchanges, k, anfds) && k <= |fdchanges|
      requires pq.Valid() && ws <= pq.ws && fd < |anfds| && nev != {} && nev <= {Read, Write} && nev == Interest(fd)
      requires EmasksOk(before, epoll_eperms) && OnlyEvents(before, anfds, fd, oev, nev)
      requires Accounted(told, gone, before)
      modifies this`anfds, this`lists, this`fdchanges, this`activecnt, this`epoll_eperms, this`told, this`kills
      modifies ws`next, ws`active, ws`pending, pq`pendings
      ensures ListsOk() == true && InSync() == true && Queued(fdchanges, k, anfds) == true && pq.Valid() == true
      ensures EmasksOk(anfds, epoll_eperms) == true && Accounted(told, gone, anfds) == true
      ensures told == old(told) + [Told(fd, nev, calls)]
      ensures old(fdchanges) <= fdchanges && |anfds| == |old(anfds)|
      ensures Progress(old(lists), lists, old(fdchanges), fdchanges) == true
      ensures KillsOnly(old(lists), old(kills), fd) == true && KillsOk(ss0) == true
      ensures Dialogue(oev, old(anfds)[fd].emask, nev, calls)
      ensures lists == if Fatal(calls) then old(lists)[fd := []] else old(lists)
      ensures Recording(old(anfds), anfds, old(epoll_eperms), epoll_eperms, fd, nev, calls) == true
    {
      ghost var as0, eperms0 := anfds, epoll_eperms;
      var failed;
      failed, calls := EpollNote(fd, oev, nev, before, k);
      if failed {
        ghost var as1 := anfds;
        KillFailed(fd, k, ss0);
        RecordingKept(as0, as1, anfds, eperms0, epoll_eperms, fd, nev, calls);
      }
    }

    // the calls, which leave lists and changes alone
    method EpollAsked(fd: nat, oev: Mask, nev: Mask, ghost k: nat) returns (failed: bool, ghost calls: seq<Ctl>)
      requires ListsOk() && InSync() && Queued(fdchanges, k, anfds)
      requires fd < |anfds| && nev <= {Read, Write} && nev != {}
      modifies this`anfds, this`epoll_eperms, this`told
      ensures told == old(told) + [Told(fd, nev, calls)]
      ensures ListsOk() == true && InSync() == true && Queued(fdchanges, k, anfds) == true
      ensures Dialogue(oev, old(anfds)[fd].emask, nev, calls) == true && (failed <==> Fatal(calls))
      ensures anfds == old(anfds)[fd := old(anfds)[fd].(emask := if Refused(calls) then {EmaskEperm} else nev)]
      ensures epoll_eperms == if Refused(calls) && EmaskEperm !in old(anfds)[fd].emask
                              then old(epoll_eperms) + [fd] else old(epoll_eperms)
    {
      ghost var as0 := anfds;
      failed, calls := EpollTell(fd, oev, nev);
      QueueReflag(fdchanges, k, as0, anfds);
    }

    // tell epoll; the rest of the state is as before
    method EpollRecord(fd: nat, oev: Mask, nev: Mask, ghost before: seq<Anfd>, ghost k: nat)
      returns (failed: bool, ghost calls: seq<Ctl>)
      requires ListsOk() && InSync() && Queued(fdchanges, k, anfds) && pq.Valid()
      requires fd < |anfds| && nev <= {Read, Write} && nev != {}
      requires EmasksOk(before, epoll_eperms) && OnlyEvents(before, anfds, fd, oev, nev)
      modifies this`anfds, this`epoll_eperms, this`told
      ensures told == old(told) + [Told(fd, nev, calls)]
      ensures ListsOk() == true && InSync() == true && Queued(fdchanges, k, anfds) == true && pq.Valid() == true
      ensures EmasksOk(anfds, epoll_eperms) == true
      ensures |anfds| == |old(anfds)|
      ensures forall g :: 0 <= g < |anfds| ==>
                anfds[g].events == old(anfds)[g].events && anfds[g].reify == old(anfds)[g].reify
      ensures Dialogue(oev, old(anfds)[fd].emask, nev, calls) == true && (failed <==> Fatal(calls))
      ensures Recording(old(anfds), anfds, old(epoll_eperms), epoll_eperms, fd, nev, calls) == true
    {
      ghost var as0, eperms0 := anfds, epoll_eperms;
      failed, calls := EpollAsked(fd, oev, nev, k);
      EmasksStay(before, as0, anfds, eperms0, epoll_eperms, fd, oev, nev);
    }

    // the same, with what the log says
    method EpollNote(fd: nat, oev: Mask, nev: Mask, ghost before: seq<Anfd>, ghost k: nat)
      returns (failed: bool, ghost calls: seq<Ctl>)
      requires ListsOk() && InSync() && Queued(fdchanges, k, anfds) && pq.Valid()
      requires fd < |anfds| && nev <= {Read, Write} && nev != {}
      requires EmasksOk(before, epoll_eperms) && OnlyEvents(before, anfds, fd, oev, nev)
      requires Accounted(told, gone, before)
      modifies this`anfds, this`epoll_eperms, this`told
      ensures ListsOk() == true && InSync() == true && Queued(fdchanges, k, anfds) == true && pq.Valid() == true
      ensures EmasksOk(anfds, epoll_eperms) == true && |anfds| == |old(anfds)|
      ensures Accounted(told, gone, anfds) == true && told == old(told) + [Told(fd, nev, calls)]
      ensures Dialogue(oev, old(anfds)[fd].emask, nev, calls) && (failed <==> Fatal(calls))
      ensures Recording(old(anfds), anfds, old(epoll_eperms), epoll_eperms, fd, nev, calls) == true
    {
      ghost var told0 := told;
      failed, calls := EpollRecord(fd, oev, nev, before, k);
      ToldMore(told0, gone, Told(fd, nev, calls), before, anfds);
    }

    method KillWatchers(fd: nat, ghost k: nat, ghost ss0: Stacks<Watcher>)
      requires KillsOk(ss0)
      requires ListsOk() && InSync() && Queued(fdchanges, k, anfds) && k <= |fdchanges| && pq.Valid() && ws <= pq.ws
      requires fd < |anfds| && forall v :: v in lists[fd] ==> v in ws
      modifies this`anfds, this`lists, this`fdchanges, this`activecnt, this`kills
      modifies ws`next, ws`active, ws`pending, pq`pendings
      ensures ListsOk() == true && InSync() == true && Queued(fdchanges, k, anfds) == true && pq.Valid() == true
      ensures old(fdchanges) <= fdchanges && |anfds| == |old(anfds)| && fd < |old(lists)|
      ensures lists == old(lists)[fd := []]
      ensures Requested(old(anfds), anfds) == true
      ensures KillsOnly(old(lists), old(kills), fd) == true && KillsOk(ss0) == true
    {
      FdKill(fd, k, ss0);
    }

    // the descriptor is unusable, and has watchers
    method KillListed(fd: nat, ghost k: nat, ghost ss0: Stacks<Watcher>)
      requires KillsOk(ss0)
      requires ListsOk() && InSync() && Queued(fdchanges, k, anfds) && k <= |fdchanges|
      requires pq.Valid() && ws <= pq.ws && fd < |anfds| && Interest(fd) != {} && EmasksOk(anfds, epoll_eperms)
      modifies this`anfds, this`lists, this`fdchanges, this`activecnt, this`kills
      modifies ws`next, ws`active, ws`pending, pq`pendings
      ensures ListsOk() == true && InSync() == true && Queued(fdchanges, k, anfds) == true && pq.Valid() == true
      ensures EmasksOk(anfds, epoll_eperms) == true && old(fdchanges) <= fdchanges && |anfds| == |old(anfds)|
      ensures Progress(old(lists), lists, old(fdchanges), fdchanges) == true && lists == old(lists)[fd := []]
      ensures Requested(old(anfds), anfds) == true
      ensures KillsOnly(old(lists), old(kills), fd) == true && KillsOk(ss0) == true
    {
      ghost var as0 := anfds;
      HasWatchers(fd);
      TotalUpdate(lists, fd, []);
      KillWatchers(fd, k, ss0);
      EmasksKeep(as0, anfds, epoll_eperms);
    }

    // the same, as far as the log of epoll goes
    method KillFailed(fd: nat, ghost k: nat, ghost ss0: Stacks<Watcher>)
      requires KillsOk(ss0)
      requires ListsOk() && InSync() && Queued(fdchanges, k, anfds) && k <= |fdchanges|
      requires pq.Valid() && ws <= pq.ws && fd < |anfds| && Interest(fd) != {} && EmasksOk(anfds, epoll_eperms)
      requires Accounted(told, gone, anfds)
      modifies this`anfds, this`lists, this`fdchanges, this`activecnt, this`kills
      modifies ws`next, ws`active, ws`pending, pq`pendings
      ensures ListsOk() == true && InSync() == true && Queued(fdchanges, k, anfds) == true && pq.Valid() == true
      ensures EmasksOk(anfds, epoll_eperms) == true && Accounted(told, gone, anfds) == true
      ensures old(fdchanges) <= fdchanges && |anfds| == |old(anfds)|
      ensures Progress(old(lists), lists, old(fdchanges), fdchanges) == true && lists == old(lists)[fd := []]
      ensures forall g :: 0 <= g < |anfds| ==> anfds[g].emask == old(anfds)[g].emask
      ensures KillsOnly(old(lists), old(kills), fd) == true && KillsOk(ss0) == true
    {
      ghost var as0 := anfds;
      KillListed(fd, k, ss0);
      StillAccounted(told, gone, as0, gone, anfds);
    }

    lemma HasWatchers(fd: nat)
      requires ListsOk() && fd < |lists| && Interest(fd) != {}
      ensures lists[fd] != [] && forall v :: v in lists[fd] ==> v in ws
    {
      assert Listed(anfds[fd].head, lists[fd], fd, ws);
      var f :| f in Interest(fd);
      var w :| w in ws && w.active != 0 && w.fd == fd && f in w.events;
      assert w in lists[fd];
    }

    static lemma EmasksKeep(as0: seq<Anfd>, as': seq<Anfd>, eperms: seq<int>)
      requires EmasksOk(as0, eperms) && Requested(as0, as') && |as0| == |as'|
      ensures EmasksOk(as', eperms)
    {
    }

    static lemma EmasksForget(before: seq<Anfd>, as': seq<Anfd>, eperms: seq<int>, fd: nat, oev: Mask)
      requires EmasksOk(before, eperms) && OnlyEvents(before, as', fd, oev, {})
      ensures EmasksOk(as', eperms)
    {
    }

    // only the events and the flags of fd differ
    static ghost predicate OnlyEvents(before: seq<Anfd>, as': seq<Anfd>, fd: nat, oev: Mask, nev: Mask) {
      && |before| == |as'| && fd < |as'|
      && (forall g :: 0 <= g < |as'| ==> as'[g].emask == before[g].emask)
      && (forall g :: 0 <= g < |as'| && g != fd ==> as'[g].events == before[g].events && as'[g].reify == before[g].reify)
      && before[fd].events == oev && as'[fd].events == nev
    }

    static lemma EmasksStay(before: seq<Anfd>, as0: seq<Anfd>, as': seq<Anfd>, eperms0: seq<int>, eperms: seq<int>,
                            fd: nat, oev: Mask, nev: Mask)
      requires EmasksOk(before, eperms0) && OnlyEvents(before, as0, fd, oev, nev) && nev <= {Read, Write}
      requires |as'| == |as0| && as' == as0[fd := as0[fd].(emask := as'[fd].emask)]
      requires as'[fd].emask == nev || as'[fd].emask == {EmaskEperm}
      requires eperms == if as'[fd].emask == {EmaskEperm} && EmaskEperm !in as0[fd].emask then eperms0 + [fd] else eperms0
      ensures EmasksOk(as', eperms)
    {
    }

    // either nothing was killed, or there are fewer watchers
    static ghost predicate Progress(ls0: seq<seq<Watcher>>, ls: seq<seq<Watcher>>, cs0: seq<int>, cs: seq<int>) {
      (ls == ls0 && cs == cs0) || Total(ls) < Total(ls0)
    }

    // the list of fd is as it was and nobody was killed, or it is empty and its watchers were; other lists are as
    // they were
    ghost predicate KillsOnly(ls0: seq<seq<Watcher>>, ks0: seq<Watcher>, fd: nat)
      reads this`lists, this`kills
    {
      && |lists| == |ls0| && ks0 <= kills
      && (forall g :: 0 <= g < |lists| && g != fd ==> lists[g] == ls0[g])
      && if fd < |lists| && lists[fd] != ls0[fd] then lists[fd] == [] && JustThese(ls0[fd], ks0, kills) else kills == ks0
    }

    // ks adds the watchers of l to ks0, and nobody else
    static ghost predicate JustThese(l: seq<Watcher>, ks0: seq<Watcher>, ks: seq<Watcher>) {
      (forall v :: v in l ==> v in ks) && forall v :: v in ks ==> v in ks0 || v in l
    }

    // the tables are the old ones or newly allocated
    twostate predicate TablesMoved(pollidxs: array<int>, polls: array<PollFd>, vec_ri: array<Word>, vec_wi: array<Word>)
      reads poll, sel
    {
      && (poll.pollidxs == pollidxs || fresh(poll.pollidxs)) && (poll.polls == polls || fresh(poll.polls))
      && (sel.vec_ri == vec_ri || fresh(sel.vec_ri)) && (sel.vec_wi == vec_wi || fresh(sel.vec_wi))
    }

    // poll_modify or select_modify, which touch nothing but their tables
    method TableModify(fd: nat, oev: Mask, nev: Mask, ghost before: seq<Anfd>)
      requires backend != UseEpoll && nev <= {Read, Write}
      requires BackendAgrees(before, epoll_eperms) && OnlyEvents(before, anfds, fd, oev, nev)
      modifies poll, poll.pollidxs, poll.polls, sel, sel.vec_ri, sel.vec_wi
      ensures BackendAgrees(anfds, epoll_eperms)
      ensures poll.pollidxs == old(poll.pollidxs) || fresh(poll.pollidxs)
      ensures poll.polls == old(poll.polls) || fresh(poll.polls)
      ensures sel.vec_ri == old(sel.vec_ri) || fresh(sel.vec_ri)
      ensures sel.vec_wi == old(sel.vec_wi) || fresh(sel.vec_wi)
    {
      match backend
      case UsePoll => poll.PollModify(fd, oev, nev);
      case UseSelect => sel.SelectModify(fd, oev, nev);
    }

    // backend_modify
    method BackendModify(fd: nat, oev: Mask, nev: Mask, ghost before: seq<Anfd>, ghost k: nat,
                         ghost ss0: Stacks<Watcher>)
      requires KillsOk(ss0)
      requires ListsOk() && InSync() && Queued(fdchanges, k, anfds) && k <= |fdchanges|
      requires pq.Valid() && ws <= pq.ws && fd < |anfds| && nev <= {Read, Write} && nev == Interest(fd)
      requires BackendAgrees(before, epoll_eperms) && OnlyEvents(before, anfds, fd, oev, nev)
      modifies this`anfds, this`lists, this`fdchanges, this`activecnt, this`epoll_eperms, this`told, this`kills
      modifies ws`next, ws`active, ws`pending, pq`pendings
      modifies poll, poll.pollidxs, poll.polls, sel, sel.vec_ri, sel.vec_wi
      ensures ListsOk() == true && InSync() == true && Queued(fdchanges, k, anfds) == true && pq.Valid() == true
      ensures BackendAgrees(anfds, epoll_eperms) == true
      ensures old(fdchanges) <= fdchanges && |anfds| == |old(anfds)|
      ensures Progress(old(lists), lists, old(fdchanges), fdchanges) == true
      ensures KillsOnly(old(lists), old(kills), fd) == true && KillsOk(ss0) == true
      ensures backend != UseEpoll ==> lists == old(lists) && pq.pendings == old(pq.pendings) && kills == old(kills)
      ensures ToldOnly(old(told), told) == true
      ensures TablesMoved(old(poll.pollidxs), old(poll.polls), old(sel.vec_ri), old(sel.vec_wi)) == true
    {
      if backend == UseEpoll {
        ghost var _ := EpollModify(fd, oev, nev, before, k, ss0);
      } else {
        TableModify(fd, oev, nev, before);
      }
    }

    // ---------- fd_reify ----------

    // the part of a turn of fd_reify before the backend is told
    method TakeChange(i: nat) returns (fd: nat, o_events: Mask, o_reify: set<ReifyFlag>)
      requires ListsOk() && InSync() && Queued(fdchanges, i, anfds) && i < |fdchanges| && pq.Valid()
      modifies this`anfds
      ensures ListsOk() == true && InSync() == true && Queued(fdchanges, i + 1, anfds) == true && pq.Valid() == true
      ensures fd < |anfds| && fd == fdchanges[i] && anfds[fd].events == Interest(fd) <= {Read, Write}
      ensures OnlyEvents(old(anfds), anfds, fd, o_events, anfds[fd].events)
      ensures o_events != anfds[fd].events || FdSet in old(anfds)[fd].reify ==> FdSet in o_reify
    {
      fd := fdchanges[i];
      var a := anfds[fd];
      o_events, o_reify := a.events, a.reify;
      var m := OrEvents(fd);
      QueueTake(fdchanges, i, anfds, a.(reify := {}, events := m));
      anfds := anfds[fd := a.(reify := {}, events := m)];
      if o_events != m {
        o_reify := {FdSet};
      }
    }

    // the backend hears of what changed
    method Tell(fd: nat, o_events: Mask, o_reify: set<ReifyFlag>, ghost before: seq<Anfd>, ghost k: nat,
                ghost ss0: Stacks<Watcher>)
      requires KillsOk(ss0)
      requires ListsOk() && InSync() && Queued(fdchanges, k, anfds) && k <= |fdchanges|
      requires pq.Valid() && ws <= pq.ws && fd < |anfds| && anfds[fd].events == Interest(fd) <= {Read, Write}
      requires BackendAgrees(before, epoll_eperms) && OnlyEvents(before, anfds, fd, o_events, anfds[fd].events)
      requires o_events != anfds[fd].events || FdSet in before[fd].reify ==> FdSet in o_reify
      modifies this`anfds, this`lists, this`fdchanges, this`activecnt, this`epoll_eperms, this`told, this`kills
      modifies ws`next, ws`active, ws`pending, pq`pendings
      modifies poll, poll.pollidxs, poll.polls, sel, sel.vec_ri, sel.vec_wi
      ensures ListsOk() == true && InSync() == true && Queued(fdchanges, k, anfds) == true && pq.Valid() == true
      ensures BackendAgrees(anfds, epoll_eperms) == true
      ensures old(fdchanges) <= fdchanges && |anfds| == |old(anfds)|
      ensures Progress(old(lists), lists, old(fdchanges), fdchanges) == true
      ensures KillsOnly(old(lists), old(kills), fd) == true && KillsOk(ss0) == true
      ensures backend != UseEpoll ==> lists == old(lists) && pq.pendings == old(pq.pendings) && kills == old(kills)
      ensures ToldOnly(old(told), told) == true
      ensures TablesMoved(old(poll.pollidxs), old(poll.polls), old(sel.vec_ri), old(sel.vec_wi)) == true
    {
      if FdSet in o_reify {
        BackendModify(fd, o_events, anfds[fd].events, before, k, ss0);
      } else {
        AgreesStill(before, anfds, epoll_eperms, fd, o_events);
      }
    }

    // one turn of fd_reify
    method ReifyOne(i: nat, ghost ss0: Stacks<Watcher>)
      requires KillsOk(ss0)
      requires ListsOk() && InSync() && Queued(fdchanges, i, anfds) && i < |fdchanges|
      requires pq.Valid() && ws <= pq.ws && BackendAgrees(anfds, epoll_eperms)
      modifies this`anfds, this`lists, this`fdchanges, this`activecnt, this`epoll_eperms, this`told, this`kills
      modifies ws`next, ws`active, ws`pending, pq`pendings
      modifies poll, poll.pollidxs, poll.polls, sel, sel.vec_ri, sel.vec_wi
      ensures ListsOk() == true && InSync() == true && Queued(fdchanges, i + 1, anfds) == true && pq.Valid() == true
      ensures BackendAgrees(anfds, epoll_eperms) == true
      ensures old(fdchanges) <= fdchanges && |anfds| == |old(anfds)|
      ensures Progress(old(lists), lists, old(fdchanges), fdchanges) == true
      ensures KillsOnly(old(lists), old(kills), old(fdchanges[i])) == true && KillsOk(ss0) == true
      ensures backend != UseEpoll ==> lists == old(lists) && pq.pendings == old(pq.pendings) && kills == old(kills)
      ensures ToldOnly(old(told), told) == true
      ensures TablesMoved(old(poll.pollidxs), old(poll.polls), old(sel.vec_ri), old(sel.vec_wi)) == true
    {
      ghost var before := anfds;
      var fd, o_events, o_reify := TakeChange(i);
      Tell(fd, o_events, o_reify, before, i + 1, ss0);
    }

    lemma AgreesStill(before: seq<Anfd>, as': seq<Anfd>, eperms: seq<int>, fd: nat, events: Mask)
      requires BackendAgrees(before, eperms) && OnlyEvents(before, as', fd, events, events) && FdSet !in before[fd].reify
      ensures BackendAgrees(as', eperms)
    {
      assert forall g: nat :: EventsAt(as', g) == EventsAt(before, g);
    }

    // every list is as in ls0, or empty with its watchers among the dead, who were all on such lists
    static ghost predicate ListsOrDead(ls0: seq<seq<Watcher>>, ls: seq<seq<Watcher>>, dead: seq<Watcher>) {
      && |ls| == |ls0|
      && (forall g :: 0 <= g < |ls| && ls[g] != ls0[g] ==> ls[g] == [] && forall v :: v in ls0[g] ==> v in dead)
      && forall v :: v in dead ==> exists g :: 0 <= g < |ls| && ls[g] == [] && v in ls0[g]
    }

    // one turn of fd_reify, with what became of the lists ls0 at its start
    method ReifyNext(i: nat, ghost ls0: seq<seq<Watcher>>, ghost ss0: Stacks<Watcher>)
      requires ListsOk() && InSync() && Queued(fdchanges, i, anfds) && i < |fdchanges|
      requires pq.Valid() && ws <= pq.ws && BackendAgrees(anfds, epoll_eperms)
      requires KillsOk(ss0) && ListsOrDead(ls0, lists, kills)
      modifies this`anfds, this`lists, this`fdchanges, this`activecnt, this`epoll_eperms, this`told, this`kills
      modifies ws`next, ws`active, ws`pending, pq`pendings
      modifies poll, poll.pollidxs, poll.polls, sel, sel.vec_ri, sel.vec_wi
      ensures ListsOk() == true && InSync() == true && Queued(fdchanges, i + 1, anfds) == true && pq.Valid() == true
      ensures BackendAgrees(anfds, epoll_eperms) == true
      ensures old(fdchanges) <= fdchanges && |anfds| == |old(anfds)|
      ensures Progress(old(lists), lists, old(fdchanges), fdchanges) == true
      ensures KillsOk(ss0) == true && ListsOrDead(ls0, lists, kills) == true
      ensures backend != UseEpoll ==> kills == old(kills) && pq.pendings == old(pq.pendings)
      ensures ToldOnly(old(told), told) == true
      ensures TablesMoved(old(poll.pollidxs), old(poll.polls), old(sel.vec_ri), old(sel.vec_wi)) == true
    {
      ghost var fd, ls, ks := fdchanges[i], lists, kills;
      ReifyOne(i, ss0);
      MoreDead(ls0, ls, lists, fd, ks, kills);
    }

    // the loop of fd_reify; a killed descriptor leaves fewer watchers, any other one fewer changes
    method ReifyAll(ghost ss0: Stacks<Watcher>)
      requires ListsOk() && InSync() && Queued(fdchanges, 0, anfds)
      requires pq.Valid() && ws <= pq.ws && BackendAgrees(anfds, epoll_eperms) && kills == [] && KillsOk(ss0)
      modifies this`anfds, this`lists, this`fdchanges, this`activecnt, this`epoll_eperms, this`told, this`kills
      modifies ws`next, ws`active, ws`pending, pq`pendings
      modifies poll, poll.pollidxs, poll.polls, sel, sel.vec_ri, sel.vec_wi
      ensures ListsOk() == true && InSync() == true && Queued(fdchanges, |fdchanges|, anfds) == true
      ensures pq.Valid() == true
      ensures BackendAgrees(anfds, epoll_eperms) == true && |anfds| == |old(anfds)|
      ensures KillsOk(ss0) == true && ListsOrDead(old(lists), lists, kills) == true
      ensures backend != UseEpoll ==> kills == [] && pq.pendings == old(pq.pendings)
      ensures ToldOnly(old(told), told) == true
      ensures TablesMoved(old(poll.pollidxs), old(poll.polls), old(sel.vec_ri), old(sel.vec_wi)) == true
    {
      var i := 0;
      while i < |fdchanges|
        invariant 0 <= i <= |fdchanges| && |anfds| == |old(anfds)|
        invariant ListsOk() == true && InSync() == true && Queued(fdchanges, i, anfds) == true && pq.Valid() == true
        invariant BackendAgrees(anfds, epoll_eperms) == true
        invariant KillsOk(ss0) == true && ListsOrDead(old(lists), lists, kills) == true
        invariant backend != UseEpoll ==> kills == [] && pq.pendings == old(pq.pendings)
        invariant ToldOnly(old(told), told) == true
        invariant TablesMoved(old(poll.pollidxs), old(poll.polls), old(sel.vec_ri), old(sel.vec_wi)) == true
        decreases Total(lists), |fdchanges| - i
      {
        ghost var before := told;
        ReifyNext(i, old(lists), ss0);
        ToldOn(old(told), before, told);
        i := i + 1;
      }
    }

    // fd_reify
    method FdReify()
      requires Valid() && BackendAgrees(anfds, epoll_eperms)
      modifies this`anfds, this`lists, this`fdchanges, this`activecnt, this`epoll_eperms, this`told, this`kills
      modifies ws`next, ws`active, ws`pending, pq`pendings
      modifies poll, poll.pollidxs, poll.polls, sel, sel.vec_ri, sel.vec_wi
      ensures ListsOk() == true && InSync() == true && Queued(fdchanges, 0, anfds) == true && pq.Valid() == true
      ensures fdchanges == [] && |anfds| == |old(anfds)|
      ensures forall fd :: 0 <= fd < |anfds| ==> anfds[fd].reify == {} && anfds[fd].events == Interest(fd)
      ensures BackendAgrees(anfds, epoll_eperms) == true
      ensures KillsOk(old(pq.pendings)) == true && ListsOrDead(old(lists), lists, kills) == true
      ensures backend != UseEpoll ==> kills == [] && pq.pendings == old(pq.pendings)
      ensures ToldOnly(old(told), told) == true
      ensures TablesMoved(old(poll.pollidxs), old(poll.polls), old(sel.vec_ri), old(sel.vec_wi)) == true
    {
      kills := [];
      ReifyAll(pq.pendings);
      fdchanges := [];
    }

    static lemma MoreDead(ls0: seq<seq<Watcher>>, ls: seq<seq<Watcher>>, ls': seq<seq<Watcher>>, fd: nat,
                          dead0: seq<Watcher>, dead: seq<Watcher>)
      requires ListsOrDead(ls0, ls, dead0) && dead0 <= dead
      requires fd < |ls| == |ls'| && forall g :: 0 <= g < |ls| && g != fd ==> ls'[g] == ls[g]
      requires if ls'[fd] == ls[fd] then dead == dead0 else ls'[fd] == [] && JustThese(ls[fd], dead0, dead)
      ensures ListsOrDead(ls0, ls', dead)
    {
      forall v | v in dead
        ensures exists g :: 0 <= g < |ls'| && ls'[g] == [] && v in ls0[g]
      {
        if v in dead0 {
          var g :| 0 <= g < |ls| && ls[g] == [] && v in ls0[g];
          assert ls'[g] == [];
        } else {
          assert ls'[fd] == [] && v in ls0[fd];
        }
      }
    }

    static lemma ListsDieWhole(io: IoState, ls0: seq<seq<Watcher>>, ls: seq<seq<Watcher>>, ks: seq<Watcher>)
      requires ListsOf(ls0, io) && ListsOrDead(ls0, ls, ks)
      ensures KilledWhole(io, ks) == true
    {
      forall w | w in ks
        ensures w in io.active && w in io.fd
        ensures forall v :: v in io.active && v in io.fd && io.fd[v] == io.fd[w] ==> v in ks
      {
        var g :| 0 <= g < |ls| && ls[g] == [] && w in ls0[g];
      }
    }

    // ---------- whole runs ----------

    ghost function Active(): set<Watcher>
      reads ws`active
    {
      set w | w in ws && w.active != 0
    }

    lemma ActiveAreListed()
      requires ListsOk()
      ensures Active() == set w | w in ws && 0 <= w.fd < |lists| && w in lists[w.fd]
    {
      forall w | w in ws && 0 <= w.fd < |lists| && w in lists[w.fd]
        ensures w.active != 0
      {
        assert Listed(anfds[w.fd].head, lists[w.fd], w.fd, ws);
      }
    }

    // who was on a list before is still active unless killed
    lemma SurvivorsAreActive(ls: seq<seq<Watcher>>, active: set<Watcher>)
      requires ListsOrDead(ls, lists, kills) && forall v :: v in kills ==> v.active == 0
      requires active == set w | w in ws && 0 <= w.fd < |ls| && w in ls[w.fd]
      requires Active() == set w | w in ws && 0 <= w.fd < |lists| && w in lists[w.fd]
      ensures Active() == active - set v | v in kills
    {
    }

    // starting and stopping watchers is not the backend's business
    lemma AgreesUntold(before: seq<Anfd>, gone0: set<nat>, as': seq<Anfd>, eperms: seq<int>)
      requires AgreesBut(gone0, before, eperms) == true && Requested(before, as') == true
      requires forall g :: g in gone0 && g !in gone ==> FdSet in ReifyAt(as', g)
      ensures BackendAgrees(as', eperms)
    {
      assert forall g: nat :: EventsAt(as', g) == EventsAt(before, g);
    }

    // watchers that may be started (the assertions of ev_io_start)
    ghost predicate Startable()
      reads ws`fd, ws`events
    {
      forall w :: w in ws ==> w.fd >= 0 && w.events <= {IoFdSet, Read, Write}
    }

    method StartTold(w: Watcher)
      requires Valid() && Startable() && w in ws && BackendAgrees(anfds, epoll_eperms)
      modifies this`anfds, this`lists, this`fdchanges, this`activecnt, this`gone, w`next, w`active, w`events, w`priority
      ensures ListsOk() == true && InSync() == true && Queued(fdchanges, 0, anfds) == true && pq.Valid() == true
      ensures BackendAgrees(anfds, epoll_eperms) == true && w.active != 0 && pq.pendings == old(pq.pendings)
      ensures w.events == if old(w.active) != 0 then old(w.events) else old(w.events) - {IoFdSet}
      ensures gone == Regained(old(gone), w, old(w.active), old(w.events))
      ensures old(w.HasPriority()) ==> w.priority == old(w.priority)
    {
      ghost var before, gone0 := anfds, gone;
      IoStart(w);
      AgreesUntold(before, gone0, anfds, epoll_eperms);
    }

    method StartKept(w: Watcher)
      requires Valid() && Startable() && w in ws && BackendAgrees(anfds, epoll_eperms)
      modifies this`anfds, this`lists, this`fdchanges, this`activecnt, this`gone, w`next, w`active, w`events, w`priority
      ensures ListsOk() == true && InSync() == true && Queued(fdchanges, 0, anfds) == true && pq.Valid() == true
      ensures Startable() == true && BackendAgrees(anfds, epoll_eperms) == true
      ensures w.active != 0 && pq.pendings == old(pq.pendings) && w.events - {IoFdSet} == old(w.events) - {IoFdSet}
      ensures gone == Regained(old(gone), w, old(w.active), old(w.events))
      ensures old(w.HasPriority()) ==> w.priority == old(w.priority)
    {
      StartTold(w);
    }

    // all watchers but w are as in io
    ghost predicate SameBut(io: IoState, w: Watcher)
      reads (ws - {w})`active, ws`fd, (ws - {w})`events
    {
      && io.active <= ws == io.fd.Keys == io.asked.Keys && w in ws && (forall v :: v in ws ==> v.fd == io.fd[v])
      && (forall v :: v in ws && v != w ==> (v.active != 0 <==> v in io.active))
      && forall v :: v in ws && v != w ==> v.events - {IoFdSet} == io.asked[v]
    }

    lemma SameAtFirst(w: Watcher)
      requires w in ws
      ensures SameBut(Io(), w) == true && w in Io().asked && w.events - {IoFdSet} == Io().asked[w]
    {
    }

    // what starting or stopping w leaves behind
    lemma OneIoState(io: IoState, w: Watcher)
      requires SameBut(io, w) && w.events - {IoFdSet} == io.asked[w]
      ensures Io() == io.(active := if w.active != 0 then io.active + {w} else io.active - {w})
    {
    }

    method StartOne(w: Watcher, ghost io: IoState)
      requires Valid() && Startable() && w in ws && BackendAgrees(anfds, epoll_eperms)
      requires SameBut(io, w) == true && w in io.asked && w.events - {IoFdSet} == io.asked[w]
      modifies this`anfds, this`lists, this`fdchanges, this`activecnt, this`gone, w`next, w`active, w`events, w`priority
      ensures ListsOk() == true && InSync() == true && Queued(fdchanges, 0, anfds) == true && pq.Valid() == true
      ensures Startable() == true && BackendAgrees(anfds, epoll_eperms) == true
      ensures SameBut(io, w) == true && w.events - {IoFdSet} == io.asked[w]
      ensures w.active != 0 && pq.pendings == old(pq.pendings)
      ensures gone == Regained(old(gone), w, old(w.active), old(w.events))
      ensures old(w.HasPriority()) ==> w.priority == old(w.priority)
    {
      StartKept(w);
    }

    method StartStep(w: Watcher)
      requires Valid() && Startable() && w in ws && BackendAgrees(anfds, epoll_eperms)
      modifies this`anfds, this`lists, this`fdchanges, this`activecnt, this`gone, w`next, w`active, w`events, w`priority
      ensures ListsOk() == true && InSync() == true && Queued(fdchanges, 0, anfds) == true && pq.Valid() == true
      ensures Startable() && BackendAgrees(anfds, epoll_eperms) == true
      ensures Active() == old(Active()) + {w} && Io() == old(Io()).(active := Active())
      ensures pq.pendings == old(pq.pendings)
      ensures gone == Regained(old(gone), w, old(w.active), old(w.events))
      ensures old(w.HasPriority()) ==> w.priority == old(w.priority)
    {
      ghost var io := Io();
      SameAtFirst(w);
      StartOne(w, io);
      OneIoState(io, w);
    }

    method StopTold(w: Watcher)
      requires Valid() && w in ws && BackendAgrees(anfds, epoll_eperms)
      modifies this`anfds, this`lists, this`fdchanges, this`activecnt, ws`next, w`active, w`pending, pq`pendings
      ensures ListsOk() == true && InSync() == true && Queued(fdchanges, 0, anfds) == true && pq.Valid() == true
      ensures BackendAgrees(anfds, epoll_eperms) == true && w.active == 0
      ensures pq.pendings == pq.Without(old(pq.pendings), w)
    {
      ghost var before := anfds;
      IoStop(w, 0);
      AgreesUntold(before, gone, anfds, epoll_eperms);
    }

    method StopOne(w: Watcher, ghost io: IoState)
      requires Valid() && w in ws && BackendAgrees(anfds, epoll_eperms)
      requires SameBut(io, w) == true && w in io.asked && w.events - {IoFdSet} == io.asked[w]
      modifies this`anfds, this`lists, this`fdchanges, this`activecnt, ws`next, w`active, w`pending, pq`pendings
      ensures ListsOk() == true && InSync() == true && Queued(fdchanges, 0, anfds) == true && pq.Valid() == true
      ensures BackendAgrees(anfds, epoll_eperms) == true && w.active == 0
      ensures SameBut(io, w) == true && w.events - {IoFdSet} == io.asked[w]
      ensures pq.pendings == pq.Without(old(pq.pendings), w)
    {
      StopTold(w);
    }

    method StopStep(w: Watcher)
      requires Valid() && w in ws && BackendAgrees(anfds, epoll_eperms)
      modifies this`anfds, this`lists, this`fdchanges, this`activecnt, ws`next, w`active, w`pending, pq`pendings
      ensures ListsOk() == true && InSync() == true && Queued(fdchanges, 0, anfds) == true && pq.Valid() == true
      ensures BackendAgrees(anfds, epoll_eperms) == true
      ensures Active() == old(Active()) - {w} && Io() == old(Io()).(active := Active())
      ensures pq.pendings == pq.Without(old(pq.pendings), w)
    {
      ghost var io := Io();
      SameAtFirst(w);
      StopOne(w, io);
      OneIoState(io, w);
    }

    method StartFrom(w: Watcher, ghost io: IoState)
      requires Valid() && Startable() && w in ws && BackendAgrees(anfds, epoll_eperms) && Is(io)
      modifies this`anfds, this`lists, this`fdchanges, this`activecnt, this`gone, w`next, w`active, w`events, w`priority
      ensures ListsOk() == true && InSync() == true && Queued(fdchanges, 0, anfds) == true && pq.Valid() == true
      ensures Startable() == true && BackendAgrees(anfds, epoll_eperms) == true
      ensures Is(io.(active := io.active + {w})) == true && pq.pendings == old(pq.pendings)
      ensures old(w.HasPriority()) ==> w.priority == old(w.priority)
    {
      IsIo(io);
      StartStep(w);
      IsIo(io.(active := io.active + {w}));
    }

    method StopFrom(w: Watcher, ghost io: IoState)
      requires Valid() && Startable() && w in ws && BackendAgrees(anfds, epoll_eperms) && Is(io)
      modifies this`anfds, this`lists, this`fdchanges, this`activecnt, ws`next, w`active, w`pending, pq`pendings
      ensures ListsOk() == true && InSync() == true && Queued(fdchanges, 0, anfds) == true && pq.Valid() == true
      ensures Startable() == true && BackendAgrees(anfds, epoll_eperms) == true
      ensures Is(io.(active := io.active - {w})) == true
      ensures pq.pendings == pq.Without(old(pq.pendings), w)
    {
      IsIo(io);
      StopStep(w);
      IsIo(io.(active := io.active - {w}));
    }

    // ev_io_set, which is not for active watchers
    method SetStep(w: Watcher, fd: int, events: Mask)
      requires Valid() && Startable() && w in ws && BackendAgrees(anfds, epoll_eperms)
      requires fd >= 0 && events <= {Read, Write}
      modifies w`fd, w`events
      ensures ListsOk() == true && InSync() == true && Queued(fdchanges, 0, anfds) == true && pq.Valid() == true
      ensures Startable() && BackendAgrees(anfds, epoll_eperms) == true
      ensures w.active == 0 ==> w.fd == fd && w.events == events + {IoFdSet}
      ensures w.active != 0 ==> w.fd == old(w.fd) && w.events == old(w.events)
    {
      if w.active == 0 {
        w.fd, w.events := fd, events + {IoFdSet};
        InactiveChanged(w);
      }
    }

    // A descriptor is closed, and perhaps opened again under the same number.  The loop does not notice.
    ghost method CloseStep(fd: nat)
      requires Valid() && BackendAgrees(anfds, epoll_eperms)
      modifies this`told, this`gone
      ensures BackendAgrees(anfds, epoll_eperms) == true
      ensures told == old(told) + [Closed(fd)] && gone == old(gone) + {fd}
    {
      if backend == UseEpoll {
        ClosedMore(told, gone, fd, anfds);
      }
      told, gone := told + [Closed(fd)], gone + {fd};
    }

    // fd_reify, and who is active after it
    method ReifyActive()
      requires Valid() && BackendAgrees(anfds, epoll_eperms)
      modifies this`anfds, this`lists, this`fdchanges, this`activecnt, this`epoll_eperms, this`told, this`kills
      modifies ws`next, ws`active, ws`pending, pq`pendings
      modifies poll, poll.pollidxs, poll.polls, sel, sel.vec_ri, sel.vec_wi
      ensures ListsOk() == true && InSync() == true && Queued(fdchanges, 0, anfds) == true && pq.Valid() == true
      ensures BackendAgrees(anfds, epoll_eperms) == true && fdchanges == []
      ensures Active() == old(Active()) - set v | v in kills
      ensures KillsOk(old(pq.pendings)) == true && ListsOrDead(old(lists), lists, kills) == true
      ensures backend != UseEpoll ==> kills == [] && pq.pendings == old(pq.pendings)
      ensures ToldOnly(old(told), told) == true
      ensures TablesMoved(old(poll.pollidxs), old(poll.polls), old(sel.vec_ri), old(sel.vec_wi)) == true
    {
      ActiveAreListed();
      ghost var ls, active := lists, Active();
      FdReify();
      ActiveAreListed();
      SurvivorsAreActive(ls, active);
    }

    ghost predicate IoKept(io: IoState)
      reads ws`fd, ws`events
    {
      io.fd == Fds() && io.asked == Masks()
    }

    method ReifyKept(ghost io: IoState)
      requires Valid() && BackendAgrees(anfds, epoll_eperms) && io == Io()
      modifies this`anfds, this`lists, this`fdchanges, this`activecnt, this`epoll_eperms, this`told, this`kills
      modifies ws`next, ws`active, ws`pending, pq`pendings
      modifies poll, poll.pollidxs, poll.polls, sel, sel.vec_ri, sel.vec_wi
      ensures ListsOk() == true && InSync() == true && Queued(fdchanges, 0, anfds) == true && pq.Valid() == true
      ensures BackendAgrees(anfds, epoll_eperms) == true && fdchanges == []
      ensures Active() == io.active - (set v | v in kills) && IoKept(io) == true
      ensures KillsOk(old(pq.pendings)) == true && KilledWhole(io, kills) == true
      ensures backend != UseEpoll ==> kills == [] && pq.pendings == old(pq.pendings)
      ensures ToldOnly(old(told), told) == true
      ensures TablesMoved(old(poll.pollidxs), old(poll.polls), old(sel.vec_ri), old(sel.vec_wi)) == true
    {
      ListsAreOf();
      ghost var ls := lists;
      ReifyActive();
      ListsDieWhole(io, ls, lists, kills);
    }

    lemma AllReified()
      requires InSync() && Queued(fdchanges, 0, anfds) && fdchanges == [] && ListsOk()
      ensures UpToDate()
    {
    }

    method ReifyStep()
      requires Valid() && BackendAgrees(anfds, epoll_eperms)
      modifies this`anfds, this`lists, this`fdchanges, this`activecnt, this`epoll_eperms, this`told, this`kills
      modifies ws`next, ws`active, ws`pending, pq`pendings
      modifies poll, poll.pollidxs, poll.polls, sel, sel.vec_ri, sel.vec_wi
      ensures ListsOk() == true && InSync() == true && Queued(fdchanges, 0, anfds) == true && pq.Valid() == true
      ensures BackendAgrees(anfds, epoll_eperms) == true
      ensures Active() == old(Active()) - (set v | v in kills) && Io() == old(Io()).(active := Active())
      ensures KillsOk(old(pq.pendings)) == true && KilledWhole(old(Io()), kills) == true
      ensures backend != UseEpoll ==> kills == [] && pq.pendings == old(pq.pendings)
      ensures UpToDate() == true
      ensures ToldOnly(old(told), told) == true
      ensures TablesMoved(old(poll.pollidxs), old(poll.polls), old(sel.vec_ri), old(sel.vec_wi)) == true
    {
      ReifyKept(Io());
      AllReified();
    }

    method ReifyFrom(ghost io: IoState) returns (ghost io': IoState)
      requires Valid() && Startable() && BackendAgrees(anfds, epoll_eperms) && Is(io)
      modifies this`anfds, this`lists, this`fdchanges, this`activecnt, this`epoll_eperms, this`told, this`kills
      modifies ws`next, ws`active, ws`pending, pq`pendings
      modifies poll, poll.pollidxs, poll.polls, sel, sel.vec_ri, sel.vec_wi
      ensures ListsOk() == true && InSync() == true && Queued(fdchanges, 0, anfds) == true && pq.Valid() == true
      ensures Startable() == true && BackendAgrees(anfds, epoll_eperms) == true
      ensures Is(io') == true && io' == io.(active := io.active - set w | w in kills) && UpToDate() == true
      ensures KillsOk(old(pq.pendings)) == true && KilledWhole(io, kills) == true
      ensures backend != UseEpoll ==> kills == []
      ensures TablesMoved(old(poll.pollidxs), old(poll.polls), old(sel.vec_ri), old(sel.vec_wi)) == true
    {
      IsIo(io);
      ReifyStep();
      io' := Io();
      IsIo(io');
    }

    // The backend watches for what the active watchers ask for.
    ghost predicate UpToDate()
      reads this`anfds, this`fdchanges, ws`active, ws`fd, ws`events
    {
      fdchanges == [] && forall fd: nat :: EventsAt(anfds, fd) == Interest(fd)
    }

    // backend_poll, with what the kernel answers about the descriptors that the backend was asked about
    method BackendPoll(answer: seq<(nat, Mask)>, ghost io: IoState) returns (reports: seq<(nat, Mask)>)
      requires ListsOk() && UpToDate() && Is(io)
      ensures reports == Heard(io, answer)
      ensures forall i :: 0 <= i < |reports| ==> EventsAt(anfds, reports[i].0) != {}
    {
      reports := [];
      assert answer[..0] == [];
      for i := 0 to |answer|
        invariant reports == Heard(io, answer[..i])
        invariant forall j :: 0 <= j < |reports| ==> EventsAt(anfds, reports[j].0) != {}
      {
        assert answer[..i + 1][..i] == answer[..i];
        WatchedIsWanted(answer[i].0, io);
        if EventsAt(anfds, answer[i].0) != {} {
          reports := reports + [answer[i]];
        }
      }
      assert answer[..|answer|] == answer;
    }

    // the backend was asked about a descriptor iff somebody wants it
    lemma WatchedIsWanted(fd: nat, io: IoState)
      requires ListsOk() && UpToDate() && Is(io)
      ensures EventsAt(anfds, fd) != {} <==> Wanted(io, fd)
    {
      if Wanted(io, fd) {
        var w :| w in io.active && w in io.fd && w in io.asked && io.fd[w] == fd && io.asked[w] != {};
        var f :| f in io.asked[w];
        assert f in Interest(fd);
      }
      if Interest(fd) != {} {
        var f :| f in Interest(fd);
        var w :| w in ws && w.active != 0 && w.fd == fd && f in w.events;
        assert Listed(anfds[fd].head, lists[fd], fd, ws) && w in lists[fd];
        assert f in io.asked[w];
      }
    }

    // what the poll reports on has watchers
    lemma ReportedHaveWatchers(reports: seq<(nat, Mask)>)
      requires ListsOk() && UpToDate() && forall i :: 0 <= i < |reports| ==> EventsAt(anfds, reports[i].0) != {}
      ensures forall i :: 0 <= i < |reports| ==> reports[i].0 < |lists| && lists[reports[i].0] != []
    {
      forall i | 0 <= i < |reports|
        ensures reports[i].0 < |lists| && lists[reports[i].0] != []
      {
        HasWatchers(reports[i].0);
      }
    }

    // a poll, and what it feeds
    method Poll(answer: seq<(nat, Mask)>, ghost io: IoState, ghost prim: map<Watcher, nat>)
      returns (reports: seq<(nat, Mask)>, ghost ls: seq<seq<Watcher>>)
      requires Valid() && UpToDate() && Is(io) && pq.Agrees(prim)
      modifies pq`pendings, ws`pending
      ensures ListsOk() == true && pq.Valid() == true
      ensures PollOk(io, answer, old(pq.pendings), ls, reports, pq.pendings, prim, pq.pending_w) == true
    {
      IsIo(io);
      ListsAreOf();
      ls := lists;
      reports := BackendPoll(answer, io);
      ReportedHaveWatchers(reports);
      FdEvents(reports, ls, io.asked, prim);
    }

    // what an operation logs of closed descriptors
    ghost predicate Logged(told0: seq<Told>, gone0: set<nat>, op: FdOp)
      reads this`told, this`gone
    {
      && Closes(told) == Closes(told0) + ClosesOf([op])
      && (op.DoClose? ==> gone == gone0 + {op.num}) && (!op.DoClose? && !op.DoStart? ==> gone == gone0)
    }

    // a start, stop or set
    method PerformOn(op: FdOp)
      requires Valid() && Startable() && BackendAgrees(anfds, epoll_eperms) && ForWatcherOf(op, ws)
      requires op.DoStart? || op.DoStop? || op.DoSet?
      modifies this`anfds, this`lists, this`fdchanges, this`activecnt, this`gone
      modifies ws`next, ws`active, ws`pending, ws`fd, ws`events, ws`priority, pq`pendings
      ensures ListsOk() == true && InSync() == true && Queued(fdchanges, 0, anfds) == true && pq.Valid() == true
      ensures Startable() == true && BackendAgrees(anfds, epoll_eperms) == true && Active() == FdStep(old(Active()), op)
      ensures gone == if op.DoStart? then old(Regained(gone, op.w, op.w.active, op.w.events)) else old(gone)
    {
      match op
      case DoStart(w) => StartStep(w);
      case DoStop(w) => StopStep(w);
      case DoSet(w, fd, events) => SetStep(w, fd, events);
    }

    lemma LogsNothing(gone0: set<nat>, op: FdOp)
      requires op.DoStart? || ((op.DoStop? || op.DoSet? || op.DoReify?) && gone == gone0)
      ensures Logged(told, gone0, op) == true
    {
      OneClose(op);
    }

    method PerformLogged(op: FdOp)
      requires Valid() && Startable() && BackendAgrees(anfds, epoll_eperms) && ForWatcherOf(op, ws)
      requires op.DoStart? || op.DoStop? || op.DoSet?
      modifies this`anfds, this`lists, this`fdchanges, this`activecnt, this`gone
      modifies ws`next, ws`active, ws`pending, ws`fd, ws`events, ws`priority, pq`pendings
      ensures ListsOk() == true && InSync() == true && Queued(fdchanges, 0, anfds) == true && pq.Valid() == true
      ensures Startable() == true && BackendAgrees(anfds, epoll_eperms) == true && Active() == FdStep(old(Active()), op)
      ensures Logged(old(told), old(gone), op) == true
      ensures op.DoStart? ==> gone == old(Regained(gone, op.w, op.w.active, op.w.events))
    {
      ghost var gone0 := gone;
      PerformOn(op);
      LogsNothing(gone0, op);
    }

    // fd_reify, which closes nothing
    method ReifyLogged()
      requires Valid() && Startable() && BackendAgrees(anfds, epoll_eperms)
      modifies this`anfds, this`lists, this`fdchanges, this`activecnt, this`epoll_eperms, this`told, this`kills
      modifies ws`next, ws`active, ws`pending, pq`pendings
      modifies poll, poll.pollidxs, poll.polls, sel, sel.vec_ri, sel.vec_wi
      ensures ListsOk() == true && InSync() == true && Queued(fdchanges, 0, anfds) == true && pq.Valid() == true
      ensures Startable() == true && BackendAgrees(anfds, epoll_eperms) == true && UpToDate() == true
      ensures TablesMoved(old(poll.pollidxs), old(poll.polls), old(sel.vec_ri), old(sel.vec_wi)) == true
      ensures backend != UseEpoll ==> Active() == old(Active())
      ensures Logged(old(told), old(gone), DoReify) == true
    {
      ghost var told0, gone0 := told, gone;
      ReifyStep();
      LogsCalls(told0, gone0);
    }

    lemma LogsCalls(told0: seq<Told>, gone0: set<nat>)
      requires ToldOnly(told0, told) == true && gone == gone0
      ensures Logged(told0, gone0, DoReify) == true
    {
      NothingClosed(told0, told);
      OneClose(DoReify);
    }

    ghost method CloseLogged(fd: nat)
      requires Valid() && BackendAgrees(anfds, epoll_eperms)
      modifies this`told, this`gone
      ensures BackendAgrees(anfds, epoll_eperms) == true && Logged(old(told), old(gone), DoClose(fd)) == true
    {
      CloseStep(fd);
      OneClose(DoClose(fd));
    }

    method Perform(op: FdOp)
      requires Valid() && Startable() && BackendAgrees(anfds, epoll_eperms) && ForWatcherOf(op, ws)
      modifies this`anfds, this`lists, this`fdchanges, this`activecnt, this`epoll_eperms, this`told, this`gone, this`kills
      modifies ws`next, ws`active, ws`pending, ws`fd, ws`events, ws`priority, pq`pendings
      modifies poll, poll.pollidxs, poll.polls, sel, sel.vec_ri, sel.vec_wi
      ensures ListsOk() == true && InSync() == true && Queued(fdchanges, 0, anfds) == true && pq.Valid() == true
      ensures Startable() == true && BackendAgrees(anfds, epoll_eperms) == true
      ensures TablesMoved(old(poll.pollidxs), old(poll.polls), old(sel.vec_ri), old(sel.vec_wi)) == true
      ensures backend != UseEpoll ==> Active() == FdStep(old(Active()), op)
      ensures op == DoReify ==> UpToDate() == true
      ensures Logged(old(told), old(gone), op) == true
      ensures op.DoStart? ==> gone == old(Regained(gone, op.w, op.w.active, op.w.events))
    {
      match op
      case DoReify => ReifyLogged();
      case DoClose(fd) => CloseLogged(fd);
      case _ => PerformLogged(op);
    }

    // any sequence of starts, stops, sets and reifies, with descriptors closed in between
    method Replay(ops: seq<FdOp>)
      requires Valid() && Startable() && BackendAgrees(anfds, epoll_eperms)
      requires forall i :: 0 <= i < |ops| ==> ForWatcherOf(ops[i], ws)
      modifies this`anfds, this`lists, this`fdchanges, this`activecnt, this`epoll_eperms, this`told, this`gone, this`kills
      modifies ws`next, ws`active, ws`pending, ws`fd, ws`events, ws`priority, pq`pendings
      modifies poll, poll.pollidxs, poll.polls, sel, sel.vec_ri, sel.vec_wi
      ensures ListsOk() == true && InSync() == true && Queued(fdchanges, 0, anfds) == true && pq.Valid() == true
      ensures Startable() && BackendAgrees(anfds, epoll_eperms) == true
      ensures TablesMoved(old(poll.pollidxs), old(poll.polls), old(sel.vec_ri), old(sel.vec_wi)) == true
      ensures backend != UseEpoll ==> Active() == FdRun(old(Active()), ops)
      ensures Closes(told) == Closes(old(told)) + ClosesOf(ops)
    {
      assert ops[..0] == [];
      for i := 0 to |ops|
        invariant ListsOk() == true && InSync() == true && Queued(fdchanges, 0, anfds) == true && pq.Valid() == true
        invariant Startable() && BackendAgrees(anfds, epoll_eperms) == true
        invariant TablesMoved(old(poll.pollidxs), old(poll.polls), old(sel.vec_ri), old(sel.vec_wi))
        invariant backend != UseEpoll ==> Active() == FdRun(old(Active()), ops[..i])
        invariant Closes(told) == Closes(old(told)) + ClosesOf(ops[..i])
      {
        assert ops[..i + 1][..i] == ops[..i] && [ops[i]][..0] == [];
        Perform(ops[i]);
      }
      assert ops[..|ops|] == ops;
    }

    // After any history, the table given to poll has one entry for each descriptor that the watchers left
    // active ask something of, none for the others, and each entry asks for exactly that.
    method PollAgreement(ops: seq<FdOp>)
      requires Valid() && Startable() && BackendAgrees(anfds, epoll_eperms) && backend == UsePoll
      requires forall i :: 0 <= i < |ops| ==> ForWatcherOf(ops[i], ws)
      modifies this`anfds, this`lists, this`fdchanges, this`activecnt, this`epoll_eperms, this`told, this`gone, this`kills
      modifies ws`next, ws`active, ws`pending, ws`fd, ws`events, ws`priority, pq`pendings
      modifies poll, poll.pollidxs, poll.polls, sel, sel.vec_ri, sel.vec_wi
      ensures poll.Valid() && Active() == FdRun(old(Active()), ops)
      ensures forall fd: nat :: poll.Asked(fd) == Interest(fd)
      ensures forall fd: nat :: Interest(fd) != {} <==> exists i :: 0 <= i < poll.pollcnt && poll.polls[i].fd == fd
      ensures forall i, j :: 0 <= i < j < poll.pollcnt ==> poll.polls[i].fd != poll.polls[j].fd
      ensures forall i :: 0 <= i < poll.pollcnt ==> EntryIs(poll.polls[i], Interest(poll.polls[i].fd))
    {
      Replay(ops);
      ReifyStep();
      forall fd: nat {
        poll.OneEntryEach(fd);
      }
    }

    lemma BitsAreInterest()
      requires backend == UseSelect && BackendAgrees(anfds, epoll_eperms) && UpToDate()
      ensures forall fd: nat :: InSet(sel.vec_ri[..], fd) <==> Read in Interest(fd)
      ensures forall fd: nat :: InSet(sel.vec_wi[..], fd) <==> Write in Interest(fd)
    {
      assert forall fd: nat :: sel.Asked(fd) == Interest(fd);
    }

    // The same for select: a bit is set exactly when some watcher left active asks for it.
    method SelectAgreement(ops: seq<FdOp>)
      requires Valid() && Startable() && BackendAgrees(anfds, epoll_eperms) && backend == UseSelect
      requires forall i :: 0 <= i < |ops| ==> ForWatcherOf(ops[i], ws)
      modifies this`anfds, this`lists, this`fdchanges, this`activecnt, this`epoll_eperms, this`told, this`gone, this`kills
      modifies ws`next, ws`active, ws`pending, ws`fd, ws`events, ws`priority, pq`pendings
      modifies poll, poll.pollidxs, poll.polls, sel, sel.vec_ri, sel.vec_wi
      ensures sel.Valid() && Active() == FdRun(old(Active()), ops)
      ensures forall fd: nat :: InSet(sel.vec_ri[..], fd) <==> Read in Interest(fd)
      ensures forall fd: nat :: InSet(sel.vec_wi[..], fd) <==> Write in Interest(fd)
    {
      Replay(ops);
      ReifyStep();
      BitsAreInterest();
    }

    // The same for epoll: whatever the kernel answered, unless a turn was stranded it watches for what the
    // watchers left active ask for, save for descriptors that were refused or killed, or that were closed and
    // then not asked for by a watcher set since.
    method EpollAgreement(ops: seq<FdOp>)
      requires Valid() && Startable() && BackendAgrees(anfds, epoll_eperms) && backend == UseEpoll
      requires forall i :: 0 <= i < |ops| ==> ForWatcherOf(ops[i], ws)
      modifies this`anfds, this`lists, this`fdchanges, this`activecnt, this`epoll_eperms, this`told, this`gone, this`kills
      modifies ws`next, ws`active, ws`pending, ws`fd, ws`events, ws`priority, pq`pendings
      modifies poll, poll.pollidxs, poll.polls, sel, sel.vec_ri, sel.vec_wi
      ensures RightLog(told) && forall fd: nat :: Known(told, fd).0 == Interest(fd)
      ensures Closes(told) == Closes(old(told)) + ClosesOf(ops)
      ensures forall rs, fd: nat | Smooth(told, rs, fd) && EpollAfter(told, rs, fd).live && fd !in gone ::
                Interest(fd) != {} ==> EpollAfter(told, rs, fd).kernel == Some(Interest(fd))
    {
      Replay(ops);
      ghost var before := told;
      ReifyStep();
      NothingClosed(before, told);
      assert forall fd: nat :: Known(told, fd).0 == Interest(fd);
      forall rs, fd: nat | Smooth(told, rs, fd)
        ensures EpollAfter(told, rs, fd).live && Interest(fd) != {} && fd !in gone ==>
          EpollAfter(told, rs, fd).kernel == Some(Interest(fd))
      {
        KernelWatches(told, rs, fd);
      }
    }

    // nothing is left that epoll was not told of, save for what is gone
    lemma ToldOfAll(fd: nat)
      requires backend == UseEpoll && BackendAgrees(anfds, epoll_eperms) && Queued(fdchanges, 0, anfds) && fdchanges == []
      requires fd !in gone
      ensures !Stale(told, fd) && RightLog(told) && Known(told, fd).0 == EventsAt(anfds, fd)
    {
    }

    lemma InIo(w: Watcher)
      requires w in ws && w.active != 0
      ensures w in Io().active && w in Io().fd && w in Io().asked && Io().fd[w] == w.fd && Io().asked[w] == w.events - {IoFdSet}
    {
    }

    // who is still active asks for what it asked for before
    lemma AsksFor(w: Watcher, io: IoState, fd: nat, events: Mask)
      requires w in ws && w in Active() && Io() == io.(active := Active())
      requires w in io.fd && w in io.asked && io.fd[w] == fd && io.asked[w] == events
      ensures w.active != 0 && w.fd == fd && events <= Interest(fd)
    {
      assert Fds()[w] == fd && Masks()[w] == events;
    }

    // w is set for a descriptor that was closed, and started
    method SetAndStart(w: Watcher, fd: nat, events: Mask)
      requires Valid() && Startable() && BackendAgrees(anfds, epoll_eperms)
      requires w in ws && w.active == 0 && events <= {Read, Write}
      modifies this`anfds, this`lists, this`fdchanges, this`activecnt, this`gone
      modifies w`next, w`active, w`fd, w`events, w`priority
      ensures ListsOk() == true && InSync() == true && Queued(fdchanges, 0, anfds) == true && pq.Valid() == true
      ensures BackendAgrees(anfds, epoll_eperms) == true
      ensures w.active != 0 && w.fd == fd && w.events - {IoFdSet} == events && fd !in gone
    {
      SetStep(w, fd, events);
      StartKept(w);
    }

    // A descriptor is closed and opened again under its old number while w is stopped, and w is set and started
    // for it again, be it for the same events: epoll is told of it, and the kernel watches for what is asked.
    method Reopened(w: Watcher, fd: nat, events: Mask)
      requires Valid() && Startable() && BackendAgrees(anfds, epoll_eperms) && backend == UseEpoll
      requires w in ws && w.active == 0 && events <= {Read, Write}
      modifies this`anfds, this`lists, this`fdchanges, this`activecnt, this`epoll_eperms, this`told, this`gone, this`kills
      modifies ws`next, ws`active, ws`pending, ws`fd, ws`events, ws`priority, pq`pendings
      modifies poll, poll.pollidxs, poll.polls, sel, sel.vec_ri, sel.vec_wi
      ensures |told| > |old(told)| && told[|old(told)|] == Closed(fd)
      ensures exists i :: |old(told)| < i < |told| && told[i].Told? && told[i].fd == fd
      ensures forall rs | Smooth(told, rs, fd) && EpollAfter(told, rs, fd).live ::
                Interest(fd) != {} ==> EpollAfter(told, rs, fd).kernel == Some(Interest(fd))
      ensures w !in kills ==> w.active != 0 && w.fd == fd && events <= Interest(fd)
    {
      ghost var told0 := told;
      CloseStep(fd);
      SetAndStart(w, fd, events);
      InIo(w);
      ghost var io := Io();
      ReifyStep();
      ToldOfAll(fd);
      ClosedThenTold(told0, told, fd);
      forall rs | Smooth(told, rs, fd) && EpollAfter(told, rs, fd).live
        ensures Interest(fd) != {} ==> EpollAfter(told, rs, fd).kernel == Some(Interest(fd))
      {
        KernelWatches(told, rs, fd);
      }
      if w !in kills {
        AsksFor(w, io, fd, events);
      }
    }
  }

  datatype FdOp =
    | DoStart(w: Watcher)
    | DoStop(w: Watcher)
    | DoSet(w: Watcher, fd: int, events: Mask)
    | DoReify
    | DoClose(num: nat)

  ghost predicate ForWatcherOf(op: FdOp, ws: set<Watcher>) {
    && (op.DoStart? || op.DoStop? || op.DoSet? ==> op.w in ws)
    && (op.DoSet? ==> op.fd >= 0 && op.events <= {Read, Write})
  }

  // who is active after one operation, and after a history of them
  ghost function FdStep(active: set<Watcher>, op: FdOp): set<Watcher> {
    match op
    case DoStart(w) => active + {w}
    case DoStop(w) => active - {w}
    case DoSet(_, _, _) => active
    case DoReify => active
    case DoClose(_) => active
  }

  ghost function FdRun(active: set<Watcher>, ops: seq<FdOp>): set<Watcher> {
    if ops == [] then active else FdStep(FdRun(active, ops[..|ops| - 1]), ops[|ops| - 1])
  }

  // the descriptors that a history closes, in order
  function ClosesOf(ops: seq<FdOp>): seq<nat> {
    if ops == [] then []
    else
      var last := ops[|ops| - 1];
      ClosesOf(ops[..|ops| - 1]) + if last.DoClose? then [last.num] else []
  }

  lemma OneClose(op: FdOp)
    ensures ClosesOf([op]) == if op.DoClose? then [op.num] else []
  {
    assert [op][..0] == [];
  }
}
