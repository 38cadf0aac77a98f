/**
  Connecting and staying connected: the handshake loop (src/cometd.c) and the
  receive loop (src/loops/gthread.c), driven by what the server answers and by
  a back-off counter.

  The server is a finite sequence of answers.  A loop that asks for one more is
  `stuck`: nothing is known about it but what it did so far.
 */
module Reconnect {
  import opened Basics
  import opened Watchers

  const COMETD_SUCCESS: int := 0
  const ECOMETD_UNKNOWN: int := 4
  const ECOMETD_NO_TRANSPORT: int := 5
  const ECOMETD_UNSUCCESSFUL: int := 6

  datatype Status = Uninitialized | Disconnected | HandshakeSuccess | Connected | Disconnecting | Unconnected

  datatype ReconnectAdvice = AdviceNone | AdviceRetry | AdviceHandshake

  datatype Advice = Advice(reconnect: ReconnectAdvice, interval: int)

  datatype Config = Config(backoff_increment: int, max_backoff: int)

  // a message of the server; `transport` is what negotiation makes of its supported types
  datatype Message =
    | HandshakeMsg(successful: bool, advice: Option<Advice>, transport: Option<nat>)
    | ConnectMsg(successful: bool, advice: Option<Advice>)
    | OtherMsg(successful: bool)

  datatype Reply = Failed(code: int) | Messages(msgs: seq<Message>)

  datatype Session = Session(
    state: Status,
    advice: Option<Advice>,
    transport: Option<nat>,
    replies: seq<Reply>,     // to the handshakes still to come
    payloads: seq<Reply>,    // of the receives still to come
    waits: seq<int>,         // how long each request waited
    stuck: bool)

  // ---------- back-off ----------

  // cometd_impl_should_backoff
  predicate ShouldBackoff(advice: Advice, attempt: int) {
    advice.reconnect != AdviceNone && advice.interval == 0 && attempt > 1
  }

  // cometd_impl_compute_backoff
  function ComputeBackoff(c: Config, attempt: int): int {
    if c.backoff_increment == 0 then -1
    else
      var backoff := attempt * c.backoff_increment;
      if c.max_backoff != 0 && backoff < c.max_backoff then backoff else -1
  }

  // cometd_get_backoff
  function GetBackoff(c: Config, advice: Option<Advice>, attempt: int): int {
    match advice
    case None => ComputeBackoff(c, attempt)
    case Some(a) =>
      if ShouldBackoff(a, attempt) then ComputeBackoff(c, attempt - 1)
      else if a.reconnect == AdviceHandshake || a.reconnect == AdviceRetry then a.interval
      else -1
  }

  // how many multiples of the increment, from 0 on, stay below the maximum
  function Steps(c: Config): nat
    requires c.backoff_increment >= 1
  {
    if c.max_backoff <= 0 then 0 else (c.max_backoff + c.backoff_increment - 1) / c.backoff_increment
  }

  lemma StepsBound(c: Config, n: nat)
    requires c.backoff_increment >= 1
    ensures n < Steps(c) <==> n * c.backoff_increment < c.max_backoff
  {
    var inc, max := c.backoff_increment, c.max_backoff;
    if max > 0 {
      var q := (max + inc - 1) / inc;
      assert q * inc <= max + inc - 1 < q * inc + inc;
      Multiples(n, q, inc);
    } else {
      assert n * inc >= 0;
    }
  }

  lemma Multiples(n: nat, q: nat, inc: nat)
    requires inc >= 1
    ensures n < q ==> n * inc + inc <= q * inc
    ensures n >= q ==> n * inc >= q * inc
  {
    if n < q {
      assert (n + 1) * inc <= q * inc;
    }
  }

  // how often something is tried that is never answered: once, and once more for each multiple of the increment
  // from 1 on that stays below the maximum
  function Tries(c: Config): nat
    requires c.backoff_increment >= 0
  {
    if c.backoff_increment == 0 then 1 else Max(1, Steps(c))
  }

  // the back-off of attempt n is n increments, or the end
  lemma Computed(c: Config, n: nat)
    requires c.backoff_increment >= 0 && n >= 1
    ensures ComputeBackoff(c, n) == if n < Tries(c) then n * c.backoff_increment else -1
    ensures n < Tries(c) ==> n * c.backoff_increment >= 0
  {
    if c.backoff_increment >= 1 {
      StepsBound(c, n);
      Multiples(1, n, c.backoff_increment);
    }
  }

  // ---------- the handshake loop ----------

  // cometd_should_handshake
  predicate ShouldHandshake(s: Session) {
    s.state !in {HandshakeSuccess, Connected} && (s.advice.None? || s.advice.value.reconnect == AdviceHandshake)
  }

  // cometd_process_handshake
  function AfterHandshake(s: Session, m: Message): Session
    requires m.HandshakeMsg?
  {
    if m.transport.Some? then s.(transport := m.transport, state := HandshakeSuccess, advice := m.advice)
    else s.(advice := m.advice)
  }

  // cometd_process_connect, but for the handshake it may ask for
  function AfterConnect(s: Session, m: Message): Session
    requires m.ConnectMsg?
  {
    if s.state in {Disconnecting, Disconnected} then s
    else
      s.(advice := if m.advice.Some? then m.advice else s.advice,
         state := if m.successful then Connected else Unconnected)
  }

  // cometd_handle_advice
  predicate AsksForHandshake(s: Session, m: Message)
    requires m.ConnectMsg?
  {
    && s.state !in {Disconnecting, Disconnected} && !m.successful
    && m.advice.Some? && m.advice.value.reconnect == AdviceHandshake
  }

  // cometd_process_msg, with the listeners the library installs
  function AfterMessage(c: Config, s: Session, m: Message): (r: Session)
    ensures |r.replies| <= |s.replies|
    decreases |s.replies|, 1, 0
  {
    match m
    case HandshakeMsg(_, _, _) => AfterHandshake(s, m)
    case OtherMsg(_) => s
    case ConnectMsg(_, _) =>
      var t := AfterConnect(s, m);
      if AsksForHandshake(s, m) then Handshakes(c, t, 1, 0, ECOMETD_UNKNOWN).0 else t
  }

  // cometd_impl_process_sync
  function AfterMessages(c: Config, s: Session, msgs: seq<Message>): (r: Session)
    ensures |r.replies| <= |s.replies|
    decreases |s.replies|, 2, |msgs|
  {
    if msgs == [] then s
    else
      var t := AfterMessages(c, s, msgs[..|msgs| - 1]);
      if t.stuck then t else AfterMessage(c, t, msgs[|msgs| - 1])
  }

  // cometd_msg_is_successful for a whole answer
  predicate Successful(msgs: seq<Message>) {
    msgs != [] && msgs[0].successful
  }

  // cometd_impl_handshake, once the request is sent
  function ReplyCode(s: Session, reply: Reply): int {
    match reply
    case Failed(code) => if code == COMETD_SUCCESS && s.transport.None? then ECOMETD_NO_TRANSPORT else code
    case Messages(msgs) =>
      if !Successful(msgs) then ECOMETD_UNSUCCESSFUL
      else if s.transport.None? then ECOMETD_NO_TRANSPORT
      else COMETD_SUCCESS
  }

  function AfterReply(c: Config, s: Session, reply: Reply): (r: Session)
    ensures |r.replies| <= |s.replies|
    decreases |s.replies|, 3, 0
  {
    match reply
    case Failed(_) => s
    case Messages(msgs) => AfterMessages(c, s, msgs)
  }

  // send the next request
  function Sent(s: Session, backoff: int): (r: Session)
    requires s.replies != []
  {
    s.(replies := s.replies[1..], waits := s.waits + [backoff])
  }

  // cometd_handshake, from the start of an attempt
  function Handshakes(c: Config, s: Session, attempt: nat, backoff: int, code: int): (r: (Session, int))
    ensures |r.0.replies| <= |s.replies|
    decreases |s.replies|, 0, 0
  {
    if !ShouldHandshake(s) then (s, code)
    else if s.replies == [] then (s.(stuck := true), code)
    else
      var t := AfterReply(c, Sent(s, backoff), s.replies[0]);
      var b := GetBackoff(c, t.advice, attempt);
      if t.stuck then (t, code)
      else if b == -1 then (t, ReplyCode(t, s.replies[0]))
      else Handshakes(c, t, attempt + 1, b, ReplyCode(t, s.replies[0]))
  }

  // ---------- the receive loop ----------

  // cometd_msg_extract_connect: the last one
  function ExtractConnect(msgs: seq<Message>): (r: Option<Message>)
    ensures r.Some? ==> r.value.ConnectMsg? && r.value in msgs
  {
    if msgs == [] then None
    else if msgs[|msgs| - 1].ConnectMsg? then Some(msgs[|msgs| - 1])
    else ExtractConnect(msgs[..|msgs| - 1])
  }

  // cometd_recv: no payload counts as a connect that failed
  function Received(payload: Reply): (r: seq<Message>) {
    if payload.Failed? then [ConnectMsg(false, None)] else payload.msgs
  }

  // cometd_should_recv
  predicate ShouldRecv(s: Session) {
    s.state in {Connected, HandshakeSuccess, Unconnected}
  }

  // cometd_should_retry_recv
  predicate ShouldRetryRecv(s: Session) {
    s.state == Unconnected && s.advice.Some? && s.advice.value.reconnect == AdviceRetry
  }

  // the connect message of one payload is processed
  function AfterPayload(c: Config, s: Session, payload: Reply): Session {
    var connect := ExtractConnect(Received(payload));
    if connect.None? then s else AfterMessage(c, s, connect.value)
  }

  function Took(s: Session, backoff: int): Session
    requires s.payloads != []
  {
    s.(payloads := s.payloads[1..], waits := s.waits + [backoff])
  }

  lemma {:induction false} HandshakesKeepPayloads(c: Config, s: Session, attempt: nat, backoff: int, code: int)
    ensures Handshakes(c, s, attempt, backoff, code).0.payloads == s.payloads
    decreases |s.replies|, 0, 0
  {
    if ShouldHandshake(s) && s.replies != [] {
      var reply := s.replies[0];
      if reply.Messages? {
        MessagesKeepPayloads(c, Sent(s, backoff), reply.msgs);
      }
      var t := AfterReply(c, Sent(s, backoff), reply);
      HandshakesKeepPayloads(c, t, attempt + 1, GetBackoff(c, t.advice, attempt), ReplyCode(t, reply));
    }
  }

  lemma {:induction false} MessageKeepsPayloads(c: Config, s: Session, m: Message)
    ensures AfterMessage(c, s, m).payloads == s.payloads
    decreases |s.replies|, 1, 0
  {
    if m.ConnectMsg? {
      HandshakesKeepPayloads(c, AfterConnect(s, m), 1, 0, ECOMETD_UNKNOWN);
    }
  }

  lemma {:induction false} MessagesKeepPayloads(c: Config, s: Session, msgs: seq<Message>)
    ensures AfterMessages(c, s, msgs).payloads == s.payloads
    decreases |s.replies|, 2, |msgs|
  {
    if msgs != [] {
      MessagesKeepPayloads(c, s, msgs[..|msgs| - 1]);
      MessageKeepsPayloads(c, AfterMessages(c, s, msgs[..|msgs| - 1]), msgs[|msgs| - 1]);
    }
  }

  // cometd_loop_gthread_run, from the start of a turn
  function Receives(c: Config, s: Session, attempt: nat, backoff: int): (r: Session)
    decreases |s.payloads|
  {
    if !ShouldRecv(s) then s.(state := Disconnected)
    else if s.payloads == [] then s.(stuck := true)
    else
      var t := AfterPayload(c, Took(s, backoff), s.payloads[0]);
      assert t.payloads == s.payloads[1..] by {
        PayloadTaken(c, s, backoff);
      }
      if t.stuck then t
      else if !ShouldRetryRecv(t) then Receives(c, t, 1, 0)
      else
        var b := GetBackoff(c, t.advice, attempt);
        if b == -1 then t.(state := Disconnected) else Receives(c, t, attempt + 1, b)
  }

  lemma PayloadTaken(c: Config, s: Session, backoff: int)
    requires s.payloads != []
    ensures AfterPayload(c, Took(s, backoff), s.payloads[0]).payloads == s.payloads[1..]
  {
    var connect := ExtractConnect(Received(s.payloads[0]));
    if connect.Some? {
      MessageKeepsPayloads(c, Took(s, backoff), connect.value);
    }
  }

  // ---------- the client ----------

  class Client {
    const config: Config
    var state: Status
    var advice: Option<Advice>
    var transport: Option<nat>
    var replies: seq<Reply>
    var payloads: seq<Reply>
    var waits: seq<int>
    var stuck: bool

    constructor (config: Config, replies: seq<Reply>, payloads: seq<Reply>)
      ensures this.config == config
      ensures View() == Session(Uninitialized, None, None, replies, payloads, [], false)
    {
      this.config := config;
      state, advice, transport := Uninitialized, None, None;
      this.replies, this.payloads, waits, stuck := replies, payloads, [], false;
    }

    function View(): Session
      reads this
    {
      Session(state, advice, transport, replies, payloads, waits, stuck)
    }

    // cometd_process_handshake
    method ProcessHandshake(m: Message) returns (code: int)
      requires m.HandshakeMsg?
      modifies this
      ensures View() == AfterHandshake(old(View()), m)
      ensures code == if m.transport.Some? then COMETD_SUCCESS else ECOMETD_NO_TRANSPORT
    {
      code := COMETD_SUCCESS;
      if m.transport.Some? {
        transport := m.transport;
        state := HandshakeSuccess;
      } else {
        code := ECOMETD_NO_TRANSPORT;
      }
      advice := m.advice;
    }

    // cometd_process_connect
    method ProcessConnect(m: Message)
      requires m.ConnectMsg? && !stuck
      modifies this
      ensures View() == AfterMessage(config, old(View()), m)
      decreases |replies|, 1, 0
    {
      if state in {Disconnecting, Disconnected} {
        return;
      }
      if m.advice.Some? {
        advice := m.advice;
      }
      if !m.successful {
        state := Unconnected;
        // cometd_handle_advice
        if m.advice.Some? && m.advice.value.reconnect == AdviceHandshake {
          var _ := Handshake();
        }
      } else {
        state := Connected;
      }
    }

    // cometd_process_msg
    method ProcessMsg(m: Message)
      requires !stuck
      modifies this
      ensures View() == AfterMessage(config, old(View()), m)
      decreases |replies|, 1, 1
    {
      match m
      case HandshakeMsg(_, _, _) => var _ := ProcessHandshake(m);
      case ConnectMsg(_, _) => ProcessConnect(m);
      case OtherMsg(_) =>
    }

    // cometd_impl_process_sync
    method ProcessSync(msgs: seq<Message>)
      requires !stuck
      modifies this
      ensures View() == AfterMessages(config, old(View()), msgs)
      decreases |replies|, 2, 0
    {
      assert msgs[..0] == [];
      for i := 0 to |msgs|
        invariant View() == AfterMessages(config, old(View()), msgs[..i]) && !stuck
      {
        assert msgs[..i + 1][..i] == msgs[..i];
        ProcessMsg(msgs[i]);
        if stuck {
          StuckStays(config, old(View()), msgs, i + 1);
          return;
        }
      }
      assert msgs[..|msgs|] == msgs;
    }

    // cometd_impl_handshake
    method ImplHandshake(backoff: int) returns (code: int)
      requires !stuck && replies != []
      modifies this
      ensures View() == AfterReply(config, Sent(old(View()), backoff), old(replies)[0])
      ensures code == ReplyCode(View(), old(replies)[0])
      decreases |replies|, 0, 0
    {
      var reply := replies[0];
      waits, replies := waits + [backoff], replies[1..];
      assert View() == Sent(old(View()), backoff);
      match reply {
        case Failed(error) => code := error;
        case Messages(msgs) =>
          ProcessSync(msgs);
          code := if Successful(msgs) then COMETD_SUCCESS else ECOMETD_UNSUCCESSFUL;
      }
      if code == COMETD_SUCCESS && transport.None? {
        code := ECOMETD_NO_TRANSPORT;
      }
    }

    // cometd_handshake
    method Handshake() returns (code: int)
      requires !stuck
      modifies this
      ensures View() == Handshakes(config, old(View()), 1, 0, ECOMETD_UNKNOWN).0
      ensures !stuck ==> code == Handshakes(config, old(View()), 1, 0, ECOMETD_UNKNOWN).1
      decreases |replies|, 0, 1
    {
      code := ECOMETD_UNKNOWN;
      var backoff, attempt := 0, 1;
      while ShouldHandshake(View())
        invariant !stuck && attempt >= 1 && |replies| <= |old(replies)|
        invariant Handshakes(config, View(), attempt, backoff, code) == Handshakes(config, old(View()), 1, 0, ECOMETD_UNKNOWN)
        decreases |replies|
      {
        if replies == [] {
          stuck := true;
          return;
        }
        code := ImplHandshake(backoff);
        if stuck {
          return;
        }
        backoff := GetBackoff(config, advice, attempt);
        if backoff == -1 {
          break;
        }
        attempt := attempt + 1;
      }
    }

    // the part of cometd_loop_gthread_run from cometd_recv to cometd_process_msg
    method Receive(backoff: int)
      requires !stuck && payloads != []
      modifies this
      ensures View() == AfterPayload(config, Took(old(View()), backoff), old(payloads)[0])
    {
      var payload := payloads[0];
      waits, payloads := waits + [backoff], payloads[1..];
      var connect := ExtractConnect(Received(payload));
      if connect.Some? {
        ProcessMsg(connect.value);
      }
    }

    // cometd_loop_gthread_run
    method Run()
      requires !stuck
      modifies this
      ensures View() == Receives(config, old(View()), 1, 0)
    {
      var backoff, attempt := 0, 1;
      while ShouldRecv(View())
        invariant !stuck && attempt >= 1
        invariant Receives(config, View(), attempt, backoff) == Receives(config, old(View()), 1, 0)
        decreases |payloads|
      {
        if payloads == [] {
          stuck := true;
          return;
        }
        PayloadTaken(config, View(), backoff);
        Receive(backoff);
        if stuck {
          return;
        }
        if ShouldRetryRecv(View()) {
          backoff := GetBackoff(config, advice, attempt);
        } else {
          backoff, attempt := 0, 0;
        }
        if backoff == -1 {
          break;
        }
        attempt := attempt + 1;
      }
      state := Disconnected;
    }
  }

  lemma {:induction false} StuckStays(c: Config, s: Session, msgs: seq<Message>, i: nat)
    requires i <= |msgs| && AfterMessages(c, s, msgs[..i]).stuck
    ensures AfterMessages(c, s, msgs) == AfterMessages(c, s, msgs[..i])
    decreases |msgs|
  {
    if i == |msgs| {
      assert msgs[..i] == msgs;
    } else {
      assert msgs[..|msgs| - 1][..i] == msgs[..i];
      StuckStays(c, s, msgs[..|msgs| - 1], i);
    }
  }

  // ---------- how often a handshake is tried ----------

  // neither shaken hands nor connected
  predicate NoSession(s: Session) {
    s.state != HandshakeSuccess && s.state != Connected
  }

  // no nonzero interval
  predicate Prompt(advice: Option<Advice>) {
    advice.Some? ==> advice.value.interval == 0
  }

  // an answer to a handshake with nothing but handshake messages, and no nonzero interval
  predicate HandshakesOnly(reply: Reply) {
    reply.Messages? ==> forall i :: 0 <= i < |reply.msgs| ==> reply.msgs[i].HandshakeMsg? && Prompt(reply.msgs[i].advice)
  }

  lemma {:induction false} HandshakeMessages(c: Config, s: Session, msgs: seq<Message>)
    requires HandshakesOnly(Messages(msgs)) && Prompt(s.advice) && !s.stuck
    ensures var r := AfterMessages(c, s, msgs);
      Prompt(r.advice) && r.replies == s.replies && r.waits == s.waits && !r.stuck
  {
    if msgs != [] {
      HandshakeMessages(c, s, msgs[..|msgs| - 1]);
    }
  }

  // attempts from number `attempt` on, the one before having gone on
  lemma {:induction false} AttemptsFrom(c: Config, s: Session, attempt: nat, backoff: int, code: int)
    requires c.backoff_increment >= 0 && attempt >= 1 && !s.stuck && Prompt(s.advice)
    requires attempt > 2 ==> attempt - 2 < Tries(c)
    requires forall i :: 0 <= i < |s.replies| ==> HandshakesOnly(s.replies[i])
    ensures |Handshakes(c, s, attempt, backoff, code).0.waits| - |s.waits| + attempt - 1 <= Tries(c) + 1
    decreases |s.replies|
  {
    if ShouldHandshake(s) && s.replies != [] {
      var reply := s.replies[0];
      assert HandshakesOnly(reply);
      if reply.Messages? {
        HandshakeMessages(c, Sent(s, backoff), reply.msgs);
      }
      var t := AfterReply(c, Sent(s, backoff), reply);
      var b := GetBackoff(c, t.advice, attempt);
      if b != -1 && ShouldHandshake(t) {
        Computed(c, attempt);
        if attempt > 1 {
          Computed(c, attempt - 1);
        }
        AttemptsFrom(c, t, attempt + 1, b, ReplyCode(t, reply));
      }
    }
  }

  // Without a nonzero interval a handshake is tried at most once more than Tries says,
  // whatever the server answers.
  lemma HandshakeBound(c: Config, s: Session)
    requires c.backoff_increment >= 0 && !s.stuck && Prompt(s.advice)
    requires forall i :: 0 <= i < |s.replies| ==> HandshakesOnly(s.replies[i])
    ensures |Handshakes(c, s, 1, 0, ECOMETD_UNKNOWN).0.waits| <= |s.waits| + Tries(c) + 1
  {
    AttemptsFrom(c, s, 1, 0, ECOMETD_UNKNOWN);
  }

  // an answer that neither advises nor offers a transport
  predicate Silent(reply: Reply) {
    reply.Messages? ==> forall i :: 0 <= i < |reply.msgs| ==>
      reply.msgs[i].OtherMsg? || (reply.msgs[i].HandshakeMsg? && reply.msgs[i].advice.None? && reply.msgs[i].transport.None?)
  }

  lemma {:induction false} SilentMessages(c: Config, s: Session, msgs: seq<Message>)
    requires Silent(Messages(msgs)) && s.advice.None? && !s.stuck
    ensures AfterMessages(c, s, msgs) == s
  {
    if msgs != [] {
      SilentMessages(c, s, msgs[..|msgs| - 1]);
    }
  }

  // 0, inc, 2 inc, .. from attempt number `from` on
  function Backoffs(inc: int, from: nat, n: nat): seq<int> {
    seq(n, i requires 0 <= i => (from + i) * inc)
  }

  lemma BackoffsMore(inc: int, from: nat, n: nat)
    ensures Backoffs(inc, from, n + 1) == [from * inc] + Backoffs(inc, from + 1, n)
  {
  }

  // nothing is heard from attempt number `attempt` on, and every further attempt waits as it should
  ghost predicate SilentlyRight(c: Config, s: Session, attempt: nat, code: int)
    requires c.backoff_increment >= 0 && 1 <= attempt <= Tries(c)
  {
    var r, n := Handshakes(c, s, attempt, (attempt - 1) * c.backoff_increment, code).0, Tries(c) + 1 - attempt;
    && r.waits == s.waits + Backoffs(c.backoff_increment, attempt - 1, Min(n, |s.replies|))
    && (r.stuck <==> |s.replies| < n)
  }

  lemma SilentGoesOn(c: Config, s: Session, attempt: nat, code: int, t: Session)
    requires c.backoff_increment >= 0 && 1 <= attempt <= Tries(c) && ShouldHandshake(s) && s.advice.None? && !s.stuck
    requires s.replies != [] && Silent(s.replies[0]) && t == Sent(s, (attempt - 1) * c.backoff_increment)
    requires attempt < Tries(c) ==> SilentlyRight(c, t, attempt + 1, ReplyCode(t, s.replies[0]))
    ensures SilentlyRight(c, s, attempt, code) == true
  {
    var reply := s.replies[0];
    if reply.Messages? {
      SilentMessages(c, t, reply.msgs);
    }
    Computed(c, attempt);
    if attempt < Tries(c) {
      BackoffsMore(c.backoff_increment, attempt - 1, Min(Tries(c) - attempt, |t.replies|));
      assert Handshakes(c, s, attempt, (attempt - 1) * c.backoff_increment, code)
          == Handshakes(c, t, attempt + 1, attempt * c.backoff_increment, ReplyCode(t, reply));
    } else {
      assert AfterReply(c, t, reply) == t && GetBackoff(c, t.advice, attempt) == -1;
    }
  }

  lemma {:induction false} SilentFrom(c: Config, s: Session, attempt: nat, code: int)
    requires c.backoff_increment >= 0 && 1 <= attempt <= Tries(c) && ShouldHandshake(s) && s.advice.None? && !s.stuck
    requires forall i :: 0 <= i < |s.replies| ==> Silent(s.replies[i])
    ensures SilentlyRight(c, s, attempt, code)
    decreases |s.replies|
  {
    if s.replies != [] {
      var t := Sent(s, (attempt - 1) * c.backoff_increment);
      if attempt < Tries(c) {
        SilentFrom(c, t, attempt + 1, ReplyCode(t, s.replies[0]));
      }
      SilentGoesOn(c, s, attempt, code, t);
    }
  }

  // When the server never says anything of use, there are exactly as many attempts as Tries says, which wait
  // 0, increment, 2 increment and so on.
  lemma SilentServer(c: Config, s: Session)
    requires c.backoff_increment >= 0 && NoSession(s) && s.advice.None? && !s.stuck
    requires forall i :: 0 <= i < |s.replies| ==> Silent(s.replies[i])
    ensures var r := Handshakes(c, s, 1, 0, ECOMETD_UNKNOWN).0;
      && r.waits == s.waits + Backoffs(c.backoff_increment, 0, Min(Tries(c), |s.replies|))
      && (r.stuck <==> |s.replies| < Tries(c))
  {
    SilentFrom(c, s, 1, ECOMETD_UNKNOWN);
  }

  const HANDSHAKE_AT_ONCE: Option<Advice> := Some(Advice(AdviceHandshake, 0))

  // an answer that leaves it at the advice a
  predicate Insists(reply: Reply, a: Option<Advice>) {
    reply.Messages? ==> forall i :: 0 <= i < |reply.msgs| ==>
      reply.msgs[i].HandshakeMsg? && reply.msgs[i].advice == a && reply.msgs[i].transport.None?
  }

  lemma {:induction false} InsistentMessages(c: Config, s: Session, msgs: seq<Message>)
    requires Insists(Messages(msgs), s.advice) && !s.stuck
    ensures AfterMessages(c, s, msgs) == s
  {
    if msgs != [] {
      InsistentMessages(c, s, msgs[..|msgs| - 1]);
    }
  }

  lemma {:induction false} InsistentFrom(c: Config, s: Session, attempt: nat, backoff: int, code: int)
    requires c.backoff_increment >= 0 && ShouldHandshake(s) && s.advice == HANDSHAKE_AT_ONCE && !s.stuck
    requires 1 <= attempt <= Tries(c) + 1
    requires forall i :: 0 <= i < |s.replies| ==> Insists(s.replies[i], s.advice)
    ensures var r, n := Handshakes(c, s, attempt, backoff, code).0, Tries(c) + 1 + 1 - attempt;
      |r.waits| == |s.waits| + Min(n, |s.replies|) && (r.stuck <==> |s.replies| < n)
    decreases |s.replies|
  {
    if s.replies != [] {
      var reply := s.replies[0];
      assert Insists(reply, s.advice);
      var t := Sent(s, backoff);
      if reply.Messages? {
        InsistentMessages(c, t, reply.msgs);
      }
      if attempt > 1 {
        Computed(c, attempt - 1);
      }
      if attempt < Tries(c) + 1 {
        InsistentFrom(c, t, attempt + 1, GetBackoff(c, t.advice, attempt), ReplyCode(t, reply));
      }
    }
  }

  // The bound is reached when the server keeps asking for another handshake.
  lemma InsistentServer(c: Config, s: Session)
    requires c.backoff_increment >= 0 && NoSession(s) && s.advice == HANDSHAKE_AT_ONCE && !s.stuck
    requires forall i :: 0 <= i < |s.replies| ==> Insists(s.replies[i], s.advice)
    ensures var r, n := Handshakes(c, s, 1, 0, ECOMETD_UNKNOWN).0, Tries(c) + 1;
      |r.waits| == |s.waits| + Min(n, |s.replies|) && (r.stuck <==> |s.replies| < n)
  {
    InsistentFrom(c, s, 1, 0, ECOMETD_UNKNOWN);
  }

  lemma {:induction false} PatientFrom(c: Config, s: Session, attempt: nat, backoff: int, code: int, interval: int)
    requires ShouldHandshake(s) && s.advice == Some(Advice(AdviceHandshake, interval)) && !s.stuck && interval != 0
    requires forall i :: 0 <= i < |s.replies| ==> Insists(s.replies[i], s.advice)
    ensures var r, n := Handshakes(c, s, attempt, backoff, code).0, if interval == -1 then Min(1, |s.replies|) else |s.replies|;
      && r.waits == s.waits + seq(n, i => if i == 0 then backoff else interval)
      && (r.stuck <==> interval != -1 || s.replies == [])
    decreases |s.replies|
  {
    if s.replies != [] {
      var reply := s.replies[0];
      assert Insists(reply, s.advice);
      var t := Sent(s, backoff);
      if reply.Messages? {
        InsistentMessages(c, t, reply.msgs);
      }
      if interval != -1 {
        PatientFrom(c, t, attempt + 1, interval, ReplyCode(t, reply), interval);
      }
    }
  }

  // An advised interval replaces the back-off: attempts go on for as long as the server asks for them, one
  // interval apart, unless the interval is -1, which ends them.
  lemma PatientServer(c: Config, s: Session, interval: int)
    requires NoSession(s) && s.advice == Some(Advice(AdviceHandshake, interval)) && !s.stuck && interval != 0
    requires forall i :: 0 <= i < |s.replies| ==> Insists(s.replies[i], s.advice)
    ensures var r, n := Handshakes(c, s, 1, 0, ECOMETD_UNKNOWN).0, if interval == -1 then Min(1, |s.replies|) else |s.replies|;
      && r.waits == s.waits + seq(n, i => if i == 0 then 0 else interval)
      && (r.stuck <==> interval != -1 || s.replies == [])
  {
    PatientFrom(c, s, 1, 0, ECOMETD_UNKNOWN, interval);
  }

  // ---------- when receiving is given up ----------

  // message i is a connect message, and no other one follows
  ghost predicate LastConnect(msgs: seq<Message>, i: int) {
    0 <= i < |msgs| && msgs[i].ConnectMsg? && forall j :: i < j < |msgs| ==> !msgs[j].ConnectMsg?
  }

  // the transport failed, or the last connect message says so
  ghost predicate FailedPayload(payload: Reply) {
    payload.Failed? || exists i :: LastConnect(payload.msgs, i) && !payload.msgs[i].successful
  }

  ghost predicate SucceededPayload(payload: Reply) {
    payload.Messages? && exists i :: LastConnect(payload.msgs, i) && payload.msgs[i].successful
  }

  lemma {:induction false} ExtractsLast(unconnected: bool, msgs: seq<Message>)
    ensures var r := ExtractConnect(msgs);
            AfterConnects(unconnected, msgs) == if r.Some? then !r.value.successful else unconnected
  {
    if msgs != [] {
      ExtractsLast(unconnected, msgs[..|msgs| - 1]);
    }
  }

  // what one payload makes of the state, as long as the server gives no advice and nobody disconnects
  function Outcome(unconnected: bool, payload: Reply): bool {
    payload.Failed? || AfterConnects(unconnected, payload.msgs)
  }

  function AfterConnects(unconnected: bool, msgs: seq<Message>): bool {
    if msgs == [] then unconnected
    else
      var last := msgs[|msgs| - 1];
      if last.ConnectMsg? then !last.successful else AfterConnects(unconnected, msgs[..|msgs| - 1])
  }

  // So a payload that failed makes it unconnected, one that succeeded does not, and others change nothing.
  lemma OutcomeIs(unconnected: bool, payload: Reply)
    ensures Outcome(unconnected, payload) ==
            if FailedPayload(payload) then true else if SucceededPayload(payload) then false else unconnected
  {
    if payload.Messages? {
      AfterConnectsIs(unconnected, payload.msgs);
    }
  }

  lemma {:induction false} AfterConnectsIs(unconnected: bool, msgs: seq<Message>)
    ensures (exists i :: LastConnect(msgs, i) && !msgs[i].successful) ==> AfterConnects(unconnected, msgs)
    ensures (exists i :: LastConnect(msgs, i) && msgs[i].successful) ==> !AfterConnects(unconnected, msgs)
    ensures (forall i :: !LastConnect(msgs, i)) ==> AfterConnects(unconnected, msgs) == unconnected
    ensures forall i, j :: LastConnect(msgs, i) && LastConnect(msgs, j) ==> i == j
  {
    if msgs != [] {
      var n := |msgs| - 1;
      AfterConnectsIs(unconnected, msgs[..n]);
      if msgs[n].ConnectMsg? {
        assert LastConnect(msgs, n);
      } else {
        forall i
          ensures LastConnect(msgs, i) <==> LastConnect(msgs[..n], i)
        {
        }
      }
    }
  }

  // whether the client is unconnected after each of the payloads
  function Failures(unconnected: bool, payloads: seq<Reply>): (r: seq<bool>)
    ensures |r| == |payloads|
    decreases |payloads|
  {
    if payloads == [] then []
    else
      var u := Outcome(unconnected, payloads[0]);
      [u] + Failures(u, payloads[1..])
  }

  // the last k receives before number n all failed
  ghost predicate FailedRow(fails: seq<bool>, n: nat, k: nat) {
    k <= n <= |fails| && forall i :: n - k <= i < n ==> fails[i]
  }

  // n is the first number of receives after which the last k have all failed
  ghost predicate FirstRow(fails: seq<bool>, k: nat, n: nat) {
    FailedRow(fails, n, k) && forall m :: 0 <= m < n ==> !FailedRow(fails, m, k)
  }

  // there is no such number yet
  ghost predicate NoRow(fails: seq<bool>, k: nat) {
    forall m :: 0 <= m <= |fails| ==> !FailedRow(fails, m, k)
  }

  predicate NoAdvice(payload: Reply) {
    payload.Messages? ==> forall i :: 0 <= i < |payload.msgs| ==>
      payload.msgs[i].ConnectMsg? ==> payload.msgs[i].advice.None?
  }

  lemma OnePayload(c: Config, s: Session, payload: Reply)
    requires NoAdvice(payload) && ShouldRecv(s)
    ensures var r, u := AfterPayload(c, s, payload), Outcome(s.state == Unconnected, payload);
      r == s.(state := r.state) && ShouldRecv(r) && (r.state == Unconnected <==> u)
  {
    var connect := ExtractConnect(Received(payload));
    ExtractsLast(s.state == Unconnected, Received(payload));
  }

  // f after r failures
  function After(r: nat, f: seq<bool>): (g: seq<bool>)
    ensures |g| == r + |f|
  {
    seq(r, i => true) + f
  }

  // a success starts the count again
  lemma RowsStartAgain(r: nat, f: seq<bool>, k: nat, m: nat)
    requires r < k
    ensures FailedRow(After(r, [false] + f), m, k) <==> m >= r + 1 && FailedRow(f, m - r - 1, k)
  {
    var g := After(r, [false] + f);
    assert g[r] == false;
    assert forall i :: 0 <= i < |f| ==> g[r + 1 + i] == f[i];
    if FailedRow(g, m, k) {
      assert m - k > r;
      forall i | m - r - 1 - k <= i < m - r - 1
        ensures f[i]
      {
        assert g[r + 1 + i];
      }
    }
  }

  lemma RowGrows(r: nat, f: seq<bool>)
    ensures After(r, [true] + f) == After(r + 1, f)
  {
  }

  const RETRY_AT_ONCE: Option<Advice> := Some(Advice(AdviceRetry, 0))

  // a turn that ends with the client unconnected, for the (r + 1)-th time in a row
  lemma RetryBackoff(c: Config, r: nat)
    requires c.backoff_increment >= 0
    ensures GetBackoff(c, RETRY_AT_ONCE, r + 1) == if r >= Tries(c) then -1 else WaitAfter(c, r + 1)
  {
    if r >= 1 {
      Computed(c, r);
    }
  }

  // how long to wait after r failures in a row
  function WaitAfter(c: Config, r: nat): int {
    if r <= 1 then 0 else (r - 1) * c.backoff_increment
  }

  // the waits before each receive, when r failures in a row precede the first
  function Waits(c: Config, r: nat, fails: seq<bool>): (w: seq<int>)
    ensures |w| == |fails|
    decreases |fails|
  {
    if fails == [] then [] else [WaitAfter(c, r)] + Waits(c, if fails[0] then r + 1 else 0, fails[1..])
  }

  // receiving from a point where the last r receives failed
  ghost predicate GivesUpRightly(s: Session, t: Session, fails: seq<bool>, r: nat, k: nat) {
    && |t.waits| >= |s.waits|
    && (!t.stuck ==> t.state == Disconnected && FirstRow(After(r, fails), k, r + |t.waits| - |s.waits|))
    && (t.stuck ==> t.payloads == [] && |t.waits| - |s.waits| == |fails| && NoRow(After(r, fails), k))
  }

  // one more failure, and receiving goes on
  lemma FailureCounts(s: Session, t: Session, u: Session, f: seq<bool>, r: nat, k: nat)
    requires |t.waits| == |s.waits| + 1 && GivesUpRightly(t, u, f, r + 1, k)
    ensures GivesUpRightly(s, u, [true] + f, r, k) == true
  {
    RowGrows(r, f);
  }

  // the last failure
  lemma LastFailure(s: Session, u: Session, f: seq<bool>, r: nat)
    requires |u.waits| == |s.waits| + 1 && !u.stuck && u.state == Disconnected
    ensures GivesUpRightly(s, u, [true] + f, r, r + 1) == true
  {
    RowGrows(r, f);
  }

  // what a turn of the loop leaves to do, when nothing is advised
  lemma PlainTurn(c: Config, s: Session, attempt: nat, backoff: int) returns (t: Session)
    requires s.payloads != [] && ShouldRecv(s) && !s.stuck && NoAdvice(s.payloads[0])
    ensures t == AfterPayload(c, Took(s, backoff), s.payloads[0]) && ShouldRecv(t) && t.advice == s.advice && !t.stuck
    ensures t.payloads == s.payloads[1..] && t.waits == s.waits + [backoff]
    ensures Failures(s.state == Unconnected, s.payloads) ==
            [t.state == Unconnected] + Failures(t.state == Unconnected, t.payloads)
    ensures Receives(c, s, attempt, backoff) ==
      if !ShouldRetryRecv(t) then Receives(c, t, 1, 0)
      else if GetBackoff(c, t.advice, attempt) == -1 then t.(state := Disconnected)
      else Receives(c, t, attempt + 1, GetBackoff(c, t.advice, attempt))
  {
    t := AfterPayload(c, Took(s, backoff), s.payloads[0]);
    OnePayload(c, Took(s, backoff), s.payloads[0]);
  }

  // what a turn that receives leaves to do
  lemma ReceiveTurn(c: Config, s: Session, r: nat, backoff: int) returns (t: Session)
    requires c.backoff_increment >= 0 && s.payloads != []
    requires ShouldRecv(s) && s.advice == RETRY_AT_ONCE && !s.stuck && NoAdvice(s.payloads[0])
    ensures ShouldRecv(t) && t.advice == RETRY_AT_ONCE && !t.stuck && t == AfterPayload(c, Took(s, backoff), s.payloads[0])
    ensures t.payloads == s.payloads[1..] && t.waits == s.waits + [backoff]
    ensures Failures(s.state == Unconnected, s.payloads) ==
            [t.state == Unconnected] + Failures(t.state == Unconnected, t.payloads)
    ensures Receives(c, s, r + 1, backoff) ==
      if t.state != Unconnected then Receives(c, t, 1, 0)
      else if r >= Tries(c) then t.(state := Disconnected)
      else Receives(c, t, r + 2, WaitAfter(c, r + 1))
  {
    t := PlainTurn(c, s, r + 1, backoff);
    RetryBackoff(c, r);
  }

  // what is to be proved of receiving from s on
  ghost predicate Rightly(c: Config, s: Session, r: nat, backoff: int)
    requires c.backoff_increment >= 0
  {
    GivesUpRightly(s, Receives(c, s, r + 1, backoff), Failures(s.state == Unconnected, s.payloads), r, Tries(c) + 1)
  }

  ghost predicate Retrying(c: Config, s: Session) {
    && c.backoff_increment >= 0
    && ShouldRecv(s) && s.advice == RETRY_AT_ONCE && !s.stuck
    && forall i :: 0 <= i < |s.payloads| ==> NoAdvice(s.payloads[i])
  }

  lemma NothingReceived(c: Config, s: Session, r: nat, backoff: int)
    requires Retrying(c, s) && r <= Tries(c) && s.payloads == []
    ensures Rightly(c, s, r, backoff) == true
  {
  }

  // how a turn goes on
  lemma SuccessRightly(c: Config, s: Session, r: nat, backoff: int, t: Session)
    requires Retrying(c, s) && r <= Tries(c) && s.payloads != []
    requires t == AfterPayload(c, Took(s, backoff), s.payloads[0]) && t.state != Unconnected && Rightly(c, t, 0, 0)
    ensures Rightly(c, s, r, backoff) == true
  {
    var u := ReceiveTurn(c, s, r, backoff);
    SuccessResets(s, t, Receives(c, t, 1, 0), Failures(false, t.payloads), r, Tries(c) + 1);
  }

  lemma FailureRightly(c: Config, s: Session, r: nat, backoff: int, t: Session)
    requires Retrying(c, s) && r < Tries(c) && s.payloads != []
    requires t == AfterPayload(c, Took(s, backoff), s.payloads[0]) && t.state == Unconnected
    requires Rightly(c, t, r + 1, WaitAfter(c, r + 1))
    ensures Rightly(c, s, r, backoff) == true
  {
    var u := ReceiveTurn(c, s, r, backoff);
    FailureCounts(s, t, Receives(c, t, r + 2, WaitAfter(c, r + 1)), Failures(true, t.payloads), r, Tries(c) + 1);
  }

  lemma LastRightly(c: Config, s: Session, r: nat, backoff: int, t: Session)
    requires Retrying(c, s) && r == Tries(c) && s.payloads != []
    requires t == AfterPayload(c, Took(s, backoff), s.payloads[0]) && t.state == Unconnected
    ensures Rightly(c, s, r, backoff) == true
  {
    var u := ReceiveTurn(c, s, r, backoff);
    LastFailure(s, t.(state := Disconnected), Failures(true, t.payloads), r);
  }

  lemma StillRetrying(c: Config, s: Session, backoff: int)
    requires Retrying(c, s) && s.payloads != []
    ensures var t := AfterPayload(c, Took(s, backoff), s.payloads[0]); Retrying(c, t) && |t.payloads| < |s.payloads|
  {
    OnePayload(c, Took(s, backoff), s.payloads[0]);
  }

  lemma {:induction false} ReceivesFrom(c: Config, s: Session, r: nat, backoff: int)
    requires Retrying(c, s) && r <= Tries(c)
    ensures Rightly(c, s, r, backoff) == true
    decreases |s.payloads|
  {
    if s.payloads == [] {
      NothingReceived(c, s, r, backoff);
    } else {
      var t := AfterPayload(c, Took(s, backoff), s.payloads[0]);
      StillRetrying(c, s, backoff);
      if t.state != Unconnected {
        ReceivesFrom(c, t, 0, 0);
        SuccessRightly(c, s, r, backoff, t);
      } else if r < Tries(c) {
        ReceivesFrom(c, t, r + 1, WaitAfter(c, r + 1));
        FailureRightly(c, s, r, backoff, t);
      } else {
        LastRightly(c, s, r, backoff, t);
      }
    }
  }

  // the waits of receiving from s on, when the last r receives failed
  ghost predicate WaitsRightly(c: Config, s: Session, r: nat)
    requires c.backoff_increment >= 0
  {
    var t, fails := Receives(c, s, r + 1, WaitAfter(c, r)), Failures(s.state == Unconnected, s.payloads);
    s.waits <= t.waits <= s.waits + Waits(c, r, fails)
  }

  lemma WaitGoesOn(c: Config, s: Session, r: nat, t: Session)
    requires Retrying(c, s) && r <= Tries(c) && s.payloads != []
    requires t == AfterPayload(c, Took(s, WaitAfter(c, r)), s.payloads[0])
    requires var r' := if t.state == Unconnected then r + 1 else 0; r' <= Tries(c) ==> WaitsRightly(c, t, r')
    ensures WaitsRightly(c, s, r) == true
  {
    var u := ReceiveTurn(c, s, r, WaitAfter(c, r));
    var r' := if t.state == Unconnected then r + 1 else 0;
    OneMoreWait(s.waits, WaitAfter(c, r), Receives(c, s, r + 1, WaitAfter(c, r)).waits,
                Waits(c, r', Failures(t.state == Unconnected, t.payloads)));
  }

  lemma {:induction false} ReceiveWaits(c: Config, s: Session, r: nat)
    requires Retrying(c, s) && r <= Tries(c)
    ensures WaitsRightly(c, s, r) == true
    decreases |s.payloads|
  {
    if s.payloads != [] {
      var t := AfterPayload(c, Took(s, WaitAfter(c, r)), s.payloads[0]);
      StillRetrying(c, s, WaitAfter(c, r));
      var r' := if t.state == Unconnected then r + 1 else 0;
      if r' <= Tries(c) {
        ReceiveWaits(c, t, r');
      }
      WaitGoesOn(c, s, r, t);
    }
  }

  lemma OneMoreWait(a: seq<int>, w: int, b: seq<int>, more: seq<int>)
    requires a + [w] <= b <= (a + [w]) + more
    ensures a <= b <= a + ([w] + more)
  {
    assert (a + [w]) + more == a + ([w] + more);
  }

  // Meanwhile the receive after r failures in a row waits (r - 1) times the increment, and not at all before
  // the second failure.
  lemma WaitsGrow(c: Config, s: Session)
    requires c.backoff_increment >= 0
    requires ShouldRecv(s) && s.advice == RETRY_AT_ONCE && !s.stuck
    requires forall i :: 0 <= i < |s.payloads| ==> NoAdvice(s.payloads[i])
    ensures var t, fails := Receives(c, s, 1, 0), Failures(s.state == Unconnected, s.payloads);
      s.waits <= t.waits <= s.waits + Waits(c, 0, fails)
  {
    ReceiveWaits(c, s, 0);
  }

  lemma SuccessResets(s: Session, t: Session, u: Session, f: seq<bool>, r: nat, k: nat)
    requires r < k && |t.waits| == |s.waits| + 1 && GivesUpRightly(t, u, f, 0, k)
    ensures GivesUpRightly(s, u, [false] + f, r, k)
  {
    assert After(0, f) == f;
    forall m: nat
      ensures FailedRow(After(r, [false] + f), m, k) <==> m >= r + 1 && FailedRow(f, m - r - 1, k)
    {
      RowsStartAgain(r, f, k, m);
    }
  }

  // With the advice to retry at once, and as long as the server advises nothing else and nobody disconnects,
  // the loop is left exactly when for the first time the last Tries(c) + 1 receives all failed.
  lemma GivesUpAfterFailures(c: Config, s: Session)
    requires c.backoff_increment >= 0
    requires ShouldRecv(s) && s.advice == RETRY_AT_ONCE && !s.stuck
    requires forall i :: 0 <= i < |s.payloads| ==> NoAdvice(s.payloads[i])
    ensures var t, fails, k := Receives(c, s, 1, 0), Failures(s.state == Unconnected, s.payloads), Tries(c) + 1;
      && |t.waits| >= |s.waits|
      && (!t.stuck ==> t.state == Disconnected && FirstRow(fails, k, |t.waits| - |s.waits|))
      && (t.stuck ==> t.payloads == [] && NoRow(fails, k))
  {
    ReceivesFrom(c, s, 0, 0);
    RightlyFromStart(s, Receives(c, s, 1, 0), Failures(s.state == Unconnected, s.payloads), Tries(c) + 1);
  }

  lemma RightlyFromStart(s: Session, t: Session, fails: seq<bool>, k: nat)
    requires GivesUpRightly(s, t, fails, 0, k) == true
    ensures |t.waits| >= |s.waits|
    ensures !t.stuck ==> t.state == Disconnected && FirstRow(fails, k, |t.waits| - |s.waits|)
    ensures t.stuck ==> t.payloads == [] && NoRow(fails, k)
  {
    assert After(0, fails) == fails;
  }

  lemma {:induction false} AllFail(unconnected: bool, payloads: seq<Reply>)
    requires forall i :: 0 <= i < |payloads| ==> FailedPayload(payloads[i])
    ensures forall i :: 0 <= i < |payloads| ==> Failures(unconnected, payloads)[i]
    decreases |payloads|
  {
    if payloads != [] {
      OutcomeIs(unconnected, payloads[0]);
      AllFail(true, payloads[1..]);
    }
  }

  // So a client that never receives anything but failures makes exactly Tries(c) + 1 receives.
  lemma FailingGivesUp(c: Config, s: Session)
    requires c.backoff_increment >= 0
    requires ShouldRecv(s) && s.advice == RETRY_AT_ONCE && !s.stuck
    requires forall i :: 0 <= i < |s.payloads| ==> FailedPayload(s.payloads[i]) && NoAdvice(s.payloads[i])
    ensures var t, k := Receives(c, s, 1, 0), Tries(c) + 1;
            if |s.payloads| < k then t.stuck else !t.stuck && t.state == Disconnected && |t.waits| == |s.waits| + k
  {
    var t, fails, k := Receives(c, s, 1, 0), Failures(s.state == Unconnected, s.payloads), Tries(c) + 1;
    AllFail(s.state == Unconnected, s.payloads);
    GivesUpAfterFailures(c, s);
    if |s.payloads| >= k {
      assert FailedRow(fails, k, k);
    }
  }

  // However receiving ends, it leaves the client disconnected.
  lemma {:induction false} EndsDisconnected(c: Config, s: Session, attempt: nat, backoff: int)
    ensures var t := Receives(c, s, attempt, backoff); t.stuck || t.state == Disconnected
    decreases |s.payloads|
  {
    if ShouldRecv(s) && s.payloads != [] {
      PayloadTaken(c, s, backoff);
      var t := AfterPayload(c, Took(s, backoff), s.payloads[0]);
      EndsDisconnected(c, t, 1, 0);
      EndsDisconnected(c, t, attempt + 1, GetBackoff(c, t.advice, attempt));
    }
  }

  // ---------- receiving with other advice ----------

  // the first receive waits for `first`, and each after a failure for `interval`
  ghost function IntervalWaits(first: int, interval: int, fails: seq<bool>): (w: seq<int>) {
    seq(|fails|, i requires 0 <= i < |fails| => if i == 0 then first else if fails[i - 1] then interval else 0)
  }

  lemma IntervalWaitsMore(first: int, interval: int, failed: bool, fails: seq<bool>)
    ensures IntervalWaits(first, interval, [failed] + fails) ==
            [first] + IntervalWaits(if failed then interval else 0, interval, fails)
  {
    var w := [first] + IntervalWaits(if failed then interval else 0, interval, fails);
    forall i | 1 < i <= |fails|
      ensures w[i] == IntervalWaits(first, interval, [failed] + fails)[i]
    {
      assert ([failed] + fails)[i - 1] == fails[i - 2];
    }
  }

  // u is where receiving from s leads that waits `first` and then for the interval
  ghost predicate WaitsPatiently(s: Session, u: Session, first: int, interval: int, fails: seq<bool>) {
    u.stuck && u.payloads == [] && u.waits == s.waits + IntervalWaits(first, interval, fails)
  }

  lemma PatientMore(s: Session, t: Session, u: Session, first: int, interval: int, failed: bool, fails: seq<bool>)
    requires t.waits == s.waits + [first]
    requires WaitsPatiently(t, u, if failed then interval else 0, interval, fails)
    ensures WaitsPatiently(s, u, first, interval, [failed] + fails) == true
  {
    IntervalWaitsMore(first, interval, failed, fails);
    var rest := IntervalWaits(if failed then interval else 0, interval, fails);
    assert s.waits + ([first] + rest) == (s.waits + [first]) + rest;
  }

  // a turn that goes on waiting for an interval
  lemma PatientTurn(c: Config, s: Session, interval: int, attempt: nat, backoff: int) returns (t: Session)
    requires s.payloads != [] && ShouldRecv(s) && !s.stuck && NoAdvice(s.payloads[0])
    requires s.advice == Some(Advice(AdviceRetry, interval)) && interval !in {0, -1}
    ensures ShouldRecv(t) && t.advice == s.advice && !t.stuck && t.payloads == s.payloads[1..] && t.waits == s.waits + [backoff]
    ensures Failures(s.state == Unconnected, s.payloads) ==
            [t.state == Unconnected] + Failures(t.state == Unconnected, t.payloads)
    ensures Receives(c, s, attempt, backoff) ==
      if t.state != Unconnected then Receives(c, t, 1, 0) else Receives(c, t, attempt + 1, interval)
  {
    t := PlainTurn(c, s, attempt, backoff);
  }

  lemma {:induction false} PatientReceivesFrom(c: Config, s: Session, interval: int, attempt: nat, backoff: int)
    requires ShouldRecv(s) && s.advice == Some(Advice(AdviceRetry, interval)) && !s.stuck && interval !in {0, -1}
    requires forall i :: 0 <= i < |s.payloads| ==> NoAdvice(s.payloads[i])
    ensures WaitsPatiently(s, Receives(c, s, attempt, backoff), backoff, interval,
                           Failures(s.state == Unconnected, s.payloads)) == true
    decreases |s.payloads|
  {
    if s.payloads != [] {
      var t := PatientTurn(c, s, interval, attempt, backoff);
      var failed := t.state == Unconnected;
      PatientReceivesFrom(c, t, interval, if failed then attempt + 1 else 1, if failed then interval else 0);
      PatientMore(s, t, Receives(c, s, attempt, backoff), backoff, interval, failed, Failures(failed, t.payloads));
    }
  }

  // With the advice to retry after an interval the loop waits that long after each failure, and goes on for as
  // long as there is something to receive.
  lemma PatientReceives(c: Config, s: Session, interval: int)
    requires ShouldRecv(s) && s.advice == Some(Advice(AdviceRetry, interval)) && !s.stuck && interval !in {0, -1}
    requires forall i :: 0 <= i < |s.payloads| ==> NoAdvice(s.payloads[i])
    ensures var t, fails := Receives(c, s, 1, 0), Failures(s.state == Unconnected, s.payloads);
            t.stuck && t.payloads == [] && t.waits == s.waits + IntervalWaits(0, interval, fails)
  {
    PatientReceivesFrom(c, s, interval, 1, 0);
  }

  // n receives were made: all of them, or up to the first failure
  ghost predicate EndsAtFirst(t: Session, fails: seq<bool>, n: int) {
    && 0 <= n <= |fails| && (forall i :: 0 <= i < n - 1 ==> !fails[i])
    && if t.stuck then n == |fails| && (n > 0 ==> !fails[n - 1]) else t.state == Disconnected && n > 0 && fails[n - 1]
  }

  lemma EndsLater(t: Session, fails: seq<bool>, n: int)
    requires EndsAtFirst(t, fails, n)
    ensures EndsAtFirst(t, [false] + fails, n + 1) == true
  {
    var more := [false] + fails;
    assert forall i :: 0 < i < |more| ==> more[i] == fails[i - 1];
  }

  lemma EndsNow(t: Session, fails: seq<bool>)
    requires !t.stuck && t.state == Disconnected
    ensures EndsAtFirst(t, [true] + fails, 1) == true
  {
  }

  lemma OneReceive(c: Config, s: Session) returns (t: Session)
    requires s.payloads != [] && ShouldRecv(s) && !s.stuck && NoAdvice(s.payloads[0])
    requires s.advice == Some(Advice(AdviceRetry, -1))
    ensures ShouldRecv(t) && t.advice == s.advice && !t.stuck && t.payloads == s.payloads[1..] && |t.waits| == |s.waits| + 1
    ensures Failures(s.state == Unconnected, s.payloads) ==
            [t.state == Unconnected] + Failures(t.state == Unconnected, t.payloads)
    ensures Receives(c, s, 1, 0) == if t.state != Unconnected then Receives(c, t, 1, 0) else t.(state := Disconnected)
  {
    t := PlainTurn(c, s, 1, 0);
  }

  // With an interval of -1 the first failure ends it.
  lemma {:induction false} FirstFailureEnds(c: Config, s: Session)
    requires ShouldRecv(s) && s.advice == Some(Advice(AdviceRetry, -1)) && !s.stuck
    requires forall i :: 0 <= i < |s.payloads| ==> NoAdvice(s.payloads[i])
    ensures var t := Receives(c, s, 1, 0);
            EndsAtFirst(t, Failures(s.state == Unconnected, s.payloads), |t.waits| - |s.waits|) == true
    decreases |s.payloads|
  {
    if s.payloads != [] {
      var t := OneReceive(c, s);
      if t.state != Unconnected {
        FirstFailureEnds(c, t);
        var u := Receives(c, t, 1, 0);
        EndsLater(u, Failures(false, t.payloads), |u.waits| - |t.waits|);
      } else {
        EndsNow(t.(state := Disconnected), Failures(true, t.payloads));
      }
    }
  }

  // Without the advice to retry the loop never waits and never ends by itself, however often receiving fails.
  lemma {:induction false} OthersNeverWait(c: Config, s: Session)
    requires ShouldRecv(s) && !s.stuck && (s.advice.Some? ==> s.advice.value.reconnect != AdviceRetry)
    requires forall i :: 0 <= i < |s.payloads| ==> NoAdvice(s.payloads[i])
    ensures var t := Receives(c, s, 1, 0);
            t.stuck && t.payloads == [] && t.waits == s.waits + seq(|s.payloads|, i => 0)
    decreases |s.payloads|
  {
    if s.payloads != [] {
      var t := PlainTurn(c, s, 1, 0);
      OthersNeverWait(c, t);
      assert [0] + seq(|t.payloads|, i => 0) == seq(|s.payloads|, i => 0);
    }
  }

  // ---------- what a handshake and a connect lead to ----------

  // the transport that the messages agree on: that of the last handshake message that has one
  ghost predicate Agreed(msgs: seq<Message>, i: int) {
    && 0 <= i < |msgs| && msgs[i].HandshakeMsg? && msgs[i].transport.Some?
    && forall j :: i < j < |msgs| ==> msgs[j].HandshakeMsg? ==> msgs[j].transport.None?
  }

  ghost predicate Negotiates(reply: Reply) {
    reply.Messages? && exists i :: 0 <= i < |reply.msgs| && reply.msgs[i].HandshakeMsg? && reply.msgs[i].transport.Some?
  }

  // the advice that the messages leave: that of the last handshake message, even if it has none
  ghost predicate Advised(msgs: seq<Message>, i: int) {
    0 <= i < |msgs| && msgs[i].HandshakeMsg? && forall j :: i < j < |msgs| ==> !msgs[j].HandshakeMsg?
  }

  predicate NoConnect(reply: Reply) {
    reply.Messages? ==> forall i :: 0 <= i < |reply.msgs| ==> !reply.msgs[i].ConnectMsg?
  }

  // what the messages of an answer make of s
  ghost predicate Done(s: Session, msgs: seq<Message>, t: Session) {
    && t == s.(state := t.state, transport := t.transport, advice := t.advice)
    && (if Negotiates(Messages(msgs)) then
          t.state == HandshakeSuccess && exists i :: Agreed(msgs, i) && t.transport == msgs[i].transport
        else t.state == s.state && t.transport == s.transport)
    && (forall i :: Advised(msgs, i) ==> t.advice == msgs[i].advice)
    && ((forall i :: 0 <= i < |msgs| ==> !msgs[i].HandshakeMsg?) ==> t.advice == s.advice)
  }

  lemma NegotiatesMore(msgs: seq<Message>, m: Message)
    ensures Negotiates(Messages(msgs + [m])) <==> Negotiates(Messages(msgs)) || (m.HandshakeMsg? && m.transport.Some?)
    ensures forall i :: 0 <= i < |msgs| && (m.HandshakeMsg? ==> m.transport.None?) ==>
              (Agreed(msgs + [m], i) <==> Agreed(msgs, i))
  {
    var more := msgs + [m];
    assert more[|msgs|] == m && forall i :: 0 <= i < |msgs| ==> more[i] == msgs[i];
    if Negotiates(Messages(msgs)) {
      var i :| 0 <= i < |msgs| && msgs[i].HandshakeMsg? && msgs[i].transport.Some?;
      assert more[i].HandshakeMsg?;
    }
  }

  lemma AdvisedMore(msgs: seq<Message>, m: Message)
    ensures forall i :: 0 <= i < |msgs| ==> (Advised(msgs + [m], i) <==> !m.HandshakeMsg? && Advised(msgs, i))
  {
    var more := msgs + [m];
    assert more[|msgs|] == m && forall i :: 0 <= i < |msgs| ==> more[i] == msgs[i];
  }

  lemma DoneMore(s: Session, msgs: seq<Message>, t: Session, m: Message, u: Session)
    requires Done(s, msgs, t) && !m.ConnectMsg? && u == if m.HandshakeMsg? then AfterHandshake(t, m) else t
    ensures Done(s, msgs + [m], u) == true
  {
    var more := msgs + [m];
    NegotiatesMore(msgs, m);
    AdvisedMore(msgs, m);
    assert more[|msgs|] == m;
    if m.HandshakeMsg? && m.transport.Some? {
      assert Agreed(more, |msgs|);
    } else if Negotiates(Messages(msgs)) {
      var i :| Agreed(msgs, i) && t.transport == msgs[i].transport;
      assert Agreed(more, i);
    }
  }

  // What the messages of an answer do.
  lemma {:induction false} MessagesDo(c: Config, s: Session, msgs: seq<Message>)
    requires NoConnect(Messages(msgs)) && !s.stuck
    ensures Done(s, msgs, AfterMessages(c, s, msgs)) == true
  {
    if msgs != [] {
      var n := |msgs| - 1;
      MessagesDo(c, s, msgs[..n]);
      var t := AfterMessages(c, s, msgs[..n]);
      assert Done(s, msgs[..n], t) && !t.stuck && !msgs[n].ConnectMsg?;
      DoneMore(s, msgs[..n], t, msgs[n], AfterMessage(c, t, msgs[n]));
      assert msgs == msgs[..n] + [msgs[n]];
    }
  }

  // the answer says that the request was in order
  predicate Accepts(reply: Reply) {
    match reply
    case Failed(code) => code == COMETD_SUCCESS
    case Messages(msgs) => msgs != [] && msgs[0].successful
  }

  // why it does not
  function Refusal(reply: Reply): int {
    match reply
    case Failed(code) => code
    case Messages(_) => ECOMETD_UNSUCCESSFUL
  }

  // r and code are where n attempts from s on lead
  ghost predicate EndsRightly(s: Session, r: Session, code: int, n: int) {
    && 0 <= n <= |s.replies| && |r.waits| == |s.waits| + n && r.replies == s.replies[n..]
    && (forall i :: 0 <= i < n - 1 ==> !Negotiates(s.replies[i]))
    && (if n > 0 && Negotiates(s.replies[n - 1]) then r.state == HandshakeSuccess && r.transport.Some? && !r.stuck
        else r.state == s.state && r.transport == s.transport)
    && (n > 0 && !r.stuck ==> (code == COMETD_SUCCESS <==> Accepts(s.replies[n - 1]) && r.transport.Some?))
    && (n > 0 && !r.stuck && !Accepts(s.replies[n - 1]) ==> code == Refusal(s.replies[n - 1]))
  }

  // one answer
  lemma OneAnswer(c: Config, s: Session, backoff: int)
    requires !s.stuck && s.replies != [] && NoConnect(s.replies[0])
    ensures var reply := s.replies[0];
            var t := AfterReply(c, Sent(s, backoff), reply);
            && t.replies == s.replies[1..] && t.waits == s.waits + [backoff] && !t.stuck
            && (if Negotiates(reply) then t.state == HandshakeSuccess && t.transport.Some?
                else t.state == s.state && t.transport == s.transport)
            && (ReplyCode(t, reply) == COMETD_SUCCESS <==> Accepts(reply) && t.transport.Some?)
            && (!Accepts(reply) ==> ReplyCode(t, reply) == Refusal(reply))
  {
    var reply := s.replies[0];
    if reply.Messages? {
      MessagesDo(c, Sent(s, backoff), reply.msgs);
    }
  }

  // one more attempt, which does not agree on a transport
  lemma EndsMore(s: Session, t: Session, r: Session, code: int, n: int)
    requires s.replies != [] && t.replies == s.replies[1..] && |t.waits| == |s.waits| + 1
    requires t.state == s.state && t.transport == s.transport && !Negotiates(s.replies[0])
    requires EndsRightly(t, r, code, n) && n > 0
    ensures EndsRightly(s, r, code, n + 1) == true
  {
    assert forall i :: 0 <= i < |t.replies| ==> t.replies[i] == s.replies[i + 1];
    assert t.replies[n..] == s.replies[n + 1..];
  }

  // one attempt, and where it leaves the loop
  lemma OneAttempt(c: Config, s: Session, attempt: nat, backoff: int, code: int) returns (t: Session, b: int)
    requires !s.stuck && s.replies != [] && NoConnect(s.replies[0]) && ShouldHandshake(s)
    ensures t == AfterReply(c, Sent(s, backoff), s.replies[0]) && b == GetBackoff(c, t.advice, attempt)
    ensures var code' := ReplyCode(t, s.replies[0]);
            Handshakes(c, s, attempt, backoff, code) ==
              if t.stuck then (t, code) else if b == -1 then (t, code') else Handshakes(c, t, attempt + 1, b, code')
  {
    t := AfterReply(c, Sent(s, backoff), s.replies[0]);
    b := GetBackoff(c, t.advice, attempt);
  }

  // the loop ends with this attempt, or gets stuck after it
  lemma EndsOnce(s: Session, t: Session, r: Session, code: int)
    requires s.replies != [] && t.replies == s.replies[1..] && |t.waits| == |s.waits| + 1
    requires !t.stuck && (r == t || r == t.(stuck := true)) && (r.stuck ==> !Negotiates(s.replies[0]))
    requires if Negotiates(s.replies[0]) then t.state == HandshakeSuccess && t.transport.Some?
             else t.state == s.state && t.transport == s.transport
    requires code == COMETD_SUCCESS <==> Accepts(s.replies[0]) && t.transport.Some?
    requires !Accepts(s.replies[0]) ==> code == Refusal(s.replies[0])
    ensures EndsRightly(s, r, code, 1) == true
  {
  }

  lemma {:induction false} HandshakeEndsFrom(c: Config, s: Session, attempt: nat, backoff: int, code: int)
    requires !s.stuck && forall i :: 0 <= i < |s.replies| ==> NoConnect(s.replies[i])
    ensures var (r, code') := Handshakes(c, s, attempt, backoff, code);
            EndsRightly(s, r, code', |r.waits| - |s.waits|) == true
    decreases |s.replies|
  {
    if ShouldHandshake(s) && s.replies != [] {
      var reply := s.replies[0];
      OneAnswer(c, s, backoff);
      var t, b := OneAttempt(c, s, attempt, backoff, code);
      if b != -1 && ShouldHandshake(t) && t.replies != [] {
        HandshakeEndsFrom(c, t, attempt + 1, b, ReplyCode(t, reply));
        var (r, code') := Handshakes(c, t, attempt + 1, b, ReplyCode(t, reply));
        EndsMore(s, t, r, code', |r.waits| - |t.waits|);
      } else {
        EndsOnce(s, t, Handshakes(c, s, attempt, backoff, code).0, ReplyCode(t, reply));
      }
    }
  }

  // A handshake ends with the first answer that agrees on a transport, and only such an answer makes it succeed;
  // success is returned iff the last answer is in order and there is a transport.
  lemma HandshakeEnds(c: Config, s: Session)
    requires !s.stuck && forall i :: 0 <= i < |s.replies| ==> NoConnect(s.replies[i])
    ensures var (r, code) := Handshakes(c, s, 1, 0, ECOMETD_UNKNOWN); EndsRightly(s, r, code, |r.waits| - |s.waits|)
  {
    HandshakeEndsFrom(c, s, 1, 0, ECOMETD_UNKNOWN);
  }

  // A handshake is tried at all iff there is neither a session nor other advice.
  lemma WhetherToShakeHands(c: Config, s: Session)
    requires !s.stuck && s.replies != []
    ensures var (r, code) := Handshakes(c, s, 1, 0, ECOMETD_UNKNOWN);
            if NoSession(s) && (s.advice.None? || s.advice.value.reconnect == AdviceHandshake)
            then s.waits + [0] <= r.waits else r == s && code == ECOMETD_UNKNOWN
  {
    if ShouldHandshake(s) {
      var reply, sent := s.replies[0], Sent(s, 0);
      if reply.Messages? {
        MessagesWait(c, sent, reply.msgs);
      }
      var t := AfterReply(c, sent, reply);
      HandshakesWait(c, t, 2, GetBackoff(c, t.advice, 1), ReplyCode(t, reply));
    }
  }

  lemma {:induction false} HandshakesWait(c: Config, s: Session, attempt: nat, backoff: int, code: int)
    ensures s.waits <= Handshakes(c, s, attempt, backoff, code).0.waits
    decreases |s.replies|, 0, 0
  {
    if ShouldHandshake(s) && s.replies != [] {
      var reply := s.replies[0];
      if reply.Messages? {
        MessagesWait(c, Sent(s, backoff), reply.msgs);
      }
      var t := AfterReply(c, Sent(s, backoff), reply);
      HandshakesWait(c, t, attempt + 1, GetBackoff(c, t.advice, attempt), ReplyCode(t, reply));
    }
  }

  lemma {:induction false} MessageWaits(c: Config, s: Session, m: Message)
    ensures s.waits <= AfterMessage(c, s, m).waits
    decreases |s.replies|, 1, 0
  {
    if m.ConnectMsg? {
      HandshakesWait(c, AfterConnect(s, m), 1, 0, ECOMETD_UNKNOWN);
    }
  }

  lemma {:induction false} MessagesWait(c: Config, s: Session, msgs: seq<Message>)
    ensures s.waits <= AfterMessages(c, s, msgs).waits
    decreases |s.replies|, 2, |msgs|
  {
    if msgs != [] {
      MessagesWait(c, s, msgs[..|msgs| - 1]);
      MessageWaits(c, AfterMessages(c, s, msgs[..|msgs| - 1]), msgs[|msgs| - 1]);
    }
  }

  // A connect that fails with the advice to shake hands again makes a new request at once; any other one sets
  // the state and takes the advice, if there is some; and none matters to a client that is disconnecting.
  lemma ConnectLeadsTo(c: Config, s: Session, m: Message)
    requires m.ConnectMsg? && !s.stuck
    ensures var r := AfterMessage(c, s, m);
            if s.state in {Disconnecting, Disconnected} then r == s
            else if !m.successful && m.advice.Some? && m.advice.value.reconnect == AdviceHandshake then
              if s.replies == [] then r.stuck else s.waits + [0] <= r.waits && |r.replies| < |s.replies|
            else
              && r.state == (if m.successful then Connected else Unconnected)
              && r.advice == (if m.advice.Some? then m.advice else s.advice)
              && r == s.(state := r.state, advice := r.advice)
  {
    var t := AfterConnect(s, m);
    if AsksForHandshake(s, m) && s.replies != [] {
      var reply, sent := s.replies[0], Sent(t, 0);
      if reply.Messages? {
        MessagesWait(c, sent, reply.msgs);
      }
      var u := AfterReply(c, sent, reply);
      HandshakesWait(c, u, 2, GetBackoff(c, u.advice, 1), ReplyCode(u, reply));
    }
  }
}
