/** The readiness-driven send path of a session: Send asks epoll to report the socket writable, and
    ProcessSend then writes until the ring is empty or the socket refuses. */
module EpollMachine {
  import opened Types
  import Fifo
  import M = SendMachine

  /** `interest` is whether epoll has been asked to report the socket writable.  `mapped` is whether
      the socket is still in the model's table; it leaves it when the session is disconnected.  `wire` is
      what the system has taken of what it was offered. */
  datatype State = State(session: M.Session, interest: bool, mapped: bool, ctlFailed: bool, wire: seq<byte>)

  /** What one call of the system's send comes back with. */
  datatype Reply =
    | Sent(n: nat)
    | Zero
    | Again   // EAGAIN or EWOULDBLOCK
    | Error

  function Initial(capacity: nat): State {
    State(M.Initial(capacity).session, false, true, false, [])
  }

  /** ModifySocket: nothing is changed for a socket that is not in the table, or when epoll_ctl
      fails. */
  function ModifySocket(st: State, interest: bool, ctlOk: bool): State {
    if !st.mapped then st
    else if ctlOk then st.(interest := interest)
    else st.(ctlFailed := true)
  }

  function Send(st: State, caller: nat, data: seq<byte>, ctlOk: bool): (State, bool)
    requires |st.session.queue| <= st.session.capacity
  {
    if data == [] then
      (st, false)
    else
      var written := st.(session := M.Write(st.session, caller, data));
      if M.Free(st.session) < |data| then (written, false)
      else if st.session.sending then (written, true)
      else (ModifySocket(written.(session := written.session.(sending := true)), true, ctlOk), true)
  }

  /** The system's send takes at least one byte and no more than it is offered. */
  function Clamp(n: nat, offered: nat): (m: nat)
    requires 0 < offered
    ensures 1 <= m <= offered
    ensures 1 <= n <= offered ==> m == n
  {
    if n == 0 then 1 else Min(n, offered)
  }

  /** What one turn of the loop of ProcessSend offers to the system. */
  function Offered(s: M.Session): seq<byte> {
    s.queue[..Min(DEFAULT_BUFFER_SIZE, |s.queue|)]
  }

  /** A call of send by which the system takes that much of what it is offered. */
  function Taken(st: State, sent: nat): State
    requires sent <= |Offered(st.session)|
  {
    st.(wire := st.wire + Offered(st.session)[..sent])
  }

  /** What ProcessSend does after it. */
  function Skipped(st: State, sent: nat): State {
    st.(session := M.Skip(st.session, sent))
  }

  /** The loop of ProcessSend, `replies` being what the calls of send come back with, and EAGAIN
      after that; the result tells whether it ends without a disconnect. */
  function Loop(st: State, replies: seq<Reply>, ctlOk: bool): (State, bool)
    decreases |st.session.queue|
  {
    if st.session.queue == [] then
      (ModifySocket(st.(session := st.session.(sending := false)), false, ctlOk), true)
    else
      match if replies == [] then Again else replies[0]
      case Sent(n) =>
        var sent := Clamp(n, |Offered(st.session)|);
        Loop(Skipped(Taken(st, sent), sent), replies[1..], ctlOk)
      case Again => (st, true)
      case _ => (st, false)
  }

  function ProcessSend(st: State, replies: seq<Reply>, ctlOk: bool): State {
    var (after, alive) := Loop(st, replies, ctlOk);
    if alive then after else Disconnect(after)
  }

  /** The socket is taken out of the table and out of epoll, and closed. */
  function Disconnect(st: State): State {
    st.(interest := false, mapped := false)
  }

  // ---- Steps and runs ----

  datatype Event =
    | CallSend(caller: nat, data: seq<byte>, ctlOk: bool)
    | Writable(replies: seq<Reply>, ctlOk: bool)
    | Hangup  // a disconnect for any other reason

  /** epoll reports the socket writable only if it was asked to. */
  ghost predicate Enabled(st: State, e: Event) {
    st.mapped && |st.session.queue| <= st.session.capacity && (e.Writable? ==> st.interest)
  }

  ghost function Step(st: State, e: Event): State
    requires Enabled(st, e)
  {
    match e
    case CallSend(caller, data, ctlOk) => Send(st, caller, data, ctlOk).0
    case Writable(replies, ctlOk) => ProcessSend(st, replies, ctlOk)
    case Hangup => Disconnect(st)
  }

  /** What has left the ring is what the system has taken; and while every epoll_ctl has succeeded and
      the session is connected, epoll reports the socket writable exactly when the session has data to
      send. */
  ghost predicate Inv(st: State) {
    && M.Conserved(st.session)
    && st.wire == st.session.skipped
    && (st.mapped && !st.ctlFailed ==> (st.session.sending <==> st.interest))
  }

  lemma InitialInv(capacity: nat)
    ensures Inv(Initial(capacity))
  {
  }

  lemma SendInv(st: State, caller: nat, data: seq<byte>, ctlOk: bool)
    requires Inv(st)
    ensures Inv(Send(st, caller, data, ctlOk).0)
  {
    M.WriteConserves(st.session, caller, data);
  }

  /** How the loop may leave the session: to be disconnected with data left, drained and idle, or as
      it was but for the bytes sent. */
  ghost predicate LeftAs(st: State, after: State, alive: bool, ctlOk: bool) {
    && Inv(after)
    && after.session.accepted == st.session.accepted && st.wire <= after.wire
    && after.session.capacity == st.session.capacity && after.mapped == st.mapped
    && (!alive ==> after.session.queue != [])
    && if after.session.queue == [] then
         && !after.session.sending
         && after.interest == (st.interest && !(st.mapped && ctlOk))
         && after.ctlFailed == (st.ctlFailed || (st.mapped && !ctlOk))
       else
         && after.session.sending == st.session.sending
         && after.interest == st.interest && after.ctlFailed == st.ctlFailed
  }

  lemma TurnInv(st: State, sent: nat)
    requires Inv(st) && sent <= |Offered(st.session)|
    ensures Inv(Skipped(Taken(st, sent), sent))
  {
    M.SkipConserves(st.session, sent);
  }

  lemma LastTurn(st: State, replies: seq<Reply>, ctlOk: bool)
    requires Inv(st)
    requires st.session.queue == [] || replies == [] || !replies[0].Sent?
    ensures var (after, alive) := Loop(st, replies, ctlOk);
            LeftAs(st, after, alive, ctlOk)
  {
  }

  /** The loop leaves the session in exactly one of three ways, and keeps the invariant. */
  lemma {:induction false} ProcessSendExits(st: State, replies: seq<Reply>, ctlOk: bool)
    requires Inv(st)
    ensures var (after, alive) := Loop(st, replies, ctlOk);
            && LeftAs(st, after, alive, ctlOk)
            && Inv(ProcessSend(st, replies, ctlOk))
    decreases |st.session.queue|
  {
    if st.session.queue == [] || replies == [] || !replies[0].Sent? {
      LastTurn(st, replies, ctlOk);
    } else {
      var sent := Clamp(replies[0].n, |Offered(st.session)|);
      TurnInv(st, sent);
      ProcessSendExits(Skipped(Taken(st, sent), sent), replies[1..], ctlOk);
    }
  }

  // ---- What a Send answers, and what a writability event sends ----

  /** Send succeeds exactly when the whole buffer fits; either way the part that fits has been queued,
      and nothing goes to the system. */
  lemma SendResult(st: State, caller: nat, data: seq<byte>, ctlOk: bool)
    requires |st.session.queue| <= st.session.capacity
    ensures var (after, ok) := Send(st, caller, data, ctlOk);
            && (ok <==> data != [] && |data| <= M.Free(st.session))
            && after.session.queue == st.session.queue + data[..Min(|data|, M.Free(st.session))]
            && after.session.accepted == st.session.accepted + data[..Min(|data|, M.Free(st.session))]
            && (data != [] ==>
                 after.session.log == st.session.log + [M.Entry(caller, data, Min(|data|, M.Free(st.session)))])
            && (data == [] ==> after == st)
            && after.session.sending == (st.session.sending || ok)
            && after.wire == st.wire && after.mapped == st.mapped
  {
  }

  /** How many bytes the system takes of `left` before an answer that ends the loop. */
  function Total(left: nat, replies: seq<Reply>): (n: nat)
    ensures n <= left
    decreases left
  {
    if left == 0 || replies == [] || !replies[0].Sent? then 0
    else
      var sent := Clamp(replies[0].n, Min(DEFAULT_BUFFER_SIZE, left));
      sent + Total(left - sent, replies[1..])
  }

  /** And after how many answers that is. */
  function Turns(left: nat, replies: seq<Reply>): (k: nat)
    ensures k <= |replies| && forall i | 0 <= i < k :: replies[i].Sent?
    ensures Total(left, replies) < left && k < |replies| ==> !replies[k].Sent?
    decreases left
  {
    if left == 0 || replies == [] || !replies[0].Sent? then 0
    else
      var sent := Clamp(replies[0].n, Min(DEFAULT_BUFFER_SIZE, left));
      1 + Turns(left - sent, replies[1..])
  }

  /** The sizes the system reports, added up. */
  function Sum(replies: seq<Reply>): nat {
    if replies == [] then 0 else (if replies[0].Sent? then replies[0].n else 0) + Sum(replies[1..])
  }

  /** As long as the system takes what it may take, it is what it reports. */
  lemma {:induction false} TotalIsSum(left: nat, replies: seq<Reply>, rest: seq<Reply>)
    requires forall r | r in replies :: r.Sent? && 1 <= r.n <= DEFAULT_BUFFER_SIZE
    requires Sum(replies) <= left && (rest != [] ==> !rest[0].Sent?)
    ensures Total(left, replies + rest) == Sum(replies) && Turns(left, replies + rest) == |replies|
    decreases |replies|
  {
    if replies == [] {
      assert replies + rest == rest;
    } else {
      assert replies[0].Sent?;
      assert (replies + rest)[1..] == replies[1..] + rest;
      TotalIsSum(left - replies[0].n, replies[1..], rest);
    }
  }

  /** The answer that ends the loop disconnects the session: bytes are left, and it is neither EAGAIN
      nor missing. */
  predicate Breaks(left: nat, replies: seq<Reply>) {
    var k := Turns(left, replies);
    Total(left, replies) < left && k < |replies| && !replies[k].Again?
  }

  /** `n` bytes more have left the ring for the system, the oldest first, and the rest is still there. */
  ghost predicate Sends(st: State, after: State, n: nat) {
    n <= |st.session.queue| && after.session.queue == st.session.queue[n..] && after.wire == st.wire + st.session.queue[..n]
  }

  lemma TurnSends(st: State, sent: nat)
    requires sent <= |Offered(st.session)|
    ensures Sends(st, Skipped(Taken(st, sent), sent), sent)
  {
  }

  lemma OneTurn(st: State, replies: seq<Reply>, ctlOk: bool)
    requires st.session.queue != [] && replies != [] && replies[0].Sent?
    ensures var sent, left := Clamp(replies[0].n, |Offered(st.session)|), |st.session.queue|;
            && Loop(st, replies, ctlOk) == Loop(Skipped(Taken(st, sent), sent), replies[1..], ctlOk)
            && Total(left, replies) == sent + Total(left - sent, replies[1..])
            && (Breaks(left, replies) <==> Breaks(left - sent, replies[1..]))
  {
  }

  lemma LastReply(st: State, replies: seq<Reply>, ctlOk: bool)
    requires st.session.queue != [] && (replies == [] || !replies[0].Sent?)
    ensures Loop(st, replies, ctlOk) == (st, replies == [] || replies[0].Again?)
  {
  }

  lemma NothingLeft(st: State, replies: seq<Reply>, ctlOk: bool)
    requires st.session.queue == []
    ensures Loop(st, replies, ctlOk) == Loop(st, [], ctlOk)
  {
  }

  lemma NoTurn(st: State, replies: seq<Reply>, ctlOk: bool)
    requires st.session.queue == [] || replies == [] || !replies[0].Sent?
    ensures Sends(st, Loop(st, replies, ctlOk).0, 0) && Total(|st.session.queue|, replies) == 0
    ensures Loop(st, replies, ctlOk).1 <==> !Breaks(|st.session.queue|, replies)
  {
  }

  lemma SendsOn(st: State, next: State, after: State, sent: nat, more: nat)
    requires Sends(st, next, sent) && Sends(next, after, more)
    ensures Sends(st, after, sent + more)
  {
    assert st.session.queue[..sent] + next.session.queue[..more] == st.session.queue[..sent + more];
  }

  /** The loop takes from the ring exactly what the system takes, and ends in a disconnect exactly when
      an answer makes it. */
  ghost predicate LoopFits(st: State, replies: seq<Reply>, ctlOk: bool) {
    && Sends(st, Loop(st, replies, ctlOk).0, Total(|st.session.queue|, replies))
    && (Loop(st, replies, ctlOk).1 <==> !Breaks(|st.session.queue|, replies))
  }

  lemma OneTurnMore(st: State, replies: seq<Reply>, ctlOk: bool)
    requires st.session.queue != [] && replies != [] && replies[0].Sent?
    requires var sent := Clamp(replies[0].n, |Offered(st.session)|);
             LoopFits(Skipped(Taken(st, sent), sent), replies[1..], ctlOk)
    ensures LoopFits(st, replies, ctlOk)
  {
    var sent := Clamp(replies[0].n, |Offered(st.session)|);
    var next := Skipped(Taken(st, sent), sent);
    TurnSends(st, sent);
    OneTurn(st, replies, ctlOk);
    SendsOn(st, next, Loop(st, replies, ctlOk).0, sent, Total(|next.session.queue|, replies[1..]));
  }

  lemma {:induction false} LoopSends(st: State, replies: seq<Reply>, ctlOk: bool)
    ensures LoopFits(st, replies, ctlOk)
    decreases |st.session.queue|
  {
    if st.session.queue != [] && replies != [] && replies[0].Sent? {
      var sent := Clamp(replies[0].n, |Offered(st.session)|);
      TurnSends(st, sent);
      LoopSends(Skipped(Taken(st, sent), sent), replies[1..], ctlOk);
      OneTurnMore(st, replies, ctlOk);
    } else {
      NoTurn(st, replies, ctlOk);
    }
  }

  /** And so does ProcessSend, which disconnects the session exactly then. */
  lemma ProcessSendResult(st: State, replies: seq<Reply>, ctlOk: bool)
    requires Inv(st)
    ensures var after := ProcessSend(st, replies, ctlOk);
            && Sends(st, after, Total(|st.session.queue|, replies))
            && (after.mapped <==> st.mapped && !Breaks(|st.session.queue|, replies))
            && after.session.accepted == st.session.accepted
  {
    LoopSends(st, replies, ctlOk);
    ProcessSendExits(st, replies, ctlOk);
  }

  /** A partial send: that much is gone, the rest waits for the socket with the flag up. */
  lemma OneSend(st: State, n: nat, ctlOk: bool)
    requires Inv(st) && 1 <= n <= Min(DEFAULT_BUFFER_SIZE, |st.session.queue|)
    ensures var after := ProcessSend(st, [Sent(n)], ctlOk);
            && after.session.queue == st.session.queue[n..]
            && after.wire == st.wire + st.session.queue[..n]
            && after.mapped == st.mapped
            && (n < |st.session.queue| ==> after.session.sending == st.session.sending && after.interest == st.interest)
            && (n == |st.session.queue| ==> !after.session.sending)
  {
    TotalIsSum(|st.session.queue|, [Sent(n)], []);
    assert Sum([Sent(n)]) == n + Sum([]);
    assert [Sent(n)] + [] == [Sent(n)];
    ProcessSendResult(st, [Sent(n)], ctlOk);
    ProcessSendExits(st, [Sent(n)], ctlOk);
  }

  lemma StepInv(st: State, e: Event)
    requires Inv(st) && Enabled(st, e)
    ensures Inv(Step(st, e))
  {
    match e
    case CallSend(caller, data, ctlOk) => SendInv(st, caller, data, ctlOk);
    case Writable(replies, ctlOk) => ProcessSendExits(st, replies, ctlOk);
    case Hangup =>
  }

  // ---- The machine is a first-in first-out channel ----

  ghost function View(st: State): Fifo.Channel {
    Fifo.Channel(st.session.capacity, st.session.accepted, st.wire)
  }

  lemma StepRefinesChannel(st: State, e: Event)
    requires Inv(st) && Enabled(st, e)
    ensures Fifo.Next(View(st), View(Step(st, e)))
  {
    StepInv(st, e);
    match e
    case CallSend(_, _, _) =>
    case Writable(replies, ctlOk) => ProcessSendExits(st, replies, ctlOk);
    case Hangup =>
  }

  ghost predicate EnabledRun(st: State, events: seq<Event>)
    decreases |events|
  {
    events == [] || (Enabled(st, events[0]) && EnabledRun(Step(st, events[0]), events[1..]))
  }

  ghost function Run(st: State, events: seq<Event>): State
    requires EnabledRun(st, events)
    decreases |events|
  {
    if events == [] then st else Run(Step(st, events[0]), events[1..])
  }

  /** The channel after each event of a run. */
  ghost function Trace(st: State, events: seq<Event>): seq<Fifo.Channel>
    requires EnabledRun(st, events)
    decreases |events|
  {
    [View(st)] + if events == [] then [] else Trace(Step(st, events[0]), events[1..])
  }

  /** Every run of the machine keeps the invariant, and is a run of the channel. */
  lemma {:induction false} TraceIsChannelRun(st: State, events: seq<Event>)
    requires Inv(st) && EnabledRun(st, events)
    ensures Inv(Run(st, events))
    ensures Fifo.IsRun(Trace(st, events)) && Trace(st, events)[0] == View(st)
    decreases |events|
  {
    if events != [] {
      var next := Step(st, events[0]);
      StepInv(st, events[0]);
      StepRefinesChannel(st, events[0]);
      TraceIsChannelRun(next, events[1..]);
      Fifo.RunFrom(View(st), Trace(next, events[1..]));
    }
  }

  /** A socket that takes something every time is written to until everything accepted is out. */
  lemma {:induction false} WillingSocketDrains(st: State, replies: seq<Reply>)
    requires Inv(st) && st.mapped
    requires |st.session.queue| <= |replies| && forall r | r in replies :: r.Sent?
    ensures var after := ProcessSend(st, replies, true);
            after.mapped && !after.session.sending && after.wire == st.session.accepted
    decreases |st.session.queue|
  {
    if st.session.queue != [] {
      var sent := Clamp(replies[0].n, |Offered(st.session)|);
      TurnInv(st, sent);
      WillingSocketDrains(Skipped(Taken(st, sent), sent), replies[1..]);
    }
  }

  // ---- No lost wake-up ----

  /** An event as a careful user and an epoll_ctl that works produce them. */
  ghost predicate Clean(capacity: nat, e: Event) {
    match e
    case CallSend(_, data, ctlOk) => |data| <= capacity && ctlOk
    case Writable(_, ctlOk) => ctlOk
    case Hangup => true
  }

  /** Nothing has failed, and the session waits for the socket exactly when it has data. */
  ghost predicate Awake(st: State) {
    Inv(st) && !st.ctlFailed && (st.mapped ==> (st.session.sending <==> st.session.queue != []))
  }

  lemma AwakeStep(st: State, e: Event)
    requires Awake(st) && Enabled(st, e) && Clean(st.session.capacity, e)
    ensures Awake(Step(st, e)) && Step(st, e).session.capacity == st.session.capacity
  {
    StepInv(st, e);
    match e
    case CallSend(_, _, _) =>
    case Writable(replies, ctlOk) =>
      ProcessSendExits(st, replies, ctlOk);
      var after := Step(st, e);
      assert |after.wire| + |after.session.queue| == |st.wire| + |st.session.queue|;
    case Hangup =>
  }

  /** If no buffer is larger than the ring and epoll_ctl works, then after any run, while the session
      is connected: data is queued, mIsSending holds and EPOLLOUT is asked for all at the same time;
      so a Send to an idle session never overflows. */
  lemma {:induction false} NoWakeUpIsLost(st: State, events: seq<Event>)
    requires Awake(st) && EnabledRun(st, events)
    requires forall e | e in events :: Clean(st.session.capacity, e)
    ensures var end := Run(st, events);
            && Awake(end)
            && (end.mapped ==> (end.interest <==> end.session.queue != []))
            && (end.mapped && !end.session.sending ==> M.Free(end.session) == end.session.capacity)
    decreases |events|
  {
    if events != [] {
      assert Clean(st.session.capacity, events[0]);
      AwakeStep(st, events[0]);
      NoWakeUpIsLost(Step(st, events[0]), events[1..]);
    }
  }

  // ---- When epoll_ctl fails ----

  /** Starting from agreement, the flag and the interest still agree after a Send if and only if it
      did not have to call epoll_ctl or the call succeeded. */
  lemma SendAgreement(st: State, caller: nat, data: seq<byte>, ctlOk: bool)
    requires Inv(st) && st.mapped && (st.session.sending <==> st.interest)
    ensures var after := Send(st, caller, data, ctlOk).0;
            (after.session.sending <==> after.interest) <==>
            (st.session.sending || data == [] || M.Free(st.session) < |data| || ctlOk)
  {
  }

  /** The same for the send loop, which calls epoll_ctl when it has emptied the ring. */
  lemma LoopAgreement(st: State, replies: seq<Reply>, ctlOk: bool)
    requires Inv(st) && st.mapped && (st.session.sending <==> st.interest)
    ensures var after := Loop(st, replies, ctlOk).0;
            (after.session.sending <==> after.interest) <==>
            (after.session.queue != [] || !st.interest || ctlOk)
  {
    ProcessSendExits(st, replies, ctlOk);
  }

  /** After a withdrawal of interest that failed, the next Send that fits makes flag and mask agree
      again, whatever epoll_ctl answers it.  (The descriptor is registered edge-triggered, so a mask
      that merely stayed as it was reports no writability the socket has had all along: unless
      epoll_ctl succeeds, the data waits for the next time the socket becomes writable.) */
  lemma WithdrawalRepaired(st: State, caller: nat, data: seq<byte>, ctlOk: bool)
    requires Inv(st) && st.mapped && !st.session.sending && st.interest
    requires data != [] && |data| <= M.Free(st.session)
    ensures var (after, ok) := Send(st, caller, data, ctlOk);
            ok && after.session.sending && after.interest
  {
  }

  // ---- Dead sessions ----

  /** The socket is not watched for writing, and no Send will ask for it: because one has asked
      already, or because nothing more fits. */
  ghost predicate Dead(st: State) {
    || !st.mapped
    || st.session.capacity == 0
    || (!st.interest && (st.session.sending || |st.session.queue| == st.session.capacity))
  }

  lemma DeadStep(st: State, e: Event)
    requires Inv(st) && Dead(st) && Enabled(st, e)
    ensures var after := Step(st, e);
            && Dead(after) && after.wire == st.wire
            && (!st.session.sending ==> after.session.accepted == st.session.accepted && !after.session.sending)
  {
    match e
    case CallSend(_, _, _) =>
    case Writable(replies, ctlOk) =>
      assert st.session.capacity == 0;
    case Hangup =>
  }

  /** Over any run, whatever is done and whatever epoll_ctl answers, a dead session stays dead and
      transmits nothing; an idle one accepts nothing either, and every Send to it returns false. */
  lemma {:induction false} DeadIsForever(st: State, events: seq<Event>)
    requires Inv(st) && Dead(st) && EnabledRun(st, events)
    ensures var end := Run(st, events);
            && Dead(end) && end.wire == st.wire
            && (!st.session.sending ==> end.session.accepted == st.session.accepted && !end.session.sending)
    ensures !st.session.sending ==>
              forall e | e in events && e.CallSend? :: !Send(st, e.caller, e.data, e.ctlOk).1
    decreases |events|
  {
    if events != [] {
      var next := Step(st, events[0]);
      StepInv(st, events[0]);
      DeadStep(st, events[0]);
      DeadIsForever(next, events[1..]);
    }
    if !st.session.sending && st.mapped {
      assert |st.session.queue| == st.session.capacity;
    }
  }

  ghost predicate Progresses(st: State, events: seq<Event>) {
    EnabledRun(st, events) && |st.wire| < |Run(st, events).wire|
  }

  /** A watched socket with data can be written to. */
  lemma FromArmed(st: State) returns (events: seq<Event>)
    requires Inv(st) && st.mapped && st.interest && st.session.queue != []
    ensures Progresses(st, events)
  {
    var e := Writable([Sent(1)], true);
    assert [Sent(1)][1..] == [];
    events := [e];
    var sent := Skipped(Taken(st, 1), 1);
    TurnInv(st, 1);
    ProcessSendExits(sent, [], true);
    assert Loop(st, [Sent(1)], true) == Loop(sent, [], true);
    assert events[1..] == [];
  }

  /** The overflow stall and the failed arming are all there is: a session can be brought to transmit
      another byte if and only if it is not dead. */
  lemma DeadIffStuck(st: State)
    requires Inv(st)
    ensures Dead(st) <==> !exists events :: Progresses(st, events)
  {
    if Dead(st) {
      forall events | EnabledRun(st, events) ensures !Progresses(st, events) {
        DeadIsForever(st, events);
      }
    } else if st.interest && st.session.queue != [] {
      var events := FromArmed(st);
    } else {
      var e := CallSend(0, [0], true);
      StepInv(st, e);
      var events := FromArmed(Step(st, e));
      assert ([e] + events)[1..] == events;
      assert Progresses(st, [e] + events);
    }
  }

  /** What makes a live, connected session dead: an overflow or a failed arming of one that is idle and
      not watched.  (A session still watched after a failed withdrawal survives both.) */
  lemma DeathOf(st: State, e: Event)
    requires Inv(st) && Enabled(st, e) && !Dead(st)
    ensures Dead(Step(st, e)) && Step(st, e).mapped <==>
              && e.CallSend? && !st.session.sending && !st.interest && e.data != []
              && (M.Free(st.session) < |e.data| || !e.ctlOk)
  {
    if e.Writable? {
      ProcessSendExits(st, e.replies, e.ctlOk);
    }
  }
}
