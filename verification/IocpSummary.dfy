/** What of the IOCP model can be seen in its fields and sessions, and what each call does to that. */
module IocpSummary {
  import opened Types
  import opened SessionTable
  import opened SessionGroups
  import opened IocpServer
  import M = SendMachine
  import C = IocpContexts
  import K = IocpCalls
  import H = IocpHistories

  // ---- What is known of each session and context ----

  function StateOf(p: C.Peer): SessionState {
    if p.connected then Connected else Disconnected
  }

  function Look(sessions: map<nat, C.Peer>, pipes: map<nat, M.State>): map<nat, Seen> {
    map id | id in pipes && id in sessions :: Seen(StateOf(sessions[id]), pipes[id].session)
  }

  function SocketsOf(sessions: map<nat, C.Peer>): map<nat, nat> {
    map id | id in sessions :: sessions[id].socket
  }

  /** What the buffers of the send contexts hold. */
  ghost function Buffers(live: map<nat, C.Context>, pipes: map<nat, M.State>): map<nat, seq<byte>> {
    map c | c in live && live[c].operation.Send? :: BufferFor(live[c].session, pipes)
  }

  ghost function BufferFor(session: Option<nat>, pipes: map<nat, M.State>): seq<byte> {
    if session.Some? && session.value in pipes then FrontOf(pipes[session.value]) else []
  }

  lemma LookChanged(sessions: map<nat, C.Peer>, pipes: map<nat, M.State>, id: nat, peer: C.Peer, p: M.State)
    ensures Look(sessions[id := peer], pipes[id := p]) == Look(sessions, pipes)[id := Seen(StateOf(peer), p.session)]
  {
  }

  lemma RecordChanged(l: C.Ledger, after: C.Ledger, id: nat, peer: C.Peer)
    requires id in l.sessions && peer.socket == l.sessions[id].socket && after.sessions == l.sessions[id := peer]
    ensures SocketsOf(after.sessions) == SocketsOf(l.sessions)
    ensures C.Managed(after) == if peer.connected then C.Managed(l) + {id} else C.Managed(l) - {id}
  {
  }

  lemma RecordAdded(l: C.Ledger, after: C.Ledger, id: nat, peer: C.Peer)
    requires id !in l.sessions && peer.connected && after.sessions == l.sessions[id := peer]
    ensures SocketsOf(after.sessions) == SocketsOf(l.sessions)[id := peer.socket]
    ensures C.Managed(after) == C.Managed(l) + {id}
  {
  }

  lemma BuffersLess(live: map<nat, C.Context>, pipes: map<nat, M.State>, c: nat)
    ensures Buffers(live - {c}, pipes) == Buffers(live, pipes) - {c}
  {
  }

  /** A context that is no send's comes in. */
  lemma BuffersSame(live: map<nat, C.Context>, pipes: map<nat, M.State>, c: nat, x: C.Context)
    requires c !in live && !x.operation.Send?
    ensures Buffers(live[c := x], pipes) == Buffers(live, pipes)
  {
  }

  /** The send path of a session for which there is no send context changes, and one may be posted. */
  lemma BuffersMore(live: map<nat, C.Context>, pipes: map<nat, M.State>, next: nat, id: nat, p: M.State, posts: bool)
    requires next !in live && forall c :: !Sender(live, c, id)
    ensures Buffers(SentOn(live, next, id, posts), pipes[id := p])
         == if posts then Buffers(live, pipes)[next := FrontOf(p)] else Buffers(live, pipes)
  {
    forall c | c in live && live[c].operation.Send?
      ensures BufferFor(live[c].session, pipes[id := p]) == BufferFor(live[c].session, pipes)
    {
      assert !Sender(live, c, id);
    }
  }

  /** A send path changes but not what its context holds. */
  lemma BuffersKept(live: map<nat, C.Context>, pipes: map<nat, M.State>, id: nat, p: M.State)
    requires id in pipes && FrontOf(p) == FrontOf(pipes[id])
    ensures Buffers(live, pipes[id := p]) == Buffers(live, pipes)
  {
  }

  /** What of a server can be seen in the fields of the model and in the sessions. */
  datatype Summary = Summary(
    maxSessions: nat,
    adds: nat,
    running: bool,
    stopped: bool,
    next: nat,
    sockets: set<nat>,
    live: map<nat, C.Context>,
    buffers: map<nat, seq<byte>>,
    managed: set<nat>,
    fds: map<nat, nat>,      // the sockets of all sessions
    seen: map<nat, Seen>
  )

  ghost function SummaryOf(s: Server): Summary {
    Summary(s.maxSessions, s.adds, s.ledger.running, s.ledger.stopped, s.ledger.next, s.ledger.sockets, s.ledger.live,
            Buffers(s.ledger.live, s.pipes), C.Managed(s.ledger), SocketsOf(s.ledger.sessions),
            Look(s.ledger.sessions, s.pipes))
  }

  /** In what respects a summary can be right. */
  datatype Aspect = Past | Picture

  ghost predicate Right(y: Summary, s: Server, past: seq<Event>, aspect: Aspect) {
    match aspect
    case Past => Reached(s, past)
    case Picture => y == SummaryOf(s)
  }

  /** The server is what the calls have led to, and the summary is what can be seen of it. */
  ghost predicate Tells(y: Summary, s: Server, past: seq<Event>) {
    forall aspect :: Right(y, s, past, aspect)
  }

  lemma Told(y: Summary, s: Server, past: seq<Event>)
    requires Tells(y, s, past)
    ensures Reached(s, past) && y == SummaryOf(s)
  {
    assert Right(y, s, past, Past) && Right(y, s, past, Picture);
  }

  lemma Tell(s: Server, past: seq<Event>)
    requires Reached(s, past)
    ensures Tells(SummaryOf(s), s, past)
  {
  }

  function Nothing(maxSessions: nat): Summary {
    Summary(maxSessions, 0, false, false, 0, {}, map[], map[], {}, map[], map[])
  }

  lemma NothingYet(maxSessions: nat)
    ensures Tells(Nothing(maxSessions), Initial(maxSessions), [])
  {
    ReachedInitially(maxSessions);
    assert SummaryOf(Initial(maxSessions)) == Nothing(maxSessions);
  }

  // ---- The events, as they are seen ----

  /** A context is freed. */
  function Without(y: Summary, c: nat): Summary {
    y.(live := y.live - {c}, buffers := y.buffers - {c})
  }

  /** Another session record, for a session there is. */
  function Changed(y: Summary, id: nat, session: M.Session): Summary
    requires id in y.seen
  {
    y.(seen := y.seen[id := Seen(y.seen[id].state, session)])
  }

  /** The session has become this, and a send of it may have been posted. */
  function Pushed(y: Summary, id: nat, session: M.Session, posts: bool): Summary
    requires id in y.seen
  {
    Changed(y, id, session).(
      next := Plus(y.next, posts), live := SentOn(y.live, y.next, id, posts),
      buffers := if posts then y.buffers[y.next := Front(session.queue)] else y.buffers)
  }

  function ReceivePosted(y: Summary, id: nat, posts: bool): Summary {
    y.(next := Plus(y.next, posts), live := Received(y.live, y.next, id, posts))
  }

  function Leaves(y: Summary, id: nat): Summary
    requires id in y.seen
  {
    y.(managed := y.managed - {id}, seen := y.seen[id := Seen(Disconnected, y.seen[id].session)])
  }

  function AcceptPosted(y: Summary, ok: bool): Summary {
    y.(next := Plus(y.next, ok), live := Accepted(y.live, y.next, ok),
       sockets := if ok then y.sockets + {y.next} else y.sockets)
  }

  function SocketClosed(y: Summary, socket: nat): Summary {
    y.(sockets := y.sockets - {socket})
  }

  /** A session has been made for the connection that came with context `c`. */
  function Added(y: Summary, c: nat, id: nat): Summary {
    y.(adds := y.adds + 1, managed := y.managed + {id}, fds := y.fds[id := c],
       seen := y.seen[id := Seen(Connected, M.Initial(2 * MAX_PACKET_SIZE).session)])
  }

  /** What is done for it. */
  function Welcomed(y: Summary, c: nat, id: nat, r: Replies): Summary {
    if !r.associates || !r.posts then SocketClosed(y, c) else ReceivePosted(y, id, true)
  }

  /** ProcessAccept after the next accept has been registered. */
  function Admitted(y: Summary, c: nat, id: nat, r: Replies): Summary {
    if |y.managed| >= y.maxSessions then SocketClosed(y, c) else Welcomed(Added(y, c, id), c, id, r)
  }

  /** The handling of a completion that is for session `id`, without its context. */
  function HandledFor(rest: Summary, operation: C.Operation, id: nat, ok: bool, bytes: nat, r: Replies): Summary
    requires id in rest.seen
  {
    if !ok || bytes == 0 || operation.Disconnect? then
      if rest.seen[id].state == Disconnected then rest else Leaves(rest, id)
    else if operation.Receive? then
      if rest.seen[id].state == Connected then ReceivePosted(rest, id, r.posts) else rest
    else
      var session := Continued(rest.seen[id].session, bytes, r.posts);
      Pushed(rest, id, session, session.sending)
  }

  /** The whole handling of a completion. */
  function Handled(y: Summary, c: nat, ok: bool, bytes: nat, r: Replies): Summary
    requires c in y.live
    requires !y.live[c].operation.Accept? ==> y.live[c].session.Some? && y.live[c].session.value in y.seen
  {
    var rest, x := Without(y, c), y.live[c];
    if !x.operation.Accept? then HandledFor(rest, x.operation, x.session.value, ok, bytes, r)
    else if ok && bytes != 0 then Admitted(AcceptPosted(rest, r.accepting.Ok()), c, NthId(y.adds), r)
    else rest
  }

  /** A completion of context `c` is seen to come to `now`. */
  ghost predicate Becomes(y: Summary, c: nat, ok: bool, bytes: nat, r: Replies, now: Summary) {
    forall operation :: BecomesFor(operation, y, c, ok, bytes, r, now)
  }

  ghost predicate BecomesFor(operation: C.Operation, y: Summary, c: nat, ok: bool, bytes: nat, r: Replies, now: Summary) {
    c in y.live && y.live[c].operation == operation ==>
      && (!operation.Accept? ==> y.live[c].session.Some? && y.live[c].session.value in y.seen)
      && now == Handled(y, c, ok, bytes, r)
  }

  // ---- That they are ----

  lemma ItIsPushed(s: Server, after: Server, y: Summary, id: nat, peer: C.Peer, p: M.State, posts: bool)
    requires id in s.ledger.sessions && id in s.pipes && y.next == s.ledger.next
    requires y == SummaryOf(s).(live := y.live, buffers := y.buffers)
    requires after.maxSessions == s.maxSessions && after.adds == s.adds && after.ledger.running == s.ledger.running
    requires after.ledger.stopped == s.ledger.stopped
    requires after.ledger.next == Plus(y.next, posts) && after.ledger.sockets == s.ledger.sockets
    requires after.ledger.live == SentOn(y.live, y.next, id, posts)
    requires Buffers(after.ledger.live, after.pipes) == if posts then y.buffers[y.next := Front(p.session.queue)] else y.buffers
    requires after.ledger.sessions == s.ledger.sessions[id := peer] && after.pipes == s.pipes[id := p]
    requires peer.connected == s.ledger.sessions[id].connected && peer.socket == s.ledger.sessions[id].socket
    ensures id in y.seen && SummaryOf(after) == Pushed(y, id, p.session, posts)
  {
    RecordChanged(s.ledger, after.ledger, id, peer);
    LookChanged(s.ledger.sessions, s.pipes, id, peer, p);
  }

  /** The session of a Send, by itself. */
  function Given(session: M.Session, caller: ThreadId, data: seq<byte>, accepted: bool): M.Session
    requires |session.queue| <= session.capacity
  {
    M.Send(Bare(session), caller, data, accepted).0.session
  }

  lemma SendingPushes(s: Server, id: nat, caller: ThreadId, data: seq<byte>, accepted: bool)
    requires Fits(s.pipes, s.ledger.sessions) && C.Addressed(s.ledger) && id in s.pipes
    requires !s.ledger.sessions[id].sending ==> forall c :: !Sender(s.ledger.live, c, id)
    ensures |s.pipes[id].session.queue| <= s.pipes[id].session.capacity
    ensures var after := Server(C.CallSend(s.ledger, id, |data|, accepted), s.maxSessions, s.adds,
                                s.pipes[id := M.Send(s.pipes[id], caller, data, accepted).0]);
            var next := Given(s.pipes[id].session, caller, data, accepted);
            && id in SummaryOf(s).seen
            && SummaryOf(after) == Pushed(SummaryOf(s), id, next, !s.pipes[id].session.sending && next.sending)
  {
    var peer, p := s.ledger.sessions[id], M.Send(s.pipes[id], caller, data, accepted).0;
    SendFits(s.pipes[id], peer, caller, data, accepted);
    SendEffect(s.pipes[id], peer, caller, data, accepted);
    CallSendContexts(s.ledger, id, |data|, accepted);
    if Posts(peer, |data|, accepted) {
      BuffersMore(s.ledger.live, s.pipes, s.ledger.next, id, p, true);
    } else {
      BuffersKept(s.ledger.live, s.pipes, id, p);
    }
    var after := Server(C.CallSend(s.ledger, id, |data|, accepted), s.maxSessions, s.adds, s.pipes[id := p]);
    ItIsPushed(s, after, SummaryOf(s), id, Loaded(peer, |data|, accepted), p, Posts(peer, |data|, accepted));
  }

  lemma CompletedBuffers(live: map<nat, C.Context>, pipes: map<nat, M.State>, c: nat, next: nat, id: nat,
                         p: M.State, posts: bool)
    requires next !in live && forall d | Sender(live, d, id) :: d == c
    ensures var rest := Buffers(live, pipes) - {c};
            Buffers(SentOn(live - {c}, next, id, posts), pipes[id := p]) == if posts then rest[next := FrontOf(p)] else rest
  {
    NoOtherSender(live, c, id);
    BuffersMore(live - {c}, pipes, next, id, p, posts);
    BuffersLess(live, pipes, c);
  }

  /** The server after the completion of a send that moved bytes. */
  ghost function SentServer(s: Server, c: nat, id: nat, bytes: nat, accepted: bool): Server
    requires c in s.ledger.live && id in s.pipes && s.pipes[id].contexts != map[] && bytes <= |FrontOf(s.pipes[id])|
  {
    var ledger := C.Deallocate(C.ProcessSend(C.Mark(C.Mark(s.ledger, c, C.Taken), c, C.Handled), Some(id), bytes, accepted), c);
    Server(ledger, s.maxSessions, s.adds, s.pipes[id := Completed(s.pipes[id], bytes, accepted)])
  }

  lemma CompletingPushes(s: Server, c: nat, id: nat, bytes: nat, accepted: bool)
    requires Fits(s.pipes, s.ledger.sessions) && C.Addressed(s.ledger) && id in s.pipes
    requires Sender(s.ledger.live, c, id) && forall d | Sender(s.ledger.live, d, id) :: d == c
    requires s.pipes[id].contexts != map[] && 1 <= bytes <= |FrontOf(s.pipes[id])|
    ensures var next := Continued(s.pipes[id].session, bytes, accepted);
            && id in SummaryOf(s).seen
            && SummaryOf(SentServer(s, c, id, bytes, accepted)) == Pushed(Without(SummaryOf(s), c), id, next, next.sending)
  {
    var peer, p := Advanced(s.ledger.sessions[id], bytes, accepted), Completed(s.pipes[id], bytes, accepted);
    CompletedFits(s.pipes[id], s.ledger.sessions[id], bytes, accepted);
    SendContexts(s.ledger, c, bytes, accepted);
    CompletedBuffers(s.ledger.live, s.pipes, c, s.ledger.next, id, p, peer.sending);
    ItIsPushed(s, SentServer(s, c, id, bytes, accepted), Without(SummaryOf(s), c), id, peer, p, peer.sending);
  }

  lemma DeliveringPasses(s: Server, c: nat, accepted: bool)
    requires C.Addressed(s.ledger) && c in s.ledger.live && s.ledger.live[c].session.Some?
    ensures var ledger := C.Deallocate(C.Deliver(C.Mark(C.Mark(s.ledger, c, C.Taken), c, C.Checked), c, accepted), c);
            var y := ReceivePosted(Without(SummaryOf(s), c), s.ledger.live[c].session.value, accepted);
            SummaryOf(s.(ledger := ledger)) == y
  {
    var id := s.ledger.live[c].session.value;
    DeliverContexts(s.ledger, c, accepted);
    BuffersLess(s.ledger.live, s.pipes, c);
    if accepted {
      BuffersSame(s.ledger.live - {c}, s.pipes, s.ledger.next, C.Context(C.Receive, Some(id), C.InKernel));
    }
  }

  lemma GoingPasses(s: Server, c: nat)
    requires c in s.ledger.live
    ensures var ledger := C.Deallocate(C.Mark(C.Mark(s.ledger, c, C.Taken), c, C.Handled), c);
            SummaryOf(s.(ledger := ledger)) == Without(SummaryOf(s), c)
  {
    assert C.Deallocate(C.Mark(C.Mark(s.ledger, c, C.Taken), c, C.Handled), c).live == s.ledger.live - {c};
    BuffersLess(s.ledger.live, s.pipes, c);
  }

  lemma PipeStays(sessions: map<nat, C.Peer>, pipes: map<nat, M.State>, id: nat, peer: C.Peer)
    requires id in pipes
    ensures Look(sessions[id := peer], pipes) == Look(sessions, pipes)[id := Seen(StateOf(peer), pipes[id].session)]
  {
  }

  lemma LeavingLeaves(s: Server, c: nat)
    requires c in s.ledger.live && s.ledger.live[c].session.Some? && s.ledger.live[c].session.value in s.pipes
    requires s.ledger.live[c].session.value in s.ledger.sessions
    ensures var x, y := s.ledger.live[c], Without(SummaryOf(s), c);
            var ledger := C.Deallocate(C.ProcessDisconnect(C.Mark(C.Mark(s.ledger, c, C.Taken), c, C.Handled), x.session), c);
            SummaryOf(s.(ledger := ledger))
              == if s.ledger.sessions[x.session.value].connected then Leaves(y, x.session.value) else y
  {
    var id := s.ledger.live[c].session.value;
    var ledger := C.Deallocate(C.ProcessDisconnect(C.Mark(C.Mark(s.ledger, c, C.Taken), c, C.Handled), Some(id)), c);
    DisconnectContexts(s.ledger, c);
    BuffersLess(s.ledger.live, s.pipes, c);
    if s.ledger.sessions[id].connected {
      var peer := s.ledger.sessions[id].(connected := false);
      RecordChanged(s.ledger, ledger, id, peer);
      PipeStays(s.ledger.sessions, s.pipes, id, peer);
    }
  }

  lemma AcceptBuffers(live: map<nat, C.Context>, pipes: map<nat, M.State>, c: nat, next: nat, a: C.Answers)
    requires c in live && forall d | d in live :: d < next
    ensures var after := Received(Accepted(live - {c}, next, a.accepting.Ok()), Plus(next, a.accepting.Ok()), a.id, TakesIn(a));
            Buffers(after, pipes) == Buffers(live, pipes) - {c}
  {
    BuffersLess(live, pipes, c);
    var more := Accepted(live - {c}, next, a.accepting.Ok());
    if a.accepting.Ok() {
      BuffersSame(live - {c}, pipes, next, C.Context(C.Accept, None, C.InKernel));
    }
    if TakesIn(a) {
      BuffersSame(more, pipes, Plus(next, a.accepting.Ok()), C.Context(C.Receive, Some(a.id), C.InKernel));
    }
  }

  /** Nobody has a send out for a session to come. */
  lemma NewcomerBuffers(live: map<nat, C.Context>, pipes: map<nat, M.State>, id: nat, p: M.State)
    requires id !in pipes && FrontOf(p) == []
    ensures Buffers(live, pipes[id := p]) == Buffers(live, pipes)
  {
  }

  lemma AcceptingAdmits(s: Server, c: nat, r: Replies)
    requires PathsFit(s.ledger, s.adds, s.pipes) && C.Addressed(s.ledger) && c in s.ledger.live && s.adds < ID_RANGE - 1
    ensures var a := AnswersOf(s, r);
            var ledger := C.Deallocate(K.ProcessAccept(C.Mark(s.ledger, c, C.Taken), c, a), c);
            var after := Server(ledger, s.maxSessions, s.adds + (if a.room then 1 else 0),
                                if a.room then s.pipes[a.id := M.Initial(a.capacity)] else s.pipes);
            SummaryOf(after) == Admitted(AcceptPosted(Without(SummaryOf(s), c), r.accepting.Ok()), c, NthId(s.adds), r)
  {
    var a := AnswersOf(s, r);
    var ledger := C.Deallocate(K.ProcessAccept(C.Mark(s.ledger, c, C.Taken), c, a), c);
    var peer := NewPeer(c, a);
    NthIdBeforeWrap(s.adds);
    AcceptContexts(s.ledger, c, a);
    AcceptRest(s.ledger, c, a);
    AcceptBuffers(s.ledger.live, s.pipes, c, s.ledger.next, a);
    if a.room {
      RecordAdded(s.ledger, ledger, a.id, peer);
      NewcomerBuffers(ledger.live, s.pipes, a.id, M.Initial(a.capacity));
      LookChanged(s.ledger.sessions, s.pipes, a.id, peer, M.Initial(a.capacity));
    }
  }

  /** The context of a completion is for a session there has been. */
  lemma HeldForSeen(s: Server, c: nat)
    requires C.OwnersFit(s.ledger) && Fits(s.pipes, s.ledger.sessions) && C.AtStage(s.ledger, c, C.InKernel)
    ensures var x, y := s.ledger.live[c], SummaryOf(s);
            && !x.operation.Disconnect? && c in y.live && y.live[c] == x
            && (!x.operation.Accept? ==>
                  && x.session.Some? && x.session.value in y.seen
                  && x.session.value in s.pipes && x.session.value in s.ledger.sessions
                  && y.seen[x.session.value]
                     == Seen(StateOf(s.ledger.sessions[x.session.value]), s.pipes[x.session.value].session))
  {
    HeldFor(s.ledger, c);
  }

  lemma OtherHandled(s: Server, c: nat, ok: bool, bytes: nat, r: Replies)
    requires C.Addressed(s.ledger) && C.OwnersFit(s.ledger) && Fits(s.pipes, s.ledger.sessions)
    requires C.AtStage(s.ledger, c, C.InKernel)
    requires !C.Accepts(s.ledger.live[c].operation, ok, bytes) && !Sends(s, c, ok, bytes)
    requires !s.ledger.live[c].operation.Accept? ==>
               s.ledger.live[c].session.Some? && s.ledger.live[c].session.value in SummaryOf(s).seen
    ensures SummaryOf(s.(ledger := K.ProcessIO(s.ledger, c, ok, bytes, AnswersOf(s, r))))
         == Handled(SummaryOf(s), c, ok, bytes, r)
  {
    HeldForSeen(s, c);
    if C.Delivers(s.ledger, s.ledger.live[c], ok, bytes) {
      DeliveringPasses(s, c, r.posts);
    } else if s.ledger.live[c].operation.Accept? || (ok && bytes != 0) {
      GoingPasses(s, c);
    } else {
      LeavingLeaves(s, c);
    }
  }

  lemma SendHandled(s: Server, c: nat, ok: bool, bytes: nat, r: Replies)
    requires Fits(s.pipes, s.ledger.sessions) && C.Addressed(s.ledger) && Sends(s, c, ok, bytes)
    requires s.ledger.live[c].session.Some? && s.ledger.live[c].session.value in s.pipes
    requires forall d | Sender(s.ledger.live, d, s.ledger.live[c].session.value) :: d == c
    requires var p := s.pipes[s.ledger.live[c].session.value]; p.contexts != map[] && bytes <= |FrontOf(p)|
    ensures s.ledger.live[c].session.value in SummaryOf(s).seen
    ensures SummaryOf(SentServer(s, c, s.ledger.live[c].session.value, bytes, r.posts))
         == Handled(SummaryOf(s), c, ok, bytes, r)
  {
    CompletingPushes(s, c, s.ledger.live[c].session.value, bytes, r.posts);
  }

  /** What a completion is seen to come to. */
  ghost predicate ComesTo(s: Server, after: Server, c: nat, ok: bool, bytes: nat, r: Replies) {
    var y := SummaryOf(s);
    && c in y.live && (!y.live[c].operation.Accept? ==> y.live[c].session.Some? && y.live[c].session.value in y.seen)
    && SummaryOf(after) == Handled(y, c, ok, bytes, r)
  }

  lemma AcceptHandled(s: Server, c: nat, ok: bool, bytes: nat, r: Replies)
    requires IocpServer.Inv(s) && Enabled(s, Completing(c, ok, bytes, r)) && C.Accepts(s.ledger.live[c].operation, ok, bytes)
    ensures ComesTo(s, Step(s, Completing(c, ok, bytes, r)), c, ok, bytes, r)
  {
    AcceptingAdmits(s, c, r);
  }

  lemma StepIsSent(s: Server, c: nat, ok: bool, bytes: nat, r: Replies)
    requires Enabled(s, Completing(c, ok, bytes, r)) && Sends(s, c, ok, bytes)
    ensures Step(s, Completing(c, ok, bytes, r)) == SentServer(s, c, s.ledger.live[c].session.value, bytes, r.posts)
  {
  }

  lemma DataHandled(s: Server, c: nat, ok: bool, bytes: nat, r: Replies)
    requires IocpServer.Inv(s) && Enabled(s, Completing(c, ok, bytes, r)) && Sends(s, c, ok, bytes)
    ensures ComesTo(s, Step(s, Completing(c, ok, bytes, r)), c, ok, bytes, r)
  {
    SenderHasContext(s, c);
    StepIsSent(s, c, ok, bytes, r);
    SendHandled(s, c, ok, bytes, r);
  }

  lemma RestHandled(s: Server, c: nat, ok: bool, bytes: nat, r: Replies)
    requires IocpServer.Inv(s) && Enabled(s, Completing(c, ok, bytes, r))
    requires !C.Accepts(s.ledger.live[c].operation, ok, bytes) && !Sends(s, c, ok, bytes)
    ensures ComesTo(s, Step(s, Completing(c, ok, bytes, r)), c, ok, bytes, r)
  {
    HeldForSeen(s, c);
    OtherHandled(s, c, ok, bytes, r);
    assert Step(s, Completing(c, ok, bytes, r)) == s.(ledger := K.ProcessIO(s.ledger, c, ok, bytes, AnswersOf(s, r)));
  }

  lemma CompletingHandled(s: Server, c: nat, ok: bool, bytes: nat, r: Replies)
    requires IocpServer.Inv(s) && Enabled(s, Completing(c, ok, bytes, r))
    ensures ComesTo(s, Step(s, Completing(c, ok, bytes, r)), c, ok, bytes, r)
  {
    if C.Accepts(s.ledger.live[c].operation, ok, bytes) {
      AcceptHandled(s, c, ok, bytes, r);
    } else if Sends(s, c, ok, bytes) {
      DataHandled(s, c, ok, bytes, r);
    } else {
      RestHandled(s, c, ok, bytes, r);
    }
  }

  lemma NoSenderOf(l: C.Ledger, id: nat)
    requires C.OwnersFit(l) && K.Settled(l) && !l.stopped && id in l.sessions && !l.sessions[id].sending
    ensures forall c :: !Sender(l.live, c, id)
  {
    forall c ensures !Sender(l.live, c, id) {
      if Sender(l.live, c, id) {
        assert l.live[c].Active();
      }
    }
  }

  lemma SendingEnabled(s: Server, id: nat, caller: ThreadId, data: seq<byte>, accepted: bool)
    requires IocpServer.Inv(s) && !s.ledger.stopped && H.HistoryOf(s.ledger.calls, id) != [] && id in s.ledger.sessions
    ensures id in s.pipes && Enabled(s, Sending(id, caller, data, accepted))
  {
  }

  /** A completion of this context can come, with at most as many bytes as a send was given. */
  ghost predicate Completable(y: Summary, c: nat, ok: bool, bytes: nat) {
    && c in y.live && y.adds < ID_RANGE - 1
    && (y.live[c].operation.Send? && ok && bytes != 0 ==> c in y.buffers && bytes <= |y.buffers[c]|)
  }

  lemma CompletingEnabled(s: Server, c: nat, ok: bool, bytes: nat, r: Replies)
    requires IocpServer.Inv(s) && !s.ledger.stopped && Completable(SummaryOf(s), c, ok, bytes)
    ensures Enabled(s, Completing(c, ok, bytes, r)) && NthId(s.adds) !in s.ledger.sessions
    ensures c < s.ledger.next && s.ledger.next !in s.ledger.sockets && forall d | d in s.ledger.live :: d < s.ledger.next
  {
    NthIdBeforeWrap(s.adds);
    if Sends(s, c, ok, bytes) {
      SenderHasContext(s, c);
    }
  }

  lemma StepIsLoaded(s: Server, id: nat, caller: ThreadId, data: seq<byte>, accepted: bool)
    requires Enabled(s, Sending(id, caller, data, accepted))
    ensures Step(s, Sending(id, caller, data, accepted))
         == Server(C.CallSend(s.ledger, id, |data|, accepted), s.maxSessions, s.adds,
                   s.pipes[id := M.Send(s.pipes[id], caller, data, accepted).0])
  {
  }

  /** What a Send is seen to come to. */
  ghost predicate SendComesTo(y: Summary, now: Summary, id: nat, caller: ThreadId, data: seq<byte>, accepted: bool,
                              ok: bool)
  {
    && id in y.seen && |y.seen[id].session.queue| <= y.seen[id].session.capacity
    && var next := Given(y.seen[id].session, caller, data, accepted);
       && now == Pushed(y, id, next, !y.seen[id].session.sending && next.sending)
       && ok == M.Send(Bare(y.seen[id].session), caller, data, accepted).1
  }

  /** A Send of the session leads to `after`, with this result. */
  ghost predicate Sent(s: Server, id: nat, caller: ThreadId, data: seq<byte>, accepted: bool, after: Server, ok: bool) {
    && Enabled(s, Sending(id, caller, data, accepted)) && after == Step(s, Sending(id, caller, data, accepted))
    && ok == M.Send(s.pipes[id], caller, data, accepted).1
  }

  lemma SendingHandled(s: Server, id: nat, caller: ThreadId, data: seq<byte>, accepted: bool)
    returns (after: Server, ok: bool)
    requires IocpServer.Inv(s) && Enabled(s, Sending(id, caller, data, accepted))
    ensures Sent(s, id, caller, data, accepted, after, ok)
    ensures SendComesTo(SummaryOf(s), SummaryOf(after), id, caller, data, accepted, ok)
  {
    after, ok := Step(s, Sending(id, caller, data, accepted)), M.Send(s.pipes[id], caller, data, accepted).1;
    if !s.ledger.sessions[id].sending {
      NoSenderOf(s.ledger, id);
    }
    StepIsLoaded(s, id, caller, data, accepted);
    SendingPushes(s, id, caller, data, accepted);
    SendEffect(s.pipes[id], s.ledger.sessions[id], caller, data, accepted);
    CallSendContexts(s.ledger, id, |data|, accepted);
  }

  /** Sending nothing. */
  lemma NothingPushed(y: Summary, id: nat, caller: ThreadId, accepted: bool)
    requires id in y.seen && |y.seen[id].session.queue| <= y.seen[id].session.capacity
    ensures var next := Given(y.seen[id].session, caller, [], accepted);
            Pushed(y, id, next, !y.seen[id].session.sending && next.sending) == y
    ensures !M.Send(Bare(y.seen[id].session), caller, [], accepted).1
  {
  }

  /** What StartListen is seen to come to. */
  function Listened(y: Summary, ready: bool, a: C.Accepting): Summary {
    if y.running || !ready then y else AcceptPosted(y, a.Ok()).(running := a.Ok())
  }

  lemma ListeningHandled(s: Server, ready: bool, a: C.Accepting)
    requires IocpServer.Inv(s) && Enabled(s, Listening(ready, a))
    ensures SummaryOf(Step(s, Listening(ready, a))) == Listened(SummaryOf(s), ready, a)
    ensures s.ledger.next !in s.ledger.live && s.ledger.next !in s.ledger.sockets
  {
    if !s.ledger.running && ready && a.Ok() {
      BuffersSame(s.ledger.live, s.pipes, s.ledger.next, C.Context(C.Accept, None, C.InKernel));
    }
  }

  /** What Shutdown leaves. */
  lemma StoppingHandled(s: Server)
    requires IocpServer.Inv(s) && !s.ledger.stopped
    ensures Enabled(s, Stopping)
    ensures var after := Step(s, Stopping);
            && after.ledger.live.Keys == s.ledger.live.Keys
            && after.ledger.sockets == s.ledger.sockets - ClosedBy(SummaryOf(s))
  {
    var y := SummaryOf(s);
    assert C.ManagedSockets(s.ledger) == ClosedBy(y) by {
      forall id | id in y.managed ensures id in y.fds && y.fds[id] == s.ledger.sessions[id].socket {}
    }
  }

  /** The sockets of the sessions in the manager. */
  ghost function ClosedBy(y: Summary): set<nat> {
    set id | id in y.managed && id in y.fds :: y.fds[id]
  }
}
