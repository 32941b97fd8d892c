/** The IOCP model as a whole, call by call: the ledger of its contexts and sockets, and the send path
    of every session there has been. */
module IocpServer {
  import opened Types
  import opened SessionTable
  import M = SendMachine
  import C = IocpContexts
  import K = IocpCalls
  import H = IocpHistories

  /** `adds` counts the sessions ever added.  `pipes` has the send path of each, with its context while
      the kernel has one. */
  datatype Server = Server(ledger: C.Ledger, maxSessions: nat, adds: nat, pipes: map<nat, M.State>)

  function Initial(maxSessions: nat): Server {
    Server(C.Initial(), maxSessions, 0, map[])
  }

  // ---- Calls ----

  /** What the system answers in the handling of a completion: about the next accept, whether the port
      takes the new socket, and whether WSARecv or WSASend accepts. */
  datatype Replies = Replies(accepting: C.Accepting, associates: bool, posts: bool)

  datatype Event =
    | Listening(ready: bool, accepting: C.Accepting)
    | Sending(id: nat, caller: ThreadId, data: seq<byte>, accepted: bool)
    | Completing(c: nat, ok: bool, bytes: nat, replies: Replies)
    | Stopping

  /** With what the session manager answers. */
  function AnswersOf(s: Server, r: Replies): C.Answers {
    C.Answers(r.accepting, |C.Managed(s.ledger)| < s.maxSessions, NthId(s.adds), 2 * MAX_PACKET_SIZE, r.associates, r.posts)
  }

  /** The call as the ledger sees it. */
  function CallOf(s: Server, e: Event): K.CallEvent {
    match e
    case Listening(ready, accepting) => K.Listening(ready, accepting)
    case Sending(id, _, data, accepted) => K.Sending(id, |data|, accepted)
    case Completing(c, ok, bytes, r) => K.Completing(c, ok, bytes, AnswersOf(s, r))
    case Stopping => K.Stopping
  }

  /** The completion of a send that moved bytes. */
  ghost predicate Sends(s: Server, c: nat, ok: bool, bytes: nat) {
    c in s.ledger.live && s.ledger.live[c].operation.Send? && ok && bytes != 0
  }

  ghost predicate AddsSession(s: Server, c: nat, ok: bool, bytes: nat) {
    && c in s.ledger.live && C.Accepts(s.ledger.live[c].operation, ok, bytes)
    && |C.Managed(s.ledger)| < s.maxSessions
  }

  /** The number under which the send path knows its context, and what that holds. */
  ghost function TheContext(p: M.State): nat
    requires p.contexts != map[]
  {
    var k :| k in p.contexts; k
  }

  ghost function FrontOf(p: M.State): seq<byte> {
    if p.contexts == map[] then [] else p.contexts[TheContext(p)].buffer
  }

  /** The kernel completes it, a worker takes the completion, and ProcessSend handles it. */
  ghost function Completed(p: M.State, bytes: nat, accepted: bool): M.State
    requires p.contexts != map[] && bytes <= |FrontOf(p)|
  {
    var k, buffer := TheContext(p), FrontOf(p);
    var taken := p.(contexts := p.contexts[k := M.Context(buffer, M.Dequeued(bytes, 0))], wire := p.wire + buffer[..bytes]);
    M.ProcessSend(taken, k, accepted)
  }

  /** A session's callers know it from its OnAccept.  A send moves no more than it was given. */
  ghost predicate Enabled(s: Server, e: Event) {
    && K.CallEnabled(s.ledger, CallOf(s, e))
    && match e
       case Listening(_, _) => true
       case Sending(id, _, _, _) =>
         && H.HistoryOf(s.ledger.calls, id) != []
         && id in s.pipes && |s.pipes[id].session.queue| <= s.pipes[id].session.capacity
       case Completing(c, ok, bytes, _) =>
         && s.adds < ID_RANGE - 1
         && (Sends(s, c, ok, bytes) ==>
               && s.ledger.live[c].session.Some? && s.ledger.live[c].session.value in s.pipes
               && s.pipes[s.ledger.live[c].session.value].contexts != map[]
               && bytes <= |FrontOf(s.pipes[s.ledger.live[c].session.value])|)
       case Stopping => true
  }

  ghost function PipesAfter(s: Server, e: Event): map<nat, M.State>
    requires Enabled(s, e)
  {
    match e
    case Sending(id, caller, data, accepted) => s.pipes[id := M.Send(s.pipes[id], caller, data, accepted).0]
    case Completing(c, ok, bytes, r) =>
      if AddsSession(s, c, ok, bytes) then s.pipes[NthId(s.adds) := M.Initial(2 * MAX_PACKET_SIZE)]
      else if Sends(s, c, ok, bytes) then
        var id := s.ledger.live[c].session.value;
        s.pipes[id := Completed(s.pipes[id], bytes, r.posts)]
      else s.pipes
    case _ => s.pipes
  }

  ghost function Step(s: Server, e: Event): Server
    requires Enabled(s, e)
  {
    Server(K.CallStep(s.ledger, CallOf(s, e)), s.maxSessions,
           s.adds + (if e.Completing? && AddsSession(s, e.c, e.ok, e.bytes) then 1 else 0), PipesAfter(s, e))
  }

  ghost predicate EnabledRun(s: Server, events: seq<Event>)
    decreases |events|
  {
    events == [] || (Enabled(s, events[0]) && EnabledRun(Step(s, events[0]), events[1..]))
  }

  ghost function Run(s: Server, events: seq<Event>): Server
    requires EnabledRun(s, events)
    decreases |events|
  {
    if events == [] then s else Run(Step(s, events[0]), events[1..])
  }

  // ---- What a completion does to the ledger ----

  function Accepted(live: map<nat, C.Context>, next: nat, ok: bool): map<nat, C.Context> {
    if ok then live[next := C.Context(C.Accept, None, C.InKernel)] else live
  }

  function Received(live: map<nat, C.Context>, next: nat, id: nat, ok: bool): map<nat, C.Context> {
    if ok then live[next := C.Context(C.Receive, Some(id), C.InKernel)] else live
  }

  function SentOn(live: map<nat, C.Context>, next: nat, id: nat, ok: bool): map<nat, C.Context> {
    if ok then live[next := C.Context(C.Send, Some(id), C.InKernel)] else live
  }

  function Plus(n: nat, ok: bool): nat {
    if ok then n + 1 else n
  }

  function TakesIn(a: C.Answers): bool {
    a.room && a.associates && a.posts
  }

  function NewPeer(c: nat, a: C.Answers): C.Peer {
    C.Peer(true, a.associates && a.posts, c, false, 0, a.capacity)
  }

  lemma AddedContexts(l: C.Ledger, c: nat, a: C.Answers)
    requires c in l.live && c != l.next
    ensures var after := C.AddClient(l, c, a);
            && after.next == Plus(l.next, TakesIn(a))
            && c in after.live && after.live - {c} == Received(l.live - {c}, l.next, a.id, TakesIn(a))
  {
    C.AddClientInOrder(l, c, a);
    var after := C.AddClient(l, c, a);
    if TakesIn(a) {
      assert after.live - {c} == (l.live - {c})[l.next := C.Context(C.Receive, Some(a.id), C.InKernel)];
    } else {
      assert after.live - {c} == l.live - {c};
    }
  }

  lemma AddedRest(l: C.Ledger, c: nat, a: C.Answers)
    requires c in l.live
    ensures var after := C.AddClient(l, c, a);
            && after.sockets == (if TakesIn(a) then l.sockets else l.sockets - {c})
            && after.running == l.running && after.stopped == l.stopped
            && after.sessions == if a.room then l.sessions[a.id := NewPeer(c, a)] else l.sessions
  {
    C.AddClientInOrder(l, c, a);
  }

  lemma RegisteredContexts(l: C.Ledger, c: nat, a: C.Accepting)
    requires c in l.live && c != l.next
    ensures var after := C.RegisterNext(C.Mark(l, c, C.Taken), c, a);
            && after.next == Plus(l.next, a.Ok())
            && c in after.live && after.live - {c} == Accepted(l.live - {c}, l.next, a.Ok())
            && after.sockets == (if a.Ok() then l.sockets + {l.next} else l.sockets)
            && after.running == l.running && after.stopped == l.stopped && after.sessions == l.sessions
  {
    var after := C.RegisterNext(C.Mark(l, c, C.Taken), c, a);
    assert after.live - {c} == Accepted(l.live - {c}, l.next, a.Ok());
  }

  lemma AcceptContexts(l: C.Ledger, c: nat, a: C.Answers)
    requires C.Addressed(l) && c in l.live
    ensures var after, next := C.Deallocate(K.ProcessAccept(C.Mark(l, c, C.Taken), c, a), c), Plus(l.next, a.accepting.Ok());
            && after.next == Plus(next, TakesIn(a))
            && after.live == Received(Accepted(l.live - {c}, l.next, a.accepting.Ok()), next, a.id, TakesIn(a))
  {
    RegisteredContexts(l, c, a.accepting);
    AddedContexts(C.RegisterNext(C.Mark(l, c, C.Taken), c, a.accepting), c, a);
    var added := C.AddClient(C.RegisterNext(C.Mark(l, c, C.Taken), c, a.accepting), c, a);
    if added.live[c].stage.Admitted? {
      CalledContexts(added, c);
    }
  }

  lemma CalledContexts(l: C.Ledger, c: nat)
    requires c in l.live && l.live[c].stage.Admitted?
    ensures C.CallAccept(l, c).live - {c} == l.live - {c}
  {
  }

  lemma AcceptRest(l: C.Ledger, c: nat, a: C.Answers)
    requires C.Addressed(l) && c in l.live
    ensures var after := C.Deallocate(K.ProcessAccept(C.Mark(l, c, C.Taken), c, a), c);
            var more := if a.accepting.Ok() then l.sockets + {l.next} else l.sockets;
            && after.sockets == (if TakesIn(a) then more else more - {c})
            && after.running == l.running && after.stopped == l.stopped
            && after.sessions == if a.room then l.sessions[a.id := NewPeer(c, a)] else l.sessions
  {
    RegisteredContexts(l, c, a.accepting);
    AddedRest(C.RegisterNext(C.Mark(l, c, C.Taken), c, a.accepting), c, a);
  }

  lemma DeliverContexts(l: C.Ledger, c: nat, accepted: bool)
    requires C.Addressed(l) && c in l.live && l.live[c].session.Some?
    ensures var after := C.Deallocate(C.Deliver(C.Mark(C.Mark(l, c, C.Taken), c, C.Checked), c, accepted), c);
            && after.next == Plus(l.next, accepted)
            && after.live == Received(l.live - {c}, l.next, l.live[c].session.value, accepted)
            && after.sockets == l.sockets && after.running == l.running && after.stopped == l.stopped
            && after.sessions == l.sessions
  {
    var after := C.Deallocate(C.Deliver(C.Mark(C.Mark(l, c, C.Taken), c, C.Checked), c, accepted), c);
    assert after.live == Received(l.live - {c}, l.next, l.live[c].session.value, accepted);
  }

  /** The session's record after a send of it has moved so many bytes. */
  function Advanced(p: C.Peer, bytes: nat, accepted: bool): C.Peer {
    var left := p.queued - Min(bytes, p.queued);
    p.(queued := left, sending := left > 0 && accepted)
  }

  lemma NextSend(l: C.Ledger, id: nat, bytes: nat, accepted: bool)
    requires id in l.sessions
    ensures var p, after := Advanced(l.sessions[id], bytes, accepted), C.ProcessSend(l, Some(id), bytes, accepted);
            && after.next == Plus(l.next, p.sending) && after.live == SentOn(l.live, l.next, id, p.sending)
            && after.sockets == l.sockets && after.running == l.running && after.stopped == l.stopped
            && after.sessions == l.sessions[id := p]
  {
    assert C.ProcessSend(l, Some(id), bytes, accepted).sessions == l.sessions[id := Advanced(l.sessions[id], bytes, accepted)];
  }

  lemma SendContexts(l: C.Ledger, c: nat, bytes: nat, accepted: bool)
    requires C.Addressed(l) && c in l.live && l.live[c].session.Some? && l.live[c].session.value in l.sessions
    ensures var id := l.live[c].session.value;
            var p := Advanced(l.sessions[id], bytes, accepted);
            var after := C.Deallocate(C.ProcessSend(C.Mark(C.Mark(l, c, C.Taken), c, C.Handled), Some(id), bytes, accepted), c);
            && after.next == Plus(l.next, p.sending)
            && after.live == SentOn(l.live - {c}, l.next, id, p.sending)
            && after.sockets == l.sockets && after.running == l.running && after.stopped == l.stopped
            && after.sessions == l.sessions[id := p]
  {
    var id := l.live[c].session.value;
    var p := Advanced(l.sessions[id], bytes, accepted);
    NextSend(C.Mark(C.Mark(l, c, C.Taken), c, C.Handled), id, bytes, accepted);
    var after := C.Deallocate(C.ProcessSend(C.Mark(C.Mark(l, c, C.Taken), c, C.Handled), Some(id), bytes, accepted), c);
    assert after.live == SentOn(l.live - {c}, l.next, id, p.sending);
  }

  function Left(sessions: map<nat, C.Peer>, session: Option<nat>): map<nat, C.Peer> {
    if session.Some? && session.value in sessions && sessions[session.value].connected
    then sessions[session.value := sessions[session.value].(connected := false)]
    else sessions
  }

  lemma DisconnectContexts(l: C.Ledger, c: nat)
    requires c in l.live
    ensures var after := C.Deallocate(C.ProcessDisconnect(C.Mark(C.Mark(l, c, C.Taken), c, C.Handled), l.live[c].session), c);
            && after.next == l.next && after.live == l.live - {c}
            && after.sockets == l.sockets && after.running == l.running && after.stopped == l.stopped
            && after.sessions == Left(l.sessions, l.live[c].session)
  {
    var after := C.Deallocate(C.ProcessDisconnect(C.Mark(C.Mark(l, c, C.Taken), c, C.Handled), l.live[c].session), c);
    assert after.live == l.live - {c};
  }

  /** A Send that comes to a post. */
  predicate Posts(p: C.Peer, n: nat, accepted: bool) {
    n != 0 && n <= p.capacity - p.queued && !p.sending && accepted
  }

  /** The session's record after a Send of so many bytes. */
  function Loaded(p: C.Peer, n: nat, accepted: bool): C.Peer
    requires p.queued <= p.capacity
  {
    p.(queued := p.queued + Min(n, p.capacity - p.queued), sending := p.sending || Posts(p, n, accepted))
  }

  lemma CallSendContexts(l: C.Ledger, id: nat, n: nat, accepted: bool)
    requires id in l.sessions && l.sessions[id].queued <= l.sessions[id].capacity
    ensures var p, after := l.sessions[id], C.CallSend(l, id, n, accepted);
            && after.next == Plus(l.next, Posts(p, n, accepted))
            && after.live == SentOn(l.live, l.next, id, Posts(p, n, accepted))
            && after.sockets == l.sockets && after.running == l.running && after.stopped == l.stopped
            && after.sessions == l.sessions[id := Loaded(p, n, accepted)]
  {
    assert C.CallSend(l, id, n, accepted).sessions == l.sessions[id := Loaded(l.sessions[id], n, accepted)];
  }

  // ---- Send paths ----

  /** A session by itself: what the functions do to its fields does not depend on its contexts. */
  function Bare(s: M.Session): M.State {
    M.State(s, map[], 0, [])
  }

  /** ProcessSend, of the fields of the session. */
  function Continued(s: M.Session, bytes: nat, accepted: bool): M.Session {
    var rest := M.Skip(s, bytes);
    if rest.queue != [] then M.PostSend(Bare(rest), accepted).0.session else rest.(sending := false)
  }

  /** What PostSend copies. */
  function Front(queue: seq<byte>): seq<byte> {
    queue[..Min(DEFAULT_BUFFER_SIZE, |queue|)]
  }

  /** The record of a session is a summary of its send path. */
  ghost predicate Agree(peer: C.Peer, s: M.Session) {
    && peer.sending == s.sending && peer.queued == |s.queue| && peer.capacity == s.capacity
  }

  /** Between calls, no completion of it is being handled. */
  ghost predicate AtRest(p: M.State) {
    forall k | k in p.contexts :: p.contexts[k].status.Posted?
  }

  ghost predicate PipeFits(p: M.State, peer: C.Peer) {
    M.Inv(p) && AtRest(p) && Agree(peer, p.session)
  }

  lemma TheFront(p: M.State, k: nat)
    requires M.Inv(p) && k in p.contexts
    ensures FrontOf(p) == p.contexts[k].buffer
  {
  }

  lemma SendEffect(p: M.State, peer: C.Peer, caller: ThreadId, data: seq<byte>, accepted: bool)
    requires Agree(peer, p.session) && |p.session.queue| <= p.session.capacity
    ensures var after, posts := M.Send(p, caller, data, accepted).0, Posts(peer, |data|, accepted);
            && Agree(Loaded(peer, |data|, accepted), after.session)
            && after.session == M.Send(Bare(p.session), caller, data, accepted).0.session
            && M.Send(p, caller, data, accepted).1 == M.Send(Bare(p.session), caller, data, accepted).1
            && after.contexts == if posts then p.contexts[p.nextContext := M.Context(Front(after.session.queue), M.Posted)]
                                 else p.contexts
  {
  }

  lemma SendFits(p: M.State, peer: C.Peer, caller: ThreadId, data: seq<byte>, accepted: bool)
    requires PipeFits(p, peer)
    ensures var after, posts := M.Send(p, caller, data, accepted).0, Posts(peer, |data|, accepted);
            && PipeFits(after, Loaded(peer, |data|, accepted))
            && FrontOf(after) == if posts then Front(after.session.queue) else FrontOf(p)
  {
    M.StepInv(p, M.CallSend(caller, data, accepted));
    SendEffect(p, peer, caller, data, accepted);
    var after := M.Send(p, caller, data, accepted).0;
    if Posts(peer, |data|, accepted) {
      TheFront(after, p.nextContext);
    }
  }

  /** The steps that a completion is. */
  ghost function CompletionOf(p: M.State, bytes: nat, accepted: bool): seq<M.Event>
    requires p.contexts != map[]
  {
    [M.Complete(TheContext(p), bytes), M.Dequeue(TheContext(p), 0), M.Process(TheContext(p), accepted)]
  }

  lemma CompletedIsRun(p: M.State, bytes: nat, accepted: bool)
    requires p.contexts != map[] && AtRest(p) && 1 <= bytes <= |FrontOf(p)|
    ensures M.EnabledRun(p, CompletionOf(p, bytes, accepted))
    ensures M.Run(p, CompletionOf(p, bytes, accepted)) == Completed(p, bytes, accepted)
  {
    var k := TheContext(p);
    var one := M.Step(p, M.Complete(k, bytes));
    var two := M.Step(one, M.Dequeue(k, 0));
    assert two.contexts == p.contexts[k := M.Context(FrontOf(p), M.Dequeued(bytes, 0))];
    RunOf(two, M.Process(k, accepted), []);
    RunOf(one, M.Dequeue(k, 0), [M.Process(k, accepted)]);
    RunOf(p, M.Complete(k, bytes), [M.Dequeue(k, 0), M.Process(k, accepted)]);
  }

  lemma RunOf(p: M.State, e: M.Event, events: seq<M.Event>)
    requires M.Enabled(p, e) && M.EnabledRun(M.Step(p, e), events)
    ensures M.EnabledRun(p, [e] + events) && M.Run(p, [e] + events) == M.Run(M.Step(p, e), events)
  {
    assert ([e] + events)[1..] == events;
  }

  lemma CompletedInv(p: M.State, bytes: nat, accepted: bool)
    requires M.Inv(p) && p.contexts != map[] && AtRest(p) && 1 <= bytes <= |FrontOf(p)|
    ensures M.Inv(Completed(p, bytes, accepted))
  {
    var k := TheContext(p);
    var one := M.Step(p, M.Complete(k, bytes));
    var two := M.Step(one, M.Dequeue(k, 0));
    M.StepInv(p, M.Complete(k, bytes));
    M.StepInv(one, M.Dequeue(k, 0));
    M.StepInv(two, M.Process(k, accepted));
    assert two.contexts == p.contexts[k := M.Context(FrontOf(p), M.Dequeued(bytes, 0))];
  }

  lemma CompletedFits(p: M.State, peer: C.Peer, bytes: nat, accepted: bool)
    requires PipeFits(p, peer) && p.contexts != map[] && 1 <= bytes <= |FrontOf(p)|
    ensures var after, now := Completed(p, bytes, accepted), Advanced(peer, bytes, accepted);
            && PipeFits(after, now) && after.session == Continued(p.session, bytes, accepted)
            && FrontOf(after) == if now.sending then Front(after.session.queue) else []
  {
    CompletedInv(p, bytes, accepted);
    var k := TheContext(p);
    var taken := p.(contexts := p.contexts[k := M.Context(FrontOf(p), M.Dequeued(bytes, 0))],
                    wire := p.wire + FrontOf(p)[..bytes]);
    var rest := taken.(session := M.Skip(p.session, bytes), contexts := taken.contexts - {k});
    assert rest.contexts == map[];
    M.PostSendKeeps(rest, accepted);
    var after := Completed(p, bytes, accepted);
    if Advanced(peer, bytes, accepted).sending {
      assert after.contexts[p.nextContext] == M.Context(Front(after.session.queue), M.Posted);
      TheFront(after, p.nextContext);
    } else {
      assert after.contexts == map[];
    }
  }

  // ---- The invariant ----

  ghost predicate Fits(pipes: map<nat, M.State>, sessions: map<nat, C.Peer>) {
    pipes.Keys == sessions.Keys && forall id | id in pipes :: PipeFits(pipes[id], sessions[id])
  }

  ghost predicate IdsFit(adds: nat, sessions: map<nat, C.Peer>) {
    adds < ID_RANGE && forall id | id in sessions :: 1 <= id <= adds
  }

  ghost predicate Sender(live: map<nat, C.Context>, c: nat, id: nat) {
    c in live && live[c].operation.Send? && live[c].session == Some(id)
  }

  /** While a session is connected, a send under way has its context in the kernel. */
  ghost predicate Backed(live: map<nat, C.Context>, sessions: map<nat, C.Peer>) {
    forall id | id in sessions && sessions[id].connected && sessions[id].sending :: exists c :: Sender(live, c, id)
  }

  /** What the invariant says besides the laws of the ledger. */
  ghost predicate PathsFit(l: C.Ledger, adds: nat, pipes: map<nat, M.State>) {
    IdsFit(adds, l.sessions) && Fits(pipes, l.sessions) && Backed(l.live, l.sessions)
  }

  ghost predicate Inv(s: Server) {
    && C.Inv(s.ledger) && H.Orderly(s.ledger)
    && PathsFit(s.ledger, s.adds, s.pipes)
  }

  lemma OneFits(pipes: map<nat, M.State>, sessions: map<nat, C.Peer>, id: nat, p: M.State, peer: C.Peer)
    requires Fits(pipes, sessions) && PipeFits(p, peer)
    ensures Fits(pipes[id := p], sessions[id := peer])
  {
  }

  /** The context of a send is one that the send path has. */
  lemma SenderHasContext(s: Server, c: nat)
    requires Inv(s) && C.AtStage(s.ledger, c, C.InKernel) && s.ledger.live[c].operation.Send?
    ensures s.ledger.live[c].session.Some? && s.ledger.live[c].session.value in s.pipes
    ensures s.pipes[s.ledger.live[c].session.value].contexts != map[]
    ensures s.pipes[s.ledger.live[c].session.value].session.sending
    ensures s.ledger.live[c].session.value in s.ledger.sessions
    ensures forall d | Sender(s.ledger.live, d, s.ledger.live[c].session.value) :: d == c
  {
    var id := s.ledger.live[c].session.value;
    assert C.Active(s.ledger, c);
    forall d | Sender(s.ledger.live, d, id) ensures d == c {
      assert s.ledger.live[d].Active();
    }
  }

  lemma LoadedBacked(live: map<nat, C.Context>, sessions: map<nat, C.Peer>, next: nat, id: nat, now: C.Peer, posts: bool)
    requires Backed(live, sessions) && id in sessions && next !in live
    requires now.connected == sessions[id].connected && now.sending == (sessions[id].sending || posts)
    ensures Backed(SentOn(live, next, id, posts), sessions[id := now])
  {
    var after := SentOn(live, next, id, posts);
    assert posts ==> Sender(after, next, id);
    assert forall c, i | Sender(live, c, i) :: Sender(after, c, i);
  }

  lemma SendingFits(l: C.Ledger, adds: nat, pipes: map<nat, M.State>, id: nat,
                    caller: ThreadId, data: seq<byte>, accepted: bool)
    requires PathsFit(l, adds, pipes) && C.Addressed(l) && id in pipes
    ensures |pipes[id].session.queue| <= pipes[id].session.capacity
    ensures id in l.sessions && l.sessions[id].queued <= l.sessions[id].capacity
    ensures PathsFit(C.CallSend(l, id, |data|, accepted), adds, pipes[id := M.Send(pipes[id], caller, data, accepted).0])
  {
    var p := l.sessions[id];
    SendFits(pipes[id], p, caller, data, accepted);
    CallSendContexts(l, id, |data|, accepted);
    LoadedBacked(l.live, l.sessions, l.next, id, Loaded(p, |data|, accepted), Posts(p, |data|, accepted));
    OneFits(pipes, l.sessions, id, M.Send(pipes[id], caller, data, accepted).0, Loaded(p, |data|, accepted));
  }

  lemma AdvancedBacked(live: map<nat, C.Context>, sessions: map<nat, C.Peer>, next: nat, c: nat, id: nat, now: C.Peer)
    requires Backed(live, sessions) && id in sessions && next !in live && c in live && live[c].session == Some(id)
    ensures Backed(SentOn(live - {c}, next, id, now.sending), sessions[id := now])
  {
    var after := SentOn(live - {c}, next, id, now.sending);
    assert now.sending ==> Sender(after, next, id);
    assert forall d, i | Sender(live, d, i) && i != id :: Sender(after, d, i);
  }

  lemma CompletingFits(l: C.Ledger, adds: nat, pipes: map<nat, M.State>, c: nat, id: nat, bytes: nat, accepted: bool)
    requires PathsFit(l, adds, pipes) && C.Addressed(l)
    requires c in l.live && l.live[c].session == Some(id) && id in pipes
    requires pipes[id].contexts != map[] && 1 <= bytes <= |FrontOf(pipes[id])|
    ensures id in l.sessions
    ensures PathsFit(C.Deallocate(C.ProcessSend(C.Mark(C.Mark(l, c, C.Taken), c, C.Handled), Some(id), bytes, accepted), c),
                     adds, pipes[id := Completed(pipes[id], bytes, accepted)])
  {
    var now := Advanced(l.sessions[id], bytes, accepted);
    CompletedFits(pipes[id], l.sessions[id], bytes, accepted);
    SendContexts(l, c, bytes, accepted);
    AdvancedBacked(l.live, l.sessions, l.next, c, id, now);
    OneFits(pipes, l.sessions, id, Completed(pipes[id], bytes, accepted), now);
  }

  lemma LeftBacked(live: map<nat, C.Context>, sessions: map<nat, C.Peer>, c: nat)
    requires Backed(live, sessions) && c in live
    requires live[c].operation.Send? ==> live[c].session.Some? && live[c].session.value in sessions
    ensures Backed(live - {c}, Left(sessions, live[c].session))
  {
    assert forall d, i | Sender(live, d, i) && d != c :: Sender(live - {c}, d, i);
  }

  lemma LeavingFits(l: C.Ledger, adds: nat, pipes: map<nat, M.State>, c: nat)
    requires PathsFit(l, adds, pipes) && c in l.live
    requires l.live[c].operation.Send? ==> l.live[c].session.Some? && l.live[c].session.value in l.sessions
    ensures PathsFit(C.Deallocate(C.ProcessDisconnect(C.Mark(C.Mark(l, c, C.Taken), c, C.Handled), l.live[c].session), c),
                     adds, pipes)
  {
    DisconnectContexts(l, c);
    LeftBacked(l.live, l.sessions, c);
    LeftFits(pipes, l.sessions, l.live[c].session);
  }

  lemma LeftFits(pipes: map<nat, M.State>, sessions: map<nat, C.Peer>, session: Option<nat>)
    requires Fits(pipes, sessions)
    ensures Fits(pipes, Left(sessions, session))
  {
  }

  /** A context that is no send's goes, and others that are no sends' come. */
  lemma OthersBacked(live: map<nat, C.Context>, after: map<nat, C.Context>, sessions: map<nat, C.Peer>)
    requires Backed(live, sessions)
    requires forall c | c in live && live[c].operation.Send? :: c in after && after[c] == live[c]
    ensures Backed(after, sessions)
  {
    assert forall d, i | Sender(live, d, i) :: Sender(after, d, i);
  }

  lemma DeliveringFits(l: C.Ledger, adds: nat, pipes: map<nat, M.State>, c: nat, accepted: bool)
    requires PathsFit(l, adds, pipes) && C.Addressed(l)
    requires c in l.live && l.live[c].operation.Receive? && l.live[c].session.Some?
    ensures PathsFit(C.Deallocate(C.Deliver(C.Mark(C.Mark(l, c, C.Taken), c, C.Checked), c, accepted), c), adds, pipes)
  {
    DeliverContexts(l, c, accepted);
    OthersBacked(l.live, Received(l.live - {c}, l.next, l.live[c].session.value, accepted), l.sessions);
  }

  lemma NewcomerBacked(live: map<nat, C.Context>, sessions: map<nat, C.Peer>, id: nat, p: C.Peer)
    requires Backed(live, sessions) && !p.sending
    ensures Backed(live, sessions[id := p])
  {
  }

  lemma NewPipeFits(p: C.Peer)
    requires p.queued == 0 && !p.sending
    ensures PipeFits(M.Initial(p.capacity), p)
  {
    M.InitialInv(p.capacity);
  }

  lemma AcceptingFits(l: C.Ledger, adds: nat, pipes: map<nat, M.State>, c: nat, a: C.Answers)
    requires PathsFit(l, adds, pipes) && C.Addressed(l) && adds < ID_RANGE - 1 && a.id == NthId(adds)
    requires c in l.live && l.live[c].operation.Accept?
    ensures PathsFit(C.Deallocate(K.ProcessAccept(C.Mark(l, c, C.Taken), c, a), c), adds + (if a.room then 1 else 0),
                     if a.room then pipes[a.id := M.Initial(a.capacity)] else pipes)
  {
    var peer := NewPeer(c, a);
    NthIdBeforeWrap(adds);
    AcceptContexts(l, c, a);
    AcceptRest(l, c, a);
    var after := C.Deallocate(K.ProcessAccept(C.Mark(l, c, C.Taken), c, a), c);
    OthersBacked(l.live, after.live, l.sessions);
    if a.room {
      NewcomerBacked(after.live, l.sessions, a.id, peer);
      NewPipeFits(peer);
      OneFits(pipes, l.sessions, a.id, M.Initial(a.capacity), peer);
    }
  }

  lemma ListeningFits(l: C.Ledger, adds: nat, pipes: map<nat, M.State>, ready: bool, a: C.Accepting)
    requires PathsFit(l, adds, pipes) && C.Addressed(l)
    ensures PathsFit(C.StartListen(l, ready, a), adds, pipes)
  {
    OthersBacked(l.live, C.StartListen(l, ready, a).live, l.sessions);
  }

  lemma StoppingFits(l: C.Ledger, adds: nat, pipes: map<nat, M.State>)
    requires PathsFit(l, adds, pipes)
    ensures PathsFit(C.Shutdown(l), adds, pipes)
  {
  }

  /** The paths a completion can take. */
  lemma AcceptPaths(s: Server, c: nat, ok: bool, bytes: nat, r: Replies)
    requires Inv(s) && Enabled(s, Completing(c, ok, bytes, r)) && C.Accepts(s.ledger.live[c].operation, ok, bytes)
    ensures var after := Step(s, Completing(c, ok, bytes, r)); PathsFit(after.ledger, after.adds, after.pipes)
  {
    AcceptingFits(s.ledger, s.adds, s.pipes, c, AnswersOf(s, r));
  }

  lemma CompletionFits(l: C.Ledger, adds: nat, pipes: map<nat, M.State>, c: nat, id: nat, ok: bool, bytes: nat, a: C.Answers)
    requires PathsFit(l, adds, pipes) && C.Addressed(l)
    requires c in l.live && l.live[c].operation.Send? && ok && l.live[c].session == Some(id) && id in pipes
    requires pipes[id].contexts != map[] && 1 <= bytes <= |FrontOf(pipes[id])|
    ensures PathsFit(K.ProcessIO(l, c, ok, bytes, a), adds, pipes[id := Completed(pipes[id], bytes, a.posts)])
  {
    CompletingFits(l, adds, pipes, c, id, bytes, a.posts);
  }

  lemma SendPaths(s: Server, c: nat, ok: bool, bytes: nat, r: Replies)
    requires Inv(s) && Enabled(s, Completing(c, ok, bytes, r)) && Sends(s, c, ok, bytes)
    ensures var after := Step(s, Completing(c, ok, bytes, r)); PathsFit(after.ledger, after.adds, after.pipes)
  {
    SenderHasContext(s, c);
    var id, e := s.ledger.live[c].session.value, Completing(c, ok, bytes, r);
    assert Step(s, e).adds == s.adds && Step(s, e).pipes == s.pipes[id := Completed(s.pipes[id], bytes, r.posts)];
    assert Step(s, e).ledger == K.ProcessIO(s.ledger, c, ok, bytes, AnswersOf(s, r));
    CompletionFits(s.ledger, s.adds, s.pipes, c, id, ok, bytes, AnswersOf(s, r));
  }

  lemma OtherFits(l: C.Ledger, adds: nat, pipes: map<nat, M.State>, c: nat, ok: bool, bytes: nat, a: C.Answers)
    requires PathsFit(l, adds, pipes) && C.Addressed(l) && c in l.live && !C.Accepts(l.live[c].operation, ok, bytes)
    requires !l.live[c].operation.Disconnect? && (l.live[c].operation.Send? ==> !ok || bytes == 0)
    requires !l.live[c].operation.Accept? ==> l.live[c].session.Some? && l.live[c].session.value in l.sessions
    ensures PathsFit(K.ProcessIO(l, c, ok, bytes, a), adds, pipes)
  {
    if C.Delivers(l, l.live[c], ok, bytes) {
      DeliveringFits(l, adds, pipes, c, a.posts);
    } else if l.live[c].operation.Accept? || (ok && bytes != 0) {
      GoingFits(l, adds, pipes, c);
    } else {
      LeavingFits(l, adds, pipes, c);
    }
  }

  lemma HeldFor(l: C.Ledger, c: nat)
    requires C.OwnersFit(l) && C.AtStage(l, c, C.InKernel)
    ensures !l.live[c].operation.Disconnect?
    ensures !l.live[c].operation.Accept? ==> l.live[c].session.Some? && l.live[c].session.value in l.sessions
  {
    assert l.live[c].Active();
  }

  lemma OtherPaths(s: Server, c: nat, ok: bool, bytes: nat, r: Replies)
    requires Inv(s) && Enabled(s, Completing(c, ok, bytes, r))
    requires !C.Accepts(s.ledger.live[c].operation, ok, bytes) && !Sends(s, c, ok, bytes)
    ensures var after := Step(s, Completing(c, ok, bytes, r)); PathsFit(after.ledger, after.adds, after.pipes)
  {
    HeldFor(s.ledger, c);
    assert Step(s, Completing(c, ok, bytes, r)).pipes == s.pipes;
    OtherFits(s.ledger, s.adds, s.pipes, c, ok, bytes, AnswersOf(s, r));
  }

  /** The context just goes. */
  lemma GoingFits(l: C.Ledger, adds: nat, pipes: map<nat, M.State>, c: nat)
    requires PathsFit(l, adds, pipes) && c in l.live && !l.live[c].operation.Send?
    ensures PathsFit(C.Deallocate(C.Mark(C.Mark(l, c, C.Taken), c, C.Handled), c), adds, pipes)
  {
    var live := C.Deallocate(C.Mark(C.Mark(l, c, C.Taken), c, C.Handled), c).live;
    assert live == l.live - {c};
    OthersBacked(l.live, live, l.sessions);
  }

  /** Everything the calls do keeps the laws of the ledger, the order of the callbacks, and the send
      paths in step with the records of the sessions. */
  lemma StepInv(s: Server, e: Event)
    requires Inv(s) && Enabled(s, e)
    ensures Inv(Step(s, e))
  {
    H.CallInv(s.ledger, CallOf(s, e));
    H.CallOrderly(s.ledger, CallOf(s, e));
    PathsStep(s, e);
  }

  lemma PathsStep(s: Server, e: Event)
    requires Inv(s) && Enabled(s, e)
    ensures var after := Step(s, e); PathsFit(after.ledger, after.adds, after.pipes)
  {
    match e
    case Listening(ready, a) => ListeningFits(s.ledger, s.adds, s.pipes, ready, a);
    case Sending(id, caller, data, accepted) => SendingFits(s.ledger, s.adds, s.pipes, id, caller, data, accepted);
    case Completing(c, ok, bytes, r) =>
      if C.Accepts(s.ledger.live[c].operation, ok, bytes) {
        AcceptPaths(s, c, ok, bytes, r);
      } else if Sends(s, c, ok, bytes) {
        SendPaths(s, c, ok, bytes, r);
      } else {
        OtherPaths(s, c, ok, bytes, r);
      }
    case Stopping => StoppingFits(s.ledger, s.adds, s.pipes);
  }

  lemma {:induction false} RunInv(s: Server, events: seq<Event>)
    requires Inv(s) && EnabledRun(s, events)
    ensures Inv(Run(s, events))
    decreases |events|
  {
    if events != [] {
      StepInv(s, events[0]);
      RunInv(Step(s, events[0]), events[1..]);
    }
  }

  lemma {:induction false} RunOn(s: Server, events: seq<Event>, e: Event)
    requires EnabledRun(s, events) && Enabled(Run(s, events), e)
    ensures EnabledRun(s, events + [e]) && Run(s, events + [e]) == Step(Run(s, events), e)
    decreases |events|
  {
    var more := events + [e];
    if events == [] {
      assert more == [e] && more[1..] == [];
      assert Run(s, more) == Run(Step(s, e), []);
    } else {
      assert more[1..] == events[1..] + [e];
      RunOn(Step(s, events[0]), events[1..], e);
    }
  }

  /** The state a run of calls from the start has led to. */
  ghost predicate Reached(s: Server, past: seq<Event>) {
    EnabledRun(Initial(s.maxSessions), past) && s == Run(Initial(s.maxSessions), past)
  }

  lemma ReachedInitially(maxSessions: nat)
    ensures Reached(Initial(maxSessions), []) && Inv(Initial(maxSessions))
  {
    H.AtFirst();
  }

  lemma ReachedInv(s: Server, past: seq<Event>)
    requires Reached(s, past)
    ensures Inv(s)
  {
    ReachedInitially(s.maxSessions);
    RunInv(Initial(s.maxSessions), past);
  }

  lemma ReachedOn(s: Server, past: seq<Event>, e: Event)
    requires Reached(s, past) && Enabled(s, e)
    ensures Reached(Step(s, e), past + [e])
  {
    RunOn(Initial(s.maxSessions), past, e);
  }

  // ---- Sessions do not disturb each other ----

  /** The steps that an event is for the send path of a session. */
  ghost function OwnEvents(s: Server, e: Event, id: nat): seq<M.Event>
    requires Enabled(s, e) && id in s.pipes
  {
    match e
    case Sending(other, caller, data, accepted) => if other == id then [M.CallSend(caller, data, accepted)] else []
    case Completing(c, ok, bytes, r) =>
      if Sends(s, c, ok, bytes) && s.ledger.live[c].session.value == id then CompletionOf(s.pipes[id], bytes, r.posts) else []
    case _ => []
  }

  lemma RunOfOne(p: M.State, e: M.Event)
    requires M.Enabled(p, e)
    ensures M.EnabledRun(p, [e]) && M.Run(p, [e]) == M.Step(p, e)
  {
    RunOf(p, e, []);
    assert [e] + [] == [e];
  }

  lemma NewIdIsNew(s: Server, id: nat)
    requires Inv(s) && s.adds < ID_RANGE - 1 && id in s.pipes
    ensures id != NthId(s.adds)
  {
    NthIdBeforeWrap(s.adds);
  }

  ghost predicate MovesAlone(s: Server, e: Event, id: nat)
    requires Enabled(s, e) && id in s.pipes
  {
    && M.EnabledRun(s.pipes[id], OwnEvents(s, e, id))
    && id in PipesAfter(s, e) && PipesAfter(s, e)[id] == M.Run(s.pipes[id], OwnEvents(s, e, id))
  }

  lemma SendingMovesAlone(s: Server, e: Event, id: nat)
    requires Enabled(s, e) && e.Sending? && id in s.pipes
    ensures MovesAlone(s, e, id)
  {
    if e.id == id {
      RunOfOne(s.pipes[id], M.CallSend(e.caller, e.data, e.accepted));
    }
  }

  lemma CompletingMovesAlone(s: Server, e: Event, id: nat)
    requires Enabled(s, e) && e.Completing? && id in s.pipes && AtRest(s.pipes[id]) && id != NthId(s.adds)
    ensures MovesAlone(s, e, id)
  {
    if Sends(s, e.c, e.ok, e.bytes) && s.ledger.live[e.c].session.value == id {
      CompletedIsRun(s.pipes[id], e.bytes, e.replies.posts);
    }
  }

  /** Whatever happens in the server, a session's send path makes steps of its own or none. */
  lemma PipesMoveAlone(s: Server, e: Event, id: nat)
    requires Inv(s) && Enabled(s, e) && id in s.pipes
    ensures MovesAlone(s, e, id)
  {
    if e.Sending? {
      SendingMovesAlone(s, e, id);
    } else if e.Completing? {
      NewIdIsNew(s, id);
      CompletingMovesAlone(s, e, id);
    }
  }

  ghost function OwnRun(s: Server, events: seq<Event>, id: nat): seq<M.Event>
    requires Inv(s) && EnabledRun(s, events) && id in s.pipes
    decreases |events|
  {
    if events == [] then []
    else
      StepInv(s, events[0]);
      PipesMoveAlone(s, events[0], id);
      OwnEvents(s, events[0], id) + OwnRun(Step(s, events[0]), events[1..], id)
  }

  lemma {:induction false} RunsJoin(p: M.State, first: seq<M.Event>, second: seq<M.Event>)
    requires M.EnabledRun(p, first) && M.EnabledRun(M.Run(p, first), second)
    ensures M.EnabledRun(p, first + second) && M.Run(p, first + second) == M.Run(M.Run(p, first), second)
    decreases |first|
  {
    if first == [] {
      assert first + second == second;
    } else {
      var more := first + second;
      assert more[0] == first[0] && more[1..] == first[1..] + second;
      RunsJoin(M.Step(p, first[0]), first[1..], second);
      assert M.Run(p, more) == M.Run(M.Step(p, first[0]), more[1..]);
    }
  }

  /** In a server with any number of sessions and whole calls, each session's send path goes through a
      run of its own machine, so that everything proved of those runs holds of it. */
  lemma {:induction false} PipesRunAlone(s: Server, events: seq<Event>, id: nat)
    requires Inv(s) && EnabledRun(s, events) && id in s.pipes
    ensures id in Run(s, events).pipes
    ensures M.EnabledRun(s.pipes[id], OwnRun(s, events, id))
    ensures M.Run(s.pipes[id], OwnRun(s, events, id)) == Run(s, events).pipes[id]
    decreases |events|
  {
    if events != [] {
      StepInv(s, events[0]);
      PipesMoveAlone(s, events[0], id);
      PipesRunAlone(Step(s, events[0]), events[1..], id);
      RunsJoin(s.pipes[id], OwnEvents(s, events[0], id), OwnRun(Step(s, events[0]), events[1..], id));
    }
  }

  // ---- Contexts of sends ----

  /** Of a connected session, a send is under way exactly when the kernel has one send context, whose
      buffer is what the session's send path says it is. */
  lemma OneSendContext(s: Server, id: nat)
    requires Inv(s) && id in s.pipes && s.ledger.sessions[id].connected && !s.ledger.stopped
    ensures s.pipes[id].session.sending <==> exists c :: Sender(s.ledger.live, c, id)
    ensures forall c, d | Sender(s.ledger.live, c, id) && Sender(s.ledger.live, d, id) :: c == d
  {
    forall c | Sender(s.ledger.live, c, id)
      ensures s.pipes[id].session.sending && forall d | Sender(s.ledger.live, d, id) :: c == d
    {
      assert C.Active(s.ledger, c);
      SenderHasContext(s, c);
    }
  }

  /** A send is under way that has no context any more. */
  ghost predicate Cut(s: Server, id: nat) {
    id in s.pipes && s.pipes[id].session.sending && forall c :: !Sender(s.ledger.live, c, id)
  }

  lemma FailureContexts(l: C.Ledger, c: nat, ok: bool, bytes: nat, a: C.Answers)
    requires c in l.live && l.live[c].operation.Send? && (!ok || bytes == 0)
    ensures var after := K.ProcessIO(l, c, ok, bytes, a);
            after.live == l.live - {c} && after.sessions == Left(l.sessions, l.live[c].session)
  {
    DisconnectContexts(l, c);
  }

  /** A send that fails, or moves nothing, disconnects the session and is never made up for. */
  lemma FailureCuts(s: Server, c: nat, id: nat, ok: bool, bytes: nat, r: Replies)
    requires Inv(s) && Enabled(s, Completing(c, ok, bytes, r)) && Sender(s.ledger.live, c, id) && (!ok || bytes == 0)
    ensures var after := Step(s, Completing(c, ok, bytes, r));
            && Cut(after, id) && id in after.ledger.sessions && !after.ledger.sessions[id].connected
            && after.pipes == s.pipes
  {
    SenderHasContext(s, c);
    FailureStep(s, c, id, ok, bytes, r);
  }

  lemma FailureStep(s: Server, c: nat, id: nat, ok: bool, bytes: nat, r: Replies)
    requires Enabled(s, Completing(c, ok, bytes, r)) && Sender(s.ledger.live, c, id) && (!ok || bytes == 0)
    requires id in s.pipes && s.pipes[id].session.sending && id in s.ledger.sessions
    requires forall d | Sender(s.ledger.live, d, id) :: d == c
    ensures var after := Step(s, Completing(c, ok, bytes, r));
            && Cut(after, id) && id in after.ledger.sessions && !after.ledger.sessions[id].connected
            && after.pipes == s.pipes
  {
    FailureContexts(s.ledger, c, ok, bytes, AnswersOf(s, r));
    NoOtherSender(s.ledger.live, c, id);
  }

  lemma NoOtherSender(live: map<nat, C.Context>, c: nat, id: nat)
    requires forall d | Sender(live, d, id) :: d == c
    ensures forall d :: !Sender(live - {c}, d, id)
  {
    forall d ensures !Sender(live - {c}, d, id) {
      assert Sender(live - {c}, d, id) ==> Sender(live, d, id);
    }
  }

  /** No context of the session comes. */
  ghost predicate NoNewSender(live: map<nat, C.Context>, after: map<nat, C.Context>, id: nat) {
    forall c | Sender(after, c, id) :: Sender(live, c, id)
  }

  lemma SendingAddsNone(l: C.Ledger, id: nat, n: nat, accepted: bool, other: nat)
    requires id in l.sessions && l.sessions[id].queued <= l.sessions[id].capacity && (id == other ==> l.sessions[id].sending)
    ensures NoNewSender(l.live, C.CallSend(l, id, n, accepted).live, other)
  {
    CallSendContexts(l, id, n, accepted);
  }

  lemma OtherAddsNone(l: C.Ledger, c: nat, ok: bool, bytes: nat, a: C.Answers, id: nat)
    requires C.Addressed(l) && C.OwnersFit(l) && C.AtStage(l, c, C.InKernel)
    requires !Sender(l.live, c, id)
    ensures NoNewSender(l.live, K.ProcessIO(l, c, ok, bytes, a).live, id)
  {
    HeldFor(l, c);
    var x := l.live[c];
    if C.Accepts(x.operation, ok, bytes) {
      AcceptContexts(l, c, a);
    } else if C.Delivers(l, x, ok, bytes) {
      DeliverContexts(l, c, a.posts);
    } else if x.operation.Send? && ok && bytes != 0 {
      SendContexts(l, c, bytes, a.posts);
    } else if !x.operation.Accept? && (!ok || bytes == 0) {
      DisconnectContexts(l, c);
    }
  }

  lemma CutPipes(s: Server, e: Event, id: nat)
    requires Enabled(s, e) && id in s.pipes && (e.Completing? ==> id != NthId(s.adds))
    requires |s.pipes[id].session.queue| <= s.pipes[id].session.capacity
    requires s.pipes[id].session.sending && (e.Completing? ==> !Sender(s.ledger.live, e.c, id))
    ensures id in PipesAfter(s, e)
    ensures var p := PipesAfter(s, e)[id];
            p.session.sending && p.wire == s.pipes[id].wire && p.session.skipped == s.pipes[id].session.skipped
  {
  }

  lemma CutStep(s: Server, e: Event, id: nat)
    requires Inv(s) && Enabled(s, e) && Cut(s, id)
    ensures var after := Step(s, e);
            && Cut(after, id) && after.pipes[id].wire == s.pipes[id].wire
            && after.pipes[id].session.skipped == s.pipes[id].session.skipped
  {
    if e.Completing? {
      NewIdIsNew(s, id);
    }
    CutPipes(s, e, id);
    CutContexts(s, e, id);
  }

  lemma CutContexts(s: Server, e: Event, id: nat)
    requires Inv(s) && Enabled(s, e) && Cut(s, id)
    ensures NoNewSender(s.ledger.live, Step(s, e).ledger.live, id)
  {
    match e
    case Listening(_, _) =>
      assert NoNewSender(s.ledger.live, Step(s, e).ledger.live, id);
    case Sending(other, caller, data, accepted) =>
      SendingAddsNone(s.ledger, other, |data|, accepted, id);
    case Completing(c, ok, bytes, r) =>
      OtherAddsNone(s.ledger, c, ok, bytes, AnswersOf(s, r), id);
    case Stopping =>
      assert NoNewSender(s.ledger.live, Step(s, e).ledger.live, id);
  }

  /** Over any run nothing more of such a session gets on the wire. */
  lemma {:induction false} CutIsForever(s: Server, events: seq<Event>, id: nat)
    requires Inv(s) && EnabledRun(s, events) && Cut(s, id)
    ensures Cut(Run(s, events), id) && Run(s, events).pipes[id].wire == s.pipes[id].wire
    decreases |events|
  {
    if events != [] {
      StepInv(s, events[0]);
      CutStep(s, events[0], id);
      CutIsForever(Step(s, events[0]), events[1..], id);
    }
  }
}
