/** Who owns the overlapped contexts and the client sockets of the IOCP model, over all sessions and
    any number of worker threads.  The handling of a completion is several steps, between which other
    workers can come; ProcessDisconnect, and the making of a callback with the post after it, are one
    step each. */
module IocpContexts {
  import opened Types
  import opened Callbacks

  datatype Operation = Accept | Receive | Send | Disconnect

  /** How far a context has come.  A worker that handles an accept first registers the next one, then
      adds the session and posts its receive, and then makes the callback; one that handles a receive
      first looks whether the session is connected.  A context that is Handled is only waiting to be
      freed; one that is Abandoned was in the kernel when the port was closed. */
  datatype Stage = InKernel | Taken | Checked | Registered | Admitted(newcomer: nat) | Handled | Abandoned

  datatype Context = Context(operation: Operation, session: Option<nat>, stage: Stage)
  {
    /** Its completion is still to be handled, or its handling has not got to the next post. */
    predicate Active() {
      stage.InKernel? || stage.Taken? || stage.Checked?
    }

    /** It holds the socket of a connection that has no session yet. */
    predicate Pending() {
      operation.Accept? && (stage.InKernel? || stage.Taken? || stage.Registered?)
    }
  }

  /** What of a session matters here.  It is `connected` until ProcessDisconnect, which also takes it
      out of the session manager; `posted` is that its first receive was.  Its socket is named by the
      accept context it was made for. */
  datatype Peer = Peer(connected: bool, posted: bool, socket: nat, sending: bool, queued: nat, capacity: nat)

  datatype Call = Call(callback: Callback, session: nat)

  datatype Ledger = Ledger(
    running: bool,
    stopped: bool,             // Shutdown has been called
    live: map<nat, Context>,   // allocated and not deallocated, by address
    sessions: map<nat, Peer>,
    next: nat,                 // address of the next context
    made: nat,
    freed: nat,
    sockets: set<nat>,         // client sockets that are open
    created: nat,              // client sockets ever made
    closes: nat,               // calls of close on client sockets
    doubles: nat,              // those of them on sockets that were closed already
    calls: seq<Call>           // callbacks made
  )

  function Initial(): Ledger {
    Ledger(false, false, map[], map[], 0, 0, 0, {}, 0, 0, 0, [])
  }

  // ---- What the functions do ----

  /** AllocateContext, for an operation the kernel then accepts. */
  function Post(l: Ledger, operation: Operation, session: Option<nat>): Ledger {
    l.(live := l.live[l.next := Context(operation, session, InKernel)], next := l.next + 1,
       made := l.made + 1)
  }

  /** AllocateContext and, the kernel having refused, DeallocateContext; the address is free again. */
  function PostRefused(l: Ledger): Ledger {
    l.(made := l.made + 1, freed := l.freed + 1)
  }

  function Deallocate(l: Ledger, c: nat): Ledger {
    l.(live := l.live - {c}, freed := l.freed + 1)
  }

  function Mark(l: Ledger, c: nat, stage: Stage): Ledger
    requires c in l.live
  {
    l.(live := l.live[c := l.live[c].(stage := stage)])
  }

  function CloseSocket(l: Ledger, socket: nat): Ledger {
    l.(sockets := l.sockets - {socket}, closes := l.closes + 1,
       doubles := l.doubles + if socket in l.sockets then 0 else 1)
  }

  /** What the system answers in RegisterAccept: whether there is a socket for the connection to come,
      and whether AcceptEx takes the context. */
  datatype Accepting = Accepting(hasSocket: bool, accepted: bool)
  {
    predicate Ok() {
      hasSocket && accepted
    }
  }

  /** An accept context comes with a new socket; it is closed again if the kernel refuses. */
  function RegisterAccept(l: Ledger, a: Accepting): Ledger {
    if !a.hasSocket then PostRefused(l)
    else if !a.accepted then PostRefused(l).(created := l.created + 1, closes := l.closes + 1)
    else Post(l.(sockets := l.sockets + {l.next}, created := l.created + 1), Accept, None)
  }

  /** `ready` is that the model listens and is associated with the port. */
  function StartListen(l: Ledger, ready: bool, a: Accepting): Ledger {
    if l.running || !ready then l else RegisterAccept(l, a).(running := a.Ok())
  }

  function PostReceive(l: Ledger, id: nat, accepted: bool): Ledger {
    if accepted then Post(l, Receive, Some(id)) else PostRefused(l)
  }

  function SetPeer(l: Ledger, id: nat, p: Peer): Ledger {
    l.(sessions := l.sessions[id := p])
  }

  function PostSend(l: Ledger, id: nat, accepted: bool): Ledger
    requires id in l.sessions
  {
    var p := l.sessions[id];
    if p.queued == 0 || !accepted then PostRefused(SetPeer(l, id, p.(sending := false)))
    else Post(SetPeer(l, id, p.(sending := true)), Send, Some(id))
  }

  function Enqueue(l: Ledger, id: nat, n: nat): Ledger
    requires id in l.sessions && l.sessions[id].queued <= l.sessions[id].capacity
  {
    var p := l.sessions[id];
    SetPeer(l, id, p.(queued := p.queued + Min(n, p.capacity - p.queued)))
  }

  function CallSend(l: Ledger, id: nat, n: nat, accepted: bool): Ledger
    requires id in l.sessions && l.sessions[id].queued <= l.sessions[id].capacity
  {
    var p, enqueued := l.sessions[id], Enqueue(l, id, n);
    if n == 0 || p.capacity - p.queued < n || p.sending then enqueued else PostSend(enqueued, id, accepted)
  }

  /** The start of ProcessAccept. */
  function RegisterNext(l: Ledger, c: nat, a: Accepting): Ledger
    requires c in l.live
  {
    RegisterAccept(Mark(l, c, Registered), a)
  }

  /** What comes back in ProcessAccept: about the next accept, whether there is room for a session
      (which then has the id and ring size given), whether its socket can be associated with the port,
      and whether WSARecv accepts.  For other completions `posts` is the answer of WSARecv or WSASend. */
  datatype Answers = Answers(accepting: Accepting, room: bool, id: nat, capacity: nat, associates: bool, posts: bool)

  /** The middle of ProcessAccept.  A session without a receive has its socket closed and stays. */
  function AddClient(l: Ledger, c: nat, a: Answers): Ledger
    requires c in l.live
  {
    if !a.room then Mark(CloseSocket(l, c), c, Handled)
    else
      var added := SetPeer(l, a.id, Peer(true, a.associates && a.posts, c, false, 0, a.capacity));
      if !a.associates then Mark(CloseSocket(added, c), c, Handled)
      else if !a.posts then CloseSocket(PostReceive(Mark(added, c, Handled), a.id, false), c)
      else PostReceive(Mark(added, c, Admitted(a.id)), a.id, true)
  }

  function Report(l: Ledger, callback: Callback, id: nat): Ledger {
    l.(calls := l.calls + [Call(callback, id)])
  }

  /** The end of ProcessAccept. */
  function CallAccept(l: Ledger, c: nat): Ledger
    requires c in l.live && l.live[c].stage.Admitted?
  {
    Mark(Report(l, OnAccept, l.live[c].stage.newcomer), c, Handled)
  }

  /** ProcessReceive finds its session connected. */
  predicate Reads(l: Ledger, session: Option<nat>) {
    session.Some? && session.value in l.sessions && l.sessions[session.value].connected
  }

  /** The rest of ProcessReceive. */
  function Deliver(l: Ledger, c: nat, accepted: bool): Ledger
    requires c in l.live && l.live[c].session.Some?
  {
    var id := l.live[c].session.value;
    PostReceive(Report(Mark(l, c, Handled), OnReceive, id), id, accepted)
  }

  function ProcessSend(l: Ledger, session: Option<nat>, bytes: nat, accepted: bool): Ledger {
    if session.None? || session.value !in l.sessions then l
    else
      var p := l.sessions[session.value];
      var left := p.queued - Min(bytes, p.queued);
      if left > 0 then PostSend(SetPeer(l, session.value, p.(queued := left)), session.value, accepted)
      else SetPeer(l, session.value, p.(queued := left, sending := false))
  }

  /** The session leaves the manager; its socket is not closed. */
  function ProcessDisconnect(l: Ledger, session: Option<nat>): Ledger {
    if session.None? || session.value !in l.sessions || !l.sessions[session.value].connected then l
    else
      var p := l.sessions[session.value];
      Report(SetPeer(l, session.value, p.(connected := false)), OnDisconnect, session.value)
  }

  /** A completion of an accept that is not taken for an error. */
  predicate Accepts(operation: Operation, ok: bool, bytes: nat) {
    operation.Accept? && ok && bytes != 0
  }

  /** What ProcessIO does for any other completion, up to the delivery of what was received. */
  function Perform(l: Ledger, operation: Operation, session: Option<nat>, ok: bool, bytes: nat, accepted: bool): Ledger {
    if !ok || bytes == 0 then
      if operation.Accept? then l else ProcessDisconnect(l, session)
    else
      match operation
      case Accept => l
      case Receive => l
      case Send => ProcessSend(l, session, bytes, accepted)
      case Disconnect => ProcessDisconnect(l, session)
  }

  /** A completion of a receive that brings data for a connected session. */
  predicate Delivers(l: Ledger, x: Context, ok: bool, bytes: nat) {
    x.operation.Receive? && ok && bytes != 0 && Reads(l, x.session)
  }

  function Dispatch(l: Ledger, c: nat, ok: bool, bytes: nat, accepted: bool): Ledger
    requires c in l.live
  {
    if Delivers(l, l.live[c], ok, bytes) then Mark(l, c, Checked)
    else Perform(Mark(l, c, Handled), l.live[c].operation, l.live[c].session, ok, bytes, accepted)
  }

  /** The sessions in the manager. */
  function Managed(l: Ledger): set<nat> {
    set id | id in l.sessions && l.sessions[id].connected
  }

  /** Their sockets. */
  function ManagedSockets(l: Ledger): set<nat> {
    set id | id in Managed(l) :: l.sessions[id].socket
  }

  /** Those of them whose socket is closed already. */
  function Failed(l: Ledger): set<nat> {
    set id | id in Managed(l) && l.sessions[id].socket !in l.sockets
  }

  /** Shutdown: the socket of every session in the manager is closed, the sessions are destroyed, and
      nothing in the kernel will be dequeued any more. */
  function Shutdown(l: Ledger): Ledger {
    l.(running := false, stopped := true,
       sockets := l.sockets - ManagedSockets(l),
       closes := l.closes + |Managed(l)|, doubles := l.doubles + |Failed(l)|,
       sessions := map id | id in l.sessions :: l.sessions[id].(connected := false),
       live := map c | c in l.live ::
         if l.live[c].stage.InKernel? then l.live[c].(stage := Abandoned) else l.live[c])
  }

  // ---- Steps ----

  datatype Event =
    | Listen(ready: bool, accepting: Accepting)
    | SendCall(id: nat, n: nat, accepted: bool)
    | Take(c: nat)                     // a worker takes a completion
    | Renew(c: nat, accepting: Accepting)
    | Admit(c: nat, answers: Answers)
    | Announce(c: nat)
    | Handle(c: nat, ok: bool, bytes: nat, accepted: bool)
    | Delivery(c: nat, accepted: bool)
    | Free(c: nat)
    | Stop

  ghost predicate AtStage(l: Ledger, c: nat, stage: Stage) {
    c in l.live && l.live[c].stage == stage
  }

  /** No worker is in the middle of handling a completion. */
  ghost predicate Quiet(l: Ledger) {
    forall c | c in l.live :: l.live[c].stage.InKernel? || l.live[c].stage.Handled?
  }

  ghost predicate Enabled(l: Ledger, e: Event) {
    match e
    case Listen(_, _) => !l.stopped
    case SendCall(id, _, _) => !l.stopped && id in l.sessions && l.sessions[id].queued <= l.sessions[id].capacity
    case Take(c) => AtStage(l, c, InKernel)
    case Renew(c, _) => AtStage(l, c, Taken) && l.live[c].operation.Accept?
    case Admit(c, a) => AtStage(l, c, Registered) && a.id !in l.sessions
    case Announce(c) => c in l.live && l.live[c].stage.Admitted?
    case Handle(c, ok, bytes, _) => AtStage(l, c, Taken) && !Accepts(l.live[c].operation, ok, bytes)
    case Delivery(c, _) => AtStage(l, c, Checked) && l.live[c].session.Some?
    case Free(c) => AtStage(l, c, Handled)
    case Stop => !l.stopped && Quiet(l)
  }

  ghost function Step(l: Ledger, e: Event): Ledger
    requires Enabled(l, e)
  {
    match e
    case Listen(ready, a) => StartListen(l, ready, a)
    case SendCall(id, n, accepted) => CallSend(l, id, n, accepted)
    case Take(c) => Mark(l, c, Taken)
    case Renew(c, a) => RegisterNext(l, c, a)
    case Admit(c, a) => AddClient(l, c, a)
    case Announce(c) => CallAccept(l, c)
    case Handle(c, ok, bytes, accepted) => Dispatch(l, c, ok, bytes, accepted)
    case Delivery(c, accepted) => Deliver(l, c, accepted)
    case Free(c) => Deallocate(l, c)
    case Stop => Shutdown(l)
  }

  // ---- The invariant ----

  ghost predicate Active(l: Ledger, c: nat) {
    c in l.live && l.live[c].Active()
  }

  ghost predicate NoneFor(l: Ledger, operation: Operation, session: Option<nat>) {
    forall c | c in l.live && l.live[c].Active() ::
      l.live[c].operation != operation || l.live[c].session != session
  }

  /** Two active contexts never are for the same thing: a receive or a send of one session, or an
      accept. */
  ghost predicate OneEach(l: Ledger) {
    forall c, d | c in l.live && d in l.live && l.live[c].Active() && l.live[d].Active()
                  && l.live[c].operation == l.live[d].operation && l.live[c].session == l.live[d].session ::
      c == d
  }

  ghost predicate Addressed(l: Ledger) {
    forall c | c in l.live :: c < l.next
  }

  ghost predicate OwnersFit(l: Ledger) {
    && (forall c | c in l.live && (l.live[c].stage.Registered? || l.live[c].stage.Admitted?) ::
          l.live[c].operation.Accept?)
    && (forall c | c in l.live && l.live[c].stage.Checked? :: l.live[c].operation.Receive?)
    && (l.stopped ==> !l.running && forall c | c in l.live :: l.live[c].stage.Handled? || l.live[c].stage.Abandoned?)
    && (forall c | c in l.live && l.live[c].Active() ::
          match l.live[c].operation
          case Accept => l.live[c].session.None? && l.running
          case Receive => l.live[c].session.Some? && l.live[c].session.value in l.sessions
          case Send =>
            && l.live[c].session.Some? && l.live[c].session.value in l.sessions
            && l.sessions[l.live[c].session.value].sending
          case Disconnect => false)
  }

  ghost predicate Pending(l: Ledger, c: nat) {
    c in l.live && l.live[c].Pending()
  }

  /** Pending sockets are open, and no two owners share one. */
  ghost predicate SocketsFit(l: Ledger) {
    && (forall c | c in l.live && l.live[c].Pending() :: c in l.sockets)
    && (forall s | s in l.sockets :: s < l.next)
    && (forall id | id in l.sessions :: l.sessions[id].socket < l.next && !Pending(l, l.sessions[id].socket))
    && (forall i, j | i in l.sessions && j in l.sessions && l.sessions[i].socket == l.sessions[j].socket :: i == j)
  }

  ghost predicate Inv(l: Ledger) {
    && l.made == l.freed + |l.live|
    && Addressed(l)
    && OwnersFit(l)
    && OneEach(l)
    && SocketsFit(l)
  }

  /** What an operation needs of its session when it is posted. */
  ghost predicate Postable(l: Ledger, operation: Operation, session: Option<nat>) {
    && !l.stopped && NoneFor(l, operation, session)
    && match operation
       case Accept => session.None? && l.running
       case Receive => session.Some? && session.value in l.sessions
       case Send => session.Some? && session.value in l.sessions && l.sessions[session.value].sending
       case Disconnect => false
  }

  lemma PostOwners(l: Ledger, operation: Operation, session: Option<nat>)
    requires Addressed(l) && OwnersFit(l) && OneEach(l) && Postable(l, operation, session)
    ensures var after := Post(l, operation, session);
            Addressed(after) && OwnersFit(after) && OneEach(after)
  {
  }

  lemma PostSockets(l: Ledger, operation: Operation, session: Option<nat>)
    requires Addressed(l) && SocketsFit(l) && (operation.Accept? ==> l.next in l.sockets)
    ensures SocketsFit(Post(l, operation, session))
  {
  }

  lemma PostCounts(l: Ledger, operation: Operation, session: Option<nat>)
    requires Addressed(l)
    ensures |Post(l, operation, session).live| == |l.live| + 1
  {
  }

  lemma PostInv(l: Ledger, operation: Operation, session: Option<nat>)
    requires Inv(l) && Postable(l, operation, session) && !operation.Accept?
    ensures Inv(Post(l, operation, session))
  {
    PostOwners(l, operation, session);
    PostSockets(l, operation, session);
    PostCounts(l, operation, session);
  }

  lemma NewSocket(l: Ledger)
    requires Addressed(l) && SocketsFit(l)
    ensures SocketsFit(Post(l.(sockets := l.sockets + {l.next}, created := l.created + 1), Accept, None))
  {
  }

  lemma RegisterAcceptInv(l: Ledger, a: Accepting)
    requires Inv(l) && Postable(l, Accept, None)
    ensures Inv(RegisterAccept(l, a))
  {
    if a.Ok() {
      var opening := l.(sockets := l.sockets + {l.next}, created := l.created + 1);
      PostOwners(opening, Accept, None);
      NewSocket(l);
      PostCounts(opening, Accept, None);
    }
  }

  /** A context may be moved on to this stage of its handling. */
  ghost predicate MovesOn(x: Context, stage: Stage) {
    match stage
    case InKernel => false
    case Abandoned => false
    case Taken => x.stage.InKernel?
    case Checked => x.Active() && x.operation.Receive?
    case Registered => x.Pending()
    case Admitted(_) => x.operation.Accept?
    case Handled => true
  }

  lemma MarkOwners(l: Ledger, c: nat, stage: Stage)
    requires Addressed(l) && OwnersFit(l) && OneEach(l) && c in l.live && MovesOn(l.live[c], stage)
    requires l.stopped ==> stage.Handled?
    ensures var after := Mark(l, c, stage);
            Addressed(after) && OwnersFit(after) && OneEach(after)
  {
    assert Mark(l, c, stage).live[c].Active() ==> l.live[c].Active();
  }

  lemma MarkSockets(l: Ledger, c: nat, stage: Stage)
    requires SocketsFit(l) && c in l.live && MovesOn(l.live[c], stage)
    ensures SocketsFit(Mark(l, c, stage))
  {
    assert Mark(l, c, stage).live[c].Pending() ==> l.live[c].Pending();
  }

  lemma MarkInv(l: Ledger, c: nat, stage: Stage)
    requires Inv(l) && c in l.live && MovesOn(l.live[c], stage)
    requires l.stopped ==> stage.Handled?
    ensures Inv(Mark(l, c, stage))
  {
    MarkOwners(l, c, stage);
    MarkSockets(l, c, stage);
    assert Mark(l, c, stage).live.Keys == l.live.Keys;
    assert |Mark(l, c, stage).live| == |l.live|;
  }

  lemma DeallocateInv(l: Ledger, c: nat)
    requires Inv(l) && c in l.live
    ensures Inv(Deallocate(l, c))
  {
    assert |Deallocate(l, c).live| == |l.live| - 1;
  }

  lemma SetPeerOwners(l: Ledger, id: nat, p: Peer)
    requires OwnersFit(l) && id in l.sessions
    requires p.sending == l.sessions[id].sending || NoneFor(l, Send, Some(id))
    ensures OwnersFit(SetPeer(l, id, p))
  {
  }

  lemma SetPeerSockets(l: Ledger, id: nat, p: Peer)
    requires SocketsFit(l) && id in l.sessions && p.socket == l.sessions[id].socket
    ensures SocketsFit(SetPeer(l, id, p))
  {
  }

  /** A change of a session that leaves its socket alone, and its flag unless it has no send out. */
  lemma SetPeerInv(l: Ledger, id: nat, p: Peer)
    requires Inv(l) && id in l.sessions && p.socket == l.sessions[id].socket
    requires p.sending == l.sessions[id].sending || NoneFor(l, Send, Some(id))
    ensures Inv(SetPeer(l, id, p))
    ensures forall operation, session :: NoneFor(SetPeer(l, id, p), operation, session) <==> NoneFor(l, operation, session)
  {
    SetPeerOwners(l, id, p);
    SetPeerSockets(l, id, p);
  }

  lemma PostSendInv(l: Ledger, id: nat, accepted: bool)
    requires Inv(l) && !l.stopped && id in l.sessions && NoneFor(l, Send, Some(id))
    ensures Inv(PostSend(l, id, accepted))
  {
    var sending := l.sessions[id].queued != 0 && accepted;
    var flagged := SetPeer(l, id, l.sessions[id].(sending := sending));
    SetPeerInv(l, id, l.sessions[id].(sending := sending));
    if sending {
      PostInv(flagged, Send, Some(id));
    } else {
      RefusedInv(flagged);
    }
  }

  lemma CallSendInv(l: Ledger, id: nat, n: nat, accepted: bool)
    requires Inv(l) && !l.stopped && id in l.sessions && l.sessions[id].queued <= l.sessions[id].capacity
    ensures Inv(CallSend(l, id, n, accepted))
  {
    SetPeerInv(l, id, Enqueue(l, id, n).sessions[id]);
    if !l.sessions[id].sending {
      PostSendInv(Enqueue(l, id, n), id, accepted);
    }
  }

  /** The new session gets the socket of the accept context, which is done with it. */
  lemma NewPeerInv(l: Ledger, c: nat, id: nat, p: Peer)
    requires Inv(l) && id !in l.sessions && p.socket == c && c < l.next && !Pending(l, c)
    requires forall other | other in l.sessions :: l.sessions[other].socket != c
    ensures Inv(SetPeer(l, id, p))
  {
    NewPeerOwners(l, id, p);
    NewPeerSockets(l, id, p);
  }

  lemma NewPeerOwners(l: Ledger, id: nat, p: Peer)
    requires OwnersFit(l) && id !in l.sessions
    ensures OwnersFit(SetPeer(l, id, p))
  {
  }

  lemma NewPeerSockets(l: Ledger, id: nat, p: Peer)
    requires SocketsFit(l) && id !in l.sessions && p.socket < l.next && !Pending(l, p.socket)
    requires forall other | other in l.sessions :: l.sessions[other].socket != p.socket
    ensures SocketsFit(SetPeer(l, id, p))
  {
  }

  lemma CloseSockets(l: Ledger, socket: nat)
    requires SocketsFit(l) && !Pending(l, socket)
    ensures SocketsFit(CloseSocket(l, socket))
  {
  }

  /** A socket nobody is waiting on may be closed. */
  lemma CloseSocketInv(l: Ledger, socket: nat)
    requires Inv(l) && !Pending(l, socket)
    ensures Inv(CloseSocket(l, socket))
  {
    CloseSockets(l, socket);
  }

  lemma NobodyReceives(l: Ledger, id: nat)
    requires OwnersFit(l) && id !in l.sessions
    ensures NoneFor(l, Receive, Some(id))
  {
  }

  lemma RefusedInv(l: Ledger)
    requires Inv(l)
    ensures Inv(PostRefused(l))
  {
  }

  function Added(l: Ledger, c: nat, a: Answers): Ledger
    requires c in l.live
  {
    var posted := a.associates && a.posts;
    SetPeer(Mark(l, c, if posted then Admitted(a.id) else Handled), a.id, Peer(true, posted, c, false, 0, a.capacity))
  }

  /** The same in another order. */
  lemma AddClientInOrder(l: Ledger, c: nat, a: Answers)
    requires c in l.live
    ensures AddClient(l, c, a) ==
              if !a.room then CloseSocket(Mark(l, c, Handled), c)
              else if !a.associates then CloseSocket(Added(l, c, a), c)
              else if !a.posts then CloseSocket(PostRefused(Added(l, c, a)), c)
              else Post(Added(l, c, a), Receive, Some(a.id))
  {
  }

  /** The new session, before anything is posted for it. */
  lemma NewcomerInv(l: Ledger, c: nat, a: Answers)
    requires Inv(l) && AtStage(l, c, Registered) && a.id !in l.sessions
    ensures Inv(Added(l, c, a)) && !Pending(Added(l, c, a), c) && Postable(Added(l, c, a), Receive, Some(a.id))
  {
    var posted := a.associates && a.posts;
    var stage := if posted then Admitted(a.id) else Handled;
    assert Pending(l, c);
    MarkInv(l, c, stage);
    NobodyReceives(Mark(l, c, stage), a.id);
    NewPeerInv(Mark(l, c, stage), c, a.id, Peer(true, posted, c, false, 0, a.capacity));
  }

  lemma AddClientInv(l: Ledger, c: nat, a: Answers)
    requires Inv(l) && AtStage(l, c, Registered) && a.id !in l.sessions
    ensures Inv(AddClient(l, c, a))
  {
    AddClientInOrder(l, c, a);
    if a.room {
      NewcomerInv(l, c, a);
      RefusedInv(Added(l, c, a));
      if a.associates && a.posts {
        PostInv(Added(l, c, a), Receive, Some(a.id));
      } else {
        CloseSocketInv(Added(l, c, a), c);
        CloseSocketInv(PostRefused(Added(l, c, a)), c);
      }
    } else {
      MarkInv(l, c, Handled);
      CloseSocketInv(Mark(l, c, Handled), c);
    }
  }

  lemma ReportInv(l: Ledger, callback: Callback, id: nat)
    requires Inv(l)
    ensures Inv(Report(l, callback, id))
  {
  }

  lemma ProcessDisconnectInv(l: Ledger, session: Option<nat>)
    requires Inv(l)
    ensures Inv(ProcessDisconnect(l, session))
  {
    if session.Some? && session.value in l.sessions {
      var p := l.sessions[session.value].(connected := false);
      SetPeerInv(l, session.value, p);
      ReportInv(SetPeer(l, session.value, p), OnDisconnect, session.value);
    }
  }

  /** What is handled is not active, and nothing else was for the same. */
  lemma NoneAfter(l: Ledger, c: nat)
    requires OneEach(l) && Active(l, c)
    ensures NoneFor(Mark(l, c, Handled), l.live[c].operation, l.live[c].session)
  {
  }

  lemma DeliverInv(l: Ledger, c: nat, accepted: bool)
    requires Inv(l) && AtStage(l, c, Checked) && l.live[c].session.Some?
    ensures Inv(Deliver(l, c, accepted))
  {
    var id := l.live[c].session.value;
    var reported := Report(Mark(l, c, Handled), OnReceive, id);
    MarkInv(l, c, Handled);
    ReportInv(Mark(l, c, Handled), OnReceive, id);
    NoneAfter(l, c);
    if accepted {
      PostInv(reported, Receive, Some(id));
    }
  }

  lemma ProcessSendInv(l: Ledger, session: Option<nat>, bytes: nat, accepted: bool)
    requires Inv(l) && !l.stopped && NoneFor(l, Send, session)
    ensures Inv(ProcessSend(l, session, bytes, accepted))
  {
    if session.Some? && session.value in l.sessions {
      var p := l.sessions[session.value];
      var left := p.queued - Min(bytes, p.queued);
      if left > 0 {
        var skipped := SetPeer(l, session.value, p.(queued := left));
        SetPeerInv(l, session.value, p.(queued := left));
        PostSendInv(skipped, session.value, accepted);
      } else {
        SetPeerInv(l, session.value, p.(queued := left, sending := false));
      }
    }
  }

  lemma PerformInv(l: Ledger, operation: Operation, session: Option<nat>, ok: bool, bytes: nat, accepted: bool)
    requires Inv(l) && !l.stopped && NoneFor(l, operation, session)
    ensures Inv(Perform(l, operation, session, ok, bytes, accepted))
  {
    if !ok || bytes == 0 {
      ProcessDisconnectInv(l, session);
    } else {
      match operation
      case Accept =>
      case Receive =>
      case Send => ProcessSendInv(l, session, bytes, accepted);
      case Disconnect => ProcessDisconnectInv(l, session);
    }
  }

  lemma DispatchInv(l: Ledger, c: nat, ok: bool, bytes: nat, accepted: bool)
    requires Inv(l) && AtStage(l, c, Taken) && !Accepts(l.live[c].operation, ok, bytes)
    ensures Inv(Dispatch(l, c, ok, bytes, accepted))
  {
    var Context(operation, session, _) := l.live[c];
    assert Active(l, c);
    if Delivers(l, l.live[c], ok, bytes) {
      MarkInv(l, c, Checked);
    } else {
      MarkInv(l, c, Handled);
      assert NoneFor(Mark(l, c, Handled), operation, session);
      PerformInv(Mark(l, c, Handled), operation, session, ok, bytes, accepted);
    }
  }

  lemma RegisterNextInv(l: Ledger, c: nat, a: Accepting)
    requires Inv(l) && AtStage(l, c, Taken) && l.live[c].operation.Accept?
    ensures Inv(RegisterNext(l, c, a))
  {
    assert Active(l, c);
    MarkInv(l, c, Registered);
    assert NoneFor(Mark(l, c, Registered), Accept, None);
    RegisterAcceptInv(Mark(l, c, Registered), a);
  }

  lemma RunningInv(l: Ledger)
    requires Inv(l) && !l.stopped
    ensures Inv(l.(running := true))
    ensures !l.running ==> NoneFor(l.(running := true), Accept, None)
  {
  }

  lemma StartIsAccept(l: Ledger, a: Accepting)
    requires !l.running && a.Ok()
    ensures StartListen(l, true, a) == RegisterAccept(l.(running := true), a)
  {
  }

  lemma StartListenInv(l: Ledger, ready: bool, a: Accepting)
    requires Inv(l) && !l.stopped
    ensures Inv(StartListen(l, ready, a))
  {
    if !l.running && ready {
      if a.Ok() {
        RunningInv(l);
        RegisterAcceptInv(l.(running := true), a);
        StartIsAccept(l, a);
      } else {
        RefusedInv(l);
      }
    }
  }

  lemma ShutdownOwners(l: Ledger)
    requires Addressed(l) && OwnersFit(l) && Quiet(l)
    ensures var after := Shutdown(l);
            Addressed(after) && OwnersFit(after) && OneEach(after)
  {
    forall c | c in Shutdown(l).live ensures !Shutdown(l).live[c].Active() && !Shutdown(l).live[c].stage.Checked? {
      assert c in l.live;
    }
  }

  lemma ShutdownSockets(l: Ledger)
    requires SocketsFit(l) && Quiet(l)
    ensures SocketsFit(Shutdown(l))
  {
    forall c | c in Shutdown(l).live ensures !Shutdown(l).live[c].Pending() {
      assert c in l.live;
    }
  }

  lemma ShutdownInv(l: Ledger)
    requires Inv(l) && Quiet(l)
    ensures Inv(Shutdown(l))
  {
    ShutdownOwners(l);
    ShutdownSockets(l);
    assert Shutdown(l).live.Keys == l.live.Keys;
    assert |Shutdown(l).live| == |Shutdown(l).live.Keys| == |l.live.Keys| == |l.live|;
  }

  lemma StepInv(l: Ledger, e: Event)
    requires Inv(l) && Enabled(l, e)
    ensures Inv(Step(l, e))
  {
    match e
    case Listen(ready, a) => StartListenInv(l, ready, a);
    case SendCall(id, n, accepted) => CallSendInv(l, id, n, accepted);
    case Take(c) => MarkInv(l, c, Taken);
    case Renew(c, a) => RegisterNextInv(l, c, a);
    case Admit(c, a) => AddClientInv(l, c, a);
    case Announce(c) =>
      ReportInv(l, OnAccept, l.live[c].stage.newcomer);
      MarkInv(Report(l, OnAccept, l.live[c].stage.newcomer), c, Handled);
    case Handle(c, ok, bytes, accepted) => DispatchInv(l, c, ok, bytes, accepted);
    case Delivery(c, accepted) => DeliverInv(l, c, accepted);
    case Free(c) => DeallocateInv(l, c);
    case Stop => ShutdownInv(l);
  }

  ghost predicate EnabledRun(l: Ledger, events: seq<Event>)
    decreases |events|
  {
    events == [] || (Enabled(l, events[0]) && EnabledRun(Step(l, events[0]), events[1..]))
  }

  ghost function Run(l: Ledger, events: seq<Event>): Ledger
    requires EnabledRun(l, events)
    decreases |events|
  {
    if events == [] then l else Run(Step(l, events[0]), events[1..])
  }

  lemma {:induction false} RunInv(l: Ledger, events: seq<Event>)
    requires Inv(l) && EnabledRun(l, events)
    ensures Inv(Run(l, events))
    decreases |events|
  {
    if events != [] {
      StepInv(l, events[0]);
      RunInv(Step(l, events[0]), events[1..]);
    }
  }
}
