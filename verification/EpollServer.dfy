/** The epoll model as a whole: which sessions and descriptors there are, and what each session sends. */
module EpollServer {
  import opened Types
  import opened Callbacks
  import opened SessionTable
  import opened SessionGroups
  import M = SendMachine
  import T = EpollTable
  import E = EpollMachine

  /** The socket map, what epoll is asked to report, the sessions for which asking has failed, and what
      the system has taken of the bytes of each session. */
  datatype Wiring = Wiring(table: map<nat, nat>, interest: map<nat, bool>, ctlFailed: set<nat>, taken: map<nat, seq<byte>>)

  /** `pipes` has the send path and `fds` the descriptor of every session ever added. */
  datatype Server = Server(desk: T.Desk, pipes: map<nat, E.State>, wires: Wiring, fds: map<nat, nat>)

  function Initial(maxSessions: nat): Server {
    Server(T.Initial(maxSessions), map[], Wiring(map[], map[], {}, map[]), map[])
  }

  // ---- What the functions do ----

  function NewPipe(registers: bool): E.State {
    E.Initial(2 * MAX_PACKET_SIZE).(mapped := registers)
  }

  function WiredUp(w: Wiring, id: nat, fd: nat, registers: bool): Wiring {
    var begun := w.(taken := w.taken[id := []]);
    if registers then begun.(table := w.table[fd := id], interest := w.interest[fd := false]) else begun
  }

  function Unwired(w: Wiring, fd: nat): Wiring {
    w.(table := w.table - {fd}, interest := w.interest - {fd})
  }

  /** What is asked of epoll after the send path of a session has become `p`. */
  function Rewired(w: Wiring, id: nat, fd: nat, p: E.State): Wiring {
    w.(interest := if fd in w.table && w.table[fd] == id then w.interest[fd := p.interest] else w.interest,
       ctlFailed := if p.ctlFailed then w.ctlFailed + {id} else w.ctlFailed,
       taken := w.taken[id := p.wire])
  }

  function TakenOf(w: Wiring, id: nat): seq<byte> {
    if id in w.taken then w.taken[id] else []
  }

  /** A session's send path, from its ring, what is asked of epoll for its descriptor, and what the
      system has taken. */
  function Wired(w: Wiring, id: nat, fd: nat, session: M.Session): E.State {
    E.State(session, fd in w.interest && w.interest[fd], fd in w.table, id in w.ctlFailed, TakenOf(w, id))
  }

  /** What ModifySocket changes. */
  function Asked(w: Wiring, id: nat, fd: nat, writable: bool, ctlOk: bool): Wiring {
    if fd !in w.table then w
    else if ctlOk then w.(interest := w.interest[fd := writable])
    else w.(ctlFailed := w.ctlFailed + {id})
  }

  /** The wiring with what is asked for one descriptor as in `p`, and the rest as it was. */
  function Tuned(w: Wiring, id: nat, fd: nat, p: E.State): Wiring {
    w.(interest := if fd in w.table then w.interest[fd := p.interest] else w.interest,
       ctlFailed := if p.ctlFailed then w.ctlFailed + {id} else w.ctlFailed,
       taken := w.taken[id := p.wire])
  }

  lemma AskedIsTuned(w: Wiring, id: nat, fd: nat, session: M.Session, writable: bool, ctlOk: bool)
    requires w.table.Keys <= w.interest.Keys && id in w.taken
    ensures var p, after := E.ModifySocket(Wired(w, id, fd, session), writable, ctlOk), Asked(w, id, fd, writable, ctlOk);
            after == Tuned(w, id, fd, p) && p == Wired(after, id, fd, session)
  {
    var p, after := E.ModifySocket(Wired(w, id, fd, session), writable, ctlOk), Asked(w, id, fd, writable, ctlOk);
    assert after.interest == Tuned(w, id, fd, p).interest;
    assert after.ctlFailed == Tuned(w, id, fd, p).ctlFailed;
    assert after.taken == Tuned(w, id, fd, p).taken;
  }

  /** Asking for nothing. */
  lemma UntouchedIsTuned(w: Wiring, id: nat, fd: nat, session: M.Session)
    requires w.table.Keys <= w.interest.Keys && id in w.taken
    ensures Tuned(w, id, fd, Wired(w, id, fd, session)) == w
  {
    var p := Wired(w, id, fd, session);
    assert w.interest == Tuned(w, id, fd, p).interest;
    assert w.ctlFailed == Tuned(w, id, fd, p).ctlFailed;
    assert w.taken == Tuned(w, id, fd, p).taken;
  }

  /** After the system has taken more of a session's bytes. */
  function More(w: Wiring, id: nat, taken: seq<byte>): Wiring {
    w.(taken := w.taken[id := taken])
  }

  lemma MoreIsTuned(w: Wiring, id: nat, fd: nat, session: M.Session, taken: seq<byte>)
    requires w.table.Keys <= w.interest.Keys && id in w.taken
    ensures Tuned(w, id, fd, Wired(More(w, id, taken), id, fd, session)) == More(w, id, taken)
  {
    UntouchedIsTuned(More(w, id, taken), id, fd, session);
    TunedOverMore(w, id, fd, Wired(More(w, id, taken), id, fd, session), taken);
  }

  lemma TunedOverMore(w: Wiring, id: nat, fd: nat, p: E.State, taken: seq<byte>)
    ensures Tuned(More(w, id, taken), id, fd, p) == Tuned(w, id, fd, p)
  {
    assert w.taken[id := taken][id := p.wire] == w.taken[id := p.wire];
  }

  function AcceptClient(s: Server, fd: nat, registers: bool): Server {
    var desk, id := T.AcceptClient(s.desk, fd, registers), NthId(s.desk.adds);
    if |s.desk.peers| >= s.desk.maxSessions then s.(desk := desk)
    else Server(desk, s.pipes[id := NewPipe(registers)], WiredUp(s.wires, id, fd, registers), s.fds[id := fd])
  }

  function AcceptAll(s: Server, replies: seq<T.Incoming>): (after: Server)
    ensures after.desk == T.AcceptAll(s.desk, replies)
    decreases |replies|
  {
    if replies == [] || !replies[0].Client? then s
    else AcceptAll(AcceptClient(s, replies[0].fd, replies[0].registers), replies[1..])
  }

  /** A session that has just left the manager does not send any more. */
  function Hang(s: Server, id: nat, desk: T.Desk): Server
    requires id in s.pipes && id in s.fds
  {
    if id in s.desk.peers && id !in desk.peers then
      Server(desk, s.pipes[id := E.Disconnect(s.pipes[id])], Unwired(s.wires, s.fds[id]), s.fds)
    else s.(desk := desk)
  }

  function SetPipe(s: Server, id: nat, p: E.State): Server
    requires id in s.fds
  {
    s.(pipes := s.pipes[id := p], wires := Rewired(s.wires, id, s.fds[id], p))
  }

  function Send(s: Server, id: nat, caller: nat, data: seq<byte>, ctlOk: bool): (Server, bool)
    requires id in s.pipes && id in s.fds && |s.pipes[id].session.queue| <= s.pipes[id].session.capacity
  {
    var (pipe, ok) := E.Send(s.pipes[id], caller, data, ctlOk);
    (SetPipe(s, id, pipe), ok)
  }

  function ProcessSend(s: Server, id: nat, replies: seq<E.Reply>, ctlOk: bool): Server
    requires id in s.pipes && id in s.fds && T.Known(s.desk, id)
  {
    var (pipe, alive) := E.Loop(s.pipes[id], replies, ctlOk);
    if alive then SetPipe(s, id, pipe) else Hang(SetPipe(s, id, pipe), id, T.DisconnectPeer(s.desk, id))
  }

  // ---- Steps and runs ----

  datatype Event =
    | Change(event: T.Event)
    | CallSend(id: nat, caller: nat, data: seq<byte>, ctlOk: bool)
    | Writable(id: nat, replies: seq<E.Reply>, ctlOk: bool)

  ghost predicate Enabled(s: Server, e: Event) {
    match e
    case Change(event) => T.Enabled(s.desk, event) && (event.Acceptable? || (event.id in s.pipes && event.id in s.fds))
    case CallSend(id, _, _, _) => id in s.pipes && id in s.fds && |s.pipes[id].session.queue| <= s.pipes[id].session.capacity
    case Writable(id, _, _) => id in s.pipes && id in s.fds && T.Registered(s.desk, id) && T.Known(s.desk, id)
  }

  ghost function Step(s: Server, e: Event): Server
    requires Enabled(s, e)
  {
    match e
    case Change(event) =>
      if event.Acceptable? then AcceptAll(s, event.replies) else Hang(s, event.id, T.Step(s.desk, event))
    case CallSend(id, caller, data, ctlOk) => Send(s, id, caller, data, ctlOk).0
    case Writable(id, replies, ctlOk) => ProcessSend(s, id, replies, ctlOk)
  }

  /** A Send of the session leads to `after`, with this result. */
  ghost predicate Sent(s: Server, id: nat, caller: nat, data: seq<byte>, ctlOk: bool, after: Server, ok: bool) {
    Enabled(s, CallSend(id, caller, data, ctlOk)) && (after, ok) == Send(s, id, caller, data, ctlOk)
  }

  ghost predicate EnabledRun(s: Server, events: seq<Event>)
    decreases |events|
  {
    events == [] || (Enabled(s, events[0]) && EnabledRun(Step(s, events[0]), events[1..]))
  }

  ghost function Run(s: Server, events: seq<Event>): Server
    requires EnabledRun(s, events)
    decreases |events|
  {
    if events == [] then s else Run(Step(s, events[0]), events[1..])
  }

  // ---- The invariant ----

  /** A send path in order, of a session that can still send or not. */
  ghost predicate PipeFits(p: E.State, live: bool) {
    E.Inv(p) && p.mapped == live && (p.interest ==> p.mapped)
  }

  ghost predicate PipesFit(pipes: map<nat, E.State>, ids: set<nat>, live: set<nat>) {
    pipes.Keys == ids && forall id | id in pipes :: PipeFits(pipes[id], id in live)
  }

  /** The sessions that can still send: those in the manager, but for the ones that failed to register. */
  ghost function Live(d: T.Desk): set<nat> {
    d.peers.Keys - d.unregistered
  }

  /** Every session has a send path in order, and is watched only while it is registered and not
      disconnected. */
  ghost predicate Fits(s: Server) {
    PipesFit(s.pipes, s.desk.lives.Keys, Live(s.desk))
  }

  ghost predicate Inv(s: Server) {
    T.Inv(s.desk) && Fits(s) && WiresFit(s)
  }

  function PipeOf(w: Wiring, id: nat, fd: nat, session: M.Session): E.State {
    var mapped := fd in w.table && w.table[fd] == id;
    E.State(session, mapped && fd in w.interest && w.interest[fd], mapped, id in w.ctlFailed, TakenOf(w, id))
  }

  /** The wiring shows the send paths of the sessions with these descriptors. */
  ghost predicate Shows(w: Wiring, fds: map<nat, nat>, pipes: map<nat, E.State>) {
    && fds.Keys == pipes.Keys
    && w.interest.Keys == w.table.Keys && w.taken.Keys == pipes.Keys
    && w.ctlFailed <= pipes.Keys
    && (forall fd | fd in w.table :: w.table[fd] in fds && fds[w.table[fd]] == fd)
    && forall id | id in pipes :: pipes[id] == PipeOf(w, id, fds[id], pipes[id].session)
  }

  ghost predicate WiresFit(s: Server) {
    && Shows(s.wires, s.fds, s.pipes)
    && s.wires.table == s.desk.table
    && SocketsFit(s.fds, s.desk.peers)
  }

  ghost predicate SocketsFit(fds: map<nat, nat>, peers: map<nat, nat>) {
    forall id | id in peers :: id in fds && fds[id] == peers[id]
  }

  lemma ShowsOne(w: Wiring, fds: map<nat, nat>, pipes: map<nat, E.State>, id: nat, p: E.State)
    requires Shows(w, fds, pipes) && id in pipes
    requires p.mapped == pipes[id].mapped && (p.interest ==> p.mapped) && (pipes[id].ctlFailed ==> p.ctlFailed)
    ensures Shows(Rewired(w, id, fds[id], p), fds, pipes[id := p])
  {
    forall other | other in pipes ensures pipes[id := p][other] == PipeOf(Rewired(w, id, fds[id], p), other, fds[other],
                                                                          pipes[id := p][other].session) {
      if other == id {
        ItsPipe(w, id, fds[id], p);
      } else {
        OtherPipe(w, id, fds[id], p, other, fds[other], pipes[other].session);
      }
    }
  }

  lemma ItsPipe(w: Wiring, id: nat, fd: nat, p: E.State)
    requires p.mapped == (fd in w.table && w.table[fd] == id) && (p.interest ==> p.mapped)
    requires id in w.ctlFailed ==> p.ctlFailed
    ensures PipeOf(Rewired(w, id, fd, p), id, fd, p.session) == p
  {
  }

  lemma OtherPipe(w: Wiring, id: nat, fd: nat, p: E.State, other: nat, itsFd: nat, session: M.Session)
    requires other != id
    ensures PipeOf(Rewired(w, id, fd, p), other, itsFd, session) == PipeOf(w, other, itsFd, session)
  {
  }

  lemma ShowsDisconnect(w: Wiring, fds: map<nat, nat>, pipes: map<nat, E.State>, id: nat)
    requires Shows(w, fds, pipes) && id in pipes && fds[id] in w.table && w.table[fds[id]] == id
    ensures Shows(Unwired(w, fds[id]), fds, pipes[id := E.Disconnect(pipes[id])])
  {
  }

  lemma ShowsNew(w: Wiring, fds: map<nat, nat>, pipes: map<nat, E.State>, id: nat, fd: nat, registers: bool)
    requires Shows(w, fds, pipes) && id !in pipes && fd !in w.table
    ensures Shows(WiredUp(w, id, fd, registers), fds[id := fd], pipes[id := NewPipe(registers)])
  {
  }

  lemma OnePipe(pipes: map<nat, E.State>, ids: set<nat>, live: set<nat>, id: nat, p: E.State, still: set<nat>)
    requires PipesFit(pipes, ids, live) && PipeFits(p, id in still)
    requires still == live || still == live - {id} || still == live + {id}
    ensures PipesFit(pipes[id := p], ids + {id}, still)
  {
  }

  lemma AcceptRoll(d: T.Desk, fd: nat, registers: bool)
    requires T.IsNew(d, fd, NthId(d.adds))
    ensures var after, id := T.AcceptClient(d, fd, registers), NthId(d.adds);
            if |d.peers| >= d.maxSessions then
              after.lives == d.lives && Live(after) == Live(d)
            else
              && after.lives.Keys == d.lives.Keys + {id}
              && Live(after) == if registers then Live(d) + {id} else Live(d)
  {
    T.AcceptClientIs(d, fd, registers);
    if |d.peers| < d.maxSessions {
      AdmitRoll(d, fd, NthId(d.adds), registers);
    }
  }

  lemma AdmitRoll(d: T.Desk, fd: nat, id: nat, registers: bool)
    requires id !in d.peers && id !in d.unregistered
    ensures var after := T.Admit(d, fd, id, registers);
            && after.lives.Keys == d.lives.Keys + {id}
            && Live(after) == if registers then Live(d) + {id} else Live(d)
  {
    var after := T.Admit(d, fd, id, registers);
    assert after.peers.Keys == d.peers.Keys + {id};
    assert after.unregistered == if registers then d.unregistered else d.unregistered + {id};
  }

  /** What a new connection does to the tables. */
  lemma AcceptTables(d: T.Desk, fd: nat, registers: bool)
    requires T.IsNew(d, fd, NthId(d.adds))
    ensures var after, id := T.AcceptClient(d, fd, registers), NthId(d.adds);
            if |d.peers| >= d.maxSessions then
              after.table == d.table && after.peers == d.peers
            else
              && after.table == (if registers then d.table[fd := id] else d.table)
              && after.peers == d.peers[id := fd]
  {
    T.AcceptClientIs(d, fd, registers);
  }

  /** What Register does to the socket map and to epoll comes to nothing when epoll refuses. */
  lemma Registering(w: Wiring, id: nat, fd: nat, registers: bool)
    requires fd !in w.table && fd !in w.interest
    ensures WiredUp(w, id, fd, registers).table
         == if registers then w.table[fd := id] else w.table[fd := id] - {fd}
    ensures WiredUp(w, id, fd, registers).interest
         == if registers then w.interest[fd := false] else w.interest - {fd}
  {
  }

  lemma AcceptClientWires(s: Server, fd: nat, registers: bool)
    requires Fits(s) && WiresFit(s) && T.IsNew(s.desk, fd, NthId(s.desk.adds))
    ensures WiresFit(AcceptClient(s, fd, registers))
  {
    AcceptTables(s.desk, fd, registers);
    if |s.desk.peers| < s.desk.maxSessions {
      ShowsNew(s.wires, s.fds, s.pipes, NthId(s.desk.adds), fd, registers);
      SocketsFitOne(s.fds, s.desk.peers, NthId(s.desk.adds), fd);
    }
  }

  lemma SocketsFitOne(fds: map<nat, nat>, peers: map<nat, nat>, id: nat, fd: nat)
    requires SocketsFit(fds, peers)
    ensures SocketsFit(fds[id := fd], peers[id := fd])
  {
  }

  lemma NewPipeFits(registers: bool)
    ensures PipeFits(NewPipe(registers), registers)
  {
    E.InitialInv(2 * MAX_PACKET_SIZE);
  }

  lemma AcceptClientFits(s: Server, fd: nat, registers: bool)
    requires Fits(s) && T.IsNew(s.desk, fd, NthId(s.desk.adds))
    ensures Fits(AcceptClient(s, fd, registers))
  {
    var id := NthId(s.desk.adds);
    AcceptRoll(s.desk, fd, registers);
    if |s.desk.peers| < s.desk.maxSessions {
      NewPipeFits(registers);
      OnePipe(s.pipes, s.desk.lives.Keys, Live(s.desk), id, NewPipe(registers),
              if registers then Live(s.desk) + {id} else Live(s.desk));
    }
  }

  lemma AcceptClientInv(s: Server, fd: nat, registers: bool)
    requires Inv(s) && fd !in s.desk.open && s.desk.adds < ID_RANGE - 1
    ensures Inv(AcceptClient(s, fd, registers)) && T.IsNew(s.desk, fd, NthId(s.desk.adds))
  {
    T.AcceptInv(s.desk, fd, registers);
    T.ItIsNew(s.desk, fd);
    AcceptClientFits(s, fd, registers);
    AcceptClientWires(s, fd, registers);
  }

  lemma {:induction false} AcceptAllInv(s: Server, replies: seq<T.Incoming>)
    requires Inv(s) && T.AcceptsClosed(s.desk, replies)
    ensures Inv(AcceptAll(s, replies))
    decreases |replies|
  {
    if replies != [] && replies[0].Client? {
      AcceptClientInv(s, replies[0].fd, replies[0].registers);
      AcceptAllInv(AcceptClient(s, replies[0].fd, replies[0].registers), replies[1..]);
    }
  }

  /** The only session a receive or disconnect can take out of the manager is its own. */
  ghost predicate RollsOn(d: T.Desk, after: T.Desk, id: nat) {
    && after.lives.Keys == d.lives.Keys && after.unregistered == d.unregistered
    && if id in d.peers && id !in after.peers then
         after.peers == d.peers - {id} && after.table == d.table - {d.peers[id]}
       else
         after.peers == d.peers && after.table == d.table
  }

  lemma DisconnectRoll(d: T.Desk, id: nat)
    requires T.Known(d, id)
    ensures RollsOn(d, T.DisconnectPeer(d, id), id)
  {
  }

  lemma {:induction false} ReceiveRoll(d: T.Desk, id: nat, replies: seq<T.Reply>)
    requires T.Known(d, id)
    ensures RollsOn(d, T.ReceiveAll(d, id, replies), id)
    decreases |replies|
  {
    match if replies == [] then T.Again else replies[0]
    case Data => ReceiveRoll(T.Call(d, id, OnReceive), id, replies[1..]);
    case Again =>
    case _ => DisconnectRoll(d, id);
  }

  lemma HangWires(s: Server, id: nat, desk: T.Desk)
    requires WiresFit(s) && id in s.pipes && RollsOn(s.desk, desk, id)
    requires id in s.desk.peers ==> s.desk.peers[id] in s.desk.table && s.desk.table[s.desk.peers[id]] == id
    ensures WiresFit(Hang(s, id, desk))
  {
    if id in s.desk.peers && id !in desk.peers {
      ShowsDisconnect(s.wires, s.fds, s.pipes, id);
    }
  }

  lemma HangFits(s: Server, id: nat, desk: T.Desk)
    requires Fits(s) && id in s.pipes && id in s.fds && id !in s.desk.unregistered && RollsOn(s.desk, desk, id)
    ensures Fits(Hang(s, id, desk))
  {
    assert s.desk.lives.Keys + {id} == s.desk.lives.Keys;
    if id in s.desk.peers && id !in desk.peers {
      assert Live(desk) == Live(s.desk) - {id};
      OnePipe(s.pipes, s.desk.lives.Keys, Live(s.desk), id, E.Disconnect(s.pipes[id]), Live(desk));
    } else {
      assert desk.peers.Keys == s.desk.peers.Keys;
      assert Live(desk) == Live(s.desk);
    }
  }

  lemma TableInv(s: Server, e: T.Event)
    requires Inv(s) && Enabled(s, Change(e))
    ensures Inv(Step(s, Change(e)))
  {
    match e
    case Acceptable(replies) => AcceptAllInv(s, replies);
    case Readable(id, replies) =>
      T.StepInv(s.desk, e);
      ReceiveRoll(s.desk, id, replies);
      HangFits(s, id, T.Step(s.desk, e));
      Mapped(s.desk, id);
      HangWires(s, id, T.Step(s.desk, e));
    case Hangup(id) =>
      T.StepInv(s.desk, e);
      DisconnectRoll(s.desk, id);
      HangFits(s, id, T.Step(s.desk, e));
      Mapped(s.desk, id);
      HangWires(s, id, T.Step(s.desk, e));
  }

  lemma Mapped(d: T.Desk, id: nat)
    requires T.Inv(d) && T.Registered(d, id)
    ensures id in d.peers ==> d.peers[id] in d.table && d.table[d.peers[id]] == id
  {
  }

  lemma SetPipeFits(s: Server, id: nat, p: E.State)
    requires Fits(s) && id in s.pipes && id in s.fds && PipeFits(p, id in Live(s.desk))
    ensures Fits(SetPipe(s, id, p))
  {
    OnePipe(s.pipes, s.desk.lives.Keys, Live(s.desk), id, p, Live(s.desk));
    assert s.desk.lives.Keys + {id} == s.desk.lives.Keys;
  }

  lemma SetPipeWires(s: Server, id: nat, p: E.State)
    requires WiresFit(s) && id in s.pipes
    requires p.mapped == s.pipes[id].mapped && (p.interest ==> p.mapped) && (s.pipes[id].ctlFailed ==> p.ctlFailed)
    ensures WiresFit(SetPipe(s, id, p))
  {
    ShowsOne(s.wires, s.fds, s.pipes, id, p);
  }

  lemma SendFits(p: E.State, live: bool, caller: nat, data: seq<byte>, ctlOk: bool)
    requires PipeFits(p, live)
    ensures var after := E.Send(p, caller, data, ctlOk).0;
            PipeFits(after, live) && after.mapped == p.mapped && (p.ctlFailed ==> after.ctlFailed)
  {
    E.SendInv(p, caller, data, ctlOk);
  }

  lemma SendInv(s: Server, id: nat, caller: nat, data: seq<byte>, ctlOk: bool)
    requires Inv(s) && Enabled(s, CallSend(id, caller, data, ctlOk))
    ensures Inv(Send(s, id, caller, data, ctlOk).0)
  {
    var p := E.Send(s.pipes[id], caller, data, ctlOk).0;
    SendFits(s.pipes[id], id in Live(s.desk), caller, data, ctlOk);
    SetPipeFits(s, id, p);
    SetPipeWires(s, id, p);
    assert Send(s, id, caller, data, ctlOk).0 == SetPipe(s, id, p);
  }

  lemma LoopFits(p: E.State, live: bool, replies: seq<E.Reply>, ctlOk: bool)
    requires PipeFits(p, live)
    ensures var after := E.Loop(p, replies, ctlOk).0;
            PipeFits(after, live) && after.mapped == p.mapped && (p.ctlFailed ==> after.ctlFailed)
  {
    E.ProcessSendExits(p, replies, ctlOk);
  }

  /** A send loop that fails is one that ends, and a hang-up. */
  lemma ProcessSendInTwo(s: Server, id: nat, replies: seq<E.Reply>, ctlOk: bool)
    requires Enabled(s, Writable(id, replies, ctlOk))
    ensures var (p, alive) := E.Loop(s.pipes[id], replies, ctlOk);
            var pushed := SetPipe(s, id, p);
            && Enabled(pushed, Change(T.Hangup(id)))
            && ProcessSend(s, id, replies, ctlOk) == if alive then pushed else Step(pushed, Change(T.Hangup(id)))
  {
  }

  lemma PushInv(s: Server, id: nat, replies: seq<E.Reply>, ctlOk: bool)
    requires Inv(s) && id in s.pipes && id in s.fds
    ensures Inv(SetPipe(s, id, E.Loop(s.pipes[id], replies, ctlOk).0))
  {
    LoopFits(s.pipes[id], id in Live(s.desk), replies, ctlOk);
    SetPipeFits(s, id, E.Loop(s.pipes[id], replies, ctlOk).0);
    SetPipeWires(s, id, E.Loop(s.pipes[id], replies, ctlOk).0);
  }

  lemma ProcessSendInv(s: Server, id: nat, replies: seq<E.Reply>, ctlOk: bool)
    requires Inv(s) && Enabled(s, Writable(id, replies, ctlOk))
    ensures Inv(ProcessSend(s, id, replies, ctlOk))
  {
    PushInv(s, id, replies, ctlOk);
    ProcessSendInTwo(s, id, replies, ctlOk);
    TableInv(SetPipe(s, id, E.Loop(s.pipes[id], replies, ctlOk).0), T.Hangup(id));
  }

  lemma StepInv(s: Server, e: Event)
    requires Inv(s) && Enabled(s, e)
    ensures Inv(Step(s, e))
  {
    match e
    case Change(event) => TableInv(s, event);
    case CallSend(id, caller, data, ctlOk) => SendInv(s, id, caller, data, ctlOk);
    case Writable(id, replies, ctlOk) => ProcessSendInv(s, id, replies, ctlOk);
  }

  lemma {:induction false} RunInv(s: Server, events: seq<Event>)
    requires Inv(s) && EnabledRun(s, events)
    ensures Inv(Run(s, events))
    decreases |events|
  {
    if events != [] {
      StepInv(s, events[0]);
      RunInv(Step(s, events[0]), events[1..]);
    }
  }

  /** A run goes on. */
  lemma {:induction false} RunOn(s: Server, events: seq<Event>, e: Event)
    requires EnabledRun(s, events) && Enabled(Run(s, events), e)
    ensures EnabledRun(s, events + [e]) && Run(s, events + [e]) == Step(Run(s, events), e)
    decreases |events|
  {
    var more := events + [e];
    if events == [] {
      assert more == [e] && more[1..] == [];
      assert Run(s, more) == Run(Step(s, e), []);
    } else {
      assert more[1..] == events[1..] + [e];
      RunOn(Step(s, events[0]), events[1..], e);
    }
  }

  /** The state a run of events from the start has led to. */
  ghost predicate Reached(s: Server, past: seq<Event>) {
    EnabledRun(Initial(s.desk.maxSessions), past) && s == Run(Initial(s.desk.maxSessions), past)
  }

  lemma ReachedInitially(maxSessions: nat)
    ensures Reached(Initial(maxSessions), []) && Inv(Initial(maxSessions))
  {
    T.Initially(maxSessions);
  }

  lemma ReachedInv(s: Server, past: seq<Event>)
    requires Reached(s, past)
    ensures Inv(s)
  {
    ReachedInitially(s.desk.maxSessions);
    RunInv(Initial(s.desk.maxSessions), past);
  }

  lemma StepKeepsMax(s: Server, e: Event)
    requires Enabled(s, e)
    ensures Step(s, e).desk.maxSessions == s.desk.maxSessions
  {
    if e.Change? {
      T.StepKeepsMax(s.desk, e.event);
    }
  }

  lemma ReachedOn(s: Server, past: seq<Event>, e: Event)
    requires Reached(s, past) && Enabled(s, e)
    ensures Reached(Step(s, e), past + [e])
  {
    StepKeepsMax(s, e);
    RunOn(Initial(s.desk.maxSessions), past, e);
  }

  // ---- Sessions do not disturb each other ----

  /** The event is one of the session's own send path. */
  ghost function OwnEvent(s: Server, e: Event, id: nat): Option<E.Event>
    requires Enabled(s, e)
  {
    match e
    case Change(_) => if id in s.desk.peers && id !in Step(s, e).desk.peers then Some(E.Hangup) else None
    case CallSend(other, caller, data, ctlOk) => if other == id then Some(E.CallSend(caller, data, ctlOk)) else None
    case Writable(other, replies, ctlOk) => if other == id then Some(E.Writable(replies, ctlOk)) else None
  }

  /** The session and its send path are as they were. */
  ghost predicate Leaves(s: Server, after: Server, id: nat) {
    && (id in s.pipes <==> id in after.pipes) && (id in s.pipes ==> after.pipes[id] == s.pipes[id])
    && (id in after.desk.peers <==> id in s.desk.peers)
  }

  lemma AcceptClientLeaves(s: Server, fd: nat, registers: bool, id: nat)
    requires id != NthId(s.desk.adds)
    ensures Leaves(s, AcceptClient(s, fd, registers), id)
  {
  }

  lemma NewIdIsNot(s: Server, fd: nat, id: nat)
    requires Inv(s) && fd !in s.desk.open && s.desk.adds < ID_RANGE - 1 && id in s.pipes
    ensures id != NthId(s.desk.adds)
  {
    T.ItIsNew(s.desk, fd);
  }

  lemma {:induction false} AcceptLeaves(s: Server, replies: seq<T.Incoming>, id: nat)
    requires Inv(s) && T.AcceptsClosed(s.desk, replies) && id in s.pipes
    ensures Leaves(s, AcceptAll(s, replies), id)
    decreases |replies|
  {
    if replies != [] && replies[0].Client? {
      var next := AcceptClient(s, replies[0].fd, replies[0].registers);
      NewIdIsNot(s, replies[0].fd, id);
      AcceptClientLeaves(s, replies[0].fd, replies[0].registers, id);
      AcceptClientInv(s, replies[0].fd, replies[0].registers);
      AcceptLeaves(next, replies[1..], id);
      LeavesOn(s, next, AcceptAll(s, replies), id);
    }
  }

  lemma LeavesOn(s: Server, next: Server, after: Server, id: nat)
    requires Leaves(s, next, id) && Leaves(next, after, id)
    ensures Leaves(s, after, id)
  {
  }

  lemma HangAlone(s: Server, id: nat, desk: T.Desk, other: nat)
    requires id in s.pipes && id in s.fds && other in s.pipes && RollsOn(s.desk, desk, id)
    ensures var after := Hang(s, id, desk);
            && other in after.pipes
            && after.pipes[other] == if other in s.desk.peers && other !in desk.peers then E.Disconnect(s.pipes[other])
                                     else s.pipes[other]
  {
  }

  lemma TableRoll(d: T.Desk, e: T.Event)
    requires T.Enabled(d, e) && !e.Acceptable?
    ensures RollsOn(d, T.Step(d, e), e.id)
  {
    match e
    case Readable(id, replies) => ReceiveRoll(d, id, replies);
    case Hangup(id) => DisconnectRoll(d, id);
  }

  ghost predicate MovesAlone(s: Server, e: Event, id: nat)
    requires Enabled(s, e)
  {
    id in s.pipes ==>
      && id in Step(s, e).pipes
      && match OwnEvent(s, e, id)
         case None => Step(s, e).pipes[id] == s.pipes[id]
         case Some(own) => E.Enabled(s.pipes[id], own) ==> Step(s, e).pipes[id] == E.Step(s.pipes[id], own)
  }

  lemma TableMovesAlone(s: Server, e: T.Event, id: nat)
    requires Enabled(s, Change(e)) && !e.Acceptable?
    ensures MovesAlone(s, Change(e), id)
  {
    if id in s.pipes {
      TableRoll(s.desk, e);
      HangAlone(s, e.id, T.Step(s.desk, e), id);
    }
  }

  lemma SendMovesAlone(s: Server, e: Event, id: nat)
    requires Enabled(s, e) && e.CallSend?
    ensures MovesAlone(s, e, id)
  {
  }

  lemma WritableMovesAlone(s: Server, e: Event, id: nat)
    requires Enabled(s, e) && e.Writable?
    requires s.pipes[e.id].mapped ==> e.id in s.desk.peers && T.StateOf(s.desk, e.id) == Connected
    ensures MovesAlone(s, e, id)
  {
  }

  /** Whatever happens in the server, a session's send path makes a step of its own or none. */
  lemma PipesMoveAlone(s: Server, e: Event, id: nat)
    requires Inv(s) && Enabled(s, e)
    ensures MovesAlone(s, e, id)
  {
    if e.CallSend? {
      SendMovesAlone(s, e, id);
    } else if e.Writable? {
      RegisteredSession(s, e.id);
      WritableMovesAlone(s, e, id);
    } else if !e.event.Acceptable? {
      TableMovesAlone(s, e.event, id);
    } else if id in s.pipes {
      AcceptLeaves(s, e.event.replies, id);
    }
  }

  /** A run whose Sends and writability events are for sessions that can have them. */
  ghost predicate Proper(s: Server, events: seq<Event>, id: nat)
    requires id in s.pipes && EnabledRun(s, events) && Inv(s)
    decreases |events|
  {
    events != [] ==>
      && (var own := OwnEvent(s, events[0], id); own.Some? ==> E.Enabled(s.pipes[id], own.value))
      && id in Step(s, events[0]).pipes && Inv(Step(s, events[0]))
      && Proper(Step(s, events[0]), events[1..], id)
  }

  ghost function OwnRun(s: Server, events: seq<Event>, id: nat): seq<E.Event>
    requires EnabledRun(s, events)
    decreases |events|
  {
    if events == [] then []
    else
      (match OwnEvent(s, events[0], id) case None => [] case Some(own) => [own]) +
      OwnRun(Step(s, events[0]), events[1..], id)
  }

  /** In a server with any number of sessions, each session's send path goes through a run of its own
      machine, so that everything proved of those runs holds of it. */
  lemma {:induction false} PipesRunAlone(s: Server, events: seq<Event>, id: nat)
    requires Inv(s) && EnabledRun(s, events) && id in s.pipes && Proper(s, events, id)
    ensures id in Run(s, events).pipes
    ensures E.EnabledRun(s.pipes[id], OwnRun(s, events, id))
    ensures E.Run(s.pipes[id], OwnRun(s, events, id)) == Run(s, events).pipes[id]
    decreases |events|
  {
    if events != [] {
      var next := Step(s, events[0]);
      PipesMoveAlone(s, events[0], id);
      PipesRunAlone(next, events[1..], id);
      OwnRunStarts(s, events, id);
    }
  }

  lemma OwnRunStarts(s: Server, events: seq<Event>, id: nat)
    requires EnabledRun(s, events) && events != []
    ensures var own, rest := OwnRun(s, events, id), OwnRun(Step(s, events[0]), events[1..], id);
            match OwnEvent(s, events[0], id)
            case None => own == rest
            case Some(e) => own != [] && own[0] == e && own[1..] == rest
  {
  }

  // ---- What is known of each session ----

  function StateIn(lives: map<nat, seq<SessionState>>, id: nat): SessionState {
    if id in lives && lives[id] != [] then lives[id][|lives[id]| - 1] else Idle
  }

  function Look(lives: map<nat, seq<SessionState>>, pipes: map<nat, E.State>): map<nat, Seen> {
    map id | id in pipes :: Seen(StateIn(lives, id), pipes[id].session)
  }

  function SeenOf(s: Server): (seen: map<nat, Seen>)
    ensures seen.Keys == s.pipes.Keys
    ensures forall id | id in seen :: seen[id] == Seen(T.StateOf(s.desk, id), s.pipes[id].session)
  {
    Look(s.desk.lives, s.pipes)
  }

  lemma LookNew(lives: map<nat, seq<SessionState>>, pipes: map<nat, E.State>, id: nat, life: seq<SessionState>, p: E.State)
    requires life != []
    ensures Look(lives[id := life], pipes[id := p]) == Look(lives, pipes)[id := Seen(life[|life| - 1], p.session)]
  {
  }

  lemma PipeSeen(s: Server, id: nat, p: E.State)
    requires id in s.pipes && id in s.fds
    ensures SeenOf(SetPipe(s, id, p)) == SeenOf(s)[id := Seen(T.StateOf(s.desk, id), p.session)]
  {
  }

  lemma AcceptLives(d: T.Desk, fd: nat, registers: bool)
    requires T.IsNew(d, fd, NthId(d.adds))
    ensures T.AcceptClient(d, fd, registers).lives ==
              if |d.peers| >= d.maxSessions then d.lives else d.lives[NthId(d.adds) := [Idle, Connected]]
  {
    T.AcceptClientIs(d, fd, registers);
  }

  lemma AcceptSeen(s: Server, fd: nat, registers: bool)
    requires T.IsNew(s.desk, fd, NthId(s.desk.adds))
    ensures SeenOf(AcceptClient(s, fd, registers)) ==
              if |s.desk.peers| >= s.desk.maxSessions then SeenOf(s)
              else SeenOf(s)[NthId(s.desk.adds) := Seen(Connected, NewPipe(registers).session)]
  {
    AcceptLives(s.desk, fd, registers);
    LookNew(s.desk.lives, s.pipes, NthId(s.desk.adds), [Idle, Connected], NewPipe(registers));
  }

  lemma HangSeen(s: Server, id: nat)
    requires id in s.pipes && id in s.fds && id in s.desk.lives && id in s.desk.peers && T.StateOf(s.desk, id) != Disconnected
    ensures SeenOf(Hang(s, id, T.DisconnectPeer(s.desk, id)))
         == SeenOf(s)[id := Seen(Disconnected, s.pipes[id].session)]
  {
    LookNew(s.desk.lives, s.pipes, id, T.Life(s.desk, id) + [Disconnected], E.Disconnect(s.pipes[id]));
  }

  /** The accepts find only new descriptors and ids. */
  ghost predicate AcceptsNew(s: Server, replies: seq<T.Incoming>)
    decreases |replies|
  {
    replies != [] && replies[0].Client? ==>
      && T.IsNew(s.desk, replies[0].fd, NthId(s.desk.adds)) && s.desk.adds < ID_RANGE - 1
      && NthId(s.desk.adds) !in s.fds && replies[0].fd !in s.wires.table && replies[0].fd !in s.wires.interest
      && AcceptsNew(AcceptClient(s, replies[0].fd, replies[0].registers), replies[1..])
  }

  lemma {:induction false} TheyAreNew(s: Server, replies: seq<T.Incoming>)
    requires Inv(s) && T.AcceptsClosed(s.desk, replies)
    ensures AcceptsNew(s, replies)
    decreases |replies|
  {
    if replies != [] && replies[0].Client? {
      AcceptClientInv(s, replies[0].fd, replies[0].registers);
      TheyAreNew(AcceptClient(s, replies[0].fd, replies[0].registers), replies[1..]);
    }
  }

  /** What the laws say of a registered session. */
  lemma RegisteredSession(s: Server, id: nat)
    requires Inv(s) && T.Registered(s.desk, id)
    ensures id in s.pipes && id in s.fds && T.Known(s.desk, id)
    ensures T.StateOf(s.desk, id) == Connected || T.StateOf(s.desk, id) == Disconnected
    ensures id in s.desk.peers <==> T.StateOf(s.desk, id) == Connected
    ensures id in s.desk.peers ==> s.desk.peers[id] in s.desk.table && s.desk.table[s.desk.peers[id]] == id
    ensures s.pipes[id].mapped <==> T.StateOf(s.desk, id) == Connected
    ensures s.pipes[id].interest ==> s.pipes[id].mapped
    ensures s.pipes[id] == PipeOf(s.wires, id, s.fds[id], s.pipes[id].session)
    ensures id in s.desk.peers ==> s.fds[id] == s.desk.peers[id]
  {
  }

  lemma AsWired(w: Wiring, fds: map<nat, nat>, pipes: map<nat, E.State>, id: nat)
    requires Shows(w, fds, pipes) && id in pipes
    ensures Rewired(w, id, fds[id], pipes[id]) == w
  {
    assert Rewired(w, id, fds[id], pipes[id]).interest == w.interest;
    assert Rewired(w, id, fds[id], pipes[id]).ctlFailed == w.ctlFailed;
    assert Rewired(w, id, fds[id], pipes[id]).taken == w.taken;
  }

  /** Setting a send path to what it is changes nothing. */
  lemma PipeIsAsWired(s: Server, id: nat)
    requires WiresFit(s) && id in s.pipes
    ensures id in s.fds && SetPipe(s, id, s.pipes[id]) == s
  {
    AsWired(s.wires, s.fds, s.pipes, id);
    assert s.pipes[id := s.pipes[id]] == s.pipes;
  }

  /** The event `e` has led to `now` so far, and stops there, or goes on to disconnect session `id`. */
  ghost predicate Ends(s: Server, e: Event, id: nat, now: Server, stops: bool) {
    && Enabled(s, e)
    && if stops then now == Step(s, e)
       else
         && id in now.pipes && id in now.fds && id in now.desk.peers
         && T.Known(now.desk, id) && T.StateOf(now.desk, id) == Connected
         && Step(s, e) == Hang(now, id, T.DisconnectPeer(now.desk, id))
  }

  lemma HangupEnds(s: Server, id: nat)
    requires Enabled(s, Change(T.Hangup(id))) && id in s.desk.peers && T.StateOf(s.desk, id) == Connected
    ensures Ends(s, Change(T.Hangup(id)), id, s, false)
  {
  }

  /** What a receive comes to, from what its loop has done. */
  lemma ReceiveEnds(s: Server, id: nat, replies: seq<T.Reply>, closed: bool, desk: T.Desk)
    requires Enabled(s, Change(T.Readable(id, replies))) && id in s.desk.peers && T.StateOf(s.desk, id) == Connected
    requires desk == s.desk.(histories := desk.histories) && T.Known(desk, id)
    requires T.ReceiveAll(s.desk, id, replies) == if closed then T.DisconnectPeer(desk, id) else desk
    ensures Ends(s, Change(T.Readable(id, replies)), id, s.(desk := desk), !closed)
  {
  }

  /** What a writability event comes to, from how its loop ends. */
  lemma ProcessSendEnds(s: Server, id: nat, replies: seq<E.Reply>, ctlOk: bool)
    requires Enabled(s, Writable(id, replies, ctlOk))
    requires T.StateOf(s.desk, id) == Disconnected || (T.StateOf(s.desk, id) == Connected && id in s.desk.peers)
    ensures var (p, alive) := E.Loop(s.pipes[id], replies, ctlOk);
            Ends(s, Writable(id, replies, ctlOk), id, SetPipe(s, id, p), alive || T.StateOf(s.desk, id) == Disconnected)
  {
  }
}
