/** Which client descriptors, table entries and sessions the epoll model has, event by event. */
module EpollTable {
  import opened Types
  import opened Callbacks
  import opened SessionTable
  import opened Counting

  datatype Desk = Desk(
    maxSessions: nat,
    adds: nat,
    peers: map<nat, nat>,                 // the session manager: sockets of the live sessions by id
    table: map<nat, nat>,                 // mSocketToSession: session ids by descriptor
    watched: set<nat>,                    // client descriptors epoll watches
    open: set<nat>,                       // client descriptors that are open
    lives: map<nat, seq<SessionState>>,   // the states each session has gone through
    histories: map<nat, seq<Callback>>,   // the callbacks made for each session that had any
    unregistered: set<nat>,               // sessions that could not be registered with epoll
    accepts: nat,                         // client descriptors ever opened
    closes: nat                           // calls of close on client descriptors
  )

  function Initial(maxSessions: nat): Desk {
    Desk(maxSessions, 0, map[], map[], {}, {}, map[], map[], {}, 0, 0)
  }

  // ---- What the functions do ----

  function History(d: Desk, id: nat): seq<Callback> {
    if id in d.histories then d.histories[id] else []
  }

  function Call(d: Desk, id: nat, c: Callback): Desk {
    d.(histories := d.histories[id := History(d, id) + [c]])
  }

  function Life(d: Desk, id: nat): seq<SessionState> {
    if id in d.lives then d.lives[id] else []
  }

  /** The state a session is in, whether or not it is still in the manager. */
  function StateOf(d: Desk, id: nat): SessionState {
    if Life(d, id) == [] then Idle else Life(d, id)[|Life(d, id)| - 1]
  }

  function SetState(d: Desk, id: nat, state: SessionState): Desk {
    d.(lives := d.lives[id := Life(d, id) + [state]])
  }

  /** close, after which epoll does not watch the descriptor any more. */
  function Close(d: Desk, fd: nat): Desk {
    d.(watched := d.watched - {fd}, open := d.open - {fd}, closes := d.closes + 1)
  }

  /** CloseSession: the session itself stays in the manager. */
  function CloseSession(d: Desk, fd: nat): Desk {
    Close(d.(table := d.table - {fd}), fd)
  }

  /** One turn of the loop of ProcessAccept, for a connection that came with descriptor `fd`. */
  function AcceptClient(d: Desk, fd: nat, registers: bool): Desk {
    var grown := d.(open := d.open + {fd}, accepts := d.accepts + 1);
    if |d.peers| >= d.maxSessions then
      Close(grown, fd)
    else
      var id := NthId(d.adds);
      var added := grown.(peers := d.peers[id := fd], adds := d.adds + 1, lives := d.lives[id := [Idle]]);
      Register(added, fd, id, registers)
  }

  /** What one call of accept comes back with. */
  datatype Incoming =
    | Client(fd: nat, registers: bool)  // a connection, and whether epoll_ctl will add it
    | NoMore                            // EAGAIN or EWOULDBLOCK
    | Failed

  /** The loop of ProcessAccept; after `replies` there are no more connections. */
  function AcceptAll(d: Desk, replies: seq<Incoming>): Desk
    decreases |replies|
  {
    if replies == [] || !replies[0].Client? then d
    else AcceptAll(AcceptClient(d, replies[0].fd, replies[0].registers), replies[1..])
  }

  /** What is done for a session that has just been added. */
  function Register(d: Desk, fd: nat, id: nat, registers: bool): Desk {
    var tabled := SetState(d, id, Connected).(table := d.table[fd := id]);
    if registers then Call(tabled.(watched := tabled.watched + {fd}), id, OnAccept)
    else CloseSession(tabled, fd).(unregistered := d.unregistered + {id})
  }

  /** A session that was added, and is in the manager unless it is Disconnected. */
  predicate Known(d: Desk, id: nat) {
    id in d.lives && (StateOf(d, id) != Disconnected ==> id in d.peers)
  }

  /** ProcessDisconnect. */
  function DisconnectPeer(d: Desk, id: nat): Desk
    requires Known(d, id)
  {
    if StateOf(d, id) == Disconnected then d
    else
      var closed := CloseSession(Call(SetState(d, id, Disconnected), id, OnDisconnect), d.peers[id]);
      closed.(peers := closed.peers - {id})
  }

  /** What one call of recv comes back with. */
  datatype Reply = Data | Again | Closed | Error

  function ProcessReceive(d: Desk, id: nat, replies: seq<Reply>): Desk
    requires Known(d, id)
  {
    if StateOf(d, id) != Connected then d else ReceiveAll(d, id, replies)
  }

  /** Its loop; after `replies` there is nothing more to read. */
  function ReceiveAll(d: Desk, id: nat, replies: seq<Reply>): Desk
    requires Known(d, id)
    decreases |replies|
  {
    match if replies == [] then Again else replies[0]
    case Data => ReceiveAll(Call(d, id, OnReceive), id, replies[1..])
    case Again => d
    case _ => DisconnectPeer(d, id)
  }

  /** Shutdown closes the socket of every session in the manager, registered or not. */
  ghost function Shutdown(d: Desk): Desk {
    d.(peers := map[], table := map[], watched := {}, open := d.open - Image(d.peers),
       closes := d.closes + |d.peers|)
  }

  // ---- Events ----

  datatype Event =
    | Acceptable(replies: seq<Incoming>)
    | Readable(id: nat, received: seq<Reply>)
    | Hangup(id: nat)  // an error or hang-up event, or a send that fails

  /** An event names a session that was registered once; it may be long gone. */
  ghost predicate Enabled(d: Desk, e: Event) {
    match e
    case Acceptable(replies) => AcceptsClosed(d, replies)
    case Readable(id, _) => Registered(d, id) && Known(d, id)
    case Hangup(id) => Registered(d, id) && Known(d, id)
  }

  ghost predicate Registered(d: Desk, id: nat) {
    id in d.lives && id !in d.unregistered
  }

  ghost function Step(d: Desk, e: Event): Desk
    requires Enabled(d, e)
  {
    match e
    case Acceptable(replies) => AcceptAll(d, replies)
    case Readable(id, replies) => ProcessReceive(d, id, replies)
    case Hangup(id) => DisconnectPeer(d, id)
  }

  // ---- The invariant ----

  ghost predicate IdsFit(d: Desk) {
    && |d.peers| <= d.maxSessions
    && d.adds < ID_RANGE
    && (forall id | id in d.peers :: 1 <= id <= d.adds)
    && (forall id | id in d.lives :: 1 <= id <= d.adds)
    && (forall id | id in d.histories :: id in d.lives)
  }

  /** Idle, then Connected, then possibly Disconnected, and in the manager until then. */
  ghost predicate StatesLegal(d: Desk) {
    && (forall id | id in d.lives ::
          d.lives[id] == [Idle, Connected] || d.lives[id] == [Idle, Connected, Disconnected])
    && (forall id | id in d.lives :: id in d.peers <==> StateOf(d, id) == Connected)
    && (forall id | id in d.peers :: id in d.lives)
  }

  /** The table, the open descriptors and what epoll watches agree, and the live sessions are those
      in the table and those that could not be registered. */
  ghost predicate TablesAgree(d: Desk) {
    && d.open == d.table.Keys && d.watched == d.table.Keys
    && (forall fd | fd in d.table :: d.table[fd] in d.peers && d.peers[d.table[fd]] == fd
                                  && d.table[fd] !in d.unregistered)
    && (forall id | id in d.unregistered :: id in d.peers)
    && (forall id | id in d.peers && id !in d.unregistered ::
          d.peers[id] in d.table && d.table[d.peers[id]] == id)
  }

  /** Every session's callbacks come in the right order, the ones still there have not had their
      Disconnect, the ones gone have, and one that could not be registered has had none. */
  ghost predicate CallbacksLegal(d: Desk) {
    && (forall id | id in d.histories :: Legal(d.histories[id]))
    && (forall id | id in d.unregistered :: id !in d.histories)
    && (forall id | id in d.peers && id !in d.unregistered ::
          id in d.histories && !Ended(d.histories[id]))
    && (forall id | id in d.histories && id !in d.peers :: Ended(d.histories[id]))
  }

  ghost predicate Inv(d: Desk) {
    && IdsFit(d)
    && StatesLegal(d)
    && TablesAgree(d)
    && CallbacksLegal(d)
    && d.accepts == d.closes + |d.open|
  }

  /** The state after a client that became session `id` was registered, or could not be. */
  function Admit(d: Desk, fd: nat, id: nat, registers: bool): Desk {
    var added := d.(peers := d.peers[id := fd], adds := d.adds + 1, accepts := d.accepts + 1,
                    lives := d.lives[id := [Idle, Connected]]);
    if registers then
      added.(table := d.table[fd := id], watched := d.watched + {fd}, open := d.open + {fd},
             histories := d.histories[id := [OnAccept]])
    else
      added.(unregistered := d.unregistered + {id}, closes := d.closes + 1)
  }

  lemma AddThenRemove(d: Desk, fd: nat, id: nat)
    requires fd !in d.open && fd !in d.table && fd !in d.watched
    ensures d.table[fd := id] - {fd} == d.table
    ensures d.open + {fd} - {fd} == d.open
    ensures d.watched - {fd} == d.watched
  {
  }

  lemma AddTwice(lives: map<nat, seq<SessionState>>, id: nat)
    ensures lives[id := [Idle]][id := [Idle, Connected]] == lives[id := [Idle, Connected]]
  {
  }

  lemma AcceptRegisters(d: Desk, fd: nat)
    requires |d.peers| < d.maxSessions && NthId(d.adds) !in d.histories
    ensures AcceptClient(d, fd, true) == Admit(d, fd, NthId(d.adds), true)
  {
    assert History(d, NthId(d.adds)) + [OnAccept] == [OnAccept];
    assert [Idle] + [Connected] == [Idle, Connected];
    AddTwice(d.lives, NthId(d.adds));
  }

  lemma AcceptFailsToRegister(d: Desk, fd: nat)
    requires fd !in d.open && fd !in d.table && fd !in d.watched && |d.peers| < d.maxSessions
    ensures AcceptClient(d, fd, false) == Admit(d, fd, NthId(d.adds), false)
  {
    AddThenRemove(d, fd, NthId(d.adds));
    assert [Idle] + [Connected] == [Idle, Connected];
    AddTwice(d.lives, NthId(d.adds));
  }

  lemma AdmitTables(d: Desk, fd: nat, id: nat, registers: bool)
    requires TablesAgree(d) && fd !in d.open && id !in d.peers
    ensures TablesAgree(Admit(d, fd, id, registers))
  {
  }

  lemma AdmitCallbacks(d: Desk, fd: nat, id: nat, registers: bool)
    requires CallbacksLegal(d) && id !in d.peers && id !in d.histories && id !in d.unregistered
    ensures CallbacksLegal(Admit(d, fd, id, registers))
  {
  }

  lemma AdmitStates(d: Desk, fd: nat, id: nat, registers: bool)
    requires StatesLegal(d) && id !in d.lives && id !in d.peers
    ensures StatesLegal(Admit(d, fd, id, registers))
  {
  }

  lemma AdmitIds(d: Desk, fd: nat, id: nat, registers: bool)
    requires IdsFit(d) && id == d.adds + 1 < ID_RANGE && |d.peers| < d.maxSessions
    ensures IdsFit(Admit(d, fd, id, registers))
  {
    assert |Admit(d, fd, id, registers).peers| == |d.peers| + 1;
  }

  lemma AdmitInv(d: Desk, fd: nat, id: nat, registers: bool)
    requires Inv(d) && fd !in d.open && id == d.adds + 1 < ID_RANGE && |d.peers| < d.maxSessions
    ensures Inv(Admit(d, fd, id, registers))
  {
    assert id !in d.peers && id !in d.histories && id !in d.unregistered && id !in d.lives;
    AdmitStates(d, fd, id, registers);
    AdmitTables(d, fd, id, registers);
    AdmitCallbacks(d, fd, id, registers);
    AdmitIds(d, fd, id, registers);
  }

  lemma Refused(d: Desk, fd: nat, registers: bool)
    requires fd !in d.open && fd !in d.watched && |d.peers| >= d.maxSessions
    ensures AcceptClient(d, fd, registers) == d.(accepts := d.accepts + 1, closes := d.closes + 1)
  {
    assert d.open + {fd} - {fd} == d.open && d.watched - {fd} == d.watched;
  }

  /** What a new connection finds: neither its descriptor nor its id is known. */
  ghost predicate IsNew(d: Desk, fd: nat, id: nat) {
    && fd !in d.open && fd !in d.table && fd !in d.watched
    && id !in d.lives && id !in d.histories && id !in d.peers && id !in d.unregistered
  }

  lemma ItIsNew(d: Desk, fd: nat)
    requires Inv(d) && fd !in d.open && d.adds < ID_RANGE - 1
    ensures IsNew(d, fd, NthId(d.adds)) && NthId(d.adds) == d.adds + 1
  {
    NthIdBeforeWrap(d.adds);
  }

  /** One connection in one step: refused if there is no room, else admitted under a new id. */
  lemma AcceptClientIs(d: Desk, fd: nat, registers: bool)
    requires IsNew(d, fd, NthId(d.adds))
    ensures AcceptClient(d, fd, registers) == if |d.peers| >= d.maxSessions then
                                                d.(accepts := d.accepts + 1, closes := d.closes + 1)
                                              else Admit(d, fd, NthId(d.adds), registers)
  {
    if |d.peers| >= d.maxSessions {
      Refused(d, fd, registers);
    } else if registers {
      AcceptRegisters(d, fd);
    } else {
      AcceptFailsToRegister(d, fd);
    }
  }

  lemma RefusalInv(d: Desk)
    requires Inv(d)
    ensures Inv(d.(accepts := d.accepts + 1, closes := d.closes + 1))
  {
    var after := d.(accepts := d.accepts + 1, closes := d.closes + 1);
    forall id ensures StateOf(after, id) == StateOf(d, id) {}
    assert IdsFit(after) && TablesAgree(after) && CallbacksLegal(after);
  }

  lemma AcceptInv(d: Desk, fd: nat, registers: bool)
    requires Inv(d) && fd !in d.open && d.adds < ID_RANGE - 1
    ensures Inv(AcceptClient(d, fd, registers))
  {
    ItIsNew(d, fd);
    AcceptClientIs(d, fd, registers);
    if |d.peers| >= d.maxSessions {
      RefusalInv(d);
    } else {
      AdmitInv(d, fd, NthId(d.adds), registers);
    }
  }

  /** accept gives out only descriptors that are not open at that moment. */
  ghost predicate AcceptsClosed(d: Desk, replies: seq<Incoming>)
    decreases |replies|
  {
    replies != [] && replies[0].Client? ==>
      && replies[0].fd !in d.open && d.adds < ID_RANGE - 1
      && AcceptsClosed(AcceptClient(d, replies[0].fd, replies[0].registers), replies[1..])
  }

  lemma {:induction false} AcceptAllInv(d: Desk, replies: seq<Incoming>)
    requires Inv(d) && AcceptsClosed(d, replies)
    ensures Inv(AcceptAll(d, replies))
    decreases |replies|
  {
    if replies != [] && replies[0].Client? {
      AcceptInv(d, replies[0].fd, replies[0].registers);
      AcceptAllInv(AcceptClient(d, replies[0].fd, replies[0].registers), replies[1..]);
    }
  }

  lemma DisconnectTables(d: Desk, id: nat)
    requires TablesAgree(d) && Known(d, id) && id in d.peers && id !in d.unregistered
    ensures TablesAgree(DisconnectPeer(d, id))
  {
  }

  lemma DisconnectCallbacks(d: Desk, id: nat)
    requires CallbacksLegal(d) && Known(d, id) && id in d.peers && id !in d.unregistered
    ensures CallbacksLegal(DisconnectPeer(d, id))
  {
  }

  lemma DisconnectStates(d: Desk, id: nat)
    requires StatesLegal(d) && Known(d, id) && id in d.peers
    ensures StatesLegal(DisconnectPeer(d, id))
  {
    assert [Idle, Connected] + [Disconnected] == [Idle, Connected, Disconnected];
  }

  lemma DisconnectIds(d: Desk, id: nat)
    requires IdsFit(d) && Known(d, id) && id in d.peers
    ensures IdsFit(DisconnectPeer(d, id))
  {
    OneLess(d.peers, id);
  }

  lemma DisconnectInv(d: Desk, id: nat)
    requires Inv(d) && Registered(d, id)
    ensures Known(d, id) && Inv(DisconnectPeer(d, id))
  {
    if StateOf(d, id) != Disconnected {
      DisconnectTables(d, id);
      DisconnectCallbacks(d, id);
      DisconnectStates(d, id);
      DisconnectIds(d, id);
      assert |DisconnectPeer(d, id).open| == |d.open| - 1;
    }
  }

  lemma CallReceiveCallbacks(d: Desk, id: nat)
    requires CallbacksLegal(d) && id in d.peers && id !in d.unregistered
    ensures CallbacksLegal(Call(d, id, OnReceive))
  {
  }

  lemma CallReceiveTables(d: Desk, id: nat)
    requires IdsFit(d) && StatesLegal(d) && TablesAgree(d) && id in d.lives
    ensures var next := Call(d, id, OnReceive);
            IdsFit(next) && StatesLegal(next) && TablesAgree(next)
  {
    forall other ensures StateOf(Call(d, id, OnReceive), other) == StateOf(d, other) {}
  }

  lemma CallReceiveInv(d: Desk, id: nat)
    requires Inv(d) && Registered(d, id) && StateOf(d, id) == Connected
    ensures var next := Call(d, id, OnReceive);
            Inv(next) && Registered(next, id) && StateOf(next, id) == Connected
  {
    CallReceiveCallbacks(d, id);
    CallReceiveTables(d, id);
  }

  lemma {:induction false} ReceiveInv(d: Desk, id: nat, replies: seq<Reply>)
    requires Inv(d) && Registered(d, id) && StateOf(d, id) == Connected
    ensures Known(d, id) && Inv(ReceiveAll(d, id, replies))
    decreases |replies|
  {
    match if replies == [] then Again else replies[0]
    case Data =>
      CallReceiveInv(d, id);
      ReceiveInv(Call(d, id, OnReceive), id, replies[1..]);
    case Again =>
    case _ => DisconnectInv(d, id);
  }

  // ---- What the answers of recv come to ----

  /** So many answers of recv bring data before one that does not. */
  function Deliveries(replies: seq<Reply>): (n: nat)
    ensures n <= |replies| && forall i | 0 <= i < n :: replies[i].Data?
    ensures n < |replies| ==> !replies[n].Data?
  {
    if replies == [] || !replies[0].Data? then 0 else 1 + Deliveries(replies[1..])
  }

  /** The first that does not bring data says that the connection is closed, or broken. */
  predicate Breaks(replies: seq<Reply>) {
    var n := Deliveries(replies);
    n < |replies| && (replies[n].Closed? || replies[n].Error?)
  }

  function Receives(n: nat): seq<Callback> {
    seq(n, _ => OnReceive)
  }

  /** A connected session gets one Receive callback for each answer with data, and is disconnected, with
      its one Disconnect callback, exactly when the answer after these is neither EAGAIN nor missing. */
  lemma {:induction false} ReceiveResult(d: Desk, id: nat, replies: seq<Reply>)
    requires Known(d, id) && StateOf(d, id) == Connected
    ensures var after := ProcessReceive(d, id, replies);
            && StateOf(after, id) == (if Breaks(replies) then Disconnected else Connected)
            && (id in after.peers <==> !Breaks(replies))
            && History(after, id) == History(d, id) + Receives(Deliveries(replies))
                                     + if Breaks(replies) then [OnDisconnect] else []
    decreases |replies|
  {
    if replies != [] && replies[0].Data? {
      var next := Call(d, id, OnReceive);
      ReceiveResult(next, id, replies[1..]);
      assert History(next, id) + Receives(Deliveries(replies[1..])) == History(d, id) + Receives(Deliveries(replies));
    } else {
      assert History(d, id) + Receives(0) == History(d, id);
    }
  }

  // ---- What the answers of accept come to ----

  /** So many answers of accept are connections before one that is none. */
  function Arrivals(replies: seq<Incoming>): (n: nat)
    ensures n <= |replies| && forall i | 0 <= i < n :: replies[i].Client?
    ensures n < |replies| ==> !replies[n].Client?
  {
    if replies == [] || !replies[0].Client? then 0 else 1 + Arrivals(replies[1..])
  }

  /** A session there is, its record and its entry stay as they are. */
  ghost predicate Stays(d: Desk, after: Desk, id: nat)
    requires id in d.peers
  {
    && id in after.peers && after.peers[id] == d.peers[id]
    && Life(after, id) == Life(d, id) && History(after, id) == History(d, id)
    && (Tabled(after, id) <==> Tabled(d, id))
  }

  /** The descriptor of the session stands for it in the socket map. */
  ghost predicate Tabled(d: Desk, id: nat)
    requires id in d.peers
  {
    d.peers[id] in d.table && d.table[d.peers[id]] == id
  }

  lemma AdmitStays(d: Desk, fd: nat, newcomer: nat, registers: bool, id: nat)
    requires id in d.peers && newcomer !in d.peers && fd !in d.table
    ensures Stays(d, Admit(d, fd, newcomer, registers), id)
  {
  }

  lemma AcceptClientStays(d: Desk, fd: nat, registers: bool, id: nat)
    requires Inv(d) && fd !in d.open && d.adds < ID_RANGE - 1 && id in d.peers
    ensures Stays(d, AcceptClient(d, fd, registers), id)
  {
    ItIsNew(d, fd);
    AcceptClientIs(d, fd, registers);
    if |d.peers| < d.maxSessions {
      AdmitStays(d, fd, NthId(d.adds), registers, id);
    }
  }

  lemma {:induction false} AcceptStays(d: Desk, replies: seq<Incoming>, id: nat)
    requires Inv(d) && AcceptsClosed(d, replies) && id in d.peers
    ensures Stays(d, AcceptAll(d, replies), id)
    decreases |replies|
  {
    if replies != [] && replies[0].Client? {
      AcceptInv(d, replies[0].fd, replies[0].registers);
      AcceptClientStays(d, replies[0].fd, replies[0].registers, id);
      AcceptStays(AcceptClient(d, replies[0].fd, replies[0].registers), replies[1..], id);
    }
  }

  /** Session `id` is there for a connection that came with descriptor `fd`: connected, and in the
      socket map and announced exactly if it could be registered. */
  ghost predicate Admitted(d: Desk, id: nat, fd: nat, registers: bool) {
    && id in d.peers && d.peers[id] == fd && StateOf(d, id) == Connected
    && (Tabled(d, id) <==> registers)
    && History(d, id) == if registers then [OnAccept] else []
  }

  lemma AdmitAdmits(d: Desk, fd: nat, id: nat, registers: bool)
    requires id !in d.peers && id !in d.histories && fd !in d.table
    ensures var after := Admit(d, fd, id, registers);
            Admitted(after, id, fd, registers) && |after.peers| == |d.peers| + 1
  {
  }

  /** One connection: admitted if there is room, and otherwise closed again. */
  lemma AcceptOne(d: Desk, fd: nat, registers: bool)
    requires Inv(d) && fd !in d.open && d.adds < ID_RANGE - 1
    ensures var after := AcceptClient(d, fd, registers);
            && after.accepts == d.accepts + 1 && after.maxSessions == d.maxSessions
            && if |d.peers| < d.maxSessions then
                 && Admitted(after, NthId(d.adds), fd, registers)
                 && after.adds == d.adds + 1 && |after.peers| == |d.peers| + 1
               else
                 after.adds == d.adds && after.peers == d.peers && after.closes == d.closes + 1
  {
    ItIsNew(d, fd);
    AcceptClientIs(d, fd, registers);
    if |d.peers| < d.maxSessions {
      AdmitAdmits(d, fd, NthId(d.adds), registers);
    }
  }

  /** The first so many connections are there as new sessions, the first of them as the one after `adds`. */
  ghost predicate AllAdmitted(d: Desk, adds: nat, replies: seq<Incoming>, count: nat)
    requires count <= Arrivals(replies)
  {
    forall k | 0 <= k < count :: Admitted(d, NthId(adds + k), replies[k].fd, replies[k].registers)
  }

  lemma OneMoreAdmitted(d: Desk, adds: nat, replies: seq<Incoming>, count: nat)
    requires 0 < count <= Arrivals(replies)
    requires Admitted(d, NthId(adds), replies[0].fd, replies[0].registers)
    requires AllAdmitted(d, adds + 1, replies[1..], count - 1)
    ensures AllAdmitted(d, adds, replies, count)
  {
    forall k | 0 < k < count ensures Admitted(d, NthId(adds + k), replies[k].fd, replies[k].registers) {
      assert replies[1..][k - 1] == replies[k] && adds + 1 + (k - 1) == adds + k;
    }
  }

  lemma StillAdmitted(d: Desk, after: Desk, id: nat, fd: nat, registers: bool)
    requires Admitted(d, id, fd, registers) && Stays(d, after, id)
    ensures Admitted(after, id, fd, registers)
  {
  }

  /** How many connections find room. */
  function Room(d: Desk, replies: seq<Incoming>): int {
    Min(Arrivals(replies), d.maxSessions - |d.peers|)
  }

  lemma {:induction false} AcceptCounts(d: Desk, replies: seq<Incoming>)
    requires Inv(d) && AcceptsClosed(d, replies)
    ensures var after := AcceptAll(d, replies);
            && after.accepts == d.accepts + Arrivals(replies)
            && 0 <= Room(d, replies) && after.adds == d.adds + Room(d, replies)
            && |after.peers| == |d.peers| + Room(d, replies)
    decreases |replies|
  {
    if replies != [] && replies[0].Client? {
      AcceptInv(d, replies[0].fd, replies[0].registers);
      AcceptOne(d, replies[0].fd, replies[0].registers);
      AcceptCounts(AcceptClient(d, replies[0].fd, replies[0].registers), replies[1..]);
    }
  }

  /** From the second connection on. */
  lemma OthersAdmitted(d: Desk, next: Desk, after: Desk, replies: seq<Incoming>)
    requires replies != [] && replies[0].Client? && 0 <= Room(next, replies[1..])
    requires AllAdmitted(after, next.adds, replies[1..], Room(next, replies[1..]))
    requires next.maxSessions == d.maxSessions && |d.peers| <= d.maxSessions
    requires if |d.peers| < d.maxSessions then
               && next.adds == d.adds + 1 && |next.peers| == |d.peers| + 1
               && Admitted(after, NthId(d.adds), replies[0].fd, replies[0].registers)
             else next.adds == d.adds && next.peers == d.peers
    ensures 0 <= Room(d, replies) && AllAdmitted(after, d.adds, replies, Room(d, replies))
  {
    if |d.peers| < d.maxSessions {
      OneMoreAdmitted(after, d.adds, replies, Room(d, replies));
    }
  }

  /** The loop takes every connection there is, also past one that is refused or cannot be registered:
      as long as there is room the k-th becomes the k-th new session, and the others are closed again. */
  lemma {:induction false} AcceptResult(d: Desk, replies: seq<Incoming>)
    requires Inv(d) && AcceptsClosed(d, replies)
    ensures var after := AcceptAll(d, replies);
            && after.accepts == d.accepts + Arrivals(replies)
            && 0 <= Room(d, replies) && after.adds == d.adds + Room(d, replies)
            && |after.peers| == |d.peers| + Room(d, replies)
            && AllAdmitted(after, d.adds, replies, Room(d, replies))
    decreases |replies|
  {
    AcceptCounts(d, replies);
    if replies != [] && replies[0].Client? {
      var fd, registers := replies[0].fd, replies[0].registers;
      var next, after := AcceptClient(d, fd, registers), AcceptAll(d, replies);
      AcceptInv(d, fd, registers);
      AcceptResult(next, replies[1..]);
      FirstAdmitted(d, replies);
      OthersAdmitted(d, next, after, replies);
    }
  }

  lemma FirstAdmitted(d: Desk, replies: seq<Incoming>)
    requires Inv(d) && AcceptsClosed(d, replies) && replies != [] && replies[0].Client?
    ensures var next := AcceptClient(d, replies[0].fd, replies[0].registers);
            && next.maxSessions == d.maxSessions && |d.peers| <= d.maxSessions
            && if |d.peers| < d.maxSessions then
                 && next.adds == d.adds + 1 && |next.peers| == |d.peers| + 1
                 && Admitted(AcceptAll(d, replies), NthId(d.adds), replies[0].fd, replies[0].registers)
               else next.adds == d.adds && next.peers == d.peers
  {
    var fd, registers := replies[0].fd, replies[0].registers;
    var next := AcceptClient(d, fd, registers);
    AcceptInv(d, fd, registers);
    AcceptOne(d, fd, registers);
    if |d.peers| < d.maxSessions {
      AcceptStays(next, replies[1..], NthId(d.adds));
      StillAdmitted(next, AcceptAll(d, replies), NthId(d.adds), fd, registers);
    }
  }

  lemma StepInv(d: Desk, e: Event)
    requires Inv(d) && Enabled(d, e)
    ensures Inv(Step(d, e))
  {
    match e
    case Acceptable(replies) => AcceptAllInv(d, replies);
    case Readable(id, replies) =>
      if StateOf(d, id) == Connected {
        ReceiveInv(d, id, replies);
      }
    case Hangup(id) => DisconnectInv(d, id);
  }

  // ---- Over whole runs ----

  ghost predicate EnabledRun(d: Desk, events: seq<Event>)
    decreases |events|
  {
    events == [] || (Enabled(d, events[0]) && EnabledRun(Step(d, events[0]), events[1..]))
  }

  ghost function Run(d: Desk, events: seq<Event>): Desk
    requires EnabledRun(d, events)
    decreases |events|
  {
    if events == [] then d else Run(Step(d, events[0]), events[1..])
  }

  /** A run goes on. */
  lemma {:induction false} RunOn(d: Desk, events: seq<Event>, e: Event)
    requires EnabledRun(d, events) && Enabled(Run(d, events), e)
    ensures EnabledRun(d, events + [e]) && Run(d, events + [e]) == Step(Run(d, events), e)
    decreases |events|
  {
    var more := events + [e];
    if events == [] {
      assert more == [e] && more[1..] == [];
      assert Run(d, more) == Run(Step(d, e), []);
    } else {
      assert more[1..] == events[1..] + [e];
      RunOn(Step(d, events[0]), events[1..], e);
    }
  }

  /** The state a run of events from the start has led to. */
  ghost predicate Reached(d: Desk, past: seq<Event>) {
    EnabledRun(Initial(d.maxSessions), past) && d == Run(Initial(d.maxSessions), past)
  }

  lemma Initially(maxSessions: nat)
    ensures Reached(Initial(maxSessions), []) && Inv(Initial(maxSessions))
  {
  }

  lemma {:induction false} ReceiveOnlyAdds(d: Desk, id: nat, replies: seq<Reply>, other: nat)
    requires Known(d, id)
    ensures History(d, other) <= History(ReceiveAll(d, id, replies), other)
    ensures Life(d, other) <= Life(ReceiveAll(d, id, replies), other)
    ensures other != id ==> History(ReceiveAll(d, id, replies), other) == History(d, other)
    decreases |replies|
  {
    if replies != [] && replies[0].Data? {
      ReceiveOnlyAdds(Call(d, id, OnReceive), id, replies[1..], other);
    }
  }

  lemma AcceptClientOnlyAdds(d: Desk, fd: nat, registers: bool, id: nat)
    requires d.adds < ID_RANGE - 1
    ensures var next := AcceptClient(d, fd, registers);
            && d.adds <= next.adds
            && History(d, id) <= History(next, id)
            && (id <= d.adds ==> Life(d, id) == Life(next, id))
            && (id <= d.adds ==> History(next, id) == History(d, id))
  {
    NthIdBeforeWrap(d.adds);
  }

  lemma {:induction false} AcceptOnlyAdds(d: Desk, replies: seq<Incoming>, id: nat)
    requires Inv(d) && AcceptsClosed(d, replies)
    ensures History(d, id) <= History(AcceptAll(d, replies), id)
    ensures Life(d, id) <= Life(AcceptAll(d, replies), id)
    ensures id <= d.adds ==> History(AcceptAll(d, replies), id) == History(d, id)
    decreases |replies|
  {
    if replies != [] && replies[0].Client? {
      var next := AcceptClient(d, replies[0].fd, replies[0].registers);
      AcceptInv(d, replies[0].fd, replies[0].registers);
      AcceptClientOnlyAdds(d, replies[0].fd, replies[0].registers, id);
      AcceptOnlyAdds(next, replies[1..], id);
    }
  }

  lemma StepOnlyAdds(d: Desk, e: Event, id: nat)
    requires Inv(d) && Enabled(d, e)
    ensures History(d, id) <= History(Step(d, e), id) && Life(d, id) <= Life(Step(d, e), id)
  {
    if e.Readable? {
      ReceiveOnlyAdds(d, e.id, e.received, id);
    } else if e.Acceptable? {
      AcceptOnlyAdds(d, e.replies, id);
    }
  }

  lemma EndedStaysEnded(d: Desk, e: Event, id: nat)
    requires Inv(d) && Enabled(d, e) && Ended(History(d, id))
    ensures History(Step(d, e), id) == History(d, id)
  {
    if e.Acceptable? {
      AcceptOnlyAdds(d, e.replies, id);
    } else if e.Readable? {
      ReceiveOnlyAdds(d, e.id, e.received, id);
    }
  }

  /** After every event of any run the tables agree, every session's callbacks are legal and so is the
      order of its states; callbacks and states only ever get added; and a session that had its
      Disconnect has no callback any more, though events may still name it. */
  lemma {:induction false} RunLaws(d: Desk, events: seq<Event>, id: nat)
    requires Inv(d) && EnabledRun(d, events)
    ensures Inv(Run(d, events))
    ensures History(d, id) <= History(Run(d, events), id) && Life(d, id) <= Life(Run(d, events), id)
    ensures Ended(History(d, id)) ==> History(Run(d, events), id) == History(d, id)
    decreases |events|
  {
    if events != [] {
      var next := Step(d, events[0]);
      StepInv(d, events[0]);
      StepOnlyAdds(d, events[0], id);
      if Ended(History(d, id)) {
        EndedStaysEnded(d, events[0], id);
      }
      RunLaws(next, events[1..], id);
    }
  }

  lemma ReachedInv(d: Desk, past: seq<Event>)
    requires Reached(d, past)
    ensures Inv(d)
  {
    Initially(d.maxSessions);
    RunLaws(Initial(d.maxSessions), past, 0);
  }

  lemma {:induction false} StepKeepsMax(d: Desk, e: Event)
    requires Enabled(d, e)
    ensures Step(d, e).maxSessions == d.maxSessions
  {
    match e
    case Acceptable(replies) => AcceptKeepsMax(d, replies);
    case Readable(id, replies) => ReceiveKeepsMax(d, id, replies);
    case Hangup(_) =>
  }

  lemma {:induction false} AcceptKeepsMax(d: Desk, replies: seq<Incoming>)
    ensures AcceptAll(d, replies).maxSessions == d.maxSessions
    decreases |replies|
  {
    if replies != [] && replies[0].Client? {
      AcceptKeepsMax(AcceptClient(d, replies[0].fd, replies[0].registers), replies[1..]);
    }
  }

  lemma {:induction false} ReceiveKeepsMax(d: Desk, id: nat, replies: seq<Reply>)
    requires Known(d, id)
    ensures ReceiveAll(d, id, replies).maxSessions == d.maxSessions
    decreases |replies|
  {
    if replies != [] && replies[0].Data? {
      ReceiveKeepsMax(Call(d, id, OnReceive), id, replies[1..]);
    }
  }

  lemma ReachedOn(d: Desk, past: seq<Event>, e: Event)
    requires Reached(d, past) && Enabled(d, e)
    ensures Reached(Step(d, e), past + [e])
  {
    StepKeepsMax(d, e);
    RunOn(Initial(d.maxSessions), past, e);
  }

  // ---- Counting ----

  /** The live sessions are those in the table and, besides them, those that failed to register,
      which nothing ever removes. */
  lemma LiveSessions(d: Desk)
    requires TablesAgree(d)
    ensures d.peers.Keys == Image(d.table) + d.unregistered && Image(d.table) !! d.unregistered
    ensures |d.peers| == |d.table| + |d.unregistered|
  {
    forall id | id in d.peers ensures id in Image(d.table) + d.unregistered {
      assert id !in d.unregistered ==> d.peers[id] in d.table && d.table[d.peers[id]] == id;
    }
    DistinctImage(d.table);
    Disjoint(Image(d.table), d.unregistered);
  }

  /** After Shutdown nothing is open; each descriptor accepted has been closed exactly once if and
      only if every session had registered.  (For one that had not, CloseSession runs twice.) */
  lemma ShutdownBalance(d: Desk)
    requires Inv(d)
    ensures Shutdown(d).open == {}
    ensures Shutdown(d).closes == d.accepts + |d.unregistered|
    ensures Shutdown(d).closes == d.accepts <==> d.unregistered == {}
  {
    LiveSessions(d);
    assert |d.open| == |d.table.Keys| == |d.table|;
    forall fd | fd in d.open ensures fd in Image(d.peers) {
      assert d.peers[d.table[fd]] == fd;
    }
  }
}
