/** The epoll network model.  Its methods are proved against the functions of EpollServer, that is, of
    EpollTable (which sessions and descriptors there are) and EpollMachine (what a session sends). */
module EpollModels {
  import opened Types
  import opened Sessions
  import opened SessionTable
  import opened SessionManagers
  import opened PacketBuffers
  import opened Callbacks
  import opened Counting
  import opened SessionGroups
  import M = SendMachine
  import T = EpollTable
  import E = EpollMachine
  import V = EpollServer

  const INVALID_SOCKET_HANDLE: int := -1

  /** How many of each system resource are held: initialisations of the network, epoll descriptors,
      listening sockets. */
  datatype Resources = Resources(network: int, epollFds: int, listenSockets: int)

  lemma Elsewhere(e: EpollModel, m: SessionManager, group: map<nat, Session>)
    ensures m as object !in Footprints(group) && e as object !in Footprints(group)
  {
  }

  class EpollModel {
    var mInitialized: bool
    var mRunning: bool
    var mListenSocket: int
    var mEpollFd: int
    var mSessionManager: SessionManager?  // made by Initialize
    var mSocketToSession: map<nat, nat>  // a session is named by its id

    // The descriptors epoll watches, with whether it is to report them writable.
    var interest: map<nat, bool>

    ghost var ctlFailed: set<nat>  // sessions for which a ModifySocket failed
    ghost var taken: map<nat, seq<byte>>  // what the system has taken of the bytes of each session
    ghost var resources: Resources

    // What has become of all sessions and descriptors, with the events that led to it, and every
    // session there has been.
    ghost var server: V.Server
    ghost var past: seq<V.Event>
    ghost var everyone: map<nat, Session>

    ghost function Wires(): V.Wiring
      reads `mSocketToSession, `interest, `ctlFailed, `taken
    {
      V.Wiring(mSocketToSession, interest, ctlFailed, taken)
    }

    /** The manager has the sessions that `s` says it has. */
    ghost predicate Keeps(s: V.Server)
      reads `mSessionManager, `everyone, mSessionManager
    {
      && mSessionManager != null && mSessionManager.Valid()
      && mSessionManager.mMaxSessions == s.desk.maxSessions
      && mSessionManager.adds == s.desk.adds
      && mSessionManager.sockets == s.desk.peers
      && mSessionManager.mSessions == Only(everyone, mSessionManager.mSessions.Keys)
    }

    /** Every session there has been has a ring and a descriptor of its own record. */
    ghost predicate Names(s: V.Server)
      reads `everyone
    {
      Apart(everyone) && Sockets(everyone) == s.fds
    }

    /** The fields, and every session there has been, are as `s` says. */
    ghost predicate Shows(s: V.Server)
      reads `mSessionManager, `mSocketToSession, `interest, `ctlFailed, `taken, `everyone
      reads mSessionManager, Footprints(everyone)
    {
      Keeps(s) && Names(s) && Wires() == s.wires && Astray(everyone, V.SeenOf(s)) == {}
    }

    /** Between events, that is what has become of a run of events. */
    ghost predicate Valid()
      reads this, mSessionManager, Footprints(everyone)
    {
      Shows(server) && V.Reached(server, past)
    }

    /** So everything that holds of all runs holds here: the laws of the tables, the states and the
        callbacks; and every session there has been is valid, in the state the history says, and with
        its send path in order. */
    lemma Laws()
      requires Valid()
      ensures V.Inv(server)
      ensures mSocketToSession.Keys == interest.Keys == server.desk.open
      ensures forall id | id in mSessionManager.mSessions ::
                && id in everyone && everyone[id] == mSessionManager.mSessions[id]
                && T.StateOf(server.desk, id) == Connected
      ensures forall id | id in everyone ::
                && id in server.pipes && E.Inv(server.pipes[id])
                && Looks(everyone[id], Seen(T.StateOf(server.desk, id), server.pipes[id].session))
    {
      V.ReachedInv(server, past);
      forall id | id in everyone ensures id in server.pipes && Looks(everyone[id], V.SeenOf(server)[id]) {
        assert id !in Astray(everyone, V.SeenOf(server));
      }
      forall id | id in mSessionManager.mSessions
        ensures id in everyone && everyone[id] == mSessionManager.mSessions[id] && id in server.desk.peers
      {
        assert id in Only(everyone, mSessionManager.mSessions.Keys);
        assert id in Sockets(mSessionManager.mSessions);
      }
    }

    /** A session an event or a caller may name: one that was registered once. */
    ghost predicate Known(s: Session)
      reads `server, `everyone
    {
      T.Registered(server.desk, s.mID) && s.mID in everyone && everyone[s.mID] == s
    }

    /** Its descriptor is not that of another session.  (That of a disconnected session can be.) */
    ghost predicate Owns(s: Session)
      reads `mSocketToSession
    {
      s.mSocket in mSocketToSession ==> mSocketToSession[s.mSocket] == s.mID
    }

    /** What is needed of the laws for such a session. */
    ghost predicate Fits(s: Session)
      reads this, s, s.mSendBuffer, s.mSendBuffer.mBuffer
    {
      && s.mID in everyone && everyone[s.mID] == s && s.Valid()
      && s.mID in server.pipes && s.mID in server.fds && s.mSocket == server.fds[s.mID]
      && T.Known(server.desk, s.mID)
      && s.mState == T.StateOf(server.desk, s.mID)
      && (s.mState == Connected || (s.mState == Disconnected && !server.pipes[s.mID].mapped))
      && (s.mState == Connected <==> s.mID in server.desk.peers)
      && (s.mState == Connected ==> Owns(s) && s.mSocket in mSocketToSession)
      && mSocketToSession.Keys == interest.Keys && s.mID in taken
      && (Owns(s) ==> SendView(s) == server.pipes[s.mID])
    }

    lemma ItFits(s: Session)
      requires Valid() && Known(s)
      ensures Fits(s)
    {
      V.ReachedInv(server, past);
      V.RegisteredSession(server, s.mID);
      OneOf(everyone, V.SeenOf(server), s);
      assert Sockets(everyone)[s.mID] == s.mSocket;
      assert server.wires.table.Keys == server.wires.interest.Keys;
    }

    /** The session as the send machine sees it. */
    ghost function SendView(session: Session): E.State
      requires session.Valid()
      reads `mSocketToSession, `interest, `ctlFailed, `taken, session, session.mSendBuffer, session.mSendBuffer.mBuffer
    {
      V.Wired(Wires(), session.mID, session.mSocket, session.View())
    }

    /** After work on one session: the fields are as the server with its new send path says. */
    lemma Rejoins(s: V.Server, session: Session, p: E.State)
      requires Keeps(s) && Names(s) && session.mID in everyone && everyone[session.mID] == session
      requires session.mID in s.pipes && session.mID in s.fds
      requires Owns(session) && Wires() == V.Tuned(s.wires, session.mID, s.fds[session.mID], p)
      requires Astray(everyone - {session.mID}, V.SeenOf(s)) == {}
      requires Looks(session, Seen(T.StateOf(s.desk, session.mID), p.session))
      ensures Shows(V.SetPipe(s, session.mID, p))
    {
      assert Sockets(everyone)[session.mID] == session.mSocket;
      V.PipeSeen(s, session.mID, p);
      Back(everyone, V.SeenOf(s), session, Seen(T.StateOf(s.desk, session.mID), p.session));
      assert Keeps(V.SetPipe(s, session.mID, p));
    }

    /** The event that has led to `s` is noted. */
    ghost method Note(s: V.Server, e: V.Event)
      requires Shows(s) && V.Reached(server, past) && V.Enabled(server, e) && s == V.Step(server, e)
      modifies `server, `past
      ensures Valid() && server == s && past == old(past) + [e]
    {
      V.ReachedOn(server, past, e);
      Elsewhere(this, mSessionManager, everyone);
      Record(s, e, everyone, V.SeenOf(s));
      assert Keeps(s) && Names(s);
    }

    /** The sessions are left alone. */
    ghost method Record(s: V.Server, e: V.Event, group: map<nat, Session>, seen: map<nat, Seen>)
      requires this as object !in Footprints(group) && Astray(group, seen) == {}
      modifies `server, `past
      ensures server == s && past == old(past) + [e] && Astray(group, seen) == {}
    {
      server, past := s, past + [e];
    }

    /** The session is left alone. */
    ghost method NoteFor(session: Session, s: V.Server, e: V.Event)
      requires Shows(s) && V.Reached(server, past) && V.Enabled(server, e) && s == V.Step(server, e) && session.Valid()
      modifies `server, `past
      ensures Valid() && server == s && past == old(past) + [e]
      ensures session.Valid() && session.View() == old(session.View()) && session.mState == old(session.mState)
      ensures SendView(session) == old(SendView(session))
    {
      Note(s, e);
    }

    /** After a session has been disconnected and taken out of the manager. */
    lemma Parts(s: V.Server, session: Session)
      requires mSessionManager != null && mSessionManager.Valid() && mSessionManager.mMaxSessions == s.desk.maxSessions
      requires mSessionManager.adds == s.desk.adds && mSessionManager.sockets == s.desk.peers - {session.mID}
      requires mSessionManager.mSessions == Only(everyone, mSessionManager.mSessions.Keys)
      requires Names(s) && session.mID in everyone && everyone[session.mID] == session
      requires session.mID in s.pipes && session.mID in s.fds && session.mID in s.desk.peers
      requires T.Known(s.desk, session.mID) && T.StateOf(s.desk, session.mID) == Connected
      requires Wires() == V.Unwired(s.wires, s.fds[session.mID])
      requires var last := Seen(Disconnected, s.pipes[session.mID].session);
               Astray(everyone, V.SeenOf(s)[session.mID := last]) == {}
      ensures Shows(V.Hang(s, session.mID, T.DisconnectPeer(s.desk, session.mID)))
    {
      V.HangSeen(s, session.mID);
      assert Keeps(V.Hang(s, session.mID, T.DisconnectPeer(s.desk, session.mID)));
    }

    /** What the model holds of the system's resources is what its state says. */
    ghost predicate Balanced()
      reads this
    {
      && resources == (if mInitialized then Resources(1, 1, 1) else Resources(0, 0, 0))
      && (mRunning ==> mInitialized)
      && (mInitialized ==> mListenSocket != INVALID_SOCKET_HANDLE && mEpollFd >= 0)
      && (!mInitialized ==> mSocketToSession == map[] && interest == map[])
    }

    constructor ()
      ensures Balanced() && !mInitialized && !mRunning
    {
      mInitialized, mRunning := false, false;
      mListenSocket, mEpollFd := INVALID_SOCKET_HANDLE, -1;
      resources := Resources(0, 0, 0);
      mSessionManager, mSocketToSession, interest := null, map[], map[];
      server, past, everyone, ctlFailed, taken := V.Initial(0), [], map[], {}, map[];
    }

    // ---- Lifecycle ----

    /** With nothing in the tables, a new history begins. */
    method Begin(maxSessions: nat)
      requires mSocketToSession == map[] && interest == map[]
      modifies `mSessionManager, `server, `past, `everyone, `ctlFailed, `taken
      ensures Valid() && server == V.Initial(maxSessions) && fresh(mSessionManager)
    {
      mSessionManager := new SessionManager(maxSessions);
      server, past, everyone, ctlFailed, taken := V.Initial(maxSessions), [], map[], {}, map[];
      V.ReachedInitially(maxSessions);
    }

    /** The arguments say what the system answers: whether the network comes up, the results of
        epoll_create1 and socket, and whether bind succeeds.  On every failure path exactly what had
        been taken is given back. */
    method Initialize(maxSessions: nat, networkOk: bool, epollFd: int, listenSocket: int, bindOk: bool)
      returns (ok: bool)
      requires Balanced()
      modifies this
      ensures Balanced() && mRunning == old(mRunning)
      ensures ok <==> !old(mInitialized) && networkOk && epollFd >= 0
                      && listenSocket != INVALID_SOCKET_HANDLE && bindOk
      ensures !ok ==> mInitialized == old(mInitialized) && resources == old(resources)
      ensures ok ==> mInitialized && Valid() && server == V.Initial(maxSessions) && fresh(mSessionManager)
    {
      if mInitialized {
        return false;
      }
      if !networkOk {
        return false;
      }
      resources := resources.(network := resources.network + 1);
      mEpollFd := epollFd;
      if mEpollFd < 0 {
        resources := resources.(network := resources.network - 1);
        return false;
      }
      resources := resources.(epollFds := resources.epollFds + 1);
      mListenSocket := listenSocket;
      if mListenSocket == INVALID_SOCKET_HANDLE {
        resources := resources.(epollFds := resources.epollFds - 1);
        resources := resources.(network := resources.network - 1);
        return false;
      }
      resources := resources.(listenSockets := resources.listenSockets + 1);
      if !bindOk {
        resources := resources.(listenSockets := resources.listenSockets - 1);
        resources := resources.(epollFds := resources.epollFds - 1);
        resources := resources.(network := resources.network - 1);
        return false;
      }
      Begin(maxSessions);
      mInitialized := true;
      return true;
    }

    method StartListen(listenOk: bool, ctlOk: bool) returns (ok: bool)
      requires Balanced()
      modifies `mRunning
      ensures Balanced() && mRunning == (old(mRunning) || ok)
      ensures ok <==> mInitialized && (old(mRunning) || (listenOk && ctlOk))
    {
      if !mInitialized {
        return false;
      }
      if mRunning {
        return true;
      }
      if !listenOk || !ctlOk {
        return false;
      }
      mRunning := true;
      return true;
    }

    /** Closes the socket of every session in the manager, in any order. */
    method CloseAll()
      requires Keeps(server)
      modifies `mSocketToSession, `interest, `server
      ensures server.desk.open == old(server).desk.open - Image(old(server).desk.peers)
      ensures server.desk.closes == old(server).desk.closes + |old(server).desk.peers|
      ensures server == old(server).(desk := old(server).desk.(table := server.desk.table, watched := server.desk.watched,
                                     open := server.desk.open, closes := server.desk.closes))
    {
      mSessionManager.SocketPerSession();
      var sessions, left := mSessionManager.mSessions, mSessionManager.mSessions.Keys;
      ghost var before, desk := server.desk, server.desk;
      assert |left| == |before.peers|;
      while left != {}
        invariant left <= sessions.Keys && server == old(server)
        invariant desk.open == before.open - (set id | id in sessions && id !in left :: before.peers[id])
        invariant desk.closes == before.closes + |before.peers| - |left|
        invariant desk == before.(table := desk.table, watched := desk.watched,
                                  open := desk.open, closes := desk.closes)
        decreases left
      {
        var id :| id in left;
        CloseSession(sessions[id]);
        desk := T.CloseSession(desk, sessions[id].mSocket);
        left := left - {id};
      }
      server := server.(desk := desk);
    }

    method ReleaseHandles()
      modifies `mListenSocket, `mEpollFd, `resources
      ensures resources == old(Resources(resources.network - 1,
                resources.epollFds - (if mEpollFd >= 0 then 1 else 0),
                resources.listenSockets - (if mListenSocket != INVALID_SOCKET_HANDLE then 1 else 0)))
    {
      if mListenSocket != INVALID_SOCKET_HANDLE {
        resources := resources.(listenSockets := resources.listenSockets - 1);
        mListenSocket := INVALID_SOCKET_HANDLE;
      }
      if mEpollFd >= 0 {
        resources := resources.(epollFds := resources.epollFds - 1);
        mEpollFd := -1;
      }
      resources := resources.(network := resources.network - 1);
    }

    method Shutdown()
      requires Balanced() && (mInitialized ==> Keeps(server))
      modifies this, mSessionManager
      ensures Balanced() && !mInitialized && !mRunning
      ensures old(mInitialized) ==> Keeps(server) && server.desk == T.Shutdown(old(server.desk))
    {
      if !mInitialized {
        return;
      }
      mRunning := false;
      CloseAll();
      mSessionManager.Clear();
      mSocketToSession := map[];
      ReleaseHandles();
      interest := map[];  // went with the epoll descriptor
      server := server.(desk := server.desk.(peers := map[], table := map[], watched := {}));
      mInitialized := false;
    }

    // ---- Client descriptors ----

    /** Adds a descriptor to epoll, to be reported when it is readable. */
    method RegisterSocket(fd: nat, ctlOk: bool) returns (ok: bool)
      modifies `interest
      ensures ok == ctlOk
      ensures interest == if ok then old(interest)[fd := false] else old(interest)
    {
      if ctlOk {
        interest := interest[fd := false];
      }
      return ctlOk;
    }

    /** Takes the socket out of the table, out of epoll, and closes it. */
    method CloseSession(session: Session)
      modifies `mSocketToSession, `interest
      ensures mSocketToSession == old(mSocketToSession) - {session.mSocket}
      ensures interest == old(interest) - {session.mSocket}
    {
      mSocketToSession := mSocketToSession - {session.mSocket};
      interest := interest - {session.mSocket};
    }

    /** What ProcessAccept does for a session it has just added; one whose socket cannot be
        registered is left in the manager. */
    method Register(session: Session, registers: bool)
      modifies session`mState, `mSocketToSession, `interest
      ensures session.mState == Connected
      ensures var table, watched := old(mSocketToSession)[session.mSocket := session.mID], old(interest);
              && mSocketToSession == (if registers then table else table - {session.mSocket})
              && interest == (if registers then watched[session.mSocket := false] else watched - {session.mSocket})
    {
      session.mState := Connected;
      mSocketToSession := mSocketToSession[session.mSocket := session.mID];
      var ok := RegisterSocket(session.mSocket, registers);
      if !ok {
        CloseSession(session);
      }
    }

    /** The same, with what it means for the wiring. */
    method Enroll(session: Session, registers: bool)
      requires session.Valid() && session.mSocket !in mSocketToSession && session.mSocket !in interest
      modifies session`mState, `mSocketToSession, `interest, `taken
      ensures Looks(session, Seen(Connected, old(session.View())))
      ensures Wires() == V.WiredUp(old(Wires()), session.mID, session.mSocket, registers)
    {
      V.Registering(Wires(), session.mID, session.mSocket, registers);
      taken := taken[session.mID := []];
      Register(session, registers);
      session.Untouched();
    }

    /** The session for a new connection, if there is room for one. */
    method AddClient(fd: nat, ghost others: set<object>) returns (session: Session?)
      requires mSessionManager != null && mSessionManager.Valid() && mSessionManager.adds < ID_RANGE - 1
      modifies mSessionManager
      ensures mSessionManager.Valid()
      ensures session == null <==> |old(mSessionManager.sockets)| >= mSessionManager.mMaxSessions
      ensures session == null ==> unchanged(mSessionManager)
      ensures session != null ==>
                && mSessionManager.adds == old(mSessionManager.adds) + 1
                && mSessionManager.mSessions == old(mSessionManager.mSessions)[session.mID := session]
                && mSessionManager.sockets == old(mSessionManager.sockets)[session.mID := fd]
                && session.Footprint() !! others && session.Valid() && fresh(session)
                && session.View() == E.Initial(2 * MAX_PACKET_SIZE).session
                && session.mSocket == fd && session.mID == NthId(old(mSessionManager.adds))
    {
      mSessionManager.SocketPerSession();
      session := mSessionManager.AddSession(fd, MAX_PACKET_SIZE as SizeT);
    }

    /** close, of a descriptor epoll has never been told of. */
    method Refuse(fd: nat)
      requires fd !in interest
      modifies `interest
      ensures interest == old(interest)
    {
      interest := interest - {fd};
    }

    /** The body of the loop of ProcessAccept, for a new connection. */
    method Admit(fd: nat, registers: bool, ghost others: set<object>) returns (session: Session?)
      requires mSessionManager != null && mSessionManager.Valid() && mSessionManager.adds < ID_RANGE - 1
      requires fd !in mSocketToSession && fd !in interest
      modifies mSessionManager, `mSocketToSession, `interest, `taken
      ensures mSessionManager.Valid()
      ensures session == null <==> |old(mSessionManager.sockets)| >= mSessionManager.mMaxSessions
      ensures session == null ==> unchanged(mSessionManager) && Wires() == old(Wires())
      ensures session != null ==>
                && mSessionManager.adds == old(mSessionManager.adds) + 1
                && mSessionManager.mSessions == old(mSessionManager.mSessions)[session.mID := session]
                && mSessionManager.sockets == old(mSessionManager.sockets)[session.mID := fd]
                && session.Footprint() !! others && session.mID == NthId(old(mSessionManager.adds)) && session.mSocket == fd
                && Looks(session, Seen(Connected, V.NewPipe(registers).session))
                && Wires() == V.WiredUp(old(Wires()), session.mID, fd, registers)
    {
      session := AddClient(fd, others);
      if session == null {
        Refuse(fd);
      } else {
        Enroll(session, registers);
      }
    }

    /** The other sessions are left alone. */
    method AdmitAmong(fd: nat, registers: bool, ghost group: map<nat, Session>, ghost seen: map<nat, Seen>)
      returns (session: Session?)
      requires mSessionManager != null && mSessionManager.Valid() && mSessionManager.adds < ID_RANGE - 1
      requires fd !in mSocketToSession && fd !in interest && Astray(group, seen) == {}
      modifies mSessionManager, `mSocketToSession, `interest, `taken
      ensures mSessionManager.Valid()
      ensures session == null <==> |old(mSessionManager.sockets)| >= mSessionManager.mMaxSessions
      ensures session == null ==> unchanged(mSessionManager) && Wires() == old(Wires())
      ensures session != null ==>
                && mSessionManager.adds == old(mSessionManager.adds) + 1
                && mSessionManager.mSessions == old(mSessionManager.mSessions)[session.mID := session]
                && mSessionManager.sockets == old(mSessionManager.sockets)[session.mID := fd]
                && session.Footprint() !! Footprints(group)
                && session.mID == NthId(old(mSessionManager.adds)) && session.mSocket == fd
                && Looks(session, Seen(Connected, V.NewPipe(registers).session))
                && Wires() == V.WiredUp(old(Wires()), session.mID, fd, registers)
      ensures Astray(group, seen) == {} && mSessionManager == old(mSessionManager) && everyone == old(everyone)
    {
      Elsewhere(this, mSessionManager, group);
      session := Admit(fd, registers, Footprints(group));
    }

    /** After a session has been added to the manager and to `everyone`. */
    lemma Enters(s: V.Server, fd: nat, registers: bool)
      requires mSessionManager != null && mSessionManager.Valid() && mSessionManager.mMaxSessions == s.desk.maxSessions
      requires T.IsNew(s.desk, fd, NthId(s.desk.adds)) && |s.desk.peers| < s.desk.maxSessions
      requires mSessionManager.adds == s.desk.adds + 1
      requires mSessionManager.sockets == s.desk.peers[NthId(s.desk.adds) := fd]
      requires mSessionManager.mSessions == Only(everyone, mSessionManager.mSessions.Keys)
      requires Apart(everyone) && Sockets(everyone) == s.fds[NthId(s.desk.adds) := fd]
      requires Wires() == V.WiredUp(s.wires, NthId(s.desk.adds), fd, registers)
      requires var now := Seen(Connected, V.NewPipe(registers).session);
               Astray(everyone, V.SeenOf(s)[NthId(s.desk.adds) := now]) == {}
      ensures Shows(V.AcceptClient(s, fd, registers))
    {
      V.AcceptTables(s.desk, fd, registers);
      V.AcceptSeen(s, fd, registers);
      assert Keeps(V.AcceptClient(s, fd, registers));
    }

    /** And when there was no room for one. */
    lemma StaysOut(s: V.Server, fd: nat, registers: bool)
      requires Shows(s) && T.IsNew(s.desk, fd, NthId(s.desk.adds)) && |s.desk.peers| >= s.desk.maxSessions
      ensures Shows(V.AcceptClient(s, fd, registers))
    {
      V.AcceptTables(s.desk, fd, registers);
      V.AcceptSeen(s, fd, registers);
      assert Keeps(V.AcceptClient(s, fd, registers));
    }

    ghost method Enlist(more: map<nat, Session>, seen: map<nat, Seen>)
      requires Astray(more, seen) == {}
      modifies `everyone
      ensures everyone == more && Astray(everyone, seen) == {}
    {
      everyone := more;
    }

    /** One turn of the loop. */
    method Accept(fd: nat, registers: bool, ghost s: V.Server)
      requires Shows(s) && s.desk.adds < ID_RANGE - 1 && T.IsNew(s.desk, fd, NthId(s.desk.adds))
      requires NthId(s.desk.adds) !in s.fds && fd !in s.wires.table && fd !in s.wires.interest
      modifies mSessionManager, `mSocketToSession, `interest, `taken, `everyone
      ensures Shows(V.AcceptClient(s, fd, registers))
    {
      ghost var group, seen, part := everyone, V.SeenOf(s), mSessionManager.mSessions;
      assert group.Keys == Sockets(group).Keys;
      var session := AdmitAmong(fd, registers, group, seen);
      if session == null {
        StaysOut(s, fd, registers);
      } else {
        ghost var more := group[session.mID := session];
        Joins(group, seen, session, Seen(Connected, V.NewPipe(registers).session));
        OnlyWith(group, part, session);
        SocketsWith(group, session);
        Enlist(more, seen[session.mID := Seen(Connected, V.NewPipe(registers).session)]);
        Enters(s, fd, registers);
      }
    }

    /** The loop, which leads to `after`. */
    method AcceptLoop(replies: seq<T.Incoming>) returns (ghost after: V.Server)
      requires Shows(server) && V.AcceptsNew(server, replies)
      modifies mSessionManager, `mSocketToSession, `interest, `taken, `everyone
      ensures Shows(after) && after == V.AcceptAll(server, replies)
    {
      after := server;
      var i := 0;
      while true
        invariant i <= |replies|
        invariant Shows(after) && mSessionManager == old(mSessionManager)
        invariant V.AcceptsNew(after, replies[i..])
        invariant V.AcceptAll(after, replies[i..]) == V.AcceptAll(server, replies)
        decreases |replies| - i
      {
        if i == |replies| || !replies[i].Client? {
          break;
        }
        assert replies[i..][1..] == replies[i + 1..];
        Accept(replies[i].fd, replies[i].registers, after);
        after := V.AcceptClient(after, replies[i].fd, replies[i].registers);
        i := i + 1;
      }
    }

    method ProcessAccept(replies: seq<T.Incoming>)
      requires Valid() && T.AcceptsClosed(server.desk, replies)
      modifies mSessionManager, `mSocketToSession, `interest, `taken, `server, `everyone, `past
      ensures Valid() && past == old(past) + [V.Change(T.Acceptable(replies))]
      ensures server == V.AcceptAll(old(server), replies)
    {
      V.ReachedInv(server, past);
      V.TheyAreNew(server, replies);
      ghost var after := AcceptLoop(replies);
      Note(after, V.Change(T.Acceptable(replies)));
    }

    /** The other sessions are left alone. */
    method SetDisconnected(session: Session, ghost rest: map<nat, Session>, ghost seen: map<nat, Seen>)
      requires session.Valid() && Astray(rest, seen) == {} && session as object !in Footprints(rest)
      modifies session`mState
      ensures Astray(rest, seen) == {} && Looks(session, Seen(Disconnected, old(session.View())))
    {
      session.mState := Disconnected;
      session.Untouched();
    }

    /** The end of ProcessDisconnect. */
    method Forget(session: Session)
      requires mSessionManager != null && mSessionManager.Valid()
      modifies mSessionManager, `mSocketToSession, `interest
      ensures mSessionManager.Valid() && mSessionManager.adds == old(mSessionManager.adds)
      ensures mSessionManager.sockets == old(mSessionManager.sockets) - {session.mID}
      ensures mSessionManager.mSessions == old(mSessionManager.mSessions) - {session.mID}
      ensures Wires() == V.Unwired(old(Wires()), session.mSocket)
    {
      CloseSession(session);
      var found := mSessionManager.RemoveSession(session.mID);
    }

    /** The sessions are left alone. */
    method ForgetAmong(session: Session, ghost group: map<nat, Session>, ghost seen: map<nat, Seen>)
      requires mSessionManager != null && mSessionManager.Valid() && Astray(group, seen) == {}
      modifies mSessionManager, `mSocketToSession, `interest
      ensures mSessionManager.Valid() && mSessionManager.adds == old(mSessionManager.adds)
      ensures mSessionManager.sockets == old(mSessionManager.sockets) - {session.mID}
      ensures mSessionManager.mSessions == old(mSessionManager.mSessions) - {session.mID}
      ensures Wires() == V.Unwired(old(Wires()), session.mSocket)
      ensures Astray(group, seen) == {}
    {
      Elsewhere(this, mSessionManager, group);
      Forget(session);
    }

    /** What ProcessDisconnect does with a session that is still connected, and what it means for the
        history. */
    method Leave(session: Session, ghost s: V.Server)
      requires Shows(s) && session.mID in everyone && everyone[session.mID] == session
      requires session.mID in s.pipes && session.mID in s.fds && session.mID in s.desk.peers
      requires T.Known(s.desk, session.mID) && T.StateOf(s.desk, session.mID) == Connected
      modifies mSessionManager, `mSocketToSession, `interest, session`mState
      ensures session.mState == Disconnected
      ensures Shows(V.Hang(s, session.mID, T.DisconnectPeer(s.desk, session.mID)))
    {
      ghost var id, seen, rest, part := session.mID, V.SeenOf(s), everyone - {session.mID}, mSessionManager.mSessions;
      ghost var last := Seen(Disconnected, s.pipes[id].session);
      OneOf(everyone, seen, session);
      OnlyWithout(everyone, part, id);
      SetDisconnected(session, rest, seen);
      Back(everyone, seen, session, last);
      ForgetAmong(session, everyone, seen[id := last]);
      assert Sockets(everyone)[id] == session.mSocket;
      Parts(s, session);
    }

    /** The end of the event `e`, which has led to `s` so far. */
    method Depart(session: Session, ghost s: V.Server, ghost e: V.Event)
      requires Shows(s) && session.mID in everyone && everyone[session.mID] == session
      requires V.Reached(server, past) && V.Ends(server, e, session.mID, s, false)
      modifies mSessionManager, `mSocketToSession, `interest, `server, `past
      modifies session`mState
      ensures Valid() && session.mState == Disconnected
      ensures server == V.Step(old(server), e) && past == old(past) + [e]
      ensures old(session.Valid()) ==> session.Valid() && session.View() == old(session.View())
    {
      Leave(session, s);
      Note(V.Hang(s, session.mID, T.DisconnectPeer(s.desk, session.mID)), e);
    }

    /** ProcessDisconnect, for a session there is: it is disconnected at most once. */
    method Disconnect(session: Session)
      requires Valid() && Known(session)
      modifies mSessionManager, `mSocketToSession, `interest, `server, `past
      modifies session`mState
      ensures Valid() && past == old(past) + [V.Change(T.Hangup(session.mID))]
      ensures session.mState == Disconnected
      ensures V.Enabled(old(server), V.Change(T.Hangup(session.mID)))
      ensures server == V.Step(old(server), V.Change(T.Hangup(session.mID)))
    {
      ItFits(session);
      if session.mState == Disconnected {
        Note(server, V.Change(T.Hangup(session.mID)));
        return;
      }
      V.HangupEnds(server, session.mID);
      Depart(session, server, V.Change(T.Hangup(session.mID)));
    }

    method ProcessDisconnect(session: Session?)
      requires Valid() && (session != null ==> Known(session))
      modifies mSessionManager, `mSocketToSession, `interest, `server, `past
      modifies if session == null then {} else {session}`mState
      ensures Valid()
      ensures session == null ==> server == old(server)
      ensures session != null ==>
                && V.Enabled(old(server), V.Change(T.Hangup(session.mID)))
                && server == V.Step(old(server), V.Change(T.Hangup(session.mID))) && session.mState == Disconnected
    {
      if session != null {
        Disconnect(session);
      }
    }

    /** The loop of ProcessReceive: `desk` has the callbacks it makes, and `closed` is that it ends with
        a disconnect. */
    method Deliver(id: nat, replies: seq<T.Reply>) returns (closed: bool, ghost desk: T.Desk)
      requires T.Known(server.desk, id)
      ensures desk == server.desk.(histories := desk.histories) && T.Known(desk, id)
      ensures T.ReceiveAll(server.desk, id, replies) == if closed then T.DisconnectPeer(desk, id) else desk
      ensures closed <==> T.Breaks(replies)
    {
      desk := server.desk;
      var i := 0;
      while i < |replies| && replies[i].Data?
        invariant i <= |replies| && forall j | 0 <= j < i :: replies[j].Data?
        invariant desk == server.desk.(histories := desk.histories) && T.Known(desk, id)
        invariant T.ReceiveAll(desk, id, replies[i..]) == T.ReceiveAll(server.desk, id, replies)
      {
        assert replies[i..][1..] == replies[i + 1..];
        desk := T.Call(desk, id, OnReceive);
        i := i + 1;
      }
      closed := i < |replies| && replies[i] != T.Again;
      assert i == T.Deliveries(replies);
    }

    /** Callbacks change nothing else. */
    lemma Called(s: V.Server, after: V.Server)
      requires Shows(s) && after == s.(desk := s.desk.(histories := after.desk.histories))
      ensures Shows(after)
    {
      assert V.SeenOf(after) == V.SeenOf(s);
    }

    /** ProcessReceive, for a session there is. */
    method Receive(session: Session, replies: seq<T.Reply>)
      requires Valid() && Known(session)
      modifies mSessionManager, `mSocketToSession, `interest, `server, `past
      modifies session`mState
      ensures Valid() && past == old(past) + [V.Change(T.Readable(session.mID, replies))]
      ensures V.Enabled(old(server), V.Change(T.Readable(session.mID, replies)))
      ensures server == V.Step(old(server), V.Change(T.Readable(session.mID, replies)))
      ensures session.mState == if old(session.mState) == Connected && T.Breaks(replies) then Disconnected
                                else old(session.mState)
    {
      ItFits(session);
      if session.mState != Connected {
        Note(server, V.Change(T.Readable(session.mID, replies)));
        return;
      }
      ghost var desk;
      var closed;
      closed, desk := Deliver(session.mID, replies);
      ghost var called := server.(desk := desk);
      Called(server, called);
      V.ReceiveEnds(server, session.mID, replies, closed, desk);
      if !closed {
        Note(called, V.Change(T.Readable(session.mID, replies)));
        return;
      }
      Depart(session, called, V.Change(T.Readable(session.mID, replies)));
    }

    method ProcessReceive(session: Session?, replies: seq<T.Reply>)
      requires Valid() && (session != null ==> Known(session))
      modifies mSessionManager, `mSocketToSession, `interest, `server, `past
      modifies if session == null then {} else {session}`mState
      ensures Valid()
      ensures session == null ==> server == old(server)
      ensures session != null ==>
                && V.Enabled(old(server), V.Change(T.Readable(session.mID, replies)))
                && server == V.Step(old(server), V.Change(T.Readable(session.mID, replies)))
                && session.mState == if old(session.mState) == Connected && T.Breaks(replies) then Disconnected
                                     else old(session.mState)
    {
      if session != null {
        Receive(session, replies);
      }
    }

    // ---- Sending ----

    method ModifySocket(session: Session, writable: bool, ctlOk: bool) returns (ok: bool)
      modifies `interest, `ctlFailed
      ensures Wires() == V.Asked(old(Wires()), session.mID, session.mSocket, writable, ctlOk)
      ensures ok <==> session.mSocket in mSocketToSession && ctlOk
    {
      if session.mSocket !in mSocketToSession {
        return false;
      }
      if !ctlOk {
        ctlFailed := ctlFailed + {session.mID};
        return false;
      }
      interest := interest[session.mSocket := writable];
      return true;
    }

    /** The Send of a session, under its lock.  Nothing is asked of epoll for another descriptor. */
    method Enqueue(session: Session, ghost caller: nat, buffer: PacketBuffer, ctlOk: bool) returns (ok: bool)
      requires buffer.Valid() && !buffer.IsEmpty() && session.Valid() && mSocketToSession.Keys <= interest.Keys && session.mID in taken
      modifies session`mIsSending, session`log, session`oversized, session`idleOverflow
      modifies session.mSendBuffer, session.mSendBuffer.mBuffer, `interest, `ctlFailed
      ensures session.Valid()
      ensures (SendView(session), ok) == E.Send(old(SendView(session)), caller, old(buffer.Contents()), ctlOk)
      ensures Wires() == V.Tuned(old(Wires()), session.mID, session.mSocket, SendView(session))
    {
      ghost var wires := Wires();
      var written := session.Enqueue(caller, buffer.GetData()[..buffer.GetSize()]);
      V.UntouchedIsTuned(wires, session.mID, session.mSocket, session.View());
      if written as int < buffer.GetSize() {
        return false;
      }
      if !session.mIsSending {
        session.mIsSending := true;
        V.AskedIsTuned(wires, session.mID, session.mSocket, session.View(), true, ctlOk);
        var modified := ModifySocket(session, true, ctlOk);
      }
      return true;
    }

    /** The other sessions are left alone. */
    method EnqueueAmong(session: Session, ghost caller: nat, buffer: PacketBuffer, ctlOk: bool, ghost data: seq<byte>,
                        ghost rest: map<nat, Session>, ghost seen: map<nat, Seen>) returns (ok: bool)
      requires session.Valid() && mSocketToSession.Keys <= interest.Keys && session.mID in taken
      requires Astray(rest, seen) == {} && session.Footprint() !! Footprints(rest)
      requires buffer.Valid() && data != [] && data == buffer.Contents()
      modifies session`mIsSending, session`log, session`oversized, session`idleOverflow
      modifies session.mSendBuffer, session.mSendBuffer.mBuffer, `interest, `ctlFailed
      ensures session.Valid()
      ensures (SendView(session), ok) == E.Send(old(SendView(session)), caller, data, ctlOk)
      ensures Wires() == V.Tuned(old(Wires()), session.mID, session.mSocket, SendView(session))
      ensures Astray(rest, seen) == {} && session.mState == old(session.mState)
      ensures mSessionManager == old(mSessionManager) && server == old(server) && everyone == old(everyone)
    {
      ok := Enqueue(session, caller, buffer, ctlOk);
    }

    lemma NeitherOf(session: Session)
      requires mSessionManager != null
      ensures this as object !in session.Footprint() && mSessionManager as object !in session.Footprint()
    {
    }

    /** The same, with what it means for the history. */
    method Post(session: Session, ghost caller: nat, buffer: PacketBuffer, ctlOk: bool, ghost data: seq<byte>)
      returns (ok: bool)
      requires Shows(server) && Fits(session) && buffer.Valid() && data != [] && data == buffer.Contents()
      modifies session`mIsSending, session`log, session`oversized, session`idleOverflow
      modifies session.mSendBuffer, session.mSendBuffer.mBuffer, `interest, `ctlFailed
      ensures session.Valid()
      ensures (SendView(session), ok) == E.Send(old(SendView(session)), caller, data, ctlOk)
      ensures Wires() == V.Tuned(old(Wires()), session.mID, session.mSocket, SendView(session))
      ensures old(Owns(session)) ==> Shows(V.SetPipe(server, session.mID, SendView(session)))
      ensures server == old(server) && past == old(past) && everyone == old(everyone)
      ensures mSessionManager == old(mSessionManager) && session.mState == old(session.mState)
    {
      ghost var seen, rest, owned := V.SeenOf(server), everyone - {session.mID}, Owns(session);
      OneOf(everyone, seen, session);
      NeitherOf(session);
      ok := EnqueueAmong(session, caller, buffer, ctlOk, data, rest, seen);
      if owned {
        Rejoins(server, session, SendView(session));
      }
    }

    /** The same, with the event that it is.  Of a Send to a session whose descriptor has become
        another's it is only said what it does to its own ring and to what is asked for that descriptor. */
    method Submit(session: Session, ghost caller: nat, buffer: PacketBuffer, ctlOk: bool, ghost data: seq<byte>)
      returns (ok: bool)
      requires Valid() && Fits(session) && buffer.Valid() && !buffer.IsEmpty() && data == buffer.Contents()
      modifies session`mIsSending, session`log, session`oversized, session`idleOverflow
      modifies session.mSendBuffer, session.mSendBuffer.mBuffer, `interest, `ctlFailed, `server, `past
      ensures session.Valid() && (SendView(session), ok) == E.Send(old(SendView(session)), caller, data, ctlOk)
      ensures old(Owns(session)) ==>
                Valid() && V.Sent(old(server), session.mID, caller, data, ctlOk, server, ok)
      ensures !old(Owns(session)) ==>
                && server == old(server)
                && Wires() == V.Tuned(old(Wires()), session.mID, session.mSocket, SendView(session))
    {
      ghost var owned := Owns(session);
      assert owned ==> V.Enabled(server, V.CallSend(session.mID, caller, data, ctlOk));
      ok := Post(session, caller, buffer, ctlOk, data);
      if owned {
        NoteFor(session, V.SetPipe(server, session.mID, SendView(session)), V.CallSend(session.mID, caller, data, ctlOk));
      }
    }

    /** Refuses null and the empty buffer.  Whatever the session, the ring takes what fits of the buffer, and
        the answer is true exactly if that is all of it. */
    method Send(session: Session?, ghost caller: nat, buffer: PacketBuffer, ctlOk: bool) returns (ok: bool)
      requires Valid() && buffer.Valid() && (session != null ==> Known(session))
      modifies if session == null then {} else session.Footprint(), `interest, `ctlFailed, `server, `past
      ensures session == null ==> !ok && Valid() && server == old(server)
      ensures session != null ==> session.mState == old(session.mState) && old(session.Valid()) && session.Valid()
      ensures session != null ==> (ok <==> 0 < old(|buffer.Contents()|) <= old(M.Free(session.View())))
      ensures session != null ==>
                session.View().queue == old(session.View().queue)
                                        + old(buffer.Contents()[..Min(|buffer.Contents()|, M.Free(session.View()))])
      ensures session != null && old(Owns(session)) ==>
                Valid() && V.Sent(old(server), session.mID, caller, old(buffer.Contents()), ctlOk, server, ok)
      ensures session != null && !old(Owns(session)) ==>
                && server == old(server)
                && (SendView(session), ok) == E.Send(old(SendView(session)), caller, old(buffer.Contents()), ctlOk)
                && Wires() == V.Tuned(old(Wires()), session.mID, session.mSocket, SendView(session))
    {
      if session == null {
        return false;
      }
      ItFits(session);
      E.SendResult(SendView(session), caller, buffer.Contents(), ctlOk);
      if buffer.IsEmpty() {
        Nothing(session, caller, ctlOk);
        return false;
      }
      ok := Submit(session, caller, buffer, ctlOk, buffer.Contents());
    }

    /** Sending nothing changes nothing. */
    lemma Nothing(session: Session, caller: nat, ctlOk: bool)
      requires Valid() && Fits(session)
      ensures E.Send(SendView(session), caller, [], ctlOk) == (SendView(session), false)
      ensures Wires() == V.Tuned(Wires(), session.mID, session.mSocket, SendView(session))
      ensures Owns(session) ==> V.Sent(server, session.mID, caller, [], ctlOk, server, false)
    {
      V.UntouchedIsTuned(Wires(), session.mID, session.mSocket, session.View());
      V.ReachedInv(server, past);
      V.PipeIsAsWired(server, session.mID);
    }

    /** One turn of the send loop up to the call of send: the bytes offered to it. */
    method Offer(session: Session) returns (data: seq<byte>)
      requires session.Valid()
      ensures data == session.View().queue[..Min(DEFAULT_BUFFER_SIZE, |session.View().queue|)]
    {
      var sendBuffer := new byte[DEFAULT_BUFFER_SIZE];
      var dataSize := session.mSendBuffer.Peek(sendBuffer, DEFAULT_BUFFER_SIZE as SizeT);
      assert sendBuffer[..dataSize] == sendBuffer[..][..dataSize];
      data := sendBuffer[..dataSize];
    }

    /** What the loop of ProcessSend does when nothing is left to be sent. */
    method Withdraw(session: Session, ctlOk: bool)
      requires session.Valid() && mSocketToSession.Keys <= interest.Keys && session.mID in taken && session.View().queue == []
      modifies session`mIsSending, `interest, `ctlFailed
      ensures session.Valid()
      ensures (SendView(session), true) == E.Loop(old(SendView(session)), [], ctlOk)
      ensures Wires() == V.Tuned(old(Wires()), session.mID, session.mSocket, SendView(session))
    {
      session.mIsSending := false;
      V.AskedIsTuned(Wires(), session.mID, session.mSocket, session.View(), false, ctlOk);
      var modified := ModifySocket(session, false, ctlOk);
    }

    /** A turn of the send loop after a call of send by which the system took something. */
    method Advance(session: Session, ghost data: seq<byte>, sent: nat, ghost wires: V.Wiring)
      requires session.Valid() && session.mID in taken && data == E.Offered(session.View()) && 0 < sent <= |data|
      requires Wires() == V.More(wires, session.mID, taken[session.mID])
      modifies session.mSendBuffer`mReadPos, session.mSendBuffer`consumed, `taken
      ensures session.Valid() && session.mID in taken
      ensures Wires() == V.More(wires, session.mID, taken[session.mID])
      ensures SendView(session) == E.Skipped(E.Taken(old(SendView(session)), sent), sent)
      ensures |session.View().queue| < |old(session.View().queue)|
    {
      ghost var more := taken[session.mID] + data[..sent];
      assert taken[session.mID := more] == wires.taken[session.mID := more];
      taken := taken[session.mID := more];
      var skipped := session.mSendBuffer.Skip(sent as SizeT);
    }

    /** The loop of ProcessSend without what follows a disconnect: `alive` is false when it has to be
        made. */
    method SendLoop(session: Session, replies: seq<E.Reply>, ctlOk: bool) returns (alive: bool)
      requires session.Valid() && mSocketToSession.Keys <= interest.Keys && session.mID in taken
      modifies session`mIsSending, session.mSendBuffer`mReadPos, session.mSendBuffer`consumed
      modifies `interest, `ctlFailed, `taken
      ensures session.Valid()
      ensures (SendView(session), alive) == E.Loop(old(SendView(session)), replies, ctlOk)
      ensures Wires() == V.Tuned(old(Wires()), session.mID, session.mSocket, SendView(session))
    {
      ghost var wires := Wires();
      assert V.More(wires, session.mID, taken[session.mID]) == wires;
      var i := 0;
      while true
        modifies session.mSendBuffer`mReadPos, session.mSendBuffer`consumed, `taken
        invariant i <= |replies|
        invariant session.Valid() && session.mID in taken
        invariant Wires() == V.More(wires, session.mID, taken[session.mID])
        invariant E.Loop(SendView(session), replies[i..], ctlOk) == E.Loop(old(SendView(session)), replies, ctlOk)
        decreases |session.View().queue|
      {
        if session.mSendBuffer.GetAvailableRead() == 0 {
          break;
        }
        var data := Offer(session);
        if i == |replies| || !replies[i].Sent? {
          E.LastReply(SendView(session), replies[i..], ctlOk);
          V.MoreIsTuned(wires, session.mID, session.mSocket, session.View(), taken[session.mID]);
          return i == |replies| || replies[i].Again?;
        }
        E.OneTurn(SendView(session), replies[i..], ctlOk);
        assert replies[i..][1..] == replies[i + 1..];
        Advance(session, data, E.Clamp(replies[i].n, |data|), wires);
        i := i + 1;
      }
      ghost var sent := taken[session.mID];
      E.NothingLeft(SendView(session), replies[i..], ctlOk);
      Withdraw(session, ctlOk);
      V.TunedOverMore(wires, session.mID, session.mSocket, SendView(session), sent);
      return true;
    }

    /** The other sessions are left alone. */
    method SendLoopAmong(session: Session, replies: seq<E.Reply>, ctlOk: bool,
                         ghost rest: map<nat, Session>, ghost seen: map<nat, Seen>) returns (alive: bool)
      requires session.Valid() && mSocketToSession.Keys <= interest.Keys && session.mID in taken
      requires Astray(rest, seen) == {} && session.Footprint() !! Footprints(rest)
      modifies session`mIsSending, session.mSendBuffer`mReadPos, session.mSendBuffer`consumed
      modifies `interest, `ctlFailed, `taken
      ensures session.Valid()
      ensures (SendView(session), alive) == E.Loop(old(SendView(session)), replies, ctlOk)
      ensures Wires() == V.Tuned(old(Wires()), session.mID, session.mSocket, SendView(session))
      ensures Astray(rest, seen) == {}
    {
      alive := SendLoop(session, replies, ctlOk);
    }

    /** The same, with what it means for the history. */
    method Push(session: Session, replies: seq<E.Reply>, ctlOk: bool) 
      returns (alive: bool, ghost p: E.State)
      requires Shows(server) && Fits(session)
      modifies session`mIsSending, session.mSendBuffer`mReadPos, session.mSendBuffer`consumed
      modifies `interest, `ctlFailed, `taken
      ensures session.Valid() && p == SendView(session)
      ensures (p, alive) == E.Loop(old(SendView(session)), replies, ctlOk)
      ensures Wires() == V.Tuned(old(Wires()), session.mID, session.mSocket, p)
      ensures old(Owns(session)) ==> Shows(V.SetPipe(server, session.mID, p))
      ensures mSessionManager == old(mSessionManager) && server == old(server) && past == old(past)
      ensures everyone == old(everyone) && session.mState == old(session.mState)
    {
      ghost var seen, rest, owned := V.SeenOf(server), everyone - {session.mID}, Owns(session);
      OneOf(everyone, seen, session);
      NeitherOf(session);
      alive := SendLoopAmong(session, replies, ctlOk, rest, seen);
      p := SendView(session);
      if owned {
        Rejoins(server, session, p);
      }
    }

    /** What the system has taken is gone from the ring, and no more. */
    static ghost predicate Sends(s: M.Session, after: M.Session, replies: seq<E.Reply>) {
      after.queue == s.queue[E.Total(|s.queue|, replies)..]
    }

    static function StateAfter(state: SessionState, s: M.Session, replies: seq<E.Reply>): SessionState {
      if state == Connected && E.Breaks(|s.queue|, replies) then Disconnected else state
    }

    /** ProcessSend, for a session there is: it sends what the socket takes, and a failure disconnects
        the session unless it has been before. */
    method Transmit(session: Session, replies: seq<E.Reply>, ctlOk: bool)
      requires Valid() && Fits(session) && T.Registered(server.desk, session.mID)
      modifies session`mIsSending, session`mState, session.mSendBuffer`mReadPos, session.mSendBuffer`consumed
      modifies `interest, `ctlFailed, `taken
      modifies mSessionManager, `mSocketToSession, `server, `past
      ensures session.Valid() && Sends(old(session.View()), session.View(), replies)
      ensures session.mState == StateAfter(old(session.mState), old(session.View()), replies)
      ensures old(Owns(session)) ==>
                && Valid() && V.Enabled(old(server), V.Writable(session.mID, replies, ctlOk))
                && server == V.Step(old(server), V.Writable(session.mID, replies, ctlOk))
      ensures !old(Owns(session)) ==>
                && server == old(server)
                && SendView(session) == E.Loop(old(SendView(session)), replies, ctlOk).0
                && Wires() == V.Tuned(old(Wires()), session.mID, session.mSocket, SendView(session))
    {
      ghost var owned, e := Owns(session), V.Writable(session.mID, replies, ctlOk);
      V.ProcessSendEnds(server, session.mID, replies, ctlOk);
      E.LoopSends(SendView(session), replies, ctlOk);
      NeitherOf(session);
      ghost var p;
      var alive;
      alive, p := Push(session, replies, ctlOk);
      if alive || session.mState == Disconnected {
        if owned {
          NoteFor(session, V.SetPipe(server, session.mID, p), e);
        }
        return;
      }
      Depart(session, V.SetPipe(server, session.mID, p), e);
    }

    method ProcessSend(session: Session?, replies: seq<E.Reply>, ctlOk: bool)
      requires Valid() && (session != null ==> Known(session))
      modifies if session == null then {} else {session, session.mSendBuffer}, `interest, `ctlFailed, `taken
      modifies mSessionManager, `mSocketToSession, `server, `past
      ensures session == null ==> Valid() && server == old(server)
      ensures session != null ==>
                && old(session.Valid()) && session.Valid() && Sends(old(session.View()), session.View(), replies)
                && session.mState == StateAfter(old(session.mState), old(session.View()), replies)
      ensures session != null && old(Owns(session)) ==>
                && Valid() && V.Enabled(old(server), V.Writable(session.mID, replies, ctlOk))
                && server == V.Step(old(server), V.Writable(session.mID, replies, ctlOk))
      ensures session != null && !old(Owns(session)) ==>
                && server == old(server)
                && SendView(session) == E.Loop(old(SendView(session)), replies, ctlOk).0
                && Wires() == V.Tuned(old(Wires()), session.mID, session.mSocket, SendView(session))
    {
      if session != null {
        ItFits(session);
        Transmit(session, replies, ctlOk);
      }
    }
  }
}
