/** Which client sockets of the IOCP model are ever closed. */
module IocpSockets {
  import opened Types
  import opened Counting
  import opened IocpContexts
  import opened IocpProperties

  /** It is the socket of a session in the manager. */
  ghost predicate Owned(l: Ledger, socket: nat) {
    exists id :: id in l.sessions && l.sessions[id].connected && l.sessions[id].socket == socket
  }

  /** Open, with no context and no session in the manager left to close it. */
  ghost predicate Lost(l: Ledger, socket: nat) {
    socket in l.sockets && !Pending(l, socket) && !Owned(l, socket)
  }

  /** The completion makes ProcessDisconnect end its session. */
  ghost predicate Ends(l: Ledger, e: Event)
    requires Enabled(l, e)
  {
    && e.Handle?
    && var x := l.live[e.c];
    && (if !e.ok || e.bytes == 0 then !x.operation.Accept? else x.operation.Disconnect?)
    && x.session.Some? && x.session.value in l.sessions && l.sessions[x.session.value].connected
  }

  /** Sessions, their sockets and whether they are connected are as they were, and no socket is closed. */
  ghost predicate KeepsOwners(l: Ledger, after: Ledger) {
    && l.sockets <= after.sockets
    && after.sessions.Keys == l.sessions.Keys
    && forall id | id in l.sessions ::
         after.sessions[id].socket == l.sessions[id].socket && after.sessions[id].connected == l.sessions[id].connected
  }

  lemma CallSendKeepsOwners(l: Ledger, id: nat, n: nat, accepted: bool)
    requires id in l.sessions && l.sessions[id].queued <= l.sessions[id].capacity
    ensures KeepsOwners(l, CallSend(l, id, n, accepted))
  {
  }

  lemma ProcessSendKeepsOwners(l: Ledger, session: Option<nat>, bytes: nat, accepted: bool)
    ensures KeepsOwners(l, ProcessSend(l, session, bytes, accepted))
  {
  }

  /** Sockets change hands or are closed only in ProcessAccept, ProcessDisconnect and Shutdown. */
  lemma MostKeepOwners(l: Ledger, e: Event)
    requires Enabled(l, e) && !e.Admit? && !e.Stop? && !Ends(l, e)
    ensures KeepsOwners(l, Step(l, e))
  {
    match e
    case SendCall(id, n, accepted) => CallSendKeepsOwners(l, id, n, accepted);
    case Handle(c, _, bytes, accepted) =>
      if l.live[c].operation.Send? {
        ProcessSendKeepsOwners(Mark(l, c, Handled), l.live[c].session, bytes, accepted);
      }
    case _ =>
  }

  lemma OwnedFollows(l: Ledger, after: Ledger, socket: nat)
    requires KeepsOwners(l, after)
    ensures Owned(after, socket) <==> Owned(l, socket)
  {
    if id :| id in l.sessions && l.sessions[id].connected && l.sessions[id].socket == socket {
      assert id in after.sessions && after.sessions[id].connected;
    }
  }

  /** A context stops being pending when its connection gets a session, or is dropped. */
  lemma PendingStep(l: Ledger, e: Event, socket: nat)
    requires Addressed(l) && Enabled(l, e) && socket < l.next && !e.Admit? && !e.Stop?
    ensures Pending(Step(l, e), socket) <==> Pending(l, socket) && !(e.Handle? && e.c == socket)
  {
    match e
    case SendCall(id, n, accepted) => CallSendGrows(l, id, n, accepted);
    case Handle(d, ok, bytes, accepted) =>
      PerformGrows(Mark(l, d, Handled), l.live[d].operation, l.live[d].session, ok, bytes, accepted);
    case _ =>
  }

  /** A new connection is not lost: its socket goes to the new session, or is closed. */
  lemma AdmitLosesNone(l: Ledger, c: nat, a: Answers, socket: nat)
    requires Inv(l) && AtStage(l, c, Registered) && a.id !in l.sessions && socket in l.sockets
    ensures Lost(AddClient(l, c, a), socket) <==> Lost(l, socket)
  {
    AddClientGrows(l, c, a);
    var after := AddClient(l, c, a);
    assert Pending(l, c) && !Pending(after, c);
    if socket == c {
      assert socket in after.sockets ==> after.sessions[a.id].connected && after.sessions[a.id].socket == socket;
    } else {
      assert socket in after.sockets && (Pending(after, socket) <==> Pending(l, socket));
      if id :| id in l.sessions && l.sessions[id].connected && l.sessions[id].socket == socket {
        assert id in after.sessions && after.sessions[id].connected;
      }
    }
  }

  /** What becomes of a connection: a connected session with its socket if there is room for one, and the
      socket stays open exactly if that session also got its receive. */
  lemma AdmitResult(l: Ledger, c: nat, a: Answers)
    requires Inv(l) && Enabled(l, Admit(c, a))
    ensures var after := AddClient(l, c, a);
            && c in l.sockets
            && (c in after.sockets <==> a.room && a.associates && a.posts)
            && after.sessions.Keys == l.sessions.Keys + (if a.room then {a.id} else {})
            && (a.room ==> after.sessions[a.id].connected && after.sessions[a.id].socket == c)
  {
    assert Pending(l, c);
    AddClientInOrder(l, c, a);
  }

  /** A disconnect loses the socket of its session and no other. */
  lemma EndLosesOne(l: Ledger, e: Event, socket: nat)
    requires Inv(l) && Enabled(l, e) && Ends(l, e) && socket in l.sockets
    ensures Lost(Step(l, e), socket) <==>
              Lost(l, socket) || socket == l.sessions[l.live[e.c].session.value].socket
  {
    PendingStep(l, e, socket);
    var after, ended := Step(l, e), l.live[e.c].session.value;
    assert after.sessions == l.sessions[ended := l.sessions[ended].(connected := false)];
    if id :| id in l.sessions && l.sessions[id].connected && l.sessions[id].socket == socket {
      assert id != ended ==> after.sessions[id].connected && socket != l.sessions[ended].socket;
    }
  }

  /** Shutdown closes exactly the sockets of the sessions in the manager. */
  lemma ShutdownCloses(l: Ledger, socket: nat)
    requires Inv(l) && Quiet(l)
    ensures var after := Shutdown(l);
            && (socket in after.sockets <==> Lost(l, socket) || Pending(l, socket))
            && (socket in after.sockets <==> Lost(after, socket))
            && (Owned(l, socket) ==> socket !in after.sockets)
  {
    var after := Shutdown(l);
    if id :| id in l.sessions && l.sessions[id].connected && l.sessions[id].socket == socket {
      assert id in Managed(l) && socket in ManagedSockets(l);
    }
    assert Pending(l, socket) ==> socket in l.sockets && !Owned(l, socket);
    assert !Owned(after, socket) && !Pending(after, socket);
  }

  /** The completion makes ProcessDisconnect end the session that has this socket. */
  ghost predicate Disconnects(l: Ledger, e: Event, socket: nat)
    requires Enabled(l, e)
  {
    Ends(l, e) && l.sessions[l.live[e.c].session.value].socket == socket
  }

  /** The completion is one of an accept that is taken for an error. */
  ghost predicate DropsAccept(l: Ledger, e: Event, socket: nat)
    requires Enabled(l, e)
  {
    e.Handle? && e.c == socket && l.live[e.c].operation.Accept?
  }

  /** An open socket is lost exactly by a disconnect of its session, by an accept completion that fails
      or is empty, and, if it waits for a connection, by Shutdown; and once lost it stays so. */
  lemma LostExactly(l: Ledger, e: Event, socket: nat)
    requires Inv(l) && Enabled(l, e) && socket in l.sockets
    ensures Lost(Step(l, e), socket) <==>
              || Lost(l, socket) || Disconnects(l, e, socket) || DropsAccept(l, e, socket)
              || (e.Stop? && Pending(l, socket))
  {
    if e.Admit? {
      AdmitLosesNone(l, e.c, e.answers, socket);
    } else if e.Stop? {
      ShutdownCloses(l, socket);
    } else if Ends(l, e) {
      EndLosesOne(l, e, socket);
    } else {
      MostKeepOwners(l, e);
      OwnedFollows(l, Step(l, e), socket);
      PendingStep(l, e, socket);
      assert DropsAccept(l, e, socket) ==> Pending(l, socket) && !Owned(l, socket);
    }
  }

  /** A lost socket stays open over any run, also beyond Shutdown. */
  lemma {:induction false} LostForever(l: Ledger, events: seq<Event>, socket: nat)
    requires Inv(l) && EnabledRun(l, events) && Lost(l, socket)
    ensures Lost(Run(l, events), socket)
    decreases |events|
  {
    if events != [] {
      StepInv(l, events[0]);
      LostExactly(l, events[0], socket);
      LostForever(Step(l, events[0]), events[1..], socket);
    }
  }

  // ---- What is open after Shutdown ----

  ghost predicate OnlyLost(l: Ledger) {
    l.stopped ==> forall socket | socket in l.sockets :: Lost(l, socket)
  }

  lemma OnlyLostStep(l: Ledger, e: Event)
    requires Inv(l) && OnlyLost(l) && Enabled(l, e)
    ensures OnlyLost(Step(l, e))
  {
    forall socket | socket in Step(l, e).sockets && Step(l, e).stopped ensures Lost(Step(l, e), socket) {
      if e.Stop? {
        ShutdownCloses(l, socket);
      } else {
        assert l.stopped && e.Free?;
        LostExactly(l, e, socket);
      }
    }
  }

  /** After Shutdown the sockets still open are exactly those that were lost: of the sessions in the
      manager none is. */
  lemma {:induction false} OpenAfterShutdown(l: Ledger, events: seq<Event>)
    requires Inv(l) && OnlyLost(l) && EnabledRun(l, events)
    ensures OnlyLost(Run(l, events))
    decreases |events|
  {
    if events != [] {
      StepInv(l, events[0]);
      OnlyLostStep(l, events[0]);
      OpenAfterShutdown(Step(l, events[0]), events[1..]);
    }
  }

  // ---- Counting the calls of close ----

  ghost predicate Balanced(l: Ledger) {
    && l.created + l.doubles == l.closes + |l.sockets|
    && (!l.stopped ==> l.doubles == 0)
  }

  lemma RegisterAcceptBalance(l: Ledger, a: Accepting)
    requires Balanced(l) && l.next !in l.sockets
    ensures Balanced(RegisterAccept(l, a))
  {
  }

  /** The sockets Shutdown closes for the first time, by session. */
  ghost function StillOpen(l: Ledger): map<nat, nat> {
    map id | id in Managed(l) && l.sessions[id].socket in l.sockets :: l.sessions[id].socket
  }

  lemma ManagedCount(l: Ledger)
    ensures |Managed(l)| == |StillOpen(l)| + |Failed(l)|
  {
    assert Managed(l) == StillOpen(l).Keys + Failed(l);
    Disjoint(StillOpen(l).Keys, Failed(l));
    assert |StillOpen(l)| == |StillOpen(l).Keys|;
  }

  lemma StillOpenSockets(l: Ledger)
    ensures Image(StillOpen(l)) <= l.sockets
    ensures Shutdown(l).sockets == l.sockets - Image(StillOpen(l))
  {
    var m := StillOpen(l);
    forall s | s in l.sockets ensures s in Image(m) <==> s in ManagedSockets(l) {
      if s in ManagedSockets(l) {
        var id :| id in Managed(l) && l.sessions[id].socket == s;
        assert id in m;
      }
    }
  }

  lemma ShutdownCounts(l: Ledger)
    requires forall i, j | i in l.sessions && j in l.sessions && l.sessions[i].socket == l.sessions[j].socket :: i == j
    ensures |Managed(l)| == |StillOpen(l)| + |Failed(l)|
    ensures |Shutdown(l).sockets| == |l.sockets| - |StillOpen(l)|
  {
    ManagedCount(l);
    StillOpenSockets(l);
    DistinctImage(StillOpen(l));
    assert |l.sockets - Image(StillOpen(l))| == |l.sockets| - |Image(StillOpen(l))|;
  }

  lemma AdmitBalance(l: Ledger, c: nat, a: Answers)
    requires Balanced(l) && c in l.live && c in l.sockets
    ensures Balanced(AddClient(l, c, a))
  {
    AddClientInOrder(l, c, a);
  }

  lemma BalanceStep(l: Ledger, e: Event)
    requires Inv(l) && Balanced(l) && Enabled(l, e)
    ensures Balanced(Step(l, e))
  {
    match e
    case Listen(_, a) => RegisterAcceptBalance(l, a);
    case SendCall(_, _, _) =>
    case Renew(c, a) => RegisterAcceptBalance(Mark(l, c, Registered), a);
    case Admit(c, a) =>
      assert Pending(l, c);
      AdmitBalance(l, c, a);
    case Handle(c, ok, bytes, accepted) =>
      PerformBalance(Mark(l, c, Handled), l.live[c].operation, l.live[c].session, ok, bytes, accepted);
    case Stop => ShutdownCounts(l);
    case _ =>
  }

  lemma PerformBalance(l: Ledger, operation: Operation, session: Option<nat>, ok: bool, bytes: nat, accepted: bool)
    requires Balanced(l)
    ensures Balanced(Perform(l, operation, session, ok, bytes, accepted))
  {
  }

  /** Calls of close and open sockets add up to the sockets made, counting apart the calls on sockets
      that Shutdown finds closed already. */
  lemma {:induction false} RunBalance(l: Ledger, events: seq<Event>)
    requires Inv(l) && Balanced(l) && EnabledRun(l, events)
    ensures Balanced(Run(l, events))
    decreases |events|
  {
    if events != [] {
      StepInv(l, events[0]);
      BalanceStep(l, events[0]);
      RunBalance(Step(l, events[0]), events[1..]);
    }
  }

  /** After Shutdown there have been as many calls of close as sockets if and only if as many sockets
      are lost as sessions in the manager had theirs closed before. */
  lemma ShutdownBalance(events: seq<Event>)
    requires EnabledRun(Initial(), events) && Enabled(Run(Initial(), events), Stop)
    ensures var l := Run(Initial(), events);
            var after := Shutdown(l);
            && after.created + |Failed(l)| == after.closes + |after.sockets|
            && (after.closes == after.created <==> |Failed(l)| == |after.sockets|)
            && OnlyLost(after)
  {
    RunInv(Initial(), events);
    RunBalance(Initial(), events);
    OpenAfterShutdown(Initial(), events);
    BalanceStep(Run(Initial(), events), Stop);
    OnlyLostStep(Run(Initial(), events), Stop);
  }
}
