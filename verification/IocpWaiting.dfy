/** What the IOCP model waits for, and how long: the next connection, and the next bytes of each session. */
module IocpWaiting {
  import opened Types
  import opened IocpContexts
  import opened IocpProperties

  /** An accept is in the kernel, or its completion is still to be handled; and the same of a receive. */
  ghost predicate Waits(l: Ledger, operation: Operation, session: Option<nat>) {
    exists c :: WaitsWith(l, operation, session, c)
  }

  ghost predicate WaitsWith(l: Ledger, operation: Operation, session: Option<nat>, c: nat) {
    c in l.live && l.live[c].Active() && l.live[c].operation == operation && l.live[c].session == session
  }

  lemma OnlyOne(l: Ledger, operation: Operation, session: Option<nat>, c: nat, d: nat)
    requires OneEach(l) && WaitsWith(l, operation, session, c) && WaitsWith(l, operation, session, d)
    ensures c == d
  {
  }

  /** What was waited with is still, what is not active is not waited with, and there is nothing new. */
  ghost predicate WaitsOn(l: Ledger, after: Ledger, operation: Operation, session: Option<nat>) {
    forall c :: WaitsWith(after, operation, session, c) <==> WaitsWith(l, operation, session, c)
  }

  lemma StillWaits(l: Ledger, after: Ledger, operation: Operation, session: Option<nat>)
    requires WaitsOn(l, after, operation, session)
    ensures Waits(after, operation, session) <==> Waits(l, operation, session)
  {
    if c :| WaitsWith(l, operation, session, c) {
      assert WaitsWith(after, operation, session, c);
    }
    if c :| WaitsWith(after, operation, session, c) {
      assert WaitsWith(l, operation, session, c);
    }
  }

  /** Of accepts and receives only. */
  ghost predicate SendsOnly(l: Ledger, after: Ledger) {
    && Grows(l, after)
    && forall d | d in after.live && l.next <= d :: after.live[d].operation.Send?
  }

  lemma SendsAddNone(l: Ledger, after: Ledger, operation: Operation, session: Option<nat>)
    requires Addressed(l) && Addressed(after) && SendsOnly(l, after) && !operation.Send?
    ensures WaitsOn(l, after, operation, session)
  {
  }

  lemma PerformSends(l: Ledger, operation: Operation, session: Option<nat>, ok: bool, bytes: nat, accepted: bool)
    requires Addressed(l)
    ensures var after := Perform(l, operation, session, ok, bytes, accepted);
            Addressed(after) && SendsOnly(l, after)
  {
    PerformGrows(l, operation, session, ok, bytes, accepted);
  }

  lemma CallSends(l: Ledger, id: nat, n: nat, accepted: bool)
    requires Addressed(l) && id in l.sessions && l.sessions[id].queued <= l.sessions[id].capacity
    ensures var after := CallSend(l, id, n, accepted);
            Addressed(after) && SendsOnly(l, after)
  {
    CallSendGrows(l, id, n, accepted);
  }

  // ---- Connections ----

  ghost predicate Listens(l: Ledger) {
    Waits(l, Accept, None)
  }

  /** The accept is taken for an error, the next is refused, or the model is shut down. */
  ghost predicate StopsListening(l: Ledger, e: Event)
    requires Enabled(l, e)
  {
    || (e.Handle? && l.live[e.c].operation.Accept?)
    || (e.Renew? && !e.accepting.Ok())
    || e.Stop?
  }

  lemma MarkWaits(l: Ledger, c: nat, stage: Stage, operation: Operation, session: Option<nat>)
    requires c in l.live
    requires l.live[c].operation != operation || l.live[c].session != session
             || (l.live[c].Active() <==> l.live[c].(stage := stage).Active())
    ensures WaitsOn(l, Mark(l, c, stage), operation, session)
  {
  }

  lemma DoneWaiting(l: Ledger, c: nat, stage: Stage, operation: Operation, session: Option<nat>)
    requires OneEach(l) && WaitsWith(l, operation, session, c) && !l.live[c].(stage := stage).Active()
    ensures !Waits(Mark(l, c, stage), operation, session)
  {
    forall d ensures !WaitsWith(Mark(l, c, stage), operation, session, d) {
      if WaitsWith(Mark(l, c, stage), operation, session, d) {
        OnlyOne(l, operation, session, c, d);
      }
    }
  }

  lemma HandleWaits(l: Ledger, c: nat, ok: bool, bytes: nat, accepted: bool, operation: Operation, session: Option<nat>)
    requires Inv(l) && Enabled(l, Handle(c, ok, bytes, accepted)) && !operation.Send?
    ensures var done := l.live[c].operation == operation && l.live[c].session == session
                        && !Delivers(l, l.live[c], ok, bytes);
            if done then !Waits(Dispatch(l, c, ok, bytes, accepted), operation, session)
            else WaitsOn(l, Dispatch(l, c, ok, bytes, accepted), operation, session)
  {
    var x := l.live[c];
    if Delivers(l, x, ok, bytes) {
      MarkWaits(l, c, Checked, operation, session);
    } else {
      var marked := Mark(l, c, Handled);
      PerformSends(marked, x.operation, x.session, ok, bytes, accepted);
      SendsAddNone(marked, Dispatch(l, c, ok, bytes, accepted), operation, session);
      if x.operation == operation && x.session == session {
        DoneWaiting(l, c, Handled, operation, session);
        StillWaits(marked, Dispatch(l, c, ok, bytes, accepted), operation, session);
      } else {
        MarkWaits(l, c, Handled, operation, session);
      }
    }
  }

  lemma RenewListens(l: Ledger, c: nat, a: Accepting)
    requires Inv(l) && Enabled(l, Renew(c, a))
    ensures Listens(RegisterNext(l, c, a)) <==> a.Ok()
  {
    assert Active(l, c) && WaitsWith(l, Accept, None, c);
    DoneWaiting(l, c, Registered, Accept, None);
    var marked, after := Mark(l, c, Registered), RegisterNext(l, c, a);
    if a.Ok() {
      assert WaitsWith(after, Accept, None, l.next);
    } else {
      assert WaitsOn(marked, after, Accept, None);
      StillWaits(marked, after, Accept, None);
    }
  }

  lemma AdmitWaits(l: Ledger, c: nat, a: Answers, operation: Operation, session: Option<nat>)
    requires Inv(l) && Enabled(l, Admit(c, a)) && (operation.Receive? ==> session != Some(a.id)) && !operation.Send?
    ensures WaitsOn(l, AddClient(l, c, a), operation, session)
  {
    AddClientGrows(l, c, a);
    AdmitNew(l, c, a);
    MarkWaits(l, c, AddClient(l, c, a).live[c].stage, operation, session);
  }

  /** The only new context is the receive of the new session. */
  lemma AdmitNew(l: Ledger, c: nat, a: Answers)
    requires Addressed(l) && AtStage(l, c, Registered)
    ensures var after := AddClient(l, c, a);
            && Addressed(after) && c in after.live && !after.live[c].Active()
            && forall d | d in after.live && l.next <= d ::
                 after.live[d].operation.Receive? && after.live[d].session == Some(a.id)
  {
    AddClientInOrder(l, c, a);
  }

  lemma DeliveryWaits(l: Ledger, c: nat, accepted: bool, operation: Operation, session: Option<nat>)
    requires Inv(l) && Enabled(l, Delivery(c, accepted))
    requires operation != Receive || session != l.live[c].session
    ensures WaitsOn(l, Deliver(l, c, accepted), operation, session)
  {
  }

  lemma ShutdownWaits(l: Ledger, operation: Operation, session: Option<nat>)
    requires Quiet(l)
    ensures !Waits(Shutdown(l), operation, session)
  {
    forall c ensures !WaitsWith(Shutdown(l), operation, session, c) {}
  }

  lemma OthersListen(l: Ledger, e: Event)
    requires Inv(l) && Enabled(l, e) && !e.Renew? && !e.Handle? && !e.Stop? && (e.Listen? ==> l.running)
    ensures WaitsOn(l, Step(l, e), Accept, None)
  {
    match e
    case Listen(_, _) =>
    case SendCall(id, n, accepted) =>
      CallSends(l, id, n, accepted);
      SendsAddNone(l, Step(l, e), Accept, None);
    case Take(c) => MarkWaits(l, c, Taken, Accept, None);
    case Admit(c, a) => AdmitWaits(l, c, a, Accept, None);
    case Announce(c) => MarkWaits(l, c, Handled, Accept, None);
    case Delivery(c, accepted) => DeliveryWaits(l, c, accepted, Accept, None);
    case Free(c) =>
  }

  lemma StartListens(l: Ledger, ready: bool, a: Accepting)
    requires Inv(l) && !l.running
    ensures Listens(StartListen(l, ready, a)) <==> ready && a.Ok()
  {
    var after := StartListen(l, ready, a);
    if ready && a.Ok() {
      assert WaitsWith(after, Accept, None, l.next);
    } else {
      forall c ensures !WaitsWith(after, Accept, None, c) {
        assert WaitsWith(after, Accept, None, c) ==> WaitsWith(l, Accept, None, c) && l.running;
      }
    }
  }

  /** The model waits for a connection if it has before, and not just one of these events has ended it, or
      if it has just been started. */
  lemma ListeningStep(l: Ledger, e: Event)
    requires Inv(l) && Enabled(l, e)
    ensures Listens(Step(l, e)) <==>
              || (Listens(l) && !StopsListening(l, e))
              || (e.Listen? && !l.running && e.ready && e.accepting.Ok())
  {
    match e
    case Renew(c, a) =>
      assert Active(l, c) && WaitsWith(l, Accept, None, c);
      RenewListens(l, c, a);
    case Handle(c, ok, bytes, accepted) =>
      assert Active(l, c);
      HandleWaits(l, c, ok, bytes, accepted, Accept, None);
      if !l.live[c].operation.Accept? {
        StillWaits(l, Step(l, e), Accept, None);
      }
    case Stop => ShutdownWaits(l, Accept, None);
    case Listen(ready, a) =>
      if l.running {
        OthersListen(l, e);
        StillWaits(l, Step(l, e), Accept, None);
      } else {
        NotRunning(l);
        StartListens(l, ready, a);
      }
    case _ =>
      OthersListen(l, e);
      StillWaits(l, Step(l, e), Accept, None);
  }

  lemma NotRunning(l: Ledger)
    requires Inv(l) && !l.running
    ensures !Listens(l)
  {
  }

  /** Some event of the run stops the model from waiting for connections. */
  ghost predicate StopsListeningOnTheWay(l: Ledger, events: seq<Event>)
    requires EnabledRun(l, events)
    decreases |events|
  {
    events != [] && (StopsListening(l, events[0]) || StopsListeningOnTheWay(Step(l, events[0]), events[1..]))
  }

  lemma StaysStarted(l: Ledger, e: Event)
    requires Enabled(l, e) && (l.running || l.stopped)
    ensures Step(l, e).running || Step(l, e).stopped
  {
  }

  /** A model that was started waits for connections until exactly one of these events has happened, and
      then never again: StartListen does nothing while it is running. */
  lemma {:induction false} ListeningEnds(l: Ledger, events: seq<Event>)
    requires Inv(l) && EnabledRun(l, events) && (l.running || l.stopped)
    ensures Listens(Run(l, events)) <==> Listens(l) && !StopsListeningOnTheWay(l, events)
    decreases |events|
  {
    if events != [] {
      StepInv(l, events[0]);
      ListeningStep(l, events[0]);
      StaysStarted(l, events[0]);
      ListeningEnds(Step(l, events[0]), events[1..]);
    }
  }

  // ---- Bytes of a session ----

  ghost predicate Hears(l: Ledger, id: nat) {
    Waits(l, Receive, Some(id))
  }

  /** A receive of the session brings nothing, or finds it disconnected, or the next is refused, or the
      model is shut down. */
  ghost predicate StopsHearing(l: Ledger, e: Event, id: nat)
    requires Enabled(l, e)
  {
    || (e.Handle? && l.live[e.c].operation.Receive? && l.live[e.c].session == Some(id)
        && !(e.ok && e.bytes != 0 && id in l.sessions && l.sessions[id].connected))
    || (e.Delivery? && l.live[e.c].session == Some(id) && !e.accepted)
    || e.Stop?
  }

  lemma DeliveryHears(l: Ledger, c: nat, accepted: bool, id: nat)
    requires Inv(l) && Enabled(l, Delivery(c, accepted)) && l.live[c].session == Some(id)
    ensures Hears(Deliver(l, c, accepted), id) <==> accepted
  {
    assert WaitsWith(l, Receive, Some(id), c);
    DoneWaiting(l, c, Handled, Receive, Some(id));
    var marked, after := Mark(l, c, Handled), Deliver(l, c, accepted);
    if accepted {
      assert WaitsWith(after, Receive, Some(id), l.next);
    } else {
      assert WaitsOn(marked, after, Receive, Some(id));
      StillWaits(marked, after, Receive, Some(id));
    }
  }

  lemma AcceptHears(l: Ledger, a: Accepting, id: nat)
    requires Addressed(l)
    ensures WaitsOn(l, RegisterAccept(l, a), Receive, Some(id))
  {
  }

  lemma OthersHear(l: Ledger, e: Event, id: nat)
    requires Inv(l) && Enabled(l, e) && id in l.sessions && !e.Handle? && !e.Stop?
    requires e.Delivery? ==> l.live[e.c].session != Some(id)
    ensures WaitsOn(l, Step(l, e), Receive, Some(id))
  {
    match e
    case Listen(ready, a) => AcceptHears(l, a, id);
    case SendCall(other, n, accepted) =>
      CallSends(l, other, n, accepted);
      SendsAddNone(l, Step(l, e), Receive, Some(id));
    case Take(c) => MarkWaits(l, c, Taken, Receive, Some(id));
    case Renew(c, a) =>
      MarkWaits(l, c, Registered, Receive, Some(id));
      AcceptHears(Mark(l, c, Registered), a, id);
    case Admit(c, a) => AdmitWaits(l, c, a, Receive, Some(id));
    case Announce(c) => MarkWaits(l, c, Handled, Receive, Some(id));
    case Delivery(c, accepted) => DeliveryWaits(l, c, accepted, Receive, Some(id));
    case Free(c) =>
  }

  lemma HearingStep(l: Ledger, e: Event, id: nat)
    requires Inv(l) && Enabled(l, e) && id in l.sessions
    ensures Hears(Step(l, e), id) <==> Hears(l, id) && !StopsHearing(l, e, id)
  {
    match e
    case Handle(c, ok, bytes, accepted) =>
      HandleWaits(l, c, ok, bytes, accepted, Receive, Some(id));
      if !StopsHearing(l, e, id) {
        StillWaits(l, Step(l, e), Receive, Some(id));
      }
    case Delivery(c, accepted) =>
      if l.live[c].session == Some(id) {
        assert WaitsWith(l, Receive, Some(id), c);
        DeliveryHears(l, c, accepted, id);
      } else {
        OthersHear(l, e, id);
        StillWaits(l, Step(l, e), Receive, Some(id));
      }
    case Stop => ShutdownWaits(l, Receive, Some(id));
    case _ =>
      OthersHear(l, e, id);
      StillWaits(l, Step(l, e), Receive, Some(id));
  }

  /** Some event of the run stops the session's receives. */
  ghost predicate StopsHearingOnTheWay(l: Ledger, events: seq<Event>, id: nat)
    requires EnabledRun(l, events)
    decreases |events|
  {
    events != [] && (StopsHearing(l, events[0], id) || StopsHearingOnTheWay(Step(l, events[0]), events[1..], id))
  }

  lemma SessionsStay(l: Ledger, e: Event, id: nat)
    requires Enabled(l, e) && id in l.sessions
    ensures id in Step(l, e).sessions
  {
    match e
    case SendCall(_, _, _) =>
    case Handle(c, ok, bytes, accepted) => PerformKeepsSessions(Mark(l, c, Handled), l.live[c], ok, bytes, accepted, id);
    case _ =>
  }

  lemma PerformKeepsSessions(l: Ledger, x: Context, ok: bool, bytes: nat, accepted: bool, id: nat)
    requires id in l.sessions
    ensures id in Perform(l, x.operation, x.session, ok, bytes, accepted).sessions
  {
  }

  /** A session's bytes are waited for until exactly one of these events has happened, and then never
      again. */
  lemma {:induction false} HearingEnds(l: Ledger, events: seq<Event>, id: nat)
    requires Inv(l) && EnabledRun(l, events) && id in l.sessions
    ensures Hears(Run(l, events), id) <==> Hears(l, id) && !StopsHearingOnTheWay(l, events, id)
    decreases |events|
  {
    if events != [] {
      StepInv(l, events[0]);
      HearingStep(l, events[0], id);
      SessionsStay(l, events[0], id);
      HearingEnds(Step(l, events[0]), events[1..], id);
    }
  }

  /** A new session's bytes are waited for exactly if its socket could be associated and its first
      receive was taken. */
  lemma NewcomerHears(l: Ledger, c: nat, a: Answers)
    requires Inv(l) && Enabled(l, Admit(c, a)) && a.room
    ensures Hears(AddClient(l, c, a), a.id) <==> a.associates && a.posts
  {
    AddClientInOrder(l, c, a);
    NobodyReceives(l, a.id);
    var after := AddClient(l, c, a);
    if a.associates && a.posts {
      assert WaitsWith(after, Receive, Some(a.id), l.next);
    } else {
      forall d ensures !WaitsWith(after, Receive, Some(a.id), d) {
        assert WaitsWith(after, Receive, Some(a.id), d) ==> WaitsWith(l, Receive, Some(a.id), d);
      }
    }
  }
}
