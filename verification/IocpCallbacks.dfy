/** In which order the callbacks of the IOCP model come, when workers interleave. */
module IocpCallbacks {
  import opened Types
  import opened Callbacks
  import opened IocpContexts
  import opened IocpProperties

  /** The Accept callback of the session has been made. */
  ghost predicate Announced(l: Ledger, id: nat) {
    Call(OnAccept, id) in l.calls
  }

  /** A worker is about to make it. */
  ghost predicate Announcing(l: Ledger, id: nat) {
    exists c :: c in l.live && l.live[c].stage == Admitted(id)
  }

  /** A session whose first receive was posted has been announced or is about to be, not both, by one
      worker; receives are out only for such sessions. */
  ghost predicate CallsFit(l: Ledger) {
    && (forall c | c in l.live && l.live[c].stage.Admitted? ::
          var id := l.live[c].stage.newcomer;
          id in l.sessions && l.sessions[id].posted && !Announced(l, id))
    && (forall c, d | c in l.live && d in l.live && l.live[c].stage.Admitted? && l.live[c].stage == l.live[d].stage ::
          c == d)
    && (forall id | id in l.sessions && l.sessions[id].posted && !Announced(l, id) :: Announcing(l, id))
    && (forall id | id in l.sessions && !l.sessions[id].posted :: !Announced(l, id))
    && (forall k | 0 <= k < |l.calls| :: l.calls[k].session in l.sessions)
    && (forall c | c in l.live && l.live[c].operation.Receive? ::
          && l.live[c].session.Some? && l.live[c].session.value in l.sessions
          && l.sessions[l.live[c].session.value].posted)
  }

  /** No context enters or leaves the stage before its Accept callback, no session comes or goes, and the
      only receives there are new are for sessions that had one. */
  ghost predicate SameNews(l: Ledger, after: Ledger) {
    && (forall c | c in l.live && l.live[c].stage.Admitted? :: c in after.live && after.live[c].stage == l.live[c].stage)
    && (forall c | c in after.live && after.live[c].stage.Admitted? :: c in l.live && l.live[c].stage == after.live[c].stage)
    && after.sessions.Keys == l.sessions.Keys
    && (forall id | id in l.sessions :: after.sessions[id].posted == l.sessions[id].posted)
    && (forall c | c in after.live && after.live[c].operation.Receive? ::
          after.live[c].session.Some? && after.live[c].session.value in l.sessions
          && l.sessions[after.live[c].session.value].posted)
  }

  /** Nothing but perhaps one callback, that is no Accept, of a known session. */
  ghost predicate OneMore(l: Ledger, after: Ledger) {
    || after.calls == l.calls
    || exists x :: x in l.sessions && (after.calls == l.calls + [Call(OnReceive, x)]
                                       || after.calls == l.calls + [Call(OnDisconnect, x)])
  }

  lemma SameNewsFits(l: Ledger, after: Ledger)
    requires CallsFit(l) && SameNews(l, after) && OneMore(l, after)
    ensures CallsFit(after)
  {
    assert forall id :: Announced(after, id) <==> Announced(l, id);
    forall id | id in after.sessions && after.sessions[id].posted && !Announced(after, id) ensures Announcing(after, id) {
      var c :| c in l.live && l.live[c].stage == Admitted(id);
      assert after.live[c].stage == Admitted(id);
    }
  }

  lemma PostSendNews(l: Ledger, id: nat, accepted: bool)
    requires CallsFit(l) && Addressed(l) && id in l.sessions
    ensures CallsFit(PostSend(l, id, accepted))
  {
    SameNewsFits(l, PostSend(l, id, accepted));
  }

  lemma SetPeerNews(l: Ledger, id: nat, p: Peer)
    requires CallsFit(l) && id in l.sessions && p.posted == l.sessions[id].posted
    ensures CallsFit(SetPeer(l, id, p))
  {
    SameNewsFits(l, SetPeer(l, id, p));
  }

  lemma PostNextNews(l: Ledger, id: nat, p: Peer, accepted: bool)
    requires CallsFit(l) && Addressed(l) && id in l.sessions && p.posted == l.sessions[id].posted
    ensures CallsFit(PostSend(SetPeer(l, id, p), id, accepted))
  {
    SetPeerNews(l, id, p);
    PostSendNews(SetPeer(l, id, p), id, accepted);
  }

  lemma ProcessSendNews(l: Ledger, session: Option<nat>, bytes: nat, accepted: bool)
    requires CallsFit(l) && Addressed(l)
    ensures CallsFit(ProcessSend(l, session, bytes, accepted))
  {
    if session.Some? && session.value in l.sessions {
      var p := l.sessions[session.value];
      var left := p.queued - Min(bytes, p.queued);
      if left > 0 {
        PostNextNews(l, session.value, p.(queued := left), accepted);
        assert ProcessSend(l, session, bytes, accepted)
            == PostSend(SetPeer(l, session.value, p.(queued := left)), session.value, accepted);
      } else {
        SetPeerNews(l, session.value, p.(queued := left, sending := false));
        assert ProcessSend(l, session, bytes, accepted) == SetPeer(l, session.value, p.(queued := left, sending := false));
      }
    }
  }

  lemma ProcessDisconnectNews(l: Ledger, session: Option<nat>)
    requires CallsFit(l)
    ensures CallsFit(ProcessDisconnect(l, session))
  {
    if session.Some? && session.value in l.sessions {
      SameNewsFits(l, ProcessDisconnect(l, session));
    }
  }

  lemma PerformNews(l: Ledger, operation: Operation, session: Option<nat>, ok: bool, bytes: nat, accepted: bool)
    requires CallsFit(l) && Addressed(l)
    ensures CallsFit(Perform(l, operation, session, ok, bytes, accepted))
  {
    ProcessSendNews(l, session, bytes, accepted);
    ProcessDisconnectNews(l, session);
  }

  lemma MarkNews(l: Ledger, c: nat, stage: Stage)
    requires CallsFit(l) && c in l.live && !l.live[c].stage.Admitted? && !stage.Admitted?
    ensures CallsFit(Mark(l, c, stage))
  {
    SameNewsFits(l, Mark(l, c, stage));
  }

  lemma DispatchNews(l: Ledger, c: nat, ok: bool, bytes: nat, accepted: bool)
    requires CallsFit(l) && Addressed(l) && AtStage(l, c, Taken)
    ensures CallsFit(Dispatch(l, c, ok, bytes, accepted))
  {
    if Delivers(l, l.live[c], ok, bytes) {
      MarkNews(l, c, Checked);
    } else {
      MarkNews(l, c, Handled);
      PerformNews(Mark(l, c, Handled), l.live[c].operation, l.live[c].session, ok, bytes, accepted);
    }
  }

  lemma CallSendNews(l: Ledger, id: nat, n: nat, accepted: bool)
    requires CallsFit(l) && Addressed(l) && id in l.sessions && l.sessions[id].queued <= l.sessions[id].capacity
    ensures CallsFit(CallSend(l, id, n, accepted))
  {
    SetPeerNews(l, id, Enqueue(l, id, n).sessions[id]);
    PostSendNews(Enqueue(l, id, n), id, accepted);
  }

  lemma RegisterAcceptNews(l: Ledger, a: Accepting)
    requires CallsFit(l) && Addressed(l)
    ensures CallsFit(RegisterAccept(l, a))
  {
    SameNewsFits(l, RegisterAccept(l, a));
  }

  lemma StartListenNews(l: Ledger, ready: bool, a: Accepting)
    requires CallsFit(l) && Addressed(l)
    ensures CallsFit(StartListen(l, ready, a))
  {
    RegisterAcceptNews(l, a);
    SameNewsFits(RegisterAccept(l, a), RegisterAccept(l, a).(running := a.Ok()));
  }

  lemma FreeNews(l: Ledger, c: nat)
    requires CallsFit(l) && AtStage(l, c, Handled)
    ensures CallsFit(Deallocate(l, c))
  {
    SameNewsFits(l, Deallocate(l, c));
  }

  lemma DeliverNews(l: Ledger, c: nat, accepted: bool)
    requires CallsFit(l) && Addressed(l) && AtStage(l, c, Checked) && l.live[c].operation.Receive?
    ensures CallsFit(Deliver(l, c, accepted))
  {
    SameNewsFits(l, Deliver(l, c, accepted));
  }

  /** A session that gets no receive. */
  lemma FailedNews(l: Ledger, id: nat, p: Peer)
    requires CallsFit(l) && id !in l.sessions && !p.posted
    ensures CallsFit(SetPeer(l, id, p))
  {
    var after := SetPeer(l, id, p);
    assert forall other :: Announcing(l, other) ==> Announcing(after, other);
    assert !Announced(l, id);
  }

  /** A session that gets one. */
  lemma AdmittedNews(l: Ledger, c: nat, id: nat, p: Peer)
    requires CallsFit(l) && AtStage(l, c, Registered) && l.live[c].operation.Accept? && id !in l.sessions && p.posted
    ensures CallsFit(SetPeer(Mark(l, c, Admitted(id)), id, p))
  {
    var after := SetPeer(Mark(l, c, Admitted(id)), id, p);
    assert after.live[c].stage == Admitted(id) && !Announced(l, id);
    forall other | other != id && Announcing(l, other) ensures Announcing(after, other) {
      var d :| d in l.live && l.live[d].stage == Admitted(other);
      assert after.live[d].stage == Admitted(other);
    }
  }

  lemma CloseSocketNews(l: Ledger, socket: nat)
    requires CallsFit(l)
    ensures CallsFit(CloseSocket(l, socket)) && CallsFit(PostRefused(l)) && CallsFit(CloseSocket(PostRefused(l), socket))
  {
    SameNewsFits(l, CloseSocket(l, socket));
    SameNewsFits(l, PostRefused(l));
    SameNewsFits(l, CloseSocket(PostRefused(l), socket));
  }

  lemma PostReceiveNews(l: Ledger, id: nat)
    requires CallsFit(l) && Addressed(l) && id in l.sessions && l.sessions[id].posted
    ensures CallsFit(Post(l, Receive, Some(id)))
  {
    SameNewsFits(l, Post(l, Receive, Some(id)));
  }

  lemma AddClientNews(l: Ledger, c: nat, a: Answers)
    requires CallsFit(l) && Addressed(l) && AtStage(l, c, Registered) && l.live[c].operation.Accept? && a.id !in l.sessions
    ensures CallsFit(AddClient(l, c, a))
  {
    AddClientInOrder(l, c, a);
    var posted := a.associates && a.posts;
    var p := Peer(true, posted, c, false, 0, a.capacity);
    if !a.room {
      MarkNews(l, c, Handled);
      CloseSocketNews(Mark(l, c, Handled), c);
    } else if posted {
      AdmittedNews(l, c, a.id, p);
      PostReceiveNews(Added(l, c, a), a.id);
    } else {
      MarkNews(l, c, Handled);
      FailedNews(Mark(l, c, Handled), a.id, p);
      CloseSocketNews(Added(l, c, a), c);
    }
  }

  lemma CallAcceptNews(l: Ledger, c: nat)
    requires CallsFit(l) && c in l.live && l.live[c].stage.Admitted?
    ensures CallsFit(CallAccept(l, c))
  {
    var after, newcomer := CallAccept(l, c), l.live[c].stage.newcomer;
    assert after.calls[|l.calls|] == Call(OnAccept, newcomer);
    assert forall id :: Announced(after, id) <==> Announced(l, id) || id == newcomer;
    forall id | id in after.sessions && after.sessions[id].posted && !Announced(after, id) ensures Announcing(after, id) {
      var d :| d in l.live && l.live[d].stage == Admitted(id);
      assert after.live[d].stage == Admitted(id);
    }
  }

  lemma ShutdownNews(l: Ledger)
    requires CallsFit(l) && Quiet(l)
    ensures CallsFit(Shutdown(l))
  {
    SameNewsFits(l, Shutdown(l));
  }

  lemma CallsStep(l: Ledger, e: Event)
    requires Inv(l) && CallsFit(l) && Enabled(l, e)
    ensures CallsFit(Step(l, e))
  {
    match e
    case Listen(ready, a) => StartListenNews(l, ready, a);
    case SendCall(id, n, accepted) => CallSendNews(l, id, n, accepted);
    case Take(c) => MarkNews(l, c, Taken);
    case Renew(c, a) =>
      MarkNews(l, c, Registered);
      RegisterAcceptNews(Mark(l, c, Registered), a);
    case Admit(c, a) => AddClientNews(l, c, a);
    case Announce(c) => CallAcceptNews(l, c);
    case Handle(c, ok, bytes, accepted) => DispatchNews(l, c, ok, bytes, accepted);
    case Delivery(c, accepted) => DeliverNews(l, c, accepted);
    case Free(c) => FreeNews(l, c);
    case Stop => ShutdownNews(l);
  }

  lemma {:induction false} RunCalls(l: Ledger, events: seq<Event>)
    requires Inv(l) && CallsFit(l) && EnabledRun(l, events)
    ensures Inv(Run(l, events)) && CallsFit(Run(l, events))
    decreases |events|
  {
    if events != [] {
      StepInv(l, events[0]);
      CallsStep(l, events[0]);
      RunCalls(Step(l, events[0]), events[1..]);
    }
  }

  /** In every state workers can reach together, when a completion of a receive makes a callback (with
      the data, or because the connection is over), the Accept callback of its session has been made if
      and only if no worker is still about to make it. */
  lemma AcceptComesFirstUnless(events: seq<Event>, c: nat)
    requires EnabledRun(Initial(), events)
    requires var l := Run(Initial(), events);
             c in l.live && l.live[c].operation.Receive?
    ensures var l := Run(Initial(), events);
            && l.live[c].session.Some?
            && var id := l.live[c].session.value;
               Announced(l, id) <==> !Announcing(l, id)
  {
    RunCalls(Initial(), events);
  }

  // ---- It can come late ----

  ghost predicate Leads(l: Ledger, events: seq<Event>, end: Ledger) {
    EnabledRun(l, events) && Run(l, events) == end
  }

  lemma LeadsOn(l: Ledger, e: Event, events: seq<Event>, end: Ledger)
    requires Enabled(l, e) && Leads(Step(l, e), events, end)
    ensures Leads(l, [e] + events, end)
  {
    assert ([e] + events)[1..] == events;
  }

  lemma {:induction false} LeadsThrough(l: Ledger, first: seq<Event>, middle: Ledger, second: seq<Event>, end: Ledger)
    requires Leads(l, first, middle) && Leads(middle, second, end)
    ensures Leads(l, first + second, end)
    decreases |first|
  {
    if first == [] {
      assert first + second == second;
    } else {
      LeadsThrough(Step(l, first[0]), first[1..], middle, second, end);
      LeadsOn(l, first[0], first[1..] + second, end);
      assert [first[0]] + (first[1..] + second) == first + second;
    }
  }

  lemma LeadsInTwo(l: Ledger, e: Event, f: Event)
    requires Enabled(l, e) && Enabled(Step(l, e), f)
    ensures Leads(l, [e, f], Step(Step(l, e), f))
  {
    LeadsOn(Step(l, e), f, [], Step(Step(l, e), f));
    LeadsOn(l, e, [f] + [], Step(Step(l, e), f));
    assert [e] + ([f] + []) == [e, f];
  }

  const YES := Accepting(true, true)

  /** A worker has added the first session and not made its Accept callback yet. */
  lemma FirstAdmission() returns (events: seq<Event>, l: Ledger)
    ensures Leads(Initial(), events, l) && l.calls == []
    ensures 0 in l.live && l.live[0].stage == Admitted(7)
    ensures 2 in l.live && l.live[2] == Context(Receive, Some(7), InKernel) && l.next == 3
    ensures 7 in l.sessions && l.sessions[7] == Peer(true, true, 0, false, 0, 8)
    ensures 3 !in l.live && !l.stopped
  {
    var taken := Step(Step(Initial(), Listen(true, YES)), Take(0));
    LeadsInTwo(Initial(), Listen(true, YES), Take(0));
    var admit := Admit(0, Answers(YES, true, 7, 8, true, true));
    l := Step(Step(taken, Renew(0, YES)), admit);
    LeadsInTwo(taken, Renew(0, YES), admit);
    LeadsThrough(Initial(), [Listen(true, YES), Take(0)], taken, [Renew(0, YES), admit], l);
    events := [Listen(true, YES), Take(0)] + [Renew(0, YES), admit];
  }

  /** From the start: an accept completion with data (which the AcceptEx of this code, asking for none,
      does not give), a session whose receive is posted, and another worker that takes the completion
      of that receive before the first has made the Accept callback.  When that completion is empty, the
      first callback is Disconnect; else Receive can be the first. */
  lemma AcceptCanComeLate(bytes: nat) returns (events: seq<Event>)
    ensures EnabledRun(Initial(), events)
    ensures var l := Run(Initial(), events);
            && Announcing(l, 7)
            && if bytes == 0 then l.calls == [Call(OnDisconnect, 7)]
               else Enabled(l, Delivery(2, true)) && Step(l, Delivery(2, true)).calls == [Call(OnReceive, 7)]
  {
    var first, l := FirstAdmission();
    var handle := Handle(2, true, bytes, true);
    var handled := Step(Step(l, Take(2)), handle);
    LeadsInTwo(l, Take(2), handle);
    LeadsThrough(Initial(), first, l, [Take(2), handle], handled);
    events := first + [Take(2), handle];
    assert handled.live[0].stage == Admitted(7);
  }

  /** One worker has found the session connected, and a send of it is out. */
  lemma FirstCheck() returns (events: seq<Event>, l: Ledger)
    ensures Leads(Initial(), events, l) && l.calls == [Call(OnAccept, 7)]
    ensures AtStage(l, 2, Checked) && l.live[2].session == Some(7)
    ensures 3 in l.live && l.live[3] == Context(Send, Some(7), InKernel)
    ensures 7 in l.sessions && l.sessions[7].connected
  {
    var first, admitted := FirstAdmission();
    var told := Step(Step(admitted, Announce(0)), SendCall(7, 1, true));
    l := Step(Step(told, Take(2)), Handle(2, true, 1, true));
    LeadsInTwo(admitted, Announce(0), SendCall(7, 1, true));
    LeadsInTwo(told, Take(2), Handle(2, true, 1, true));
    events := [Announce(0), SendCall(7, 1, true)] + [Take(2), Handle(2, true, 1, true)];
    LeadsThrough(admitted, [Announce(0), SendCall(7, 1, true)], told, [Take(2), Handle(2, true, 1, true)], l);
    LeadsThrough(Initial(), first, admitted, events, l);
    events := first + events;
  }

  /** The check of ProcessReceive does not keep the session connected: while one worker is between it and
      the Receive callback, another that handles a failed send makes the Disconnect callback. */
  lemma ReceiveCanComeAfterDisconnect() returns (events: seq<Event>)
    ensures EnabledRun(Initial(), events)
    ensures Run(Initial(), events).calls == [Call(OnAccept, 7), Call(OnDisconnect, 7), Call(OnReceive, 7)]
  {
    var first, checked := FirstCheck();
    var ended := Step(Step(checked, Take(3)), Handle(3, false, 0, true));
    var last := Step(ended, Delivery(2, true));
    LeadsInTwo(checked, Take(3), Handle(3, false, 0, true));
    LeadsOn(ended, Delivery(2, true), [], last);
    events := [Take(3), Handle(3, false, 0, true)] + ([Delivery(2, true)] + []);
    LeadsThrough(checked, [Take(3), Handle(3, false, 0, true)], ended, [Delivery(2, true)] + [], last);
    LeadsThrough(Initial(), first, checked, events, last);
    events := first + events;
  }

  /** Contexts of one kind overlap: while a worker handles an accept, the next accept is in the kernel. */
  lemma AcceptsOverlap() returns (events: seq<Event>)
    ensures EnabledRun(Initial(), events)
    ensures var l := Run(Initial(), events);
            && 0 in l.live && l.live[0] == Context(Accept, None, Registered)
            && 1 in l.live && l.live[1] == Context(Accept, None, InKernel)
  {
    var taken := Step(Step(Initial(), Listen(true, YES)), Take(0));
    LeadsInTwo(Initial(), Listen(true, YES), Take(0));
    LeadsOn(taken, Renew(0, YES), [], Step(taken, Renew(0, YES)));
    LeadsThrough(Initial(), [Listen(true, YES), Take(0)], taken, [Renew(0, YES)] + [], Step(taken, Renew(0, YES)));
    events := [Listen(true, YES), Take(0)] + ([Renew(0, YES)] + []);
  }

  /** And so do the receives of one session. */
  lemma ReceivesOverlap(l: Ledger, c: nat)
    requires Addressed(l) && AtStage(l, c, Checked) && l.live[c].operation.Receive? && l.live[c].session.Some?
    ensures var after := Step(l, Delivery(c, true));
            && c in after.live && after.live[c] == l.live[c].(stage := Handled)
            && l.next in after.live && after.live[l.next] == l.live[c].(stage := InKernel)
  {
  }

  // ---- Without data no connection is ever accepted ----

  ghost predicate Deserted(l: Ledger) {
    && l.sessions == map[] && l.calls == []
    && forall c | c in l.live :: l.live[c].operation.Accept? && !l.live[c].stage.Registered? && !l.live[c].stage.Admitted?
  }

  lemma DesertedStep(l: Ledger, e: Event)
    requires Inv(l) && Deserted(l) && Enabled(l, e) && !e.Renew?
    ensures Deserted(Step(l, e))
  {
    match e
    case Handle(c, ok, bytes, accepted) => assert !ok || bytes == 0;
    case Stop => assert Shutdown(l).sessions == map[];
    case _ =>
  }

  /** As long as every accept completion fails or is empty, there is no session and no callback. */
  lemma {:induction false} NoAcceptNoSession(l: Ledger, events: seq<Event>)
    requires Inv(l) && Deserted(l) && EnabledRun(l, events)
    requires forall e | e in events :: !e.Renew?
    ensures Deserted(Run(l, events))
    decreases |events|
  {
    if events != [] {
      assert !events[0].Renew?;
      StepInv(l, events[0]);
      DesertedStep(l, events[0]);
      NoAcceptNoSession(Step(l, events[0]), events[1..]);
    }
  }
}
