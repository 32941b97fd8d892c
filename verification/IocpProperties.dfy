/** What follows for whole runs of the ledger of contexts and sockets. */
module IocpProperties {
  import opened Types
  import opened Callbacks
  import opened Counting
  import opened IocpContexts

  // ---- Conservation ----

  ghost function Held(l: Ledger): set<nat> {
    set c | c in l.live && l.live[c].stage.InKernel?
  }

  /** With a worker that is handling them. */
  ghost function InHand(l: Ledger): set<nat> {
    set c | c in l.live && WithWorker(l, c) == 1 && !l.live[c].stage.Handled?
  }

  /** In the kernel when the port was closed, and never freed. */
  ghost function Leaked(l: Ledger): set<nat> {
    set c | c in l.live && l.live[c].stage.Abandoned?
  }

  ghost function Done(l: Ledger): set<nat> {
    set c | c in l.live && l.live[c].stage.Handled?
  }

  ghost function WithWorker(l: Ledger, c: nat): nat {
    if c in l.live && !l.live[c].stage.InKernel? && !l.live[c].stage.Abandoned? then 1 else 0
  }

  lemma Parts(l: Ledger)
    ensures |l.live| == |Held(l)| + |InHand(l)| + |Done(l)| + |Leaked(l)|
  {
    assert l.live.Keys == Held(l) + InHand(l) + Done(l) + Leaked(l);
    Disjoint(Held(l), InHand(l));
    Disjoint(Held(l) + InHand(l), Done(l));
    Disjoint(Held(l) + InHand(l) + Done(l), Leaked(l));
    assert |l.live| == |l.live.Keys|;
  }

  /** However the workers interleave, whatever the application and the system do: the contexts made
      and not freed are those the kernel holds, those being handled, those handled but not yet freed,
      and those Shutdown leaves behind; and of the ones the kernel holds or whose handling has not got to
      the next post there is at most one receive and one send for each session, and one accept. */
  lemma ContextsConserved(events: seq<Event>)
    requires EnabledRun(Initial(), events)
    ensures var l := Run(Initial(), events);
            && l.made - l.freed == |Held(l)| + |InHand(l)| + |Done(l)| + |Leaked(l)|
            && OneEach(l)
  {
    RunInv(Initial(), events);
    Parts(Run(Initial(), events));
  }

  // ---- Each context is freed once ----

  function Takes(events: seq<Event>, c: nat): nat {
    if events == [] then 0 else (if events[0] == Take(c) then 1 else 0) + Takes(events[1..], c)
  }

  function Frees(events: seq<Event>, c: nat): nat {
    if events == [] then 0 else (if events[0] == Free(c) then 1 else 0) + Frees(events[1..], c)
  }

  /** No completion of the context will be taken any more. */
  ghost predicate Spent(l: Ledger, c: nat) {
    c < l.next && (c in l.live ==> !l.live[c].stage.InKernel?)
  }

  /** Nothing happens to the contexts there were, and new ones are in the kernel. */
  ghost predicate Grows(l: Ledger, after: Ledger) {
    && l.next <= after.next
    && (forall d | d < l.next :: d in after.live <==> d in l.live)
    && (forall d | d < l.next && d in l.live :: after.live[d] == l.live[d])
    && (forall d | d in after.live && l.next <= d :: after.live[d].stage.InKernel?)
  }

  lemma PerformGrows(l: Ledger, operation: Operation, session: Option<nat>, ok: bool, bytes: nat, accepted: bool)
    requires Addressed(l)
    ensures Grows(l, Perform(l, operation, session, ok, bytes, accepted))
  {
  }

  lemma CallSendGrows(l: Ledger, id: nat, n: nat, accepted: bool)
    requires id in l.sessions && l.sessions[id].queued <= l.sessions[id].capacity
    requires Addressed(l)
    ensures Grows(l, CallSend(l, id, n, accepted))
  {
  }

  lemma AddClientGrows(l: Ledger, c: nat, a: Answers)
    requires c in l.live && Addressed(l)
    ensures var stage := AddClient(l, c, a).live[c].stage;
            !stage.InKernel? && !stage.Abandoned? && Grows(Mark(l, c, stage), AddClient(l, c, a))
  {
  }

  lemma RegisterAcceptGrows(l: Ledger, a: Accepting)
    requires Addressed(l)
    ensures Grows(l, RegisterAccept(l, a))
  {
  }

  lemma GrowsKeeps(l: Ledger, after: Ledger, c: nat)
    requires Grows(l, after) && Addressed(l)
    ensures WithWorker(after, c) == WithWorker(l, c)
    ensures Spent(l, c) ==> Spent(after, c)
  {
  }

  lemma MarkKeeps(l: Ledger, d: nat, stage: Stage, c: nat)
    requires d in l.live && d < l.next && !stage.InKernel? && !stage.Abandoned?
    ensures WithWorker(Mark(l, d, stage), c) == if c == d then 1 else WithWorker(l, c)
    ensures Spent(l, c) || c == d ==> Spent(Mark(l, d, stage), c)
  {
  }

  lemma DispatchKeeps(l: Ledger, d: nat, ok: bool, bytes: nat, accepted: bool, c: nat)
    requires Addressed(l) && d in l.live
    ensures WithWorker(Dispatch(l, d, ok, bytes, accepted), c) == if c == d then 1 else WithWorker(l, c)
    ensures Spent(l, c) || c == d ==> Spent(Dispatch(l, d, ok, bytes, accepted), c)
  {
    if Delivers(l, l.live[d], ok, bytes) {
      MarkKeeps(l, d, Checked, c);
    } else {
      var marked := Mark(l, d, Handled);
      MarkKeeps(l, d, Handled, c);
      PerformGrows(marked, l.live[d].operation, l.live[d].session, ok, bytes, accepted);
      GrowsKeeps(marked, Dispatch(l, d, ok, bytes, accepted), c);
    }
  }

  lemma ContextStep(l: Ledger, e: Event, c: nat)
    requires Addressed(l) && Enabled(l, e)
    ensures var after := Step(l, e);
            && WithWorker(after, c) == WithWorker(l, c) + (if e == Take(c) then 1 else 0) - (if e == Free(c) then 1 else 0)
            && (Spent(l, c) ==> Spent(after, c) && e != Take(c))
            && (e == Take(c) ==> Spent(after, c))
  {
    match e
    case Listen(_, a) =>
      RegisterAcceptGrows(l, a);
      GrowsKeeps(l, RegisterAccept(l, a), c);
    case SendCall(id, n, accepted) =>
      CallSendGrows(l, id, n, accepted);
      GrowsKeeps(l, Step(l, e), c);
    case Take(d) => MarkKeeps(l, d, Taken, c);
    case Renew(d, a) =>
      MarkKeeps(l, d, Registered, c);
      RegisterAcceptGrows(Mark(l, d, Registered), a);
      GrowsKeeps(Mark(l, d, Registered), Step(l, e), c);
    case Admit(d, a) =>
      AddClientGrows(l, d, a);
      MarkKeeps(l, d, Step(l, e).live[d].stage, c);
      GrowsKeeps(Mark(l, d, Step(l, e).live[d].stage), Step(l, e), c);
    case Announce(d) => MarkKeeps(Report(l, OnAccept, l.live[d].stage.newcomer), d, Handled, c);
    case Handle(d, ok, bytes, accepted) => DispatchKeeps(l, d, ok, bytes, accepted, c);
    case Delivery(d, accepted) =>
      MarkKeeps(l, d, Handled, c);
      GrowsKeeps(Mark(l, d, Handled), Step(l, e), c);
    case Free(_) =>
    case Stop =>
  }

  /** In any run a context's completion is taken at most once, and every context that was taken has
      been freed exactly once, or is still with its worker and will be. */
  lemma {:induction false} FreedOnce(l: Ledger, events: seq<Event>, c: nat)
    requires Inv(l) && EnabledRun(l, events)
    ensures Takes(events, c) + WithWorker(l, c) == Frees(events, c) + WithWorker(Run(l, events), c)
    ensures Takes(events, c) <= if Spent(l, c) then 0 else 1
    decreases |events|
  {
    if events != [] {
      StepInv(l, events[0]);
      ContextStep(l, events[0], c);
      FreedOnce(Step(l, events[0]), events[1..], c);
    }
  }

  // ---- When a context is freed does not matter ----

  lemma FreeBeforeMark(l: Ledger, c: nat, d: nat, stage: Stage)
    requires d in l.live && c != d
    ensures Mark(Deallocate(l, c), d, stage) == Deallocate(Mark(l, d, stage), c)
  {
    assert (l.live - {c})[d := l.live[d].(stage := stage)] == l.live[d := l.live[d].(stage := stage)] - {c};
  }

  lemma FreeBeforePost(l: Ledger, c: nat, operation: Operation, session: Option<nat>)
    requires c < l.next
    ensures Post(Deallocate(l, c), operation, session) == Deallocate(Post(l, operation, session), c)
  {
    var added := Context(operation, session, InKernel);
    assert (l.live - {c})[l.next := added] == l.live[l.next := added] - {c};
  }

  lemma FreeBeforeAccept(l: Ledger, c: nat, a: Accepting)
    requires c < l.next
    ensures RegisterAccept(Deallocate(l, c), a) == Deallocate(RegisterAccept(l, a), c)
  {
    FreeBeforePost(l.(sockets := l.sockets + {l.next}, created := l.created + 1), c, Accept, None);
  }

  lemma FreeBeforePostSend(l: Ledger, c: nat, id: nat, accepted: bool)
    requires c < l.next && id in l.sessions
    ensures PostSend(Deallocate(l, c), id, accepted) == Deallocate(PostSend(l, id, accepted), c)
  {
    FreeBeforePost(SetPeer(l, id, l.sessions[id].(sending := true)), c, Send, Some(id));
  }

  lemma FreeBeforeCallSend(l: Ledger, c: nat, id: nat, n: nat, accepted: bool)
    requires c < l.next && id in l.sessions && l.sessions[id].queued <= l.sessions[id].capacity
    ensures CallSend(Deallocate(l, c), id, n, accepted) == Deallocate(CallSend(l, id, n, accepted), c)
  {
    FreeBeforePostSend(Enqueue(l, id, n), c, id, accepted);
  }

  lemma FreeBeforeDeliver(l: Ledger, c: nat, d: nat, accepted: bool)
    requires d in l.live && c != d && c < l.next && l.live[d].session.Some?
    ensures Deliver(Deallocate(l, c), d, accepted) == Deallocate(Deliver(l, d, accepted), c)
  {
    var id := l.live[d].session.value;
    FreeBeforeMark(l, c, d, Handled);
    FreeBeforePost(Report(Mark(l, d, Handled), OnReceive, id), c, Receive, Some(id));
  }

  lemma FreeBeforeShutdown(l: Ledger, c: nat)
    ensures Shutdown(Deallocate(l, c)) == Deallocate(Shutdown(l), c)
  {
    assert Shutdown(Deallocate(l, c)).live == Shutdown(l).live - {c};
  }

  lemma FreeBeforeSend(l: Ledger, c: nat, session: Option<nat>, bytes: nat, accepted: bool)
    requires c < l.next
    ensures ProcessSend(Deallocate(l, c), session, bytes, accepted)
         == Deallocate(ProcessSend(l, session, bytes, accepted), c)
  {
    if session.Some? && session.value in l.sessions {
      var p := l.sessions[session.value];
      var skipped := SetPeer(l, session.value, p.(queued := p.queued - Min(bytes, p.queued)));
      FreeBeforePostSend(skipped, c, session.value, accepted);
    }
  }

  lemma FreeBeforePerform(l: Ledger, c: nat, operation: Operation, session: Option<nat>, ok: bool, bytes: nat,
                          accepted: bool)
    requires c < l.next
    ensures Perform(Deallocate(l, c), operation, session, ok, bytes, accepted)
         == Deallocate(Perform(l, operation, session, ok, bytes, accepted), c)
  {
    if ok && bytes != 0 {
      match operation
      case Accept =>
      case Receive =>
      case Send => FreeBeforeSend(l, c, session, bytes, accepted);
      case Disconnect =>
    }
  }

  lemma FreeBeforeAddClient(l: Ledger, c: nat, d: nat, a: Answers)
    requires d in l.live && c != d && c < l.next
    ensures AddClient(Deallocate(l, c), d, a) == Deallocate(AddClient(l, d, a), c)
  {
    var peer := Peer(true, a.associates && a.posts, d, false, 0, a.capacity);
    FreeBeforeMark(CloseSocket(l, d), c, d, Handled);
    FreeBeforeMark(CloseSocket(SetPeer(l, a.id, peer), d), c, d, Handled);
    FreeBeforeMark(SetPeer(l, a.id, peer), c, d, Handled);
    FreeBeforeMark(SetPeer(l, a.id, peer), c, d, Admitted(a.id));
    FreeBeforePost(Mark(SetPeer(l, a.id, peer), d, Admitted(a.id)), c, Receive, Some(a.id));
  }

  /** Only Free does anything with a handled context. */
  lemma HandledStays(l: Ledger, c: nat, e: Event)
    requires Addressed(l) && AtStage(l, c, Handled) && Enabled(l, e) && e != Free(c)
    ensures AtStage(Step(l, e), c, Handled)
  {
    match e
    case Listen(_, a) => RegisterAcceptGrows(l, a);
    case SendCall(id, n, accepted) => CallSendGrows(l, id, n, accepted);
    case Renew(d, a) => RegisterAcceptGrows(Mark(l, d, Registered), a);
    case Admit(d, a) => AddClientGrows(l, d, a);
    case Handle(d, ok, bytes, accepted) =>
      PerformGrows(Mark(l, d, Handled), l.live[d].operation, l.live[d].session, ok, bytes, accepted);
    case _ =>
  }

  lemma EnabledWithout(l: Ledger, c: nat, e: Event)
    requires AtStage(l, c, Handled) && Enabled(l, e) && e != Free(c)
    ensures Enabled(Deallocate(l, c), e)
  {
  }

  /** A worker may free a handled context late: any step that others take first can also be taken
      after it, with the same outcome. */
  lemma FreeingCommutes(l: Ledger, c: nat, e: Event)
    requires Addressed(l) && AtStage(l, c, Handled) && Enabled(l, e) && e != Free(c)
    ensures AtStage(Step(l, e), c, Handled)
    ensures Enabled(Deallocate(l, c), e) && Step(Deallocate(l, c), e) == Deallocate(Step(l, e), c)
  {
    HandledStays(l, c, e);
    EnabledWithout(l, c, e);
    match e
    case Listen(_, a) => FreeBeforeAccept(l, c, a);
    case SendCall(id, n, accepted) => FreeBeforeCallSend(l, c, id, n, accepted);
    case Take(d) => FreeBeforeMark(l, c, d, Taken);
    case Renew(d, a) =>
      FreeBeforeMark(l, c, d, Registered);
      FreeBeforeAccept(Mark(l, d, Registered), c, a);
    case Admit(d, a) => FreeBeforeAddClient(l, c, d, a);
    case Announce(d) => FreeBeforeMark(Report(l, OnAccept, l.live[d].stage.newcomer), c, d, Handled);
    case Handle(d, ok, bytes, accepted) =>
      FreeBeforeMark(l, c, d, Checked);
      FreeBeforeMark(l, c, d, Handled);
      FreeBeforePerform(Mark(l, d, Handled), c, l.live[d].operation, l.live[d].session, ok, bytes, accepted);
    case Delivery(d, accepted) => FreeBeforeDeliver(l, c, d, accepted);
    case Free(d) => assert l.live - {c} - {d} == l.live - {d} - {c};
    case Stop => FreeBeforeShutdown(l, c);
  }
}
