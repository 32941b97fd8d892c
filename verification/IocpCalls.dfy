/** The ledger of the IOCP model when the calls of its methods do not disturb each other, as with a
    single worker. */
module IocpCalls {
  import opened Types
  import opened Callbacks
  import opened IocpContexts
  import opened IocpProperties
  import opened IocpCallbacks

  // ---- One call of ProcessIO ----

  function ProcessAccept(l: Ledger, c: nat, a: Answers): Ledger
    requires c in l.live
  {
    var added := AddClient(RegisterNext(l, c, a.accepting), c, a);
    if added.live[c].stage.Admitted? then CallAccept(added, c) else added
  }

  function ProcessIO(l: Ledger, c: nat, ok: bool, bytes: nat, a: Answers): Ledger
    requires c in l.live
  {
    var taken := Mark(l, c, Taken);
    Deallocate(if Accepts(l.live[c].operation, ok, bytes) then ProcessAccept(taken, c, a)
               else if Delivers(l, l.live[c], ok, bytes) then Deliver(Mark(taken, c, Checked), c, a.posts)
               else Perform(Mark(taken, c, Handled), l.live[c].operation, l.live[c].session, ok, bytes, a.posts), c)
  }

  /** Its steps, after the one that takes the completion. */
  function Handling(l: Ledger, c: nat, ok: bool, bytes: nat, a: Answers): seq<Event>
    requires c in l.live
  {
    if Accepts(l.live[c].operation, ok, bytes) then
      [Renew(c, a.accepting), Admit(c, a)] +
      if a.room && a.associates && a.posts then [Announce(c), Free(c)] else [Free(c)]
    else
      [Handle(c, ok, bytes, a.posts)] +
      if Delivers(l, l.live[c], ok, bytes) then [Delivery(c, a.posts), Free(c)] else [Free(c)]
  }

  lemma LeadsInOne(l: Ledger, e: Event)
    requires Enabled(l, e)
    ensures Leads(l, [e], Step(l, e))
  {
    LeadsOn(l, e, [], Step(l, e));
    assert [e] + [] == [e];
  }

  lemma AdmissionLeads(l: Ledger, c: nat, a: Answers)
    requires Addressed(l) && AtStage(l, c, Taken) && l.live[c].operation.Accept? && a.id !in l.sessions
    ensures Leads(l, [Renew(c, a.accepting), Admit(c, a)], AddClient(RegisterNext(l, c, a.accepting), c, a))
    ensures var added := AddClient(RegisterNext(l, c, a.accepting), c, a);
            && c in added.live
            && added.live[c].stage == if a.room && a.associates && a.posts then Admitted(a.id) else Handled
  {
    RegisterAcceptGrows(Mark(l, c, Registered), a.accepting);
    LeadsInTwo(l, Renew(c, a.accepting), Admit(c, a));
  }

  lemma AcceptLeads(l: Ledger, c: nat, a: Answers)
    requires Addressed(l) && AtStage(l, c, Taken) && l.live[c].operation.Accept? && a.id !in l.sessions
    ensures Leads(l, [Renew(c, a.accepting), Admit(c, a)] +
                     (if a.room && a.associates && a.posts then [Announce(c), Free(c)] else [Free(c)]),
                  Deallocate(ProcessAccept(l, c, a), c))
  {
    AdmissionLeads(l, c, a);
    var added := AddClient(RegisterNext(l, c, a.accepting), c, a);
    if a.room && a.associates && a.posts {
      LeadsInTwo(added, Announce(c), Free(c));
      LeadsThrough(l, [Renew(c, a.accepting), Admit(c, a)], added, [Announce(c), Free(c)],
                   Deallocate(ProcessAccept(l, c, a), c));
    } else {
      LeadsInOne(added, Free(c));
      LeadsThrough(l, [Renew(c, a.accepting), Admit(c, a)], added, [Free(c)], Deallocate(ProcessAccept(l, c, a), c));
    }
  }

  lemma OtherLeads(l: Ledger, c: nat, ok: bool, bytes: nat, accepted: bool)
    requires Addressed(l) && AtStage(l, c, Taken) && !Accepts(l.live[c].operation, ok, bytes)
    ensures var delivers := Delivers(l, l.live[c], ok, bytes);
            Leads(l, [Handle(c, ok, bytes, accepted)] + (if delivers then [Delivery(c, accepted), Free(c)] else [Free(c)]),
                  Deallocate(if delivers then Deliver(Mark(l, c, Checked), c, accepted)
                             else Dispatch(l, c, ok, bytes, accepted), c))
  {
    var handle := Handle(c, ok, bytes, accepted);
    LeadsInOne(l, handle);
    PerformGrows(Mark(l, c, Handled), l.live[c].operation, l.live[c].session, ok, bytes, accepted);
    if Delivers(l, l.live[c], ok, bytes) {
      var checked := Mark(l, c, Checked);
      LeadsInTwo(checked, Delivery(c, accepted), Free(c));
      LeadsThrough(l, [handle], checked, [Delivery(c, accepted), Free(c)], Deallocate(Deliver(checked, c, accepted), c));
    } else {
      var done := Dispatch(l, c, ok, bytes, accepted);
      LeadsInOne(done, Free(c));
      LeadsThrough(l, [handle], done, [Free(c)], Deallocate(done, c));
    }
  }

  /** The call is a run of its steps. */
  lemma ProcessIOIsRun(l: Ledger, c: nat, ok: bool, bytes: nat, a: Answers)
    requires Addressed(l) && AtStage(l, c, InKernel) && a.id !in l.sessions
    ensures Leads(l, [Take(c)] + Handling(l, c, ok, bytes, a), ProcessIO(l, c, ok, bytes, a))
  {
    var taken := Mark(l, c, Taken);
    LeadsInOne(l, Take(c));
    if Accepts(l.live[c].operation, ok, bytes) {
      AcceptLeads(taken, c, a);
    } else {
      OtherLeads(taken, c, ok, bytes, a.posts);
    }
    LeadsThrough(l, [Take(c)], taken, Handling(l, c, ok, bytes, a), ProcessIO(l, c, ok, bytes, a));
  }

  lemma ProcessIOInv(l: Ledger, c: nat, ok: bool, bytes: nat, a: Answers)
    requires Inv(l) && AtStage(l, c, InKernel) && a.id !in l.sessions
    ensures Inv(ProcessIO(l, c, ok, bytes, a))
  {
    ProcessIOIsRun(l, c, ok, bytes, a);
    RunInv(l, [Take(c)] + Handling(l, c, ok, bytes, a));
    assert Run(l, [Take(c)] + Handling(l, c, ok, bytes, a)) == ProcessIO(l, c, ok, bytes, a);
  }

  lemma ProcessAcceptKeeps(l: Ledger, c: nat, a: Answers)
    requires Addressed(l) && c in l.live
    ensures var after := ProcessAccept(l, c, a);
            && (forall d | d in l.live && d != c :: d in after.live && after.live[d] == l.live[d])
            && (forall d | d in after.live && d !in l.live :: after.live[d].stage.InKernel?)
  {
    RegisterAcceptGrows(Mark(l, c, Registered), a.accepting);
    AddClientGrows(RegisterNext(l, c, a.accepting), c, a);
  }

  /** On every path of ProcessIO the context taken is gone afterwards, every other context that was there
      is as it was, and a new one is in the kernel. */
  lemma HandleKeeps(l: Ledger, c: nat, ok: bool, bytes: nat, a: Answers)
    requires Addressed(l) && c in l.live
    ensures var after := ProcessIO(l, c, ok, bytes, a);
            && c !in after.live
            && (forall d | d in l.live && d != c :: d in after.live && after.live[d] == l.live[d])
            && (forall d | d in after.live && d !in l.live :: after.live[d].stage.InKernel?)
  {
    var taken := Mark(l, c, Taken);
    if Accepts(l.live[c].operation, ok, bytes) {
      ProcessAcceptKeeps(taken, c, a);
    } else {
      PerformGrows(Mark(taken, c, Handled), l.live[c].operation, l.live[c].session, ok, bytes, a.posts);
    }
  }

  // ---- Runs of calls ----

  datatype CallEvent =
    | Listening(ready: bool, accepting: Accepting)
    | Sending(id: nat, n: nat, accepted: bool)
    | Completing(c: nat, ok: bool, bytes: nat, answers: Answers)
    | Stopping

  /** Between calls. */
  ghost predicate Settled(l: Ledger) {
    forall c | c in l.live :: l.live[c].stage == if l.stopped then Abandoned else InKernel
  }

  ghost predicate CallEnabled(l: Ledger, e: CallEvent) {
    match e
    case Listening(_, _) => !l.stopped
    case Sending(id, _, _) => !l.stopped && id in l.sessions && l.sessions[id].queued <= l.sessions[id].capacity
    case Completing(c, _, _, a) => AtStage(l, c, InKernel) && a.id !in l.sessions
    case Stopping => !l.stopped
  }

  ghost function CallStep(l: Ledger, e: CallEvent): Ledger
    requires CallEnabled(l, e)
  {
    match e
    case Listening(ready, a) => StartListen(l, ready, a)
    case Sending(id, n, accepted) => CallSend(l, id, n, accepted)
    case Completing(c, ok, bytes, a) => ProcessIO(l, c, ok, bytes, a)
    case Stopping => Shutdown(l)
  }

  /** The single steps of a call. */
  ghost function StepsOf(l: Ledger, e: CallEvent): seq<Event>
    requires CallEnabled(l, e)
  {
    match e
    case Listening(ready, a) => [Listen(ready, a)]
    case Sending(id, n, accepted) => [SendCall(id, n, accepted)]
    case Completing(c, ok, bytes, a) => [Take(c)] + Handling(l, c, ok, bytes, a)
    case Stopping => [Stop]
  }

  lemma CallIsRun(l: Ledger, e: CallEvent)
    requires Addressed(l) && (!l.stopped ==> Quiet(l)) && CallEnabled(l, e)
    ensures Leads(l, StepsOf(l, e), CallStep(l, e))
  {
    match e
    case Listening(ready, a) => LeadsInOne(l, Listen(ready, a));
    case Sending(id, n, accepted) => LeadsInOne(l, SendCall(id, n, accepted));
    case Completing(c, ok, bytes, a) => ProcessIOIsRun(l, c, ok, bytes, a);
    case Stopping => LeadsInOne(l, Stop);
  }
}
