/** What follows for whole runs of the completion-driven send path. */
module SendProperties {
  import opened Types
  import opened SendMachine
  import Fifo

  lemma {:induction false} RunInv(st: State, events: seq<Event>)
    requires Inv(st) && EnabledRun(st, events)
    ensures Inv(Run(st, events))
    decreases |events|
  {
    if events != [] {
      StepInv(st, events[0]);
      RunInv(Step(st, events[0]), events[1..]);
    }
  }

  // ---- The machine is a first-in first-out channel ----

  ghost function View(st: State): Fifo.Channel {
    Fifo.Channel(st.session.capacity, st.session.accepted, st.wire)
  }

  lemma InvIsSound(st: State)
    requires Inv(st)
    ensures Fifo.Sound(View(st))
  {
    if id :| id in st.contexts {
      var c := st.contexts[id];
      assert st.session.queue == c.buffer[..InTransit(c)] + st.session.queue[InTransit(c)..];
      assert st.session.accepted == st.wire + st.session.queue[InTransit(c)..];
    }
  }

  /** What each step does to the two ends of the channel. */
  lemma StepEffect(st: State, e: Event)
    requires Enabled(st, e)
    ensures var after := Step(st, e);
            && after.session.capacity == st.session.capacity
            && after.session.accepted ==
                 (if e.CallSend? then st.session.accepted + e.data[..Min(|e.data|, Free(st.session))]
                  else st.session.accepted)
            && after.wire ==
                 (if e.Complete? then st.wire + st.contexts[e.id].buffer[..e.sent] else st.wire)
  {
    match e
    case CallSend(caller, data, posted) =>
      PostSendKeeps(st.(session := Write(st.session, caller, data)), posted);
    case Process(id, posted) =>
      var skipped := st.(session := Skip(st.session, st.contexts[id].status.sent), contexts := st.contexts - {id});
      PostSendKeeps(skipped, posted);
    case Complete(_, _) =>
    case Dequeue(_, _) =>
  }

  lemma StepRefinesChannel(st: State, e: Event)
    requires Inv(st) && Enabled(st, e)
    ensures Fifo.Next(View(st), View(Step(st, e)))
  {
    StepEffect(st, e);
    StepInv(st, e);
    InvIsSound(Step(st, e));
  }

  /** The channel after each event of a run. */
  ghost function Trace(st: State, events: seq<Event>): seq<Fifo.Channel>
    requires EnabledRun(st, events)
    decreases |events|
  {
    [View(st)] + if events == [] then [] else Trace(Step(st, events[0]), events[1..])
  }

  /** Every run of the machine is a run of the channel. */
  lemma {:induction false} TraceIsChannelRun(st: State, events: seq<Event>)
    requires Inv(st) && EnabledRun(st, events)
    ensures Fifo.IsRun(Trace(st, events)) && Trace(st, events)[0] == View(st)
    decreases |events|
  {
    InvIsSound(st);
    if events != [] {
      var next := Step(st, events[0]);
      StepInv(st, events[0]);
      StepRefinesChannel(st, events[0]);
      TraceIsChannelRun(next, events[1..]);
      Fifo.RunFrom(View(st), Trace(next, events[1..]));
    }
  }

  // ---- Calls of Send, one by one ----

  /** Send succeeds exactly when the whole buffer fits and the send it may have to start is
      accepted; either way the part that fits has been queued. */
  lemma SendResult(st: State, caller: ThreadId, data: seq<byte>, posted: bool)
    requires Inv(st)
    ensures var (after, ok) := Send(st, caller, data, posted);
            && (ok <==> data != [] && |data| <= Free(st.session) && (st.session.sending || posted))
            && after.session.accepted == st.session.accepted + data[..Min(|data|, Free(st.session))]
            && (data != [] ==>
                 after.session.log == st.session.log + [Entry(caller, data, Min(|data|, Free(st.session)))])
  {
  }

  lemma {:induction false} TakenSplit(log: seq<Entry>, k: nat)
    requires k <= |log|
    ensures Taken(log[..k]) <= Taken(log)
    ensures k < |log| ==> Taken(log[..k]) + TakenBy(log[k]) <= Taken(log)
    decreases |log|
  {
    if k < |log| {
      var most := log[..|log| - 1];
      if k < |log| - 1 {
        TakenSplit(most, k);
        assert most[..k] == log[..k];
      }
    } else {
      assert log[..k] == log;
    }
  }

  /** The bytes of a call of Send that were all taken lie next to each other in what was accepted,
      behind everything the calls before it had taken. */
  lemma SendIsContiguous(s: Session, k: nat)
    requires Conserved(s) && k < |s.log| && s.log[k].taken == |s.log[k].data|
    ensures var at, data := |Taken(s.log[..k])|, s.log[k].data;
            at + |data| <= |s.accepted| && s.accepted[at..at + |data|] == data
  {
    TakenSplit(s.log, k);
    var before, data := Taken(s.log[..k]), s.log[k].data;
    assert TakenBy(s.log[k]) == data;
    assert before + data <= s.accepted;
    assert (before + data)[|before|..] == data;
  }

  // ---- One send at a time ----

  /** Outside the lock the flag tells whether a context is out; there are never two, and whatever
      was queued since it was posted, its buffer is still the front of the queue. */
  lemma OneContext(st: State)
    requires Inv(st)
    ensures st.session.sending <==> |st.contexts| == 1
    ensures !st.session.sending <==> |st.contexts| == 0
    ensures forall id | id in st.contexts :: st.contexts[id].buffer <= st.session.queue
  {
    if id :| id in st.contexts {
      assert st.contexts.Keys == {id};
    }
  }

  /** A context is created with the longest prefix of the queue that fits its buffer, and its
      buffer is never changed afterwards. */
  lemma ContextBuffers(st: State, e: Event, id: nat)
    requires Inv(st) && Enabled(st, e) && id in Step(st, e).contexts
    ensures var after := Step(st, e);
            if id in st.contexts then
              after.contexts[id].buffer == st.contexts[id].buffer
            else
              && after.contexts[id].status.Posted?
              && after.contexts[id].buffer
                 == after.session.queue[..Min(DEFAULT_BUFFER_SIZE, |after.session.queue|)]
  {
  }

  // ---- No lost wake-up ----

  /** An event as a careful user and a healthy network produce them. */
  ghost predicate Clean(capacity: nat, e: Event) {
    match e
    case CallSend(_, data, posted) => |data| <= capacity && posted
    case Process(_, posted) => posted
    case _ => true
  }

  lemma StepIsClean(st: State, e: Event)
    requires Enabled(st, e) && Clean(st.session.capacity, e)
    ensures var s := Step(st, e).session;
            && s.postFailed == st.session.postFailed && s.oversized == st.session.oversized
            && s.capacity == st.session.capacity
  {
    match e
    case CallSend(caller, data, posted) =>
      PostSendKeeps(st.(session := Write(st.session, caller, data)), posted);
    case Process(id, posted) =>
      var skipped := st.(session := Skip(st.session, st.contexts[id].status.sent), contexts := st.contexts - {id});
      PostSendKeeps(skipped, posted);
    case Complete(_, _) =>
    case Dequeue(_, _) =>
  }

  lemma {:induction false} CleanRun(st: State, events: seq<Event>)
    requires EnabledRun(st, events)
    requires forall e | e in events :: Clean(st.session.capacity, e)
    ensures Run(st, events).session.postFailed == st.session.postFailed
    ensures Run(st, events).session.oversized == st.session.oversized
    ensures Run(st, events).session.capacity == st.session.capacity
    decreases |events|
  {
    if events != [] {
      assert Clean(st.session.capacity, events[0]);
      StepIsClean(st, events[0]);
      CleanRun(Step(st, events[0]), events[1..]);
    }
  }

  /** If no buffer is larger than the ring and no post fails, then after any run the session is
      idle exactly when its queue is empty, so that a Send to an idle session never overflows. */
  lemma NoWakeUpIsLost(capacity: nat, events: seq<Event>, caller: ThreadId, data: seq<byte>)
    requires EnabledRun(Initial(capacity), events)
    requires forall e | e in events :: Clean(capacity, e)
    ensures var st := Run(Initial(capacity), events);
            && (!st.session.sending <==> st.session.queue == [])
            && (!st.session.sending && 0 < |data| <= capacity ==> Send(st, caller, data, true).1)
  {
    InitialInv(capacity);
    RunInv(Initial(capacity), events);
    CleanRun(Initial(capacity), events);
    var st := Run(Initial(capacity), events);
    SendResult(st, caller, data, true);
  }

  // ---- The overflow stall ----

  ghost predicate IdleWithData(st: State) {
    !st.session.sending && st.session.queue != []
  }

  /** The ring is full and nothing is under way to empty it. */
  ghost predicate Stalled(st: State) {
    !st.session.sending && st.contexts == map[] && |st.session.queue| == st.session.capacity
  }

  /** The only ways to come to be idle with data queued are an overflow while idle and a post that
      fails. */
  lemma IdleWithDataEntry(st: State, e: Event)
    requires Inv(st) && Enabled(st, e) && !IdleWithData(st)
    ensures IdleWithData(Step(st, e)) <==>
              match e
              case CallSend(_, data, posted) =>
                !st.session.sending && data != [] &&
                (if Free(st.session) < |data| then 0 < Free(st.session) else !posted)
              case Process(id, posted) =>
                st.contexts[id].status.sent < |st.session.queue| && !posted
              case _ => false
  {
    match e
    case CallSend(caller, data, posted) =>
      PostSendKeeps(st.(session := Write(st.session, caller, data)), posted);
    case Process(id, posted) =>
      var skipped := st.(session := Skip(st.session, st.contexts[id].status.sent), contexts := st.contexts - {id});
      PostSendKeeps(skipped, posted);
      assert |skipped.session.queue| == |st.session.queue| - st.contexts[id].status.sent;
    case Complete(_, _) =>
    case Dequeue(_, _) =>
  }

  /** A Send that overflows while idle stalls the session. */
  lemma IdleOverflowStalls(st: State, caller: ThreadId, data: seq<byte>, posted: bool)
    requires Inv(st) && !st.session.sending && Free(st.session) < |data|
    ensures Stalled(Send(st, caller, data, posted).0) && !Send(st, caller, data, posted).1
  {
  }

  /** Whatever is done to it, a stalled session stays as it is: every later Send returns false and
      queues nothing, and nothing more reaches the wire. */
  lemma {:induction false} StallIsForever(st: State, events: seq<Event>)
    requires Inv(st) && Stalled(st) && EnabledRun(st, events)
    ensures var after := Run(st, events);
            && Stalled(after)
            && after.session.accepted == st.session.accepted && after.wire == st.wire
    ensures forall e | e in events :: e.CallSend? && !Send(st, e.caller, e.data, e.posted).1
    decreases |events|
  {
    if events != [] {
      var next := Step(st, events[0]);
      StepInv(st, events[0]);
      assert next.session.queue == st.session.queue;
      StallIsForever(next, events[1..]);
      forall e | e in events ensures e.CallSend? && !Send(st, e.caller, e.data, e.posted).1 {
        if e != events[0] {
          assert e in events[1..];
          assert !Send(next, e.caller, e.data, e.posted).1;
        }
      }
    }
  }

  ghost predicate Progresses(st: State, events: seq<Event>) {
    EnabledRun(st, events) && |st.wire| < |Run(st, events).wire|
  }

  lemma ProgressesLater(st: State, e: Event, events: seq<Event>)
    requires Enabled(st, e) && Progresses(Step(st, e), events)
    ensures Progresses(st, [e] + events)
  {
    assert ([e] + events)[1..] == events;
  }

  // Ways to put another byte on the wire, from each state an unstalled session can be in.

  lemma FromPosted(st: State, id: nat) returns (events: seq<Event>)
    requires Inv(st) && id in st.contexts && st.contexts[id].status.Posted?
    ensures Progresses(st, events)
  {
    events := [Complete(id, 1)];
    assert events[1..] == [];
  }

  lemma FromIdle(st: State) returns (events: seq<Event>)
    requires Inv(st) && !st.session.sending && 0 < Free(st.session)
    ensures Progresses(st, events)
  {
    var e := CallSend(0, [0], true);
    StepInv(st, e);
    StepEffect(st, e);
    assert st.nextContext in Step(st, e).contexts;
    events := FromPosted(Step(st, e), st.nextContext);
    ProgressesLater(st, e, events);
    events := [e] + events;
  }

  lemma FromDequeued(st: State, id: nat) returns (events: seq<Event>)
    requires Inv(st) && id in st.contexts && st.contexts[id].status.Dequeued?
    ensures Progresses(st, events)
  {
    var e := Process(id, true);
    StepInv(st, e);
    StepEffect(st, e);
    var next := Step(st, e);
    if st.contexts[id].status.sent < |st.session.queue| {
      assert st.nextContext in next.contexts;
      events := FromPosted(next, st.nextContext);
    } else {
      events := FromIdle(next);
    }
    ProgressesLater(st, e, events);
    events := [e] + events;
  }

  lemma FromCompleted(st: State, id: nat) returns (events: seq<Event>)
    requires Inv(st) && id in st.contexts && st.contexts[id].status.Completed?
    ensures Progresses(st, events)
  {
    var e := Dequeue(id, 0);
    StepInv(st, e);
    StepEffect(st, e);
    events := FromDequeued(Step(st, e), id);
    ProgressesLater(st, e, events);
    events := [e] + events;
  }

  /** A session can be brought to transmit again if and only if it is not stalled. */
  lemma StalledIffDead(st: State)
    requires Inv(st)
    ensures Stalled(st) <==> !exists events :: Progresses(st, events)
  {
    if Stalled(st) {
      forall events | EnabledRun(st, events) ensures !Progresses(st, events) {
        StallIsForever(st, events);
      }
    } else {
      var events;
      if id :| id in st.contexts {
        match st.contexts[id].status
        case Posted => events := FromPosted(st, id);
        case Completed(_) => events := FromCompleted(st, id);
        case Dequeued(_, _) => events := FromDequeued(st, id);
      } else {
        events := FromIdle(st);
      }
    }
  }

  // ---- Draining ----

  /** An event of a session nobody sends on any more, over a network that accepts every post. */
  ghost predicate Quiet(e: Event) {
    !e.CallSend? && (e.Process? ==> e.posted)
  }

  ghost predicate QuietRun(st: State, events: seq<Event>) {
    EnabledRun(st, events) && forall e | e in events :: Quiet(e)
  }

  ghost function Completions(events: seq<Event>): nat {
    if events == [] then 0 else (if events[0].Complete? then 1 else 0) + Completions(events[1..])
  }

  /** Events still to come at most: three for each byte queued, less those the context out has
      already been through. */
  ghost function Work(st: State): int {
    3 * |st.session.queue| -
    (if id :| id in st.contexts then StageOf(st.contexts[id].status) else 0)
  }

  ghost function StageOf(s: Status): nat {
    match s
    case Posted => 0
    case Completed(_) => 1
    case Dequeued(_, _) => 2
  }

  lemma WorkOf(st: State, id: nat)
    requires Inv(st) && id in st.contexts
    ensures Work(st) == 3 * |st.session.queue| - StageOf(st.contexts[id].status)
  {
  }

  ghost predicate Draining(st: State) {
    Inv(st) && (st.session.sending || st.session.queue == [])
  }

  lemma QuietStep(st: State, e: Event)
    requires Draining(st) && Enabled(st, e) && Quiet(e)
    ensures Draining(Step(st, e)) && Work(Step(st, e)) < Work(st)
  {
    StepInv(st, e);
    var next := Step(st, e);
    WorkOf(st, e.id);
    if e.Process? {
      if next.session.queue != [] {
        assert st.nextContext in next.contexts;
        WorkOf(next, st.nextContext);
      }
    } else {
      WorkOf(next, e.id);
    }
  }

  /** However the kernel cuts the sends up, a session that is left alone stops after at most one
      completion for each unsent byte (and three events for each queued one). */
  lemma {:induction false} DrainBound(st: State, events: seq<Event>)
    requires Draining(st) && QuietRun(st, events)
    ensures Draining(Run(st, events))
    ensures |events| <= Work(st) <= 3 * |st.session.queue|
    ensures Completions(events) <= |st.session.accepted| - |st.wire|
    ensures Run(st, events).session.accepted == st.session.accepted
    decreases |events|
  {
    if events == [] {
      InvIsSound(st);
      assert 0 <= Work(st) by { if id :| id in st.contexts { WorkOf(st, id); } }
    } else {
      assert Quiet(events[0]);
      QuietStep(st, events[0]);
      StepEffect(st, events[0]);
      DrainBound(Step(st, events[0]), events[1..]);
    }
  }

  /** A drained session has transmitted everything it accepted, and one that is not drained has a
      next event: so draining ends, and ends with nothing left behind. */
  lemma DrainedOrNotDone(st: State)
    requires Draining(st)
    ensures if st.session.queue == [] then
              !st.session.sending && st.contexts == map[] && st.wire == st.session.accepted
            else
              exists e :: Enabled(st, e) && Quiet(e)
  {
    if id :| id in st.contexts {
      match st.contexts[id].status
      case Posted => assert Enabled(st, Complete(id, 1)) && Quiet(Complete(id, 1));
      case Completed(_) => assert Enabled(st, Dequeue(id, 0)) && Quiet(Dequeue(id, 0));
      case Dequeued(_, _) => assert Enabled(st, Process(id, true)) && Quiet(Process(id, true));
    }
  }

  /** A session left alone until nothing more can happen has transmitted all it accepted and is
      idle, with at most one completion for each byte that was unsent. */
  lemma QuietRunsEndDrained(st: State, events: seq<Event>)
    requires Draining(st) && QuietRun(st, events)
    requires forall e | Enabled(Run(st, events), e) :: !Quiet(e)
    ensures var end := Run(st, events);
            && end.session.queue == [] && !end.session.sending && end.contexts == map[]
            && end.wire == end.session.accepted == st.session.accepted
    ensures Completions(events) <= |st.session.accepted| - |st.wire|
  {
    DrainBound(st, events);
    DrainedOrNotDone(Run(st, events));
  }
}
