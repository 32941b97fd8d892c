/** The completion-driven send path of a session, with each of Send and ProcessSend taken as one
    step: the state it works on, what the functions do to it, and what the kernel may do. */
module SendMachine {
  import opened Types

  /** Where an overlapped send is: in the kernel, completed with so many bytes, or handed to the
      thread that took its completion. */
  datatype Status = Posted | Completed(sent: nat) | Dequeued(sent: nat, worker: ThreadId)

  /** A send context: the bytes copied into its buffer, and where it is. */
  datatype Context = Context(buffer: seq<byte>, status: Status)

  /** One call of Send that got as far as the ring: what it was given and how much went in. */
  datatype Entry = Entry(caller: ThreadId, data: seq<byte>, taken: nat)

  /** The part of a session its spin lock protects.  `queue` is the content of the send ring; the
      fields from `accepted` on are history. */
  datatype Session = Session(
    capacity: nat,
    queue: seq<byte>,
    sending: bool,
    accepted: seq<byte>,
    skipped: seq<byte>,
    log: seq<Entry>,
    oversized: bool,     // some call of Send was given more than the ring can hold
    idleOverflow: bool,  // some call of Send overflowed while no send was under way
    postFailed: bool     // some WSASend failed
  )

  datatype State = State(session: Session, contexts: map<nat, Context>, nextContext: nat, wire: seq<byte>)

  function Initial(capacity: nat): State {
    State(Session(capacity, [], false, [], [], [], false, false, false), map[], 0, [])
  }

  // ---- What the functions do ----

  function Free(s: Session): int {
    s.capacity - |s.queue|
  }

  /** The call of the ring's Write at the top of Send. */
  function Write(s: Session, caller: ThreadId, data: seq<byte>): Session
    requires |s.queue| <= s.capacity
  {
    var n := Min(|data|, Free(s));
    s.(queue := s.queue + data[..n],
       accepted := s.accepted + data[..n],
       log := s.log + [Entry(caller, data, n)],
       oversized := s.oversized || s.capacity < |data|,
       idleOverflow := s.idleOverflow || (n < |data| && !s.sending))
  }

  /** The call of the ring's Skip at the top of ProcessSend. */
  function Skip(s: Session, sent: nat): Session {
    var n := Min(sent, |s.queue|);
    s.(queue := s.queue[n..], skipped := s.skipped + s.queue[..n])
  }

  /** PostSend, the send being accepted by the kernel if `posted`. */
  function PostSend(st: State, posted: bool): (State, bool) {
    var buffer := st.session.queue[..Min(DEFAULT_BUFFER_SIZE, |st.session.queue|)];
    if buffer == [] then
      (st.(session := st.session.(sending := false)), true)
    else if posted then
      (st.(session := st.session.(sending := true),
           contexts := st.contexts[st.nextContext := Context(buffer, Posted)],
           nextContext := st.nextContext + 1), true)
    else
      (st.(session := st.session.(sending := false, postFailed := true)), false)
  }

  function Send(st: State, caller: ThreadId, data: seq<byte>, posted: bool): (State, bool)
    requires |st.session.queue| <= st.session.capacity
  {
    if data == [] then
      (st, false)
    else
      var written := st.(session := Write(st.session, caller, data));
      if Free(st.session) < |data| then (written, false)
      else if st.session.sending then (written, true)
      else PostSend(written, posted)
  }

  function ProcessSend(st: State, id: nat, posted: bool): State
    requires id in st.contexts && st.contexts[id].status.Dequeued?
  {
    var skipped := st.(session := Skip(st.session, st.contexts[id].status.sent),
                       contexts := st.contexts - {id});
    if skipped.session.queue != [] then PostSend(skipped, posted).0
    else skipped.(session := skipped.session.(sending := false))
  }

  /** PostSend changes the flag and nothing else that the lock protects. */
  lemma PostSendKeeps(st: State, posted: bool)
    ensures var (after, ok) := PostSend(st, posted);
            && after.wire == st.wire
            && after.session == st.session.(sending := st.session.queue != [] && posted,
                                            postFailed := st.session.postFailed || !ok)
  {
  }

  // ---- Steps and runs ----

  datatype Event =
    | CallSend(caller: ThreadId, data: seq<byte>, posted: bool)
    | Complete(id: nat, sent: nat)      // the kernel finishes a send, having sent that much of it
    | Dequeue(id: nat, worker: ThreadId)    // GetQueuedCompletionStatus hands the completion out
    | Process(id: nat, posted: bool)

  ghost predicate Enabled(st: State, e: Event) {
    match e
    case CallSend(_, _, _) => |st.session.queue| <= st.session.capacity
    case Complete(id, sent) =>
      id in st.contexts && st.contexts[id].status.Posted? && 1 <= sent <= |st.contexts[id].buffer|
    case Dequeue(id, _) => id in st.contexts && st.contexts[id].status.Completed?
    case Process(id, _) => id in st.contexts && st.contexts[id].status.Dequeued?
  }

  ghost function Step(st: State, e: Event): State
    requires Enabled(st, e)
  {
    match e
    case CallSend(caller, data, posted) => Send(st, caller, data, posted).0
    case Complete(id, sent) =>
      var c := st.contexts[id];
      st.(contexts := st.contexts[id := c.(status := Completed(sent))], wire := st.wire + c.buffer[..sent])
    case Dequeue(id, worker) =>
      var c := st.contexts[id];
      st.(contexts := st.contexts[id := c.(status := Dequeued(c.status.sent, worker))])
    case Process(id, posted) => ProcessSend(st, id, posted)
  }

  ghost predicate EnabledRun(st: State, events: seq<Event>)
    decreases |events|
  {
    events == [] || (Enabled(st, events[0]) && EnabledRun(Step(st, events[0]), events[1..]))
  }

  ghost function Run(st: State, events: seq<Event>): State
    requires EnabledRun(st, events)
    decreases |events|
  {
    if events == [] then st else Run(Step(st, events[0]), events[1..])
  }

  // ---- The invariant ----

  /** What all calls of Send together put into the ring. */
  ghost function Taken(log: seq<Entry>): seq<byte> {
    if log == [] then [] else Taken(log[..|log| - 1]) + TakenBy(log[|log| - 1])
  }

  ghost function TakenBy(e: Entry): seq<byte> {
    e.data[..Min(e.taken, |e.data|)]
  }

  /** How much of the queue's front the kernel has already sent. */
  ghost function InTransit(c: Context): nat {
    if c.status.Posted? then 0 else c.status.sent
  }

  ghost predicate Conserved(s: Session) {
    && |s.queue| <= s.capacity
    && s.accepted == s.skipped + s.queue
    && s.accepted == Taken(s.log)
  }

  /** Without an idle overflow or a failed post, a session is idle exactly when it has nothing to
      send; and an idle overflow needs an oversized buffer or an earlier failed post. */
  ghost predicate NoLostWakeUp(s: Session) {
    && (!s.idleOverflow && !s.postFailed ==> (s.sending <==> s.queue != []))
    && (s.idleOverflow ==> s.oversized || s.postFailed)
  }

  ghost predicate Inv(st: State) {
    var s := st.session;
    && Conserved(s)
    && NoLostWakeUp(s)
    && (s.sending <==> st.contexts != map[])
    && (forall i, j | i in st.contexts && j in st.contexts :: i == j)
    && (forall i | i in st.contexts ::
         var c := st.contexts[i];
         && i < st.nextContext
         && c.buffer <= s.queue
         && 0 < |c.buffer| <= DEFAULT_BUFFER_SIZE
         && InTransit(c) <= |c.buffer|
         && (!c.status.Posted? ==> 0 < InTransit(c))
         && st.wire == s.skipped + c.buffer[..InTransit(c)])
    && (st.contexts == map[] ==> st.wire == s.skipped)
  }

  lemma InitialInv(capacity: nat)
    ensures Inv(Initial(capacity))
  {
  }

  lemma PostSendInv(st: State, posted: bool)
    requires Conserved(st.session) && st.contexts == map[] && st.wire == st.session.skipped
    requires !st.session.idleOverflow && !st.session.postFailed ==> st.session.queue != []
    requires st.session.idleOverflow ==> st.session.oversized || st.session.postFailed
    ensures Inv(PostSend(st, posted).0)
  {
    var after := PostSend(st, posted).0;
    assert after.session.sending ==> st.nextContext in after.contexts;
  }

  lemma WriteConserves(s: Session, caller: ThreadId, data: seq<byte>)
    requires Conserved(s)
    ensures Conserved(Write(s, caller, data))
  {
    var t := Write(s, caller, data);
    assert t.log[..|t.log| - 1] == s.log;
  }

  lemma SkipConserves(s: Session, sent: nat)
    requires Conserved(s)
    ensures Conserved(Skip(s, sent))
  {
  }

  lemma StepInv(st: State, e: Event)
    requires Inv(st) && Enabled(st, e)
    ensures Inv(Step(st, e))
  {
    match e
    case CallSend(caller, data, posted) =>
      if data != [] {
        WriteConserves(st.session, caller, data);
        var written := st.(session := Write(st.session, caller, data));
        if |data| <= Free(st.session) && !st.session.sending {
          PostSendInv(written, posted);
        }
      }
    case Process(id, posted) =>
      var c := st.contexts[id];
      SkipConserves(st.session, c.status.sent);
      var skipped := st.(session := Skip(st.session, c.status.sent), contexts := st.contexts - {id});
      assert skipped.contexts == map[];
      assert c.buffer[..c.status.sent] == st.session.queue[..c.status.sent];
      if skipped.session.queue != [] {
        PostSendInv(skipped, posted);
      }
    case Complete(id, sent) =>
    case Dequeue(_, _) =>
  }
}
