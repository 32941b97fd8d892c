/** The completion-driven send path run by any number of threads at once, one access of shared
    state at a time.  Threads that call Send and threads that call ProcessSend take the session's
    spin lock first; the kernel takes no lock. */
module Threads {
  import opened Types
  import SpinLock
  import M = SendMachine

  /** What a thread is in the session for. */
  datatype Role = Sender(data: seq<byte>) | Processor(id: nat, sent: nat)

  /** The next access of shared state the thread will make, once it holds the lock. */
  datatype Stage =
    | AtStart                        // Write in Send, Skip in ProcessSend
    | AtCheck                        // IsSending in Send
    | AtMore                         // GetAvailableRead in ProcessSend
    | AtSet                          // SetSending(true) in PostSend
    | AtPeek                         // Peek in PostSend
    | AtCall(buffer: seq<byte>)      // WSASend in PostSend
    | AtClear(result: bool)          // SetSending(false), in PostSend or ProcessSend
    | AtUnlock(result: bool)         // the guard's destructor

  datatype Job = Job(role: Role, stage: Stage)

  /** The session as the lock holder found it. */
  datatype Opening = Opening(found: M.Session, holder: ThreadId)

  datatype State = State(
    lock: SpinLock.State,
    jobs: map<ThreadId, Job>,
    session: M.Session,
    contexts: map<nat, M.Context>,
    nextContext: nat,
    wire: seq<byte>,
    opening: Option<Opening>,           // history: set until the holder's call has taken effect
    turns: seq<(ThreadId, seq<byte>)>,  // history: the calls of Send, as they got the lock
    results: seq<bool>                  // history: what those that have taken effect return
  )

  ghost function Initial(capacity: nat, threads: set<ThreadId>): State {
    var s := M.Initial(capacity);
    State(SpinLock.Initial(threads), map[], s.session, s.contexts, s.nextContext, s.wire, None, [], [])
  }

  // ---- Steps ----

  datatype Event =
    | CallSend(thread: ThreadId, data: seq<byte>)
    | TakeCompletion(thread: ThreadId, id: nat)
    | TryForLock(thread: ThreadId)             // the exchange or one load of lock()
    | Work(thread: ThreadId, posted: bool)     // one access of the lock holder
    | Complete(id: nat, sent: nat)             // the kernel finishes a send

  ghost predicate Enabled(st: State, e: Event) {
    match e
    case CallSend(t, data) => SpinLock.Enabled(st.lock, SpinLock.Call(t)) && data != []
    case TakeCompletion(t, id) =>
      && SpinLock.Enabled(st.lock, SpinLock.Call(t))
      && id in st.contexts && st.contexts[id].status.Completed?
    case TryForLock(t) => t in st.jobs && t in st.lock.places
      && (st.lock.places[t].Exchanging? || st.lock.places[t].Spinning?)
    case Work(t, _) =>
      && t in st.jobs && t in st.lock.places && st.lock.places[t].Critical?
      && |st.session.queue| <= st.session.capacity
    case Complete(id, sent) =>
      && id in st.contexts && st.contexts[id].status.Posted?
      && 1 <= sent <= |st.contexts[id].buffer|
  }

  ghost function Step(st: State, e: Event): State
    requires Enabled(st, e)
  {
    match e
    case CallSend(t, data) =>
      st.(lock := SpinLock.Step(st.lock, SpinLock.Call(t)), jobs := st.jobs[t := Job(Sender(data), AtStart)])
    case TakeCompletion(t, id) =>
      var sent := st.contexts[id].status.sent;
      st.(lock := SpinLock.Step(st.lock, SpinLock.Call(t)),
          jobs := st.jobs[t := Job(Processor(id, sent), AtStart)],
          contexts := st.contexts[id := st.contexts[id].(status := M.Dequeued(sent, t))])
    case TryForLock(t) => TryForLock(st, t)
    case Work(t, posted) => Work(st, t, posted)
    case Complete(id, sent) =>
      var c := st.contexts[id];
      st.(contexts := st.contexts[id := c.(status := M.Completed(sent))], wire := st.wire + c.buffer[..sent])
  }

  ghost function TryForLock(st: State, t: ThreadId): State
    requires Enabled(st, Event.TryForLock(t))
  {
    if st.lock.places[t].Spinning? then
      st.(lock := SpinLock.Step(st.lock, SpinLock.Load(t)))
    else if st.lock.flag then
      st.(lock := SpinLock.Step(st.lock, SpinLock.Exchange(t)))
    else
      st.(lock := SpinLock.Step(st.lock, SpinLock.Exchange(t)),
          opening := Some(Opening(st.session, t)),
          turns := st.turns + Turn(t, st.jobs[t].role))
  }

  ghost function Turn(t: ThreadId, role: Role): seq<(ThreadId, seq<byte>)> {
    if role.Sender? then [(t, role.data)] else []
  }

  ghost function Result(role: Role, result: bool): seq<bool> {
    if role.Sender? then [result] else []
  }

  ghost function Work(st: State, t: ThreadId, posted: bool): State
    requires Enabled(st, Event.Work(t, posted))
  {
    var Job(role, stage) := st.jobs[t];
    match stage
    case AtStart =>
      (match role
       case Sender(data) =>
         var n := Min(|data|, M.Free(st.session));
         var after := st.(session := M.Write(st.session, t, data));
         if n < |data| then Finish(after, t, false) else Goto(after, t, AtCheck)
       case Processor(_, sent) =>
         Goto(st.(session := M.Skip(st.session, sent)), t, AtMore))
    case AtCheck =>
      if st.session.sending then Finish(st, t, true) else Goto(st, t, AtSet)
    case AtMore =>
      Goto(st, t, if st.session.queue != [] then AtSet else AtClear(true))
    case AtSet =>
      Goto(st.(session := st.session.(sending := true)), t, AtPeek)
    case AtPeek =>
      var buffer := st.session.queue[..Min(DEFAULT_BUFFER_SIZE, |st.session.queue|)];
      Goto(st, t, if buffer == [] then AtClear(true) else AtCall(buffer))
    case AtCall(buffer) =>
      if posted then
        Finish(st.(contexts := WithoutOwn(st.contexts, role)[st.nextContext := M.Context(buffer, M.Posted)],
                   nextContext := st.nextContext + 1), t, true)
      else
        Goto(st, t, AtClear(false))
    case AtClear(result) =>
      var s := st.session.(sending := false, postFailed := st.session.postFailed || !result);
      Finish(st.(session := s, contexts := WithoutOwn(st.contexts, role)), t, result)
    case AtUnlock(_) =>
      st.(lock := SpinLock.Step(st.lock, SpinLock.Unlock(t)), jobs := st.jobs - {t})
  }

  ghost function Goto(st: State, t: ThreadId, stage: Stage): State
    requires t in st.jobs
  {
    st.(jobs := st.jobs[t := st.jobs[t].(stage := stage)])
  }

  /** The access by which the holder's call takes effect; it only has to unlock. */
  ghost function Finish(st: State, t: ThreadId, result: bool): State
    requires t in st.jobs
  {
    Goto(st, t, AtUnlock(result)).(opening := None, results := st.results + Result(st.jobs[t].role, result))
  }

  /** A thread in ProcessSend is done with the completion it took. */
  ghost function WithoutOwn(contexts: map<nat, M.Context>, role: Role): map<nat, M.Context> {
    if role.Processor? then contexts - {role.id} else contexts
  }

  // ---- The atomic state behind an interleaved one ----

  /** The session as it was before the call that is under way, until that call takes effect. */
  ghost function Atomic(st: State): M.State {
    M.State(if st.opening.Some? then st.opening.value.found else st.session,
            st.contexts, st.nextContext, st.wire)
  }

  /** What the lock holder has done so far: `s` is what it has made of the session `o` it found. */
  ghost predicate DoneSoFar(o: M.Session, s: M.Session, t: ThreadId, job: Job)
    requires |o.queue| <= o.capacity
  {
    match job.stage
    case AtStart => s == o
    case AtCheck => job.role.Sender? && Fits(o, job.role) && s == Begun(o, t, job.role)
    case AtMore => job.role.Processor? && s == Begun(o, t, job.role)
    case AtSet => ToPost(o, t, job.role) && s == Begun(o, t, job.role)
    case AtPeek => ToPost(o, t, job.role) && s == Begun(o, t, job.role).(sending := true)
    case AtCall(buffer) =>
      && ToPost(o, t, job.role) && s == Begun(o, t, job.role).(sending := true)
      && buffer == s.queue[..Min(DEFAULT_BUFFER_SIZE, |s.queue|)]
    case AtClear(result) =>
      if result then job.role.Processor? && s == Begun(o, t, job.role) && s.queue == []
      else ToPost(o, t, job.role) && s == Begun(o, t, job.role).(sending := true)
    case AtUnlock(_) => false
  }

  ghost predicate Fits(o: M.Session, role: Role) {
    role.Sender? ==> |role.data| <= M.Free(o)
  }

  ghost function Begun(o: M.Session, t: ThreadId, role: Role): M.Session
    requires |o.queue| <= o.capacity
  {
    match role
    case Sender(data) => M.Write(o, t, data)
    case Processor(_, sent) => M.Skip(o, sent)
  }

  /** The call is one that gets as far as PostSend. */
  ghost predicate ToPost(o: M.Session, t: ThreadId, role: Role)
    requires |o.queue| <= o.capacity
  {
    Begun(o, t, role).queue != [] && Fits(o, role) && (role.Sender? ==> !o.sending)
  }

  ghost function CallsOf(log: seq<M.Entry>): seq<(ThreadId, seq<byte>)> {
    seq(|log|, i requires 0 <= i < |log| => (log[i].caller, log[i].data))
  }

  ghost predicate JobsFit(st: State) {
    && (forall t | t in st.lock.places :: t in st.jobs <==> !st.lock.places[t].Outside?)
    && (forall t | t in st.jobs ::
         && t in st.lock.places
         && (!st.lock.places[t].Critical? ==> st.jobs[t].stage.AtStart?)
         && (st.jobs[t].role.Sender? ==> st.jobs[t].role.data != []))
    && (forall t | t in st.jobs && st.jobs[t].role.Processor? && !st.jobs[t].stage.AtUnlock? ::
         var Processor(id, sent) := st.jobs[t].role;
         id in st.contexts && st.contexts[id].status == M.Dequeued(sent, t))
  }

  ghost predicate HolderFits(st: State)
    requires |Atomic(st).session.queue| <= Atomic(st).session.capacity
  {
    && (forall t | t in st.jobs && t in SpinLock.Holders(st.lock) ::
          st.jobs[t].stage.AtUnlock? <==> st.opening.None?)
    && match st.opening
       case None => true
       case Some(Opening(found, t)) =>
         && t in SpinLock.Holders(st.lock) && t in st.jobs
         && DoneSoFar(found, st.session, t, st.jobs[t])
  }

  ghost predicate TurnsFit(st: State) {
    st.turns == CallsOf(Atomic(st).session.log) +
      match st.opening
      case None => []
      case Some(Opening(_, t)) => if t in st.jobs then Turn(t, st.jobs[t].role) else []
  }

  /** A Send that returns true has had its whole buffer taken. */
  ghost predicate ResultsFit(st: State) {
    var log := Atomic(st).session.log;
    && |st.results| == |log|
    && forall k | 0 <= k < |log| :: st.results[k] ==> log[k].taken == |log[k].data|
  }

  ghost predicate Inv(st: State) {
    && SpinLock.Inv(st.lock)
    && M.Inv(Atomic(st))
    && JobsFit(st)
    && HolderFits(st)
    && TurnsFit(st)
    && ResultsFit(st)
  }

  lemma InitialInv(capacity: nat, threads: set<ThreadId>)
    ensures Inv(Initial(capacity, threads))
  {
    var st := Initial(capacity, threads);
    assert SpinLock.Holders(st.lock) == {};
    M.InitialInv(capacity);
  }

  // ---- Every interleaved step is an atomic one, or nothing ----

  /** The event that stands for a call of thread `t`, with what the call returns. */
  ghost function Call(t: ThreadId, role: Role, result: bool): M.Event {
    match role
    case Sender(data) => M.CallSend(t, data, result)
    case Processor(id, _) => M.Process(id, result)
  }

  /** The atomic event an interleaved one stands for.  A call of Send or ProcessSend counts as
      happening at the access by which it takes effect. */
  ghost function Effect(st: State, e: Event): Option<M.Event>
    requires Enabled(st, e)
  {
    match e
    case CallSend(_, _) => None
    case TakeCompletion(t, id) => Some(M.Dequeue(id, t))
    case TryForLock(_) => None
    case Complete(id, sent) => Some(M.Complete(id, sent))
    case Work(t, posted) =>
      var jobs := Step(st, e).jobs;
      if t in jobs && jobs[t].stage.AtUnlock? then Some(Call(t, jobs[t].role, jobs[t].stage.result))
      else None
  }

  /** The event does to the atomic state what the atomic event it stands for does, and a call of
      Send returns what the atomic one returns. */
  ghost predicate Simulates(st: State, e: Event)
    requires Enabled(st, e)
  {
    match Effect(st, e)
    case None => Atomic(Step(st, e)) == Atomic(st)
    case Some(a) =>
      && M.Enabled(Atomic(st), a)
      && Atomic(Step(st, e)) == M.Step(Atomic(st), a)
      && (a.CallSend? ==> M.Send(Atomic(st), a.caller, a.data, a.posted).1 == a.posted)
  }

  lemma CallSendInv(st: State, t: ThreadId, data: seq<byte>)
    requires Inv(st) && Enabled(st, CallSend(t, data))
    ensures Simulates(st, CallSend(t, data)) && Inv(Step(st, CallSend(t, data)))
  {
    SpinLock.StepInv(st.lock, SpinLock.Call(t));
    var next := Step(st, CallSend(t, data));
    assert SpinLock.Holders(next.lock) == SpinLock.Holders(st.lock);
  }

  lemma TakeCompletionInv(st: State, t: ThreadId, id: nat)
    requires Inv(st) && Enabled(st, TakeCompletion(t, id))
    ensures Simulates(st, TakeCompletion(t, id)) && Inv(Step(st, TakeCompletion(t, id)))
  {
    SpinLock.StepInv(st.lock, SpinLock.Call(t));
    var next := Step(st, TakeCompletion(t, id));
    assert SpinLock.Holders(next.lock) == SpinLock.Holders(st.lock);
    M.StepInv(Atomic(st), M.Dequeue(id, t));
  }

  lemma CompleteInv(st: State, id: nat, sent: nat)
    requires Inv(st) && Enabled(st, Complete(id, sent))
    ensures Simulates(st, Complete(id, sent)) && Inv(Step(st, Complete(id, sent)))
  {
    M.StepInv(Atomic(st), M.Complete(id, sent));
  }

  /** A failed try for the lock. */
  lemma SpinInv(st: State, t: ThreadId)
    requires Inv(st) && Enabled(st, Event.TryForLock(t)) && (st.lock.places[t].Spinning? || st.lock.flag)
    ensures Simulates(st, Event.TryForLock(t)) && Inv(Step(st, Event.TryForLock(t)))
  {
    var next := Step(st, Event.TryForLock(t));
    if st.lock.places[t].Spinning? {
      SpinLock.StepInv(st.lock, SpinLock.Load(t));
    } else {
      SpinLock.StepInv(st.lock, SpinLock.Exchange(t));
    }
    assert SpinLock.Holders(next.lock) == SpinLock.Holders(st.lock);
  }

  /** The exchange that takes the lock. */
  lemma AcquireInv(st: State, t: ThreadId)
    requires Inv(st) && Enabled(st, Event.TryForLock(t)) && !st.lock.places[t].Spinning? && !st.lock.flag
    ensures Simulates(st, Event.TryForLock(t)) && Inv(Step(st, Event.TryForLock(t)))
  {
    SpinLock.StepInv(st.lock, SpinLock.Exchange(t));
    assert SpinLock.Holders(st.lock) == {} && st.opening.None?;
    assert SpinLock.Holders(Step(st, Event.TryForLock(t)).lock) == {t};
  }

  lemma TryForLockInv(st: State, t: ThreadId)
    requires Inv(st) && Enabled(st, Event.TryForLock(t))
    ensures Simulates(st, Event.TryForLock(t)) && Inv(Step(st, Event.TryForLock(t)))
  {
    if st.lock.places[t].Spinning? || st.lock.flag {
      SpinInv(st, t);
    } else {
      AcquireInv(st, t);
    }
  }

  /** The thread that holds the lock and has not taken effect yet is the one the opening names. */
  lemma TheHolder(st: State, t: ThreadId)
    requires Inv(st) && t in st.jobs && t in st.lock.places && st.lock.places[t].Critical?
    ensures st.jobs[t].stage.AtUnlock? <==> st.opening.None?
    ensures st.opening.Some? ==>
              st.opening.value.holder == t && DoneSoFar(st.opening.value.found, st.session, t, st.jobs[t])
  {
    assert t in SpinLock.Holders(st.lock);
  }

  ghost predicate Working(st: State, t: ThreadId) {
    && Inv(st)
    && st.opening.Some? && st.opening.value.holder == t
  }

  /** An access that does not yet make the holder's call take effect. */
  lemma KeepsOpen(st: State, t: ThreadId, session: M.Session, stage: Stage)
    requires Working(st, t) && !stage.AtUnlock?
    requires DoneSoFar(st.opening.value.found, session, t, Job(st.jobs[t].role, stage))
    ensures var after := Goto(st.(session := session), t, stage);
            Inv(after) && Atomic(after) == Atomic(st)
  {
  }

  lemma LogOneMore(log: seq<M.Entry>, e: M.Entry)
    ensures CallsOf(log + [e]) == CallsOf(log) + [(e.caller, e.data)]
  {
  }

  /** A call touches no context but the one it processes and the one it posts, and logs itself if
      it is a Send. */
  lemma CallEffect(st: M.State, t: ThreadId, role: Role, result: bool)
    requires M.Inv(st) && M.Enabled(st, Call(t, role, result))
    requires role.Sender? ==> role.data != []
    ensures var after := M.Step(st, Call(t, role, result));
            && CallsOf(after.session.log) == CallsOf(st.session.log) + Turn(t, role)
            && st.session.log <= after.session.log
            && (role.Sender? && M.Send(st, t, role.data, result).1 ==>
                  after.session.log[|st.session.log|].taken == |role.data|)
            && forall id | id in st.contexts && (role.Processor? ==> id != role.id) ::
                 id in after.contexts && after.contexts[id] == st.contexts[id]
  {
    match role
    case Sender(data) =>
      var written := st.(session := M.Write(st.session, t, data));
      M.PostSendKeeps(written, result);
      LogOneMore(st.session.log, written.session.log[|st.session.log|]);
    case Processor(id, sent) =>
      var skipped := st.(session := M.Skip(st.session, st.contexts[id].status.sent), contexts := st.contexts - {id});
      M.PostSendKeeps(skipped, result);
  }

  /** `after` is what comes of the access that makes the call of `t` take effect. */
  ghost predicate TakesEffect(st: State, t: ThreadId, after: State, result: bool) {
    && Working(st, t) && t in st.jobs
    && (var e := Call(t, st.jobs[t].role, result);
        && M.Enabled(Atomic(st), e) && Atomic(after) == M.Step(Atomic(st), e)
        && (e.CallSend? ==> M.Send(Atomic(st), t, e.data, result).1 == result))
    && after.opening == None && after.results == st.results + Result(st.jobs[t].role, result)
    && after.lock == st.lock && after.turns == st.turns
    && after.jobs == st.jobs[t := Job(st.jobs[t].role, AtUnlock(result))]
  }

  lemma ClosesJobs(st: State, t: ThreadId, after: State, result: bool)
    requires TakesEffect(st, t, after, result)
    ensures JobsFit(after)
  {
    CallEffect(Atomic(st), t, st.jobs[t].role, result);
    forall u | u in after.jobs && after.jobs[u].role.Processor? && !after.jobs[u].stage.AtUnlock?
      ensures after.jobs[u].role.id in after.contexts
      ensures after.contexts[after.jobs[u].role.id] == st.contexts[after.jobs[u].role.id]
    {
      assert u != t;
    }
  }

  lemma ClosesHistory(st: State, t: ThreadId, after: State, result: bool)
    requires TakesEffect(st, t, after, result)
    ensures TurnsFit(after) && ResultsFit(after)
  {
    CallEffect(Atomic(st), t, st.jobs[t].role, result);
    var log := Atomic(st).session.log;
    assert |CallsOf(after.session.log)| == |CallsOf(log)| + |Turn(t, st.jobs[t].role)|;
  }

  lemma Closes(st: State, t: ThreadId, after: State, result: bool)
    requires TakesEffect(st, t, after, result)
    ensures Inv(after)
  {
    M.StepInv(Atomic(st), Call(t, st.jobs[t].role, result));
    ClosesJobs(st, t, after, result);
    ClosesHistory(st, t, after, result);
    assert HolderFits(after);
  }

  lemma StartInv(st: State, t: ThreadId, posted: bool)
    requires Working(st, t) && st.jobs[t].stage.AtStart? && Enabled(st, Event.Work(t, posted))
    ensures Simulates(st, Event.Work(t, posted)) && Inv(Step(st, Event.Work(t, posted)))
  {
    var next := Step(st, Event.Work(t, posted));
    if next.jobs[t].stage.AtUnlock? {
      Closes(st, t, next, false);
    } else {
      KeepsOpen(st, t, next.session, next.jobs[t].stage);
    }
  }

  lemma CheckInv(st: State, t: ThreadId, posted: bool)
    requires Working(st, t) && (st.jobs[t].stage.AtCheck? || st.jobs[t].stage.AtMore?)
    requires Enabled(st, Event.Work(t, posted))
    ensures Simulates(st, Event.Work(t, posted)) && Inv(Step(st, Event.Work(t, posted)))
  {
    var next := Step(st, Event.Work(t, posted));
    if next.jobs[t].stage.AtUnlock? {
      Closes(st, t, next, true);
    } else {
      KeepsOpen(st, t, next.session, next.jobs[t].stage);
    }
  }

  lemma SetOrPeekInv(st: State, t: ThreadId, posted: bool)
    requires Working(st, t) && (st.jobs[t].stage.AtSet? || st.jobs[t].stage.AtPeek?)
    requires Enabled(st, Event.Work(t, posted))
    ensures Simulates(st, Event.Work(t, posted)) && Inv(Step(st, Event.Work(t, posted)))
  {
    var next := Step(st, Event.Work(t, posted));
    KeepsOpen(st, t, next.session, next.jobs[t].stage);
  }

  lemma CallInv(st: State, t: ThreadId, posted: bool)
    requires Working(st, t) && st.jobs[t].stage.AtCall? && Enabled(st, Event.Work(t, posted))
    ensures Simulates(st, Event.Work(t, posted)) && Inv(Step(st, Event.Work(t, posted)))
  {
    var next := Step(st, Event.Work(t, posted));
    if posted {
      Closes(st, t, next, true);
    } else {
      KeepsOpen(st, t, next.session, next.jobs[t].stage);
    }
  }

  lemma ClearInv(st: State, t: ThreadId, posted: bool)
    requires Working(st, t) && st.jobs[t].stage.AtClear? && Enabled(st, Event.Work(t, posted))
    ensures Simulates(st, Event.Work(t, posted)) && Inv(Step(st, Event.Work(t, posted)))
  {
    Closes(st, t, Step(st, Event.Work(t, posted)), st.jobs[t].stage.result);
  }

  lemma UnlockInv(st: State, t: ThreadId, posted: bool)
    requires Inv(st) && Enabled(st, Event.Work(t, posted)) && st.jobs[t].stage.AtUnlock?
    ensures Simulates(st, Event.Work(t, posted)) && Inv(Step(st, Event.Work(t, posted)))
  {
    TheHolder(st, t);
    SpinLock.StepInv(st.lock, SpinLock.Unlock(t));
    var next := Step(st, Event.Work(t, posted));
    assert SpinLock.Holders(next.lock) == SpinLock.Holders(st.lock) - {t};
  }

  lemma StepSimulates(st: State, e: Event)
    requires Inv(st) && Enabled(st, e)
    ensures Simulates(st, e) && Inv(Step(st, e))
  {
    match e
    case CallSend(t, data) => CallSendInv(st, t, data);
    case TakeCompletion(t, id) => TakeCompletionInv(st, t, id);
    case TryForLock(t) => TryForLockInv(st, t);
    case Complete(id, sent) => CompleteInv(st, id, sent);
    case Work(t, posted) =>
      TheHolder(st, t);
      match st.jobs[t].stage
      case AtStart => StartInv(st, t, posted);
      case AtCheck => CheckInv(st, t, posted);
      case AtMore => CheckInv(st, t, posted);
      case AtSet => SetOrPeekInv(st, t, posted);
      case AtPeek => SetOrPeekInv(st, t, posted);
      case AtCall(_) => CallInv(st, t, posted);
      case AtClear(_) => ClearInv(st, t, posted);
      case AtUnlock(_) => UnlockInv(st, t, posted);
  }
}
