/** What holds in every state that any number of threads and the kernel can reach together. */
module ThreadProperties {
  import opened Types
  import opened Threads
  import SpinLock
  import M = SendMachine
  import P = SendProperties
  import Fifo

  ghost predicate EnabledRun(st: State, events: seq<Event>)
    decreases |events|
  {
    events == [] || (Enabled(st, events[0]) && EnabledRun(Step(st, events[0]), events[1..]))
  }

  ghost function Run(st: State, events: seq<Event>): State
    requires EnabledRun(st, events)
    decreases |events|
  {
    if events == [] then st else Run(Step(st, events[0]), events[1..])
  }

  /** The atomic events an interleaved run stands for, in the order they take effect. */
  ghost function Effects(st: State, events: seq<Event>): seq<M.Event>
    requires EnabledRun(st, events)
    decreases |events|
  {
    if events == [] then []
    else
      (match Effect(st, events[0]) case None => [] case Some(a) => [a]) +
      Effects(Step(st, events[0]), events[1..])
  }

  /** Every interleaved run is a run of the atomic machine. */
  lemma {:induction false} RunsAreAtomic(st: State, events: seq<Event>)
    requires Inv(st) && EnabledRun(st, events)
    ensures Inv(Run(st, events))
    ensures M.EnabledRun(Atomic(st), Effects(st, events))
    ensures M.Run(Atomic(st), Effects(st, events)) == Atomic(Run(st, events))
    decreases |events|
  {
    if events != [] {
      var next := Step(st, events[0]);
      StepSimulates(st, events[0]);
      RunsAreAtomic(next, events[1..]);
      var rest := Effects(next, events[1..]);
      match Effect(st, events[0])
      case None => assert Effects(st, events) == rest;
      case Some(a) => assert Effects(st, events)[1..] == rest;
    }
  }

  /** However the threads interleave, what they accept and what reaches the wire is a run of the
      first-in first-out channel. */
  lemma ThreadsAreAChannel(capacity: nat, threads: set<ThreadId>, events: seq<Event>)
    requires EnabledRun(Initial(capacity, threads), events)
    ensures var st := Initial(capacity, threads);
            && M.EnabledRun(Atomic(st), Effects(st, events))
            && Fifo.IsRun(P.Trace(Atomic(st), Effects(st, events)))
  {
    InitialInv(capacity, threads);
    RunsAreAtomic(Initial(capacity, threads), events);
    P.TraceIsChannelRun(Atomic(Initial(capacity, threads)), Effects(Initial(capacity, threads), events));
  }

  ghost predicate Reachable(capacity: nat, threads: set<ThreadId>, st: State) {
    exists events :: EnabledRun(Initial(capacity, threads), events)
                  && st == Run(Initial(capacity, threads), events)
  }

  lemma ReachableInv(capacity: nat, threads: set<ThreadId>, st: State)
    requires Reachable(capacity, threads, st)
    ensures Inv(st)
  {
    var events :| EnabledRun(Initial(capacity, threads), events)
               && st == Run(Initial(capacity, threads), events);
    InitialInv(capacity, threads);
    RunsAreAtomic(Initial(capacity, threads), events);
  }

  /** What the lock holder has made of the session so far keeps the history law. */
  lemma MidCall(st: State)
    requires Inv(st)
    ensures M.Conserved(st.session)
    ensures Atomic(st).session.accepted <= st.session.accepted
  {
    if st.opening.Some? {
      var Opening(found, t) := st.opening.value;
      match st.jobs[t].role
      case Sender(data) => M.WriteConserves(found, t, data);
      case Processor(_, sent) => M.SkipConserves(found, sent);
    }
  }

  /** In every reachable state, also in the middle of a call: the bytes accepted are those skipped
      followed by those in the ring, they are what the calls of Send put in one after the other,
      and at most one thread is between taking the lock and releasing it. */
  lemma NothingIsLost(capacity: nat, threads: set<ThreadId>, st: State)
    requires Reachable(capacity, threads, st)
    ensures st.session.accepted == st.session.skipped + st.session.queue
    ensures st.session.accepted == M.Taken(st.session.log)
    ensures |st.session.queue| <= st.session.capacity
    ensures st.wire <= st.session.accepted
    ensures |SpinLock.Holders(st.lock)| == if st.lock.flag then 1 else 0
  {
    ReachableInv(capacity, threads, st);
    P.InvIsSound(Atomic(st));
    MidCall(st);
    if t :| t in SpinLock.Holders(st.lock) {
      assert SpinLock.Holders(st.lock) == {t};
    }
  }

  /** A call of Send that is under way may have been logged already. */
  lemma MidCallLog(st: State)
    requires Inv(st)
    ensures Atomic(st).session.log <= st.session.log
    ensures CallsOf(st.session.log) <= st.turns
    ensures |st.results| <= |st.session.log| <= |st.turns| <= |st.results| + 1
    ensures forall k | 0 <= k < |st.results| :: st.results[k] ==> st.session.log[k].taken == |st.session.log[k].data|
  {
    if st.opening.Some? {
      var Opening(found, t) := st.opening.value;
      match st.jobs[t].role
      case Sender(data) =>
        var entry := M.Entry(t, data, Min(|data|, M.Free(found)));
        LogOneMore(found.log, entry);
        assert st.session.log == found.log || st.session.log == found.log + [entry];
      case Processor(_, _) =>
        assert st.session.log == found.log;
    }
  }

  /** In every reachable state, also in the middle of a call: the calls of Send stand in the log in
      the order in which they got the lock; one that returned true had its whole buffer taken; and the
      bytes of each whose whole buffer was taken lie next to each other in what was accepted, behind
      those of all earlier calls. */
  lemma SendsInLockOrder(capacity: nat, threads: set<ThreadId>, st: State, k: nat)
    requires Reachable(capacity, threads, st) && k < |st.session.log|
    ensures |st.results| <= |st.session.log| <= |st.turns| <= |st.results| + 1
    ensures var entry := st.session.log[k];
            var at := |M.Taken(st.session.log[..k])|;
            && (entry.caller, entry.data) == st.turns[k]
            && (k < |st.results| && st.results[k] ==> entry.taken == |entry.data|)
            && (entry.taken == |entry.data| ==>
                 && at + |entry.data| <= |st.session.accepted|
                 && st.session.accepted[at..at + |entry.data|] == entry.data)
  {
    ReachableInv(capacity, threads, st);
    MidCall(st);
    MidCallLog(st);
    assert CallsOf(st.session.log)[k] == st.turns[k];
    if st.session.log[k].taken == |st.session.log[k].data| {
      P.SendIsContiguous(st.session, k);
    }
  }

  /** Whenever the lock is free, mIsSending is true exactly when one send context is out (in the
      kernel, completed, or with a thread that waits for the lock), there are never two, and the
      context's buffer is still the front of the ring. */
  lemma OneSendAtATime(capacity: nat, threads: set<ThreadId>, st: State)
    requires Reachable(capacity, threads, st) && !st.lock.flag
    ensures |st.contexts| == if st.session.sending then 1 else 0
    ensures forall id | id in st.contexts ::
              st.contexts[id].buffer <= st.session.queue && 0 < |st.contexts[id].buffer| <= DEFAULT_BUFFER_SIZE
  {
    ReachableInv(capacity, threads, st);
    assert st.opening.None?;
    P.OneContext(Atomic(st));
  }

  // ---- No lost wake-up ----

  ghost predicate Clean(capacity: nat, e: Event) {
    && (e.CallSend? ==> |e.data| <= capacity)
    && (e.Work? ==> e.posted)
  }

  ghost predicate NothingFailed(st: State, capacity: nat) {
    && st.session.capacity == capacity
    && !st.session.oversized && !st.session.postFailed
    && forall t | t in st.jobs ::
         && st.jobs[t].stage != AtClear(false)
         && (st.jobs[t].role.Sender? ==> |st.jobs[t].role.data| <= capacity)
  }

  lemma NothingFailedStep(st: State, capacity: nat, e: Event)
    requires Enabled(st, e) && NothingFailed(st, capacity) && Clean(capacity, e)
    ensures NothingFailed(Step(st, e), capacity)
  {
  }

  lemma {:induction false} NothingFailedRun(st: State, capacity: nat, events: seq<Event>)
    requires EnabledRun(st, events) && NothingFailed(st, capacity)
    requires forall e | e in events :: Clean(capacity, e)
    ensures NothingFailed(Run(st, events), capacity)
    decreases |events|
  {
    if events != [] {
      assert Clean(capacity, events[0]);
      NothingFailedStep(st, capacity, events[0]);
      NothingFailedRun(Step(st, events[0]), capacity, events[1..]);
    }
  }

  /** However the threads interleave, if no buffer is larger than the ring and no post fails, then
      whenever the lock is free the session is idle exactly when its ring is empty. */
  lemma NoWakeUpIsLost(capacity: nat, threads: set<ThreadId>, events: seq<Event>)
    requires EnabledRun(Initial(capacity, threads), events)
    requires forall e | e in events :: Clean(capacity, e)
    ensures var st := Run(Initial(capacity, threads), events);
            !st.lock.flag ==> (!st.session.sending <==> st.session.queue == [])
  {
    InitialInv(capacity, threads);
    RunsAreAtomic(Initial(capacity, threads), events);
    NothingFailedRun(Initial(capacity, threads), capacity, events);
    var st := Run(Initial(capacity, threads), events);
    assert !st.lock.flag ==> st.opening.None?;
  }

  // ---- The overflow stall ----

  lemma StallStep(st: State, e: Event)
    requires Inv(st) && P.Stalled(Atomic(st)) && Enabled(st, e)
    ensures var after := Atomic(Step(st, e));
            && P.Stalled(after)
            && after.session.accepted == Atomic(st).session.accepted && after.wire == st.wire
    ensures Effect(st, e).Some? ==> Effect(st, e).value.CallSend? && !Effect(st, e).value.posted
  {
    StepSimulates(st, e);
    if Effect(st, e).Some? {
      var a := Effect(st, e).value;
      P.StepEffect(Atomic(st), a);
      assert a.CallSend?;
      P.SendResult(Atomic(st), a.caller, a.data, a.posted);
    }
  }

  /** Once the session is full and idle, no thread gets another byte accepted and no byte reaches
      the wire: every call of Send that takes effect, also one that was already waiting for the
      lock, returns false. */
  lemma {:induction false} StallIsForever(st: State, events: seq<Event>)
    requires Inv(st) && P.Stalled(Atomic(st)) && EnabledRun(st, events)
    ensures var after := Run(st, events);
            && P.Stalled(Atomic(after))
            && Atomic(after).session.accepted == Atomic(st).session.accepted && after.wire == st.wire
    ensures forall a | a in Effects(st, events) :: a.CallSend? && !a.posted
    decreases |events|
  {
    if events != [] {
      StepSimulates(st, events[0]);
      StallStep(st, events[0]);
      StallIsForever(Step(st, events[0]), events[1..]);
    }
  }
}
