/** Progress of the threads: there is always something to do, and it comes to an end. */
module ThreadProgress {
  import opened Types
  import opened Counting
  import opened Threads
  import opened ThreadProperties
  import SpinLock
  import M = SendMachine

  // ---- There is always something to do ----

  /** A completion that was taken is with the thread that took it. */
  ghost predicate Taken(st: State) {
    forall id | id in st.contexts && st.contexts[id].status.Dequeued? :: WithItsThread(st, id)
  }

  ghost predicate WithItsThread(st: State, id: nat)
    requires id in st.contexts && st.contexts[id].status.Dequeued?
  {
    var t := st.contexts[id].status.worker;
    t in st.jobs && st.jobs[t].role == Processor(id, st.contexts[id].status.sent) && !st.jobs[t].stage.AtUnlock?
  }

  lemma WorkTaken(st: State, t: ThreadId, posted: bool)
    requires Inv(st) && Taken(st) && Enabled(st, Event.Work(t, posted))
    ensures Taken(Step(st, Event.Work(t, posted)))
  {
    var next := Step(st, Event.Work(t, posted));
    TheHolderStage(st, t);
    forall id | id in next.contexts && next.contexts[id].status.Dequeued? ensures WithItsThread(next, id) {
      WorkKeeps(st, t, posted, id);
    }
  }

  /** Only a Send checks whether a send is under way. */
  lemma TheHolderStage(st: State, t: ThreadId)
    requires Inv(st) && t in st.jobs && t in st.lock.places && st.lock.places[t].Critical?
    ensures st.jobs[t].stage.AtCheck? ==> st.jobs[t].role.Sender?
  {
    assert t in SpinLock.Holders(st.lock);
  }

  lemma WorkKeeps(st: State, t: ThreadId, posted: bool, id: nat)
    requires Taken(st) && Enabled(st, Event.Work(t, posted))
    requires st.jobs[t].stage.AtCheck? ==> st.jobs[t].role.Sender?
    requires var next := Step(st, Event.Work(t, posted)); id in next.contexts && next.contexts[id].status.Dequeued?
    ensures WithItsThread(Step(st, Event.Work(t, posted)), id)
  {
    assert id in st.contexts && st.contexts[id].status.Dequeued? && WithItsThread(st, id);
    match st.jobs[t].stage
    case AtStart =>
    case AtCheck =>
    case AtMore =>
    case AtSet =>
    case AtPeek =>
    case AtCall(_) =>
    case AtClear(_) =>
    case AtUnlock(_) =>
  }

  lemma TakenStep(st: State, e: Event)
    requires Inv(st) && Taken(st) && Enabled(st, e)
    ensures Taken(Step(st, e))
  {
    if e.Work? {
      WorkTaken(st, e.thread, e.posted);
    } else {
      var next := Step(st, e);
      forall id | id in next.contexts && next.contexts[id].status.Dequeued? ensures WithItsThread(next, id) {
        assert id in st.contexts;
        assert st.contexts[id].status.Dequeued? ==> WithItsThread(st, id);
      }
    }
  }

  lemma {:induction false} TakenRun(st: State, events: seq<Event>)
    requires Inv(st) && Taken(st) && EnabledRun(st, events)
    ensures Taken(Run(st, events))
    decreases |events|
  {
    if events != [] {
      StepSimulates(st, events[0]);
      TakenStep(st, events[0]);
      TakenRun(Step(st, events[0]), events[1..]);
    }
  }

  /** The event is no new Send, and no failed try for the lock. */
  ghost predicate Advances(st: State, e: Event) {
    Enabled(st, e) && !e.CallSend? && (e.TryForLock? ==> !st.lock.flag)
  }

  // ---- How much is left to do ----

  /** Accesses a call may still make, counting what its own send will take up to its completion. */
  ghost function Cost(place: SpinLock.Place, job: Job): nat {
    Waiting(place) +
    match job.stage
    case AtStart => (match job.role case Sender(data) => 9 * |data| + 10 case Processor(_, _) => 1)
    case AtCheck => 9
    case AtMore => 9
    case AtSet => 8
    case AtPeek => 7
    case AtCall(_) => 6
    case AtClear(_) => 2
    case AtUnlock(_) => 1
  }

  ghost function Waiting(place: SpinLock.Place): nat {
    match place
    case Spinning => 2
    case Exchanging => 1
    case _ => 0
  }

  /** And a context, up to its completion being taken. */
  ghost function Weight(c: M.Context): nat {
    match c.status
    case Posted => 4
    case Completed(_) => 3
    case Dequeued(_, _) => 0
  }

  ghost function Costs(lock: SpinLock.State, jobs: map<ThreadId, Job>): map<nat, nat> {
    map t | t in jobs && t in lock.places :: Cost(lock.places[t], jobs[t])
  }

  ghost function Weights(contexts: map<nat, M.Context>): map<nat, nat> {
    map id | id in contexts :: Weight(contexts[id])
  }

  /** Events still to come at most, unless threads call Send or try for the lock in vain: each byte in
      the ring may take a send of its own. */
  ghost function Left(st: State): nat {
    9 * |st.session.queue| + Sum(Costs(st.lock, st.jobs)) + Sum(Weights(st.contexts))
  }

  /** What becomes of the costs when one thread goes on, and when it is done. */
  lemma CostOf(lock: SpinLock.State, jobs: map<ThreadId, Job>, t: ThreadId, place: SpinLock.Place, job: Job)
    requires t in lock.places
    ensures Costs(lock.(places := lock.places[t := place]), jobs[t := job]) == Costs(lock, jobs)[t := Cost(place, job)]
    ensures Costs(lock.(places := lock.places[t := place]), jobs - {t}) == Costs(lock, jobs) - {t}
  {
  }

  lemma GoesOn(st: State, after: State, t: ThreadId, place: SpinLock.Place, job: Job)
    requires t in st.jobs && t in st.lock.places
    requires after.lock.places == st.lock.places[t := place] && after.jobs == st.jobs[t := job]
    ensures Sum(Costs(after.lock, after.jobs))
         == Sum(Costs(st.lock, st.jobs)) - Cost(st.lock.places[t], st.jobs[t]) + Cost(place, job)
  {
    CostOf(st.lock, st.jobs, t, place, job);
    assert Costs(after.lock, after.jobs) == Costs(st.lock.(places := st.lock.places[t := place]), st.jobs[t := job]);
    SumOne(Costs(st.lock, st.jobs), t, Cost(place, job));
  }

  /** An access in which a thread that holds the lock goes on to `stage`. */
  lemma StageCosts(st: State, after: State, t: ThreadId, stage: Stage)
    requires t in st.jobs && t in st.lock.places && st.lock.places[t].Critical?
    requires after.lock == st.lock && after.jobs == st.jobs[t := Job(st.jobs[t].role, stage)]
    ensures Sum(Costs(after.lock, after.jobs))
         == Sum(Costs(st.lock, st.jobs)) - Cost(SpinLock.Critical, st.jobs[t])
            + Cost(SpinLock.Critical, Job(st.jobs[t].role, stage))
  {
    assert st.lock.places[t := SpinLock.Critical] == st.lock.places;
    GoesOn(st, after, t, SpinLock.Critical, Job(st.jobs[t].role, stage));
  }

  lemma TryReduces(st: State, t: ThreadId)
    requires Enabled(st, Event.TryForLock(t)) && !st.lock.flag
    ensures Left(Step(st, Event.TryForLock(t))) < Left(st)
  {
    var after := Step(st, Event.TryForLock(t));
    assert st.jobs[t := st.jobs[t]] == st.jobs;
    GoesOn(st, after, t, after.lock.places[t], st.jobs[t]);
  }

  lemma TakeReduces(st: State, t: ThreadId, id: nat)
    requires Inv(st) && Enabled(st, TakeCompletion(t, id))
    ensures Left(Step(st, TakeCompletion(t, id))) < Left(st)
  {
    var after := Step(st, TakeCompletion(t, id));
    var sent := st.contexts[id].status.sent;
    CostOf(st.lock, st.jobs, t, SpinLock.Exchanging, Job(Processor(id, sent), AtStart));
    SumNew(Costs(st.lock, st.jobs), t, Cost(SpinLock.Exchanging, Job(Processor(id, sent), AtStart)));
    WeightOf(st.contexts, id, st.contexts[id].(status := M.Dequeued(sent, t)));
  }

  lemma WeightOf(contexts: map<nat, M.Context>, id: nat, c: M.Context)
    requires id in contexts
    ensures Sum(Weights(contexts[id := c])) == Sum(Weights(contexts)) - Weight(contexts[id]) + Weight(c)
  {
    assert Weights(contexts[id := c]) == Weights(contexts)[id := Weight(c)];
    SumOne(Weights(contexts), id, Weight(c));
  }

  lemma CompleteReduces(st: State, id: nat, sent: nat)
    requires Enabled(st, Complete(id, sent))
    ensures Left(Step(st, Complete(id, sent))) < Left(st)
  {
    WeightOf(st.contexts, id, st.contexts[id].(status := M.Completed(sent)));
  }

  /** What a completion tells ProcessSend to skip is in the ring. */
  lemma SomethingToSkip(st: State, t: ThreadId)
    requires Inv(st) && t in st.jobs && t in st.lock.places && st.lock.places[t].Critical?
    requires st.jobs[t].role.Processor? && st.jobs[t].stage.AtStart?
    ensures 1 <= st.jobs[t].role.sent <= |st.session.queue|
  {
    TheHolder(st, t);
    var Processor(id, sent) := st.jobs[t].role;
    assert st.contexts[id].status == M.Dequeued(sent, t);
    assert M.InTransit(Atomic(st).contexts[id]) == sent;
  }

  lemma WriteReduces(st: State, t: ThreadId, posted: bool)
    requires Enabled(st, Event.Work(t, posted)) && st.jobs[t].stage.AtStart? && st.jobs[t].role.Sender?
    ensures Left(Step(st, Event.Work(t, posted))) < Left(st)
  {
    var after := Step(st, Event.Work(t, posted));
    StageCosts(st, after, t, after.jobs[t].stage);
    assert |after.session.queue| <= |st.session.queue| + |st.jobs[t].role.data|;
  }

  lemma SkipReduces(st: State, t: ThreadId, posted: bool)
    requires Enabled(st, Event.Work(t, posted)) && st.jobs[t].stage.AtStart? && st.jobs[t].role.Processor?
    requires 1 <= st.jobs[t].role.sent <= |st.session.queue|
    ensures Left(Step(st, Event.Work(t, posted))) < Left(st)
  {
    var after := Step(st, Event.Work(t, posted));
    StageCosts(st, after, t, AtMore);
    assert |after.session.queue| == |st.session.queue| - st.jobs[t].role.sent;
  }

  lemma MiddleReduces(st: State, t: ThreadId, posted: bool)
    requires Enabled(st, Event.Work(t, posted))
    requires var stage := st.jobs[t].stage; stage.AtCheck? || stage.AtMore? || stage.AtSet? || stage.AtPeek?
    ensures Left(Step(st, Event.Work(t, posted))) < Left(st)
  {
    var after := Step(st, Event.Work(t, posted));
    StageCosts(st, after, t, after.jobs[t].stage);
  }

  /** A thread has the context it processes until its call takes effect, and the next context is new. */
  ghost predicate HasItsContext(contexts: map<nat, M.Context>, next: nat, role: Role) {
    && next !in contexts
    && (role.Processor? ==> role.id in contexts && contexts[role.id].status.Dequeued?)
  }

  lemma ItHas(st: State, t: ThreadId)
    requires Inv(st) && t in st.jobs && !st.jobs[t].stage.AtUnlock?
    ensures HasItsContext(st.contexts, st.nextContext, st.jobs[t].role)
  {
  }

  /** Such a context counts for nothing any more. */
  lemma OwnWeighsNothing(contexts: map<nat, M.Context>, next: nat, role: Role)
    requires HasItsContext(contexts, next, role)
    ensures Sum(Weights(WithoutOwn(contexts, role))) == Sum(Weights(contexts))
  {
    if role.Processor? {
      assert Weights(contexts - {role.id}) == Weights(contexts) - {role.id};
      SumWithout(Weights(contexts), role.id);
    }
  }

  lemma PostWeighs(contexts: map<nat, M.Context>, next: nat, role: Role, c: M.Context)
    requires HasItsContext(contexts, next, role)
    ensures Sum(Weights(WithoutOwn(contexts, role)[next := c])) == Sum(Weights(contexts)) + Weight(c)
  {
    var kept := WithoutOwn(contexts, role);
    OwnWeighsNothing(contexts, next, role);
    assert Weights(kept[next := c]) == Weights(kept)[next := Weight(c)];
    SumNew(Weights(kept), next, Weight(c));
  }

  lemma CallReduces(st: State, t: ThreadId, posted: bool)
    requires Enabled(st, Event.Work(t, posted)) && st.jobs[t].stage.AtCall?
    requires HasItsContext(st.contexts, st.nextContext, st.jobs[t].role)
    ensures Left(Step(st, Event.Work(t, posted))) < Left(st)
  {
    var after := Step(st, Event.Work(t, posted));
    StageCosts(st, after, t, after.jobs[t].stage);
    if posted {
      PostWeighs(st.contexts, st.nextContext, st.jobs[t].role, M.Context(st.jobs[t].stage.buffer, M.Posted));
    }
  }

  lemma ClearReduces(st: State, t: ThreadId, posted: bool)
    requires Enabled(st, Event.Work(t, posted)) && st.jobs[t].stage.AtClear?
    requires HasItsContext(st.contexts, st.nextContext, st.jobs[t].role)
    ensures Left(Step(st, Event.Work(t, posted))) < Left(st)
  {
    var after := Step(st, Event.Work(t, posted));
    StageCosts(st, after, t, after.jobs[t].stage);
    OwnWeighsNothing(st.contexts, st.nextContext, st.jobs[t].role);
  }

  lemma UnlockReduces(st: State, t: ThreadId, posted: bool)
    requires Enabled(st, Event.Work(t, posted)) && st.jobs[t].stage.AtUnlock?
    ensures Left(Step(st, Event.Work(t, posted))) < Left(st)
  {
    var after := Step(st, Event.Work(t, posted));
    CostOf(st.lock, st.jobs, t, SpinLock.Outside, st.jobs[t]);
    assert Costs(after.lock, after.jobs) == Costs(st.lock, st.jobs) - {t};
    SumWithout(Costs(st.lock, st.jobs), t);
  }

  /** Every event but a new Send and a failed try for the lock leaves less to do. */
  lemma AdvancingReduces(st: State, e: Event)
    requires Inv(st) && Advances(st, e)
    ensures Left(Step(st, e)) < Left(st)
  {
    match e
    case TakeCompletion(t, id) => TakeReduces(st, t, id);
    case TryForLock(t) => TryReduces(st, t);
    case Complete(id, sent) => CompleteReduces(st, id, sent);
    case Work(t, posted) =>
      WorkReduces(st, t, posted);
  }

  lemma WorkReduces(st: State, t: ThreadId, posted: bool)
    requires Inv(st) && Enabled(st, Event.Work(t, posted))
    ensures Left(Step(st, Event.Work(t, posted))) < Left(st)
  {
    match st.jobs[t].stage
    case AtStart =>
      if st.jobs[t].role.Processor? {
        SomethingToSkip(st, t);
        SkipReduces(st, t, posted);
      } else {
        WriteReduces(st, t, posted);
      }
    case AtCall(_) =>
      ItHas(st, t);
      CallReduces(st, t, posted);
    case AtClear(_) =>
      ItHas(st, t);
      ClearReduces(st, t, posted);
    case AtUnlock(_) => UnlockReduces(st, t, posted);
    case _ => MiddleReduces(st, t, posted);
  }

  // ---- There is always something to do ----

  lemma SomeThreadAdvances(st: State, t: ThreadId)
    requires Inv(st) && t in st.jobs
    ensures exists e :: Advances(st, e)
  {
    MidCall(st);
    if h :| h in SpinLock.Holders(st.lock) {
      assert Advances(st, Event.Work(h, true));
    } else {
      assert SpinLock.Holders(st.lock) == {} && t !in SpinLock.Holders(st.lock);
      assert Advances(st, Event.TryForLock(t));
    }
  }

  lemma SomeContextAdvances(st: State, id: nat, t: ThreadId)
    requires Inv(st) && Taken(st) && id in st.contexts && t in st.lock.places
    ensures exists e :: Advances(st, e)
  {
    match st.contexts[id].status
    case Posted => assert Advances(st, Event.Complete(id, 1));
    case Completed(_) =>
      if t in st.jobs {
        SomeThreadAdvances(st, t);
      } else {
        assert Advances(st, Event.TakeCompletion(t, id));
      }
    case Dequeued(_, worker) =>
      assert WithItsThread(st, id);
      SomeThreadAdvances(st, worker);
  }

  /** A thread is in Send or ProcessSend, or a send is out and there are threads. */
  ghost predicate Busy(st: State) {
    st.jobs != map[] || (st.contexts != map[] && st.lock.places != map[])
  }

  lemma BusyAdvances(st: State)
    requires Inv(st) && Taken(st) && Busy(st)
    ensures exists e :: Advances(st, e)
  {
    if t :| t in st.jobs {
      SomeThreadAdvances(st, t);
    } else if id :| id in st.contexts {
      if t :| t in st.lock.places {
        SomeContextAdvances(st, id, t);
      }
    }
  }

  /** However the threads have interleaved: as long as there is anything to do, some event that is
      neither a new Send nor a failed try for the lock can happen, and leaves less to do. */
  lemma NeverStuck(capacity: nat, threads: set<ThreadId>, events: seq<Event>)
    requires EnabledRun(Initial(capacity, threads), events)
    ensures var st := Run(Initial(capacity, threads), events);
            Busy(st) ==> exists e :: Advances(st, e) && Left(Step(st, e)) < Left(st)
  {
    InitialInv(capacity, threads);
    RunsAreAtomic(Initial(capacity, threads), events);
    TakenRun(Initial(capacity, threads), events);
    var st := Run(Initial(capacity, threads), events);
    if Busy(st) {
      BusyAdvances(st);
      var e :| Advances(st, e);
      AdvancingReduces(st, e);
    }
  }

  /** A run without new Sends, in which nobody tries for the lock in vain. */
  ghost predicate AdvancingRun(st: State, events: seq<Event>)
    decreases |events|
  {
    events == [] || (Advances(st, events[0]) && AdvancingRun(Step(st, events[0]), events[1..]))
  }

  /** Such a run ends, and when nothing is left that could go on every call has returned, and no send
      is out. */
  lemma {:induction false} AdvancingRunsEnd(st: State, events: seq<Event>)
    requires Inv(st) && Taken(st) && AdvancingRun(st, events)
    ensures EnabledRun(st, events) && |events| + Left(Run(st, events)) <= Left(st)
    ensures (forall e :: !Advances(Run(st, events), e)) ==> !Busy(Run(st, events))
    decreases |events|
  {
    if events == [] {
      if Busy(st) {
        BusyAdvances(st);
      }
    } else {
      StepSimulates(st, events[0]);
      TakenStep(st, events[0]);
      AdvancingReduces(st, events[0]);
      AdvancingRunsEnd(Step(st, events[0]), events[1..]);
    }
  }

  /** A thread that waits while the lock is free, and runs alone, has it after at most two accesses, and
      finds the session as it is now. */
  lemma WaiterGetsIn(st: State, t: ThreadId) returns (events: seq<Event>)
    requires Inv(st) && t in st.jobs && !st.lock.flag
    ensures |events| <= 2 && forall e | e in events :: e == Event.TryForLock(t)
    ensures EnabledRun(st, events)
    ensures var after := Run(st, events);
            && t in after.lock.places && after.lock.places[t].Critical?
            && after.opening == Some(Opening(st.session, t)) && after.jobs == st.jobs && after.session == st.session
  {
    var e := Event.TryForLock(t);
    assert SpinLock.Holders(st.lock) == {} && t !in SpinLock.Holders(st.lock);
    if st.lock.places[t].Spinning? {
      var loaded := Step(st, e);
      RunOfOne(loaded, e);
      assert [e, e][1..] == [e];
      events := [e, e];
    } else {
      RunOfOne(st, e);
      events := [e];
    }
  }

  lemma RunOfOne(st: State, e: Event)
    requires Enabled(st, e)
    ensures EnabledRun(st, [e]) && Run(st, [e]) == Step(st, e)
  {
    assert [e][1..] == [];
  }
}
