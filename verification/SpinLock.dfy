/** The test-and-test-and-set spin lock, one atomic access of `mFlag` at a time, used by any number
    of threads. */
module SpinLock {
  import opened Types

  /** Where a thread is in the code of the lock. */
  datatype Place =
    | Outside
    | Exchanging  // about to do the exchange of lock()
    | Spinning    // about to do a load of the inner loop of lock()
    | Critical    // holds the lock: between lock() or a successful try_lock() and unlock()

  datatype State = State(flag: bool, places: map<ThreadId, Place>)

  datatype Action =
    | Call(thread: ThreadId)      // lock() is called
    | Exchange(thread: ThreadId)
    | Load(thread: ThreadId)
    | TryLock(thread: ThreadId)
    | Unlock(thread: ThreadId)    // a guard releases what it acquired

  function Initial(threads: set<ThreadId>): State {
    State(false, map t | t in threads :: Outside)
  }

  ghost predicate Enabled(st: State, a: Action) {
    && a.thread in st.places
    && match a
       case Call(t) => st.places[t].Outside?
       case Exchange(t) => st.places[t].Exchanging?
       case Load(t) => st.places[t].Spinning?
       case TryLock(t) => st.places[t].Outside?
       case Unlock(t) => st.places[t].Critical?
  }

  ghost function Step(st: State, a: Action): State
    requires Enabled(st, a)
  {
    match a
    case Call(t) => st.(places := st.places[t := Exchanging])
    case Exchange(t) => State(true, st.places[t := if st.flag then Spinning else Critical])
    case Load(t) => st.(places := st.places[t := if st.flag then Spinning else Exchanging])
    case TryLock(t) => State(true, st.places[t := if st.flag then Outside else Critical])
    case Unlock(t) => State(false, st.places[t := Outside])
  }

  ghost function Holders(st: State): set<ThreadId> {
    set t | t in st.places && st.places[t].Critical?
  }

  ghost predicate Inv(st: State) {
    && (forall t, u | t in Holders(st) && u in Holders(st) :: t == u)
    && (st.flag <==> Holders(st) != {})
  }

  lemma StepInv(st: State, a: Action)
    requires Inv(st) && Enabled(st, a)
    ensures Inv(Step(st, a))
  {
    var next := Step(st, a);
    match a
    case Exchange(t) => assert Holders(next) == Holders(st) + (if st.flag then {} else {t});
    case TryLock(t) => assert Holders(next) == Holders(st) + (if st.flag then {} else {t});
    case Unlock(t) =>
      assert t in Holders(st);
      assert Holders(next) == Holders(st) - {t};
    case _ => assert Holders(next) == Holders(st);
  }

  ghost predicate IsRun(run: seq<State>, actions: seq<Action>) {
    && |run| == |actions| + 1
    && forall i | 0 <= i < |actions| :: Enabled(run[i], actions[i]) && run[i + 1] == Step(run[i], actions[i])
  }

  /** In every state any number of threads can reach, the flag is set if and only if exactly one
      thread is in its critical section, and otherwise none is. */
  lemma {:induction false} MutualExclusion(threads: set<ThreadId>, run: seq<State>, actions: seq<Action>, n: nat)
    requires IsRun(run, actions) && run[0] == Initial(threads) && n < |run|
    ensures Inv(run[n])
    ensures |Holders(run[n])| == if run[n].flag then 1 else 0
    decreases n
  {
    if 0 < n {
      MutualExclusion(threads, run, actions, n - 1);
      StepInv(run[n - 1], actions[n - 1]);
    }
    if t :| t in Holders(run[n]) {
      assert Holders(run[n]) == {t};
    }
  }

  // ---- Getting in ----

  /** What a thread that wants the lock does when it runs alone until it has it. */
  function Alone(st: State, t: ThreadId): seq<Action>
    requires t in st.places
  {
    match st.places[t]
    case Outside => [Call(t), Exchange(t)]
    case Spinning => [Load(t), Exchange(t)]
    case _ => [Exchange(t)]
  }

  ghost predicate Leads(st: State, actions: seq<Action>, end: State)
    decreases |actions|
  {
    if actions == [] then end == st
    else Enabled(st, actions[0]) && Leads(Step(st, actions[0]), actions[1..], end)
  }

  lemma LeadsInOne(st: State, a: Action)
    requires Enabled(st, a)
    ensures Leads(st, [a], Step(st, a))
  {
    assert [a][1..] == [];
  }

  /** A thread that finds the lock free has it after the exchange it is about to do, or has to do after
      its call or its load, and nobody else's place changes. */
  lemma WaiterGetsIn(st: State, t: ThreadId)
    requires t in st.places && !st.places[t].Critical? && !st.flag
    ensures Leads(st, Alone(st, t), State(true, st.places[t := Critical]))
  {
    if st.places[t].Exchanging? {
      LeadsInOne(st, Exchange(t));
    } else {
      var first := if st.places[t].Outside? then Call(t) else Load(t);
      LeadsInOne(Step(st, first), Exchange(t));
      assert st.places[t := Exchanging][t := Critical] == st.places[t := Critical];
      assert [first, Exchange(t)][1..] == [Exchange(t)];
    }
  }

  /** In every reachable state in which no thread holds the lock, every thread can get it like that. */
  lemma FreeLockIsTaken(threads: set<ThreadId>, run: seq<State>, actions: seq<Action>, n: nat, t: ThreadId)
    requires IsRun(run, actions) && run[0] == Initial(threads) && n < |run|
    requires Holders(run[n]) == {} && t in run[n].places
    ensures |Alone(run[n], t)| <= 2
    ensures exists end :: Leads(run[n], Alone(run[n], t), end) && end.flag && Holders(end) == {t}
  {
    MutualExclusion(threads, run, actions, n);
    assert t !in Holders(run[n]);
    WaiterGetsIn(run[n], t);
    assert Holders(State(true, run[n].places[t := Critical])) == {t};
  }

  /** A thread that has failed to get the lock only reads: its next exchange comes after a load that has
      found the flag down. */
  lemma {:induction false} NextExchange(run: seq<State>, actions: seq<Action>, i: nat, j: nat, t: ThreadId)
    requires IsRun(run, actions) && i <= j < |actions|
    requires t in run[i].places && run[i].places[t].Spinning? && actions[j] == Exchange(t)
    ensures exists k :: i <= k < j && actions[k] == Load(t) && !run[k].flag
    decreases j - i
  {
    assert Enabled(run[i], actions[i]) && run[i + 1] == Step(run[i], actions[i]);
    if actions[i] != Load(t) || run[i].flag {
      assert run[i + 1].places[t].Spinning?;
      NextExchange(run, actions, i + 1, j, t);
    }
  }

  /** try_lock gets the lock exactly if no thread holds it. */
  lemma TryLockResult(threads: set<ThreadId>, run: seq<State>, actions: seq<Action>, n: nat, t: ThreadId)
    requires IsRun(run, actions) && run[0] == Initial(threads) && n < |run| && Enabled(run[n], TryLock(t))
    ensures Holders(Step(run[n], TryLock(t))) == if Holders(run[n]) == {} then {t} else Holders(run[n])
  {
    MutualExclusion(threads, run, actions, n);
  }
}
