/** Which sessions exist, over any run of additions, removals and clears. */
module SessionTable {
  const ID_RANGE: nat := 0x1_0000_0000_0000_0000

  /** The id the 64-bit counter hands out after `adds` others: it starts at 1 and wraps. */
  function NthId(adds: nat): (id: nat)
    ensures id < ID_RANGE
  {
    if adds == 0 then 1 else Next(NthId(adds - 1))
  }

  /** fetch_add(1) of a 64-bit counter. */
  function Next(id: nat): (next: nat)
    requires id < ID_RANGE
    ensures next < ID_RANGE
  {
    if id == ID_RANGE - 1 then 0 else id + 1
  }

  lemma {:induction false} NthIdBeforeWrap(adds: nat)
    requires adds < ID_RANGE - 1
    ensures NthId(adds) == adds + 1
  {
    if adds != 0 {
      NthIdBeforeWrap(adds - 1);
    }
  }

  /** The first `n` ids are distinct and none is INVALID_SESSION_ID exactly when `n` is below 2^64. */
  lemma IdsGoodUntilWrap(n: nat)
    ensures n < ID_RANGE <==>
              && (forall i | 0 <= i < n :: NthId(i) != 0)
              && (forall i, j | 0 <= i < j < n :: NthId(i) != NthId(j))
  {
    if n < ID_RANGE {
      forall i | 0 <= i < n ensures NthId(i) == i + 1 {
        NthIdBeforeWrap(i);
      }
    } else {
      NthIdBeforeWrap(ID_RANGE - 2);
      assert NthId(ID_RANGE - 1) == 0;
    }
  }

  /** `adds` counts the sessions ever added; `live` holds the ids of those still there. */
  datatype Table = Table(maxSessions: nat, adds: nat, live: set<nat>)

  datatype Op = Add | Remove(id: nat) | Clear

  /** A full table hands out no id. */
  function Apply(t: Table, op: Op): Table {
    match op
    case Add =>
      if |t.live| >= t.maxSessions then t
      else t.(adds := t.adds + 1, live := t.live + {NthId(t.adds)})
    case Remove(id) => t.(live := t.live - {id})
    case Clear => t.(live := {})
  }

  function Run(t: Table, ops: seq<Op>): Table
    decreases |ops|
  {
    if ops == [] then t else Run(Apply(t, ops[0]), ops[1..])
  }

  ghost predicate Inv(t: Table) {
    && |t.live| <= t.maxSessions
    && (t.adds < ID_RANGE ==> forall id | id in t.live :: 1 <= id <= t.adds)
  }

  /** Up to the wrap of the counter every addition gives an id above all that were ever given, and
      no session has the id of a session that is gone. */
  lemma ApplyInv(t: Table, op: Op)
    requires Inv(t)
    ensures Inv(Apply(t, op)) && t.adds <= Apply(t, op).adds
    ensures Apply(t, op).adds < ID_RANGE ==>
              forall id | 1 <= id <= t.adds && id !in t.live :: id !in Apply(t, op).live
  {
    if op.Add? && |t.live| < t.maxSessions {
      assert |t.live + {NthId(t.adds)}| <= |t.live| + 1;
      if t.adds < ID_RANGE - 1 {
        NthIdBeforeWrap(t.adds);
      }
    } else if op.Remove? {
      assert |t.live - {op.id}| <= |t.live|;
    }
  }

  /** Over whole runs: the bound holds throughout, and an id that is gone stays gone, also across
      clears, as long as fewer than 2^64 sessions are added. */
  lemma {:induction false} GoneStaysGone(t: Table, ops: seq<Op>, id: nat)
    requires Inv(t)
    ensures Inv(Run(t, ops)) && t.adds <= Run(t, ops).adds
    ensures Run(t, ops).adds < ID_RANGE && 1 <= id <= t.adds && id !in t.live ==> id !in Run(t, ops).live
    decreases |ops|
  {
    if ops != [] {
      ApplyInv(t, ops[0]);
      GoneStaysGone(Apply(t, ops[0]), ops[1..], id);
    }
  }
}

/** The container of the live sessions. */
module SessionManagers {
  import opened Types
  import opened Sessions
  import opened SessionTable
  import opened SessionGroups
  import M = SendMachine

  class SessionManager {
    const mMaxSessions: nat
    var mNextSessionID: nat
    var mSessions: map<nat, Session>
    ghost var adds: nat
    ghost var sockets: map<nat, nat>  // of the sessions in mSessions

    ghost predicate Valid()
      reads this
    {
      && mNextSessionID == NthId(adds)
      && sockets == Sockets(mSessions) && Misfiled(mSessions) == {}
      && Inv(View())
    }

    ghost function View(): Table
      reads this
    {
      Table(mMaxSessions, adds, mSessions.Keys)
    }

    constructor (maxSessions: nat)
      ensures Valid() && View() == Table(maxSessions, 0, {}) && mSessions == map[] && sockets == map[]
    {
      mMaxSessions := maxSessions;
      mNextSessionID := 1;
      mSessions := map[];
      adds := 0;
      sockets := map[];
    }

    method GenerateSessionID() returns (id: nat)
      requires mNextSessionID == NthId(adds)
      modifies `mNextSessionID, `adds
      ensures id == NthId(old(adds)) && adds == old(adds) + 1 && mNextSessionID == NthId(adds)
    {
      id := mNextSessionID;
      mNextSessionID := Next(mNextSessionID);
      adds := adds + 1;
    }

    method Insert(id: nat, socket: nat, maxPacketSize: SizeT) returns (session: Session)
      requires maxPacketSize as int * 2 < MAX_VECTOR_SIZE
      modifies `mSessions, `sockets
      ensures fresh(session.Footprint()) && session.Valid()
      ensures session.View() == M.Initial(maxPacketSize as nat * 2).session
      ensures session.mID == id && session.mSocket == socket && session.mState == Idle
      ensures mSessions == old(mSessions)[id := session] && sockets == old(sockets)[id := socket]
    {
      session := new Session(id, socket, maxPacketSize);
      mSessions, sockets := mSessions[id := session], sockets[id := socket];
    }

    method AddSession(socket: nat, maxPacketSize: SizeT) returns (session: Session?)
      requires Valid() && maxPacketSize as int * 2 < MAX_VECTOR_SIZE
      modifies this
      ensures Valid()
      ensures View() == Apply(old(View()), Add)
      ensures session == null <==> |old(mSessions)| >= mMaxSessions
      ensures session == null ==> unchanged(this)
      ensures session != null ==>
                && fresh(session.Footprint()) && session.Valid()
                && session.mID == NthId(old(adds)) && session.mSocket == socket
                && session.mState == Idle
                && session.View() == M.Initial(maxPacketSize as nat * 2).session
                && mSessions == old(mSessions)[session.mID := session]
                && sockets == old(sockets)[session.mID := socket]
                && (old(adds) < ID_RANGE - 1 ==> session.mID !in old(mSessions))
    {
      if adds < ID_RANGE - 1 {
        NthIdBeforeWrap(adds);
      }
      SizeIsKeys(mSessions);
      if |mSessions| >= mMaxSessions {
        return null;
      }
      ghost var before := View();
      ApplyInv(before, Add);
      ghost var was := mSessions;
      var id := GenerateSessionID();
      session := Insert(id, socket, maxPacketSize);
      FiledWith(was, session);
      assert View() == Apply(before, Add);
    }

    lemma FiledWith(sessions: map<nat, Session>, session: Session)
      requires Misfiled(sessions) == {}
      ensures Sockets(sessions[session.mID := session]) == Sockets(sessions)[session.mID := session.mSocket]
      ensures Misfiled(sessions[session.mID := session]) == {}
    {
      var more := sessions[session.mID := session];
      forall id | id in more ensures more[id].mID == id {
        assert id != session.mID ==> id !in Misfiled(sessions);
      }
    }

    lemma FiledWithout(sessions: map<nat, Session>, id: nat)
      requires Misfiled(sessions) == {}
      ensures Sockets(sessions - {id}) == Sockets(sessions) - {id} && Misfiled(sessions - {id}) == {}
    {
      forall other | other in sessions - {id} ensures sessions[other].mID == other {
        assert other !in Misfiled(sessions);
      }
    }

    lemma SocketPerSession()
      requires Valid()
      ensures |sockets| == |mSessions|
    {
      assert sockets.Keys == mSessions.Keys;
      assert |sockets| == |sockets.Keys| && |mSessions| == |mSessions.Keys|;
    }

    lemma SizeIsKeys(m: map<nat, Session>)
      ensures |m| == |m.Keys|
    {
    }

    method RemoveSession(id: nat) returns (found: bool)
      requires Valid()
      modifies `mSessions, `sockets
      ensures Valid()
      ensures View() == Apply(old(View()), Remove(id))
      ensures found <==> id in old(mSessions)
      ensures mSessions == old(mSessions) - {id} && sockets == old(sockets) - {id}
    {
      if id !in mSessions {
        assert mSessions == mSessions - {id} && sockets == sockets - {id};
        return false;
      }
      ApplyInv(View(), Remove(id));
      FiledWithout(mSessions, id);
      mSessions := mSessions - {id};
      sockets := sockets - {id};
      return true;
    }

    method GetSession(id: nat) returns (session: Session?)
      requires Valid()
      ensures session == null <==> id !in View().live
      ensures session != null ==> session == mSessions[id] && session.mID == id
    {
      if id !in mSessions {
        return null;
      }
      assert id !in Misfiled(mSessions);
      return mSessions[id];
    }

    method Clear()
      requires Valid()
      modifies `mSessions, `sockets
      ensures Valid()
      ensures View() == Apply(old(View()), SessionTable.Clear)
      ensures mSessions == map[] && sockets == map[]
    {
      mSessions := map[];
      sockets := map[];
    }
  }
}
