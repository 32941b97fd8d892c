/** Many sessions at once: each has its own ring, so that work on one leaves the others alone. */
module SessionGroups {
  import opened Types
  import opened Sessions
  import M = SendMachine

  /** What a session is known to be like. */
  datatype Seen = Seen(state: SessionState, session: M.Session)

  /** The sessions, their rings, and the arrays of these. */
  ghost function Footprints(group: map<nat, Session>): set<object> {
    (set s: Session | s in group.Values :: s as object) +
    (set s: Session | s in group.Values :: s.mSendBuffer as object) +
    (set s: Session | s in group.Values :: s.mSendBuffer.mBuffer as object)
  }

  /** Those that do not stand under their id, or share a ring with another. */
  ghost function Clashing(group: map<nat, Session>): set<nat> {
    set i, j | i in group && j in group && !Separate(group, i, j) :: i
  }

  ghost predicate Separate(group: map<nat, Session>, i: nat, j: nat)
    requires i in group && j in group
  {
    && group[i].mID == i
    && (i != j ==>
          group[i].mSendBuffer != group[j].mSendBuffer && group[i].mSendBuffer.mBuffer != group[j].mSendBuffer.mBuffer)
  }

  ghost predicate Apart(group: map<nat, Session>) {
    Clashing(group) == {}
  }

  lemma TheyAreApart(group: map<nat, Session>)
    requires Apart(group)
    ensures forall i, j | i in group && j in group :: Separate(group, i, j)
  {
    forall i, j | i in group && j in group ensures Separate(group, i, j) {
      assert i !in Clashing(group);
    }
  }

  /** The part of the group under these ids. */
  ghost function Only(group: map<nat, Session>, ids: set<nat>): map<nat, Session> {
    map id | id in ids && id in group :: group[id]
  }

  ghost predicate Looks(s: Session, seen: Seen)
    reads s, s.mSendBuffer, s.mSendBuffer.mBuffer
  {
    s.Valid() && s.mState == seen.state && s.View() == seen.session
  }

  /** The sessions that are not as they are known. */
  ghost function Astray(group: map<nat, Session>, seen: map<nat, Seen>): set<nat>
    reads Footprints(group)
  {
    set id | id in group && !(id in seen && Looks(group[id], seen[id]))
  }

  /** One session can be taken out: nothing of it belongs to the others. */
  lemma OneOf(group: map<nat, Session>, seen: map<nat, Seen>, s: Session)
    requires Apart(group) && s.mID in group && group[s.mID] == s && Astray(group, seen) == {}
    ensures var rest := group - {s.mID};
            && s.Footprint() !! Footprints(rest)
            && Astray(rest, seen) == {}
    ensures s.mID in seen && Looks(s, seen[s.mID])
  {
    TheyAreApart(group);
    forall id | id in group - {s.mID} ensures Separate(group, id, s.mID) {}
    forall id | id in group ensures id in seen && Looks(group[id], seen[id]) {
      assert id !in Astray(group, seen);
    }
  }

  /** And put back as it has become. */
  lemma Back(group: map<nat, Session>, seen: map<nat, Seen>, s: Session, now: Seen)
    requires s.mID in group && group[s.mID] == s && Astray(group - {s.mID}, seen) == {} && Looks(s, now)
    ensures Astray(group, seen[s.mID := now]) == {}
  {
    forall id | id in group ensures Looks(group[id], seen[s.mID := now][id]) && (id != s.mID ==> id in seen) {
      if id != s.mID {
        assert id in group - {s.mID} && id !in Astray(group - {s.mID}, seen);
      }
    }
  }

  /** A new session joins, with a ring of its own. */
  lemma Joins(group: map<nat, Session>, seen: map<nat, Seen>, s: Session, now: Seen)
    requires Apart(group) && s.mID !in group && Astray(group, seen) == {} && Looks(s, now)
    requires s.Footprint() !! Footprints(group)
    ensures Apart(group[s.mID := s]) && Astray(group[s.mID := s], seen[s.mID := now]) == {}
  {
    var more := group[s.mID := s];
    TheyAreApart(group);
    forall id | id in group
      ensures group[id].mSendBuffer != s.mSendBuffer && group[id].mSendBuffer.mBuffer != s.mSendBuffer.mBuffer
      ensures id in seen && Looks(group[id], seen[id])
    {
      assert group[id] in group.Values && id !in Astray(group, seen);
    }
    forall i, j | i in more && j in more ensures Separate(more, i, j) {
      assert i != s.mID && j != s.mID ==> Separate(group, i, j);
    }
  }

  lemma OnlyWithout(group: map<nat, Session>, part: map<nat, Session>, id: nat)
    requires part == Only(group, part.Keys)
    ensures part - {id} == Only(group, (part - {id}).Keys)
  {
  }

  lemma OnlyLess(group: map<nat, Session>, ids: set<nat>, id: nat)
    ensures Only(group, ids) - {id} == Only(group, ids - {id})
  {
  }

  lemma OnlyMore(group: map<nat, Session>, ids: set<nat>, s: Session)
    requires s.mID !in group
    ensures Only(group, ids)[s.mID := s] == Only(group[s.mID := s], ids + {s.mID})
  {
  }

  lemma OnlyWith(group: map<nat, Session>, part: map<nat, Session>, s: Session)
    requires part == Only(group, part.Keys) && s.mID !in group
    ensures part[s.mID := s] == Only(group[s.mID := s], part[s.mID := s].Keys)
  {
  }

  /** Those that do not stand under their id. */
  ghost function Misfiled(group: map<nat, Session>): set<nat> {
    set id | id in group && group[id].mID != id
  }

  ghost function Sockets(group: map<nat, Session>): map<nat, nat> {
    map id | id in group :: group[id].mSocket
  }

  lemma SocketsWith(group: map<nat, Session>, s: Session)
    requires s.mID !in group
    ensures Sockets(group[s.mID := s]) == Sockets(group)[s.mID := s.mSocket]
  {
  }
}
