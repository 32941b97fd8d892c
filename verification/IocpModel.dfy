/** The IOCP network model.  Its methods are proved against the functions of IocpServer, that is, of
    IocpContexts (which contexts, sessions and sockets there are) and SendMachine (what a session
    sends). */
module IocpModels {
  import opened Types
  import opened Sessions
  import opened SessionTable
  import opened SessionManagers
  import opened PacketBuffers
  import opened SessionGroups
  import M = SendMachine
  import C = IocpContexts
  import H = IocpHistories
  import V = IocpServer
  import Y = IocpSummary

  const INVALID_SOCKET: int := -1

  /** An overlapped context the kernel or a worker has.  The socket of an accept is named by the address
      of the context. */
  datatype Overlapped = Overlapped(operation: C.Operation, session: Session?, buffer: seq<byte>)

  /** What GetQueuedCompletionStatus comes back with. */
  datatype Dequeued = Timeout | Failure | Completion(context: nat, ok: bool, bytes: SizeT)

  /** How many of each system resource are held: initialisations of the network, completion ports,
      listening sockets. */
  datatype Resources = Resources(network: int, ports: int, listenSockets: int)

  // ---- Contexts as the ledger sees them ----

  function SessionOf(x: Overlapped): Option<nat> {
    if x.session == null then None else Some(x.session.mID)
  }

  function FootprintOf(x: Overlapped): set<object> {
    if x.session == null then {} else {x.session, x.session.mSendBuffer}
  }

  function ContextOf(x: Overlapped): C.Context {
    C.Context(x.operation, SessionOf(x), C.InKernel)
  }

  ghost function LiveOf(contexts: map<nat, Overlapped>): map<nat, C.Context> {
    map c | c in contexts :: ContextOf(contexts[c])
  }

  ghost function BuffersOf(contexts: map<nat, Overlapped>): map<nat, seq<byte>> {
    map c | c in contexts && contexts[c].operation.Send? :: contexts[c].buffer
  }

  /** The contexts for sessions that are none of these. */
  ghost function Strangers(contexts: map<nat, Overlapped>, everyone: map<nat, Session>): set<nat> {
    set c | c in contexts && !IsFor(contexts[c], everyone)
  }

  ghost predicate IsFor(x: Overlapped, everyone: map<nat, Session>) {
    x.session == null || (x.session.mID in everyone && everyone[x.session.mID] == x.session)
  }

  ghost predicate Holds(contexts: map<nat, Overlapped>, everyone: map<nat, Session>,
                        live: map<nat, C.Context>, buffers: map<nat, seq<byte>>) {
    LiveOf(contexts) == live && BuffersOf(contexts) == buffers && Strangers(contexts, everyone) == {}
  }

  lemma HoldsOne(contexts: map<nat, Overlapped>, everyone: map<nat, Session>,
                 live: map<nat, C.Context>, buffers: map<nat, seq<byte>>, c: nat)
    requires Holds(contexts, everyone, live, buffers) && c in contexts
    ensures c in live && live[c] == ContextOf(contexts[c]) && IsFor(contexts[c], everyone)
    ensures contexts[c].operation.Send? ==> c in buffers && buffers[c] == contexts[c].buffer
  {
    assert c !in Strangers(contexts, everyone);
    assert c in LiveOf(contexts);
    assert contexts[c].operation.Send? ==> c in BuffersOf(contexts);
  }

  lemma HoldsLess(contexts: map<nat, Overlapped>, everyone: map<nat, Session>,
                  live: map<nat, C.Context>, buffers: map<nat, seq<byte>>, c: nat)
    requires Holds(contexts, everyone, live, buffers)
    ensures Holds(contexts - {c}, everyone, live - {c}, buffers - {c})
  {
    assert LiveOf(contexts - {c}) == LiveOf(contexts) - {c};
    assert BuffersOf(contexts - {c}) == BuffersOf(contexts) - {c};
    forall d | d in contexts - {c} ensures IsFor(contexts[d], everyone) {
      assert d !in Strangers(contexts, everyone);
    }
  }

  lemma HoldsMore(contexts: map<nat, Overlapped>, everyone: map<nat, Session>,
                  live: map<nat, C.Context>, buffers: map<nat, seq<byte>>, c: nat, x: Overlapped)
    requires Holds(contexts, everyone, live, buffers) && c !in contexts && IsFor(x, everyone)
    ensures Holds(contexts[c := x], everyone, live[c := ContextOf(x)],
                  if x.operation.Send? then buffers[c := x.buffer] else buffers)
  {
    assert LiveOf(contexts[c := x]) == LiveOf(contexts)[c := ContextOf(x)];
    assert BuffersOf(contexts[c := x])
        == if x.operation.Send? then BuffersOf(contexts)[c := x.buffer] else BuffersOf(contexts);
    var more := contexts[c := x];
    forall d | d in more ensures IsFor(more[d], everyone) {
      assert d != c ==> d !in Strangers(contexts, everyone);
    }
  }

  lemma HoldsWith(contexts: map<nat, Overlapped>, everyone: map<nat, Session>,
                  live: map<nat, C.Context>, buffers: map<nat, seq<byte>>, s: Session)
    requires Holds(contexts, everyone, live, buffers) && s.mID !in everyone
    ensures Holds(contexts, everyone[s.mID := s], live, buffers)
  {
    forall d | d in contexts ensures IsFor(contexts[d], everyone[s.mID := s]) {
      assert d !in Strangers(contexts, everyone);
    }
  }

  /** The contexts after a send that may have been posted. */
  function SentOn(held: map<nat, Overlapped>, next: nat, session: Session, queue: seq<byte>, posts: bool)
    : map<nat, Overlapped>
  {
    if posts then held[next := Overlapped(C.Send, session, V.Front(queue))] else held
  }

  ghost predicate Below(contexts: map<nat, Overlapped>, n: nat) {
    forall c | c in contexts :: c < n
  }

  lemma AllBut(contexts: map<nat, Overlapped>, c: nat, next: nat, x: Overlapped)
    requires c != next
    ensures contexts[next := x] - {c} == (contexts - {c})[next := x]
  {
  }

  lemma Elsewhere(e: IOCPModel, m: SessionManager, group: map<nat, Session>)
    ensures m as object !in Footprints(group) && e as object !in Footprints(group)
  {
  }

  ghost predicate IsSendOf(contexts: map<nat, Overlapped>, c: nat, s: Session) {
    c in contexts && contexts[c].operation.Send? && contexts[c].session == s
  }

  lemma SendersOf(contexts: map<nat, Overlapped>, everyone: map<nat, Session>,
                  live: map<nat, C.Context>, buffers: map<nat, seq<byte>>, id: nat)
    requires Holds(contexts, everyone, live, buffers) && id in everyone && everyone[id].mID == id
    ensures forall c :: IsSendOf(contexts, c, everyone[id]) <==> V.Sender(live, c, id)
  {
    forall c ensures IsSendOf(contexts, c, everyone[id]) <==> V.Sender(live, c, id) {
      if c in contexts {
        HoldsOne(contexts, everyone, live, buffers, c);
      } else {
        assert c !in LiveOf(contexts);
      }
    }
  }

  lemma NeitherIn(e: IOCPModel, m: SessionManager, x: Overlapped)
    ensures m as object !in FootprintOf(x) && e as object !in FootprintOf(x)
  {
  }

  class IOCPModel {
    var mInitialized: bool
    var mRunning: bool
    var mListenSocket: int
    var mIocpHandle: bool                // whether there is a completion port
    var mSessionManager: SessionManager?  // made by Initialize

    // What the system has of this model.
    var contexts: map<nat, Overlapped>   // allocated and not deallocated, by address
    var nextAddress: nat                 // where the next one that is kept will be
    var sockets: set<nat>                // client sockets that are open
    ghost var resources: Resources

    // What has become of all sessions and contexts, with the calls that led to it, and every session
    // there has been since Initialize.
    ghost var server: V.Server
    ghost var past: seq<V.Event>
    ghost var summary: Y.Summary
    ghost var everyone: map<nat, Session>

    /** The manager has the sessions that it is seen to have. */
    ghost predicate Keeps(y: Y.Summary)
      reads `mSessionManager, `everyone, mSessionManager
    {
      && mSessionManager != null && mSessionManager.Valid()
      && mSessionManager.mMaxSessions == y.maxSessions && mSessionManager.adds == y.adds
      && mSessionManager.mSessions.Keys == y.managed && mSessionManager.mSessions == Only(everyone, y.managed)
    }

    /** The contexts are `held`; so are the sockets as seen. */
    ghost predicate Has(y: Y.Summary, held: map<nat, Overlapped>)
      reads `everyone, `nextAddress, `sockets, `mRunning
    {
      && Apart(everyone) && Sockets(everyone) == y.fds
      && Holds(held, everyone, y.live, y.buffers)
      && nextAddress == y.next && sockets == y.sockets && mRunning == y.running && !y.stopped
    }

    /** The fields, with these contexts, and every session there has been, are as seen. */
    ghost predicate Shows(y: Y.Summary, held: map<nat, Overlapped>)
      reads `mSessionManager, `everyone, `nextAddress, `sockets, `mRunning
      reads mSessionManager, Footprints(everyone)
    {
      Keeps(y) && Has(y, held) && Astray(everyone, y.seen) == {}
    }

    /** Between calls.  After Shutdown there are no sessions any more; the contexts and sockets it left
        behind are as the history says. */
    ghost predicate Valid()
      reads this, mSessionManager, Footprints(everyone)
    {
      && Balanced() && Y.Tells(summary, server, past)
      && (mInitialized ==> Shows(summary, contexts))
      && (!mInitialized ==> Idle())
    }

    ghost predicate Idle()
      reads this
    {
      && !mRunning && everyone == map[]
      && contexts.Keys == server.ledger.live.Keys && sockets == server.ledger.sockets
    }

    /** What the model holds of the system's resources is what its state says. */
    ghost predicate Balanced()
      reads `resources, `mInitialized, `mRunning, `mListenSocket, `mIocpHandle
    {
      && resources == (if mInitialized then Resources(1, 1, 1) else Resources(0, 0, 0))
      && (mRunning ==> mInitialized)
      && (mInitialized ==> mListenSocket != INVALID_SOCKET && mIocpHandle)
    }

    /** So everything that holds of all runs of calls holds here; and every session there has been is
        valid, in the state the history says, and with its send path in order. */
    lemma Laws(id: nat)
      requires Valid() && mInitialized && id in everyone
      ensures V.Inv(server) && !server.ledger.stopped
      ensures id in server.pipes && id in server.ledger.sessions && M.Inv(server.pipes[id])
      ensures Looks(everyone[id], Seen(Y.StateOf(server.ledger.sessions[id]), server.pipes[id].session))
    {
      Y.Told(summary, server, past);
      V.ReachedInv(server, past);
      TheyAreApart(everyone);
      assert Separate(everyone, id, id);
      ItLooks(summary, contexts, everyone[id]);
    }

    lemma ManagedLaw(id: nat)
      requires Valid() && mInitialized && id in mSessionManager.mSessions
      ensures id in everyone && everyone[id] == mSessionManager.mSessions[id] && everyone[id].mID == id
      ensures id in server.pipes && id in server.ledger.sessions && server.ledger.sessions[id].connected
      ensures everyone[id].mState == Connected && everyone[id].mIsSending == server.pipes[id].session.sending
    {
      assert id in Only(everyone, summary.managed);
      Y.Told(summary, server, past);
      Laws(id);
      TheyAreApart(everyone);
      assert Separate(everyone, id, id);
    }

    lemma SentLaw(id: nat)
      requires Valid() && mInitialized
      requires id in server.pipes && id in server.ledger.sessions && server.ledger.sessions[id].connected
      ensures server.pipes[id].session.sending <==> exists c :: V.Sender(summary.live, c, id)
      ensures forall c, d | V.Sender(summary.live, c, id) && V.Sender(summary.live, d, id) :: c == d
    {
      Y.Told(summary, server, past);
      V.ReachedInv(server, past);
      V.OneSendContext(server, id);
    }

    /** While a session is in the manager, a send of it is under way exactly when a context for it is
        out, and there is one at most. */
    lemma SendLaw(id: nat)
      requires Valid() && mInitialized && id in mSessionManager.mSessions
      ensures id in everyone && everyone[id] == mSessionManager.mSessions[id] && everyone[id].mState == Connected
      ensures everyone[id].mIsSending <==> exists c :: IsSendOf(contexts, c, everyone[id])
      ensures forall c, d | IsSendOf(contexts, c, everyone[id]) && IsSendOf(contexts, d, everyone[id]) :: c == d
    {
      ManagedLaw(id);
      SentLaw(id);
      SendersOf(contexts, everyone, summary.live, summary.buffers, id);
    }

    /** A session that callers know from its OnAccept. */
    ghost predicate Known(s: Session)
      reads `server, `everyone
    {
      s.mID in everyone && everyone[s.mID] == s && H.HistoryOf(server.ledger.calls, s.mID) != []
    }

    lemma ItLooks(y: Y.Summary, held: map<nat, Overlapped>, session: Session)
      requires Shows(y, held) && session.mID in everyone && everyone[session.mID] == session
      ensures session.mID in y.seen && Looks(session, y.seen[session.mID])
      ensures session.mID in y.fds && session.mSocket == y.fds[session.mID]
    {
      OneOf(everyone, y.seen, session);
      assert Sockets(everyone)[session.mID] == session.mSocket;
    }

    constructor ()
      ensures Valid() && !mInitialized
    {
      mInitialized, mRunning, mListenSocket, mIocpHandle := false, false, INVALID_SOCKET, false;
      resources := Resources(0, 0, 0);
      mSessionManager, contexts, nextAddress, sockets := null, map[], 0, {};
      server, past, everyone := V.Initial(0), [], map[];
      summary := Y.Nothing(0);
      Y.NothingYet(0);
    }

    /** The calls that have led to `s` are noted. */
    ghost method Note(y: Y.Summary, s: V.Server, events: seq<V.Event>)
      requires Balanced() && mInitialized && Y.Tells(y, s, events) && Shows(y, contexts)
      modifies `server, `past, `summary
      ensures Valid() && server == s && past == events
    {
      server, past, summary := s, events, y;
    }

    // ---- Contexts ----

    method AllocateContext() returns (c: nat)
      modifies `contexts
      ensures c == nextAddress && contexts == old(contexts)[c := Overlapped(C.Receive, null, [])]
    {
      c := nextAddress;
      contexts := contexts[c := Overlapped(C.Receive, null, [])];
    }

    method DeallocateContext(c: nat)
      modifies `contexts
      ensures contexts == old(contexts) - {c}
    {
      contexts := contexts - {c};
    }

    /** Hands the newest context to the kernel; one that the kernel refuses is freed, and its address can
        be allocated again. */
    method Submit(c: nat, accepted: bool) returns (ok: bool)
      requires c == nextAddress
      modifies `contexts, `nextAddress
      ensures ok == accepted && nextAddress == V.Plus(old(nextAddress), ok)
      ensures contexts == if ok then old(contexts) else old(contexts) - {c}
    {
      if !accepted {
        DeallocateContext(c);
        return false;
      }
      nextAddress := nextAddress + 1;
      return true;
    }

    method RegisterAccept(a: C.Accepting) returns (ok: bool)
      requires nextAddress !in contexts && nextAddress !in sockets
      modifies `contexts, `nextAddress, `sockets
      ensures ok == a.Ok() && nextAddress == V.Plus(old(nextAddress), ok)
      ensures contexts == if ok then old(contexts[nextAddress := Overlapped(C.Accept, null, [])]) else old(contexts)
      ensures sockets == if ok then old(sockets + {nextAddress}) else old(sockets)
    {
      ghost var was, open := contexts, sockets;
      var c := AllocateContext();
      contexts := contexts[c := Overlapped(C.Accept, null, [])];
      if !a.hasSocket {
        DeallocateContext(c);
        assert contexts == was;
        return false;
      }
      sockets := sockets + {c};
      if !a.accepted {
        sockets := sockets - {c};
        assert sockets == open;
      }
      ok := Submit(c, a.accepted);
      assert !ok ==> contexts == was;
    }

    method PostReceive(session: Session, accepted: bool) returns (ok: bool)
      requires nextAddress !in contexts
      modifies `contexts, `nextAddress
      ensures ok == accepted && nextAddress == V.Plus(old(nextAddress), ok)
      ensures contexts == if ok then old(contexts[nextAddress := Overlapped(C.Receive, session, [])]) else old(contexts)
    {
      ghost var was := contexts;
      var c := AllocateContext();
      contexts := contexts[c := Overlapped(C.Receive, session, [])];
      ok := Submit(c, accepted);
      assert !ok ==> contexts == was;
    }

    method PostSend(session: Session, accepted: bool) returns (ok: bool)
      requires session.Valid() && nextAddress !in contexts
      modifies session`mIsSending, session`postFailed, `contexts, `nextAddress
      ensures session.Valid()
      ensures session.View() == M.PostSend(V.Bare(old(session.View())), accepted).0.session
      ensures ok == M.PostSend(V.Bare(old(session.View())), accepted).1
      ensures nextAddress == V.Plus(old(nextAddress), session.mIsSending)
      ensures contexts == SentOn(old(contexts), old(nextAddress), session, session.View().queue, session.mIsSending)
    {
      ghost var was := contexts;
      session.mIsSending := true;
      var c := AllocateContext();
      var buffer := new byte[DEFAULT_BUFFER_SIZE];
      var dataSize := session.mSendBuffer.Peek(buffer, DEFAULT_BUFFER_SIZE as SizeT);
      assert buffer[..dataSize] == buffer[..][..dataSize];
      contexts := contexts[c := Overlapped(C.Send, session, buffer[..dataSize])];
      if dataSize == 0 {
        session.mIsSending := false;
        DeallocateContext(c);
        assert contexts == was;
        return true;
      }
      ok := Submit(c, accepted);
      if !ok {
        session.mIsSending := false;
        session.postFailed := true;
        assert contexts == was;
      }
    }

    // ---- Sending ----

    /** The Send of a session, under its lock. */
    method Enqueue(session: Session, ghost caller: nat, buffer: PacketBuffer, accepted: bool, ghost data: seq<byte>)
      returns (ok: bool)
      requires buffer.Valid() && data != [] && data == buffer.Contents()
      requires session.Valid() && nextAddress !in contexts
      modifies session`mIsSending, session`log, session`oversized, session`idleOverflow, session`postFailed
      modifies session.mSendBuffer, session.mSendBuffer.mBuffer, `contexts, `nextAddress
      ensures session.Valid()
      ensures session.View() == M.Send(V.Bare(old(session.View())), caller, data, accepted).0.session
      ensures ok == M.Send(V.Bare(old(session.View())), caller, data, accepted).1
      ensures var posts := !old(session.mIsSending) && session.mIsSending;
              && nextAddress == V.Plus(old(nextAddress), posts)
              && contexts == SentOn(old(contexts), old(nextAddress), session, session.View().queue, posts)
    {
      var written := session.Enqueue(caller, buffer.GetData()[..buffer.GetSize()]);
      if written as int < buffer.GetSize() {
        return false;
      }
      if session.mIsSending {
        return true;
      }
      ok := PostSend(session, accepted);
    }

    /** The other sessions are left alone. */
    method EnqueueAmong(session: Session, ghost caller: nat, buffer: PacketBuffer, accepted: bool, ghost data: seq<byte>,
                        ghost rest: map<nat, Session>, ghost seen: map<nat, Seen>) returns (ok: bool)
      requires buffer.Valid() && data != [] && data == buffer.Contents()
      requires session.Valid() && nextAddress !in contexts
      requires Astray(rest, seen) == {} && session.Footprint() !! Footprints(rest)
      modifies session`mIsSending, session`log, session`oversized, session`idleOverflow, session`postFailed
      modifies session.mSendBuffer, session.mSendBuffer.mBuffer, `contexts, `nextAddress
      ensures session.Valid()
      ensures session.View() == M.Send(V.Bare(old(session.View())), caller, data, accepted).0.session
      ensures ok == M.Send(V.Bare(old(session.View())), caller, data, accepted).1
      ensures var posts := !old(session.mIsSending) && session.mIsSending;
              && nextAddress == V.Plus(old(nextAddress), posts)
              && contexts == SentOn(old(contexts), old(nextAddress), session, session.View().queue, posts)
      ensures Astray(rest, seen) == {}
    {
      ok := Enqueue(session, caller, buffer, accepted, data);
    }

    /** The same, among all sessions. */
    method Load(session: Session, ghost caller: nat, buffer: PacketBuffer, accepted: bool, ghost data: seq<byte>,
                ghost seen: map<nat, Seen>) returns (ok: bool)
      requires buffer.Valid() && data != [] && data == buffer.Contents()
      requires session.Valid() && nextAddress !in contexts
      requires session.mID in everyone && everyone[session.mID] == session
      requires Apart(everyone) && Astray(everyone, seen) == {}
      modifies session`mIsSending, session`log, session`oversized, session`idleOverflow, session`postFailed
      modifies session.mSendBuffer, session.mSendBuffer.mBuffer, `contexts, `nextAddress
      ensures session.Valid()
      ensures session.View() == M.Send(V.Bare(old(session.View())), caller, data, accepted).0.session
      ensures ok == M.Send(V.Bare(old(session.View())), caller, data, accepted).1
      ensures var posts := !old(session.mIsSending) && session.mIsSending;
              && nextAddress == V.Plus(old(nextAddress), posts)
              && contexts == SentOn(old(contexts), old(nextAddress), session, session.View().queue, posts)
      ensures Astray(everyone, seen[session.mID := Seen(session.mState, session.View())]) == {}
    {
      OneOf(everyone, seen, session);
      ok := EnqueueAmong(session, caller, buffer, accepted, data, everyone - {session.mID}, seen);
      Back(everyone, seen, session, Seen(session.mState, session.View()));
    }

    /** After work on the send path of one session. */
    lemma Pushed(y: Y.Summary, session: Session, next: M.Session, posts: bool, held: map<nat, Overlapped>)
      requires Keeps(y) && session.mID in everyone && everyone[session.mID] == session && session.mID in y.seen
      requires Apart(everyone) && Sockets(everyone) == y.fds && Holds(held, everyone, y.live, y.buffers) && y.next !in held
      requires Astray(everyone, y.seen[session.mID := Seen(y.seen[session.mID].state, next)]) == {}
      requires nextAddress == V.Plus(y.next, posts) && sockets == y.sockets && mRunning == y.running && !y.stopped
      ensures Shows(Y.Pushed(y, session.mID, next, posts), SentOn(held, y.next, session, next.queue, posts))
    {
      if posts {
        HoldsMore(held, everyone, y.live, y.buffers, y.next, Overlapped(C.Send, session, V.Front(next.queue)));
      }
      assert Keeps(Y.Pushed(y, session.mID, next, posts));
    }

    /** For a session there is, and something to send. */
    method SendTo(session: Session, ghost caller: nat, buffer: PacketBuffer, accepted: bool, ghost data: seq<byte>,
                  ghost y: Y.Summary, ghost next: M.Session) returns (ok: bool)
      requires buffer.Valid() && data != [] && data == buffer.Contents()
      requires Shows(y, contexts) && session.mID in everyone && everyone[session.mID] == session && nextAddress !in contexts
      requires session.Valid() && session.mID in y.seen && session.mState == y.seen[session.mID].state
      requires next == M.Send(V.Bare(session.View()), caller, data, accepted).0.session
      modifies session`mIsSending, session`log, session`oversized, session`idleOverflow, session`postFailed
      modifies session.mSendBuffer, session.mSendBuffer.mBuffer, `contexts, `nextAddress
      ensures ok == M.Send(V.Bare(old(session.View())), caller, data, accepted).1
      ensures Shows(Y.Pushed(y, session.mID, next, !old(session.mIsSending) && next.sending), contexts)
    {
      ghost var held, posts := contexts, !session.mIsSending && next.sending;
      ok := Load(session, caller, buffer, accepted, data, y.seen);
      Pushed(y, session, next, posts, held);
    }

    /** The same, with the history after it. */
    method Transfer(session: Session, ghost caller: nat, buffer: PacketBuffer, accepted: bool, ghost data: seq<byte>,
                    ghost next: M.Session, ghost now: Y.Summary, ghost after: V.Server, ghost events: seq<V.Event>)
      returns (ok: bool)
      requires buffer.Valid() && data != [] && data == buffer.Contents()
      requires Balanced() && mInitialized && Shows(summary, contexts)
      requires session.mID in everyone && everyone[session.mID] == session && nextAddress !in contexts
      requires session.Valid() && session.mID in summary.seen && session.mState == summary.seen[session.mID].state
      requires next == M.Send(V.Bare(session.View()), caller, data, accepted).0.session
      requires now == Y.Pushed(summary, session.mID, next, !session.mIsSending && next.sending) && Y.Tells(now, after, events)
      modifies session`mIsSending, session`log, session`oversized, session`idleOverflow, session`postFailed
      modifies session.mSendBuffer, session.mSendBuffer.mBuffer, `contexts, `nextAddress, `server, `past, `summary
      ensures Valid() && server == after && past == events
      ensures ok == M.Send(V.Bare(old(session.View())), caller, data, accepted).1
    {
      ok := SendTo(session, caller, buffer, accepted, data, summary, next);
      Note(now, after, events);
    }

    /** What is known of a session that a caller names. */
    lemma ItServes(session: Session)
      requires Valid() && Known(session)
      ensures mInitialized && nextAddress !in contexts
      ensures session.Valid() && session.mID in summary.seen && Looks(session, summary.seen[session.mID])
    {
      Y.Told(summary, server, past);
      V.ReachedInv(server, past);
      ItLooks(summary, contexts, session);
      assert nextAddress !in LiveOf(contexts);
    }

    /** What a Send of it will come to. */
    lemma SendComes(session: Session, caller: nat, data: seq<byte>, accepted: bool)
      returns (after: V.Server, now: Y.Summary, done: bool)
      requires Valid() && Known(session)
      ensures Y.Tells(now, after, past + [V.Sending(session.mID, caller, data, accepted)])
      ensures Y.Sent(server, session.mID, caller, data, accepted, after, done)
      ensures Y.SendComesTo(summary, now, session.mID, caller, data, accepted, done)
    {
      ItServes(session);
      Y.Told(summary, server, past);
      V.ReachedInv(server, past);
      Y.SendingEnabled(server, session.mID, caller, data, accepted);
      V.ReachedOn(server, past, V.Sending(session.mID, caller, data, accepted));
      after, done := Y.SendingHandled(server, session.mID, caller, data, accepted);
      now := Y.SummaryOf(after);
      Y.Tell(after, past + [V.Sending(session.mID, caller, data, accepted)]);
    }

    /** For a session there is. */
    method Transmit(session: Session, ghost caller: nat, buffer: PacketBuffer, accepted: bool) returns (ok: bool)
      requires Valid() && buffer.Valid() && Known(session)
      modifies session.Footprint(), `contexts, `nextAddress, `server, `past, `summary
      ensures Valid()
      ensures Y.Sent(old(server), session.mID, caller, old(buffer.Contents()), accepted, server, ok)
    {
      ghost var data, now, done, after := buffer.Contents(), summary, false, server;
      ghost var events := past + [V.Sending(session.mID, caller, data, accepted)];
      ItServes(session);
      after, now, done := SendComes(session, caller, data, accepted);
      if buffer.IsEmpty() {
        Y.NothingPushed(summary, session.mID, caller, accepted);
        Note(now, after, events);
        return false;
      }
      ghost var next := Y.Given(session.View(), caller, data, accepted);
      ok := Transfer(session, caller, buffer, accepted, data, next, now, after, events);
    }

    method Send(session: Session?, ghost caller: nat, buffer: PacketBuffer, accepted: bool) returns (ok: bool)
      requires Valid() && buffer.Valid() && (session != null ==> Known(session))
      modifies if session == null then {} else session.Footprint(), `contexts, `nextAddress, `server, `past, `summary
      ensures Valid()
      ensures session == null ==> !ok && server == old(server)
      ensures session != null ==> Y.Sent(old(server), session.mID, caller, old(buffer.Contents()), accepted, server, ok)
    {
      if session == null {
        return false;
      }
      ok := Transmit(session, caller, buffer, accepted);
    }

    // ---- Completions ----

    /** The sessions are left alone. */
    method PostReceiveAmong(session: Session, accepted: bool, ghost group: map<nat, Session>, ghost seen: map<nat, Seen>)
      returns (ok: bool)
      requires nextAddress !in contexts && Astray(group, seen) == {}
      modifies `contexts, `nextAddress
      ensures ok == accepted && nextAddress == V.Plus(old(nextAddress), ok)
      ensures contexts == if ok then old(contexts[nextAddress := Overlapped(C.Receive, session, [])]) else old(contexts)
      ensures Astray(group, seen) == {}
    {
      ok := PostReceive(session, accepted);
    }

    lemma ReceiveShown(y: Y.Summary, session: Session, posts: bool, held: map<nat, Overlapped>)
      requires Keeps(y) && session.mID in everyone && everyone[session.mID] == session
      requires Apart(everyone) && Sockets(everyone) == y.fds && Holds(held, everyone, y.live, y.buffers) && y.next !in held
      requires nextAddress == V.Plus(y.next, posts) && sockets == y.sockets && mRunning == y.running && !y.stopped
      requires Astray(everyone, y.seen) == {}
      ensures Shows(Y.ReceivePosted(y, session.mID, posts),
                    if posts then held[y.next := Overlapped(C.Receive, session, [])] else held)
    {
      if posts {
        HoldsMore(held, everyone, y.live, y.buffers, y.next, Overlapped(C.Receive, session, []));
      }
      assert Keeps(Y.ReceivePosted(y, session.mID, posts));
    }

    /** The rest of ProcessReceive, while the completion of context `c` is being handled; `held` are the
        others. */
    method Receive(session: Session, accepted: bool, ghost c: nat, ghost y: Y.Summary, ghost held: map<nat, Overlapped>)
      returns (ok: bool, ghost more: map<nat, Overlapped>)
      requires Shows(y, held) && held == contexts - {c} && session.mID in everyone && everyone[session.mID] == session
      requires nextAddress !in contexts && c != nextAddress
      modifies `contexts, `nextAddress
      ensures ok == accepted && Shows(Y.ReceivePosted(y, session.mID, ok), more) && more == contexts - {c}
    {
      AllBut(contexts, c, y.next, Overlapped(C.Receive, session, []));
      ok := PostReceiveAmong(session, accepted, everyone, y.seen);
      ReceiveShown(y, session, ok, held);
      more := if ok then held[y.next := Overlapped(C.Receive, session, [])] else held;
    }

    method ProcessReceive(session: Session, accepted: bool, ghost c: nat, ghost y: Y.Summary, ghost held: map<nat, Overlapped>)
      returns (ghost more: map<nat, Overlapped>)
      requires Shows(y, held) && held == contexts - {c} && session.mID in everyone && everyone[session.mID] == session
      requires nextAddress !in contexts && c != nextAddress
      modifies `contexts, `nextAddress
      ensures Shows(if session.mState == Connected then Y.ReceivePosted(y, session.mID, accepted) else y, more)
      ensures more == contexts - {c}
    {
      if session.mState != Connected {
        return held;
      }
      var posted;
      posted, more := Receive(session, accepted, c, y, held);
    }

    /** Drops what has been sent, and posts the rest. */
    method Continue(session: Session, bytesTransferred: SizeT, accepted: bool)
      requires session.Valid() && nextAddress !in contexts
      modifies session`mIsSending, session`postFailed, session.mSendBuffer`mReadPos, session.mSendBuffer`consumed
      modifies `contexts, `nextAddress
      ensures session.Valid()
      ensures session.View() == V.Continued(old(session.View()), bytesTransferred as nat, accepted)
      ensures nextAddress == V.Plus(old(nextAddress), session.mIsSending)
      ensures contexts == SentOn(old(contexts), old(nextAddress), session, session.View().queue, session.mIsSending)
    {
      var skipped := session.mSendBuffer.Skip(bytesTransferred);
      if session.mSendBuffer.GetAvailableRead() > 0 {
        var ok := PostSend(session, accepted);
      } else {
        session.mIsSending := false;
      }
    }

    /** The other sessions are left alone. */
    method ContinueAmong(session: Session, bytesTransferred: SizeT, accepted: bool,
                         ghost rest: map<nat, Session>, ghost seen: map<nat, Seen>)
      requires session.Valid() && nextAddress !in contexts
      requires Astray(rest, seen) == {} && session.Footprint() !! Footprints(rest)
      modifies session`mIsSending, session`postFailed, session.mSendBuffer`mReadPos, session.mSendBuffer`consumed
      modifies `contexts, `nextAddress
      ensures session.Valid()
      ensures session.View() == V.Continued(old(session.View()), bytesTransferred as nat, accepted)
      ensures nextAddress == V.Plus(old(nextAddress), session.mIsSending)
      ensures contexts == SentOn(old(contexts), old(nextAddress), session, session.View().queue, session.mIsSending)
      ensures Astray(rest, seen) == {}
    {
      Continue(session, bytesTransferred, accepted);
    }

    /** The same, among all sessions. */
    method Unload(session: Session, bytesTransferred: SizeT, accepted: bool, ghost seen: map<nat, Seen>)
      requires session.Valid() && nextAddress !in contexts
      requires session.mID in everyone && everyone[session.mID] == session
      requires Apart(everyone) && Astray(everyone, seen) == {}
      modifies session`mIsSending, session`postFailed, session.mSendBuffer`mReadPos, session.mSendBuffer`consumed
      modifies `contexts, `nextAddress
      ensures session.Valid()
      ensures session.View() == V.Continued(old(session.View()), bytesTransferred as nat, accepted)
      ensures nextAddress == V.Plus(old(nextAddress), session.mIsSending)
      ensures contexts == SentOn(old(contexts), old(nextAddress), session, session.View().queue, session.mIsSending)
      ensures Astray(everyone, seen[session.mID := Seen(session.mState, session.View())]) == {}
    {
      OneOf(everyone, seen, session);
      ContinueAmong(session, bytesTransferred, accepted, everyone - {session.mID}, seen);
      Back(everyone, seen, session, Seen(session.mState, session.View()));
    }

    method ProcessSend(session: Session, bytesTransferred: SizeT, accepted: bool, ghost c: nat, ghost y: Y.Summary,
                       ghost held: map<nat, Overlapped>, ghost next: M.Session)
      returns (ghost more: map<nat, Overlapped>)
      requires Shows(y, held) && held == contexts - {c} && session.mID in everyone && everyone[session.mID] == session
      requires session.Valid() && session.mID in y.seen && session.mState == y.seen[session.mID].state
      requires nextAddress !in contexts && c != nextAddress
      requires next == V.Continued(session.View(), bytesTransferred as nat, accepted)
      modifies session`mIsSending, session`postFailed, session.mSendBuffer`mReadPos, session.mSendBuffer`consumed
      modifies `contexts, `nextAddress
      ensures Shows(Y.Pushed(y, session.mID, next, next.sending), more) && more == contexts - {c}
    {
      ghost var was := contexts;
      Unload(session, bytesTransferred, accepted, y.seen);
      more := PushedBut(y, session, next, c, was);
    }

    lemma PushedBut(y: Y.Summary, session: Session, next: M.Session, c: nat, was: map<nat, Overlapped>)
      returns (more: map<nat, Overlapped>)
      requires Keeps(y) && session.mID in everyone && everyone[session.mID] == session && session.mID in y.seen
      requires Apart(everyone) && Sockets(everyone) == y.fds && Holds(was - {c}, everyone, y.live, y.buffers)
      requires Astray(everyone, y.seen[session.mID := Seen(y.seen[session.mID].state, next)]) == {}
      requires c != y.next && y.next !in was && contexts == SentOn(was, y.next, session, next.queue, next.sending)
      requires nextAddress == V.Plus(y.next, next.sending) && sockets == y.sockets && mRunning == y.running && !y.stopped
      ensures Shows(Y.Pushed(y, session.mID, next, next.sending), more) && more == contexts - {c}
    {
      AllBut(was, c, y.next, Overlapped(C.Send, session, V.Front(next.queue)));
      Pushed(y, session, next, next.sending, was - {c});
      more := SentOn(was - {c}, y.next, session, next.queue, next.sending);
    }

    /** The other sessions are left alone. */
    method SetDisconnected(session: Session, ghost rest: map<nat, Session>, ghost seen: map<nat, Seen>)
      requires session.Valid() && Astray(rest, seen) == {} && session as object !in Footprints(rest)
      modifies session`mState
      ensures Astray(rest, seen) == {} && Looks(session, Seen(Disconnected, old(session.View())))
    {
      session.mState := Disconnected;
      session.Untouched();
    }

    /** The sessions are left alone. */
    method RemoveAmong(id: nat, ghost group: map<nat, Session>, ghost seen: map<nat, Seen>)
      requires mSessionManager != null && mSessionManager.Valid() && Astray(group, seen) == {}
      modifies mSessionManager
      ensures mSessionManager.Valid() && mSessionManager.adds == old(mSessionManager.adds)
      ensures mSessionManager.mSessions == old(mSessionManager.mSessions) - {id}
      ensures Astray(group, seen) == {}
    {
      Elsewhere(this, mSessionManager, group);
      var found := mSessionManager.RemoveSession(id);
    }

    /** After a session has been disconnected and taken out of the manager. */
    lemma Dropped(y: Y.Summary, session: Session, held: map<nat, Overlapped>)
      requires mSessionManager != null && mSessionManager.Valid()
      requires mSessionManager.mMaxSessions == y.maxSessions && mSessionManager.adds == y.adds
      requires mSessionManager.mSessions.Keys == y.managed - {session.mID}
      requires mSessionManager.mSessions == Only(everyone, y.managed - {session.mID})
      requires Has(y, held) && session.mID in y.seen
      requires Astray(everyone, y.seen[session.mID := Seen(Disconnected, y.seen[session.mID].session)]) == {}
      ensures Shows(Y.Leaves(y, session.mID), held)
    {
    }

    /** ProcessDisconnect with a session that is not disconnected yet. */
    method Drop(session: Session, ghost y: Y.Summary, ghost held: map<nat, Overlapped>)
      requires Shows(y, held) && session.mID in everyone && everyone[session.mID] == session && session.mID in y.seen
      modifies mSessionManager, session`mState
      ensures Shows(Y.Leaves(y, session.mID), held)
    {
      ghost var last := y.seen[session.mID := Seen(Disconnected, y.seen[session.mID].session)];
      SetDisconnectedAmong(session, y.seen);
      RemoveAmong(session.mID, everyone, last);
      OnlyLess(everyone, y.managed, session.mID);
      Dropped(y, session, held);
    }

    method SetDisconnectedAmong(session: Session, ghost seen: map<nat, Seen>)
      requires session.mID in everyone && everyone[session.mID] == session
      requires Apart(everyone) && Astray(everyone, seen) == {}
      modifies session`mState
      ensures session.mID in seen
      ensures Astray(everyone, seen[session.mID := Seen(Disconnected, seen[session.mID].session)]) == {}
    {
      OneOf(everyone, seen, session);
      SetDisconnected(session, everyone - {session.mID}, seen);
      Back(everyone, seen, session, Seen(Disconnected, seen[session.mID].session));
    }

    method ProcessDisconnect(session: Session, ghost y: Y.Summary, ghost held: map<nat, Overlapped>)
      requires Shows(y, held) && session.mID in everyone && everyone[session.mID] == session && session.mID in y.seen
      requires session.mState == y.seen[session.mID].state
      modifies mSessionManager, session`mState
      ensures Shows(if y.seen[session.mID].state == Disconnected then y else Y.Leaves(y, session.mID), held)
    {
      if session.mState == Disconnected {
        return;
      }
      Drop(session, y, held);
    }

    /** The sessions are left alone. */
    method RegisterAcceptAmong(a: C.Accepting, ghost group: map<nat, Session>, ghost seen: map<nat, Seen>) returns (ok: bool)
      requires nextAddress !in contexts && nextAddress !in sockets && Astray(group, seen) == {}
      modifies `contexts, `nextAddress, `sockets
      ensures ok == a.Ok() && nextAddress == V.Plus(old(nextAddress), ok)
      ensures contexts == if ok then old(contexts[nextAddress := Overlapped(C.Accept, null, [])]) else old(contexts)
      ensures sockets == if ok then old(sockets + {nextAddress}) else old(sockets)
      ensures Astray(group, seen) == {}
    {
      ok := RegisterAccept(a);
    }

    lemma AcceptShown(y: Y.Summary, ok: bool, held: map<nat, Overlapped>) returns (more: map<nat, Overlapped>)
      requires Keeps(y) && Apart(everyone) && Sockets(everyone) == y.fds && Astray(everyone, y.seen) == {}
      requires Holds(held, everyone, y.live, y.buffers) && y.next !in held && mRunning == y.running && !y.stopped
      requires nextAddress == V.Plus(y.next, ok) && sockets == if ok then y.sockets + {y.next} else y.sockets
      ensures more == (if ok then held[y.next := Overlapped(C.Accept, null, [])] else held)
      ensures Shows(Y.AcceptPosted(y, ok), more)
    {
      more := if ok then held[y.next := Overlapped(C.Accept, null, [])] else held;
      if ok {
        HoldsMore(held, everyone, y.live, y.buffers, y.next, Overlapped(C.Accept, null, []));
      }
      assert Keeps(Y.AcceptPosted(y, ok));
    }

    /** While the completion of context `c` is being handled. */
    method RegisterNext(a: C.Accepting, ghost c: nat, ghost y: Y.Summary, ghost held: map<nat, Overlapped>)
      returns (ghost more: map<nat, Overlapped>)
      requires Shows(y, held) && held == contexts - {c} && c < nextAddress && Below(contexts, nextAddress)
      requires nextAddress !in sockets
      modifies `contexts, `nextAddress, `sockets
      ensures Shows(Y.AcceptPosted(y, a.Ok()), more) && more == contexts - {c}
      ensures c < nextAddress && Below(contexts, nextAddress)
    {
      AllBut(contexts, c, y.next, Overlapped(C.Accept, null, []));
      var ok := RegisterAcceptAmong(a, everyone, y.seen);
      more := AcceptShown(y, ok, held);
    }

    /** Closes the socket of a connection or session. */
    method CloseSocket(socket: nat, ghost y: Y.Summary, ghost held: map<nat, Overlapped>)
      requires Shows(y, held)
      modifies `sockets
      ensures Shows(Y.SocketClosed(y, socket), held)
    {
      sockets := sockets - {socket};
      assert Keeps(Y.SocketClosed(y, socket));
    }

    /** A session for the connection that came with context `c`, if there is room for one; no ring of it
        is one of `others`. */
    method AddClient(c: nat, ghost others: set<object>) returns (session: Session?)
      requires mSessionManager != null && mSessionManager.Valid() && mSessionManager.adds < ID_RANGE - 1
      modifies mSessionManager
      ensures mSessionManager.Valid()
      ensures session == null <==> |old(mSessionManager.mSessions.Keys)| >= mSessionManager.mMaxSessions
      ensures session == null ==> unchanged(mSessionManager)
      ensures session != null ==>
                && mSessionManager.adds == old(mSessionManager.adds) + 1
                && mSessionManager.mSessions == old(mSessionManager.mSessions)[session.mID := session]
                && session.Footprint() !! others && session.mSocket == c && session.mID == NthId(old(mSessionManager.adds))
                && Looks(session, Seen(Connected, M.Initial(2 * MAX_PACKET_SIZE).session))
    {
      mSessionManager.SizeIsKeys(mSessionManager.mSessions);
      session := mSessionManager.AddSession(c, MAX_PACKET_SIZE as SizeT);
      if session != null {
        label Made:
        session.mState := Connected;
        session.Untouched@Made();
      }
    }

    /** The other sessions are left alone. */
    method AddClientAmong(c: nat, ghost group: map<nat, Session>, ghost seen: map<nat, Seen>) returns (session: Session?)
      requires mSessionManager != null && mSessionManager.Valid() && mSessionManager.adds < ID_RANGE - 1
      requires Astray(group, seen) == {}
      modifies mSessionManager
      ensures mSessionManager.Valid()
      ensures session == null <==> |old(mSessionManager.mSessions.Keys)| >= mSessionManager.mMaxSessions
      ensures session == null ==> unchanged(mSessionManager)
      ensures session != null ==>
                && mSessionManager.adds == old(mSessionManager.adds) + 1
                && mSessionManager.mSessions == old(mSessionManager.mSessions)[session.mID := session]
                && session.Footprint() !! Footprints(group) && session.mSocket == c
                && session.mID == NthId(old(mSessionManager.adds))
                && Looks(session, Seen(Connected, M.Initial(2 * MAX_PACKET_SIZE).session))
      ensures Astray(group, seen) == {}
    {
      Elsewhere(this, mSessionManager, group);
      session := AddClient(c, Footprints(group));
    }

    ghost method Enlist(more: map<nat, Session>, seen: map<nat, Seen>)
      requires Astray(more, seen) == {}
      modifies `everyone
      ensures everyone == more && Astray(everyone, seen) == {}
    {
      everyone := more;
    }

    /** After a session has been added to the manager and to `everyone`. */
    lemma Entered(y: Y.Summary, c: nat, id: nat, held: map<nat, Overlapped>)
      requires mSessionManager != null && mSessionManager.Valid() && mSessionManager.mMaxSessions == y.maxSessions
      requires mSessionManager.adds == y.adds + 1 && mSessionManager.mSessions.Keys == y.managed + {id}
      requires mSessionManager.mSessions == Only(everyone, y.managed + {id})
      requires Apart(everyone) && Sockets(everyone) == y.fds[id := c] && Holds(held, everyone, y.live, y.buffers)
      requires nextAddress == y.next && sockets == y.sockets && mRunning == y.running && !y.stopped
      requires Astray(everyone, y.seen[id := Seen(Connected, M.Initial(2 * MAX_PACKET_SIZE).session)]) == {}
      ensures Shows(Y.Added(y, c, id), held)
    {
    }

    /** What a new session changes among all there have been. */
    lemma Newcomer(session: Session, y: Y.Summary, held: map<nat, Overlapped>, now: Seen)
      requires Apart(everyone) && Sockets(everyone) == y.fds && Holds(held, everyone, y.live, y.buffers)
      requires Astray(everyone, y.seen) == {} && Looks(session, now) && session.mID !in everyone
      requires session.Footprint() !! Footprints(everyone)
      ensures var more := everyone[session.mID := session];
              && Apart(more) && Sockets(more) == y.fds[session.mID := session.mSocket]
              && Holds(held, more, y.live, y.buffers) && Astray(more, y.seen[session.mID := now]) == {}
              && Only(everyone, y.managed)[session.mID := session] == Only(more, y.managed + {session.mID})
    {
      Joins(everyone, y.seen, session, now);
      SocketsWith(everyone, session);
      OnlyMore(everyone, y.managed, session);
      HoldsWith(held, everyone, y.live, y.buffers, session);
    }

    /** The same, among all sessions. */
    method Join(c: nat, ghost y: Y.Summary, ghost held: map<nat, Overlapped>) returns (session: Session?)
      requires Shows(y, held) && y.adds < ID_RANGE - 1 && NthId(y.adds) !in y.fds
      modifies mSessionManager, `everyone
      ensures session == null <==> |y.managed| >= y.maxSessions
      ensures session == null ==> Shows(y, held)
      ensures session != null ==>
                && session.mID == NthId(y.adds) && session.mSocket == c
                && session.mID in everyone && everyone[session.mID] == session
                && Shows(Y.Added(y, c, session.mID), held)
    {
      ghost var group, part := everyone, mSessionManager.mSessions;
      assert group.Keys == Sockets(group).Keys;
      session := AddClientAmong(c, group, y.seen);
      if session == null {
        return;
      }
      ghost var now := Seen(Connected, M.Initial(2 * MAX_PACKET_SIZE).session);
      Newcomer(session, y, held, now);
      Enlist(group[session.mID := session], y.seen[session.mID := now]);
      Entered(y, c, session.mID, held);
    }

    /** The rest of it for a session that has been made. */
    method Welcome(session: Session, c: nat, r: V.Replies, ghost y: Y.Summary, ghost held: map<nat, Overlapped>)
      returns (ghost more: map<nat, Overlapped>)
      requires Shows(y, held) && held == contexts - {c} && c < nextAddress && Below(contexts, nextAddress)
      requires session.mID in everyone && everyone[session.mID] == session && session.mSocket == c
      modifies `contexts, `nextAddress, `sockets
      ensures Shows(Y.Welcomed(y, c, session.mID, r), more) && more == contexts - {c}
    {
      more := held;
      if !r.associates {
        CloseSocket(session.mSocket, y, held);
        return;
      }
      var posted;
      posted, more := Receive(session, r.posts, c, y, held);
      if !posted {
        CloseSocket(session.mSocket, Y.ReceivePosted(y, session.mID, false), more);
      }
    }

    /** ProcessAccept after the next accept has been registered. */
    method Admit(c: nat, r: V.Replies, ghost y: Y.Summary, ghost held: map<nat, Overlapped>)
      returns (ghost more: map<nat, Overlapped>)
      requires Shows(y, held) && held == contexts - {c} && c < nextAddress && Below(contexts, nextAddress)
      requires y.adds < ID_RANGE - 1 && NthId(y.adds) !in y.fds
      modifies mSessionManager, `everyone, `contexts, `nextAddress, `sockets
      ensures Shows(Y.Admitted(y, c, NthId(y.adds), r), more) && more == contexts - {c}
    {
      var session := Join(c, y, held);
      if session == null {
        CloseSocket(c, y, held);
        return held;
      }
      ghost var now := Y.Admitted(y, c, session.mID, r);
      assert now == Y.Welcomed(Y.Added(y, c, session.mID), c, session.mID, r);
      more := Welcome(session, c, r, Y.Added(y, c, session.mID), held);
      assert Shows(now, more);
    }

    method ProcessAccept(c: nat, r: V.Replies, ghost y: Y.Summary, ghost held: map<nat, Overlapped>)
      returns (ghost more: map<nat, Overlapped>)
      requires Shows(y, held) && held == contexts - {c} && c < nextAddress && Below(contexts, nextAddress)
      requires nextAddress !in sockets && y.adds < ID_RANGE - 1 && NthId(y.adds) !in y.fds
      modifies mSessionManager, `everyone, `contexts, `nextAddress, `sockets
      ensures more == contexts - {c}
      ensures Shows(Y.Admitted(Y.AcceptPosted(y, r.accepting.Ok()), c, NthId(y.adds), r), more)
    {
      more := RegisterNext(r.accepting, c, y, held);
      more := Admit(c, r, Y.AcceptPosted(y, r.accepting.Ok()), more);
    }

    /** What is known of a completion that is dequeued, and what its handling will come to. */
    lemma ItIsHeld(c: nat, completed: bool, bytes: nat, r: V.Replies) returns (after: V.Server, now: Y.Summary)
      requires Valid() && mInitialized && Y.Completable(summary, c, completed, bytes)
      ensures V.Enabled(server, V.Completing(c, completed, bytes, r))
      ensures after == V.Step(server, V.Completing(c, completed, bytes, r))
      ensures Y.Tells(now, after, past + [V.Completing(c, completed, bytes, r)])
      ensures && c in contexts && IsFor(contexts[c], everyone) && summary.live[c] == ContextOf(contexts[c])
              && (contexts[c].operation.Accept? || (contexts[c].session != null && contexts[c].session.mID in summary.seen))
              && c < nextAddress && Below(contexts, nextAddress) && nextAddress !in sockets
              && NthId(summary.adds) !in summary.fds
              && Y.Becomes(summary, c, completed, bytes, r, now)
    {
      Y.Told(summary, server, past);
      V.ReachedInv(server, past);
      Y.CompletingEnabled(server, c, completed, bytes, r);
      V.ReachedOn(server, past, V.Completing(c, completed, bytes, r));
      Y.CompletingHandled(server, c, completed, bytes, r);
      after := V.Step(server, V.Completing(c, completed, bytes, r));
      now := Y.SummaryOf(after);
      Y.Tell(after, past + [V.Completing(c, completed, bytes, r)]);
      assert c in LiveOf(contexts);
      HoldsOne(contexts, everyone, summary.live, summary.buffers, c);
      forall d | d in contexts ensures d < nextAddress {
        assert d in LiveOf(contexts);
      }
    }

    /** The context is a worker's now. */
    lemma TakenOut(y: Y.Summary, c: nat)
      requires Shows(y, contexts)
      ensures Shows(Y.Without(y, c), contexts - {c})
    {
      HoldsLess(contexts, everyone, y.live, y.buffers, c);
      assert Keeps(Y.Without(y, c));
    }

    method Free(c: nat, ghost y: Y.Summary, ghost held: map<nat, Overlapped>)
      requires Shows(y, held) && held == contexts - {c}
      modifies `contexts
      ensures Shows(y, held) && contexts == held
    {
      Elsewhere(this, mSessionManager, everyone);
      DeallocateContext(c);
    }

    /** The switch of ProcessIO for a context with a session, and the case of an error. */
    method PerformFor(session: Session, operation: C.Operation, c: nat, completed: bool, bytes: SizeT, r: V.Replies,
                      ghost rest: Y.Summary, ghost held: map<nat, Overlapped>)
      returns (ghost more: map<nat, Overlapped>)
      requires Shows(rest, held) && held == contexts - {c} && c < nextAddress && Below(contexts, nextAddress)
      requires session.mID in everyone && everyone[session.mID] == session
      requires session.mID in rest.seen && Looks(session, rest.seen[session.mID])
      modifies mSessionManager, `contexts, `nextAddress, session, session.mSendBuffer
      ensures more == contexts - {c}
      ensures Shows(Y.HandledFor(rest, operation, session.mID, completed, bytes as nat, r), more)
    {
      more := held;
      if !completed || bytes == 0 || operation.Disconnect? {
        ProcessDisconnect(session, rest, held);
      } else if operation.Receive? {
        more := ProcessReceive(session, r.posts, c, rest, held);
      } else {
        more := ProcessSend(session, bytes, r.posts, c, rest, held, V.Continued(session.View(), bytes as nat, r.posts));
      }
    }

    /** The switch of ProcessIO, and the case of an error.  (Every handler but ProcessAccept returns at
        once for a context without a session.) */
    method Perform(c: nat, completed: bool, bytes: SizeT, r: V.Replies,
                   ghost y: Y.Summary, ghost held: map<nat, Overlapped>, ghost now: Y.Summary)
      returns (ghost more: map<nat, Overlapped>)
      requires Y.Becomes(y, c, completed, bytes as nat, r, now)
      requires c in contexts && IsFor(contexts[c], everyone) && c in y.live && y.live[c] == ContextOf(contexts[c])
      requires contexts[c].operation.Accept? || (contexts[c].session != null && contexts[c].session.mID in y.seen)
      requires Shows(Y.Without(y, c), held) && held == contexts - {c} && c < nextAddress && Below(contexts, nextAddress)
      requires nextAddress !in sockets && y.adds < ID_RANGE - 1 && NthId(y.adds) !in y.fds
      modifies mSessionManager, `everyone, `contexts, `nextAddress, `sockets, FootprintOf(contexts[c])
      ensures more == contexts - {c} && Shows(now, more)
    {
      var Overlapped(operation, session, _) := contexts[c];
      assert Y.BecomesFor(operation, y, c, completed, bytes as nat, r, now);
      more := held;
      if !operation.Accept? {
        ItLooks(Y.Without(y, c), held, session);
        more := PerformFor(session, operation, c, completed, bytes, r, Y.Without(y, c), held);
      } else if completed && bytes != 0 {
        more := ProcessAccept(c, r, Y.Without(y, c), held);
      }
    }

    /** Handles one completion, and frees its context. */
    method Handle(c: nat, completed: bool, bytes: SizeT, r: V.Replies, ghost now: Y.Summary)
      requires Shows(summary, contexts) && Y.Becomes(summary, c, completed, bytes as nat, r, now)
      requires c in contexts && IsFor(contexts[c], everyone) && c in summary.live && summary.live[c] == ContextOf(contexts[c])
      requires contexts[c].operation.Accept? || (contexts[c].session != null && contexts[c].session.mID in summary.seen)
      requires c < nextAddress && Below(contexts, nextAddress) && nextAddress !in sockets
      requires summary.adds < ID_RANGE - 1 && NthId(summary.adds) !in summary.fds
      modifies mSessionManager, `everyone, `contexts, `nextAddress, `sockets, FootprintOf(contexts[c])
      ensures Shows(now, contexts)
    {
      TakenOut(summary, c);
      ghost var more := Perform(c, completed, bytes, r, summary, contexts - {c}, now);
      Free(c, now, more);
    }

    /** The same, with the history after it. */
    method Complete(c: nat, completed: bool, bytes: SizeT, r: V.Replies,
                    ghost now: Y.Summary, ghost after: V.Server, ghost events: seq<V.Event>)
      requires Balanced() && mInitialized && Y.Tells(now, after, events)
      requires Shows(summary, contexts) && Y.Becomes(summary, c, completed, bytes as nat, r, now)
      requires c in contexts && IsFor(contexts[c], everyone) && c in summary.live && summary.live[c] == ContextOf(contexts[c])
      requires contexts[c].operation.Accept? || (contexts[c].session != null && contexts[c].session.mID in summary.seen)
      requires c < nextAddress && Below(contexts, nextAddress) && nextAddress !in sockets
      requires summary.adds < ID_RANGE - 1 && NthId(summary.adds) !in summary.fds
      modifies mSessionManager, `everyone, `contexts, `nextAddress, `sockets, FootprintOf(contexts[c])
      modifies `server, `past, `summary
      ensures Valid() && server == after && past == events
    {
      NeitherIn(this, mSessionManager, contexts[c]);
      Handle(c, completed, bytes, r, now);
      assert Balanced();
      Note(now, after, events);
    }

    method ProcessIO(dequeued: Dequeued, r: V.Replies) returns (ok: bool)
      requires Valid()
      requires dequeued.Completion? && mRunning ==>
                 dequeued.context in contexts && Y.Completable(summary, dequeued.context, dequeued.ok, dequeued.bytes as nat)
      modifies this, mSessionManager
      modifies if dequeued.Completion? && dequeued.context in contexts then FootprintOf(contexts[dequeued.context]) else {}
      ensures Valid() && (ok <==> old(mRunning) && !dequeued.Failure?)
      ensures !old(mRunning) || !dequeued.Completion? ==> server == old(server)
      ensures old(mRunning) && dequeued.Completion? ==>
                var e := V.Completing(dequeued.context, dequeued.ok, dequeued.bytes as nat, r);
                V.Enabled(old(server), e) && server == V.Step(old(server), e)
    {
      if !mRunning {
        return false;
      }
      match dequeued
      case Timeout => return true;
      case Failure => return false;
      case Completion(c, completed, bytes) =>
        ghost var after, now := ItIsHeld(c, completed, bytes as nat, r);
        Complete(c, completed, bytes, r, now, after, past + [V.Completing(c, completed, bytes as nat, r)]);
        return true;
    }

    // ---- Lifecycle ----

    /** With nothing held, a new history begins. */
    method Begin(maxSessions: nat)
      requires !mRunning
      modifies `mSessionManager, `contexts, `nextAddress, `sockets, `server, `past, `summary, `everyone
      ensures Y.Tells(summary, server, past) && Shows(summary, contexts)
      ensures server == V.Initial(maxSessions) && fresh(mSessionManager)
    {
      mSessionManager := new SessionManager(maxSessions);
      contexts, nextAddress, sockets := map[], 0, {};
      server, past, everyone := V.Initial(maxSessions), [], map[];
      summary := Y.Nothing(maxSessions);
      Y.NothingYet(maxSessions);
      assert mSessionManager.mSessions == Only(everyone, {});
    }

    /** The arguments say what the system answers.  On every failure path exactly what had been taken is
        given back. */
    method Initialize(maxSessions: nat, networkOk: bool, portOk: bool, listenSocket: int, extensionsOk: bool, bindOk: bool)
      returns (ok: bool)
      requires Valid()
      modifies this
      ensures Valid()
      ensures ok <==> !old(mInitialized) && networkOk && portOk && listenSocket != INVALID_SOCKET && extensionsOk && bindOk
      ensures !ok ==> mInitialized == old(mInitialized) && server == old(server) && resources == old(resources)
      ensures ok ==> mInitialized && server == V.Initial(maxSessions)
    {
      if mInitialized {
        return false;
      }
      ok := Acquire(networkOk, portOk, listenSocket, extensionsOk, bindOk);
      if !ok {
        return;
      }
      Begin(maxSessions);
      mInitialized := true;
    }

    /** What Initialize takes from the system. */
    method Acquire(networkOk: bool, portOk: bool, listenSocket: int, extensionsOk: bool, bindOk: bool) returns (ok: bool)
      requires Balanced() && !mInitialized
      modifies `resources, `mIocpHandle, `mListenSocket
      ensures ok <==> networkOk && portOk && listenSocket != INVALID_SOCKET && extensionsOk && bindOk
      ensures resources == if ok then Resources(1, 1, 1) else Resources(0, 0, 0)
      ensures ok ==> mListenSocket != INVALID_SOCKET && mIocpHandle
    {
      if !networkOk {
        return false;
      }
      resources := resources.(network := resources.network + 1);
      if !portOk {
        mIocpHandle := false;
        resources := resources.(network := resources.network - 1);
        return false;
      }
      mIocpHandle := true;
      resources := resources.(ports := resources.ports + 1);
      mListenSocket := listenSocket;
      if mListenSocket == INVALID_SOCKET {
        resources := resources.(ports := resources.ports - 1);
        resources := resources.(network := resources.network - 1);
        return false;
      }
      resources := resources.(listenSockets := resources.listenSockets + 1);
      if !extensionsOk {
        resources := resources.(listenSockets := resources.listenSockets - 1);
        resources := resources.(ports := resources.ports - 1);
        resources := resources.(network := resources.network - 1);
        return false;
      }
      if !bindOk {
        resources := resources.(listenSockets := resources.listenSockets - 1);
        resources := resources.(ports := resources.ports - 1);
        resources := resources.(network := resources.network - 1);
        return false;
      }
      return true;
    }

    /** What StartListen will come to. */
    lemma ListenComes(ready: bool, a: C.Accepting) returns (after: V.Server, now: Y.Summary)
      requires Valid() && mInitialized
      ensures V.Enabled(server, V.Listening(ready, a)) && after == V.Step(server, V.Listening(ready, a))
      ensures Y.Tells(now, after, past + [V.Listening(ready, a)]) && now == Y.Listened(summary, ready, a)
      ensures nextAddress !in contexts && nextAddress !in sockets
    {
      Y.Told(summary, server, past);
      V.ReachedInv(server, past);
      V.ReachedOn(server, past, V.Listening(ready, a));
      Y.ListeningHandled(server, ready, a);
      after := V.Step(server, V.Listening(ready, a));
      now := Y.SummaryOf(after);
      Y.Tell(after, past + [V.Listening(ready, a)]);
      assert nextAddress !in LiveOf(contexts);
    }

    /** The first accept is registered, and if that succeeds the model runs. */
    method Listen(a: C.Accepting, ghost y: Y.Summary) returns (ok: bool)
      requires Shows(y, contexts) && !mRunning && nextAddress !in contexts && nextAddress !in sockets
      modifies `mRunning, `contexts, `nextAddress, `sockets
      ensures ok == a.Ok() && mRunning == ok && Shows(Y.AcceptPosted(y, ok).(running := ok), contexts)
    {
      ok := RegisterAcceptAmong(a, everyone, y.seen);
      ghost var more := AcceptShown(y, ok, old(contexts));
      if ok {
        SetRunning(Y.AcceptPosted(y, ok), more);
      }
    }

    method SetRunning(ghost y: Y.Summary, ghost held: map<nat, Overlapped>)
      requires Shows(y, held)
      modifies `mRunning
      ensures mRunning && Shows(y.(running := true), held)
    {
      mRunning := true;
      assert Keeps(y.(running := true));
    }

    method StartListen(listens: bool, associates: bool, a: C.Accepting) returns (ok: bool)
      requires Valid()
      modifies `mRunning, `contexts, `nextAddress, `sockets, `server, `past, `summary
      ensures Valid() && mInitialized == old(mInitialized)
      ensures ok <==> mInitialized && (old(mRunning) || (listens && associates && a.Ok()))
      ensures !mInitialized ==> server == old(server)
      ensures mInitialized ==>
                && V.Enabled(old(server), V.Listening(listens && associates, a))
                && server == V.Step(old(server), V.Listening(listens && associates, a))
    {
      if !mInitialized {
        return false;
      }
      ghost var events := past + [V.Listening(listens && associates, a)];
      ghost var after, now := ListenComes(listens && associates, a);
      if mRunning {
        Note(now, after, events);
        return true;
      }
      if !listens || !associates {
        Note(now, after, events);
        return false;
      }
      ok := Listen(a, summary);
      Note(now, after, events);
    }

    /** Closes the socket of every session in the manager, in any order. */
    method CloseAll(ghost y: Y.Summary)
      requires Keeps(y) && Sockets(everyone) == y.fds
      modifies `sockets
      ensures sockets == old(sockets) - Y.ClosedBy(y)
    {
      var sessions, left := mSessionManager.mSessions, mSessionManager.mSessions.Keys;
      while left != {}
        invariant left <= sessions.Keys
        invariant sockets == old(sockets) - (set id | id in sessions && id !in left :: sessions[id].mSocket)
        decreases left
      {
        var id :| id in left;
        sockets := sockets - {sessions[id].mSocket};
        left := left - {id};
      }
      assert Y.ClosedBy(y) == set id | id in sessions :: sessions[id].mSocket by {
        forall id | id in sessions ensures id in y.fds && y.fds[id] == sessions[id].mSocket {
          assert sessions[id] == Only(everyone, y.managed)[id];
        }
      }
    }

    method ReleaseHandles()
      modifies `mListenSocket, `mIocpHandle, `resources
      ensures resources == old(Resources(resources.network - 1, resources.ports - (if mIocpHandle then 1 else 0),
                resources.listenSockets - (if mListenSocket != INVALID_SOCKET then 1 else 0)))
    {
      if mListenSocket != INVALID_SOCKET {
        resources := resources.(listenSockets := resources.listenSockets - 1);
        mListenSocket := INVALID_SOCKET;
      }
      if mIocpHandle {
        resources := resources.(ports := resources.ports - 1);
        mIocpHandle := false;
      }
      resources := resources.(network := resources.network - 1);
    }

    /** What Shutdown will come to. */
    lemma StopComes() returns (after: V.Server, now: Y.Summary)
      requires Valid() && mInitialized
      ensures V.Enabled(server, V.Stopping) && after == V.Step(server, V.Stopping)
      ensures Y.Tells(now, after, past + [V.Stopping])
      ensures after.ledger.sockets == sockets - Y.ClosedBy(summary) && after.ledger.live.Keys == contexts.Keys
    {
      Y.Told(summary, server, past);
      V.ReachedInv(server, past);
      Y.StoppingHandled(server);
      V.ReachedOn(server, past, V.Stopping);
      after := V.Step(server, V.Stopping);
      now := Y.SummaryOf(after);
      Y.Tell(after, past + [V.Stopping]);
      assert contexts.Keys == LiveOf(contexts).Keys;
    }

    /** What Shutdown gives back. */
    method Release(ghost y: Y.Summary)
      requires Balanced() && mInitialized && Keeps(y) && Sockets(everyone) == y.fds
      modifies `mRunning, `sockets, `mListenSocket, `mIocpHandle, `resources, `mInitialized, mSessionManager
      ensures Balanced() && !mInitialized && !mRunning && sockets == old(sockets) - Y.ClosedBy(y)
    {
      mRunning := false;
      CloseAll(y);
      mSessionManager.Clear();
      ReleaseHandles();
      mInitialized := false;
    }

    /** The history when the model is not initialised any more. */
    ghost method Close(now: Y.Summary, after: V.Server, events: seq<V.Event>)
      requires Balanced() && !mInitialized && !mRunning && Y.Tells(now, after, events)
      requires contexts.Keys == after.ledger.live.Keys && sockets == after.ledger.sockets
      modifies `server, `past, `summary, `everyone
      ensures Valid() && server == after
    {
      server, past, summary, everyone := after, events, now, map[];
    }

    /** The sessions are destroyed; what the kernel still has is never dequeued any more. */
    method Shutdown()
      requires Valid()
      modifies this, mSessionManager
      ensures Valid() && !mInitialized && resources == Resources(0, 0, 0)
      ensures !old(mInitialized) ==> server == old(server)
      ensures old(mInitialized) ==> V.Enabled(old(server), V.Stopping) && server == V.Step(old(server), V.Stopping)
    {
      if !mInitialized {
        return;
      }
      ghost var events := past + [V.Stopping];
      ghost var after, now := StopComes();
      Release(summary);
      Close(now, after, events);
    }
  }
}
