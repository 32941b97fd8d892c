/** With calls that do not disturb each other, and an application that only sends to sessions it has
    been told of, every session's callbacks of the IOCP model come in the right order. */
module IocpHistories {
  import opened Types
  import opened Callbacks
  import opened IocpContexts
  import opened IocpProperties
  import opened IocpCalls

  function HistoryOf(calls: seq<Call>, id: nat): seq<Callback> {
    if calls == [] then []
    else
      var last := calls[|calls| - 1];
      HistoryOf(calls[..|calls| - 1], id) + if last.session == id then [last.callback] else []
  }

  lemma OneMoreCall(calls: seq<Call>, x: Call, id: nat)
    ensures HistoryOf(calls + [x], id) == HistoryOf(calls, id) + if x.session == id then [x.callback] else []
  {
    assert (calls + [x])[..|calls|] == calls;
  }

  /** The callbacks of a session fit its record: none without a first receive, and a Disconnect exactly
      when it is not connected any more. */
  ghost predicate Fits(h: seq<Callback>, p: Peer, stopped: bool) {
    if p.posted then Legal(h) && (Ended(h) ==> !p.connected) && (!p.connected && !stopped ==> Ended(h)) else h == []
  }

  /** The context is for an accept, or for a session that got a first receive. */
  ghost predicate ForPosted(l: Ledger, x: Context) {
    !x.operation.Accept? ==> x.session.Some? && x.session.value in l.sessions && l.sessions[x.session.value].posted
  }

  ghost predicate HistoriesFit(calls: seq<Call>, sessions: map<nat, Peer>, stopped: bool) {
    && (forall id | id in sessions :: Fits(HistoryOf(calls, id), sessions[id], stopped))
    && (forall id | id !in sessions :: HistoryOf(calls, id) == [])
  }

  ghost predicate Orderly(l: Ledger) {
    && Settled(l)
    && (forall c | c in l.live :: ForPosted(l, l.live[c]))
    && HistoriesFit(l.calls, l.sessions, l.stopped)
  }

  /** Sessions come and go as little as their callbacks. */
  ghost predicate NoNews(l: Ledger, after: Ledger) {
    && after.calls == l.calls && after.stopped == l.stopped
    && after.sessions.Keys == l.sessions.Keys
    && (forall id | id in l.sessions ::
          after.sessions[id].posted == l.sessions[id].posted && after.sessions[id].connected == l.sessions[id].connected)
  }

  /** The contexts there are now were there, or are in the kernel and for sessions that had one. */
  ghost predicate NewContexts(l: Ledger, after: Ledger) {
    forall c | c in after.live ::
      (c in l.live && after.live[c] == l.live[c]) || (after.live[c].stage.InKernel? && ForPosted(after, after.live[c]))
  }

  /** Sessions stay, and stay as far as they were. */
  ghost predicate KeepsSessions(l: Ledger, after: Ledger) {
    forall id | id in l.sessions :: id in after.sessions && after.sessions[id].posted == l.sessions[id].posted
  }

  lemma ContextsOrderly(l: Ledger, after: Ledger)
    requires Orderly(l) && !l.stopped && !after.stopped && NewContexts(l, after) && KeepsSessions(l, after)
    ensures Settled(after) && forall c | c in after.live :: ForPosted(after, after.live[c])
  {
  }

  lemma NoNewsOrderly(l: Ledger, after: Ledger)
    requires Orderly(l) && !l.stopped && NoNews(l, after) && NewContexts(l, after)
    ensures Orderly(after)
  {
    ContextsOrderly(l, after);
  }

  lemma FitsOn(h: seq<Callback>, p: Peer, callback: Callback)
    requires Fits(h, p, false) && p.posted && p.connected && callback != OnAccept
    ensures Fits(h + [callback], p.(connected := callback == OnReceive), false)
  {
    var longer := h + [callback];
    assert longer[|longer| - 1] == callback && longer[0] == h[0];
    forall i | 0 < i < |longer| ensures longer[i] == OnReceive || (longer[i] == OnDisconnect && i == |longer| - 1) {
      assert i < |h| ==> longer[i] == h[i];
    }
  }

  /** One callback for a connected session, which it may end. */
  lemma OneCallFits(calls: seq<Call>, sessions: map<nat, Peer>, id: nat, callback: Callback)
    requires HistoriesFit(calls, sessions, false) && id in sessions && sessions[id].posted && sessions[id].connected
    requires callback != OnAccept
    ensures HistoriesFit(calls + [Call(callback, id)],
                         sessions[id := sessions[id].(connected := callback == OnReceive)], false)
  {
    var more, after := calls + [Call(callback, id)], sessions[id := sessions[id].(connected := callback == OnReceive)];
    forall other | other in after ensures Fits(HistoryOf(more, other), after[other], false) {
      OneMoreCall(calls, Call(callback, id), other);
      if other == id {
        FitsOn(HistoryOf(calls, id), sessions[id], callback);
      } else {
        assert HistoryOf(more, other) == HistoryOf(calls, other) && after[other] == sessions[other];
      }
    }
    forall other | other !in after ensures HistoryOf(more, other) == [] {
      OneMoreCall(calls, Call(callback, id), other);
    }
  }

  lemma OneCallOrderly(l: Ledger, after: Ledger, id: nat, callback: Callback)
    requires Orderly(l) && !l.stopped && !after.stopped && NewContexts(l, after)
    requires id in l.sessions && l.sessions[id].posted && l.sessions[id].connected && callback != OnAccept
    requires after.calls == l.calls + [Call(callback, id)]
    requires after.sessions == l.sessions[id := l.sessions[id].(connected := callback == OnReceive)]
    ensures Orderly(after)
  {
    ContextsOrderly(l, after);
    OneCallFits(l.calls, l.sessions, id, callback);
  }

  /** A new session that is announced. */
  lemma AnnouncedFits(calls: seq<Call>, sessions: map<nat, Peer>, id: nat, p: Peer)
    requires HistoriesFit(calls, sessions, false) && id !in sessions && p.connected && p.posted
    ensures HistoriesFit(calls + [Call(OnAccept, id)], sessions[id := p], false)
  {
    var more, after := calls + [Call(OnAccept, id)], sessions[id := p];
    forall other ensures HistoryOf(more, other) == if other == id then [OnAccept] else HistoryOf(calls, other) {
      OneMoreCall(calls, Call(OnAccept, id), other);
    }
    forall other | other in after ensures Fits(HistoryOf(more, other), after[other], false) {
      assert other != id ==> HistoryOf(more, other) == HistoryOf(calls, other) && after[other] == sessions[other];
    }
  }

  /** And one that never is. */
  lemma SilentFits(calls: seq<Call>, sessions: map<nat, Peer>, id: nat, p: Peer)
    requires HistoriesFit(calls, sessions, false) && id !in sessions && !p.posted
    ensures HistoriesFit(calls, sessions[id := p], false)
  {
  }

  lemma NewSessionOrderly(l: Ledger, after: Ledger, id: nat, p: Peer)
    requires Orderly(l) && !l.stopped && !after.stopped && NewContexts(l, after)
    requires id !in l.sessions && p.connected && after.sessions == l.sessions[id := p]
    requires after.calls == l.calls + if p.posted then [Call(OnAccept, id)] else []
    ensures Orderly(after)
  {
    ContextsOrderly(l, after);
    if p.posted {
      AnnouncedFits(l.calls, l.sessions, id, p);
    } else {
      SilentFits(l.calls, l.sessions, id, p);
      assert l.calls + [] == l.calls;
    }
  }

  /** What an accept does besides contexts. */
  lemma AcceptNews(l: Ledger, c: nat, ok: bool, bytes: nat, a: Answers)
    requires Addressed(l) && c in l.live && Accepts(l.live[c].operation, ok, bytes)
    ensures var after, posted := ProcessIO(l, c, ok, bytes, a), a.associates && a.posts;
            && after.stopped == l.stopped
            && after.sessions == (if a.room then l.sessions[a.id := Peer(true, posted, c, false, 0, a.capacity)]
                                  else l.sessions)
            && after.calls == l.calls + (if a.room && posted then [Call(OnAccept, a.id)] else [])
  {
    var marked := Mark(Mark(l, c, Taken), c, Registered);
    RegisterAcceptGrows(marked, a.accepting);
    AddClientInOrder(RegisterAccept(marked, a.accepting), c, a);
  }

  /** New contexts are for the next accept and the first receive. */
  lemma AcceptContexts(l: Ledger, c: nat, ok: bool, bytes: nat, a: Answers)
    requires Addressed(l) && c in l.live && Accepts(l.live[c].operation, ok, bytes) && a.id !in l.sessions
    ensures NewContexts(l, ProcessIO(l, c, ok, bytes, a))
  {
    HandleKeeps(l, c, ok, bytes, a);
    AcceptNews(l, c, ok, bytes, a);
    var marked := Mark(Mark(l, c, Taken), c, Registered);
    var renewed := RegisterAccept(marked, a.accepting);
    forall d | d in ProcessIO(l, c, ok, bytes, a).live && d !in l.live
      ensures ForPosted(ProcessIO(l, c, ok, bytes, a), ProcessIO(l, c, ok, bytes, a).live[d])
    {
      assert d == l.next || d == renewed.next;
    }
  }

  lemma AcceptOrderly(l: Ledger, c: nat, ok: bool, bytes: nat, a: Answers)
    requires Orderly(l) && Addressed(l) && AtStage(l, c, InKernel) && a.id !in l.sessions
    requires Accepts(l.live[c].operation, ok, bytes)
    ensures Orderly(ProcessIO(l, c, ok, bytes, a))
  {
    AcceptContexts(l, c, ok, bytes, a);
    AcceptNews(l, c, ok, bytes, a);
    if a.room {
      NewSessionOrderly(l, ProcessIO(l, c, ok, bytes, a), a.id, Peer(true, a.associates && a.posts, c, false, 0, a.capacity));
    } else {
      NoNewsOrderly(l, ProcessIO(l, c, ok, bytes, a));
    }
  }

  lemma DeliverOrderly(l: Ledger, c: nat, ok: bool, bytes: nat, a: Answers)
    requires Orderly(l) && Addressed(l) && AtStage(l, c, InKernel) && Delivers(l, l.live[c], ok, bytes)
    ensures Orderly(ProcessIO(l, c, ok, bytes, a))
  {
    HandleKeeps(l, c, ok, bytes, a);
    var id := l.live[c].session.value;
    assert l.sessions == l.sessions[id := l.sessions[id].(connected := true)];
    OneCallOrderly(l, ProcessIO(l, c, ok, bytes, a), id, OnReceive);
  }

  /** The completion disconnects its session. */
  ghost predicate Hangs(l: Ledger, x: Context, ok: bool, bytes: nat) {
    (if !ok || bytes == 0 then !x.operation.Accept? else x.operation.Disconnect?) && Reads(l, x.session)
  }

  lemma PerformContexts(l: Ledger, c: nat, ok: bool, bytes: nat, a: Answers)
    requires Addressed(l) && c in l.live && ForPosted(l, l.live[c])
    requires !Accepts(l.live[c].operation, ok, bytes) && !Delivers(l, l.live[c], ok, bytes)
    ensures NewContexts(l, ProcessIO(l, c, ok, bytes, a))
  {
    HandleKeeps(l, c, ok, bytes, a);
  }

  lemma DisconnectCalls(l: Ledger, session: Option<nat>)
    requires Reads(l, session)
    ensures var after, id := ProcessDisconnect(l, session), session.value;
            && after.stopped == l.stopped && after.calls == l.calls + [Call(OnDisconnect, id)]
            && after.sessions == l.sessions[id := l.sessions[id].(connected := false)]
  {
  }

  lemma SendCalls(l: Ledger, session: Option<nat>, bytes: nat, accepted: bool)
    ensures NoNews(l, ProcessSend(l, session, bytes, accepted))
  {
  }

  lemma PerformCalls(l: Ledger, c: nat, ok: bool, bytes: nat, a: Answers)
    requires c in l.live && !Accepts(l.live[c].operation, ok, bytes) && !Delivers(l, l.live[c], ok, bytes)
    ensures var after, x := ProcessIO(l, c, ok, bytes, a), l.live[c];
            if Hangs(l, x, ok, bytes) then
              var id := x.session.value;
              && after.stopped == l.stopped && after.calls == l.calls + [Call(OnDisconnect, id)]
              && after.sessions == l.sessions[id := l.sessions[id].(connected := false)]
            else NoNews(l, after)
  {
    var marked := Mark(Mark(l, c, Taken), c, Handled);
    if Hangs(l, l.live[c], ok, bytes) {
      DisconnectCalls(marked, l.live[c].session);
    } else {
      SendCalls(marked, l.live[c].session, bytes, a.posts);
    }
  }

  /** The callbacks a completion makes, undisturbed: one Accept for a connection that gets a session and a
      receive, one Receive for data of a connected session, one Disconnect when it ends one, else none. */
  lemma CompletionCalls(l: Ledger, c: nat, ok: bool, bytes: nat, a: Answers)
    requires Addressed(l) && c in l.live
    ensures var x := l.live[c];
            ProcessIO(l, c, ok, bytes, a).calls == l.calls +
              if x.operation.Accept? then
                if ok && bytes != 0 && a.room && a.associates && a.posts then [Call(OnAccept, a.id)] else []
              else if !Reads(l, x.session) then []
              else if !ok || bytes == 0 || x.operation.Disconnect? then [Call(OnDisconnect, x.session.value)]
              else if x.operation.Receive? then [Call(OnReceive, x.session.value)]
              else []
  {
    assert l.calls + [] == l.calls;
    if Accepts(l.live[c].operation, ok, bytes) {
      AcceptNews(l, c, ok, bytes, a);
    } else if !Delivers(l, l.live[c], ok, bytes) {
      PerformCalls(l, c, ok, bytes, a);
    }
  }

  lemma PerformOrderly(l: Ledger, c: nat, ok: bool, bytes: nat, a: Answers)
    requires Orderly(l) && Addressed(l) && AtStage(l, c, InKernel)
    requires !Accepts(l.live[c].operation, ok, bytes) && !Delivers(l, l.live[c], ok, bytes)
    ensures Orderly(ProcessIO(l, c, ok, bytes, a))
  {
    PerformContexts(l, c, ok, bytes, a);
    PerformCalls(l, c, ok, bytes, a);
    if Hangs(l, l.live[c], ok, bytes) {
      OneCallOrderly(l, ProcessIO(l, c, ok, bytes, a), l.live[c].session.value, OnDisconnect);
    } else {
      NoNewsOrderly(l, ProcessIO(l, c, ok, bytes, a));
    }
  }

  lemma CallSendNews(l: Ledger, id: nat, n: nat, accepted: bool)
    requires CallEnabled(l, Sending(id, n, accepted)) && l.sessions[id].posted
    ensures NoNews(l, CallSend(l, id, n, accepted)) && NewContexts(l, CallSend(l, id, n, accepted))
  {
  }

  lemma CallSendOrderly(l: Ledger, id: nat, n: nat, accepted: bool)
    requires Orderly(l) && CallEnabled(l, Sending(id, n, accepted)) && HistoryOf(l.calls, id) != []
    ensures Orderly(CallSend(l, id, n, accepted))
  {
    CallSendNews(l, id, n, accepted);
    NoNewsOrderly(l, CallSend(l, id, n, accepted));
  }

  lemma ShutdownOrderly(l: Ledger)
    requires Orderly(l)
    ensures Orderly(Shutdown(l))
  {
  }

  lemma CallOrderly(l: Ledger, e: CallEvent)
    requires Inv(l) && Orderly(l) && CallEnabled(l, e)
    requires e.Sending? ==> HistoryOf(l.calls, e.id) != []
    ensures Orderly(CallStep(l, e))
  {
    match e
    case Listening(_, _) => NoNewsOrderly(l, CallStep(l, e));
    case Sending(id, n, accepted) => CallSendOrderly(l, id, n, accepted);
    case Completing(c, ok, bytes, a) =>
      if Accepts(l.live[c].operation, ok, bytes) {
        AcceptOrderly(l, c, ok, bytes, a);
      } else if Delivers(l, l.live[c], ok, bytes) {
        DeliverOrderly(l, c, ok, bytes, a);
      } else {
        PerformOrderly(l, c, ok, bytes, a);
      }
    case Stopping => ShutdownOrderly(l);
  }

  // ---- Whole runs ----

  ghost predicate CallsEnabled(l: Ledger, calls: seq<CallEvent>)
    decreases |calls|
  {
    calls == [] || (&& CallEnabled(l, calls[0])
                    && (calls[0].Sending? ==> HistoryOf(l.calls, calls[0].id) != [])
                    && CallsEnabled(CallStep(l, calls[0]), calls[1..]))
  }

  ghost function AfterCalls(l: Ledger, calls: seq<CallEvent>): Ledger
    requires CallsEnabled(l, calls)
    decreases |calls|
  {
    if calls == [] then l else AfterCalls(CallStep(l, calls[0]), calls[1..])
  }

  lemma CallInv(l: Ledger, e: CallEvent)
    requires Inv(l) && Orderly(l) && CallEnabled(l, e)
    ensures Inv(CallStep(l, e))
  {
    match e
    case Listening(ready, a) => StartListenInv(l, ready, a);
    case Sending(id, n, accepted) => CallSendInv(l, id, n, accepted);
    case Completing(c, ok, bytes, a) => ProcessIOInv(l, c, ok, bytes, a);
    case Stopping => ShutdownInv(l);
  }

  /** Over any run of undisturbed calls, each session's callbacks are Accept Receive* Disconnect?, and
      one that got no receive has none. */
  lemma {:induction false} HistoriesAreLegal(l: Ledger, calls: seq<CallEvent>, id: nat)
    requires Inv(l) && Orderly(l) && CallsEnabled(l, calls)
    ensures Inv(AfterCalls(l, calls)) && Orderly(AfterCalls(l, calls))
    ensures var h := HistoryOf(AfterCalls(l, calls).calls, id);
            h == [] || Legal(h)
    decreases |calls|
  {
    if calls != [] {
      CallInv(l, calls[0]);
      CallOrderly(l, calls[0]);
      HistoriesAreLegal(CallStep(l, calls[0]), calls[1..], id);
    }
  }

  lemma AtFirst()
    ensures Inv(Initial()) && Orderly(Initial())
  {
  }
}
