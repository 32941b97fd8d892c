/** The engine's lifecycle over a network model. */
module NetworkEngines {
  import opened PacketBuffers
  import opened Sessions
  import opened EpollModels
  import opened SessionGroups
  import M = SendMachine
  import V = EpollServer

  class NetworkEngine {
    var mInitialized: bool
    var mRunning: bool
    const mNetworkModel: EpollModel

    ghost predicate Valid()
      reads this, mNetworkModel, mNetworkModel.mSessionManager, Footprints(mNetworkModel.everyone)
    {
      InStep() && (mInitialized ==> mNetworkModel.Valid())
    }

    /** The flags are the model's. */
    ghost predicate InStep()
      reads this, mNetworkModel
    {
      && mNetworkModel.Balanced()
      && mInitialized == mNetworkModel.mInitialized
      && mRunning == mNetworkModel.mRunning
    }

    /** Something the model took from the system has not been given back. */
    ghost predicate HoldsResources()
      reads mNetworkModel
    {
      mNetworkModel.resources != Resources(0, 0, 0)
    }

    constructor ()
      ensures Valid() && fresh(mNetworkModel)
      ensures !mInitialized && !mRunning && !HoldsResources()
    {
      mInitialized, mRunning := false, false;
      mNetworkModel := new EpollModel();
    }

    /** `configOk` is what the configuration's Validate says; the rest is what the system answers. */
    method Initialize(configOk: bool, maxSessions: nat, networkOk: bool, epollFd: int, listenSocket: int, bindOk: bool)
      returns (ok: bool)
      requires Valid()
      modifies this, mNetworkModel
      ensures Valid() && mRunning == old(mRunning)
      ensures mInitialized == (old(mInitialized) || ok)
      ensures ok <==> !old(mInitialized) && configOk && networkOk && epollFd >= 0
                      && listenSocket != INVALID_SOCKET_HANDLE && bindOk
      ensures HoldsResources() <==> mInitialized
    {
      if mInitialized || !configOk {
        return false;
      }
      ok := mNetworkModel.Initialize(maxSessions, networkOk, epollFd, listenSocket, bindOk);
      if ok {
        mInitialized := true;
      }
    }

    method Start(listenOk: bool, ctlOk: bool) returns (ok: bool)
      requires Valid()
      modifies this, mNetworkModel`mRunning
      ensures Valid() && mInitialized == old(mInitialized)
      ensures mRunning == (old(mRunning) || ok)
      ensures ok <==> mInitialized && !old(mRunning) && listenOk && ctlOk
    {
      if !mInitialized || mRunning {
        return false;
      }
      ok := mNetworkModel.StartListen(listenOk, ctlOk);
      if ok {
        mRunning := true;
      }
    }

    /** Stop does nothing unless the engine is running: one that was initialised but never started,
        or whose Start failed, stays initialised and keeps its resources (until the model is
        destroyed). */
    method Stop()
      requires Valid()
      modifies this, mNetworkModel, mNetworkModel.mSessionManager
      ensures Valid() && !mRunning
      ensures mInitialized == (old(mInitialized) && !old(mRunning))
      ensures HoldsResources() <==> old(mInitialized) && !old(mRunning)
    {
      if !mRunning {
        return;
      }
      mRunning := false;
      mNetworkModel.Shutdown();
      mInitialized := false;
    }

    lemma NeitherOf(session: Session)
      ensures this as object !in session.Footprint() && mNetworkModel as object !in session.Footprint()
    {
    }

    /** For a session there is. */
    method Relay(session: Session, ghost caller: nat, buffer: PacketBuffer, ctlOk: bool) returns (ok: bool)
      requires InStep() && mNetworkModel.mInitialized && mNetworkModel.Valid()
      requires buffer.Valid() && mNetworkModel.Known(session)
      modifies session.Footprint()
      modifies mNetworkModel`interest, mNetworkModel`ctlFailed, mNetworkModel`server, mNetworkModel`past
      ensures InStep() && mRunning == old(mRunning) && old(session.Valid())
      ensures ok <==> 0 < old(|buffer.Contents()|) <= old(M.Free(session.View()))
      ensures old(mNetworkModel.Owns(session)) ==>
                && mNetworkModel.Valid()
                && V.Sent(old(mNetworkModel.server), session.mID, caller, old(buffer.Contents()), ctlOk,
                          mNetworkModel.server, ok)
    {
      NeitherOf(session);
      ok := mNetworkModel.Send(session, caller, buffer, ctlOk);
      assert mNetworkModel.Balanced();
    }

    /** The model's Send, which refuses null, and which the engine only calls when it is running. */
    method Send(session: Session?, ghost caller: nat, buffer: PacketBuffer, ctlOk: bool) returns (ok: bool)
      requires Valid() && buffer.Valid() && (session != null ==> mNetworkModel.Known(session))
      modifies if session == null then {} else session.Footprint()
      modifies mNetworkModel`interest, mNetworkModel`ctlFailed, mNetworkModel`server, mNetworkModel`past
      ensures InStep()
      ensures !mRunning || session == null ==> !ok && unchanged(mNetworkModel)
      ensures !mRunning && session != null ==> unchanged(session, session.mSendBuffer, session.mSendBuffer.mBuffer)
      ensures mRunning && session != null ==>
                old(session.Valid()) && (ok <==> 0 < old(|buffer.Contents()|) <= old(M.Free(session.View())))
      ensures mRunning && session != null && old(mNetworkModel.Owns(session)) ==>
                && mNetworkModel.Valid()
                && V.Sent(old(mNetworkModel.server), session.mID, caller, old(buffer.Contents()), ctlOk,
                          mNetworkModel.server, ok)
    {
      if !mRunning || session == null {
        return false;
      }
      ok := Relay(session, caller, buffer, ctlOk);
    }
  }
}
