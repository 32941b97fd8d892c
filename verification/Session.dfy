/** A client session. */
module Sessions {
  import opened Types
  import opened RingBuffers
  import M = SendMachine

  class Session {
    const mID: nat
    const mSocket: nat
    var mState: SessionState
    const mSendBuffer: RingBuffer
    var mIsSending: bool

    // What has been done to the session, besides what its ring remembers.
    ghost var log: seq<M.Entry>
    ghost var oversized: bool
    ghost var idleOverflow: bool
    ghost var postFailed: bool

    ghost predicate Valid()
      reads mSendBuffer, mSendBuffer.mBuffer
    {
      mSendBuffer.Valid()
    }

    /** The session as the send machine sees it. */
    ghost function View(): M.Session
      requires Valid()
      reads `mIsSending, `log, `oversized, `idleOverflow, `postFailed, mSendBuffer, mSendBuffer.mBuffer
    {
      M.Session(mSendBuffer.Capacity(), mSendBuffer.Contents(), mIsSending,
                mSendBuffer.written, mSendBuffer.consumed, log, oversized, idleOverflow, postFailed)
    }

    /** Neither depends on mState. */
    twostate lemma Untouched()
      requires old(Valid())
      requires unchanged(`mIsSending, `log, `oversized, `idleOverflow, `postFailed, mSendBuffer, mSendBuffer.mBuffer)
      ensures Valid() && View() == old(View())
    {
    }

    ghost function Footprint(): set<object>
    {
      {this, mSendBuffer, mSendBuffer.mBuffer}
    }

    /** The send ring holds two packets of the configured size. */
    constructor (id: nat, socket: nat, maxPacketSize: SizeT)
      requires maxPacketSize as int * 2 < MAX_VECTOR_SIZE
      ensures Valid() && fresh(mSendBuffer) && fresh(mSendBuffer.mBuffer)
      ensures mID == id && mSocket == socket && mState == Idle
      ensures View() == M.Initial(maxPacketSize as nat * 2).session
    {
      mID := id;
      mSocket := socket;
      mState := Idle;
      mSendBuffer := new RingBuffer(maxPacketSize * 2);
      mIsSending := false;
      log, oversized, idleOverflow, postFailed := [], false, false, false;
    }

    /** The Write at the top of Send, under the lock. */
    method Enqueue(ghost caller: nat, data: seq<byte>) returns (written: SizeT)
      requires Valid() && |data| <= MAX_VECTOR_SIZE
      modifies `log, `oversized, `idleOverflow, mSendBuffer, mSendBuffer.mBuffer
      ensures Valid()
      ensures View() == M.Write(old(View()), caller, data)
      ensures written as int == Min(|data|, old(M.Free(View())))
    {
      ghost var sending := mIsSending;
      written := mSendBuffer.Write(Some(data), |data| as SizeT);
      log := log + [M.Entry(caller, data, written as nat)];
      oversized := oversized || mSendBuffer.Capacity() < |data|;
      idleOverflow := idleOverflow || (written as nat < |data| && !sending);
    }
  }
}
