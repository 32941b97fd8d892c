/** The callbacks a network model makes for a session. */
module Callbacks {

  datatype Callback = OnAccept | OnReceive | OnDisconnect

  /** An accept, then receives, then possibly a disconnect, then nothing more. */
  ghost predicate Legal(h: seq<Callback>) {
    && h != [] && h[0] == OnAccept
    && forall i | 0 < i < |h| :: h[i] == OnReceive || (h[i] == OnDisconnect && i == |h| - 1)
  }

  ghost predicate Ended(h: seq<Callback>) {
    h != [] && h[|h| - 1] == OnDisconnect
  }
}
