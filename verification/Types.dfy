/** Machine types and small value types shared by every part of the model. */
module Types {

  newtype byte = x: int | 0 <= x < 256

  /** `size_t` of a 64-bit build.  An expression of this type that left the range would be a
      verification error, so no size computation in the model wraps. */
  newtype SizeT = x: int | 0 <= x < 0x1_0000_0000_0000_0000

  /** The largest size a `std::vector<uint8_t>` may have. */
  const MAX_VECTOR_SIZE: nat := 0x7fff_ffff_ffff_ffff

  /** Size of the buffer inside an I/O context and of the stack buffer of the epoll send loop. */
  const DEFAULT_BUFFER_SIZE: nat := 8192

  /** The default packet size of a session, which both models use for the sessions they accept. */
  const MAX_PACKET_SIZE: nat := 1024 * 1024

  type ThreadId = nat

  datatype SessionState = Idle | Connected | Disconnecting | Disconnected

  datatype Option<+T> = None | Some(value: T)

  function Min(a: int, b: int): (m: int)
    ensures m <= a && m <= b && (m == a || m == b)
  {
    if a <= b then a else b
  }
}
