/** I/O request objects (src/ev.h) and the ring entries built from them. */
module Requests {
  /** Submission entries requested of the kernel. */
  const SQ_ENTRIES: nat := 128

  /** Completion entries, twice as many. */
  const CQ_ENTRIES: nat := 256

  /** Size of a path buffer, terminator included. */
  const MAX_FILENAME_LEN: nat := 128

  /** Length of a BLAKE3 digest. */
  const HASH_LEN: nat := 32

  const QUEUE_EFD: int := 0  // stands for the descriptor of the thread's queue eventfd
  const EXPIRY: nat := 1     // stands for the address of verifier->expiry in `off`

  datatype Option<+T> = None | Some(value: T)

  type Byte = n: int | 0 <= n < 256
  type Bytes = seq<Byte>

  /** A request object, named by the address the kernel carries as user_data: the
      four objects embedded in the processor and its verifier, or a slab slot. */
  datatype ReqId = Poll | Conn | Recv | Timer | Slot(index: nat)

  datatype Opcode =
    | Nop | PollAdd | SocketOp | ConnectOp | ReadOp | OpenAt | TimeoutOp | TimeoutRemove

  /** What a request's `addr` points to. */
  datatype Addr =
    | Null
    | Str(ptr: nat)   // a duplicated path string
    | Buf(index: nat) // a slab read buffer
    | RemoteAddr      // verifier->remote_addr
    | ReadBuf         // verifier->readbuf
    | ExpiryAddr      // verifier->expiry
    | VerifierBase    // the verifier itself
    | Req(id: ReqId)  // a request object: the user_data of its SQE

  datatype Callback =
    | NoCallback
    | OnQueueEvent | OnFileOpen | OnFileRead
    | OnSocketCreate | OnSocketConnect | OnSocketRead
    | OnTimeout | OnTimeoutUpdate

  /** ev_io_req_t; `loc` is not in the C struct: it records where the object is. */
  datatype Io = Io(
    opcode: Opcode, fd: int, addr: Addr, len: nat, off: nat, flags: nat,
    callback: Callback, loc: Loc)

  datatype Loc =
    | Free                        // on the slab's free list
    | Held                        // in the hands of the running callback
    | Pending(pos: nat)           // SQE number `pos` names it; kernel has not completed it
    | InCq(pos: nat, index: nat)  // final CQE number `index` is posted and not reaped
    | Lost(index: nat)            // its submission found the ring full
    | Parked                      // embedded object with nothing outstanding

  datatype Sqe = Sqe(
    id: ReqId, opcode: Opcode, fd: int, addr: Addr, len: nat, off: nat, flags: nat)

  /** `pos` is the number of the SQE this completes; it is the kernel's bookkeeping. */
  datatype Cqe = Cqe(id: ReqId, res: int, more: bool, pos: nat)

  function ToSqe(id: ReqId, io: Io): Sqe {
    Sqe(id, io.opcode, io.fd, io.addr, io.len, io.off, io.flags)
  }

  /** The entry carries every field of the request. */
  ghost predicate SameRequest(e: Sqe, id: ReqId, io: Io) {
    && e.id == id && e.opcode == io.opcode && e.fd == io.fd && e.addr == io.addr
    && e.len == io.len && e.off == io.off && e.flags == io.flags
  }

  /** What the program may ask of the kernel, one line per kind of request, with the values of
      the constants in the kernel's interface:
      - a multishot poll (len 1) of the queue for EPOLLIN | EPOLLEXCLUSIVE;
      - an AF_INET, SOCK_DGRAM, IPPROTO_UDP socket, and its connection to the remote address;
      - a read of the socket into the verifier's buffer; one timeout, at the expiry;
      - for a slot, a read-only open of its path from the working directory, a plain read of
        a file into its own buffer, or an update of a timeout to the expiry. */
  ghost predicate Form(e: Sqe) {
    match e.id
    case Poll => e == Sqe(Poll, PollAdd, QUEUE_EFD, Null, 1, 0, 0x1000_0001)
    case Conn =>
      || e == Sqe(Conn, SocketOp, 2, Null, 17, 2, 0)
      || e == Sqe(Conn, ConnectOp, e.fd, RemoteAddr, 0, 16, 0)
    case Recv => e == Sqe(Recv, ReadOp, e.fd, ReadBuf, 65535, 0, 0)
    case Timer => e == Sqe(Timer, TimeoutOp, 0, ExpiryAddr, 1, 0, 0)
    case Slot(i) =>
      || (e.addr.Str? && e == Sqe(Slot(i), OpenAt, -100, e.addr, 0, 0, 0))
      || e == Sqe(Slot(i), ReadOp, e.fd, Buf(i), 65536, e.off, 0)
      || e == Sqe(Slot(i), TimeoutRemove, 0, VerifierBase, 1, EXPIRY, 2)
  }
}
