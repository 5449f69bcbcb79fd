/** One processor thread (src/processor.c with the callbacks of src/verifier.c) as
    functions on its memory: request objects, slab, path strings, descriptors, buffers.

    `exit` and the states the C code cannot survive are statuses.  `Faulted` marks what
    must never happen: the in_flight assertion firing, a string freed twice, a descriptor
    closed twice, memory read out of bounds. */
module Runtime {
  import opened Requests

  const READ_BUF_SIZE: nat := 65536

  /** Unchanging file contents and the hash, a function of all the bytes fed to it. */
  datatype World = World(files: map<Bytes, Bytes>, hash: Bytes -> Bytes)

  /** A live duplicated string and a live file descriptor; `owner` is history. */
  datatype PathString = PathString(path: Bytes, owner: nat)
  datatype OpenFile = OpenFile(path: Bytes, owner: nat)

  /** struct processor_iou_req without its request object; `job` is history. */
  datatype Preq = Preq(
    hasher: Bytes, buffer: nat, data: Option<nat>, data2: nat, inFlight: bool, job: nat)

  /** History: one job per open, numbered in order. */
  datatype Job = Job(path: Bytes, status: JobStatus)
  datatype JobStatus = InSlot(slot: nat) | Hashed(index: nat) | OpenFailed | ReadFailed

  datatype Emission = Emission(job: nat, path: Bytes, hash: Bytes)
  datatype Sent = Sent(hash: Bytes, path: Bytes)

  datatype Status = Running | Exited | NoConnection | Faulted

  datatype Proc = Proc(
    ios: map<ReqId, Io>,
    slots: seq<Preq>,
    free: seq<nat>,
    nrFree: int,
    strs: map<nat, PathString>,
    fds: map<int, OpenFile>,
    buffers: seq<Bytes>,
    connected: bool,
    subs: seq<Sqe>,          // every SQE published
    seen: nat,               // least SQ head this thread can still load
    lost: seq<Sqe>,          // submissions refused with EV_FULL and ignored
    jobs: seq<Job>,
    emitted: seq<Emission>,  // lines printed
    sent: seq<Sent>,         // verifier_verify_hash calls
    status: Status)

  function Ids(n: nat): set<ReqId> {
    {Poll, Conn, Recv, Timer} + set i | 0 <= i < n :: Slot(i)
  }

  /** Exactly the four embedded objects and one per slab slot exist. */
  ghost predicate HasIds(p: Proc) {
    && {Poll, Conn, Recv, Timer} <= p.ios.Keys
    && (forall i | 0 <= i < |p.slots| :: Slot(i) in p.ios)
    && (forall id | id in p.ios && id.Slot? :: id.index < |p.slots|)
  }

  function Fault(p: Proc): Proc {
    p.(status := Faulted)
  }

  function SetIo(p: Proc, id: ReqId, io: Io): Proc {
    p.(ios := p.ios[id := io])
  }

  /** ev_iou_req, its result ignored.  `head` is the SQ head loaded; a load never returns
      more than the tail. */
  function Submit(p: Proc, id: ReqId, head: nat): (r: Proc)
    requires id in p.ios
    ensures |r.slots| == |p.slots|
  {
    var h := if head <= |p.subs| then head else |p.subs|;
    if |p.subs| - h > SQ_ENTRIES - 1 then Refused(p, id, h) else Accepted(p, id, h)
  }

  function Refused(p: Proc, id: ReqId, h: nat): (r: Proc)
    requires id in p.ios
    ensures |r.slots| == |p.slots|
  {
    p.(ios := p.ios[id := p.ios[id].(loc := Lost(|p.lost|))],
       lost := p.lost + [ToSqe(id, p.ios[id])], seen := h)
  }

  function Accepted(p: Proc, id: ReqId, h: nat): (r: Proc)
    requires id in p.ios
    ensures |r.slots| == |p.slots|
  {
    p.(ios := p.ios[id := p.ios[id].(loc := Pending(|p.subs|))],
       subs := p.subs + [ToSqe(id, p.ios[id])], seen := h)
  }

  /** What a submission changes, whether or not the ring had room. */
  ghost predicate Resubmitted(p: Proc, q: Proc, id: ReqId) {
    && id in p.ios && id in q.ios
    && q.slots == p.slots && q.free == p.free && q.nrFree == p.nrFree && q.strs == p.strs
    && q.fds == p.fds && q.buffers == p.buffers && q.connected == p.connected && q.jobs == p.jobs
    && q.emitted == p.emitted && q.sent == p.sent && q.status == p.status
    && q.ios == p.ios[id := p.ios[id].(loc := q.ios[id].loc)]
    && (q.ios[id].loc.Pending? || q.ios[id].loc.Lost?)
  }

  lemma SubmitFrame(p: Proc, id: ReqId, head: nat)
    requires id in p.ios && p.seen <= head && p.seen <= |p.subs|
    ensures Resubmitted(p, Submit(p, id, head), id)
    ensures p.seen <= Submit(p, id, head).seen <= head && |p.subs| <= |Submit(p, id, head).subs|
  {
    var h := if head <= |p.subs| then head else |p.subs|;
    if |p.subs| - h > SQ_ENTRIES - 1 {
      assert Submit(p, id, head) == Refused(p, id, h);
    } else {
      assert Submit(p, id, head) == Accepted(p, id, h);
    }
  }

  // ---------------------------------------------------------------------------
  // The slab

  /** processor_get_req, when it does not exit: the slot to hand out. */
  function GetReq(p: Proc): (r: Proc)
    requires p.free != [] && p.free[0] < |p.slots| && Slot(p.free[0]) in p.ios
    ensures |r.slots| == |p.slots|
  {
    var i := p.free[0];
    if p.slots[i].inFlight then Fault(p)
    else
      p.(ios := p.ios[Slot(i) := Io(Nop, p.ios[Slot(i)].fd, Null, 0, 0, 0, NoCallback, Held)],
         free := p.free[1..], nrFree := p.nrFree - 1,
         slots := p.slots[i := p.slots[i].(inFlight := true)])
  }

  /** processor_free_req */
  function FreeReq(p: Proc, i: nat): (r: Proc)
    requires i < |p.slots| && Slot(i) in p.ios
    ensures |r.slots| == |p.slots|
  {
    p.(ios := p.ios[Slot(i) := p.ios[Slot(i)].(loc := Free)],
       free := [i] + p.free, nrFree := p.nrFree + 1,
       slots := p.slots[i := p.slots[i].(data := None, inFlight := false)])
  }

  /** The slab is a stack: the slot given back last is handed out next, in flight again, and the
      list is as before. */
  lemma SlotsAreReused(p: Proc, i: nat)
    requires i < |p.slots| && Slot(i) in p.ios
    ensures var f := FreeReq(p, i);
            && f.free != [] && f.free[0] == i && f.nrFree == p.nrFree + 1
            && var g := GetReq(f);
               && g.free == p.free && g.nrFree == p.nrFree && g.slots[i].inFlight && g.ios.Keys == p.ios.Keys
               && (forall j | 0 <= j < |p.slots| && j != i :: g.slots[j] == p.slots[j])
               && (forall id | id in p.ios && id != Slot(i) :: g.ios[id] == p.ios[id])
  {
    var f := FreeReq(p, i);
    assert f.free[1..] == p.free;
    assert GetReq(f).ios == p.ios[Slot(i) := GetReq(f).ios[Slot(i)]];
  }

  // ---------------------------------------------------------------------------
  // File callbacks

  /** Slot i's object is rewritten to `io`, its container to `q`, and submitted. */
  function Rearm(p: Proc, i: nat, io: Io, q: Preq, head: nat): (r: Proc)
    requires i < |p.slots| && Slot(i) in p.ios
    ensures |r.slots| == |p.slots|
  {
    Submit(p.(ios := p.ios[Slot(i) := io], slots := p.slots[i := q]), Slot(i), head)
  }

  /** free(wreq->data) and the two resets after it */
  function DropPath(p: Proc, i: nat): (r: Proc)
    requires i < |p.slots|
    ensures |r.slots| == |p.slots|
  {
    var q := p.slots[i];
    if q.data.Some? && q.data.value !in p.strs then Fault(p)
    else
      p.(strs := if q.data.Some? then p.strs - {q.data.value} else p.strs,
         slots := p.slots[i := q.(data := None, data2 := 0)])
  }

  function CloseFile(p: Proc, fd: int): (r: Proc)
    ensures |r.slots| == |p.slots|
  {
    if fd in p.fds then p.(fds := p.fds - {fd}) else Fault(p)
  }

  function Settle(p: Proc, i: nat, st: JobStatus): (r: Proc)
    requires i < |p.slots|
    ensures |r.slots| == |p.slots|
  {
    var j := p.slots[i].job;
    if j < |p.jobs| then p.(jobs := p.jobs[j := p.jobs[j].(status := st)]) else p
  }

  /** hasher_update from the buffer the request names */
  function Feed(p: Proc, i: nat, n: nat): (r: Proc)
    requires i < |p.slots| && Slot(i) in p.ios
    ensures |r.slots| == |p.slots|
  {
    var a := p.ios[Slot(i)].addr;
    if a.Buf? && a.index < |p.buffers| && n <= |p.buffers[a.index]| then
      p.(slots := p.slots[i := p.slots[i].(hasher := p.slots[i].hasher + p.buffers[a.index][..n])])
    else Fault(p)
  }

  /** hasher_finalize, processor_print_hash, verifier_verify_hash */
  function Emit(w: World, p: Proc, i: nat): (r: Proc)
    requires i < |p.slots|
    ensures |r.slots| == |p.slots|
  {
    var q := p.slots[i];
    if q.data.None? || q.data.value !in p.strs || q.data2 > |p.strs[q.data.value].path| then Fault(p)
    else
      var path, hash := p.strs[q.data.value].path, w.hash(q.hasher);
      var p1 := Settle(p, i, Hashed(|p.emitted|)).(emitted := p.emitted + [Emission(q.job, path, hash)]);
      if p.connected then p1.(sent := p.sent + [Sent(hash, path[..q.data2])])
      else p1.(status := NoConnection)
  }

  /** The `free:` label of on_file_read */
  function Retire(p: Proc, i: nat): (r: Proc)
    requires i < |p.slots| && Slot(i) in p.ios
    ensures |r.slots| == |p.slots|
  {
    var fd := p.ios[Slot(i)].fd;
    CloseFile(FreeReq(DropPath(p, i), i), fd)
  }

  function OnRead(w: World, p: Proc, i: nat, res: int, head: nat): (r: Proc)
    requires i < |p.slots| && Slot(i) in p.ios
    ensures |r.slots| == |p.slots|
  {
    if res < 0 then Retire(Settle(p, i, ReadFailed), i)
    else
      var p1 := Feed(p, i, res);
      if p1.status != Running then p1
      else if res == 0 then
        var p2 := Emit(w, p1, i);
        if p2.status != Running then p2 else Retire(p2, i)
      else
        var io := p1.ios[Slot(i)];
        Rearm(p1, i, io.(off := io.off + res), p1.slots[i], head)
  }

  /** A slot given up with its string freed and its descriptor closed. */
  function Retired(p: Proc, i: nat, ptr: nat, fd: int): Proc
    requires i < |p.slots| && Slot(i) in p.ios
  {
    p.(ios := p.ios[Slot(i) := p.ios[Slot(i)].(loc := Free)],
       free := [i] + p.free, nrFree := p.nrFree + 1,
       slots := p.slots[i := p.slots[i].(data := None, data2 := 0, inFlight := false)],
       strs := p.strs - {ptr}, fds := p.fds - {fd})
  }

  lemma RetireForm(p: Proc, i: nat, ptr: nat)
    requires i < |p.slots| && Slot(i) in p.ios && p.slots[i].data == Some(ptr) && ptr in p.strs
    requires p.ios[Slot(i)].fd in p.fds
    ensures Retire(p, i) == Retired(p, i, ptr, p.ios[Slot(i)].fd)
  {
    var p1 := DropPath(p, i);
    assert FreeReq(p1, i).slots == p.slots[i := p.slots[i].(data := None, data2 := 0, inFlight := false)];
  }

  /** A slot whose path, job and descriptor are all live. */
  ghost predicate Equipped(p: Proc, i: nat, ptr: nat) {
    && i < |p.slots| && Slot(i) in p.ios && p.slots[i].data == Some(ptr) && ptr in p.strs
    && p.ios[Slot(i)].fd in p.fds && p.slots[i].job < |p.jobs|
    && p.slots[i].data2 <= |p.strs[ptr].path|
  }

  lemma ReadFailForm(w: World, p: Proc, i: nat, ptr: nat, res: int, head: nat)
    requires Equipped(p, i, ptr) && res < 0
    ensures var j := p.slots[i].job;
            OnRead(w, p, i, res, head)
            == Retired(p.(jobs := p.jobs[j := p.jobs[j].(status := ReadFailed)]), i, ptr, p.ios[Slot(i)].fd)
  {
    RetireForm(Settle(p, i, ReadFailed), i, ptr);
  }

  lemma FeedNothing(p: Proc, i: nat)
    requires i < |p.slots| && Slot(i) in p.ios && i < |p.buffers| && p.ios[Slot(i)].addr == Buf(i)
    ensures Feed(p, i, 0) == p
  {
    var q := p.slots[i];
    assert q.hasher + p.buffers[i][..0] == q.hasher;
    assert p.slots[i := q] == p.slots;
  }

  lemma EofForm(w: World, p: Proc, i: nat, ptr: nat, head: nat)
    requires Equipped(p, i, ptr) && p.status == Running && p.connected
    requires i < |p.buffers| && p.ios[Slot(i)].addr == Buf(i)
    ensures var j, path, hash := p.slots[i].job, p.strs[ptr].path, w.hash(p.slots[i].hasher);
            OnRead(w, p, i, 0, head)
            == Retired(p.(jobs := p.jobs[j := p.jobs[j].(status := Hashed(|p.emitted|))],
                          emitted := p.emitted + [Emission(j, path, hash)],
                          sent := p.sent + [Sent(hash, path[..p.slots[i].data2])]),
                       i, ptr, p.ios[Slot(i)].fd)
  {
    FeedNothing(p, i);
    RetireForm(Emit(w, p, i), i, ptr);
  }

  lemma NoConnectionForm(w: World, p: Proc, i: nat, ptr: nat, head: nat)
    requires Equipped(p, i, ptr) && p.status == Running && !p.connected
    requires i < |p.buffers| && p.ios[Slot(i)].addr == Buf(i)
    ensures var j, path, hash := p.slots[i].job, p.strs[ptr].path, w.hash(p.slots[i].hasher);
            OnRead(w, p, i, 0, head)
            == p.(jobs := p.jobs[j := p.jobs[j].(status := Hashed(|p.emitted|))],
                  emitted := p.emitted + [Emission(j, path, hash)], status := NoConnection)
  {
    FeedNothing(p, i);
  }

  function FedIo(io: Io, n: nat): Io {
    io.(off := io.off + n)
  }

  function FedSlot(q: Preq, bytes: Bytes): Preq {
    q.(hasher := q.hasher + bytes)
  }

  lemma ReadMoreForm(w: World, p: Proc, i: nat, res: nat, head: nat)
    requires i < |p.slots| && Slot(i) in p.ios && res > 0 && p.status == Running
    requires i < |p.buffers| && res <= |p.buffers[i]| && p.ios[Slot(i)].addr == Buf(i)
    ensures OnRead(w, p, i, res, head)
            == Rearm(p, i, FedIo(p.ios[Slot(i)], res), FedSlot(p.slots[i], p.buffers[i][..res]), head)
  {
    var q := FedSlot(p.slots[i], p.buffers[i][..res]);
    assert Feed(p, i, res) == p.(slots := p.slots[i := q]);
    assert p.slots[i := q][i := q] == p.slots[i := q];
  }

  function OpenedIo(io: Io, q: Preq, fd: int): Io {
    io.(opcode := ReadOp, fd := fd, addr := Buf(q.buffer), len := READ_BUF_SIZE, off := 0,
        callback := OnFileRead)
  }

  function OnOpen(p: Proc, i: nat, res: int, head: nat): (r: Proc)
    requires i < |p.slots| && Slot(i) in p.ios
    ensures |r.slots| == |p.slots|
  {
    if res < 0 then FreeReq(DropPath(Settle(p, i, OpenFailed), i), i)
    else Rearm(p, i, OpenedIo(p.ios[Slot(i)], p.slots[i], res), p.slots[i].(hasher := []), head)
  }

  lemma OpenedForm(p: Proc, i: nat, res: nat, head: nat)
    requires i < |p.slots| && Slot(i) in p.ios
    ensures OnOpen(p, i, res, head)
            == Rearm(p, i, OpenedIo(p.ios[Slot(i)], p.slots[i], res), p.slots[i].(hasher := []), head)
  {
  }

  lemma NotOpenedForm(p: Proc, i: nat, ptr: nat, res: int, head: nat)
    requires i < |p.slots| && Slot(i) in p.ios && p.slots[i].data == Some(ptr) && ptr in p.strs
    requires p.slots[i].job < |p.jobs| && res < 0 && -1 !in p.fds
    ensures var j := p.slots[i].job;
            OnOpen(p, i, res, head)
            == Retired(p.(jobs := p.jobs[j := p.jobs[j].(status := OpenFailed)]), i, ptr, -1)
  {
    var p1 := Settle(p, i, OpenFailed);
    assert p1.fds - {-1} == p1.fds;
    assert OnOpen(p, i, res, head).slots == Retired(p1, i, ptr, -1).slots;
  }

  // ---------------------------------------------------------------------------
  // Queue callback

  /** What queue_consume_try gave: an event, a token without an event, or no token. */
  datatype Got = GotEvent(path: Bytes) | GotNothing | GotAgain

  const AT_FDCWD: int := -100
  const EBADF: int := 9
  const EINVAL: int := 22
  const O_RDONLY: nat := 0
  const POLL_ADD_MULTI: nat := 1
  const POLL_FLAGS: nat := 0x1000_0001  // EPOLLIN | EPOLLEXCLUSIVE

  function OpenIo(io: Io, ptr: nat): Io {
    io.(opcode := OpenAt, fd := AT_FDCWD, addr := Str(ptr), len := 0, flags := O_RDONLY,
        callback := OnFileOpen)
  }

  /** With no token the event is still zeroed, and the empty path is opened. */
  function EventPath(got: Got): Bytes {
    if got.GotEvent? then got.path else []
  }

  /** The slot taken for an event, before submission; `ptr` is what strdup returned. */
  function WithJob(p: Proc, i: nat, got: Got, ptr: nat): (r: Proc)
    ensures |r.slots| == |p.slots|
  {
    p.(strs := p.strs[ptr := PathString(EventPath(got), i)],
       jobs := p.jobs + [Job(EventPath(got), InSlot(i))])
  }

  function OpenEvent(p: Proc, got: Got, ptr: nat, head: nat): (r: Proc)
    requires p.free != [] && p.free[0] < |p.slots| && Slot(p.free[0]) in p.ios
    ensures |r.slots| == |p.slots|
  {
    var i := p.free[0];
    var p1 := GetReq(p);
    if p1.status != Running then p1
    else
      Rearm(WithJob(p1, i, got, ptr), i, OpenIo(p1.ios[Slot(i)], ptr),
            p1.slots[i].(data := Some(ptr), data2 := |EventPath(got)|, job := |p1.jobs|), head)
  }

  lemma OpenEventFrame(p: Proc, got: Got, ptr: nat, head: nat)
    requires p.free != [] && p.free[0] < |p.slots| && Slot(p.free[0]) in p.ios && p.seen <= head
    ensures var r := OpenEvent(p, got, ptr, head); r.ios.Keys == p.ios.Keys && r.seen <= head
  {
    var i, p1 := p.free[0], GetReq(p);
    assert p1.ios.Keys == p.ios.Keys;
    if p1.status == Running {
      RearmFrame(WithJob(p1, i, got, ptr), i, OpenIo(p1.ios[Slot(i)], ptr),
                 p1.slots[i].(data := Some(ptr), data2 := |EventPath(got)|, job := |p1.jobs|), head);
    }
  }

  lemma RearmFrame(p: Proc, i: nat, io: Io, q: Preq, head: nat)
    requires i < |p.slots| && Slot(i) in p.ios
    ensures var r := Rearm(p, i, io, q, head); r.ios.Keys == p.ios.Keys && r.seen <= head
  {
    var p1 := p.(ios := p.ios[Slot(i) := io], slots := p.slots[i := q]);
    assert p1.ios.Keys == p.ios.Keys;
    assert Submit(p1, Slot(i), head).ios.Keys == p1.ios.Keys;
  }

  function OnQueue(p: Proc, res: int, more: bool, got: Got, ptr: nat, head1: nat, head2: nat): (r: Proc)
    requires Poll in p.ios
    requires p.free != [] ==> p.free[0] < |p.slots| && Slot(p.free[0]) in p.ios
    ensures |r.slots| == |p.slots|
  {
    if res < 0 then
      if res == -EBADF || res == -EINVAL then p.(status := Exited) else Submit(p, Poll, head1)
    else if got.GotNothing? then
      if more then p else Submit(p, Poll, head2)
    else if p.free == [] then p.(status := Exited)
    else
      var p1 := OpenEvent(p, got, ptr, head1);
      if p1.status != Running || more then p1 else Submit(p1, Poll, head2)
  }

  // ---------------------------------------------------------------------------
  // Verifier callbacks

  const TIMEOUT_UPDATE: nat := 2

  function UpdateIo(io: Io): Io {
    io.(opcode := TimeoutRemove, flags := TIMEOUT_UPDATE, addr := VerifierBase, off := EXPIRY,
        callback := OnTimeoutUpdate, fd := 0, len := 1)
  }

  function TimerIo(io: Io): Io {
    io.(opcode := TimeoutOp, addr := ExpiryAddr, off := 0, flags := 0, callback := OnTimeout,
        fd := 0, len := 1)
  }

  /** verifier_flush_egress; `flushOk` is false when the flush or its timeout is negative. */
  function FlushEgress(p: Proc, flushOk: bool, head: nat): (r: Proc)
    requires Timer in p.ios
    requires p.free != [] ==> p.free[0] < |p.slots| && Slot(p.free[0]) in p.ios
    ensures |r.slots| == |p.slots|
  {
    if !flushOk then p.(status := Exited)
    else if p.ios[Timer].opcode == TimeoutOp then
      if p.free == [] then p.(status := Exited)
      else
        var i := p.free[0];
        var p1 := GetReq(p);
        if p1.status != Running then p1
        else Rearm(p1, i, UpdateIo(p1.ios[Slot(i)]), p1.slots[i], head)
    else
      Submit(SetIo(p, Timer, TimerIo(p.ios[Timer])), Timer, head)
  }

  function OnSocketReady(p: Proc, res: int): (r: Proc)
    requires Conn in p.ios
    ensures |r.slots| == |p.slots|
  {
    SetIo(p, Conn, p.ios[Conn].(opcode := ConnectOp, fd := res, addr := RemoteAddr, off := 16, len := 0,
                                flags := 0, callback := OnSocketConnect))
  }

  /** recv_req armed once the connection object exists; conn_req is done with. */
  function OnConnected(p: Proc): (r: Proc)
    requires Recv in p.ios && Conn in p.ios
    ensures |r.slots| == |p.slots|
  {
    SetIo(SetIo(p, Conn, p.ios[Conn].(loc := Parked)), Recv,
          p.ios[Recv].(opcode := ReadOp, fd := p.ios[Conn].fd, addr := ReadBuf, off := 0, len := 65535,
                       flags := 0, callback := OnSocketRead)).(connected := true)
  }

  // ---------------------------------------------------------------------------
  // Setup

  /** The slab after the setup loop, every list link in place. */
  function Slab(n: nat): seq<Preq> {
    seq(n, i requires 0 <= i < n => Preq([], i, None, 0, false, 0))
  }

  function FreshIo(id: ReqId): Io {
    match id
    case Poll => Io(PollAdd, QUEUE_EFD, Null, POLL_ADD_MULTI, 0, POLL_FLAGS, OnQueueEvent, Held)
    case Conn => Io(SocketOp, 2, Null, 17, 2, 0, OnSocketCreate, Held)
    case Slot(_) => Io(Nop, 0, Null, 0, 0, 0, NoCallback, Free)
    case _ => Io(Nop, 0, Null, 0, 0, 0, NoCallback, Parked)
  }

  /** Memory before anything is submitted. */
  function Blank(n: nat, buffers: seq<Bytes>): Proc {
    Proc(map id | id in Ids(n) :: FreshIo(id), Slab(n), seq(n, i requires 0 <= i < n => i), n, map[], map[],
         buffers, false, [], 0, [], [], [], [], Running)
  }

  /** After the setup loop the slots are listed in order, each with its own buffer and idle. */
  lemma SlabInOrder(n: nat, buffers: seq<Bytes>)
    ensures var p := Blank(n, buffers);
            && |p.free| == |p.slots| == p.nrFree == n
            && forall i | 0 <= i < n :: p.free[i] == i && p.slots[i].buffer == i && !p.slots[i].inFlight
  {
  }

  /** processor_setup and verifier_init: the poll and the socket request are submitted. */
  function Setup(n: nat, buffers: seq<Bytes>): Proc {
    Submit(Submit(Blank(n, buffers), Poll, 0), Conn, 0)
  }
}
