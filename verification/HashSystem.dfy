/** A processor thread together with the kernel, as a state machine over every
    interleaving of submissions, completions and callbacks.

    Kernel contract: SQEs are consumed in order; each non-multishot SQE gets one CQE;
    only a poll that asked for it is multishot, an error or a CQE without F_MORE ends it, and
    it reports only events it asked for; a timeout update fails unless it names the user_data
    of a timeout; opening yields an error or a descriptor not in use; reading yields an error,
    or 0 exactly at end of file, or any non-empty prefix of what remains that fits the buffer.
    A load of the SQ head may return any value from the last one loaded up to what was
    consumed. */
module HashSystem {
  import opened Requests
  import opened Runtime

  datatype Sys = Sys(
    proc: Proc,
    consumed: nat,        // SQEs the kernel has taken
    done: set<nat>,       // numbers of SQEs it has finished
    posted: seq<Cqe>,     // every CQE posted
    reaped: nat)          // how many of them the loop has dispatched

  /** Choices outside the processor that one callback can observe: what the queue gave, the
      address strdup returned, whether setting the connection up and whether flushing it
      succeeded (a failure exits), and the SQ heads loaded by the two submissions. */
  datatype Env = Env(got: Got, ptr: nat, init: bool, ok: bool, head1: nat, head2: nat)

  datatype Action =
    | Consume(upto: nat)
    | Complete(pos: nat, res: int, more: bool)
    | Dispatch(env: Env)

  // ---------------------------------------------------------------------------
  // Kernel steps

  /** The kernel takes SQEs up to (not including) number `upto`. */
  function Take(s: Sys, upto: nat): Sys {
    s.(consumed := upto)
  }

  ghost predicate ReadResult(content: Bytes, off: nat, len: nat, res: int) {
    || res < 0
    || (off <= |content| && res <= len && off + res <= |content| && (res == 0 <==> off == |content|))
  }

  /** `addr` is the user_data of a timeout in the kernel. */
  ghost predicate NamesTimeout(s: Sys, addr: Addr) {
    exists q | 0 <= q < |s.proc.subs| ::
      q < s.consumed && q !in s.done && s.proc.subs[q].opcode == TimeoutOp && addr == Req(s.proc.subs[q].id)
  }

  ghost predicate CanComplete(w: World, s: Sys, pos: nat, res: int, more: bool) {
    && pos < s.consumed && pos < |s.proc.subs| && pos !in s.done
    && var sqe := s.proc.subs[pos];
       && (more ==> sqe.opcode == PollAdd && sqe.len == POLL_ADD_MULTI && res >= 0)
       && (sqe.opcode == PollAdd && res >= 0 ==> sqe.flags == POLL_FLAGS)
       && (sqe.opcode == TimeoutRemove && res >= 0 ==> NamesTimeout(s, sqe.addr))
       && (sqe.opcode == OpenAt && res >= 0 ==>
             && res !in s.proc.fds && sqe.addr.Str?
             && (sqe.addr.ptr in s.proc.strs ==> s.proc.strs[sqe.addr.ptr].path in w.files))
       && (sqe.opcode == ReadOp && sqe.id.Slot? && res >= 0 ==>
             && sqe.fd in s.proc.fds && s.proc.fds[sqe.fd].path in w.files
             && ReadResult(w.files[s.proc.fds[sqe.fd].path], sqe.off, sqe.len, res))
  }

  /** Any other open could change the file that is to be hashed, or find another one. */
  predicate ReadsOnly(sqe: Sqe) {
    sqe.flags == O_RDONLY && sqe.fd == AT_FDCWD
  }

  /** Memory and descriptors after the kernel performs an SQE with result `res`. */
  function Perform(w: World, p: Proc, sqe: Sqe, res: int): Proc {
    if sqe.opcode == OpenAt then
      if !sqe.addr.Str? || sqe.addr.ptr !in p.strs || !sqe.id.Slot? || !ReadsOnly(sqe) then Fault(p)
      else if res < 0 then p
      else p.(fds := p.fds[res := OpenFile(p.strs[sqe.addr.ptr].path, sqe.id.index)])
    else if sqe.opcode == ReadOp && sqe.id.Slot? && res > 0 then
      if sqe.fd !in p.fds || p.fds[sqe.fd].path !in w.files then Fault(p)
      else
        var content := w.files[p.fds[sqe.fd].path];
        if !sqe.addr.Buf? || sqe.addr.index >= |p.buffers| || res > |p.buffers[sqe.addr.index]|
           || sqe.off + res > |content| then Fault(p)
        else
          var b := p.buffers[sqe.addr.index];
          p.(buffers := p.buffers[sqe.addr.index := content[sqe.off..sqe.off + res] + b[res..]])
    else p
  }

  /** Contents of the slab, buffers, strings, descriptors and logs may change freely. */
  ghost predicate SameOwnership(p: Proc, r: Proc) {
    && r.ios == p.ios && r.subs == p.subs && r.seen == p.seen && r.lost == p.lost
    && r.free == p.free && r.nrFree == p.nrFree && |r.slots| == |p.slots|
    && (forall i | 0 <= i < |p.slots| :: r.slots[i].inFlight == p.slots[i].inFlight)
  }

  lemma PerformFrame(w: World, p: Proc, sqe: Sqe, res: int)
    ensures SameOwnership(p, Perform(w, p, sqe, res))
    ensures var r := Perform(w, p, sqe, res);
            && r.slots == p.slots && r.jobs == p.jobs && r.emitted == p.emitted && r.sent == p.sent
            && r.strs == p.strs && r.connected == p.connected
  {
    var r := Perform(w, p, sqe, res);
    assert r == p.(fds := r.fds, buffers := r.buffers, status := r.status);
  }

  /** The final CQE of SQE `pos`, memory being `p`. */
  function Finish(s: Sys, p: Proc, id: ReqId, pos: nat, res: int): Sys
    requires id in p.ios
  {
    Sys(SetIo(p, id, p.ios[id].(loc := InCq(pos, |s.posted|))), s.consumed, s.done + {pos},
        s.posted + [Cqe(id, res, false, pos)], s.reaped)
  }

  function Post(w: World, s: Sys, pos: nat, res: int, more: bool): Sys
    requires pos < |s.proc.subs| && s.proc.subs[pos].id in s.proc.ios
  {
    var sqe := s.proc.subs[pos];
    var p := Perform(w, s.proc, sqe, res);
    if more || sqe.id !in p.ios then s.(proc := p, posted := s.posted + [Cqe(sqe.id, res, more, pos)])
    else Finish(s, p, sqe.id, pos, res)
  }

  // ---------------------------------------------------------------------------
  // Callbacks

  /** The loop hands CQE number `reaped` to its request. */
  function Reap(s: Sys): Sys
    requires s.reaped < |s.posted| && s.posted[s.reaped].id in s.proc.ios
  {
    var cqe := s.posted[s.reaped];
    s.(reaped := s.reaped + 1,
       proc := if cqe.more then s.proc
               else SetIo(s.proc, cqe.id, s.proc.ios[cqe.id].(loc := Held)))
  }

  ghost predicate Shape(p: Proc) {
    && HasIds(p)
    && (p.free != [] ==> p.free[0] < |p.slots|)
  }

  function Callback(w: World, p: Proc, cqe: Cqe, env: Env): (r: Proc)
    requires Shape(p) && cqe.id in p.ios
    ensures |r.slots| == |p.slots|
  {
    match p.ios[cqe.id].callback
    case OnQueueEvent => OnQueue(p, cqe.res, cqe.more, env.got, env.ptr, env.head1, env.head2)
    case OnFileOpen =>
      if cqe.id.Slot? then OnOpen(p, cqe.id.index, cqe.res, env.head1) else Fault(p)
    case OnFileRead =>
      if cqe.id.Slot? then OnRead(w, p, cqe.id.index, cqe.res, env.head1) else Fault(p)
    case OnTimeoutUpdate =>
      if cqe.id.Slot? then FreeReq(p, cqe.id.index) else Fault(p)
    case OnTimeout => SetIo(p, cqe.id, p.ios[cqe.id].(loc := Parked))
    case OnSocketCreate =>
      if cqe.res < 0 then p.(status := Exited)
      else Submit(OnSocketReady(p, cqe.res), Conn, env.head1)
    case OnSocketConnect =>
      if cqe.res < 0 || !env.init then p.(status := Exited)
      else AfterFirst(Submit(OnConnected(p), Recv, env.head1), env)
    case OnSocketRead =>
      if cqe.res < 0 then p.(status := Exited)
      else AfterFirst(Submit(p, Recv, env.head1), env)
    case NoCallback => Fault(p)
  }

  function AfterFirst(p: Proc, env: Env): (r: Proc)
    requires Shape(p)
    ensures |r.slots| == |p.slots|
  {
    FlushEgress(p, env.ok, env.head2)
  }

  /** The kernel has consumed as far as the SQ head that was loaded. */
  function CaughtUp(s: Sys, p: Proc): Sys {
    s.(proc := p, consumed := if p.seen > s.consumed then p.seen else s.consumed)
  }

  /** Reaping and the callback are one step; whatever SQ head the callback's loads returned,
      the kernel has by then consumed that far. */
  function Serve(w: World, s: Sys, env: Env): Sys
    requires s.reaped < |s.posted| && s.posted[s.reaped].id in s.proc.ios && Shape(s.proc)
  {
    CaughtUp(Reap(s), Callback(w, Reap(s).proc, s.posted[s.reaped], env))
  }

  /** Delivery changes no request's callback. */
  lemma ReapShape(s: Sys)
    requires s.reaped < |s.posted| && s.posted[s.reaped].id in s.proc.ios && Shape(s.proc)
    ensures Shape(Reap(s).proc) && Reap(s).proc.ios.Keys == s.proc.ios.Keys
    ensures Reap(s).proc.ios[s.posted[s.reaped].id].callback == s.proc.ios[s.posted[s.reaped].id].callback
  {
    assert Reap(s).proc.ios.Keys == s.proc.ios.Keys;
  }

  ghost predicate Enabled(w: World, s: Sys, a: Action) {
    && s.proc.status == Running
    && match a
       case Consume(upto) => s.consumed <= upto <= |s.proc.subs|
       case Complete(pos, res, more) =>
         CanComplete(w, s, pos, res, more) && s.proc.subs[pos].id in s.proc.ios
       case Dispatch(env) =>
         && s.reaped < |s.posted| && s.posted[s.reaped].id in s.proc.ios && Shape(s.proc)
         && s.proc.seen <= env.head1 <= env.head2
         && env.ptr !in s.proc.strs
  }

  function Apply(w: World, s: Sys, a: Action): Sys
    requires Enabled(w, s, a)
  {
    match a
    case Consume(upto) => Take(s, upto)
    case Complete(pos, res, more) => Post(w, s, pos, res, more)
    case Dispatch(env) => Serve(w, s, env)
  }

  function Init(n: nat, buffers: seq<Bytes>): Sys {
    Sys(Setup(n, buffers), 0, {}, [], 0)
  }

  ghost predicate Runs(w: World, s: Sys, acts: seq<Action>, t: Sys)
    decreases |acts|
  {
    if acts == [] then t == s
    else Enabled(w, s, acts[0]) && Runs(w, Apply(w, s, acts[0]), acts[1..], t)
  }

  lemma StepKeepsSize(w: World, s: Sys, a: Action)
    requires Enabled(w, s, a)
    ensures |Apply(w, s, a).proc.slots| == |s.proc.slots|
  {
    match a
    case Consume(_) =>
    case Complete(pos, res, more) => PerformFrame(w, s.proc, s.proc.subs[pos], res);
    case Dispatch(env) =>
      ReapShape(s);
  }

  lemma {:induction false} RunKeepsSize(w: World, s: Sys, acts: seq<Action>, t: Sys)
    requires Runs(w, s, acts, t)
    ensures |t.proc.slots| == |s.proc.slots|
    decreases |acts|
  {
    if acts != [] {
      StepKeepsSize(w, s, acts[0]);
      RunKeepsSize(w, Apply(w, s, acts[0]), acts[1..], t);
    }
  }
}
