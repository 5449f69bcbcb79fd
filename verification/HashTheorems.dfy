/** What holds in every run of a processor thread and the kernel. */
module HashTheorems {
  import opened Requests
  import opened Runtime
  import opened HashSystem
  import opened Ownership
  import opened FileState
  import opened KernelSteps
  import opened FileSteps
  import opened LoopSteps
  import opened HashRuns

  lemma SubmitShape(p: Proc, id: ReqId, head: nat)
    requires Shape(p) && id in p.ios
    ensures Shape(Submit(p, id, head))
  {
    assert Submit(p, id, head).ios.Keys == p.ios.Keys;
  }

  ghost predicate Serving(w: World, s: Sys, t: Sys, env: Env, cb: Callback) {
    && Inv(w, s) && Enabled(w, s, Dispatch(env)) && t == Serve(w, s, env)
    && s.proc.ios[s.posted[s.reaped].id].callback == cb
  }

  lemma DispatchKeeps(w: World, s: Sys, env: Env)
    requires Inv(w, s) && Enabled(w, s, Dispatch(env))
    ensures Inv(w, Serve(w, s, env))
  {
    var t, cb := Serve(w, s, env), s.proc.ios[s.posted[s.reaped].id].callback;
    CallbackOwner(w, s, s.posted[s.reaped].id);
    if cb == OnQueueEvent {
      DispatchQueue(w, s, t, env);
    } else if cb == OnFileOpen {
      DispatchOpen(w, s, t, env);
    } else if cb == OnFileRead {
      DispatchRead(w, s, t, env);
    } else if cb == OnTimeoutUpdate {
      DispatchUpdate(w, s, t, env);
    } else if cb == OnTimeout {
      DispatchTimeout(w, s, t, env);
    } else if cb == OnSocketCreate {
      DispatchCreate(w, s, t, env);
    } else if cb == OnSocketConnect {
      DispatchConnect(w, s, t, env);
    } else {
      DispatchSocketRead(w, s, t, env);
    }
  }

  lemma DispatchQueue(w: World, s: Sys, t: Sys, env: Env)
    requires Serving(w, s, t, env, OnQueueEvent)
    ensures Inv(w, t)
  {
    CallbackOwner(w, s, s.posted[s.reaped].id);
    ReapShape(s);
    QueueStep(w, s, t, env);
  }

  lemma DispatchOpen(w: World, s: Sys, t: Sys, env: Env)
    requires Serving(w, s, t, env, OnFileOpen)
    ensures Inv(w, t)
  {
    CallbackOwner(w, s, s.posted[s.reaped].id);
    ReapShape(s);
    OpenStep(w, s, t, s.posted[s.reaped].id.index, env.head1);
  }

  lemma DispatchRead(w: World, s: Sys, t: Sys, env: Env)
    requires Serving(w, s, t, env, OnFileRead)
    ensures Inv(w, t)
  {
    CallbackOwner(w, s, s.posted[s.reaped].id);
    ReapShape(s);
    ReadStep(w, s, t, s.posted[s.reaped].id.index, env.head1);
  }

  lemma DispatchUpdate(w: World, s: Sys, t: Sys, env: Env)
    requires Serving(w, s, t, env, OnTimeoutUpdate)
    ensures Inv(w, t)
  {
    CallbackOwner(w, s, s.posted[s.reaped].id);
    ReapShape(s);
    UpdateStep(w, s, t, s.posted[s.reaped].id.index);
  }

  lemma DispatchTimeout(w: World, s: Sys, t: Sys, env: Env)
    requires Serving(w, s, t, env, OnTimeout)
    ensures Inv(w, t)
  {
    CallbackOwner(w, s, s.posted[s.reaped].id);
    ReapShape(s);
    ReapKeeps(s);
    TimeoutStep(w, s, t, env);
  }

  /** A callback that exits at once. */
  lemma DispatchExit(w: World, s: Sys, t: Sys)
    requires Inv(w, s) && s.proc.status == Running && s.reaped < |s.posted|
    requires s.posted[s.reaped].id in s.proc.ios && !s.posted[s.reaped].id.Slot?
    requires t.proc == Reap(s).proc.(status := Exited)
    ensures Inv(w, t)
  {
    ReapFiles(s, s.posted[s.reaped].id);
    EmissionsGrow(w, s.proc, t.proc);
  }

  lemma DispatchCreate(w: World, s: Sys, t: Sys, env: Env)
    requires Serving(w, s, t, env, OnSocketCreate)
    ensures Inv(w, t)
  {
    CallbackOwner(w, s, s.posted[s.reaped].id);
    ReapShape(s);
    if s.posted[s.reaped].res < 0 {
      DispatchExit(w, s, t);
    } else {
      CreateStep(w, s, t, env);
    }
  }

  /** on_socket_connect as a step, once connected. */
  lemma ServeConnect(w: World, s: Sys, env: Env)
    requires s.reaped < |s.posted| && s.posted[s.reaped].id in s.proc.ios && Shape(s.proc)
    requires s.proc.ios[s.posted[s.reaped].id].callback == OnSocketConnect
    requires s.posted[s.reaped].res >= 0 && env.init
    ensures Shape(Reap(s).proc) && Shape(Submit(OnConnected(Reap(s).proc), Recv, env.head1))
    ensures Serve(w, s, env)
         == CaughtUp(Reap(s), AfterFirst(Submit(OnConnected(Reap(s).proc), Recv, env.head1), env))
  {
    ReapShape(s);
    assert OnConnected(Reap(s).proc).ios.Keys == Reap(s).proc.ios.Keys;
    SubmitShape(OnConnected(Reap(s).proc), Recv, env.head1);
  }

  lemma DispatchConnect(w: World, s: Sys, t: Sys, env: Env)
    requires Serving(w, s, t, env, OnSocketConnect)
    ensures Inv(w, t)
  {
    CallbackOwner(w, s, s.posted[s.reaped].id);
    if s.posted[s.reaped].res < 0 || !env.init {
      ReapShape(s);
      DispatchExit(w, s, t);
    } else {
      ServeConnect(w, s, env);
      ConnectStep(w, s, t, env);
    }
  }

  lemma DispatchSocketRead(w: World, s: Sys, t: Sys, env: Env)
    requires Serving(w, s, t, env, OnSocketRead)
    ensures Inv(w, t)
  {
    CallbackOwner(w, s, s.posted[s.reaped].id);
    ReapShape(s);
    if s.posted[s.reaped].res < 0 {
      DispatchExit(w, s, t);
    } else {
      SubmitShape(Reap(s).proc, Recv, env.head1);
      SocketReadStep(w, s, t, env);
    }
  }

  lemma StepKeeps(w: World, s: Sys, a: Action)
    requires Inv(w, s) && Enabled(w, s, a)
    ensures Inv(w, Apply(w, s, a))
  {
    match a {
      case Consume(upto) => ConsumeKeeps(w, s, upto);
      case Complete(pos, res, more) => CompleteKeeps(w, s, pos, res, more);
      case Dispatch(env) => DispatchKeeps(w, s, env);
    }
  }

  lemma {:induction false} RunKeeps(w: World, s: Sys, acts: seq<Action>, t: Sys)
    requires Inv(w, s) && Runs(w, s, acts, t)
    ensures Inv(w, t)
    decreases |acts|
  {
    if acts != [] {
      StepKeeps(w, s, acts[0]);
      RunKeeps(w, Apply(w, s, acts[0]), acts[1..], t);
    }
  }

  // ---------------------------------------------------------------------------
  // The initial state

  ghost predicate Buffers(n: nat, buffers: seq<Bytes>) {
    |buffers| == n && forall i | 0 <= i < n :: |buffers[i]| == READ_BUF_SIZE
  }

  lemma BlankHolds(w: World, n: nat, buffers: seq<Bytes>)
    requires Buffers(n, buffers)
    ensures var s := Sys(Blank(n, buffers), 0, {}, [], 0);
            Mid(w, s) && AtHand(s.proc, Poll) && AtHand(s.proc, Conn)
            && (forall id | id in s.proc.ios && id != Poll && id != Conn :: AtRest(id, s.proc.ios[id].loc))
  {
    var s := Sys(Blank(n, buffers), 0, {}, [], 0);
    BlankIds(n, buffers);
    forall i | 0 <= i < n
      ensures i in s.proc.free && s.proc.ios[Slot(i)].loc == Free && !s.proc.slots[i].inFlight
    {
      assert s.proc.free[i] == i;
    }
    assert FreeList(s.proc);
    assert Own(s);
    assert SlotsOk(w, s);
  }

  lemma BlankIds(n: nat, buffers: seq<Bytes>)
    ensures HasIds(Blank(n, buffers))
    ensures forall id | id in Blank(n, buffers).ios :: Blank(n, buffers).ios[id] == FreshIo(id)
  {
    assert forall i | 0 <= i < n :: Slot(i) in Ids(n);
  }

  lemma InitHolds(w: World, n: nat, buffers: seq<Bytes>)
    requires Buffers(n, buffers)
    ensures Inv(w, Init(n, buffers)) && Init(n, buffers).proc.status == Running
    ensures |Init(n, buffers).proc.slots| == n
  {
    BlankHolds(w, n, buffers);
    var s0 := Sys(Blank(n, buffers), 0, {}, [], 0);
    SubmitSingle(w, s0, Poll, 0);
    SubmitFiles(s0.proc, Poll, 0);
    var s1 := CaughtUp(s0, Submit(s0.proc, Poll, 0));
    SubmitSingle(w, s1, Conn, 0);
    SubmitFiles(s1.proc, Conn, 0);
    assert SettledBut(s1.proc, Conn);
  }

  // ---------------------------------------------------------------------------
  // Main results.  `Reaches` quantifies over every interleaving.

  ghost predicate Reaches(w: World, n: nat, buffers: seq<Bytes>, acts: seq<Action>, t: Sys) {
    Buffers(n, buffers) && Runs(w, Init(n, buffers), acts, t)
  }

  lemma ReachesInv(w: World, n: nat, buffers: seq<Bytes>, acts: seq<Action>, t: Sys)
    requires Reaches(w, n, buffers, acts, t)
    ensures Inv(w, t) && |t.proc.slots| == n
  {
    InitHolds(w, n, buffers);
    RunKeeps(w, Init(n, buffers), acts, t);
    RunKeepsSize(w, Init(n, buffers), acts, t);
  }

  predicate OnFreeList(t: Sys, i: nat) {
    i in t.proc.free
  }

  /** Submitted, not yet taken by the kernel. */
  predicate InSubmissionRing(t: Sys, id: ReqId) {
    exists q | t.consumed <= q < |t.proc.subs| :: t.proc.subs[q].id == id
  }

  /** Taken by the kernel, not yet completed. */
  predicate InKernel(t: Sys, id: ReqId) {
    exists q | 0 <= q < |t.proc.subs| :: q < t.consumed && q !in t.done && t.proc.subs[q].id == id
  }

  /** Completed (for good), not yet reaped. */
  predicate InCompletionRing(t: Sys, id: ReqId) {
    exists k | t.reaped <= k < |t.posted| :: t.posted[k].id == id && !t.posted[k].more
  }

  predicate IsLost(t: Sys, id: ReqId) {
    exists k | 0 <= k < |t.proc.lost| :: t.proc.lost[k].id == id
  }

  function One(b: bool): nat {
    if b then 1 else 0
  }

  /** Each place a request object can be, read off its location. */
  lemma PlaceByLoc(t: Sys, id: ReqId)
    requires Own(t) && id in t.proc.ios
    ensures var loc := t.proc.ios[id].loc;
            && (InSubmissionRing(t, id) <==> loc.Pending? && loc.pos >= t.consumed)
            && (InKernel(t, id) <==> loc.Pending? && loc.pos < t.consumed)
            && (InCompletionRing(t, id) <==> loc.InCq?)
            && (IsLost(t, id) <==> loc.Lost?)
  {
    var loc := t.proc.ios[id].loc;
    assert PendingOk(t, id) && InCqOk(t, id) && LostOk(t, id);
    if InSubmissionRing(t, id) {
      var q :| t.consumed <= q < |t.proc.subs| && t.proc.subs[q].id == id;
      assert SqeOk(t, q);
    }
    if InKernel(t, id) {
      var q :| 0 <= q < |t.proc.subs| && q < t.consumed && q !in t.done && t.proc.subs[q].id == id;
      assert SqeOk(t, q);
    }
    if InCompletionRing(t, id) {
      var k :| t.reaped <= k < |t.posted| && t.posted[k].id == id && !t.posted[k].more;
      assert CqeOk(t, k);
    }
  }

  /** Ownership partition.  Between callbacks of any run, every slab slot is in exactly one
      of: free list, submission ring, kernel, completion ring, lost; in_flight is set exactly
      off the free list; it keeps its own buffer; the counter is the list's length; and no check
      ever fails. */
  lemma OwnershipPartition(w: World, n: nat, buffers: seq<Bytes>, acts: seq<Action>, t: Sys, i: nat)
    requires Reaches(w, n, buffers, acts, t) && i < n
    ensures t.proc.status != Faulted
    ensures t.proc.status == Running ==>
              && i < |t.proc.slots|
              && One(OnFreeList(t, i)) + One(InSubmissionRing(t, Slot(i))) + One(InKernel(t, Slot(i)))
                 + One(InCompletionRing(t, Slot(i))) + One(IsLost(t, Slot(i))) == 1
              && (t.proc.slots[i].inFlight <==> !OnFreeList(t, i)) && t.proc.slots[i].buffer == i
              && t.proc.nrFree == |t.proc.free|
              && (forall a, b | 0 <= a < b < |t.proc.free| :: t.proc.free[a] != t.proc.free[b])
  {
    ReachesInv(w, n, buffers, acts, t);
    if t.proc.status == Running {
      PlaceByLoc(t, Slot(i));
      assert SlotData(w, t, i);
    }
  }

  /** No object is ever submitted twice at once, nor completed twice. */
  lemma AtMostOneInFlight(w: World, n: nat, buffers: seq<Bytes>, acts: seq<Action>, t: Sys)
    requires Reaches(w, n, buffers, acts, t) && t.proc.status == Running
    ensures forall q, r | 0 <= q < r < |t.proc.subs| && q !in t.done && r !in t.done ::
              t.proc.subs[q].id != t.proc.subs[r].id
    ensures forall j, k | t.reaped <= j < k < |t.posted| && !t.posted[j].more && !t.posted[k].more ::
              t.posted[j].id != t.posted[k].id
  {
    ReachesInv(w, n, buffers, acts, t);
    forall q, r | 0 <= q < r < |t.proc.subs| && q !in t.done && r !in t.done
      ensures t.proc.subs[q].id != t.proc.subs[r].id
    {
      assert SqeOk(t, q) && SqeOk(t, r);
    }
    forall j, k | t.reaped <= j < k < |t.posted| && !t.posted[j].more && !t.posted[k].more
      ensures t.posted[j].id != t.posted[k].id
    {
      assert CqeOk(t, j) && CqeOk(t, k);
    }
  }

  /** Hash correctness.  However completions interleave and reads split, every line printed,
      and every line sent, is a job's path with the hash of that file's whole content, and a
      job is reported at most once. */
  lemma HashesAreWholeFile(w: World, n: nat, buffers: seq<Bytes>, acts: seq<Action>, t: Sys)
    requires Reaches(w, n, buffers, acts, t)
    ensures forall e | 0 <= e < |t.proc.emitted| ::
              var m := t.proc.emitted[e];
              && m.path in w.files && m.hash == w.hash(w.files[m.path])
              && m.job < |t.proc.jobs| && t.proc.jobs[m.job].path == m.path
    ensures forall e, f | 0 <= e < f < |t.proc.emitted| :: t.proc.emitted[e].job != t.proc.emitted[f].job
    ensures |t.proc.sent| <= |t.proc.emitted| && (t.proc.status == Running ==> |t.proc.sent| == |t.proc.emitted|)
    ensures forall e | 0 <= e < |t.proc.sent| ::
              t.proc.sent[e] == Sent(t.proc.emitted[e].hash, t.proc.emitted[e].path)
  {
    assert Emissions(w, t.proc) by {
      ReachesInv(w, n, buffers, acts, t);
    }
  }

  /** A slot being read has hashed exactly the first `off` bytes of its own file. */
  lemma HasherInStep(w: World, n: nat, buffers: seq<Bytes>, acts: seq<Action>, t: Sys, i: nat)
    requires Reaches(w, n, buffers, acts, t) && t.proc.status == Running && i < n
    ensures HasIds(t.proc) && |t.proc.slots| == n
    ensures t.proc.ios[Slot(i)].loc != Free && t.proc.ios[Slot(i)].callback == OnFileRead ==>
              && OwnsPath(t.proc, i) && PathOf(t.proc, i) in w.files
              && t.proc.ios[Slot(i)].off <= |w.files[PathOf(t.proc, i)]|
              && t.proc.slots[i].hasher == w.files[PathOf(t.proc, i)][..t.proc.ios[Slot(i)].off]
  {
    ReachesInv(w, n, buffers, acts, t);
    assert SlotData(w, t, i);
  }

  /** Every job is accounted for exactly once: held by one slot, reported by one line, or
      failed to open or read. */
  lemma JobsAccounted(w: World, n: nat, buffers: seq<Bytes>, acts: seq<Action>, t: Sys, j: nat)
    requires Reaches(w, n, buffers, acts, t) && t.proc.status == Running && j < |t.proc.jobs|
    ensures HasIds(t.proc)
    ensures match t.proc.jobs[j].status
            case InSlot(i) =>
              && i < n == |t.proc.slots| && FilePhase(t.proc, i) && t.proc.slots[i].job == j
              && (forall k | 0 <= k < n && FilePhase(t.proc, k) && t.proc.slots[k].job == j :: k == i)
              && (forall e | 0 <= e < |t.proc.emitted| :: t.proc.emitted[e].job != j)
            case Hashed(e) =>
              && e < |t.proc.emitted| && t.proc.emitted[e].job == j
              && (forall f | 0 <= f < |t.proc.emitted| && t.proc.emitted[f].job == j :: f == e)
              && n == |t.proc.slots|
              && (forall k | 0 <= k < n && FilePhase(t.proc, k) :: t.proc.slots[k].job != j)
            case _ =>
              && (forall e | 0 <= e < |t.proc.emitted| :: t.proc.emitted[e].job != j)
              && n == |t.proc.slots|
              && (forall k | 0 <= k < n && FilePhase(t.proc, k) :: t.proc.slots[k].job != j)
  {
    ReachesInv(w, n, buffers, acts, t);
    assert JobOwned(t.proc, j);
    forall k | 0 <= k < n && FilePhase(t.proc, k)
      ensures t.proc.slots[k].job == j ==> t.proc.jobs[j].status == InSlot(k)
    {
      assert SlotData(w, t, k);
    }
  }

  /** Slot i holds descriptor fd: it is reading it, or its open has completed with it. */
  ghost predicate HoldsFd(t: Sys, i: nat, fd: int)
    requires Slot(i) in t.proc.ios
  {
    && FilePhase(t.proc, i)
    && var io := t.proc.ios[Slot(i)];
       || (io.callback == OnFileRead && io.fd == fd)
       || (io.callback == OnFileOpen && Arrived(t, Slot(i)) && Result(t, Slot(i)) == fd && fd >= 0)
  }

  /** Resource balance.  Live path strings are exactly those of slots opening or reading, live
      descriptors exactly those such slots hold, each with a single owner. */
  lemma ResourceBalance(w: World, n: nat, buffers: seq<Bytes>, acts: seq<Action>, t: Sys)
    requires Reaches(w, n, buffers, acts, t) && t.proc.status == Running
    ensures HasIds(t.proc) && |t.proc.slots| == n
    ensures forall ptr :: ptr in t.proc.strs <==>
              exists i | 0 <= i < n :: FilePhase(t.proc, i) && t.proc.slots[i].data == Some(ptr)
    ensures forall fd :: fd in t.proc.fds <==> exists i | 0 <= i < n :: HoldsFd(t, i, fd)
    ensures forall i, j | 0 <= i < j < n && FilePhase(t.proc, i) && FilePhase(t.proc, j) ::
              t.proc.slots[i].data != t.proc.slots[j].data
    ensures forall i, j, fd | 0 <= i < j < n && HoldsFd(t, i, fd) :: !HoldsFd(t, j, fd)
  {
    ReachesInv(w, n, buffers, acts, t);
    StringsBalance(w, t);
    DescriptorsBalance(w, t);
  }

  lemma StringsBalance(w: World, t: Sys)
    requires SlotsOk(w, t) && StrsOwned(t.proc)
    ensures forall ptr :: ptr in t.proc.strs <==>
              exists i | 0 <= i < |t.proc.slots| :: FilePhase(t.proc, i) && t.proc.slots[i].data == Some(ptr)
    ensures forall i, j | 0 <= i < j < |t.proc.slots| && FilePhase(t.proc, i) && FilePhase(t.proc, j) ::
              t.proc.slots[i].data != t.proc.slots[j].data
  {
    forall ptr | ptr in t.proc.strs
      ensures exists i | 0 <= i < |t.proc.slots| :: FilePhase(t.proc, i) && t.proc.slots[i].data == Some(ptr)
    {
      assert StrOwned(t.proc, ptr);
    }
    forall i | 0 <= i < |t.proc.slots| && FilePhase(t.proc, i) ensures OwnsPath(t.proc, i) {
      assert SlotData(w, t, i);
    }
  }

  lemma DescriptorsBalance(w: World, t: Sys)
    requires SlotsOk(w, t) && FdsOwned(t)
    ensures forall fd :: fd in t.proc.fds <==> exists i | 0 <= i < |t.proc.slots| :: HoldsFd(t, i, fd)
    ensures forall i, j, fd | 0 <= i < j < |t.proc.slots| && HoldsFd(t, i, fd) :: !HoldsFd(t, j, fd)
  {
    forall fd | fd in t.proc.fds ensures exists i | 0 <= i < |t.proc.slots| :: HoldsFd(t, i, fd) {
      assert FdOwned(t, fd);
      assert HoldsFd(t, t.proc.fds[fd].owner, fd);
    }
    forall i, fd | 0 <= i < |t.proc.slots| && HoldsFd(t, i, fd)
      ensures fd in t.proc.fds && t.proc.fds[fd].owner == i
    {
      assert SlotData(w, t, i);
    }
  }

  // ---------------------------------------------------------------------------
  // The kernel is not restrained by the model

  /** No dangling SQE.  What an SQE the kernel is working on refers to is alive and belongs to
      the slot that submitted it, so the kernel can answer with every result its contract
      allows: for an open, which is read-only and of the path itself, an error or any unused
      descriptor of an existing file; for a read, an error, or any amount that fits, 0 exactly
      at the end; for a timeout update, which names no timeout, an error; otherwise anything.
      Only the poll can be answered repeatedly. */
  lemma KernelNeverDangles(w: World, n: nat, buffers: seq<Bytes>, acts: seq<Action>, t: Sys, pos: nat)
    requires Reaches(w, n, buffers, acts, t) && t.proc.status == Running && pos < t.consumed && pos !in t.done
    ensures pos < |t.proc.subs|
    ensures Form(t.proc.subs[pos])
    ensures var sqe := t.proc.subs[pos];
            if sqe.id.Slot? && sqe.opcode == OpenAt then
              && sqe.addr.Str? && sqe.addr.ptr in t.proc.strs
              && sqe.flags == O_RDONLY && sqe.fd == AT_FDCWD
              && t.proc.strs[sqe.addr.ptr].owner == sqe.id.index < n
              && (forall res :: Enabled(w, t, Complete(pos, res, false)) <==>
                    res < 0 || (res !in t.proc.fds && t.proc.strs[sqe.addr.ptr].path in w.files))
            else if sqe.id.Slot? && sqe.opcode == ReadOp then
              && sqe.addr == Buf(sqe.id.index) && sqe.len == READ_BUF_SIZE
              && sqe.fd in t.proc.fds && t.proc.fds[sqe.fd].owner == sqe.id.index < n
              && t.proc.fds[sqe.fd].path in w.files
              && (forall res :: Enabled(w, t, Complete(pos, res, false)) <==>
                    ReadResult(w.files[t.proc.fds[sqe.fd].path], sqe.off, sqe.len, res))
            else
              forall res :: Enabled(w, t, Complete(pos, res, false)) <==> sqe.opcode != TimeoutRemove || res < 0
    ensures forall res :: Enabled(w, t, Complete(pos, res, true)) <==> t.proc.subs[pos].id == Poll && res >= 0
  {
    ReachesInv(w, n, buffers, acts, t);
    ActiveSqe(t, pos);
    var sqe := t.proc.subs[pos];
    ObjectForm(w, t, sqe.id);
    if sqe.opcode == OpenAt {
      ActiveOpen(w, t, pos);
    } else if sqe.id.Slot? && sqe.opcode == ReadOp {
      ActiveRead(w, t, pos);
    }
  }

  /** An object on its way through the rings has its form. */
  lemma ObjectForm(w: World, t: Sys, id: ReqId)
    requires Full(w, t) && id in t.proc.ios && (t.proc.ios[id].loc.Pending? || t.proc.ios[id].loc.InCq?)
    ensures Form(ToSqe(id, t.proc.ios[id]))
  {
    if id.Slot? {
      assert SlotData(w, t, id.index);
    }
  }

  lemma ActiveOpen(w: World, t: Sys, pos: nat)
    requires Full(w, t) && t.proc.status == Running && pos < t.consumed && pos !in t.done
    requires t.proc.subs[pos].opcode == OpenAt && Form(t.proc.subs[pos])
    ensures var sqe := t.proc.subs[pos];
            && sqe.addr.Str? && sqe.addr.ptr in t.proc.strs && sqe.id.Slot?
            && t.proc.strs[sqe.addr.ptr].owner == sqe.id.index < |t.proc.slots|
            && (forall res :: Enabled(w, t, Complete(pos, res, false)) <==>
                  res < 0 || (res !in t.proc.fds && t.proc.strs[sqe.addr.ptr].path in w.files))
  {
    ActiveSqe(t, pos);
    assert SlotData(w, t, t.proc.subs[pos].id.index);
  }

  lemma ActiveRead(w: World, t: Sys, pos: nat)
    requires Full(w, t) && t.proc.status == Running && pos < t.consumed && pos !in t.done
    requires t.proc.subs[pos].opcode == ReadOp && t.proc.subs[pos].id.Slot?
    ensures var sqe := t.proc.subs[pos];
            && sqe.addr == Buf(sqe.id.index) && sqe.len == READ_BUF_SIZE
            && sqe.fd in t.proc.fds && t.proc.fds[sqe.fd].owner == sqe.id.index < |t.proc.slots|
            && t.proc.fds[sqe.fd].path in w.files
            && (forall res :: Enabled(w, t, Complete(pos, res, false)) <==>
                  ReadResult(w.files[t.proc.fds[sqe.fd].path], sqe.off, sqe.len, res))
  {
    ActiveSqe(t, pos);
    assert SlotData(w, t, t.proc.subs[pos].id.index);
  }

  /** Any completion that was posted can be served, whatever the callback observes. */
  lemma LoopNeverStuck(w: World, n: nat, buffers: seq<Bytes>, acts: seq<Action>, t: Sys, env: Env)
    requires Reaches(w, n, buffers, acts, t) && t.proc.status == Running && t.reaped < |t.posted|
    ensures var id := t.posted[t.reaped].id;
            && id in t.proc.ios && t.proc.ios[id].callback != NoCallback
            && (Enabled(w, t, Dispatch(env)) <==>
                  t.proc.seen <= env.head1 <= env.head2 && env.ptr !in t.proc.strs)
  {
    ReachesInv(w, n, buffers, acts, t);
    assert CqeOk(t, t.reaped);
    CallbackOwner(w, t, t.posted[t.reaped].id);
    if t.proc.free != [] {
      HeadFree(t);
    }
  }
}
