/** The run that loses a submission once the slab has more than 61 slots, with a kernel that
    publishes its head once per batch.  A burst of 62 events fills a batch with recv_req,
    timer_req, 62 opens and the poll.  The kernel completes them one by one, its head still at
    the start of the batch: the opens fail and free their slots, recv_req is submitted again
    with an update of the timer, and 61 further events take the slots again.  The ring then
    looks full, and the poll cannot be armed again. */
module BatchOverflow {
  import opened Requests
  import opened Runtime
  import opened HashSystem
  import opened FileState
  import opened KernelSteps
  import opened LoopSteps
  import opened HashTheorems
  import opened Submissions
  import opened RingBound
  import opened Burst
  import opened RingOverflow
  import Q = EventQueue
  import W = WholeSystem

  const OPENS: nat := 62
  const BATCH_END: nat := 6 + OPENS

  function StartOf(q: nat): nat {
    if q < 2 then 0 else if q < 3 then 2 else if q < BATCH_END then 3 else BATCH_END
  }

  function Late(): Kernel {
    Batched(StartOf)
  }

  lemma LateSuits()
    ensures Batches(Late()) && Suits(Late())
  {
  }

  /** The batch is being worked on: i of its opens have failed, f slots are free, `subs` SQEs
      were published, and everything posted was reaped. */
  ghost predicate Working(n: nat, s: Sys, i: nat, subs: nat, f: nat) {
    && Shape(s.proc) && s.proc.status == Running && s.proc.lost == [] && s.proc.sent == []
    && s.consumed == BATCH_END <= |s.proc.subs| == subs && s.proc.seen == 3 && s.reaped == |s.posted|
    && |s.proc.slots| == n && |s.proc.free| == f && i <= OPENS && s.proc.ios[Timer].opcode == TimeoutOp
    && (forall k | 0 <= k < |s.posted| :: s.posted[k].pos < BATCH_END)
    && s.proc.subs[5 + OPENS].id == Poll && 5 + OPENS !in s.done
    && (forall q | 5 + i <= q < 5 + OPENS :: s.proc.subs[q].opcode == OpenAt && q !in s.done)
  }

  /** recv_req's SQE, still in the kernel. */
  ghost predicate RecvOut(s: Sys) {
    |s.proc.subs| > 3 && s.proc.subs[3].id == Recv && s.proc.subs[3].opcode == ReadOp && 3 !in s.done
  }

  /** One completion is posted and not yet reaped. */
  ghost predicate Next(s: Sys, c: Cqe) {
    && s.reaped < |s.posted| && s.posted[s.reaped] == c && c.id in s.proc.ios
    && (forall k | 0 <= k < |s.posted| :: s.posted[k].pos < BATCH_END)
  }

  lemma LateTimely(s: Sys, c: Cqe, env: Env)
    requires Next(s, c) && |s.proc.subs| >= BATCH_END && env.head1 == 3
    ensures Timely(Late(), Reap(s), env)
  {
  }

  /** Callbacks of reachable states do not fault. */
  lemma Alive(w: World, s: Sys, env: Env)
    requires Inv(w, s) && Enabled(w, s, Dispatch(env))
    ensures Serve(w, s, env).proc.status != Faulted && Shape(Reap(s).proc)
    ensures Serve(w, s, env).proc.status == Running ==> Shape(Serve(w, s, env).proc)
  {
    StepKeeps(w, s, Dispatch(env));
    ReapShape(s);
    if Serve(w, s, env).proc.status == Running && Serve(w, s, env).proc.free != [] {
      HeadFree(Serve(w, s, env));
    }
  }

  /** A completion just posted can be served at once. */
  lemma Due(w: World, s: Sys, a: Action, u: Sys, c: Cqe, env: Env)
    requires Inv(w, s) && !a.Dispatch? && Enabled(w, s, a) && u == Apply(w, s, a) && Next(u, c) && Shape(u.proc)
    requires u.proc.status == Running && u.proc.seen == 3 && |u.proc.subs| >= BATCH_END
    requires env.head1 == env.head2 == 3 && env.ptr !in u.proc.strs
    ensures Enabled(w, u, Dispatch(env)) && Timely(Late(), Reap(u), env)
    ensures Serve(w, u, env).proc.status != Faulted
    ensures Serve(w, u, env).proc.status == Running ==> Shape(Serve(w, u, env).proc)
  {
    StepKeeps(w, s, a);
    Alive(w, u, env);
    LateTimely(u, c, env);
  }

  // ---------------------------------------------------------------------------
  // An open fails

  lemma OpenActive(w: World, s: Sys, pos: nat)
    requires Inv(w, s) && s.proc.status == Running
    requires pos < s.consumed && pos < |s.proc.subs| && pos !in s.done && s.proc.subs[pos].opcode == OpenAt
    ensures var id := s.proc.subs[pos].id;
            && id.Slot? && id in s.proc.ios && s.proc.ios[id].callback == OnFileOpen
            && Enabled(w, s, Complete(pos, -2, false))
            && Apply(w, s, Complete(pos, -2, false)) == Finish(s, s.proc, id, pos, -2)
  {
    ActiveSqe(s, pos);
    assert SlotData(w, s, s.proc.subs[pos].id.index);
  }

  lemma FreeAgain(p: Proc, i: nat, head: nat)
    requires i < |p.slots| && Slot(i) in p.ios && HasIds(p) && p.status == Running
    ensures var r := OnOpen(p, i, -2, head);
            && r.subs == p.subs && r.lost == p.lost && r.seen == p.seen && r.sent == p.sent
            && |r.free| == |p.free| + 1 && |r.slots| == |p.slots| && (r.status == Running || r.status == Faulted)
            && Timer in r.ios && r.ios[Timer] == p.ios[Timer]
  {
    var p1 := Settle(p, i, OpenFailed);
    var p2 := DropPath(p1, i);
    assert p2.subs == p.subs && p2.free == p.free && p2.ios == p.ios;
  }

  lemma OpenServed(w: World, n: nat, s: Sys, u: Sys, t: Sys, i: nat, f: nat, env: Env)
    requires Working(n, s, i, BATCH_END, f) && i < OPENS && RecvOut(s) && env.head1 == 3
    requires var id := s.proc.subs[5 + i].id;
             && id.Slot? && id in s.proc.ios && s.proc.ios[id].callback == OnFileOpen
             && u == Finish(s, s.proc, id, 5 + i, -2)
    requires Shape(u.proc) && t == Serve(w, u, env) && t.proc.status != Faulted
    requires t.proc.status == Running ==> Shape(t.proc)
    ensures Working(n, t, i + 1, BATCH_END, f + 1) && RecvOut(t) && t.proc.sent == u.proc.sent
  {
    ReapShape(u);
    FreeAgain(Reap(u).proc, s.proc.subs[5 + i].id.index, 3);
    assert t == CaughtUp(Reap(u), OnOpen(Reap(u).proc, s.proc.subs[5 + i].id.index, -2, 3));
  }

  /** The i-th open of the batch completes with an error and its callback frees the slot. */
  lemma OpenFails(w: World, n: nat, s: Sys, i: nat, f: nat, pos: nat, i': nat, f': nat, env: Env)
    returns (u: Sys, t: Sys)
    requires Inv(w, s) && Working(n, s, i, BATCH_END, f) && i < OPENS && RecvOut(s)
    requires env.ok && env.head1 == env.head2 == 3 && env.ptr !in s.proc.strs
    requires pos == 5 + i && i' == i + 1 && f' == f + 1
    ensures Enabled(w, s, Complete(pos, -2, false)) && u == Apply(w, s, Complete(pos, -2, false))
    ensures Quiet(w, u, t, env)
    ensures Working(n, t, i', BATCH_END, f') && RecvOut(t)
  {
    OpenActive(w, s, pos);
    var c := Cqe(s.proc.subs[pos].id, -2, false, pos);
    u := Finish(s, s.proc, c.id, pos, -2);
    Posts(s, u, c);
    Due(w, s, Complete(pos, -2, false), u, c, env);
    t := Serve(w, u, env);
    OpenServed(w, n, s, u, t, i, f, env);
  }

  /** A callback that neither consumes nor reports is due, and leads to t. */
  ghost predicate Quiet(w: World, u: Sys, t: Sys, env: Env) {
    && Enabled(w, u, Dispatch(env)) && t == Apply(w, u, Dispatch(env)) && Timely(Late(), Reap(u), env)
    && t.proc.sent == u.proc.sent && !W.Wakes(u) && env.ok
  }

  lemma Posts(s: Sys, u: Sys, c: Cqe)
    requires Shape(s.proc) && s.reaped == |s.posted| && c.id in s.proc.ios && c.pos < BATCH_END && !c.more
    requires forall k | 0 <= k < |s.posted| :: s.posted[k].pos < BATCH_END
    requires u == Finish(s, s.proc, c.id, c.pos, c.res)
    ensures Next(u, c) && Shape(u.proc)
  {
    assert u.proc.ios.Keys == s.proc.ios.Keys;
  }

  // ---------------------------------------------------------------------------
  // recv_req completes

  lemma RecvActive(w: World, s: Sys)
    requires Inv(w, s) && s.proc.status == Running && 3 < s.consumed && RecvOut(s)
    ensures Recv in s.proc.ios && s.proc.ios[Recv].callback == OnSocketRead
    ensures Enabled(w, s, Complete(3, 1, false))
    ensures Apply(w, s, Complete(3, 1, false)) == Finish(s, s.proc, Recv, 3, 1)
    ensures s.proc.free != [] ==> HasSlot(s.proc)
  {
    ActiveSqe(s, 3);
    if s.proc.free != [] {
      HeadFree(s);
    }
  }

  lemma FlushTakes(p: Proc)
    requires Shape(p) && p.status == Running && HasSlot(p) && p.ios[Timer].opcode == TimeoutOp
    requires p.seen == 3 <= |p.subs|
    ensures var r := FlushEgress(p, true, 3);
            r.status == Running && |r.free| == |p.free| - 1 && r.sent == p.sent && r.seen == 3
  {
  }

  lemma RecvBody(p: Proc, env: Env)
    requires Shape(p) && p.status == Running && HasSlot(p) && p.ios[Timer].opcode == TimeoutOp
    requires env.ok && env.head1 == env.head2 == 3 && |p.subs| == BATCH_END && p.seen == 3
    ensures Shape(Submit(p, Recv, 3))
    ensures var r := AfterFirst(Submit(p, Recv, 3), env);
            && r.status == Running && |r.free| == |p.free| - 1 && r.sent == p.sent && r.seen == 3
            && Appends(p, r, [Recv, Slot(p.free[0])])
  {
    SubmitAppends(p, Recv, 3);
    FlushTakes(Submit(p, Recv, 3));
    RecvAppends(p, env);
    assert [Recv] + FlushIds(p, true) == [Recv, Slot(p.free[0])];
  }

  lemma RecvServed(w: World, n: nat, s: Sys, u: Sys, t: Sys, f: nat, env: Env)
    requires Working(n, s, OPENS, BATCH_END, f) && HasSlot(s.proc)
    requires env.ok && env.head1 == env.head2 == 3 && s.proc.ios[Recv].callback == OnSocketRead
    requires u == Finish(s, s.proc, Recv, 3, 1) && Shape(u.proc) && t == Serve(w, u, env)
    requires t.proc.status == Running ==> Shape(t.proc)
    ensures Working(n, t, OPENS, BATCH_END + 2, f - 1)
  {
    ReapShape(u);
    RecvBody(Reap(u).proc, env);
    assert t == CaughtUp(Reap(u), AfterFirst(Submit(Reap(u).proc, Recv, 3), env));
  }

  lemma RecvCompletes(w: World, n: nat, s: Sys, f: nat, env: Env) returns (u: Sys, t: Sys)
    requires Inv(w, s) && Working(n, s, OPENS, BATCH_END, f) && RecvOut(s) && f > 0
    requires env.ok && env.head1 == env.head2 == 3 && env.ptr !in s.proc.strs
    ensures Enabled(w, s, Complete(3, 1, false)) && u == Apply(w, s, Complete(3, 1, false))
    ensures Quiet(w, u, t, env) && Working(n, t, OPENS, BATCH_END + 2, f - 1)
  {
    RecvActive(w, s);
    u := Finish(s, s.proc, Recv, 3, 1);
    Posts(s, u, Cqe(Recv, 1, false, 3));
    Due(w, s, Complete(3, 1, false), u, Cqe(Recv, 1, false, 3), env);
    t := Serve(w, u, env);
    RecvServed(w, n, s, u, t, f, env);
  }

  // ---------------------------------------------------------------------------
  // Further events, and the end of the poll

  lemma PollActive(w: World, s: Sys, res: int, more: bool)
    requires Inv(w, s) && s.proc.status == Running && s.consumed == BATCH_END <= |s.proc.subs|
    requires s.proc.subs[5 + OPENS].id == Poll && 5 + OPENS !in s.done && (more ==> res >= 0)
    ensures Poll in s.proc.ios && s.proc.ios[Poll].callback == OnQueueEvent
    ensures Enabled(w, s, Complete(5 + OPENS, res, more))
    ensures Apply(w, s, Complete(5 + OPENS, res, more))
         == if more then s.(posted := s.posted + [Cqe(Poll, res, true, 5 + OPENS)])
            else Finish(s, s.proc, Poll, 5 + OPENS, res)
    ensures s.proc.free != [] ==> HasSlot(s.proc)
  {
    ActiveSqe(s, 5 + OPENS);
    if s.proc.free != [] {
      HeadFree(s);
    }
  }

  lemma OpenTakes(p: Proc, path: Bytes, ptr: nat)
    requires Shape(p) && p.status == Running && HasSlot(p) && p.seen == 3 <= |p.subs| < 3 + SQ_ENTRIES
    ensures var r := OpenEvent(p, GotEvent(path), ptr, 3);
            && r.status == Running && |r.free| == |p.free| - 1 && |r.slots| == |p.slots|
            && r.sent == p.sent && r.seen == 3 && Appends(p, r, [Slot(p.free[0])])
  {
    OpenEventAppends(p, GotEvent(path), ptr, 3);
  }

  lemma EventServed(w: World, n: nat, s: Sys, u: Sys, t: Sys, subs: nat, f: nat, path: Bytes, env: Env)
    requires Working(n, s, OPENS, subs, f) && HasSlot(s.proc) && subs < 3 + SQ_ENTRIES
    requires env.got == GotEvent(path) && env.head1 == env.head2 == 3 && s.proc.ios[Poll].callback == OnQueueEvent
    requires u == s.(posted := s.posted + [Cqe(Poll, 1, true, 5 + OPENS)]) && t == Serve(w, u, env)
    requires t.proc.status == Running ==> Shape(t.proc)
    ensures Working(n, t, OPENS, subs + 1, f - 1)
  {
    ReapShape(u);
    OpenTakes(Reap(u).proc, path, env.ptr);
    assert t == CaughtUp(Reap(u), OpenEvent(Reap(u).proc, GotEvent(path), env.ptr, 3));
  }

  lemma EventAgain(w: World, n: nat, s: Sys, subs: nat, f: nat, subs': nat, f': nat, path: Bytes, env: Env)
    returns (u: Sys, t: Sys)
    requires Inv(w, s) && Working(n, s, OPENS, subs, f) && f > 0 && subs < 3 + SQ_ENTRIES
    requires env.got == GotEvent(path) && env.head1 == env.head2 == 3 && env.ptr !in s.proc.strs
    requires subs' == subs + 1 && f' == f - 1
    ensures Enabled(w, s, Complete(5 + OPENS, 1, true)) && u == Apply(w, s, Complete(5 + OPENS, 1, true))
    ensures Enabled(w, u, Dispatch(env)) && t == Apply(w, u, Dispatch(env))
    ensures Timely(Late(), Reap(u), env) && W.Wakes(u)
    ensures Working(n, t, OPENS, subs', f')
  {
    u, t := EventDue(w, n, s, subs, f, env);
    EventServed(w, n, s, u, t, subs, f, path, env);
  }

  lemma EventDue(w: World, n: nat, s: Sys, subs: nat, f: nat, env: Env) returns (u: Sys, t: Sys)
    requires Inv(w, s) && Working(n, s, OPENS, subs, f) && f > 0
    requires env.head1 == env.head2 == 3 && env.ptr !in s.proc.strs
    ensures Enabled(w, s, Complete(5 + OPENS, 1, true)) && u == Apply(w, s, Complete(5 + OPENS, 1, true))
    ensures Enabled(w, u, Dispatch(env)) && t == Apply(w, u, Dispatch(env)) == Serve(w, u, env)
    ensures Timely(Late(), Reap(u), env) && W.Wakes(u) && HasSlot(s.proc) && s.proc.ios[Poll].callback == OnQueueEvent
    ensures u == s.(posted := s.posted + [Cqe(Poll, 1, true, 5 + OPENS)])
    ensures t.proc.status == Running ==> Shape(t.proc)
  {
    PollActive(w, s, 1, true);
    var c := Cqe(Poll, 1, true, 5 + OPENS);
    u := s.(posted := s.posted + [c]);
    Due(w, s, Complete(5 + OPENS, 1, true), u, c, env);
    t := Serve(w, u, env);
  }

  /** The poll ends with an error; the ring looks full, and re-arming it is refused. */
  lemma PollFails(w: World, n: nat, s: Sys, f: nat, env: Env) returns (u: Sys, t: Sys)
    requires Inv(w, s) && Working(n, s, OPENS, 3 + SQ_ENTRIES, f)
    requires env.ok && env.head1 == env.head2 == 3 && env.ptr !in s.proc.strs
    ensures Enabled(w, s, Complete(5 + OPENS, -4, false)) && u == Apply(w, s, Complete(5 + OPENS, -4, false))
    ensures Quiet(w, u, t, env)
    ensures t.proc.status == Running && |t.proc.lost| == 1 && t.proc.lost[0].id == Poll
  {
    PollActive(w, s, -4, false);
    u := Finish(s, s.proc, Poll, 5 + OPENS, -4);
    var c := Cqe(Poll, -4, false, 5 + OPENS);
    Posts(s, u, c);
    Due(w, s, Complete(5 + OPENS, -4, false), u, c, env);
    t := Serve(w, u, env);
    PollRefused(w, u, c, env);
  }

  lemma PollRefused(w: World, u: Sys, c: Cqe, env: Env)
    requires Next(u, c) && c.id == Poll && c.res == -4 && Shape(u.proc) && u.proc.ios[Poll].callback == OnQueueEvent
    requires |u.proc.subs| == 3 + SQ_ENTRIES && u.proc.lost == [] && env.head1 == 3 && u.proc.status == Running
    ensures var t := Serve(w, u, env);
            && t.proc.status == Running && |t.proc.lost| == 1 && t.proc.lost[0].id == Poll
            && t.proc.sent == u.proc.sent
  {
    ReapShape(u);
    var p := Reap(u).proc;
    assert Serve(w, u, env) == CaughtUp(Reap(u), Submit(p, Poll, 3));
    assert Submit(p, Poll, 3) == Refused(p, Poll, 3);
  }

  // ---------------------------------------------------------------------------
  // The run

  lemma RunInv(x: W.Setup, acts: seq<W.Action>, s: W.Whole)
    requires Run(Late(), x, acts, s)
    ensures Inv(x.w, s.procs[0]) && |s.procs[0].proc.slots| == x.n
    ensures s.procs[0].proc.status == Running ==> Shape(s.procs[0].proc)
  {
    TimelyRuns(Late(), x, W.Init(x), acts, s);
    var hacts := W.ProcessorReaches(x, acts, s, 0);
    ReachesInv(x.w, x.n, x.buffers[0], hacts, s.procs[0]);
    if s.procs[0].proc.status == Running && s.procs[0].proc.free != [] {
      HeadFree(s.procs[0]);
    }
  }

  /** A free address. */
  lemma {:induction false} Above(used: set<nat>) returns (b: nat)
    ensures forall a | a in used :: a < b
    decreases |used|
  {
    if used == {} {
      b := 0;
    } else {
      var a :| a in used;
      var c := Above(used - {a});
      b := if c > a then c else a + 1;
      assert forall d | d in used :: d == a || d in used - {a};
    }
  }

  lemma Observed(s: Sys, got: Got) returns (env: Env)
    ensures env.got == got && env.ok && env.init && env.head1 == env.head2 == 3 && env.ptr !in s.proc.strs
  {
    var b := Above(s.proc.strs.Keys);
    assert b !in s.proc.strs.Keys;
    env := Env(got, b, true, true, 3, 3);
  }

  /** A completion and the callback it causes. */
  lemma LiftBoth(x: W.Setup, acts: seq<W.Action>, s: W.Whole, a: Action, u: Sys, t: Sys, env: Env)
    returns (acts': seq<W.Action>, s': W.Whole)
    requires Run(Late(), x, acts, s) && !a.Dispatch? && Enabled(x.w, s.procs[0], a) && u == Apply(x.w, s.procs[0], a)
    requires Quiet(x.w, u, t, env)
    ensures Run(Late(), x, acts', s') && s'.procs == [t] && s'.queue == s.queue
  {
    var a1, s1 := LiftKernel(Late(), x, acts, s, a, u);
    acts', s' := LiftQuiet(Late(), x, a1, s1, env, t);
  }

  lemma LiftWake(x: W.Setup, acts: seq<W.Action>, s: W.Whole, a: Action, u: Sys, t: Sys, env: Env,
                 n: nat, m: nat, path: Bytes)
    returns (acts': seq<W.Action>, s': W.Whole)
    requires Run(Late(), x, acts, s) && !a.Dispatch? && Enabled(x.w, s.procs[0], a) && u == Apply(x.w, s.procs[0], a)
    requires WakesFor(Late(), x, u, env, path) && t == Apply(x.w, u, Dispatch(env))
    requires Queued(s.queue, n, path) && n == m + 1
    ensures Run(Late(), x, acts', s') && s'.procs == [t]
    ensures Queued(s'.queue, m, path) && s'.queue.accepted == s.queue.accepted
  {
    var a1, s1 := LiftKernel(Late(), x, acts, s, a, u);
    acts', s' := LiftEvent(Late(), x, a1, s1, env, t, n, m, path);
  }

  /** The batch after the burst, all of it taken by the kernel. */
  lemma BatchTaken(x: W.Setup, path: Bytes, m: nat) returns (acts: seq<W.Action>, s: W.Whole)
    requires Idle(x) && OPENS <= x.n && OPENS <= m < Q.QUEUE_SIZE
    ensures Run(Late(), x, acts, s) && Queued(s.queue, m - OPENS, path) && s.queue.accepted == Copies(path, m)
    ensures Working(x.n, s.procs[0], 0, BATCH_END, x.n - OPENS) && RecvOut(s.procs[0])
  {
    LateSuits();
    var a0, s0, h, env := BurstServed(Late(), x, path, m, OPENS);
    var t := s0.procs[0];
    LastServed(x.w, x.n, h, t, path, env, OPENS);
    RunInv(x, a0, s0);
    var u := Take(t, BATCH_END);
    TakenWorks(x.n, h, t, u);
    acts, s := LiftKernel(Late(), x, a0, s0, Consume(BATCH_END), u);
  }

  lemma TakenWorks(n: nat, h: Sys, t: Sys, u: Sys)
    requires Stage(n, h, 4 + OPENS, 3, 3, 2 + OPENS, 1 + OPENS, OPENS - 1) && u == Take(t, BATCH_END)
    requires t.posted == h.posted && t.done == h.done && t.reaped == |t.posted| && t.proc.sent == h.proc.sent
    requires Shape(t.proc) && t.proc.status == Running && t.proc.lost == [] && t.proc.seen == 3
    requires |t.proc.subs| == BATCH_END && |t.proc.slots| == n && |t.proc.free| == n - OPENS
    requires Behind(t.proc, OPENS) && t.proc.subs[5 + OPENS].id == Poll
    ensures Working(n, u, 0, BATCH_END, n - OPENS) && RecvOut(u)
  {
  }

  /** i opens have failed. */
  lemma {:induction false} Failed(x: W.Setup, path: Bytes, m: nat, i: nat) returns (acts: seq<W.Action>, s: W.Whole)
    requires Idle(x) && OPENS <= x.n && OPENS <= m < Q.QUEUE_SIZE && i <= OPENS
    ensures Run(Late(), x, acts, s) && Queued(s.queue, m - OPENS, path) && s.queue.accepted == Copies(path, m)
    ensures Working(x.n, s.procs[0], i, BATCH_END, x.n - OPENS + i) && RecvOut(s.procs[0])
  {
    if i == 0 {
      acts, s := BatchTaken(x, path, m);
    } else {
      var a0, s0 := Failed(x, path, m, i - 1);
      acts, s := FailOne(x, a0, s0, i);
    }
  }

  lemma FailOne(x: W.Setup, acts: seq<W.Action>, s: W.Whole, i: nat) returns (acts': seq<W.Action>, t: W.Whole)
    requires Run(Late(), x, acts, s) && 0 < i <= OPENS <= x.n
    requires Working(x.n, s.procs[0], i - 1, BATCH_END, x.n - OPENS + (i - 1)) && RecvOut(s.procs[0])
    ensures Run(Late(), x, acts', t) && t.queue == s.queue
    ensures Working(x.n, t.procs[0], i, BATCH_END, x.n - OPENS + i) && RecvOut(t.procs[0])
  {
    var u, v, env := FailNow(x, acts, s, i);
    acts', t := LiftBoth(x, acts, s, Complete(4 + i, -2, false), u, v, env);
  }

  lemma FailNow(x: W.Setup, acts: seq<W.Action>, s: W.Whole, i: nat) returns (u: Sys, v: Sys, env: Env)
    requires Run(Late(), x, acts, s) && 0 < i <= OPENS <= x.n
    requires Working(x.n, s.procs[0], i - 1, BATCH_END, x.n - OPENS + (i - 1)) && RecvOut(s.procs[0])
    ensures Enabled(x.w, s.procs[0], Complete(4 + i, -2, false))
    ensures u == Apply(x.w, s.procs[0], Complete(4 + i, -2, false)) && Quiet(x.w, u, v, env)
    ensures Working(x.n, v, i, BATCH_END, x.n - OPENS + i) && RecvOut(v)
  {
    RunInv(x, acts, s);
    env := Observed(s.procs[0], GotNothing);
    u, v := OpenFails(x.w, x.n, s.procs[0], i - 1, x.n - OPENS + (i - 1), 4 + i, i, x.n - OPENS + i, env);
  }

  /** recv_req and the timer's update have been submitted again. */
  lemma RecvAgain(x: W.Setup, path: Bytes, m: nat, left: nat, subs: nat, f: nat)
    returns (acts: seq<W.Action>, s: W.Whole)
    requires Idle(x) && OPENS <= x.n && OPENS <= m < Q.QUEUE_SIZE
    requires left == m - OPENS && subs == BATCH_END + 2 && f == x.n - 1
    ensures Run(Late(), x, acts, s) && Queued(s.queue, left, path) && s.queue.accepted == Copies(path, m)
    ensures Working(x.n, s.procs[0], OPENS, subs, f)
  {
    var a0, s0 := Failed(x, path, m, OPENS);
    var u, v, env := RecvNow(x, a0, s0);
    acts, s := LiftBoth(x, a0, s0, Complete(3, 1, false), u, v, env);
  }

  lemma RecvNow(x: W.Setup, acts: seq<W.Action>, s: W.Whole) returns (u: Sys, v: Sys, env: Env)
    requires Run(Late(), x, acts, s) && Working(x.n, s.procs[0], OPENS, BATCH_END, x.n)
    requires RecvOut(s.procs[0]) && x.n > 0
    ensures Enabled(x.w, s.procs[0], Complete(3, 1, false)) && u == Apply(x.w, s.procs[0], Complete(3, 1, false))
    ensures Quiet(x.w, u, v, env) && Working(x.n, v, OPENS, BATCH_END + 2, x.n - 1)
  {
    RunInv(x, acts, s);
    env := Observed(s.procs[0], GotNothing);
    u, v := RecvCompletes(x.w, x.n, s.procs[0], x.n, env);
  }

  /** k further events have been served. */
  lemma {:induction false} Again(x: W.Setup, path: Bytes, m: nat, k: nat, left: nat, subs: nat, f: nat)
    returns (acts: seq<W.Action>, s: W.Whole)
    requires Idle(x) && OPENS <= x.n && OPENS + k <= m < Q.QUEUE_SIZE && k < OPENS
    requires left == m - OPENS - k && subs == BATCH_END + 2 + k && f == x.n - 1 - k
    ensures Run(Late(), x, acts, s) && Queued(s.queue, left, path) && s.queue.accepted == Copies(path, m)
    ensures Working(x.n, s.procs[0], OPENS, subs, f)
    decreases k
  {
    if k == 0 {
      acts, s := RecvAgain(x, path, m, left, subs, f);
    } else {
      var a0, s0 := Again(x, path, m, k - 1, left + 1, subs - 1, f + 1);
      acts, s := OneAgain(x, a0, s0, path, left + 1, left, subs - 1, f + 1, subs, f);
    }
  }

  lemma OneAgain(x: W.Setup, acts: seq<W.Action>, s: W.Whole, path: Bytes, n: nat, m: nat, subs: nat, f: nat,
                 subs': nat, f': nat)
    returns (acts': seq<W.Action>, t: W.Whole)
    requires Run(Late(), x, acts, s) && Queued(s.queue, n, path) && n == m + 1
    requires Working(x.n, s.procs[0], OPENS, subs, f) && Further(subs, f, subs', f')
    ensures Run(Late(), x, acts', t) && Queued(t.queue, m, path) && t.queue.accepted == s.queue.accepted
    ensures Working(x.n, t.procs[0], OPENS, subs', f')
  {
    var u, v, env := EventNow(x, acts, s, path, subs, f, subs', f');
    acts', t := LiftWake(x, acts, s, Complete(5 + OPENS, 1, true), u, v, env, n, m, path);
  }

  /** One more SQE published, one slot less free. */
  predicate Further(subs: nat, f: nat, subs': nat, f': nat) {
    subs' == subs + 1 && f == f' + 1 && BATCH_END + 2 <= subs < BATCH_END + 1 + OPENS
  }

  lemma EventNow(x: W.Setup, acts: seq<W.Action>, s: W.Whole, path: Bytes, subs: nat, f: nat, subs': nat, f': nat)
    returns (u: Sys, v: Sys, env: Env)
    requires Run(Late(), x, acts, s) && Working(x.n, s.procs[0], OPENS, subs, f) && Further(subs, f, subs', f')
    ensures Enabled(x.w, s.procs[0], Complete(5 + OPENS, 1, true))
    ensures u == Apply(x.w, s.procs[0], Complete(5 + OPENS, 1, true))
    ensures WakesFor(Late(), x, u, env, path) && v == Apply(x.w, u, Dispatch(env))
    ensures Working(x.n, v, OPENS, subs', f')
  {
    RunInv(x, acts, s);
    env := Observed(s.procs[0], GotEvent(path));
    u, v := EventAgain(x.w, x.n, s.procs[0], subs, f, subs', f', path, env);
  }

  // ---------------------------------------------------------------------------
  // Main results

  lemma PollNow(x: W.Setup, acts: seq<W.Action>, s: W.Whole) returns (u: Sys, v: Sys, env: Env)
    requires Run(Late(), x, acts, s) && OPENS <= x.n
    requires Working(x.n, s.procs[0], OPENS, 3 + SQ_ENTRIES, x.n - OPENS)
    ensures Enabled(x.w, s.procs[0], Complete(5 + OPENS, -4, false))
    ensures u == Apply(x.w, s.procs[0], Complete(5 + OPENS, -4, false)) && Quiet(x.w, u, v, env)
    ensures v.proc.status == Running && |v.proc.lost| == 1 && v.proc.lost[0].id == Poll
  {
    RunInv(x, acts, s);
    env := Observed(s.procs[0], GotNothing);
    u, v := PollFails(x.w, x.n, s.procs[0], x.n - OPENS, env);
  }

  /** With more than 61 slots there is, for any file, a run of the whole system, with a kernel
      that publishes its head once per batch, in which the queue accepts 123 events for the
      file and hands them all out, and after which the poll is lost while the thread keeps
      running. */
  lemma LateOverflow(x: W.Setup, path: Bytes) returns (acts: seq<W.Action>, t: W.Whole)
    requires Idle(x) && x.n > SafeSlots(Late())
    ensures Batches(Late()) && ReachesTimely(Late(), x, acts, t) && |t.procs| == 1
    ensures t.queue.accepted == Copies(path, 2 * OPENS - 1) && Queued(t.queue, 0, path)
    ensures var p := t.procs[0].proc; p.status == Running && |p.lost| == 1 && p.lost[0].id == Poll
  {
    LateSuits();
    var a0, s0 := Again(x, path, 2 * OPENS - 1, OPENS - 1, 0, 3 + SQ_ENTRIES, x.n - OPENS);
    var u, v, env := PollNow(x, a0, s0);
    acts, t := LiftBoth(x, a0, s0, Complete(5 + OPENS, -4, false), u, v, env);
  }

  /** With kernels that publish their head once per batch, no run ever loses a submission if and
      only if the slab has at most 61 slots. */
  lemma NeverFullBatchedIff(w: World, n: nat, buffers: seq<Bytes>)
    requires Buffers(n, buffers)
    ensures (forall kernel: Kernel, acts, t | kernel.Batched? && ReachesOn(kernel, w, n, buffers, acts, t) ::
               t.proc.lost == [])
            <==> n <= SafeSlots(Late())
  {
    if n <= SafeSlots(Late()) {
      forall kernel: Kernel, acts, t | kernel.Batched? && ReachesOn(kernel, w, n, buffers, acts, t)
        ensures t.proc.lost == []
      {
        NeverFull(kernel, w, n, buffers, acts, t);
      }
    } else {
      var x := IdleSetup(w, n, buffers);
      var acts, t := LateOverflow(x, [47, 97]);
      var hacts := ThreadRun(Late(), x, W.Init(x), acts, t, 0);
      assert ReachesOn(Late(), w, n, buffers, hacts, t.procs[0]) && t.procs[0].proc.lost != [];
    }
  }
}
