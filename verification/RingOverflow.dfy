/** The run that loses a submission once the slab has more than 125 slots, with a prompt kernel
    and every event coming from the queue: 126 events for a file are produced, the connection
    completes, and the 126 wake-ups are served before the kernel takes another SQE.  recv_req,
    timer_req and 126 opens fill the 128 entries; re-arming the poll is refused, and nothing
    re-arms it later. */
module RingOverflow {
  import opened Requests
  import opened Runtime
  import opened HashSystem
  import opened HashTheorems
  import opened RingBound
  import opened Burst
  import J = Joints
  import Q = EventQueue
  import V = QuicSlot
  import W = WholeSystem

  // ---------------------------------------------------------------------------
  // Runs of the whole with a timely kernel

  ghost predicate RunsTimely(kernel: Kernel, x: W.Setup, s: W.Whole, acts: seq<W.Action>, t: W.Whole)
    requires W.Shape(x, s)
    decreases |acts|
  {
    if acts == [] then t == s
    else
      && W.Enabled(x, s, acts[0])
      && (acts[0].Serve? ==> Timely(kernel, Reap(s.procs[acts[0].c]), acts[0].env))
      && RunsTimely(kernel, x, W.Apply(x, s, acts[0]), acts[1..], t)
  }

  ghost predicate ReachesTimely(kernel: Kernel, x: W.Setup, acts: seq<W.Action>, t: W.Whole) {
    W.Starts(x) && RunsTimely(kernel, x, W.Init(x), acts, t)
  }

  lemma {:induction false} TimelyRuns(kernel: Kernel, x: W.Setup, s: W.Whole, acts: seq<W.Action>, t: W.Whole)
    requires W.Shape(x, s) && RunsTimely(kernel, x, s, acts, t)
    ensures W.Runs(x, s, acts, t) && W.Shape(x, t)
    decreases |acts|
  {
    if acts != [] {
      TimelyRuns(kernel, x, W.Apply(x, s, acts[0]), acts[1..], t);
    }
  }

  lemma {:induction false} Extend(
    kernel: Kernel, x: W.Setup, s: W.Whole, acts: seq<W.Action>, t: W.Whole, a: W.Action)
    requires W.Shape(x, s) && RunsTimely(kernel, x, s, acts, t) && W.Shape(x, t) && W.Enabled(x, t, a)
    requires a.Serve? ==> Timely(kernel, Reap(t.procs[a.c]), a.env)
    ensures RunsTimely(kernel, x, s, acts + [a], W.Apply(x, t, a))
    decreases |acts|
  {
    if acts == [] {
      assert ([] + [a])[1..] == [];
      assert RunsTimely(kernel, x, W.Apply(x, t, a), [], W.Apply(x, t, a));
    } else {
      Extend(kernel, x, W.Apply(x, s, acts[0]), acts[1..], t, a);
      assert (acts + [a])[0] == acts[0] && (acts + [a])[1..] == acts[1..] + [a];
    }
  }

  /** Each thread of such a run makes a run with such a kernel. */
  lemma {:induction false} ThreadRun(kernel: Kernel, x: W.Setup, s: W.Whole, acts: seq<W.Action>, t: W.Whole, c: nat)
    returns (hacts: seq<Action>)
    requires W.Shape(x, s) && RunsTimely(kernel, x, s, acts, t) && c < |s.procs|
    ensures |t.procs| == |s.procs| && RunsOn(kernel, x.w, s.procs[c], hacts, t.procs[c])
    decreases |acts|
  {
    if acts == [] {
      hacts := [];
    } else {
      var rest := ThreadRun(kernel, x, W.Apply(x, s, acts[0]), acts[1..], t, c);
      hacts := rest;
      if acts[0].Kernel? && acts[0].c == c {
        hacts := [acts[0].step] + rest;
        assert hacts[1..] == rest;
      } else if acts[0].Serve? && acts[0].c == c {
        hacts := [Dispatch(acts[0].env)] + rest;
        assert hacts[1..] == rest;
      }
    }
  }

  // ---------------------------------------------------------------------------
  // One thread

  /** A single thread whose transport never has anything to do. */
  ghost predicate Idle(x: W.Setup) {
    W.Starts(x) && |x.libs| == 1 && forall k: nat :: x.libs[0].answer(k, 0) == V.Blocked
  }

  /** A run so far of such a thread; its connection is whole and has nothing to send. */
  ghost predicate Run(kernel: Kernel, x: W.Setup, acts: seq<W.Action>, s: W.Whole) {
    && Idle(x) && ReachesTimely(kernel, x, acts, s) && |s.procs| == |s.links| == 1 && Still(s.links[0])
  }

  ghost predicate Still(link: W.Link) {
    !link.broken && V.SlotOk(link.conn.slot) && V.Unsent(link.conn.slot) == []
  }

  /** The queue holds m events, all for `path`, with a token for each. */
  ghost predicate Queued(q: Q.Sys, m: nat, path: Bytes) {
    && Q.Shape(q) && q.lock.None? && !q.owing && q.tokens == [m] && |Q.Contents(q.buffer)| == m
    && (forall j | 0 <= j < m :: Q.Contents(q.buffer)[j].path == path)
  }

  lemma LiftKernel(kernel: Kernel, x: W.Setup, acts: seq<W.Action>, s: W.Whole, a: Action, h: Sys)
    returns (acts': seq<W.Action>, t: W.Whole)
    requires Run(kernel, x, acts, s) && !a.Dispatch? && Enabled(x.w, s.procs[0], a) && h == Apply(x.w, s.procs[0], a)
    ensures Run(kernel, x, acts', t) && t == s.(procs := [h])
  {
    TimelyRuns(kernel, x, W.Init(x), acts, s);
    Extend(kernel, x, W.Init(x), acts, s, W.Kernel(0, a));
    acts', t := acts + [W.Kernel(0, a)], W.Apply(x, s, W.Kernel(0, a));
    assert t.procs == [h];
  }

  /** With nothing to send and nothing to do, a flush succeeds and changes nothing. */
  lemma FlushIdles(x: W.Setup, link: W.Link)
    requires Idle(x) && Still(link) && V.Inv(link.conn)
    ensures W.FlushOk(link.conn, x.libs[0], 0, 0)
    ensures Still(link.(conn := V.Flush(link.conn, x.libs[0]).0))
  {
    V.FlushRefused(link.conn, x.libs[0]);
    V.PreparedKeeps(link.conn);
  }

  /** A callback that neither consumes nor reports. */
  lemma LiftQuiet(kernel: Kernel, x: W.Setup, acts: seq<W.Action>, s: W.Whole, env: Env, h: Sys)
    returns (acts': seq<W.Action>, t: W.Whole)
    requires Run(kernel, x, acts, s) && Enabled(x.w, s.procs[0], Dispatch(env))
    requires h == Apply(x.w, s.procs[0], Dispatch(env)) && h.proc.sent == s.procs[0].proc.sent
    requires Timely(kernel, Reap(s.procs[0]), env) && !W.Wakes(s.procs[0]) && env.ok
    ensures Run(kernel, x, acts', t) && t.procs == [h] && t.queue == s.queue
  {
    TimelyRuns(kernel, x, W.Init(x), acts, s);
    FlushIdles(x, s.links[0]);
    var a := W.Serve(0, env, None, 0, 0);
    Extend(kernel, x, W.Init(x), acts, s, a);
    acts', t := acts + [a], W.Apply(x, s, a);
    assert t.procs == [h];
  }

  /** The queue while a token of its last m + 1 events is spent. */
  ghost predicate Locked(q: Q.Sys, m: nat, path: Bytes) {
    && Q.Shape(q) && q.lock == Some(0) && !q.owing && q.tokens == [m] && |Q.Contents(q.buffer)| == m + 1
    && (forall j | 0 <= j <= m :: Q.Contents(q.buffer)[j].path == path)
  }

  lemma SpendOne(q: Q.Sys, m: nat, path: Bytes)
    requires Queued(q, m + 1, path)
    ensures Q.Enabled(q, Q.SpendToken(0)) && Locked(Q.Apply(q, Q.SpendToken(0)), m, path)
    ensures Q.Apply(q, Q.SpendToken(0)).accepted == q.accepted
  {
    assert [m + 1][0 := m] == [m];
  }

  lemma TakeOne(q: Q.Sys, m: nat, path: Bytes)
    requires Locked(q, m, path)
    ensures Q.Enabled(q, Q.Take(0)) && Queued(Q.Apply(q, Q.Take(0)), m, path)
    ensures Q.Apply(q, Q.Take(0)).accepted == q.accepted && W.Grant(q, 0) == GotEvent(path)
  {
    Q.BufferIsFifo(q.buffer, Q.Event([], 0));
  }

  ghost predicate WakesFor(kernel: Kernel, x: W.Setup, h: Sys, env: Env, path: Bytes) {
    && Enabled(x.w, h, Dispatch(env)) && Timely(kernel, Reap(h), env) && W.Wakes(h) && env.got == GotEvent(path)
  }

  /** A wake-up: a token is spent, and the callback takes an event. */
  lemma LiftEvent(
    kernel: Kernel, x: W.Setup, acts: seq<W.Action>, s: W.Whole, env: Env, h: Sys, n: nat, m: nat, path: Bytes)
    returns (acts': seq<W.Action>, t: W.Whole)
    requires Run(kernel, x, acts, s) && WakesFor(kernel, x, s.procs[0], env, path)
    requires Queued(s.queue, n, path) && n == m + 1
    requires h == Apply(x.w, s.procs[0], Dispatch(env))
    ensures Run(kernel, x, acts', t) && t.procs == [h]
    ensures Queued(t.queue, m, path) && t.queue.accepted == s.queue.accepted
  {
    TimelyRuns(kernel, x, W.Init(x), acts, s);
    SpendOne(s.queue, m, path);
    Extend(kernel, x, W.Init(x), acts, s, W.Lock(0));
    var u := W.Apply(x, s, W.Lock(0));
    acts', t := LiftTake(kernel, x, acts + [W.Lock(0)], u, env, h, m, path);
  }

  lemma LiftTake(kernel: Kernel, x: W.Setup, acts: seq<W.Action>, s: W.Whole, env: Env, h: Sys, m: nat, path: Bytes)
    returns (acts': seq<W.Action>, t: W.Whole)
    requires Run(kernel, x, acts, s) && WakesFor(kernel, x, s.procs[0], env, path) && Locked(s.queue, m, path)
    requires h == Apply(x.w, s.procs[0], Dispatch(env))
    ensures Run(kernel, x, acts', t) && t.procs == [h]
    ensures Queued(t.queue, m, path) && t.queue.accepted == s.queue.accepted
  {
    TimelyRuns(kernel, x, W.Init(x), acts, s);
    TakeOne(s.queue, m, path);
    J.ServeLogs(x.w, s.procs[0], env);
    var a := W.Serve(0, env, None, 0, 0);
    Extend(kernel, x, W.Init(x), acts, s, a);
    acts', t := acts + [a], W.Apply(x, s, a);
    assert t.procs == [h];
  }

  // ---------------------------------------------------------------------------
  // The burst

  function Copies(path: Bytes, k: nat): seq<Q.Event> {
    seq(k, _ => Q.Event(path, |path|))
  }

  /** k events for `path` are accepted by the queue before anything else happens. */
  lemma {:induction false} Produced(kernel: Kernel, x: W.Setup, path: Bytes, k: nat)
    returns (acts: seq<W.Action>, s: W.Whole)
    requires Idle(x) && k < Q.QUEUE_SIZE
    ensures Run(kernel, x, acts, s) && s.procs == [Init(x.n, x.buffers[0])]
    ensures Queued(s.queue, k, path) && s.queue.accepted == Copies(path, k)
  {
    if k == 0 {
      acts, s := [], W.Init(x);
      assert s.procs == [Init(x.n, x.buffers[0])] && s.queue.tokens == [0];
    } else {
      var a, u := Produced(kernel, x, path, k - 1);
      acts, s := OneProduced(kernel, x, a, u, path, k - 1);
      assert s.queue.accepted == Copies(path, k);
    }
  }

  lemma OneProduced(kernel: Kernel, x: W.Setup, acts: seq<W.Action>, s: W.Whole, path: Bytes, m: nat)
    returns (acts': seq<W.Action>, t: W.Whole)
    requires Run(kernel, x, acts, s) && Queued(s.queue, m, path) && m < Q.QUEUE_SIZE - 1
    ensures Run(kernel, x, acts', t) && t.procs == s.procs && t.links == s.links && Queued(t.queue, m + 1, path)
    ensures t.queue.accepted == s.queue.accepted + [Q.Event(path, |path|)]
  {
    var e := Q.Event(path, |path|);
    TimelyRuns(kernel, x, W.Init(x), acts, s);
    AddOne(s.queue, m, path, e);
    Extend(kernel, x, W.Init(x), acts, s, W.Produce(e));
    var u := W.Apply(x, s, W.Produce(e));
    Extend(kernel, x, W.Init(x), acts + [W.Produce(e)], u, W.Notify);
    acts', t := acts + [W.Produce(e)] + [W.Notify], W.Apply(x, u, W.Notify);
  }

  lemma AddOne(q: Q.Sys, m: nat, path: Bytes, e: Q.Event)
    requires Queued(q, m, path) && m < Q.QUEUE_SIZE - 1 && e == Q.Event(path, |path|)
    ensures Q.Enabled(q, Q.Add(e)) && Q.Enabled(Q.Apply(q, Q.Add(e)), Q.Notify)
    ensures var r := Q.Apply(Q.Apply(q, Q.Add(e)), Q.Notify);
            Queued(r, m + 1, path) && r.accepted == q.accepted + [e]
  {
    Q.BufferIsFifo(q.buffer, e);
    assert Q.Apply(Q.Apply(q, Q.Add(e)), Q.Notify).tokens == [m + 1];
  }

  /** Kernels for which the heads loaded during the burst are timely. */
  ghost predicate Suits(kernel: Kernel) {
    kernel.Batched? ==>
      && Batches(kernel) && (forall q: nat :: kernel.start(q) <= q)
      && kernel.start(2) == 2 && kernel.start(3) == 3
  }

  lemma HeadTimely(kernel: Kernel, n: nat, s: Sys, subs: nat, c: nat, seen: nat, posted: nat, k: nat, used: nat,
                   env: Env)
    requires Suits(kernel) && Stage(n, s, subs, c, seen, posted, k, used) && k < posted && env.head1 == c
    requires s.posted[k].id in s.proc.ios
    requires s.posted[k].pos < if subs == 2 then 2 else 3
    requires subs >= 2
    ensures Timely(kernel, Reap(s), env)
  {
    if kernel.Batched? {
      assert kernel.start(if subs == 2 then 2 else 3) <= kernel.start(subs);
    }
  }

  /** The connection is being made, and the kernel has taken what was submitted. */
  lemma SocketAsked(kernel: Kernel, x: W.Setup, path: Bytes, m: nat) returns (acts: seq<W.Action>, s: W.Whole)
    requires Idle(x) && Suits(kernel) && m < Q.QUEUE_SIZE
    ensures Run(kernel, x, acts, s)
    ensures Queued(s.queue, m, path) && s.queue.accepted == Copies(path, m)
    ensures var h := s.procs[0];
            && Stage(x.n, h, 2, 2, 0, 1, 0, 0) && PollArmed(h) && Connecting(h, OnSocketCreate)
            && h.posted == [Cqe(Conn, 3, false, 1)]
  {
    var a0, s0 := Produced(kernel, x, path, m);
    var h0 := s0.procs[0];
    Started(x.w, x.n, x.buffers[0], Take(h0, 2));
    var a1, s1 := LiftKernel(kernel, x, a0, s0, Consume(2), Take(h0, 2));
    var h1 := s1.procs[0];
    var h2 := Finish(h1, h1.proc, Conn, 1, 3);
    CompleteConn(x.w, x.n, h1, h2, 1, 0, OnSocketCreate, 0);
    acts, s := LiftKernel(kernel, x, a1, s1, Complete(1, 3, false), h2);
  }

  lemma SocketStep(kernel: Kernel, x: W.Setup, s: Sys, env: Env, t: Sys)
    requires Suits(kernel) && Stage(x.n, s, 2, 2, 0, 1, 0, 0) && PollArmed(s) && Connecting(s, OnSocketCreate)
    requires s.posted == [Cqe(Conn, 3, false, 1)] && env == Env(GotNothing, 0, true, true, 2, 2)
    requires t == CaughtUp(Reap(s), Submit(OnSocketReady(Reap(s).proc, 3), Conn, 2))
    ensures Enabled(x.w, s, Dispatch(env)) && t == Apply(x.w, s, Dispatch(env)) && t.proc.sent == s.proc.sent
    ensures Timely(kernel, Reap(s), env) && !W.Wakes(s) && !W.Flushes(s, env)
    ensures Stage(x.n, t, 3, 2, 2, 1, 1, 0) && PollArmed(t) && ConnAs(t, 2, OnSocketConnect)
  {
    SocketReady(x.w, x.n, s, t, env);
    HeadTimely(kernel, x.n, s, 2, 2, 0, 1, 0, 0, env);
  }

  lemma SocketServed(kernel: Kernel, x: W.Setup, path: Bytes, m: nat) returns (acts: seq<W.Action>, s: W.Whole)
    requires Idle(x) && Suits(kernel) && m < Q.QUEUE_SIZE
    ensures Run(kernel, x, acts, s)
    ensures Queued(s.queue, m, path) && s.queue.accepted == Copies(path, m)
    ensures Stage(x.n, s.procs[0], 3, 2, 2, 1, 1, 0) && PollArmed(s.procs[0]) && ConnAs(s.procs[0], 2, OnSocketConnect)
  {
    var a0, s0 := SocketAsked(kernel, x, path, m);
    var h0, env := s0.procs[0], Env(GotNothing, 0, true, true, 2, 2);
    var h1 := CaughtUp(Reap(h0), Submit(OnSocketReady(Reap(h0).proc, 3), Conn, 2));
    SocketStep(kernel, x, h0, env, h1);
    acts, s := LiftQuiet(kernel, x, a0, s0, env, h1);
  }

  lemma ConnectAsked(kernel: Kernel, x: W.Setup, path: Bytes, m: nat) returns (acts: seq<W.Action>, s: W.Whole)
    requires Idle(x) && Suits(kernel) && m < Q.QUEUE_SIZE
    ensures Run(kernel, x, acts, s)
    ensures Queued(s.queue, m, path) && s.queue.accepted == Copies(path, m)
    ensures Stage(x.n, s.procs[0], 3, 3, 2, 1, 1, 0) && PollArmed(s.procs[0]) && ConnAs(s.procs[0], 2, OnSocketConnect)
  {
    var a0, s0 := SocketServed(kernel, x, path, m);
    ConnectTaken(x.w, x.n, s0.procs[0], Take(s0.procs[0], 3));
    acts, s := LiftKernel(kernel, x, a0, s0, Consume(3), Take(s0.procs[0], 3));
  }

  lemma ConnectDone(kernel: Kernel, x: W.Setup, path: Bytes, m: nat) returns (acts: seq<W.Action>, s: W.Whole)
    requires Idle(x) && Suits(kernel) && m < Q.QUEUE_SIZE
    ensures Run(kernel, x, acts, s)
    ensures Queued(s.queue, m, path) && s.queue.accepted == Copies(path, m)
    ensures var h := s.procs[0];
            && Stage(x.n, h, 3, 3, 2, 2, 1, 0) && PollArmed(h) && Connecting(h, OnSocketConnect)
            && h.posted[1] == Cqe(Conn, 3, false, 2)
  {
    var a0, s0 := ConnectAsked(kernel, x, path, m);
    var h0 := s0.procs[0];
    var h1 := Finish(h0, h0.proc, Conn, 2, 3);
    CompleteConn(x.w, x.n, h0, h1, 2, 2, OnSocketConnect, 1);
    acts, s := LiftKernel(kernel, x, a0, s0, Complete(2, 3, false), h1);
  }

  /** The kernel posts k wake-ups of the multishot poll. */
  lemma {:induction false} PostBurst(kernel: Kernel, x: W.Setup, path: Bytes, m: nat, k: nat)
    returns (acts: seq<W.Action>, s: W.Whole)
    requires Idle(x) && Suits(kernel) && m < Q.QUEUE_SIZE
    ensures Run(kernel, x, acts, s)
    ensures Queued(s.queue, m, path) && s.queue.accepted == Copies(path, m)
    ensures var h := s.procs[0];
            && Stage(x.n, h, 3, 3, 2, 2 + k, 1, 0) && PollArmed(h) && Connecting(h, OnSocketConnect)
            && h.posted[1] == Cqe(Conn, 3, false, 2)
            && (forall j | 2 <= j < 2 + k :: h.posted[j] == Cqe(Poll, 1, true, 0))
  {
    if k == 0 {
      acts, s := ConnectDone(kernel, x, path, m);
    } else {
      var a0, s0 := PostBurst(kernel, x, path, m, k - 1);
      var h0 := s0.procs[0];
      var h1 := h0.(posted := h0.posted + [Cqe(Poll, 1, true, 0)]);
      OneEvent(x.w, x.n, h0, h1, k - 1);
      acts, s := LiftKernel(kernel, x, a0, s0, Complete(0, 1, true), h1);
    }
  }

  lemma Posted(kernel: Kernel, x: W.Setup, path: Bytes, m: nat, burst: nat) returns (acts: seq<W.Action>, s: W.Whole)
    requires Idle(x) && Suits(kernel) && 0 < burst <= m < Q.QUEUE_SIZE
    ensures Run(kernel, x, acts, s)
    ensures Queued(s.queue, m, path) && s.queue.accepted == Copies(path, m)
    ensures var h := s.procs[0];
            && Stage(x.n, h, 3, 3, 2, 2 + burst, 1, 0) && Connecting(h, OnSocketConnect)
            && h.posted[1] == Cqe(Conn, 3, false, 2) && Events(h, burst)
  {
    var a0, s0 := PostBurst(kernel, x, path, m, burst - 1);
    var h0 := s0.procs[0];
    var h1 := Finish(h0, h0.proc, Poll, 0, 1);
    LastEvent(x.w, x.n, h0, h1, burst);
    acts, s := LiftKernel(kernel, x, a0, s0, Complete(0, 1, false), h1);
  }

  lemma Armed(kernel: Kernel, x: W.Setup, path: Bytes, m: nat, burst: nat) returns (acts: seq<W.Action>, s: W.Whole)
    requires Idle(x) && Suits(kernel) && 0 < burst <= m < Q.QUEUE_SIZE
    ensures Run(kernel, x, acts, s) && Queued(s.queue, m, path) && s.queue.accepted == Copies(path, m)
    ensures Draining(x.n, s.procs[0], path, burst, 0)
  {
    var a0, s0 := Posted(kernel, x, path, m, burst);
    var h, env := ArmNow(kernel, x, s0.procs[0], path, burst);
    acts, s := LiftQuiet(kernel, x, a0, s0, env, h);
  }

  lemma ArmNow(kernel: Kernel, x: W.Setup, h: Sys, path: Bytes, burst: nat) returns (v: Sys, env: Env)
    requires Suits(kernel) && Stage(x.n, h, 3, 3, 2, 2 + burst, 1, 0) && Connecting(h, OnSocketConnect)
    requires h.posted[1] == Cqe(Conn, 3, false, 2) && Events(h, burst) && Shape(h.proc)
    ensures Enabled(x.w, h, Dispatch(env)) && v == Apply(x.w, h, Dispatch(env)) && env.ok
    ensures Timely(kernel, Reap(h), env) && !W.Wakes(h) && v.proc.sent == h.proc.sent
    ensures Draining(x.n, v, path, burst, 0)
  {
    env := Env(GotNothing, 0, true, true, 3, 3);
    ReapShape(h);
    assert OnConnected(Reap(h).proc).ios.Keys == h.proc.ios.Keys;
    v := Serve(x.w, h, env);
    ArmBoth(x.w, x.n, h, v, env, burst);
    HeadTimely(kernel, x.n, h, 3, 3, 2, 2 + burst, 1, 0, env);
  }

  /** The k-th wake-up of the burst. */
  lemma WakeUp(kernel: Kernel, x: W.Setup, h: Sys, path: Bytes, burst: nat, k: nat, env: Env)
    requires Suits(kernel) && k < burst <= FULL && k < x.n
    requires Draining(x.n, h, path, burst, k)
    requires env == Env(GotEvent(path), k, true, true, 3, 3) && Enabled(x.w, h, Dispatch(env))
    ensures WakesFor(kernel, x, h, env, path)
  {
    HeadTimely(kernel, x.n, h, 5 + k, 3, 3, 2 + burst, 2 + k, k, env);
  }

  /** k wake-ups have been served, each for an event of the queue. */
  lemma {:induction false} Drained(kernel: Kernel, x: W.Setup, path: Bytes, m: nat, burst: nat, k: nat, left: nat)
    returns (acts: seq<W.Action>, s: W.Whole)
    requires Idle(x) && Suits(kernel) && k < burst <= FULL && burst <= m < Q.QUEUE_SIZE && k <= x.n && left == m - k
    ensures Run(kernel, x, acts, s) && Queued(s.queue, left, path) && s.queue.accepted == Copies(path, m)
    ensures Draining(x.n, s.procs[0], path, burst, k)
    decreases k
  {
    if k == 0 {
      acts, s := Armed(kernel, x, path, left, burst);
    } else {
      var a0, s0 := Drained(kernel, x, path, m, burst, k - 1, left + 1);
      acts, s := DrainOne(kernel, x, a0, s0, path, burst, k - 1, k, left + 1, left);
    }
  }

  lemma DrainOne(kernel: Kernel, x: W.Setup, acts: seq<W.Action>, s: W.Whole, path: Bytes, burst: nat, j: nat, k: nat,
                 n: nat, m: nat)
    returns (acts': seq<W.Action>, t: W.Whole)
    requires Suits(kernel) && k == j + 1 && k < burst <= FULL && k <= x.n && n == m + 1
    requires Run(kernel, x, acts, s) && Queued(s.queue, n, path) && Draining(x.n, s.procs[0], path, burst, j)
    ensures Run(kernel, x, acts', t) && Queued(t.queue, m, path) && t.queue.accepted == s.queue.accepted
    ensures Draining(x.n, t.procs[0], path, burst, k)
  {
    var v, env := DrainNow(kernel, x, s.procs[0], path, burst, j, k);
    acts', t := LiftEvent(kernel, x, acts, s, env, v, n, m, path);
  }

  lemma DrainNow(kernel: Kernel, x: W.Setup, h: Sys, path: Bytes, burst: nat, j: nat, k: nat)
    returns (v: Sys, env: Env)
    requires Suits(kernel) && k == j + 1 && k < burst <= FULL && k <= x.n && Draining(x.n, h, path, burst, j)
    ensures WakesFor(kernel, x, h, env, path) && v == Apply(x.w, h, Dispatch(env))
    ensures Draining(x.n, v, path, burst, k)
  {
    env := Env(GotEvent(path), j, true, true, 3, 3);
    v := Serve(x.w, h, env);
    OneMore(x.w, x.n, h, v, j, path, env, burst);
    WakeUp(kernel, x, h, path, burst, j, env);
  }

  lemma BurstServed(kernel: Kernel, x: W.Setup, path: Bytes, m: nat, burst: nat)
    returns (acts: seq<W.Action>, s: W.Whole, h: Sys, env: Env)
    requires Idle(x) && Suits(kernel) && 0 < burst <= FULL && burst <= m < Q.QUEUE_SIZE && burst <= x.n
    ensures Draining(x.n, h, path, burst, burst - 1) && Shape(h.proc)
    ensures Run(kernel, x, acts, s) && Queued(s.queue, m - burst, path) && s.queue.accepted == Copies(path, m)
    ensures env == Env(GotEvent(path), burst - 1, true, true, 3, 3) && s.procs == [Serve(x.w, h, env)]
  {
    var a0, s0 := Drained(kernel, x, path, m, burst, burst - 1, m - (burst - 1));
    h, env := s0.procs[0], Env(GotEvent(path), burst - 1, true, true, 3, 3);
    acts, s := ServeLast(kernel, x, a0, s0, path, m - (burst - 1), m - burst, burst - 1, burst, env);
  }

  lemma ServeLast(kernel: Kernel, x: W.Setup, acts: seq<W.Action>, s: W.Whole, path: Bytes, n: nat, m: nat, k: nat,
                  burst: nat, env: Env)
    returns (acts': seq<W.Action>, t: W.Whole)
    requires Suits(kernel) && burst == k + 1 && burst <= FULL && burst <= x.n && n == m + 1
    requires Run(kernel, x, acts, s) && Queued(s.queue, n, path) && Draining(x.n, s.procs[0], path, burst, k)
    requires env == Env(GotEvent(path), k, true, true, 3, 3) && Shape(s.procs[0].proc)
    ensures Run(kernel, x, acts', t) && Queued(t.queue, m, path) && t.queue.accepted == s.queue.accepted
    ensures t.procs == [Serve(x.w, s.procs[0], env)]
  {
    LastNow(kernel, x, s.procs[0], path, k, burst, env);
    acts', t := LiftEvent(kernel, x, acts, s, env, Serve(x.w, s.procs[0], env), n, m, path);
  }

  lemma LastNow(kernel: Kernel, x: W.Setup, h: Sys, path: Bytes, k: nat, burst: nat, env: Env)
    requires Suits(kernel) && burst == k + 1 && burst <= FULL && burst <= x.n && Draining(x.n, h, path, burst, k)
    requires env == Env(GotEvent(path), k, true, true, 3, 3) && Shape(h.proc)
    ensures WakesFor(kernel, x, h, env, path) && Serve(x.w, h, env) == Apply(x.w, h, Dispatch(env))
  {
    LastServed(x.w, x.n, h, Serve(x.w, h, env), path, env, burst);
    WakeUp(kernel, x, h, path, burst, k, env);
  }

  // ---------------------------------------------------------------------------
  // Main results

  /** With more than 125 slots there is, for any file, a run of the whole system, with a prompt
      kernel and never more completions than their ring holds, in which the queue accepts 126
      events for the file and hands them all out, and after which the poll is lost while the
      thread keeps running. */
  lemma Overflow(x: W.Setup, path: Bytes) returns (acts: seq<W.Action>, t: W.Whole)
    requires Idle(x) && x.n > SafeSlots(Prompt)
    ensures ReachesTimely(Prompt, x, acts, t) && W.Reaches(x, acts, t) && |t.procs| == 1
    ensures t.queue.accepted == Copies(path, FULL) && Q.Shape(t.queue) && Q.Contents(t.queue.buffer) == []
    ensures var p := t.procs[0].proc;
            && p.status == Running && |p.lost| == 1 && p.lost[0].id == Poll && |t.procs[0].posted| <= 256
            && |p.jobs| == FULL && forall j | 0 <= j < FULL :: p.jobs[j].path == path
  {
    var h, env;
    acts, t, h, env := BurstServed(Prompt, x, path, FULL, FULL);
    BurstLost(x, h, path, env);
    TimelyRuns(Prompt, x, W.Init(x), acts, t);
  }

  lemma BurstLost(x: W.Setup, h: Sys, path: Bytes, env: Env)
    requires Draining(x.n, h, path, FULL, FULL - 1) && Shape(h.proc) && FULL <= x.n
    requires env == Env(GotEvent(path), FULL - 1, true, true, 3, 3)
    ensures var t := Serve(x.w, h, env);
            && t.proc.status == Running && |t.proc.lost| == 1 && t.proc.lost[0].id == Poll && |t.posted| <= 256
            && |t.proc.jobs| == FULL && forall j | 0 <= j < FULL :: t.proc.jobs[j].path == path
  {
    LastServed(x.w, x.n, h, Serve(x.w, h, env), path, env, FULL);
  }

  /** With a prompt kernel, no run ever loses a submission if and only if the slab has at most
      125 slots. */
  lemma NeverFullIff(w: World, n: nat, buffers: seq<Bytes>)
    requires Buffers(n, buffers)
    ensures (forall acts, t | ReachesOn(Prompt, w, n, buffers, acts, t) :: t.proc.lost == [])
            <==> n <= SafeSlots(Prompt)
  {
    if n <= SafeSlots(Prompt) {
      forall acts, t | ReachesOn(Prompt, w, n, buffers, acts, t) ensures t.proc.lost == [] {
        NeverFull(Prompt, w, n, buffers, acts, t);
      }
    } else {
      var x := IdleSetup(w, n, buffers);
      var acts, t := Overflow(x, [47, 97]);
      var hacts := ThreadRun(Prompt, x, W.Init(x), acts, t, 0);
      assert ReachesOn(Prompt, w, n, buffers, hacts, t.procs[0]) && t.procs[0].proc.lost != [];
    }
  }

  lemma IdleSetup(w: World, n: nat, buffers: seq<Bytes>) returns (x: W.Setup)
    requires Buffers(n, buffers)
    ensures Idle(x) && x.w == w && x.n == n && x.buffers == [buffers]
  {
    var lib := V.Library((_, _) => V.Blocked, 0);
    x := W.Setup(w, n, seq(Q.QUEUE_SIZE, _ => Q.Event([], 0)), [buffers], [seq(V.SLOT_SIZE, _ => 0)], [lib]);
  }
}
