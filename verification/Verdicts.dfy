/** When a thread stops: for every completion, what the thread's status is once it has been
    served, said without the callbacks. */
module Verdicts {
  import opened Requests
  import opened Runtime
  import opened HashSystem
  import opened KernelSteps
  import opened HashRuns
  import opened HashTheorems

  /** verifier_flush_egress exits when the flush failed, or when the timer is armed already and
      no slot is left for its update. */
  predicate FlushExits(p: Proc, ok: bool)
    requires Timer in p.ios
  {
    !ok || (p.ios[Timer].opcode == TimeoutOp && p.free == [])
  }

  /** Serving `c`, whose object's callback is `cb`, ends the process. */
  predicate Exits(p: Proc, cb: Callback, c: Cqe, env: Env)
    requires Timer in p.ios
  {
    match cb
    case OnQueueEvent =>
      c.res == -9 || c.res == -22 || (c.res >= 0 && !env.got.GotNothing? && p.free == [])
    case OnSocketCreate => c.res < 0
    case OnSocketConnect => c.res < 0 || !env.init || FlushExits(p, env.ok)
    case OnSocketRead => c.res < 0 || FlushExits(p, env.ok)
    case _ => false
  }

  /** The end of a file is reported only over a connection. */
  function Verdict(p: Proc, cb: Callback, c: Cqe, env: Env): Status
    requires Timer in p.ios
  {
    if Exits(p, cb, c, env) then Exited
    else if cb == OnFileRead && c.res == 0 && !p.connected then NoConnection
    else Running
  }

  // ---------------------------------------------------------------------------
  // Callback by callback, up to the faults that never happen

  lemma FlushVerdict(p: Proc, ok: bool, head: nat)
    requires Shape(p) && p.status == Running
    ensures var r := FlushEgress(p, ok, head);
            r.status == Faulted || r.status == if FlushExits(p, ok) then Exited else Running
  {
  }

  lemma QueueVerdict(p: Proc, c: Cqe, env: Env)
    requires Shape(p) && p.status == Running
    ensures var r := OnQueue(p, c.res, c.more, env.got, env.ptr, env.head1, env.head2);
            r.status == Faulted || r.status == Verdict(p, OnQueueEvent, c, env)
  {
    if c.res >= 0 && !env.got.GotNothing? && p.free != [] {
      QueueOpens(p, c, env);
    }
  }

  lemma ReadVerdict(w: World, p: Proc, i: nat, c: Cqe, env: Env)
    requires i < |p.slots| && Slot(i) in p.ios && p.status == Running && Timer in p.ios
    ensures var r := OnRead(w, p, i, c.res, env.head1);
            r.status == Faulted || r.status == Verdict(p, OnFileRead, c, env)
  {
    if c.res > 0 {
      var p1 := Feed(p, i, c.res);
      assert p1.status == Faulted || p1.status == Running;
    }
  }

  lemma OpenVerdict(p: Proc, i: nat, c: Cqe, env: Env)
    requires i < |p.slots| && Slot(i) in p.ios && p.status == Running
    ensures var r := OnOpen(p, i, c.res, env.head1); r.status == Faulted || r.status == Running
  {
    if c.res < 0 {
      var p1 := DropPath(Settle(p, i, OpenFailed), i);
      assert p1.status == Faulted || p1.status == Running;
    }
  }

  /** Submitting recv_req changes nothing the flush looks at. */
  lemma RecvVerdict(p: Proc, env: Env)
    requires Shape(p) && p.status == Running && Shape(Submit(p, Recv, env.head1))
    ensures var r := AfterFirst(Submit(p, Recv, env.head1), env);
            r.status == Faulted || r.status == if FlushExits(p, env.ok) then Exited else Running
  {
    var p1 := Submit(p, Recv, env.head1);
    assert p1.free == p.free && p1.ios[Timer] == p.ios[Timer] && p1.status == Running;
    FlushVerdict(p1, env.ok, env.head2);
  }

  // ---------------------------------------------------------------------------
  // Served

  /** The completion about to be served is for callback `cb`. */
  ghost predicate Due(s: Sys, cb: Callback) {
    && s.reaped < |s.posted| && s.posted[s.reaped].id in s.proc.ios && Shape(s.proc) && s.proc.status == Running
    && s.proc.ios[s.posted[s.reaped].id].callback == cb
  }

  ghost predicate Ends(w: World, s: Sys, env: Env, cb: Callback)
    requires Due(s, cb)
  {
    var st := Serve(w, s, env).proc.status;
    st == Faulted || st == Verdict(s.proc, cb, s.posted[s.reaped], env)
  }

  /** Reaping changes nothing the verdict looks at. */
  lemma ReapSame(s: Sys, cb: Callback, env: Env)
    requires Due(s, cb)
    ensures var p, c := Reap(s).proc, s.posted[s.reaped];
            && Shape(p) && p.status == Running && c.id in p.ios && p.ios[c.id].callback == cb
            && FlushExits(p, env.ok) == FlushExits(s.proc, env.ok)
            && Verdict(p, cb, c, env) == Verdict(s.proc, cb, c, env)
  {
    ReapShape(s);
    var p := Reap(s).proc;
    assert p.free == s.proc.free && p.connected == s.proc.connected;
    assert p.ios[Timer].opcode == s.proc.ios[Timer].opcode;
  }

  lemma QueueServed(w: World, s: Sys, env: Env)
    requires Due(s, OnQueueEvent)
    ensures Ends(w, s, env, OnQueueEvent)
  {
    ReapSame(s, OnQueueEvent, env);
    QueueVerdict(Reap(s).proc, s.posted[s.reaped], env);
  }

  lemma ReadServed(w: World, s: Sys, env: Env)
    requires Due(s, OnFileRead) && s.posted[s.reaped].id.Slot?
    ensures Ends(w, s, env, OnFileRead)
  {
    ReapSame(s, OnFileRead, env);
    ReadVerdict(w, Reap(s).proc, s.posted[s.reaped].id.index, s.posted[s.reaped], env);
  }

  lemma OpenServed(w: World, s: Sys, env: Env)
    requires Due(s, OnFileOpen) && s.posted[s.reaped].id.Slot?
    ensures Ends(w, s, env, OnFileOpen)
  {
    ReapSame(s, OnFileOpen, env);
    OpenVerdict(Reap(s).proc, s.posted[s.reaped].id.index, s.posted[s.reaped], env);
  }

  lemma SocketReadServed(w: World, s: Sys, env: Env)
    requires Due(s, OnSocketRead)
    ensures Ends(w, s, env, OnSocketRead)
  {
    ReapSame(s, OnSocketRead, env);
    if s.posted[s.reaped].res >= 0 {
      SubmitShape(Reap(s).proc, Recv, env.head1);
      RecvVerdict(Reap(s).proc, env);
    }
  }

  lemma ConnectServed(w: World, s: Sys, env: Env)
    requires Due(s, OnSocketConnect)
    ensures Ends(w, s, env, OnSocketConnect)
  {
    ReapSame(s, OnSocketConnect, env);
    if s.posted[s.reaped].res >= 0 && env.init {
      ServeConnect(w, s, env);
      ConnectedSame(Reap(s).proc, env);
      RecvVerdict(OnConnected(Reap(s).proc), env);
    }
  }

  lemma ConnectedSame(p: Proc, env: Env)
    requires Shape(p) && p.status == Running
    ensures var v := OnConnected(p);
            Shape(v) && v.status == Running && FlushExits(v, env.ok) == FlushExits(p, env.ok)
  {
    assert OnConnected(p).ios.Keys == p.ios.Keys;
  }

  lemma OtherServed(w: World, s: Sys, env: Env, cb: Callback)
    requires Due(s, cb) && (cb == OnSocketCreate || cb == OnTimeout || cb == OnTimeoutUpdate)
    ensures Ends(w, s, env, cb)
  {
    ReapSame(s, cb, env);
  }

  lemma ServeVerdict(w: World, s: Sys, env: Env, cb: Callback)
    requires Inv(w, s) && Due(s, cb)
    ensures Ends(w, s, env, cb)
  {
    CallbackOwner(w, s, s.posted[s.reaped].id);
    match cb
    case OnQueueEvent => QueueServed(w, s, env);
    case OnFileRead => ReadServed(w, s, env);
    case OnFileOpen => OpenServed(w, s, env);
    case OnSocketRead => SocketReadServed(w, s, env);
    case OnSocketConnect => ConnectServed(w, s, env);
    case _ => OtherServed(w, s, env, cb);
  }

  // ---------------------------------------------------------------------------
  // Main result

  /** In every run, a thread that serves a completion exits, or stops for want of a connection,
      exactly in the cases of `Verdict`, and otherwise goes on. */
  lemma StopsExactlyWhen(w: World, n: nat, buffers: seq<Bytes>, acts: seq<Action>, t: Sys, env: Env)
    requires Reaches(w, n, buffers, acts, t) && Enabled(w, t, Dispatch(env))
    ensures var c := t.posted[t.reaped];
            Apply(w, t, Dispatch(env)).proc.status == Verdict(t.proc, t.proc.ios[c.id].callback, c, env)
  {
    ReachesInv(w, n, buffers, acts, t);
    ServeVerdict(w, t, env, t.proc.ios[t.posted[t.reaped].id].callback);
    DispatchKeeps(w, t, env);
  }
}
