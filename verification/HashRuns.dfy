/** Every run of a processor with the kernel: the invariant holds throughout, and with it
    ownership, hashing and resource guarantees. */
module HashRuns {
  import opened Requests
  import opened Runtime
  import opened HashSystem
  import opened Ownership
  import opened FileState
  import opened KernelSteps
  import opened FileSteps
  import opened LoopSteps

  lemma EmissionsGrow(w: World, p: Proc, r: Proc)
    requires Emissions(w, p) && p.jobs <= r.jobs && r.emitted == p.emitted && r.sent == p.sent
    requires p.status == Running && r.status != NoConnection
    ensures Emissions(w, r)
  {
  }

  ghost predicate Served(w: World, s: Sys, env: Env, cb: Callback) {
    && Full(w, s) && Emissions(w, s.proc) && s.proc.status == Running
    && s.reaped < |s.posted| && s.posted[s.reaped].id in s.proc.ios
    && s.proc.ios[s.posted[s.reaped].id].callback == cb
    && s.proc.seen <= env.head1 <= env.head2 && env.ptr !in s.proc.strs
  }

  lemma CallbackOwner(w: World, s: Sys, id: ReqId)
    requires Full(w, s) && Next(s, id)
    ensures match s.proc.ios[id].callback
            case OnQueueEvent => id == Poll
            case OnFileOpen => id.Slot? && id.index < |s.proc.slots|
            case OnFileRead => id.Slot? && id.index < |s.proc.slots|
            case OnTimeoutUpdate => id.Slot? && id.index < |s.proc.slots|
            case OnTimeout => id == Timer
            case OnSocketCreate => id == Conn
            case OnSocketConnect => id == Conn
            case OnSocketRead => id == Recv
            case NoCallback => false
  {
    assert CqeOk(s, s.reaped);
    if id.Slot? {
      assert SlotData(w, s, id.index);
    } else {
      DeliveredSingle(s, id);
    }
  }

  /** A callback's outcome: stopped, or running with the invariant restored; lines untouched. */
  ghost predicate Outcome(w: World, r: Sys, t: Sys) {
    && (t.proc.status == Exited || (t.proc.status == Running && Full(w, t)))
    && r.proc.jobs <= t.proc.jobs && t.proc.emitted == r.proc.emitted && t.proc.sent == r.proc.sent
  }

  lemma QueueStep(w: World, s: Sys, t: Sys, env: Env)
    requires Served(w, s, env, OnQueueEvent) && Next(s, Poll) && Shape(Reap(s).proc)
    requires var c := s.posted[s.reaped];
             t == CaughtUp(Reap(s), OnQueue(Reap(s).proc, c.res, c.more, env.got, env.ptr, env.head1, env.head2))
    ensures Inv(w, t)
  {
    ReapSingle(w, s, Poll);
    ReapFiles(s, Poll);
    DeliveredSingle(s, Poll);
    QueueBody(w, Reap(s), t, s.posted[s.reaped], env);
    EmissionsGrow(w, s.proc, t.proc);
  }

  ghost predicate QueueReady(w: World, r: Sys, c: Cqe, env: Env) {
    && Mid(w, r) && r.proc.status == Running && env.ptr !in r.proc.strs && Shape(r.proc)
    && r.proc.seen <= env.head1 <= env.head2 && SettledBut(r.proc, Poll)
    && (c.more ==> Settled(r.proc) && c.res >= 0) && (!c.more ==> AtHand(r.proc, Poll))
  }

  lemma QueueError(w: World, r: Sys, t: Sys, c: Cqe, env: Env)
    requires QueueReady(w, r, c, env) && c.res < 0
    requires t == CaughtUp(r, OnQueue(r.proc, c.res, c.more, env.got, env.ptr, env.head1, env.head2))
    ensures Outcome(w, r, t)
  {
    if c.res == -EBADF || c.res == -EINVAL {
      assert t.proc == r.proc.(status := Exited);
    } else {
      PollAgain(w, r, t, env.head1);
    }
  }

  lemma QueueEmpty(w: World, r: Sys, t: Sys, c: Cqe, env: Env)
    requires QueueReady(w, r, c, env) && c.res >= 0 && env.got.GotNothing?
    requires t == CaughtUp(r, OnQueue(r.proc, c.res, c.more, env.got, env.ptr, env.head1, env.head2))
    ensures Outcome(w, r, t)
  {
    if !c.more {
      PollAgain(w, r, t, env.head2);
    } else {
      assert t == CaughtUp(r, r.proc) == r;
    }
  }

  lemma QueueBody(w: World, r: Sys, t: Sys, c: Cqe, env: Env)
    requires QueueReady(w, r, c, env)
    requires t == CaughtUp(r, OnQueue(r.proc, c.res, c.more, env.got, env.ptr, env.head1, env.head2))
    ensures Outcome(w, r, t)
  {
    if c.res < 0 {
      QueueError(w, r, t, c, env);
    } else if env.got.GotNothing? {
      QueueEmpty(w, r, t, c, env);
    } else {
      QueueTakes(w, r, t, c, env);
    }
  }

  lemma QueueTakes(w: World, r: Sys, t: Sys, c: Cqe, env: Env)
    requires QueueReady(w, r, c, env) && c.res >= 0 && !env.got.GotNothing?
    requires t == CaughtUp(r, OnQueue(r.proc, c.res, c.more, env.got, env.ptr, env.head1, env.head2))
    ensures Outcome(w, r, t)
  {
    if r.proc.free == [] {
      assert t.proc == r.proc.(status := Exited);
    } else {
      QueueOpens(r.proc, c, env);
      QueueOpenStep(w, r, t, c.more, env);
    }
  }

  /** The queue callback once it has an event and a slot. */
  lemma QueueOpens(p: Proc, c: Cqe, env: Env)
    requires Shape(p) && p.free != [] && c.res >= 0 && !env.got.GotNothing?
    ensures Slot(p.free[0]) in p.ios
    ensures var p1 := OpenEvent(p, env.got, env.ptr, env.head1);
            && Poll in p1.ios
            && OnQueue(p, c.res, c.more, env.got, env.ptr, env.head1, env.head2)
               == if p1.status != Running || c.more then p1 else Submit(p1, Poll, env.head2)
  {
    assert OpenEvent(p, env.got, env.ptr, env.head1).ios.Keys == p.ios.Keys;
  }

  lemma PollAgain(w: World, r: Sys, t: Sys, head: nat)
    requires Mid(w, r) && r.proc.status == Running && AtHand(r.proc, Poll) && SettledBut(r.proc, Poll)
    requires r.proc.seen <= head && t == CaughtUp(r, Submit(r.proc, Poll, head))
    ensures Outcome(w, r, t)
  {
    SubmitSingle(w, r, Poll, head);
    SubmitFiles(r.proc, Poll, head);
  }

  lemma QueueOpenStep(w: World, r: Sys, t: Sys, more: bool, env: Env)
    requires Mid(w, r) && r.proc.free != [] && env.ptr !in r.proc.strs && r.proc.status == Running
    requires r.proc.seen <= env.head1 <= env.head2 && SettledBut(r.proc, Poll)
    requires r.proc.free[0] < |r.proc.slots| && Slot(r.proc.free[0]) in r.proc.ios && Poll in r.proc.ios
    requires if more then Settled(r.proc) else AtHand(r.proc, Poll)
    requires var p1 := OpenEvent(r.proc, env.got, env.ptr, env.head1);
             && (p1.status == Running && !more ==> Poll in p1.ios)
             && t == CaughtUp(r, if p1.status != Running || more then p1 else Submit(p1, Poll, env.head2))
    ensures Outcome(w, r, t)
  {
    var u := CaughtUp(r, OpenEvent(r.proc, env.got, env.ptr, env.head1));
    OpenEventKeeps(w, r, u, env.got, env.ptr, env.head1);
    if !more {
      SubmitSingle(w, u, Poll, env.head2);
      SubmitFiles(u.proc, Poll, env.head2);
      assert t == CaughtUp(u, Submit(u.proc, Poll, env.head2));
    }
  }

  /** verifier_flush_egress from a settled state. */
  lemma FlushStep(w: World, u: Sys, t: Sys, ok: bool, head: nat)
    requires Mid(w, u) && Settled(u.proc) && u.proc.status == Running && u.proc.connected && u.proc.seen <= head
    requires Shape(u.proc)
    requires t == CaughtUp(u, FlushEgress(u.proc, ok, head))
    ensures Outcome(w, u, t)
  {
    var p := u.proc;
    if !ok || (p.ios[Timer].opcode == TimeoutOp && p.free == []) {
      assert t.proc == p.(status := Exited);
    } else if p.ios[Timer].opcode == TimeoutOp {
      GetReqKeeps(u);
      GetReqTook(u);
      UpdateKeeps(w, u, t, head);
    } else {
      ArmTimer(w, u, t, head);
    }
  }

  /** The timer's only submission. */
  lemma ArmTimer(w: World, u: Sys, t: Sys, head: nat)
    requires Mid(w, u) && Settled(u.proc) && u.proc.connected && u.proc.seen <= head
    requires u.proc.ios[Timer].opcode != TimeoutOp
    requires t == CaughtUp(u, Submit(SetIo(u.proc, Timer, TimerIo(u.proc.ios[Timer])), Timer, head))
    ensures t.proc.status == u.proc.status && Full(w, t)
    ensures t.proc.jobs == u.proc.jobs && t.proc.emitted == u.proc.emitted && t.proc.sent == u.proc.sent
  {
    var v := u.(proc := SetIo(u.proc, Timer, TimerIo(u.proc.ios[Timer])));
    TimerMid(w, u, v);
    SubmitSingle(w, v, Timer, head);
    SubmitFiles(v.proc, Timer, head);
  }

  lemma TimerMid(w: World, u: Sys, v: Sys)
    requires Mid(w, u) && Settled(u.proc) && u.proc.connected && u.proc.ios[Timer].opcode != TimeoutOp
    requires v == u.(proc := SetIo(u.proc, Timer, TimerIo(u.proc.ios[Timer])))
    ensures Mid(w, v) && MaySubmit(v.proc, Timer) && SettledBut(v.proc, Timer)
  {
    EditSingle(w, u, Timer, TimerIo(u.proc.ios[Timer]));
  }

  lemma CreateStep(w: World, s: Sys, t: Sys, env: Env)
    requires Served(w, s, env, OnSocketCreate) && Next(s, Conn)
    requires s.posted[s.reaped].res >= 0
    requires t == CaughtUp(Reap(s), Submit(OnSocketReady(Reap(s).proc, s.posted[s.reaped].res), Conn, env.head1))
    ensures Inv(w, t)
  {
    ReapSingle(w, s, Conn);
    ReapFiles(s, Conn);
    DeliveredSingle(s, Conn);
    ConnectAgain(w, Reap(s), t, s.posted[s.reaped].res, env.head1);
    EmissionsGrow(w, s.proc, t.proc);
  }

  /** Rewriting an embedded object at hand touches no file. */
  lemma EditSingle(w: World, r: Sys, id: ReqId, io: Io)
    requires Own(r) && Data(w, r) && AtHand(r.proc, id) && !id.Slot? && (io.loc.Held? || io.loc.Parked?)
    ensures var v := r.(proc := SetIo(r.proc, id, io)); Own(v) && Data(w, v) && SameFiles(r.proc, v.proc)
  {
    var v := r.(proc := SetIo(r.proc, id, io));
    EditKeeps(r, id, io);
    assert v.proc.ios.Keys == r.proc.ios.Keys;
    SingleLocal(w, r, v);
    LocalKeeps(w, r, v, |r.proc.slots|);
  }

  lemma ConnectAgain(w: World, r: Sys, t: Sys, fd: int, head: nat)
    requires Mid(w, r) && r.proc.status == Running && AtHand(r.proc, Conn) && SettledBut(r.proc, Conn)
    requires !r.proc.connected && r.proc.ios[Conn].loc == Held && r.proc.seen <= head
    requires t == CaughtUp(r, Submit(OnSocketReady(r.proc, fd), Conn, head))
    ensures Outcome(w, r, t)
  {
    var v := r.(proc := OnSocketReady(r.proc, fd));
    SocketMid(w, r, v, fd);
    SubmitSingle(w, v, Conn, head);
    SubmitFiles(v.proc, Conn, head);
  }

  lemma SocketMid(w: World, r: Sys, v: Sys, fd: int)
    requires Mid(w, r) && AtHand(r.proc, Conn) && SettledBut(r.proc, Conn) && !r.proc.connected
    requires r.proc.ios[Conn].loc == Held && v == r.(proc := OnSocketReady(r.proc, fd))
    ensures Mid(w, v) && MaySubmit(v.proc, Conn) && SettledBut(v.proc, Conn) && SameFiles(r.proc, v.proc)
  {
    EditSingle(w, r, Conn, v.proc.ios[Conn]);
  }

  lemma ConnectedOwn(r: Sys, v: Sys)
    requires Own(r) && AtHand(r.proc, Conn) && AtHand(r.proc, Recv) && v == r.(proc := OnConnected(r.proc))
    ensures Own(v)
  {
    var p1 := SetIo(r.proc, Conn, r.proc.ios[Conn].(loc := Parked));
    EditKeeps(r, Conn, p1.ios[Conn]);
    var p2 := SetIo(p1, Recv, v.proc.ios[Recv]);
    EditKeeps(r.(proc := p1), Recv, v.proc.ios[Recv]);
    FrameKeeps(r.(proc := p2), v.proc);
  }

  lemma ConnectedSingles(p: Proc, v: Proc)
    requires HasIds(p) && Singles(p) && SettledBut(p, Conn) && !p.connected && v == OnConnected(p)
    requires p.ios[Conn].callback == OnSocketConnect
    ensures HasIds(v) && Singles(v) && Settled(v) && SameFiles(p, v)
  {
    assert v.ios.Keys == p.ios.Keys;
  }

  lemma ConnectedKeeps(w: World, r: Sys, v: Sys)
    requires Mid(w, r) && AtHand(r.proc, Conn) && SettledBut(r.proc, Conn)
    requires !r.proc.connected && r.proc.ios[Conn].loc == Held && v == r.(proc := OnConnected(r.proc))
    requires r.proc.ios[Conn].callback == OnSocketConnect
    ensures Mid(w, v) && Settled(v.proc) && AtHand(v.proc, Recv) && v.proc.connected
    ensures SameFiles(r.proc, v.proc) && v.proc.status == r.proc.status && v.proc.seen == r.proc.seen
    ensures v.proc.free == r.proc.free && v.proc.sent == r.proc.sent
  {
    ConnectedOwn(r, v);
    ConnectedSingles(r.proc, v.proc);
    SingleLocal(w, r, v);
    LocalKeeps(w, r, v, |r.proc.slots|);
  }

  lemma CatchUpTwice(s: Sys, p1: Proc, p2: Proc)
    requires p1.seen <= p2.seen
    ensures CaughtUp(CaughtUp(s, p1), p2) == CaughtUp(s, p2)
  {
  }

  /** Submitting recv_req, then flushing. */
  lemma RecvThenFlush(w: World, v: Sys, u: Sys, t: Sys, env: Env)
    requires Mid(w, v) && v.proc.status == Running && v.proc.connected && AtHand(v.proc, Recv)
    requires SettledBut(v.proc, Recv) && v.proc.seen <= env.head1 <= env.head2
    requires u == CaughtUp(v, Submit(v.proc, Recv, env.head1)) && Shape(u.proc)
    requires t == CaughtUp(u, FlushEgress(u.proc, env.ok, env.head2))
    ensures Outcome(w, v, t)
  {
    SubmitSingle(w, v, Recv, env.head1);
    SubmitFiles(v.proc, Recv, env.head1);
    FlushStep(w, u, t, env.ok, env.head2);
  }

  lemma FlushSeen(p: Proc, ok: bool, head: nat)
    requires Shape(p) && p.seen <= head && p.seen <= |p.subs|
    ensures FlushEgress(p, ok, head).seen >= p.seen
  {
  }

  lemma ConnectStep(w: World, s: Sys, t: Sys, env: Env)
    requires Served(w, s, env, OnSocketConnect) && Next(s, Conn) && HasIds(Reap(s).proc)
    requires Shape(Submit(OnConnected(Reap(s).proc), Recv, env.head1))
    requires t == CaughtUp(Reap(s), AfterFirst(Submit(OnConnected(Reap(s).proc), Recv, env.head1), env))
    ensures Inv(w, t)
  {
    ReapSingle(w, s, Conn);
    ReapFiles(s, Conn);
    DeliveredSingle(s, Conn);
    var v := Reap(s).(proc := OnConnected(Reap(s).proc));
    ConnectedKeeps(w, Reap(s), v);
    RecvPart(w, v, t, env);
    EmissionsGrow(w, s.proc, t.proc);
  }

  lemma RecvPart(w: World, v: Sys, t: Sys, env: Env)
    requires Mid(w, v) && v.proc.status == Running && v.proc.connected && AtHand(v.proc, Recv)
    requires SettledBut(v.proc, Recv) && v.proc.seen <= env.head1 <= env.head2
    requires Shape(Submit(v.proc, Recv, env.head1))
    requires t == CaughtUp(v, AfterFirst(Submit(v.proc, Recv, env.head1), env))
    ensures Outcome(w, v, t)
  {
    SubmitFiles(v.proc, Recv, env.head1);
    var p1 := Submit(v.proc, Recv, env.head1);
    assert p1.seen <= |p1.subs| by { SubmitKeeps(v, Recv, env.head1); }
    FlushSeen(p1, env.ok, env.head2);
    CatchUpTwice(v, p1, FlushEgress(p1, env.ok, env.head2));
    RecvThenFlush(w, v, CaughtUp(v, p1), t, env);
  }

  lemma SocketReadStep(w: World, s: Sys, t: Sys, env: Env)
    requires Served(w, s, env, OnSocketRead) && Next(s, Recv)
    requires Shape(Submit(Reap(s).proc, Recv, env.head1))
    requires t == CaughtUp(Reap(s), AfterFirst(Submit(Reap(s).proc, Recv, env.head1), env))
    ensures Inv(w, t)
  {
    ReapSingle(w, s, Recv);
    ReapFiles(s, Recv);
    DeliveredSingle(s, Recv);
    RecvPart(w, Reap(s), t, env);
    EmissionsGrow(w, s.proc, t.proc);
  }

  lemma TimeoutStep(w: World, s: Sys, t: Sys, env: Env)
    requires Served(w, s, env, OnTimeout) && Next(s, Timer)
    requires t == Reap(s).(proc := SetIo(Reap(s).proc, Timer, Reap(s).proc.ios[Timer].(loc := Parked)))
    ensures Inv(w, t)
  {
    ReapSingle(w, s, Timer);
    ReapFiles(s, Timer);
    DeliveredSingle(s, Timer);
    EditSingle(w, Reap(s), Timer, t.proc.ios[Timer]);
    SingleMoved(Reap(s).proc, t.proc, Timer);
    EmissionsGrow(w, s.proc, t.proc);
  }
}
