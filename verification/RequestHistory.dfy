/** What a thread has ever asked of the kernel, and what it was told: over every run each
    published entry has its form, the connection uses the descriptor the socket call returned,
    and no update of the timer succeeds. */
module RequestHistory {
  import opened Requests
  import opened Runtime
  import opened HashSystem
  import opened Ownership
  import opened KernelSteps
  import opened LoopSteps
  import opened HashRuns
  import opened HashTheorems
  import opened Verdicts

  /** The SQE of set-up's socket request. */
  const SOCKET_POS: nat := 1

  /** `fd` is what the socket call returned, and the thread has been told. */
  ghost predicate FromSocket(s: Sys, fd: int) {
    fd >= 0 && exists k | 0 <= k < s.reaped && k < |s.posted| ::
      s.posted[k].pos == SOCKET_POS && s.posted[k].res == fd
  }

  ghost predicate EntryOk(s: Sys, q: nat)
    requires q < |s.proc.subs|
  {
    var e := s.proc.subs[q];
    && Form(e) && (e.opcode == SocketOp <==> q == SOCKET_POS)
    && (e.opcode == ConnectOp || e.id == Recv ==> FromSocket(s, e.fd))
  }

  ghost predicate AnswerOk(s: Sys, k: nat)
    requires k < |s.posted|
  {
    var c := s.posted[k];
    && c.pos < |s.proc.subs| && c.id == s.proc.subs[c.pos].id
    && (s.proc.subs[c.pos].opcode == TimeoutRemove ==> c.res < 0)
  }

  ghost predicate Log(s: Sys) {
    && |s.proc.subs| > SOCKET_POS
    && (forall q | 0 <= q < |s.proc.subs| :: EntryOk(s, q))
    && (forall k | 0 <= k < |s.posted| :: AnswerOk(s, k))
  }

  /** The connection's object uses the socket. */
  ghost predicate Wired(s: Sys) {
    Conn in s.proc.ios && s.proc.ios[Conn].opcode == ConnectOp ==> FromSocket(s, s.proc.ios[Conn].fd)
  }

  ghost predicate Told(s: Sys) {
    Log(s) && (s.proc.status == Running ==> Wired(s))
  }

  // ---------------------------------------------------------------------------
  // Kernel steps

  lemma ConsumeTold(s: Sys, upto: nat)
    requires Told(s)
    ensures Told(Take(s, upto))
  {
    var t := Take(s, upto);
    forall q | 0 <= q < |t.proc.subs| ensures EntryOk(t, q) { assert EntryOk(s, q); }
    forall k | 0 <= k < |t.posted| ensures AnswerOk(t, k) { assert AnswerOk(s, k); }
  }

  lemma CompleteTold(w: World, s: Sys, pos: nat, res: int, more: bool)
    requires Inv(w, s) && Told(s) && Enabled(w, s, Complete(pos, res, more))
    ensures Told(Post(w, s, pos, res, more))
  {
    var t := Post(w, s, pos, res, more);
    PerformFrame(w, s.proc, s.proc.subs[pos], res);
    assert t.posted == s.posted + [Cqe(s.proc.subs[pos].id, res, more, pos)];
    assert t.proc.subs == s.proc.subs && t.reaped == s.reaped;
    assert Conn in t.proc.ios ==>
             Conn in s.proc.ios && t.proc.ios[Conn] == s.proc.ios[Conn].(loc := t.proc.ios[Conn].loc);
    Later(s, t);
    UpdateFails(w, s, pos, res, more);
    forall k | 0 <= k < |t.posted| ensures AnswerOk(t, k) {
      if k < |s.posted| { assert AnswerOk(s, k); }
    }
  }

  /** No timeout is named by an update. */
  lemma UpdateFails(w: World, s: Sys, pos: nat, res: int, more: bool)
    requires Log(s) && CanComplete(w, s, pos, res, more)
    ensures s.proc.subs[pos].opcode == TimeoutRemove ==> res < 0
  {
    assert EntryOk(s, pos);
  }

  /** What the socket call returned stays known. */
  lemma Later(s: Sys, t: Sys)
    requires s.posted <= t.posted && s.reaped <= t.reaped
    ensures forall fd | FromSocket(s, fd) :: FromSocket(t, fd)
    ensures forall q | 0 <= q < |s.proc.subs| && q < |t.proc.subs| && t.proc.subs[q] == s.proc.subs[q]
                       && EntryOk(s, q) :: EntryOk(t, q)
  {
    forall fd | FromSocket(s, fd) ensures FromSocket(t, fd) {
      var k :| 0 <= k < s.reaped && k < |s.posted| && s.posted[k].pos == SOCKET_POS && s.posted[k].res == fd;
      assert t.posted[k] == s.posted[k];
    }
  }

  // ---------------------------------------------------------------------------
  // Callbacks: what they append, and what becomes of conn_req

  /** Entries are only appended, none if the thread stops, and conn_req is left alone. */
  ghost predicate Grows(p: Proc, r: Proc) {
    && p.subs <= r.subs && (r.status == Exited || r.status == NoConnection ==> r.subs == p.subs)
    && Conn in p.ios && Conn in r.ios && r.ios[Conn] == p.ios[Conn]
  }

  lemma SubmitGrows(p: Proc, id: ReqId, head: nat)
    requires id in p.ios
    ensures var r := Submit(p, id, head);
            && (r.subs == p.subs || r.subs == p.subs + [ToSqe(id, p.ios[id])]) && r.status == p.status
            && r.ios.Keys == p.ios.Keys && (forall x | x in p.ios && x != id :: r.ios[x] == p.ios[x])
  {
    var r := Submit(p, id, head);
    assert r.ios == p.ios[id := r.ios[id]];
  }

  lemma RearmGrows(p: Proc, i: nat, io: Io, q: Preq, head: nat)
    requires HasIds(p) && i < |p.slots| && p.status == Running
    ensures var r := Rearm(p, i, io, q, head); Grows(p, r) && r.status == Running && r.ios.Keys == p.ios.Keys
  {
    SubmitGrows(p.(ios := p.ios[Slot(i) := io], slots := p.slots[i := q]), Slot(i), head);
  }

  lemma OpenEventGrows(p: Proc, got: Got, ptr: nat, head: nat)
    requires Shape(p) && p.status == Running && p.free != []
    ensures var r := OpenEvent(p, got, ptr, head);
            Grows(p, r) && (r.status == Running || r.status == Faulted) && Poll in r.ios
  {
    var i := p.free[0];
    var p1 := GetReq(p);
    if p1.status == Running {
      var p2 := WithJob(p1, i, got, ptr);
      assert p2.ios.Keys == p.ios.Keys;
      RearmGrows(p2, i, OpenIo(p1.ios[Slot(i)], ptr),
                 p1.slots[i].(data := Some(ptr), data2 := |EventPath(got)|, job := |p1.jobs|), head);
    }
  }

  lemma QueueGrows(p: Proc, c: Cqe, env: Env)
    requires Shape(p) && p.status == Running
    ensures Grows(p, OnQueue(p, c.res, c.more, env.got, env.ptr, env.head1, env.head2))
  {
    if c.res < 0 {
      SubmitGrows(p, Poll, env.head1);
    } else if env.got.GotNothing? {
      SubmitGrows(p, Poll, env.head2);
    } else if p.free != [] {
      QueueOpens(p, c, env);
      OpenEventGrows(p, env.got, env.ptr, env.head1);
      SubmitGrows(OpenEvent(p, env.got, env.ptr, env.head1), Poll, env.head2);
    }
  }

  lemma OpenGrows(p: Proc, i: nat, c: Cqe, env: Env)
    requires HasIds(p) && i < |p.slots| && p.status == Running
    ensures Grows(p, OnOpen(p, i, c.res, env.head1))
  {
    if c.res >= 0 {
      RearmGrows(p, i, OpenedIo(p.ios[Slot(i)], p.slots[i], c.res), p.slots[i].(hasher := []), env.head1);
    }
  }

  lemma RetireGrows(p: Proc, i: nat)
    requires HasIds(p) && i < |p.slots| && p.status == Running
    ensures Grows(p, Retire(p, i))
  {
    var p1 := DropPath(p, i);
    assert p1.subs == p.subs && p1.ios == p.ios;
  }

  lemma EmitGrows(w: World, p: Proc, i: nat)
    requires HasIds(p) && i < |p.slots| && p.status == Running
    ensures var r := Emit(w, p, i); r.subs == p.subs && r.ios == p.ios && |r.slots| == |p.slots|
  {
  }

  lemma ReadGrows(w: World, p: Proc, i: nat, c: Cqe, env: Env)
    requires HasIds(p) && i < |p.slots| && p.status == Running
    ensures Grows(p, OnRead(w, p, i, c.res, env.head1))
  {
    if c.res < 0 {
      RetireGrows(Settle(p, i, ReadFailed), i);
    } else if c.res == 0 {
      EndGrows(w, p, i, c, env);
    } else {
      MoreGrows(w, p, i, c, env);
    }
  }

  lemma MoreGrows(w: World, p: Proc, i: nat, c: Cqe, env: Env)
    requires HasIds(p) && i < |p.slots| && p.status == Running && c.res > 0
    ensures Grows(p, OnRead(w, p, i, c.res, env.head1))
  {
    var p1 := Feed(p, i, c.res);
    assert p1.subs == p.subs && p1.ios == p.ios;
    if p1.status == Running {
      var io := p1.ios[Slot(i)];
      RearmGrows(p1, i, io.(off := io.off + c.res), p1.slots[i], env.head1);
    }
  }

  lemma EndGrows(w: World, p: Proc, i: nat, c: Cqe, env: Env)
    requires HasIds(p) && i < |p.slots| && p.status == Running && c.res == 0
    ensures Grows(p, OnRead(w, p, i, c.res, env.head1))
  {
    var p1 := Feed(p, i, 0);
    assert p1.subs == p.subs && p1.ios == p.ios;
    if p1.status == Running {
      var p2 := Emit(w, p1, i);
      EmitGrows(w, p1, i);
      if p2.status == Running {
        RetireGrows(p2, i);
      }
    }
  }

  lemma FlushGrows(p: Proc, ok: bool, head: nat)
    requires Shape(p) && p.status == Running
    ensures Grows(p, FlushEgress(p, ok, head))
  {
    if ok && p.ios[Timer].opcode != TimeoutOp {
      SubmitGrows(SetIo(p, Timer, TimerIo(p.ios[Timer])), Timer, head);
    } else if ok && p.free != [] {
      var i, p1 := p.free[0], GetReq(p);
      if p1.status == Running {
        assert p1.ios.Keys == p.ios.Keys;
        RearmGrows(p1, i, UpdateIo(p1.ios[Slot(i)]), p1.slots[i], head);
      }
    }
  }

  /** recv_req goes first; a flush that stops the thread appends nothing more. */
  lemma RecvGrows(p: Proc, env: Env)
    requires Shape(p) && p.status == Running && Shape(Submit(p, Recv, env.head1))
    ensures var r := AfterFirst(Submit(p, Recv, env.head1), env);
            && p.subs <= r.subs && Conn in r.ios && r.ios[Conn] == p.ios[Conn]
            && (r.status == Exited || r.status == NoConnection ==>
                  r.subs == p.subs || r.subs == p.subs + [ToSqe(Recv, p.ios[Recv])])
  {
    SubmitGrows(p, Recv, env.head1);
    FlushGrows(Submit(p, Recv, env.head1), env.ok, env.head2);
  }

  // ---------------------------------------------------------------------------
  // Served

  /** A recv_req entry over the connection `conn` describes. */
  ghost predicate RecvEntry(e: Sqe, conn: Io) {
    e.id == Recv && Form(e) && e.fd == conn.fd && conn.opcode == ConnectOp
  }

  /** What serving a completion does to the logs and to conn_req; `made` says that the socket
      was made just now. */
  ghost predicate Serves(s: Sys, t: Sys, made: bool) {
    && s.proc.subs <= t.proc.subs && t.posted == s.posted && t.reaped == s.reaped + 1 && t.done == s.done
    && Conn in s.proc.ios && Conn in t.proc.ios && s.reaped < |s.posted|
    && var was, conn := s.proc.ios[Conn], t.proc.ios[Conn];
       && (made ==> conn.opcode == ConnectOp && conn.fd == s.posted[s.reaped].res >= 0)
       && (!made ==> conn.opcode == was.opcode && conn.fd == was.fd && (conn.loc.Pending? ==> conn.loc == was.loc))
       && (t.proc.status == Exited || t.proc.status == NoConnection ==>
             || t.proc.subs == s.proc.subs
             || (|t.proc.subs| == |s.proc.subs| + 1 && RecvEntry(t.proc.subs[|s.proc.subs|], was)))
  }

  /** The socket call's success is about to be served. */
  ghost predicate Makes(s: Sys, cb: Callback) {
    cb == OnSocketCreate && s.reaped < |s.posted| && s.posted[s.reaped].res >= 0
  }

  lemma ReapConn(s: Sys, cb: Callback)
    requires Due(s, cb)
    ensures var r := Reap(s);
            && Shape(r.proc) && r.proc.status == Running && r.proc.subs == s.proc.subs && r.posted == s.posted
            && r.reaped == s.reaped + 1 && r.done == s.done && r.proc.ios.Keys == s.proc.ios.Keys
            && r.proc.ios[s.posted[s.reaped].id].callback == cb
            && (s.posted[s.reaped].id != Conn ==> r.proc.ios[Conn] == s.proc.ios[Conn])
            && r.proc.ios[Conn] == s.proc.ios[Conn].(loc := r.proc.ios[Conn].loc)
            && (r.proc.ios[Conn].loc == Held || r.proc.ios[Conn].loc == s.proc.ios[Conn].loc)
            && r.proc.ios[Recv] == s.proc.ios[Recv].(loc := r.proc.ios[Recv].loc)
  {
    ReapShape(s);
  }

  /** Callbacks that have nothing to do with the connection. */
  lemma PlainServes(w: World, s: Sys, env: Env, cb: Callback)
    requires Inv(w, s) && Due(s, cb) && cb != OnSocketCreate && cb != OnSocketConnect && cb != OnSocketRead
    ensures Serves(s, Serve(w, s, env), false)
  {
    var c := s.posted[s.reaped];
    CallbackOwner(w, s, c.id);
    ReapConn(s, cb);
    PlainGrows(w, Reap(s).proc, c, env, cb);
  }

  lemma PlainGrows(w: World, p: Proc, c: Cqe, env: Env, cb: Callback)
    requires Shape(p) && p.status == Running && c.id in p.ios && p.ios[c.id].callback == cb && c.id != Conn
    requires cb != OnSocketCreate && cb != OnSocketConnect && cb != OnSocketRead && cb != NoCallback
    requires cb == OnFileOpen || cb == OnFileRead || cb == OnTimeoutUpdate ==> c.id.Slot?
    ensures Grows(p, HashSystem.Callback(w, p, c, env))
  {
    if cb == OnQueueEvent {
      QueueGrows(p, c, env);
    } else if cb == OnFileOpen {
      OpenGrows(p, c.id.index, c, env);
    } else if cb == OnFileRead {
      ReadGrows(w, p, c.id.index, c, env);
    }
  }

  lemma CreateServes(w: World, s: Sys, env: Env)
    requires Due(s, OnSocketCreate) && s.posted[s.reaped].id == Conn
    ensures Serves(s, Serve(w, s, env), Makes(s, OnSocketCreate))
  {
    ReapConn(s, OnSocketCreate);
    SubmitGrows(OnSocketReady(Reap(s).proc, s.posted[s.reaped].res), Conn, env.head1);
  }

  lemma SocketReadServes(w: World, s: Sys, env: Env)
    requires Inv(w, s) && Due(s, OnSocketRead)
    ensures Serves(s, Serve(w, s, env), false)
  {
    RecvKnown(w, s);
    RecvServes(w, s, env);
  }

  lemma RecvServes(w: World, s: Sys, env: Env)
    requires Due(s, OnSocketRead) && s.posted[s.reaped].id == Recv
    requires RecvEntry(ToSqe(Recv, s.proc.ios[Recv]), s.proc.ios[Conn])
    ensures Serves(s, Serve(w, s, env), false)
  {
    ReapConn(s, OnSocketRead);
    if s.posted[s.reaped].res >= 0 {
      SubmitShape(Reap(s).proc, Recv, env.head1);
      RecvAgain(Reap(s).proc, s.proc, env);
    }
  }

  /** Reading goes on over the same connection. */
  lemma RecvAgain(p: Proc, was: Proc, env: Env)
    requires Shape(p) && p.status == Running && Shape(Submit(p, Recv, env.head1)) && Recv in was.ios && Conn in was.ios
    requires p.ios[Recv] == was.ios[Recv].(loc := p.ios[Recv].loc)
    requires RecvEntry(ToSqe(Recv, was.ios[Recv]), was.ios[Conn])
    ensures var r := AfterFirst(Submit(p, Recv, env.head1), env);
            && p.subs <= r.subs && Conn in r.ios && r.ios[Conn] == p.ios[Conn]
            && (r.status == Exited || r.status == NoConnection ==>
                  || r.subs == p.subs
                  || (|r.subs| == |p.subs| + 1 && RecvEntry(r.subs[|p.subs|], was.ios[Conn])))
  {
    RecvGrows(p, env);
  }

  /** The first read, over the connection just made. */
  lemma RecvFirst(p: Proc, was: Io, env: Env)
    requires Shape(p) && p.status == Running && Shape(Submit(OnConnected(p), Recv, env.head1))
    requires was.opcode == ConnectOp && p.ios[Conn].fd == was.fd && p.ios[Conn].opcode == was.opcode
    ensures var r := AfterFirst(Submit(OnConnected(p), Recv, env.head1), env);
            && p.subs <= r.subs && Conn in r.ios && r.ios[Conn] == p.ios[Conn].(loc := Parked)
            && (r.status == Exited || r.status == NoConnection ==>
                  || r.subs == p.subs
                  || (|r.subs| == |p.subs| + 1 && RecvEntry(r.subs[|p.subs|], was)))
  {
    var v := OnConnected(p);
    assert v.ios.Keys == p.ios.Keys;
    RecvGrows(v, env);
  }

  lemma RecvKnown(w: World, s: Sys)
    requires Inv(w, s) && Due(s, OnSocketRead)
    ensures s.posted[s.reaped].id == Recv && Form(ToSqe(Recv, s.proc.ios[Recv]))
    ensures s.proc.ios[Recv].fd == s.proc.ios[Conn].fd && s.proc.ios[Conn].opcode == ConnectOp
  {
    CallbackOwner(w, s, s.posted[s.reaped].id);
    DeliveredSingle(s, Recv);
    assert CqeOk(s, s.reaped);
  }

  lemma ConnectServes(w: World, s: Sys, env: Env)
    requires Inv(w, s) && Due(s, OnSocketConnect)
    ensures Serves(s, Serve(w, s, env), false)
  {
    CallbackOwner(w, s, s.posted[s.reaped].id);
    ReapConn(s, OnSocketConnect);
    if s.posted[s.reaped].res >= 0 && env.init {
      ServeConnect(w, s, env);
      RecvFirst(Reap(s).proc, s.proc.ios[Conn], env);
    }
  }

  lemma ServeServes(w: World, s: Sys, env: Env, cb: Callback)
    requires Inv(w, s) && Due(s, cb)
    ensures Serves(s, Serve(w, s, env), Makes(s, cb))
  {
    CallbackOwner(w, s, s.posted[s.reaped].id);
    match cb
    case OnSocketCreate => CreateServes(w, s, env);
    case OnSocketConnect => ConnectServes(w, s, env);
    case OnSocketRead => SocketReadServes(w, s, env);
    case _ => PlainServes(w, s, env, cb);
  }

  /** The success being served is that of the one socket request. */
  lemma SocketAnswer(w: World, s: Sys)
    requires Inv(w, s) && Log(s) && Due(s, OnSocketCreate)
    ensures s.posted[s.reaped].pos == SOCKET_POS
  {
    CallbackOwner(w, s, s.posted[s.reaped].id);
    var pos := s.posted[s.reaped].pos;
    assert CqeOk(s, s.reaped) && InCqOk(s, Conn);
    assert EntryOk(s, pos);
  }

  lemma DispatchWired(w: World, s: Sys, t: Sys, cb: Callback)
    requires Inv(w, s) && Told(s) && Due(s, cb) && Serves(s, t, Makes(s, cb))
    ensures Wired(t)
  {
    Later(s, t);
    if Makes(s, cb) {
      SocketAnswer(w, s);
      assert t.posted[s.reaped].pos == SOCKET_POS;
    }
  }

  /** An entry appended by a thread that goes on. */
  lemma NewEntry(w: World, s: Sys, t: Sys, made: bool, q: nat)
    requires Inv(w, s) && s.proc.status == Running && Log(s) && Serves(s, t, made)
    requires Inv(w, t) && t.proc.status == Running && Wired(t) && |s.proc.subs| <= q < |t.proc.subs|
    ensures EntryOk(t, q)
  {
    var id := t.proc.subs[q].id;
    assert q !in t.done;
    assert SqeOk(t, q) && PendingOk(t, id);
    ObjectForm(w, t, id);
    if id == Conn {
      assert PendingOk(s, Conn);
    }
  }

  /** An entry appended by a thread that then stops. */
  lemma StoppedEntry(s: Sys, t: Sys, made: bool, q: nat)
    requires Told(s) && s.proc.status == Running && Serves(s, t, made)
    requires t.proc.status == Exited || t.proc.status == NoConnection
    requires |s.proc.subs| <= q < |t.proc.subs|
    ensures EntryOk(t, q)
  {
    Later(s, t);
    assert RecvEntry(t.proc.subs[q], s.proc.ios[Conn]);
    assert FromSocket(t, s.proc.ios[Conn].fd);
  }

  lemma DispatchTold(w: World, s: Sys, env: Env)
    requires Inv(w, s) && Told(s) && Enabled(w, s, Dispatch(env))
    ensures Told(Serve(w, s, env))
  {
    var t, cb := Serve(w, s, env), s.proc.ios[s.posted[s.reaped].id].callback;
    ServeServes(w, s, env, cb);
    DispatchKeeps(w, s, env);
    DispatchWired(w, s, t, cb);
    AppendTold(w, s, t, cb);
  }

  lemma AppendTold(w: World, s: Sys, t: Sys, cb: Callback)
    requires Inv(w, s) && Told(s) && Due(s, cb) && Serves(s, t, Makes(s, cb)) && Inv(w, t) && Wired(t)
    ensures Log(t)
  {
    Later(s, t);
    forall q | 0 <= q < |t.proc.subs| ensures EntryOk(t, q) {
      if q < |s.proc.subs| {
        assert EntryOk(s, q);
      } else if t.proc.status == Running {
        NewEntry(w, s, t, Makes(s, cb), q);
      } else {
        StoppedEntry(s, t, Makes(s, cb), q);
      }
    }
    forall k | 0 <= k < |t.posted| ensures AnswerOk(t, k) { assert AnswerOk(s, k); }
  }

  // ---------------------------------------------------------------------------
  // Runs

  lemma InitTold(w: World, n: nat, buffers: seq<Bytes>)
    requires Buffers(n, buffers)
    ensures Told(Init(n, buffers))
  {
    var s := Init(n, buffers);
    BlankIds(n, buffers);
    var p := Blank(n, buffers);
    assert s.proc.subs == [ToSqe(Poll, FreshIo(Poll)), ToSqe(Conn, FreshIo(Conn))];
  }

  lemma {:induction false} RunTold(w: World, s: Sys, acts: seq<Action>, t: Sys)
    requires Inv(w, s) && Told(s) && Runs(w, s, acts, t)
    ensures Told(t)
    decreases |acts|
  {
    if acts != [] {
      StepTold(w, s, acts[0]);
      StepKeeps(w, s, acts[0]);
      RunTold(w, Apply(w, s, acts[0]), acts[1..], t);
    }
  }

  lemma StepTold(w: World, s: Sys, a: Action)
    requires Inv(w, s) && Told(s) && Enabled(w, s, a)
    ensures Told(Apply(w, s, a))
  {
    match a
    case Consume(upto) => ConsumeTold(s, upto);
    case Complete(pos, res, more) => CompleteTold(w, s, pos, res, more);
    case Dispatch(env) => DispatchTold(w, s, env);
  }

  // ---------------------------------------------------------------------------
  // Main results

  lemma ReachesTold(w: World, n: nat, buffers: seq<Bytes>, acts: seq<Action>, t: Sys)
    requires Reaches(w, n, buffers, acts, t)
    ensures Log(t)
  {
    InitHolds(w, n, buffers);
    InitTold(w, n, buffers);
    RunTold(w, Init(n, buffers), acts, t);
  }

  /** Every entry ever published, in every run, has its form. */
  lemma EveryEntry(w: World, n: nat, buffers: seq<Bytes>, acts: seq<Action>, t: Sys, q: nat)
    requires Reaches(w, n, buffers, acts, t) && q < |t.proc.subs|
    ensures Form(t.proc.subs[q])
  {
    ReachesTold(w, n, buffers, acts, t);
    assert EntryOk(t, q);
  }

  /** There is one socket request, and every connect and every read of the connection uses the
      descriptor its completion returned. */
  lemma SocketIsUsed(w: World, n: nat, buffers: seq<Bytes>, acts: seq<Action>, t: Sys, q: nat)
    requires Reaches(w, n, buffers, acts, t) && q < |t.proc.subs|
    ensures t.proc.subs[q].opcode == SocketOp <==> q == SOCKET_POS
    ensures t.proc.subs[q].opcode == ConnectOp || t.proc.subs[q].id == Recv ==>
              exists k | 0 <= k < |t.posted| ::
                t.posted[k].pos == SOCKET_POS && t.posted[k].res == t.proc.subs[q].fd >= 0
  {
    ReachesTold(w, n, buffers, acts, t);
    assert EntryOk(t, q);
  }

  /** The update names the verifier as the timeout to change, and the timeout's user_data is the
      address of its request: no update ever succeeds. */
  lemma UpdatesNeverLand(w: World, n: nat, buffers: seq<Bytes>, acts: seq<Action>, t: Sys, k: nat)
    requires Reaches(w, n, buffers, acts, t) && k < |t.posted|
    ensures t.posted[k].pos < |t.proc.subs| && t.posted[k].id == t.proc.subs[t.posted[k].pos].id
    ensures t.proc.subs[t.posted[k].pos].opcode == TimeoutRemove ==> t.posted[k].res < 0
  {
    ReachesTold(w, n, buffers, acts, t);
    assert AnswerOk(t, k);
  }
}
