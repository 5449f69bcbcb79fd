/** The steps of a thread during a burst of events: the connection is made, the wake-ups of the
    burst are posted, and each of them takes a slot and submits an open while the kernel takes
    no further SQE. */
module Burst {
  import opened Requests
  import opened Runtime
  import opened HashSystem
  import opened LoopSteps
  import opened HashTheorems

  /** Opens that fill the ring behind recv_req and timer_req. */
  const FULL: nat := SQ_ENTRIES - 2

  /** Where a run stands: ring counters, and slots 0..used taken in order. */
  ghost predicate Stage(n: nat, s: Sys, subs: nat, consumed: nat, seen: nat, posted: nat, reaped: nat, used: nat) {
    && s.proc.status == Running && |s.proc.slots| == n && HasIds(s.proc) && s.proc.lost == []
    && |s.proc.subs| == subs && s.consumed == consumed && s.proc.seen == seen
    && |s.posted| == posted && s.reaped == reaped && (forall q | q in s.done :: q < consumed)
    && used <= n && |s.proc.free| == n - used && (forall a | 0 <= a < n - used :: s.proc.free[a] == used + a)
    && (forall i | used <= i < n :: !s.proc.slots[i].inFlight)
    && (forall x | x in s.proc.strs :: x < used) && |s.proc.jobs| == used && s.proc.sent == []
    && (forall k | 0 <= k < posted :: s.posted[k].pos < consumed)
  }

  /** The poll is armed as SQE number 0. */
  ghost predicate PollArmed(s: Sys) {
    && 0 < |s.proc.subs| && s.proc.subs[0] == ToSqe(Poll, FreshIo(Poll)) && 0 !in s.done
    && Poll in s.proc.ios && s.proc.ios[Poll].callback == OnQueueEvent
  }

  /** conn_req is at work with the given callback; nothing after it has been armed. */
  ghost predicate Connecting(s: Sys, cb: Callback) {
    && Conn in s.proc.ios && s.proc.ios[Conn].callback == cb
    && !s.proc.connected && Timer in s.proc.ios && s.proc.ios[Timer].opcode == Nop
  }

  ghost predicate ConnAs(s: Sys, pos: nat, cb: Callback) {
    && pos < |s.proc.subs| && s.proc.subs[pos].id == Conn && pos !in s.done
    && (s.proc.subs[pos].opcode == SocketOp || s.proc.subs[pos].opcode == ConnectOp)
    && Connecting(s, cb)
  }

  /** A completion of conn_req. */
  lemma CompleteConn(w: World, n: nat, s: Sys, t: Sys, pos: nat, seen: nat, cb: Callback, k: nat)
    requires Stage(n, s, pos + 1, pos + 1, seen, k, k, 0) && PollArmed(s) && ConnAs(s, pos, cb) && pos > 0
    requires t == Finish(s, s.proc, Conn, pos, 3)
    ensures Enabled(w, s, Complete(pos, 3, false)) && t == Apply(w, s, Complete(pos, 3, false))
    ensures Stage(n, t, pos + 1, pos + 1, seen, k + 1, k, 0) && PollArmed(t) && Connecting(t, cb)
    ensures t.posted == s.posted + [Cqe(Conn, 3, false, pos)]
  {
    assert t.proc.ios.Keys == s.proc.ios.Keys;
  }

  /** The socket exists: conn_req is resubmitted. */
  lemma SocketReady(w: World, n: nat, s: Sys, t: Sys, env: Env)
    requires Stage(n, s, 2, 2, 0, 1, 0, 0) && PollArmed(s) && Connecting(s, OnSocketCreate)
    requires s.posted == [Cqe(Conn, 3, false, 1)] && env == Env(GotNothing, 0, true, true, 2, 2)
    requires t == CaughtUp(Reap(s), Submit(OnSocketReady(Reap(s).proc, 3), Conn, 2))
    ensures Enabled(w, s, Dispatch(env)) && t == Apply(w, s, Dispatch(env))
    ensures Stage(n, t, 3, 2, 2, 1, 1, 0) && PollArmed(t) && ConnAs(t, 2, OnSocketConnect) && t.posted == s.posted
  {
    ReapShape(s);
    var p := OnSocketReady(Reap(s).proc, 3);
    assert p.ios.Keys == s.proc.ios.Keys;
    SubmitFiles(p, Conn, 2);
    assert Submit(p, Conn, 2) == Accepted(p, Conn, 2);
  }

  /** The kernel takes the connect. */
  lemma ConnectTaken(w: World, n: nat, s: Sys, t: Sys)
    requires Stage(n, s, 3, 2, 2, 1, 1, 0) && PollArmed(s) && ConnAs(s, 2, OnSocketConnect) && t == Take(s, 3)
    ensures Enabled(w, s, Consume(3))
    ensures Stage(n, t, 3, 3, 2, 1, 1, 0) && PollArmed(t) && ConnAs(t, 2, OnSocketConnect)
  {
  }

  lemma OneEvent(w: World, n: nat, s: Sys, t: Sys, k: nat)
    requires Stage(n, s, 3, 3, 2, 2 + k, 1, 0) && PollArmed(s) && Connecting(s, OnSocketConnect)
    requires t == s.(posted := s.posted + [Cqe(Poll, 1, true, 0)])
    ensures Enabled(w, s, Complete(0, 1, true)) && t == Apply(w, s, Complete(0, 1, true))
    ensures Stage(n, t, 3, 3, 2, 3 + k, 1, 0) && PollArmed(t) && Connecting(t, OnSocketConnect)
  {
  }

  /** From CQE number 2 on: a burst of queue events, the last of which ends the poll. */
  ghost predicate Events(s: Sys, burst: nat) {
    && burst > 0 && |s.posted| == 2 + burst && Poll in s.proc.ios && s.proc.ios[Poll].callback == OnQueueEvent
    && (forall j | 2 <= j < 1 + burst :: s.posted[j] == Cqe(Poll, 1, true, 0))
    && s.posted[1 + burst] == Cqe(Poll, 1, false, 0)
  }

  lemma LastEvent(w: World, n: nat, s: Sys, t: Sys, burst: nat)
    requires burst > 0 && Stage(n, s, 3, 3, 2, 1 + burst, 1, 0) && PollArmed(s) && Connecting(s, OnSocketConnect)
    requires forall j | 2 <= j < 1 + burst :: s.posted[j] == Cqe(Poll, 1, true, 0)
    requires t == Finish(s, s.proc, Poll, 0, 1)
    ensures Enabled(w, s, Complete(0, 1, false)) && t == Apply(w, s, Complete(0, 1, false))
    ensures Stage(n, t, 3, 3, 2, 2 + burst, 1, 0) && Connecting(t, OnSocketConnect) && Events(t, burst)
    ensures t.posted[1] == s.posted[1]
  {
    assert t.proc.ios.Keys == s.proc.ios.Keys;
  }

  /** The connection is up: recv_req and timer_req are submitted. */
  lemma ArmBoth(w: World, n: nat, s: Sys, t: Sys, env: Env, burst: nat)
    requires Stage(n, s, 3, 3, 2, 2 + burst, 1, 0) && Connecting(s, OnSocketConnect)
    requires s.posted[1] == Cqe(Conn, 3, false, 2) && Events(s, burst) && env == Env(GotNothing, 0, true, true, 3, 3)
    requires Shape(s.proc) && Shape(OnConnected(Reap(s).proc))
    requires t == Serve(w, s, env)
    ensures Enabled(w, s, Dispatch(env))
    ensures Stage(n, t, 5, 3, 3, 2 + burst, 2, 0) && Events(t, burst) && Behind(t.proc, 0)
  {
    ReapShape(s);
    var p := OnConnected(Reap(s).proc);
    SubmitShape(p, Recv, 3);
    SubmitFiles(p, Recv, 3);
    var p1 := Submit(p, Recv, 3);
    assert p1 == Accepted(p, Recv, 3);
    var p2 := SetIo(p1, Timer, TimerIo(p1.ios[Timer]));
    assert p2.ios.Keys == p1.ios.Keys;
    SubmitFiles(p2, Timer, 3);
    assert Submit(p2, Timer, 3) == Accepted(p2, Timer, 3);
    assert FlushEgress(p1, true, 3) == Submit(p2, Timer, 3);
    assert t == CaughtUp(Reap(s), Submit(p2, Timer, 3));
  }

  /** Reaping a queue event takes the next slot and submits its open; the kernel sleeps. */
  lemma OneMore(w: World, n: nat, s: Sys, t: Sys, k: nat, path: Bytes, env: Env, burst: nat)
    requires Draining(n, s, path, burst, k) && k < burst - 1 < FULL && k < n
    requires env == Env(GotEvent(path), k, true, true, 3, 3) && Shape(s.proc) && t == Serve(w, s, env)
    ensures Enabled(w, s, Dispatch(env))
    ensures Draining(n, t, path, burst, k + 1)
  {
    ReapShape(s);
    assert s.posted[2 + k] == Cqe(Poll, 1, true, 0);
    TakeNext(Reap(s).proc, n, k, path);
    assert t == CaughtUp(Reap(s), OpenEvent(Reap(s).proc, GotEvent(path), k, 3));
  }

  /** k wake-ups of a burst for `path` have been served. */
  ghost predicate Draining(n: nat, s: Sys, path: Bytes, burst: nat, k: nat) {
    && Stage(n, s, 5 + k, 3, 3, 2 + burst, 2 + k, k) && Events(s, burst)
    && (forall j | 0 <= j < k :: s.proc.jobs[j].path == path) && Behind(s.proc, k)
  }

  /** recv_req is SQE number 3, timer_req is armed, and k opens follow. */
  ghost predicate Behind(p: Proc, k: nat) {
    && |p.subs| >= 5 + k && p.connected && Timer in p.ios && p.ios[Timer].opcode == TimeoutOp
    && p.subs[3].id == Recv && p.subs[3].opcode == ReadOp
    && (forall q | 5 <= q < 5 + k :: p.subs[q].opcode == OpenAt)
  }

  lemma TakeNext(p: Proc, n: nat, k: nat, path: Bytes)
    requires HasIds(p) && |p.slots| == n && p.status == Running && k < n && p.lost == []
    requires |p.free| == n - k && (forall a | 0 <= a < n - k :: p.free[a] == k + a)
    requires (forall i | k <= i < n :: !p.slots[i].inFlight) && (forall x | x in p.strs :: x < k)
    requires |p.subs| == 5 + k && p.seen == 3 && k < FULL
    ensures p.free != [] && p.free[0] < |p.slots| && Slot(p.free[0]) in p.ios
    ensures var r := OpenEvent(p, GotEvent(path), k, 3);
            && HasIds(r) && |r.slots| == n && r.status == Running && r.lost == []
            && |r.free| == n - (k + 1) && (forall a | 0 <= a < n - (k + 1) :: r.free[a] == k + 1 + a)
            && (forall i | k + 1 <= i < n :: !r.slots[i].inFlight) && (forall x | x in r.strs :: x < k + 1)
            && |r.subs| == 6 + k && r.seen == 3 && r.sent == p.sent && Poll in r.ios && r.ios[Poll] == p.ios[Poll]
            && r.jobs == p.jobs + [Job(path, InSlot(k))] && (Behind(p, k) ==> Behind(r, k + 1))
  {
    assert p.free[0] == k;
    var p1 := GetReq(p);
    var p2 := WithJob(p1, k, GotEvent(path), k);
    var io := OpenIo(p1.ios[Slot(k)], k);
    var q := p1.slots[k].(data := Some(k), data2 := |path|, job := |p1.jobs|);
    var p3 := p2.(ios := p2.ios[Slot(k) := io], slots := p2.slots[k := q]);
    assert OpenEvent(p, GotEvent(path), k, 3) == Submit(p3, Slot(k), 3) == Accepted(p3, Slot(k), 3);
    assert Accepted(p3, Slot(k), 3).ios.Keys == p.ios.Keys;
  }

  /** The last event of a burst: its open takes a slot, then the poll is submitted again. */
  lemma LastServed(w: World, n: nat, s: Sys, t: Sys, path: Bytes, env: Env, burst: nat)
    requires 0 < burst <= FULL && burst <= n && Draining(n, s, path, burst, burst - 1)
    requires env == Env(GotEvent(path), burst - 1, true, true, 3, 3) && Shape(s.proc) && t == Serve(w, s, env)
    ensures Enabled(w, s, Dispatch(env)) && t.posted == s.posted && t.reaped == s.reaped + 1 == |t.posted|
    ensures t.proc.jobs == s.proc.jobs + [Job(path, InSlot(burst - 1))]
    ensures t.proc.status == Running && t.done == s.done && t.proc.sent == s.proc.sent
    ensures burst == FULL ==> |t.proc.lost| == 1 && t.proc.lost[0].id == Poll
    ensures burst < FULL ==>
              && t.proc.lost == [] && t.proc.seen == t.consumed == 3 && |t.proc.subs| == 6 + burst
              && |t.proc.slots| == n && |t.proc.free| == n - burst
              && Behind(t.proc, burst) && t.proc.subs[5 + burst].id == Poll
  {
    ReapShape(s);
    TakeNext(Reap(s).proc, n, burst - 1, path);
    var p1 := OpenEvent(Reap(s).proc, GotEvent(path), burst - 1, 3);
    assert t == CaughtUp(Reap(s), Submit(p1, Poll, 3));
    if burst == FULL {
      assert Submit(p1, Poll, 3) == Refused(p1, Poll, 3);
    } else {
      assert Submit(p1, Poll, 3) == Accepted(p1, Poll, 3);
    }
  }

  /** The initial state, once the kernel has taken both SQEs. */
  lemma Started(w: World, n: nat, buffers: seq<Bytes>, t: Sys)
    requires Buffers(n, buffers) && t == Take(Init(n, buffers), 2)
    ensures Enabled(w, Init(n, buffers), Consume(2))
    ensures Stage(n, t, 2, 2, 0, 0, 0, 0) && PollArmed(t) && ConnAs(t, 1, OnSocketCreate) && t.posted == []
  {
    BlankIds(n, buffers);
    var p0 := Blank(n, buffers);
    SubmitFiles(p0, Poll, 0);
    SubmitFiles(Submit(p0, Poll, 0), Conn, 0);
  }
}
