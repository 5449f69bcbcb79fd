/** What each callback submits, as a list of objects, and that with room in the ring exactly
    these are appended. */
module Submissions {
  import opened Requests
  import opened Runtime
  import opened HashSystem

  /** The slot verifier_flush_egress or a queue event would take. */
  predicate HasSlot(p: Proc) {
    p.free != [] && p.free[0] < |p.slots| && !p.slots[p.free[0]].inFlight
  }

  function FlushIds(p: Proc, ok: bool): seq<ReqId>
    requires Timer in p.ios
  {
    if !ok then []
    else if p.ios[Timer].opcode != TimeoutOp then [Timer]
    else if HasSlot(p) then [Slot(p.free[0])]
    else []
  }

  function QueueIds(p: Proc, res: int, more: bool, got: Got): seq<ReqId> {
    if res < 0 then if res == -EBADF || res == -EINVAL then [] else [Poll]
    else if got.GotNothing? then if more then [] else [Poll]
    else if !HasSlot(p) then []
    else [Slot(p.free[0])] + if more then [] else [Poll]
  }

  predicate Feeds(p: Proc, i: nat, n: nat)
    requires Slot(i) in p.ios
  {
    var a := p.ios[Slot(i)].addr;
    a.Buf? && a.index < |p.buffers| && n <= |p.buffers[a.index]|
  }

  /** The objects a callback submits, in order. */
  function Submits(p: Proc, cqe: Cqe, env: Env): seq<ReqId>
    requires HasIds(p) && cqe.id in p.ios
  {
    match p.ios[cqe.id].callback
    case OnQueueEvent => QueueIds(p, cqe.res, cqe.more, env.got)
    case OnFileOpen => if cqe.id.Slot? && cqe.res >= 0 then [cqe.id] else []
    case OnFileRead => if cqe.id.Slot? && cqe.res > 0 && Feeds(p, cqe.id.index, cqe.res) then [cqe.id] else []
    case OnSocketCreate => if cqe.res >= 0 then [Conn] else []
    case OnSocketConnect => if cqe.res >= 0 && env.init then [Recv] + FlushIds(p, env.ok) else []
    case OnSocketRead => if cqe.res >= 0 then [Recv] + FlushIds(p, env.ok) else []
    case _ => []
  }

  /** Exactly `ids` were appended; timer_req became armed if it is one of them. */
  ghost predicate Appends(p: Proc, r: Proc, ids: seq<ReqId>) {
    && r.lost == p.lost && p.subs <= r.subs && |r.subs| == |p.subs| + |ids|
    && (forall a | 0 <= a < |ids| :: r.subs[|p.subs| + a].id == ids[a])
    && Timer in p.ios && Timer in r.ios
    && r.ios[Timer].opcode == if Timer in ids then TimeoutOp else p.ios[Timer].opcode
  }

  lemma AppendsThen(p: Proc, q: Proc, r: Proc, a: seq<ReqId>, b: seq<ReqId>)
    requires Appends(p, q, a) && Appends(q, r, b)
    ensures Appends(p, r, a + b)
  {
    forall k | 0 <= k < |a + b| ensures r.subs[|p.subs| + k].id == (a + b)[k] {
      if k < |a| {
        assert r.subs[|p.subs| + k] == q.subs[|p.subs| + k];
      } else {
        assert r.subs[|q.subs| + (k - |a|)].id == b[k - |a|];
      }
    }
  }

  /** A submission that finds room. */
  lemma SubmitAppends(p: Proc, id: ReqId, head: nat)
    requires HasIds(p) && id in p.ios && |p.subs| < head + SQ_ENTRIES
    requires id == Timer ==> p.ios[Timer].opcode == TimeoutOp
    ensures var r := Submit(p, id, head);
            && HasIds(r) && Appends(p, r, [id]) && r.free == p.free && r.slots == p.slots && r.status == p.status
  {
    assert Submit(p, id, head).ios.Keys == p.ios.Keys;
  }

  lemma RearmAppends(p: Proc, i: nat, io: Io, q: Preq, head: nat)
    requires HasIds(p) && i < |p.slots| && |p.subs| < head + SQ_ENTRIES
    ensures Appends(p, Rearm(p, i, io, q, head), [Slot(i)])
  {
    var p1 := p.(ios := p.ios[Slot(i) := io], slots := p.slots[i := q]);
    assert p1.ios.Keys == p.ios.Keys;
    SubmitAppends(p1, Slot(i), head);
  }

  lemma FlushAppends(p: Proc, ok: bool, head: nat)
    requires Shape(p) && p.status == Running && |p.subs| < head + SQ_ENTRIES
    ensures Appends(p, FlushEgress(p, ok, head), FlushIds(p, ok))
  {
    if ok && p.ios[Timer].opcode != TimeoutOp {
      var p1 := SetIo(p, Timer, TimerIo(p.ios[Timer]));
      assert p1.ios.Keys == p.ios.Keys;
      SubmitAppends(p1, Timer, head);
    } else if ok && HasSlot(p) {
      var i, p1 := p.free[0], GetReq(p);
      assert p1.ios.Keys == p.ios.Keys;
      RearmAppends(p1, i, UpdateIo(p1.ios[Slot(i)]), p1.slots[i], head);
    }
  }

  lemma OpenEventAppends(p: Proc, got: Got, ptr: nat, head: nat)
    requires Shape(p) && p.status == Running && HasSlot(p) && |p.subs| < head + SQ_ENTRIES
    ensures var r := OpenEvent(p, got, ptr, head);
            HasIds(r) && r.status == Running && Appends(p, r, [Slot(p.free[0])])
  {
    var i, p1 := p.free[0], GetReq(p);
    var p2 := WithJob(p1, i, got, ptr);
    assert p2.ios.Keys == p.ios.Keys;
    var io := OpenIo(p1.ios[Slot(i)], ptr);
    var q := p1.slots[i].(data := Some(ptr), data2 := |EventPath(got)|, job := |p1.jobs|);
    RearmAppends(p2, i, io, q, head);
    var p3 := p2.(ios := p2.ios[Slot(i) := io], slots := p2.slots[i := q]);
    assert p3.ios.Keys == p2.ios.Keys;
    SubmitAppends(p3, Slot(i), head);
  }

  lemma QueueAppends(p: Proc, cqe: Cqe, env: Env)
    requires Shape(p) && p.status == Running && env.head1 <= env.head2
    requires var ids := QueueIds(p, cqe.res, cqe.more, env.got);
             |p.subs| + |ids| <= env.head1 + SQ_ENTRIES || ids == []
    ensures Appends(p, OnQueue(p, cqe.res, cqe.more, env.got, env.ptr, env.head1, env.head2),
                    QueueIds(p, cqe.res, cqe.more, env.got))
  {
    if cqe.res < 0 {
      if cqe.res != -EBADF && cqe.res != -EINVAL {
        SubmitAppends(p, Poll, env.head1);
      }
    } else if env.got.GotNothing? {
      if !cqe.more {
        SubmitAppends(p, Poll, env.head2);
      }
    } else if HasSlot(p) {
      QueueOpenAppends(p, cqe, env);
    }
  }

  lemma QueueOpenAppends(p: Proc, cqe: Cqe, env: Env)
    requires Shape(p) && p.status == Running && env.head1 <= env.head2 && cqe.res >= 0 && !env.got.GotNothing?
    requires HasSlot(p) && |p.subs| + (if cqe.more then 1 else 2) <= env.head1 + SQ_ENTRIES
    ensures Appends(p, OnQueue(p, cqe.res, cqe.more, env.got, env.ptr, env.head1, env.head2),
                    [Slot(p.free[0])] + if cqe.more then [] else [Poll])
  {
    var p1 := OpenEvent(p, env.got, env.ptr, env.head1);
    OpenEventAppends(p, env.got, env.ptr, env.head1);
    if !cqe.more {
      SubmitAppends(p1, Poll, env.head2);
      AppendsThen(p, p1, Submit(p1, Poll, env.head2), [Slot(p.free[0])], [Poll]);
    }
  }

  lemma ReadAppends(w: World, p: Proc, i: nat, res: int, head: nat)
    requires HasIds(p) && i < |p.slots| && p.status == Running
    requires res > 0 && Feeds(p, i, res) ==> |p.subs| < head + SQ_ENTRIES
    ensures Appends(p, OnRead(w, p, i, res, head), if res > 0 && Feeds(p, i, res) then [Slot(i)] else [])
  {
    if res > 0 && Feeds(p, i, res) {
      var p1 := Feed(p, i, res);
      var io := p1.ios[Slot(i)];
      RearmAppends(p1, i, io.(off := io.off + res), p1.slots[i], head);
    } else if res <= 0 {
      ReadEndAppends(w, p, i, res, head);
    }
  }

  lemma ReadEndAppends(w: World, p: Proc, i: nat, res: int, head: nat)
    requires HasIds(p) && i < |p.slots| && p.status == Running && res <= 0
    ensures Appends(p, OnRead(w, p, i, res, head), [])
  {
    if res < 0 {
      RetireAppends(Settle(p, i, ReadFailed), i);
    } else {
      var p1 := Feed(p, i, res);
      EmitAppends(w, p1, i);
      var p2 := Emit(w, p1, i);
      if p1.status == Running && p2.status == Running {
        RetireAppends(p2, i);
      }
    }
  }

  lemma EmitAppends(w: World, p: Proc, i: nat)
    requires HasIds(p) && i < |p.slots|
    ensures var r := Emit(w, p, i); r.subs == p.subs && r.lost == p.lost && r.ios == p.ios && r.slots == p.slots
  {
  }

  lemma RetireAppends(p: Proc, i: nat)
    requires HasIds(p) && i < |p.slots|
    ensures Appends(p, Retire(p, i), [])
  {
  }

  lemma OpenAppends(p: Proc, i: nat, res: int, head: nat)
    requires HasIds(p) && i < |p.slots| && p.status == Running
    requires res >= 0 ==> |p.subs| < head + SQ_ENTRIES
    ensures Appends(p, OnOpen(p, i, res, head), if res >= 0 then [Slot(i)] else [])
  {
    if res >= 0 {
      RearmAppends(p, i, OpenedIo(p.ios[Slot(i)], p.slots[i], res), p.slots[i].(hasher := []), head);
    } else {
      var p1 := DropPath(Settle(p, i, OpenFailed), i);
      assert p1.subs == p.subs && p1.lost == p.lost && p1.ios == p.ios;
    }
  }

  lemma RecvAppends(p: Proc, env: Env)
    requires Shape(p) && p.status == Running && env.head1 <= env.head2
    requires |p.subs| + 1 + |FlushIds(p, env.ok)| <= env.head1 + SQ_ENTRIES
    ensures Shape(Submit(p, Recv, env.head1))
    ensures Appends(p, AfterFirst(Submit(p, Recv, env.head1), env), [Recv] + FlushIds(p, env.ok))
  {
    var p1 := Submit(p, Recv, env.head1);
    SubmitAppends(p, Recv, env.head1);
    assert FlushIds(p1, env.ok) == FlushIds(p, env.ok);
    if FlushIds(p, env.ok) == [] {
      FlushNothing(p1, env.ok, env.head2);
    } else {
      FlushAppends(p1, env.ok, env.head2);
    }
    AppendsThen(p, p1, FlushEgress(p1, env.ok, env.head2), [Recv], FlushIds(p, env.ok));
  }

  lemma FlushNothing(p: Proc, ok: bool, head: nat)
    requires Shape(p) && FlushIds(p, ok) == []
    ensures Appends(p, FlushEgress(p, ok, head), [])
  {
  }

  lemma ConnectAppends(p: Proc, env: Env)
    requires Shape(p) && p.status == Running && env.head1 <= env.head2
    requires |p.subs| + 1 + |FlushIds(p, env.ok)| <= env.head1 + SQ_ENTRIES
    ensures Shape(Submit(OnConnected(p), Recv, env.head1))
    ensures Appends(p, AfterFirst(Submit(OnConnected(p), Recv, env.head1), env), [Recv] + FlushIds(p, env.ok))
  {
    var p1 := OnConnected(p);
    assert p1.ios.Keys == p.ios.Keys;
    assert FlushIds(p1, env.ok) == FlushIds(p, env.ok);
    RecvAppends(p1, env);
  }

  lemma CreateAppends(p: Proc, res: int, head: nat)
    requires HasIds(p) && |p.subs| < head + SQ_ENTRIES
    ensures Appends(p, Submit(OnSocketReady(p, res), Conn, head), [Conn])
  {
    assert OnSocketReady(p, res).ios.Keys == p.ios.Keys;
    SubmitAppends(OnSocketReady(p, res), Conn, head);
  }

  /** With room for what it submits, a callback appends exactly that and loses nothing. */
  lemma CallbackAppends(w: World, p: Proc, cqe: Cqe, env: Env)
    requires Shape(p) && cqe.id in p.ios && p.status == Running && env.head1 <= env.head2
    requires p.ios[cqe.id].callback == OnTimeout ==> cqe.id == Timer
    requires |p.subs| + |Submits(p, cqe, env)| <= env.head1 + SQ_ENTRIES || Submits(p, cqe, env) == []
    ensures Appends(p, HashSystem.Callback(w, p, cqe, env), Submits(p, cqe, env))
  {
    match p.ios[cqe.id].callback
    case OnQueueEvent => QueueAppends(p, cqe, env);
    case OnFileOpen => if cqe.id.Slot? { OpenAppends(p, cqe.id.index, cqe.res, env.head1); }
    case OnFileRead => if cqe.id.Slot? { ReadAppends(w, p, cqe.id.index, cqe.res, env.head1); }
    case OnSocketCreate => if cqe.res >= 0 { CreateAppends(p, cqe.res, env.head1); }
    case OnSocketConnect => if cqe.res >= 0 && env.init { ConnectAppends(p, env); }
    case OnSocketRead => if cqe.res >= 0 { RecvAppends(p, env); }
    case _ =>
  }
}
