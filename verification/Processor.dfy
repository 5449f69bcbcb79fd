/** One processor thread in place: the slab array with its intrusive free list, the io_uring
    rings of its loop, and the callbacks that update both.  Each callback is proved to do what
    its function in `Runtime` says, on the wrapped counters of the ring. */
module Processor {
  import opened Requests
  import opened Words
  import E = EvLoop
  import R = Runtime
  import H = HashSystem

  const NIL: int := -1

  /** The link out of the a-th slot of the list. */
  ghost predicate LinkAt(next: seq<int>, list: seq<nat>, a: nat)
    requires a < |list|
  {
    list[a] < |next| && next[list[a]] == if a + 1 < |list| then list[a + 1] else NIL
  }

  /** `list` is the chain of slots from `first` along `next`, ending in NIL. */
  ghost predicate Chain(next: seq<int>, first: int, list: seq<nat>) {
    && first == (if list == [] then NIL else list[0])
    && (forall a | 0 <= a < |list| :: list[a] < |next|)
    && (forall a | 0 <= a < |list| :: LinkAt(next, list, a))
    && (forall a, b | 0 <= a < b < |list| :: list[a] != list[b])
  }

  lemma ChainPop(next: seq<int>, first: int, list: seq<nat>)
    requires Chain(next, first, list) && list != []
    ensures first == list[0] < |next| && Chain(next, next[first], list[1..])
  {
    assert LinkAt(next, list, 0);
    forall a | 0 <= a < |list[1..]| ensures LinkAt(next, list[1..], a) {
      assert LinkAt(next, list, a + 1);
    }
  }

  lemma ChainPush(next: seq<int>, first: int, list: seq<nat>, i: nat)
    requires Chain(next, first, list) && i < |next| && i !in list
    ensures Chain(next[i := first], i, [i] + list)
  {
    var next', list' := next[i := first], [i] + list;
    forall a | 0 <= a < |list'| ensures LinkAt(next', list', a) {
      if a > 0 { assert LinkAt(next, list, a - 1); }
    }
  }

  /** Slots 0, 1, ..., n - 1, each linked to the following one. */
  function Upto(n: nat): seq<nat> {
    seq(n, k requires 0 <= k < n => k)
  }

  lemma ChainInit(next: seq<int>)
    requires |next| > 0 && next[|next| - 1] == NIL
    requires forall j | 0 <= j < |next| - 1 :: next[j] == j + 1
    ensures Chain(next, 0, Upto(|next|))
  {
  }

  class Proc {
    const reqs: array<R.Preq>
    const next: array<int>
    var reqsList: int
    var nrFreeReqs: int
    var ios: map<ReqId, Io>
    var strs: map<nat, R.PathString>
    var fds: map<int, R.OpenFile>
    var buffers: seq<Bytes>
    var connected: bool
    const loop: E.Loop
    var lost: seq<Sqe>
    var status: R.Status
    var emitted: seq<R.Emission>
    var sent: seq<R.Sent>
    var jobs: seq<R.Job>  // history
    ghost var free: seq<nat>

    ghost predicate Valid()
      reads this, reqs, next, loop, loop.sqes, loop.cqes
    {
      && reqs.Length == next.Length
      && Chain(next[..], reqsList, free)
      && loop.Valid() && loop.sq.consumer.Resting? && loop.sqes.Length == SQ_ENTRIES
      && loop.cqes.Length == CQ_ENTRIES
    }

    ghost function View(): R.Proc
      reads this, reqs, loop
    {
      R.Proc(ios, reqs[..], free, nrFreeReqs, strs, fds, buffers, connected, loop.sq.sent, loop.sq.seen, lost,
             jobs, emitted, sent, status)
    }

    /** processor_setup's loop: every slot gets its number, its own buffer and a link to the
        following slot; the last link is then cut. */
    constructor (nrTasks: nat, buffers: seq<Bytes>, blankSqe: Sqe, blankCqe: Cqe)
      requires nrTasks > 0
      ensures Valid() && fresh(reqs) && fresh(next) && fresh(loop) && fresh(loop.sqes) && fresh(loop.cqes)
      ensures View() == R.Blank(nrTasks, buffers) && loop.cq.sent == [] && loop.cq.released == 0
    {
      var slab := new R.Preq[nrTasks];
      var links := new int[nrTasks];
      var i := 0;
      while i < nrTasks
        invariant i <= nrTasks
        invariant forall j | 0 <= j < i :: slab[j] == R.Preq([], j, None, 0, false, 0) && links[j] == j + 1
      {
        slab[i] := R.Preq([], i, None, 0, false, 0);
        links[i] := i + 1;
        i := i + 1;
      }
      links[nrTasks - 1] := NIL;
      reqs, next := slab, links;
      reqsList, nrFreeReqs := 0, nrTasks;
      ios := map id | id in R.Ids(nrTasks) :: R.FreshIo(id);
      strs, fds, this.buffers := map[], map[], buffers;
      loop := new E.Loop(blankSqe, blankCqe);
      connected, lost, status := false, [], R.Running;
      emitted, sent, jobs := [], [], [];
      free := Upto(nrTasks);
      new;
      ChainInit(next[..]);
      assert reqs[..] == R.Slab(nrTasks);
      assert free == R.Blank(nrTasks, buffers).free;
      assert View() == R.Blank(nrTasks, buffers);
    }

    /** The end of processor_setup and verifier_init: the poll and the socket are submitted. */
    method Start(ghost nrTasks: nat, ghost bufs: seq<Bytes>)
      requires Valid() && View() == R.Blank(nrTasks, bufs)
      modifies this, loop`sqTail, loop`log, loop`sq, loop.sqes
      ensures Valid() && View() == H.Init(nrTasks, bufs).proc
    {
      assert Poll in R.Ids(nrTasks) && Conn in R.Ids(nrTasks);
      Submit(Poll, 0);
      Submit(Conn, 0);
    }

    /** processor_get_req; None when the list is empty and the process exits. */
    method GetReq() returns (slot: Option<nat>)
      requires Valid() && R.HasIds(View())
      modifies this, reqs
      ensures Valid()
      ensures slot.None? ==> old(free) == [] && View() == old(View()).(status := R.Exited)
      ensures slot.Some? ==>
                && old(free) != [] && slot.value == old(free)[0] < reqs.Length && Slot(slot.value) in old(ios)
                && View() == R.GetReq(old(View()))
    {
      if reqsList == NIL {
        assert free == [];
        status := R.Exited;
        return None;
      }
      ChainPop(next[..], reqsList, free);
      slot := Some(reqsList);
      if reqs[reqsList].inFlight {
        status := R.Faulted;
      } else {
        PopHead();
      }
    }

    method PopHead()
      requires Valid() && free != [] && free[0] < reqs.Length && Slot(free[0]) in ios && !reqs[free[0]].inFlight
      modifies this`reqsList, this`ios, this`nrFreeReqs, this`free, reqs
      ensures Valid() && View() == R.GetReq(old(View()))
    {
      ChainPop(next[..], reqsList, free);
      var i := reqsList;
      reqs[i] := reqs[i].(inFlight := true);
      reqsList, ios, nrFreeReqs, free :=
        next[i], ios[Slot(i) := Io(Nop, ios[Slot(i)].fd, Null, 0, 0, 0, NoCallback, Held)],
        nrFreeReqs - 1, free[1..];
      assert reqs[..] == old(reqs[..])[i := old(reqs[i]).(inFlight := true)];
    }

    /** processor_free_req, of a slot that is off the list. */
    method FreeReq(i: nat)
      requires Valid() && i < reqs.Length && i !in free && Slot(i) in ios
      modifies this`reqsList, this`ios, this`nrFreeReqs, this`free, reqs, next
      ensures Valid() && View() == R.FreeReq(old(View()), i)
    {
      ChainPush(next[..], reqsList, free, i);
      reqs[i] := reqs[i].(data := None, inFlight := false);
      next[i] := reqsList;
      reqsList, nrFreeReqs, ios, free :=
        i, nrFreeReqs + 1, ios[Slot(i) := ios[Slot(i)].(loc := Free)], [i] + free;
      assert reqs[..] == old(reqs[..])[i := old(reqs[i]).(data := None, inFlight := false)];
      assert next[..] == old(next[..])[i := old(reqsList)];
    }

    /** ev_iou_req, its result ignored as every caller does.  `head` is the SQ head its load
        returns, unwrapped; it never exceeds the tail. */
    method Submit(id: ReqId, head: nat)
      requires Valid() && id in ios && loop.sq.seen <= head
      modifies this`ios, this`lost, loop`sqTail, loop`log, loop`sq, loop.sqes
      ensures Valid() && View() == R.Submit(old(View()), id, head)
      ensures old(loop.sq.sent) <= loop.sq.sent
      ensures loop.sq.sent != old(loop.sq.sent) ==> SameRequest(loop.sq.sent[|loop.sq.sent| - 1], id, old(ios[id]))
    {
      var code := PushSqe(id, head);
      Record(id, code);
    }

    /** History: where the object now is. */
    method Record(id: ReqId, code: nat)
      requires Valid() && id in ios && (code != E.EV_FULL ==> loop.log != [])
      modifies this`ios, this`lost
      ensures Valid()
      ensures var p := old(View());
              View() == if code == E.EV_FULL
                        then p.(ios := p.ios[id := p.ios[id].(loc := Lost(|p.lost|))],
                                lost := p.lost + [ToSqe(id, p.ios[id])])
                        else p.(ios := p.ios[id := p.ios[id].(loc := Pending(|p.subs| - 1))])
    {
      if code == E.EV_FULL {
        lost, ios := lost + [ToSqe(id, ios[id])], ios[id := ios[id].(loc := Lost(|lost|))];
      } else {
        ios := ios[id := ios[id].(loc := Pending(|loop.log| - 1))];
      }
    }

    method PushSqe(id: ReqId, head: nat) returns (code: nat)
      requires Valid() && id in ios && loop.sq.seen <= head
      modifies loop`sqTail, loop`log, loop`sq, loop.sqes
      ensures Valid()
      ensures var p := old(View()); var h := if head <= |p.subs| then head else |p.subs|;
              && (code == E.EV_FULL <==> |p.subs| - h > SQ_ENTRIES - 1)
              && View() == p.(seen := h,
                              subs := if code == E.EV_FULL then p.subs else p.subs + [ToSqe(id, p.ios[id])])
      ensures code != E.EV_FULL ==> |loop.sq.sent| > 0 && SameRequest(loop.sq.sent[|loop.sq.sent| - 1], id, ios[id])
    {
      var h := if head <= |loop.log| then head else |loop.log|;
      loop.KernelTakes(h);
      code := loop.IouReq(id, ios[id], Wrap(h), h);
    }

    /** free(wreq->data); wreq->data = NULL; wreq->data2 = 0 */
    method DropPath(i: nat)
      requires Valid() && i < reqs.Length
      modifies this`strs, this`status, reqs
      ensures Valid() && View() == R.DropPath(old(View()), i)
    {
      var q := reqs[i];
      if q.data.Some? && q.data.value !in strs {
        status := R.Faulted;
        return;
      }
      if q.data.Some? {
        strs := strs - {q.data.value};
      }
      reqs[i] := q.(data := None, data2 := 0);
      assert reqs[..] == old(reqs[..])[i := q.(data := None, data2 := 0)];
    }

    /** The `free:` label of on_file_read */
    method Retire(i: nat)
      requires Valid() && i < reqs.Length && i !in free && Slot(i) in ios
      modifies this, reqs, next
      ensures Valid() && View() == R.Retire(old(View()), i)
    {
      var fd := ios[Slot(i)].fd;
      DropPath(i);
      FreeReq(i);
      if fd in fds {
        fds := fds - {fd};
      } else {
        status := R.Faulted;
      }
    }

    method Settle(i: nat, st: R.JobStatus)
      requires Valid() && i < reqs.Length
      modifies this`jobs
      ensures Valid() && View() == R.Settle(old(View()), i, st)
    {
      var j := reqs[i].job;
      if j < |jobs| {
        jobs := jobs[j := jobs[j].(status := st)];
      }
    }

    /** hasher_update from the buffer the request names */
    method Feed(i: nat, n: nat)
      requires Valid() && i < reqs.Length && Slot(i) in ios
      modifies this`status, reqs
      ensures Valid() && View() == R.Feed(old(View()), i, n)
    {
      var a := ios[Slot(i)].addr;
      if a.Buf? && a.index < |buffers| && n <= |buffers[a.index]| {
        var q := reqs[i].(hasher := reqs[i].hasher + buffers[a.index][..n]);
        reqs[i] := q;
        assert reqs[..] == old(reqs[..])[i := q];
      } else {
        status := R.Faulted;
      }
    }

    /** hasher_finalize, the printed line, verifier_verify_hash */
    method Emit(w: R.World, i: nat)
      requires Valid() && i < reqs.Length
      modifies this`jobs, this`emitted, this`sent, this`status
      ensures Valid() && View() == R.Emit(w, old(View()), i)
    {
      var q := reqs[i];
      if q.data.None? || q.data.value !in strs || q.data2 > |strs[q.data.value].path| {
        status := R.Faulted;
        return;
      }
      var path, hash := strs[q.data.value].path, w.hash(q.hasher);
      Settle(i, R.Hashed(|emitted|));
      Report(R.Emission(q.job, path, hash), R.Sent(hash, path[..q.data2]));
    }

    method Report(line: R.Emission, call: R.Sent)
      requires Valid()
      modifies this`emitted, this`sent, this`status
      ensures Valid()
      ensures var p := old(View()).(emitted := old(emitted) + [line]);
              View() == if p.connected then p.(sent := p.sent + [call]) else p.(status := R.NoConnection)
    {
      emitted := emitted + [line];
      if connected {
        sent := sent + [call];
      } else {
        status := R.NoConnection;
      }
    }

    method OnFileRead(w: R.World, i: nat, res: int, head: nat)
      requires Valid() && i < reqs.Length && i !in free && Slot(i) in ios && loop.sq.seen <= head
      modifies this, reqs, next, loop`sqTail, loop`log, loop`sq, loop.sqes
      ensures Valid() && View() == R.OnRead(w, old(View()), i, res, head)
    {
      if res < 0 {
        ReadFail(i);
      } else {
        FeedOn(w, i, res, head);
      }
    }

    method FeedOn(w: R.World, i: nat, n: nat, head: nat)
      requires Valid() && i < reqs.Length && i !in free && Slot(i) in ios && loop.sq.seen <= head
      modifies this, reqs, next, loop`sqTail, loop`log, loop`sq, loop.sqes
      ensures Valid() && View() == R.OnRead(w, old(View()), i, n, head)
    {
      Feed(i, n);
      if status == R.Running {
        ReadOn(w, i, n, head);
      }
    }

    /** After the update of the hasher: the end of the file, or the next read. */
    method ReadOn(w: R.World, i: nat, n: nat, head: nat)
      requires Valid() && i < reqs.Length && i !in free && Slot(i) in ios && loop.sq.seen <= head
      modifies this, reqs, next, loop`sqTail, loop`log, loop`sq, loop.sqes
      ensures Valid()
      ensures View() == var p := old(View()); var io := p.ios[Slot(i)];
                        if n == 0 then var e := R.Emit(w, p, i); if e.status != R.Running then e else R.Retire(e, i)
                        else R.Rearm(p, i, io.(off := io.off + n), p.slots[i], head)
    {
      if n == 0 {
        ReadEnd(w, i);
      } else {
        ReadAgain(i, n, head);
      }
    }

    method ReadFail(i: nat)
      requires Valid() && i < reqs.Length && i !in free && Slot(i) in ios
      modifies this, reqs, next
      ensures Valid() && View() == R.Retire(R.Settle(old(View()), i, R.ReadFailed), i)
    {
      Settle(i, R.ReadFailed);
      Retire(i);
    }

    /** End of file: report, then give the slot up. */
    method ReadEnd(w: R.World, i: nat)
      requires Valid() && i < reqs.Length && i !in free && Slot(i) in ios
      modifies this, reqs, next
      ensures Valid()
      ensures View() == var p := R.Emit(w, old(View()), i); if p.status != R.Running then p else R.Retire(p, i)
    {
      Emit(w, i);
      if status == R.Running {
        Retire(i);
      }
    }

    /** The re-arm branch of on_file_read */
    method ReadAgain(i: nat, n: nat, head: nat)
      requires Valid() && i < reqs.Length && Slot(i) in ios && loop.sq.seen <= head
      modifies this`ios, this`lost, loop`sqTail, loop`log, loop`sq, loop.sqes
      ensures Valid()
      ensures View() == var p := old(View()); var io := p.ios[Slot(i)];
                        R.Rearm(p, i, io.(off := io.off + n), p.slots[i], head)
    {
      ios := ios[Slot(i) := ios[Slot(i)].(off := ios[Slot(i)].off + n)];
      Submit(Slot(i), head);
      assert reqs[..] == reqs[..][i := reqs[i]];
    }

    method OnFileOpen(i: nat, res: int, head: nat)
      requires Valid() && i < reqs.Length && i !in free && Slot(i) in ios && loop.sq.seen <= head
      modifies this, reqs, next, loop`sqTail, loop`log, loop`sq, loop.sqes
      ensures Valid() && View() == R.OnOpen(old(View()), i, res, head)
    {
      if res < 0 {
        Settle(i, R.OpenFailed);
        DropPath(i);
        FreeReq(i);
        return;
      }
      ios := ios[Slot(i) := R.OpenedIo(ios[Slot(i)], reqs[i], res)];
      reqs[i] := reqs[i].(hasher := []);
      assert reqs[..] == old(reqs[..])[i := old(reqs[i]).(hasher := [])];
      Submit(Slot(i), head);
    }

    /** Opening the file of an event: slot, strdup, job, submission. */
    method OpenEvent(got: R.Got, ptr: nat, head: nat)
      requires Valid() && R.HasIds(View()) && free != [] && loop.sq.seen <= head
      requires free[0] < reqs.Length && Slot(free[0]) in ios
      modifies this, reqs, loop`sqTail, loop`log, loop`sq, loop.sqes
      ensures Valid() && View() == R.OpenEvent(old(View()), got, ptr, head)
    {
      var slot := GetReq();
      if status == R.Running {
        SubmitOpen(slot.value, got, ptr, head);
      }
    }

    method SubmitOpen(i: nat, got: R.Got, ptr: nat, head: nat)
      requires Valid() && i < reqs.Length && Slot(i) in ios && loop.sq.seen <= head
      modifies this`ios, this`strs, this`jobs, this`lost, loop`sqTail, loop`log, loop`sq, loop.sqes, reqs
      ensures Valid()
      ensures View() == var p := old(View());
                        R.Rearm(R.WithJob(p, i, got, ptr), i, R.OpenIo(p.ios[Slot(i)], ptr),
                                p.slots[i].(data := Some(ptr), data2 := |R.EventPath(got)|, job := |p.jobs|), head)
    {
      PrepareOpen(i, got, ptr);
      Submit(Slot(i), head);
    }

    /** The fields of an open request, and its history. */
    method PrepareOpen(i: nat, got: R.Got, ptr: nat)
      requires Valid() && i < reqs.Length && Slot(i) in ios
      modifies this`ios, this`strs, this`jobs, reqs
      ensures Valid()
      ensures var p := old(View()); var p1 := R.WithJob(p, i, got, ptr);
              View() == p1.(ios := p1.ios[Slot(i) := R.OpenIo(p.ios[Slot(i)], ptr)],
                            slots := p1.slots[i := p.slots[i].(data := Some(ptr), data2 := |R.EventPath(got)|,
                                                               job := |p.jobs|)])
    {
      var path := R.EventPath(got);
      var q := reqs[i].(data := Some(ptr), data2 := |path|, job := |jobs|);
      reqs[i] := q;
      ios, strs, jobs := ios[Slot(i) := R.OpenIo(ios[Slot(i)], ptr)], strs[ptr := R.PathString(path, i)],
        jobs + [R.Job(path, R.InSlot(i))];
      assert reqs[..] == old(reqs[..])[i := q];
    }

    method OnQueueEvent(res: int, more: bool, got: R.Got, ptr: nat, head1: nat, head2: nat)
      requires Valid() && R.HasIds(View()) && loop.sq.seen <= head1 <= head2
      modifies this, reqs, loop`sqTail, loop`log, loop`sq, loop.sqes
      ensures Valid() && View() == R.OnQueue(old(View()), res, more, got, ptr, head1, head2)
    {
      if res < 0 {
        if res == -R.EBADF || res == -R.EINVAL {
          status := R.Exited;
        } else {
          Submit(Poll, head1);
        }
        return;
      }
      if !got.GotNothing? {
        if reqsList == NIL {
          status := R.Exited;
          return;
        }
        R.OpenEventFrame(View(), got, ptr, head1);
        OpenEvent(got, ptr, head1);
        if status != R.Running {
          return;
        }
      }
      if !more {
        Submit(Poll, head2);
      }
    }

    /** verifier_flush_egress; `flushOk` says the flush succeeded with a timeout below 2^63. */
    method FlushEgress(flushOk: bool, head: nat)
      requires Valid() && R.HasIds(View()) && loop.sq.seen <= head
      modifies this, reqs, loop`sqTail, loop`log, loop`sq, loop.sqes
      ensures Valid() && View() == R.FlushEgress(old(View()), flushOk, head)
      ensures old(status) == R.Running ==>
                (status == R.Exited <==> !flushOk || (old(ios[Timer].opcode) == TimeoutOp && old(free) == []))
    {
      if !flushOk {
        status := R.Exited;
        return;
      }
      if ios[Timer].opcode == TimeoutOp {
        var slot := GetReq();
        if slot.Some? && status == R.Running {
          SubmitUpdate(slot.value, head);
        }
      } else {
        ios := ios[Timer := R.TimerIo(ios[Timer])];
        Submit(Timer, head);
      }
    }

    method SubmitUpdate(i: nat, head: nat)
      requires Valid() && i < reqs.Length && Slot(i) in ios && loop.sq.seen <= head
      modifies this`ios, this`lost, loop`sqTail, loop`log, loop`sq, loop.sqes
      ensures Valid()
      ensures View() == var p := old(View()); R.Rearm(p, i, R.UpdateIo(p.ios[Slot(i)]), p.slots[i], head)
    {
      ios := ios[Slot(i) := R.UpdateIo(ios[Slot(i)])];
      Submit(Slot(i), head);
      assert reqs[..] == reqs[..][i := reqs[i]];
    }

    method OnSocketCreate(res: int, head: nat)
      requires Valid() && Conn in ios && loop.sq.seen <= head
      modifies this, loop`sqTail, loop`log, loop`sq, loop.sqes
      ensures Valid()
      ensures View() == if res < 0 then old(View()).(status := R.Exited)
                        else R.Submit(R.OnSocketReady(old(View()), res), Conn, head)
    {
      if res < 0 {
        status := R.Exited;
        return;
      }
      ios := ios[Conn := ios[Conn].(opcode := ConnectOp, fd := res, addr := RemoteAddr, off := 16, len := 0,
                                    flags := 0, callback := Callback.OnSocketConnect)];
      Submit(Conn, head);
    }

    method OnSocketConnect(res: int, init: bool, ok: bool, head1: nat, head2: nat)
      requires Valid() && R.HasIds(View()) && loop.sq.seen <= head1 <= head2
      modifies this, reqs, loop`sqTail, loop`log, loop`sq, loop.sqes
      ensures Valid()
      ensures res < 0 || !init ==> View() == old(View()).(status := R.Exited)
      ensures res >= 0 && init ==>
                && H.Shape(R.Submit(R.OnConnected(old(View())), Recv, head1))
                && View() == R.FlushEgress(R.Submit(R.OnConnected(old(View())), Recv, head1), ok, head2)
    {
      if res < 0 || !init {
        status := R.Exited;
        return;
      }
      var recv := ios[Recv].(opcode := ReadOp, fd := ios[Conn].fd, addr := ReadBuf, off := 0, len := 65535,
                             flags := 0, callback := Callback.OnSocketRead);
      ios, connected := ios[Conn := ios[Conn].(loc := Parked)][Recv := recv], true;
      assert View() == R.OnConnected(old(View()));
      RecvAndFlush(ok, head1, head2);
    }

    method OnSocketRead(res: int, ok: bool, head1: nat, head2: nat)
      requires Valid() && R.HasIds(View()) && loop.sq.seen <= head1 <= head2
      modifies this, reqs, loop`sqTail, loop`log, loop`sq, loop.sqes
      ensures Valid()
      ensures res < 0 ==> View() == old(View()).(status := R.Exited)
      ensures res >= 0 ==>
                && H.Shape(R.Submit(old(View()), Recv, head1))
                && View() == R.FlushEgress(R.Submit(old(View()), Recv, head1), ok, head2)
    {
      if res < 0 {
        status := R.Exited;
        return;
      }
      RecvAndFlush(ok, head1, head2);
    }

    /** Re-arm the read, then drain writes. */
    method RecvAndFlush(ok: bool, head1: nat, head2: nat)
      requires Valid() && R.HasIds(View()) && loop.sq.seen <= head1 <= head2
      modifies this, reqs, loop`sqTail, loop`log, loop`sq, loop.sqes
      ensures Valid() && H.Shape(R.Submit(old(View()), Recv, head1))
      ensures View() == R.FlushEgress(R.Submit(old(View()), Recv, head1), ok, head2)
    {
      Submit(Recv, head1);
      assert ios.Keys == old(ios).Keys;
      FlushEgress(ok, head2);
    }

    /** The loop's indirect call for one completion.  A slot whose completion is delivered is
        off the free list. */
    method Dispatch(w: R.World, cqe: Cqe, env: H.Env)
      requires Valid() && R.HasIds(View()) && cqe.id in ios && loop.sq.seen <= env.head1 <= env.head2
      requires cqe.id.Slot? ==> cqe.id.index !in free
      modifies this, reqs, next, loop`sqTail, loop`log, loop`sq, loop.sqes
      ensures Valid() && View() == H.Callback(w, old(View()), cqe, env)
    {
      var cb := ios[cqe.id].callback;
      if cb.OnQueueEvent? {
        OnQueueEvent(cqe.res, cqe.more, env.got, env.ptr, env.head1, env.head2);
      } else if cb.OnTimeout? {
        ios := ios[cqe.id := ios[cqe.id].(loc := Parked)];
      } else if cb.OnSocketCreate? || cb.OnSocketConnect? || cb.OnSocketRead? {
        DispatchSocket(w, cqe, env);
      } else if cb.NoCallback? || !cqe.id.Slot? {
        status := R.Faulted;
      } else {
        DispatchSlot(w, cqe, env);
      }
    }

    method DispatchSlot(w: R.World, cqe: Cqe, env: H.Env)
      requires Valid() && R.HasIds(View()) && cqe.id in ios && loop.sq.seen <= env.head1
      requires cqe.id.Slot? && cqe.id.index !in free
      requires var cb := ios[cqe.id].callback; cb.OnFileOpen? || cb.OnFileRead? || cb.OnTimeoutUpdate?
      modifies this, reqs, next, loop`sqTail, loop`log, loop`sq, loop.sqes
      ensures Valid() && View() == H.Callback(w, old(View()), cqe, env)
    {
      var cb := ios[cqe.id].callback;
      if cb.OnFileOpen? {
        OnFileOpen(cqe.id.index, cqe.res, env.head1);
      } else if cb.OnFileRead? {
        OnFileRead(w, cqe.id.index, cqe.res, env.head1);
      } else {
        FreeReq(cqe.id.index);
      }
    }

    method DispatchSocket(w: R.World, cqe: Cqe, env: H.Env)
      requires Valid() && R.HasIds(View()) && cqe.id in ios && loop.sq.seen <= env.head1 <= env.head2
      requires var cb := ios[cqe.id].callback; cb.OnSocketCreate? || cb.OnSocketConnect? || cb.OnSocketRead?
      modifies this, reqs, next, loop`sqTail, loop`log, loop`sq, loop.sqes
      ensures Valid() && View() == H.Callback(w, old(View()), cqe, env)
    {
      var cb := ios[cqe.id].callback;
      if cb.OnSocketCreate? {
        OnSocketCreate(cqe.res, env.head1);
      } else if cb.OnSocketConnect? {
        OnSocketConnect(cqe.res, env.init, env.ok, env.head1, env.head2);
      } else {
        OnSocketRead(cqe.res, env.ok, env.head1, env.head2);
      }
    }
  }
}
