/** The callbacks of the embedded objects keep the invariant: queue events, socket setup,
    socket reads and the timer.  Each may also take one slot off the free list. */
module LoopSteps {
  import opened Requests
  import opened Runtime
  import opened HashSystem
  import opened Ownership
  import opened FileState
  import opened KernelSteps
  import opened FileSteps

  /** The invariant within a callback. */
  ghost predicate Mid(w: World, s: Sys) {
    Own(s) && Data(w, s) && Singles(s.proc)
  }

  predicate AtRest(id: ReqId, loc: Loc) {
    !loc.Held? && (id.Slot? ==> !loc.Parked?)
  }

  ghost predicate SettledBut(p: Proc, x: ReqId) {
    forall id | id in p.ios && id != x :: AtRest(id, p.ios[id].loc)
  }

  /** Moving one embedded object, keeping what it is. */
  lemma SingleMoved(p: Proc, r: Proc, id: ReqId)
    requires HasIds(p) && Singles(p) && id in p.ios && id in r.ios && !id.Slot?
    requires r.ios == p.ios[id := p.ios[id].(loc := r.ios[id].loc)]
    requires r.connected == p.connected && r.slots == p.slots
    requires !r.ios[id].loc.Free? && (id == Poll ==> !r.ios[id].loc.Parked?)
    requires p.connected ==> id != Conn
    requires !p.connected ==> id != Recv && id != Timer
    requires id == Timer ==> p.ios[id].opcode == TimeoutOp
    ensures HasIds(r) && Singles(r)
    ensures SettledBut(p, id) ==> SettledBut(r, id)
    ensures SettledBut(p, id) && AtRest(id, r.ios[id].loc) ==> Settled(r)
  {
    assert r.ios.Keys == p.ios.Keys;
  }

  lemma DeliveredSingle(s: Sys, id: ReqId)
    requires Own(s) && Singles(s.proc) && Next(s, id) && !id.Slot?
    ensures s.posted[s.reaped].more ==> id == Poll && s.posted[s.reaped].res >= 0
    ensures !s.posted[s.reaped].more ==>
              && s.proc.ios[id].loc.InCq?
              && (s.proc.connected ==> id != Conn)
              && (!s.proc.connected ==> id != Recv && id != Timer)
              && (id == Timer ==> s.proc.ios[id].opcode == TimeoutOp)
  {
    assert CqeOk(s, s.reaped);
  }

  lemma ReapFiles(s: Sys, id: ReqId)
    requires Own(s) && Next(s, id) && !id.Slot?
    ensures SameFiles(s.proc, Reap(s).proc) && Reap(s).posted == s.posted
    ensures Reap(s).proc.connected == s.proc.connected && Reap(s).proc.free == s.proc.free
    ensures Reap(s).proc.status == s.proc.status && Reap(s).proc.sent == s.proc.sent
    ensures Reap(s).proc.ios
            == if s.posted[s.reaped].more then s.proc.ios else s.proc.ios[id := s.proc.ios[id].(loc := Held)]
  {
    assert Reap(s).proc.ios.Keys == s.proc.ios.Keys;
  }

  lemma ReapSingle(w: World, s: Sys, id: ReqId)
    requires Full(w, s) && Next(s, id) && !id.Slot?
    ensures Mid(w, Reap(s)) && SettledBut(Reap(s).proc, id)
    ensures s.posted[s.reaped].more ==> id == Poll && Settled(Reap(s).proc)
    ensures !s.posted[s.reaped].more ==> AtHand(Reap(s).proc, id)
  {
    DeliveredSingle(s, id);
    ReapFiles(s, id);
    ReapKeeps(s);
    SingleLocal(w, s, Reap(s));
    LocalKeeps(w, s, Reap(s), |s.proc.slots|);
    if !s.posted[s.reaped].more {
      SingleMoved(s.proc, Reap(s).proc, id);
    }
  }

  /** Embedded objects that may be submitted now. */
  ghost predicate MaySubmit(p: Proc, id: ReqId) {
    && AtHand(p, id)
    && (id == Poll || (id == Conn && !p.connected) || (id == Recv && p.connected)
        || (id == Timer && p.ios[id].opcode == TimeoutOp))
  }

  lemma SubmitSingle(w: World, s: Sys, id: ReqId, head: nat)
    requires Mid(w, s) && MaySubmit(s.proc, id) && s.proc.seen <= head
    ensures var t := CaughtUp(s, Submit(s.proc, id, head));
            && Mid(w, t) && t.proc.seen <= head && (SettledBut(s.proc, id) ==> Settled(t.proc))
  {
    var t := CaughtUp(s, Submit(s.proc, id, head));
    SubmitKeeps(s, id, head);
    SubmitFiles(s.proc, id, head);
    SingleLocal(w, s, t);
    LocalKeeps(w, s, t, |s.proc.slots|);
    SingleMoved(s.proc, t.proc, id);
  }

  lemma SubmitFiles(p: Proc, id: ReqId, head: nat)
    requires HasIds(p) && id in p.ios && !id.Slot? && p.seen <= head && p.seen <= |p.subs|
    ensures var r := Submit(p, id, head);
            && SameFiles(p, r) && r.free == p.free && r.status == p.status && r.sent == p.sent
            && r.connected == p.connected && p.seen <= r.seen <= head
            && id in r.ios && r.ios == p.ios[id := p.ios[id].(loc := r.ios[id].loc)]
            && (r.ios[id].loc.Pending? || r.ios[id].loc.Lost?)
  {
    SubmitFrame(p, id, head);
    assert Submit(p, id, head).ios.Keys == p.ios.Keys;
  }

  /** Only slot i left the free list and was submitted. */
  ghost predicate SlotTaken(s: Sys, t: Sys, i: nat) {
    && i < |s.proc.slots| == |t.proc.slots| && Slot(i) in s.proc.ios && Slot(i) in t.proc.ios
    && t.proc.ios == s.proc.ios[Slot(i) := t.proc.ios[Slot(i)]]
    && AtRest(Slot(i), t.proc.ios[Slot(i)].loc)
    && t.proc.status == s.proc.status && t.proc.connected == s.proc.connected
    && t.proc.emitted == s.proc.emitted && t.proc.sent == s.proc.sent
    && s.proc.jobs <= t.proc.jobs && s.proc.seen <= t.proc.seen && t.posted == s.posted
  }

  lemma SlotTakenKeeps(w: World, s: Sys, t: Sys, i: nat)
    requires Mid(w, s) && SlotTaken(s, t, i) && Own(t) && Local(w, s, t, i)
    ensures Mid(w, t)
    ensures forall x | SettledBut(s.proc, x) && x in s.proc.ios :: SettledBut(t.proc, x)
    ensures Settled(s.proc) ==> Settled(t.proc)
  {
    LocalKeeps(w, s, t, i);
    SlotTakenSingles(s.proc, t.proc, i);
    SlotTakenSettled(s.proc, t.proc, i);
  }

  lemma SlotTakenSingles(p: Proc, r: Proc, i: nat)
    requires HasIds(p) && Singles(p) && i < |p.slots| == |r.slots| && Slot(i) in r.ios
    requires r.ios == p.ios[Slot(i) := r.ios[Slot(i)]] && r.connected == p.connected
    ensures HasIds(r) && Singles(r)
  {
    assert r.ios.Keys == p.ios.Keys;
  }

  lemma SlotTakenSettled(p: Proc, r: Proc, i: nat)
    requires Slot(i) in p.ios && Slot(i) in r.ios && AtRest(Slot(i), r.ios[Slot(i)].loc)
    requires r.ios == p.ios[Slot(i) := r.ios[Slot(i)]]
    ensures forall x | SettledBut(p, x) && x in p.ios :: SettledBut(r, x)
    ensures Settled(p) ==> Settled(r)
  {
    assert r.ios.Keys == p.ios.Keys;
  }

  // ---------------------------------------------------------------------------
  // Taking a slot

  lemma HeadFree(s: Sys)
    requires Own(s) && s.proc.free != []
    ensures var i := s.proc.free[0];
            && i < |s.proc.slots| && Slot(i) in s.proc.ios && s.proc.ios[Slot(i)].loc == Free
            && !s.proc.slots[i].inFlight && !FilePhase(s.proc, i) && s.proc.seen <= |s.proc.subs|
  {
    assert s.proc.free[0] in s.proc.free;
  }

  /** The memory once the slot is taken and, for an open, its string and job exist. */
  ghost predicate Took(s: Sys, p: Proc, i: nat) {
    && i < |s.proc.slots| == |p.slots| && Slot(i) in s.proc.ios && Slot(i) in p.ios
    && p == s.proc.(ios := p.ios, free := p.free, nrFree := p.nrFree, slots := p.slots, strs := p.strs, jobs := p.jobs)
    && p.ios == s.proc.ios[Slot(i) := p.ios[Slot(i)]]
    && p.slots == s.proc.slots[i := s.proc.slots[i].(inFlight := true)]
  }

  lemma GetReqTook(s: Sys)
    requires Own(s) && s.proc.free != []
    ensures Slot(s.proc.free[0]) in s.proc.ios && Took(s, GetReq(s.proc), s.proc.free[0])
    ensures GetReq(s.proc).strs == s.proc.strs && GetReq(s.proc).jobs == s.proc.jobs
    ensures GetReq(s.proc).ios[Slot(s.proc.free[0])].loc == Held
  {
    HeadFree(s);
  }

  /** A slot taken for an event or an update is submitted in its form. */
  lemma TakenForms(s: Sys, ptr: nat)
    requires Own(s) && s.proc.free != []
    ensures var i := s.proc.free[0];
            && i < |s.proc.slots| && Slot(i) in s.proc.ios
            && var io := GetReq(s.proc).ios[Slot(i)];
               Form(ToSqe(Slot(i), OpenIo(io, ptr))) && Form(ToSqe(Slot(i), UpdateIo(io)))
  {
    HeadFree(s);
  }

  lemma RearmTook(s: Sys, p: Proc, t: Sys, i: nat, io: Io, q: Preq, head: nat)
    requires Took(s, p, i) && t == CaughtUp(s, Rearm(p, i, io, q, head)) && p.seen <= head && p.seen <= |p.subs|
    requires s.proc.jobs <= p.jobs
    ensures SlotTaken(s, t, i) && t.proc.seen <= head
    ensures t.proc.ios[Slot(i)] == io.(loc := t.proc.ios[Slot(i)].loc) && !t.proc.ios[Slot(i)].loc.InCq?
    ensures t.proc.ios[Slot(i)].loc != Free
    ensures t.proc.slots == s.proc.slots[i := q] && t.proc.buffers == s.proc.buffers
    ensures t.proc.strs == p.strs && t.proc.fds == s.proc.fds && t.proc.jobs == p.jobs
  {
    SubmitFrame(p.(ios := p.ios[Slot(i) := io], slots := p.slots[i := q]), Slot(i), head);
    assert t.proc.slots == s.proc.slots[i := q];
  }

  lemma OpenEventLocal(w: World, s: Sys, t: Sys, i: nat, got: Got, ptr: nat)
    requires Data(w, s) && SlotTaken(s, t, i) && s.proc.ios[Slot(i)].loc == Free && ptr !in s.proc.strs
    requires t.proc.ios[Slot(i)].opcode == OpenAt && t.proc.ios[Slot(i)].addr == Str(ptr)
    requires t.proc.ios[Slot(i)].callback == OnFileOpen && !t.proc.ios[Slot(i)].loc.InCq?
    requires t.proc.ios[Slot(i)].loc != Free && Form(ToSqe(Slot(i), t.proc.ios[Slot(i)]))
    requires var path := EventPath(got);
             && t.proc.slots == s.proc.slots[i := t.proc.slots[i]] && t.proc.buffers == s.proc.buffers
             && t.proc.slots[i].data == Some(ptr) && t.proc.slots[i].data2 == |path|
             && t.proc.slots[i].job == |s.proc.jobs| && t.proc.slots[i].buffer == s.proc.slots[i].buffer
             && t.proc.strs == s.proc.strs[ptr := PathString(path, i)] && t.proc.fds == s.proc.fds
             && t.proc.jobs == s.proc.jobs + [Job(path, InSlot(i))]
    ensures Local(w, s, t, i)
  {
    assert SlotData(w, s, i);
    assert t.proc.ios.Keys == s.proc.ios.Keys;
    assert SlotData(w, t, i);
    StrsAdded(s.proc, t.proc, i, ptr);
    FdsKept(s, t, i);
    JobAdded(s.proc, t.proc, i, Job(EventPath(got), InSlot(i)));
  }

  lemma OpenEventOwn(s: Sys, got: Got, ptr: nat, head: nat)
    requires Own(s) && s.proc.free != [] && s.proc.seen <= head && s.proc.status == Running
    ensures Slot(s.proc.free[0]) in s.proc.ios
    ensures Own(CaughtUp(s, OpenEvent(s.proc, got, ptr, head)))
  {
    var i := s.proc.free[0];
    GetReqKeeps(s);
    GetReqTook(s);
    var p1 := GetReq(s.proc);
    var p2 := WithJob(p1, i, got, ptr);
    FrameKeeps(s.(proc := p1), p2);
    RearmKeeps(s.(proc := p2), i, OpenIo(p1.ios[Slot(i)], ptr),
               p1.slots[i].(data := Some(ptr), data2 := |EventPath(got)|, job := |p1.jobs|), head);
  }

  lemma OpenEventKeeps(w: World, s: Sys, t: Sys, got: Got, ptr: nat, head: nat)
    requires Mid(w, s) && s.proc.free != [] && ptr !in s.proc.strs && s.proc.seen <= head
    requires Slot(s.proc.free[0]) in s.proc.ios && s.proc.free[0] < |s.proc.slots| && s.proc.status == Running
    requires t == CaughtUp(s, OpenEvent(s.proc, got, ptr, head))
    ensures Mid(w, t) && SlotTaken(s, t, s.proc.free[0]) && t.proc.seen <= head
    ensures forall x | SettledBut(s.proc, x) && x in s.proc.ios :: SettledBut(t.proc, x)
    ensures Settled(s.proc) ==> Settled(t.proc)
  {
    var i := s.proc.free[0];
    HeadFree(s);
    GetReqTook(s);
    GetReqKeeps(s);
    var p1 := GetReq(s.proc);
    var p2 := WithJob(p1, i, got, ptr);
    RearmTook(s, p2, t, i, OpenIo(p1.ios[Slot(i)], ptr),
              p1.slots[i].(data := Some(ptr), data2 := |EventPath(got)|, job := |p1.jobs|), head);
    OpenEventOwn(s, got, ptr, head);
    TakenForms(s, ptr);
    OpenEventLocal(w, s, t, i, got, ptr);
    SlotTakenKeeps(w, s, t, i);
  }

  lemma UpdateOwn(s: Sys, head: nat)
    requires Own(s) && s.proc.free != [] && s.proc.seen <= head
    ensures Slot(s.proc.free[0]) in s.proc.ios
    ensures var i, p1 := s.proc.free[0], GetReq(s.proc);
            && i < |p1.slots| && Slot(i) in p1.ios
            && Own(CaughtUp(s, Rearm(p1, i, UpdateIo(p1.ios[Slot(i)]), p1.slots[i], head)))
  {
    var i := s.proc.free[0];
    GetReqKeeps(s);
    GetReqTook(s);
    var p1 := GetReq(s.proc);
    RearmKeeps(s.(proc := p1), i, UpdateIo(p1.ios[Slot(i)]), p1.slots[i], head);
  }

  lemma UpdateTakenLocal(w: World, s: Sys, t: Sys, i: nat)
    requires Data(w, s) && SlotTaken(s, t, i) && s.proc.ios[Slot(i)].loc == Free
    requires t.proc.ios[Slot(i)].opcode == TimeoutRemove && t.proc.ios[Slot(i)].callback == OnTimeoutUpdate
    requires Form(ToSqe(Slot(i), t.proc.ios[Slot(i)]))
    requires t.proc.slots == s.proc.slots[i := t.proc.slots[i]] && t.proc.buffers == s.proc.buffers
    requires t.proc.slots[i].buffer == s.proc.slots[i].buffer
    requires t.proc.strs == s.proc.strs && t.proc.fds == s.proc.fds && t.proc.jobs == s.proc.jobs
    ensures Local(w, s, t, i)
  {
    assert SlotData(w, s, i);
    assert t.proc.ios.Keys == s.proc.ios.Keys;
    StrsKept(s.proc, t.proc, i);
    FdsKept(s, t, i);
    JobsKept(s.proc, t.proc, i);
  }

  lemma UpdateKeeps(w: World, s: Sys, t: Sys, head: nat)
    requires Mid(w, s) && s.proc.free != [] && s.proc.seen <= head && Slot(s.proc.free[0]) in s.proc.ios
    requires s.proc.free[0] < |s.proc.slots| && s.proc.free[0] < |GetReq(s.proc).slots|
    requires Slot(s.proc.free[0]) in GetReq(s.proc).ios
    requires var i, p1 := s.proc.free[0], GetReq(s.proc);
             t == CaughtUp(s, Rearm(p1, i, UpdateIo(p1.ios[Slot(i)]), p1.slots[i], head))
    ensures Mid(w, t) && SlotTaken(s, t, s.proc.free[0])
    ensures Settled(s.proc) ==> Settled(t.proc)
  {
    var i := s.proc.free[0];
    HeadFree(s);
    GetReqTook(s);
    var p1 := GetReq(s.proc);
    RearmTook(s, p1, t, i, UpdateIo(p1.ios[Slot(i)]), p1.slots[i], head);
    UpdateOwn(s, head);
    TakenForms(s, 0);
    UpdateTakenLocal(w, s, t, i);
    SlotTakenKeeps(w, s, t, i);
  }
}
