/** The whole invariant, and that kernel steps keep it. */
module KernelSteps {
  import opened Requests
  import opened Runtime
  import opened HashSystem
  import opened Ownership
  import opened FileState

  /** The four embedded objects: the connection is made by `Conn` alone; only then are
      `Recv` and `Timer` used, the latter submitted once. */
  ghost predicate Singles(p: Proc)
    requires HasIds(p)
  {
    var poll, conn, recv, timer := p.ios[Poll], p.ios[Conn], p.ios[Recv], p.ios[Timer];
    && poll.callback == OnQueueEvent && poll.opcode == PollAdd && !poll.loc.Parked? && !poll.loc.Free?
    && (conn.opcode == SocketOp || conn.opcode == ConnectOp) && !conn.loc.Free?
    && (conn.callback == OnSocketCreate || conn.callback == OnSocketConnect)
    && (recv.opcode == Nop || recv.opcode == ReadOp) && !recv.loc.Free?
    && (timer.opcode == Nop || timer.opcode == TimeoutOp) && !timer.loc.Free?
    && (p.connected ==> conn.loc.Parked? && recv.callback == OnSocketRead)
    && (!p.connected ==> recv.loc.Parked? && timer.opcode == Nop)
    && (timer.opcode == TimeoutOp ==> timer.callback == OnTimeout)
    && (timer.opcode == Nop ==> timer.loc.Parked?)
    && Form(ToSqe(Poll, poll)) && Form(ToSqe(Conn, conn))
    && (conn.opcode == SocketOp <==> conn.callback == OnSocketCreate)
    && (p.connected ==> Form(ToSqe(Recv, recv)) && conn.opcode == ConnectOp && recv.fd == conn.fd)
    && (timer.opcode == TimeoutOp ==> Form(ToSqe(Timer, timer)))
  }

  /** Between callbacks nothing is in hand, and every slot is free, submitted, completed or lost. */
  ghost predicate Settled(p: Proc) {
    forall id | id in p.ios ::
      !p.ios[id].loc.Held? && (id.Slot? ==> !p.ios[id].loc.Parked?)
  }

  ghost predicate Full(w: World, s: Sys) {
    Own(s) && Data(w, s) && Singles(s.proc) && Settled(s.proc)
  }

  ghost predicate Inv(w: World, s: Sys) {
    && s.proc.status != Faulted
    && Emissions(w, s.proc)
    && (s.proc.status == Running ==> Full(w, s))
  }

  lemma ConsumeKeeps(w: World, s: Sys, upto: nat)
    requires Full(w, s) && s.consumed <= upto <= |s.proc.subs|
    ensures Full(w, Take(s, upto))
  {
    TakeKeeps(s, upto);
    var none := |s.proc.slots|;
    StrsKept(s.proc, s.proc, none);
    FdsKept(s, Take(s, upto), none);
    JobsKept(s.proc, s.proc, none);
    LocalKeeps(w, s, Take(s, upto), none);
  }

  /** An active SQE is still what its object says. */
  lemma ActiveSqe(s: Sys, pos: nat)
    requires Own(s) && pos < s.consumed && pos !in s.done
    ensures var sqe := s.proc.subs[pos];
            && sqe.id in s.proc.ios && s.proc.ios[sqe.id].loc == Pending(pos)
            && sqe == ToSqe(sqe.id, s.proc.ios[sqe.id])
            && (sqe.id.Slot? ==> sqe.id.index < |s.proc.slots|)
  {
    assert SqeOk(s, pos);
    assert PendingOk(s, s.proc.subs[pos].id);
  }

  /** Only embedded objects, rings and the status differ. */
  ghost predicate SameFiles(p: Proc, r: Proc) {
    && HasIds(p) && HasIds(r) && r.slots == p.slots && r.buffers == p.buffers && r.strs == p.strs
    && r.fds == p.fds && r.jobs == p.jobs && r.emitted == p.emitted
    && (forall j | 0 <= j < |p.slots| :: r.ios[Slot(j)] == p.ios[Slot(j)])
  }

  /** Embedded objects concern no slot. */
  lemma SingleLocal(w: World, s: Sys, t: Sys)
    requires Data(w, s) && SameFiles(s.proc, t.proc) && s.posted <= t.posted
    ensures Local(w, s, t, |s.proc.slots|)
  {
    var none := |s.proc.slots|;
    StrsKept(s.proc, t.proc, none);
    FdsKept(s, t, none);
    JobsKept(s.proc, t.proc, none);
  }

  lemma OpenLocal(w: World, s: Sys, p: Proc, i: nat, pos: nat, res: int)
    requires Data(w, s) && i < |s.proc.slots| && s.proc.ios[Slot(i)].loc == Pending(pos)
    requires s.proc.ios[Slot(i)].callback == OnFileOpen && Opening(w, s, i)
    requires res < 0 ==> p == s.proc
    requires res >= 0 ==>
               && res !in s.proc.fds && PathOf(s.proc, i) in w.files
               && p == s.proc.(fds := s.proc.fds[res := OpenFile(PathOf(s.proc, i), i)])
    ensures Local(w, s, Finish(s, p, Slot(i), pos, res), i)
  {
    OpenData(w, s, p, i, pos, res);
    if res < 0 {
      OpenErrorLocal(w, s, i, pos, res);
    } else {
      OpenFdLocal(w, s, p, i, pos, res);
    }
  }

  lemma OpenErrorLocal(w: World, s: Sys, i: nat, pos: nat, res: int)
    requires Data(w, s) && i < |s.proc.slots| && s.proc.ios[Slot(i)].loc == Pending(pos)
    requires s.proc.ios[Slot(i)].callback == OnFileOpen && res < 0
    requires SlotData(w, s, i) && SlotData(w, Finish(s, s.proc, Slot(i), pos, res), i)
    ensures Local(w, s, Finish(s, s.proc, Slot(i), pos, res), i)
  {
    var t := Finish(s, s.proc, Slot(i), pos, res);
    assert t.proc.ios.Keys == s.proc.ios.Keys;
    StrsKept(s.proc, t.proc, i);
    JobsKept(s.proc, t.proc, i);
    FdsKept(s, t, i);
  }

  lemma OpenFdLocal(w: World, s: Sys, p: Proc, i: nat, pos: nat, res: nat)
    requires Data(w, s) && i < |s.proc.slots| && s.proc.ios[Slot(i)].loc == Pending(pos)
    requires s.proc.ios[Slot(i)].callback == OnFileOpen && Opening(w, s, i)
    requires res !in s.proc.fds && p == s.proc.(fds := s.proc.fds[res := OpenFile(PathOf(s.proc, i), i)])
    requires SlotData(w, s, i) && SlotData(w, Finish(s, p, Slot(i), pos, res), i)
    ensures Local(w, s, Finish(s, p, Slot(i), pos, res), i)
  {
    var t := Finish(s, p, Slot(i), pos, res);
    assert t.proc.ios.Keys == s.proc.ios.Keys;
    StrsKept(s.proc, t.proc, i);
    JobsKept(s.proc, t.proc, i);
    FdsAdded(s, t, i, res);
  }

  lemma OpenData(w: World, s: Sys, p: Proc, i: nat, pos: nat, res: int)
    requires Data(w, s) && i < |s.proc.slots| && s.proc.ios[Slot(i)].loc == Pending(pos)
    requires s.proc.ios[Slot(i)].callback == OnFileOpen && Opening(w, s, i)
    requires res < 0 ==> p == s.proc
    requires res >= 0 ==>
               && res !in s.proc.fds && PathOf(s.proc, i) in w.files
               && p == s.proc.(fds := s.proc.fds[res := OpenFile(PathOf(s.proc, i), i)])
    ensures SlotData(w, s, i) && SlotData(w, Finish(s, p, Slot(i), pos, res), i)
  {
  }

  lemma ReadLocal(w: World, s: Sys, p: Proc, i: nat, pos: nat, res: int)
    requires Data(w, s) && i < |s.proc.slots| && s.proc.ios[Slot(i)].loc == Pending(pos)
    requires s.proc.ios[Slot(i)].callback == OnFileRead && Reading(w, s, i)
    requires p == s.proc.(buffers := p.buffers) && i < |p.buffers| && |p.buffers[i]| == READ_BUF_SIZE
    requires p.buffers == s.proc.buffers[i := p.buffers[i]]
    requires ReadArrived(w.files[PathOf(s.proc, i)], s.proc.ios[Slot(i)].off, res, p.buffers[i])
    ensures Local(w, s, Finish(s, p, Slot(i), pos, res), i)
  {
    var t := Finish(s, p, Slot(i), pos, res);
    assert t.proc.ios.Keys == s.proc.ios.Keys;
    assert SlotData(w, s, i) && SlotData(w, t, i);
    StrsKept(s.proc, t.proc, i);
    JobsKept(s.proc, t.proc, i);
    forall x | x in s.proc.fds && s.proc.fds[x].owner == i ensures FdOwned(t, x) {
      assert FdOwned(s, x);
    }
    FdsKept(s, t, i);
  }

  lemma UpdateLocal(w: World, s: Sys, i: nat, pos: nat, res: int)
    requires Data(w, s) && i < |s.proc.slots| && s.proc.ios[Slot(i)].loc == Pending(pos)
    requires s.proc.ios[Slot(i)].callback == OnTimeoutUpdate
    ensures Local(w, s, Finish(s, s.proc, Slot(i), pos, res), i)
  {
    var t := Finish(s, s.proc, Slot(i), pos, res);
    assert t.proc.ios.Keys == s.proc.ios.Keys;
    assert SlotData(w, s, i) && SlotData(w, t, i);
    StrsKept(s.proc, t.proc, i);
    JobsKept(s.proc, t.proc, i);
    FdsKept(s, t, i);
  }

  /** What performing a file SQE does to memory. */
  lemma PerformOpen(w: World, s: Sys, i: nat, pos: nat, res: int)
    requires Data(w, s) && i < |s.proc.slots| && CanComplete(w, s, pos, res, false)
    requires s.proc.subs[pos] == ToSqe(Slot(i), s.proc.ios[Slot(i)])
    requires Opening(w, s, i) && Form(s.proc.subs[pos])
    ensures var p := Perform(w, s.proc, s.proc.subs[pos], res);
            && (res < 0 ==> p == s.proc)
            && (res >= 0 ==>
                  && res !in s.proc.fds && PathOf(s.proc, i) in w.files
                  && p == s.proc.(fds := s.proc.fds[res := OpenFile(PathOf(s.proc, i), i)]))
  {
  }

  lemma PerformRead(w: World, s: Sys, i: nat, pos: nat, res: int)
    requires Data(w, s) && i < |s.proc.slots| && CanComplete(w, s, pos, res, false)
    requires s.proc.subs[pos] == ToSqe(Slot(i), s.proc.ios[Slot(i)])
    requires Reading(w, s, i)
    ensures var p := Perform(w, s.proc, s.proc.subs[pos], res);
            && p == s.proc.(buffers := p.buffers) && i < |p.buffers| && |p.buffers[i]| == READ_BUF_SIZE
            && p.buffers == s.proc.buffers[i := p.buffers[i]]
            && ReadArrived(w.files[PathOf(s.proc, i)], s.proc.ios[Slot(i)].off, res, p.buffers[i])
  {
    assert SlotData(w, s, i);
    var p := Perform(w, s.proc, s.proc.subs[pos], res);
    if res > 0 {
      var content, off := w.files[PathOf(s.proc, i)], s.proc.ios[Slot(i)].off;
      assert p.buffers[i] == content[off..off + res] + s.proc.buffers[i][res..];
      assert p.buffers[i][..res] == content[off..off + res];
    }
  }

  lemma CompleteLocal(w: World, s: Sys, pos: nat, res: int, more: bool) returns (i: nat)
    requires Full(w, s) && CanComplete(w, s, pos, res, more)
    ensures s.proc.subs[pos].id in s.proc.ios
    ensures more ==> s.proc.subs[pos].id == Poll
    ensures Local(w, s, Post(w, s, pos, res, more), i)
    ensures Post(w, s, pos, res, more).proc.status == s.proc.status
  {
    ActiveSqe(s, pos);
    var id := s.proc.subs[pos].id;
    if !id.Slot? {
      i := |s.proc.slots|;
      assert Perform(w, s.proc, s.proc.subs[pos], res) == s.proc;
      var t := Post(w, s, pos, res, more);
      assert t.proc.ios.Keys == s.proc.ios.Keys;
      SingleLocal(w, s, t);
    } else {
      i := id.index;
      SlotComplete(w, s, pos, res, more, i);
    }
  }

  lemma SlotComplete(w: World, s: Sys, pos: nat, res: int, more: bool, i: nat)
    requires Data(w, s) && CanComplete(w, s, pos, res, more)
    requires i < |s.proc.slots| && s.proc.subs[pos] == ToSqe(Slot(i), s.proc.ios[Slot(i)])
    requires s.proc.ios[Slot(i)].loc == Pending(pos)
    ensures !more
    ensures Local(w, s, Post(w, s, pos, res, more), i)
    ensures Post(w, s, pos, res, more).proc.status == s.proc.status
  {
    assert SlotData(w, s, i);
    var cb := s.proc.ios[Slot(i)].callback;
    var p := Perform(w, s.proc, s.proc.subs[pos], res);
    if cb == OnFileOpen {
      PerformOpen(w, s, i, pos, res);
      OpenLocal(w, s, p, i, pos, res);
    } else if cb == OnFileRead {
      PerformRead(w, s, i, pos, res);
      ReadLocal(w, s, p, i, pos, res);
    } else {
      UpdateLocal(w, s, i, pos, res);
    }
  }

  lemma CompleteKeeps(w: World, s: Sys, pos: nat, res: int, more: bool)
    requires Inv(w, s) && s.proc.status == Running && CanComplete(w, s, pos, res, more)
    ensures s.proc.subs[pos].id in s.proc.ios
    ensures Inv(w, Post(w, s, pos, res, more))
  {
    var i := CompleteLocal(w, s, pos, res, more);
    PostKeeps(w, s, pos, res, more);
    LocalKeeps(w, s, Post(w, s, pos, res, more), i);
    ActiveSqe(s, pos);
    PostFrame(w, s, pos, res, more);
  }

  lemma PostFrame(w: World, s: Sys, pos: nat, res: int, more: bool)
    requires pos < |s.proc.subs| && s.proc.subs[pos].id in s.proc.ios
    requires HasIds(s.proc) && Singles(s.proc) && Settled(s.proc) && Emissions(w, s.proc)
    requires s.proc.ios[s.proc.subs[pos].id].loc == Pending(pos)
    requires Post(w, s, pos, res, more).proc.status == s.proc.status
    ensures var p := Post(w, s, pos, res, more).proc;
            HasIds(p) && Singles(p) && Settled(p) && Emissions(w, p)
  {
    PerformFrame(w, s.proc, s.proc.subs[pos], res);
    var p := Perform(w, s.proc, s.proc.subs[pos], res);
    EmissionsFrame(w, s.proc, p);
    if !more {
      MarkKeeps(p, s.proc.subs[pos].id, InCq(pos, |s.posted|));
      EmissionsFrame(w, p, Post(w, s, pos, res, more).proc);
    }
  }

  lemma EmissionsFrame(w: World, p: Proc, r: Proc)
    requires Emissions(w, p) && r.jobs == p.jobs && r.emitted == p.emitted && r.sent == p.sent
    requires r.status == p.status
    ensures Emissions(w, r)
  {
  }

  /** A submitted object moves on to another ring. */
  lemma MarkKeeps(p: Proc, id: ReqId, loc: Loc)
    requires HasIds(p) && Singles(p) && Settled(p) && id in p.ios && p.ios[id].loc.Pending?
    requires loc.InCq?
    ensures var r := SetIo(p, id, p.ios[id].(loc := loc)); HasIds(r) && Singles(r) && Settled(r)
  {
    assert SetIo(p, id, p.ios[id].(loc := loc)).ios.Keys == p.ios.Keys;
  }
}
