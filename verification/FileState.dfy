/** What each slab slot knows about its file, and who owns every path string, file
    descriptor and job.  A step that touches one slot keeps all of it (`LocalKeeps`). */
module FileState {
  import opened Requests
  import opened Runtime
  import opened HashSystem
  import opened Ownership

  /** Slot i holds a live path string and a live job for that path. */
  ghost predicate OwnsPath(p: Proc, i: nat)
    requires i < |p.slots|
  {
    var q := p.slots[i];
    && q.data.Some? && q.data.value in p.strs
    && p.strs[q.data.value].owner == i
    && q.data2 == |p.strs[q.data.value].path|
    && q.job < |p.jobs|
    && p.jobs[q.job].path == p.strs[q.data.value].path
    && p.jobs[q.job].status == InSlot(i)
  }

  function PathOf(p: Proc, i: nat): Bytes
    requires i < |p.slots| && OwnsPath(p, i)
  {
    p.strs[p.slots[i].data.value].path
  }

  /** The result of a completed, not yet reaped, request. */
  function Result(s: Sys, id: ReqId): int
    requires id in s.proc.ios && s.proc.ios[id].loc.InCq? && s.proc.ios[id].loc.index < |s.posted|
  {
    s.posted[s.proc.ios[id].loc.index].res
  }

  ghost predicate Arrived(s: Sys, id: ReqId)
    requires id in s.proc.ios
  {
    s.proc.ios[id].loc.InCq? && s.proc.ios[id].loc.index < |s.posted|
  }

  ghost predicate Opening(w: World, s: Sys, i: nat)
    requires i < |s.proc.slots| && Slot(i) in s.proc.ios
  {
    var p, io := s.proc, s.proc.ios[Slot(i)];
    && OwnsPath(p, i)
    && io.opcode == OpenAt && io.addr == Str(p.slots[i].data.value)
    && (Arrived(s, Slot(i)) && Result(s, Slot(i)) >= 0 ==>
          && Result(s, Slot(i)) in p.fds
          && p.fds[Result(s, Slot(i))] == OpenFile(PathOf(p, i), i)
          && PathOf(p, i) in w.files)
  }

  /** The bytes a completed read put in the buffer. */
  ghost predicate ReadArrived(content: Bytes, off: nat, res: int, buffer: Bytes) {
    res >= 0 ==>
      && res <= |buffer| && off + res <= |content|
      && (res == 0 ==> off == |content|)
      && buffer[..res] == content[off..off + res]
  }

  /** The hasher has been fed exactly the first `off` bytes of the slot's own file. */
  ghost predicate Reading(w: World, s: Sys, i: nat)
    requires i < |s.proc.slots| && i < |s.proc.buffers| && Slot(i) in s.proc.ios
  {
    var p, io := s.proc, s.proc.ios[Slot(i)];
    && OwnsPath(p, i)
    && io.opcode == ReadOp && io.addr == Buf(i) && io.len == READ_BUF_SIZE
    && io.fd in p.fds && p.fds[io.fd] == OpenFile(PathOf(p, i), i)
    && PathOf(p, i) in w.files
    && var content := w.files[PathOf(p, i)];
       && io.off <= |content| && p.slots[i].hasher == content[..io.off]
       && (Arrived(s, Slot(i)) ==> ReadArrived(content, io.off, Result(s, Slot(i)), p.buffers[i]))
  }

  ghost predicate SlotData(w: World, s: Sys, i: nat)
    requires i < |s.proc.slots| && i < |s.proc.buffers| && Slot(i) in s.proc.ios
  {
    var io := s.proc.ios[Slot(i)];
    && s.proc.slots[i].buffer == i && |s.proc.buffers[i]| == READ_BUF_SIZE
    && (io.loc != Free ==> Form(ToSqe(Slot(i), io)))
    && (io.loc != Free ==>
          || (io.callback == OnFileOpen && Opening(w, s, i))
          || (io.callback == OnFileRead && Reading(w, s, i))
          || (io.callback == OnTimeoutUpdate && io.opcode == TimeoutRemove))
  }

  predicate FilePhase(p: Proc, i: nat)
    requires Slot(i) in p.ios
  {
    var io := p.ios[Slot(i)];
    io.loc != Free && (io.callback == OnFileOpen || io.callback == OnFileRead)
  }

  ghost predicate StrOwned(p: Proc, ptr: nat)
    requires ptr in p.strs
  {
    var i := p.strs[ptr].owner;
    i < |p.slots| && Slot(i) in p.ios && FilePhase(p, i) && p.slots[i].data == Some(ptr)
  }

  /** An open descriptor belongs to the slot reading it, or is the result of that slot's
      completed open. */
  ghost predicate FdOwned(s: Sys, fd: int)
    requires fd in s.proc.fds
  {
    var i := s.proc.fds[fd].owner;
    && fd >= 0 && i < |s.proc.slots| && Slot(i) in s.proc.ios && FilePhase(s.proc, i)
    && var io := s.proc.ios[Slot(i)];
       || (io.callback == OnFileRead && io.fd == fd)
       || (io.callback == OnFileOpen && Arrived(s, Slot(i)) && Result(s, Slot(i)) == fd)
  }

  ghost predicate JobOwned(p: Proc, j: nat)
    requires j < |p.jobs|
  {
    match p.jobs[j].status
    case InSlot(i) =>
      i < |p.slots| && Slot(i) in p.ios && FilePhase(p, i) && p.slots[i].job == j
    case Hashed(e) => e < |p.emitted| && p.emitted[e].job == j
    case _ => true
  }

  ghost predicate SlotsOk(w: World, s: Sys) {
    && HasIds(s.proc) && |s.proc.buffers| == |s.proc.slots|
    && (forall i | 0 <= i < |s.proc.slots| :: SlotData(w, s, i))
  }

  ghost predicate StrsOwned(p: Proc) {
    forall ptr | ptr in p.strs :: StrOwned(p, ptr)
  }

  ghost predicate FdsOwned(s: Sys) {
    forall fd | fd in s.proc.fds :: FdOwned(s, fd)
  }

  ghost predicate JobsOwned(p: Proc) {
    forall j | 0 <= j < |p.jobs| :: JobOwned(p, j)
  }

  ghost predicate Data(w: World, s: Sys) {
    SlotsOk(w, s) && StrsOwned(s.proc) && FdsOwned(s) && JobsOwned(s.proc)
  }

  /** Every printed line is its job's path with the hash of that file's whole content, and
      every verifier call repeats a printed line. */
  ghost predicate Emissions(w: World, p: Proc) {
    && (forall e | 0 <= e < |p.emitted| ::
          && p.emitted[e].job < |p.jobs|
          && p.jobs[p.emitted[e].job].path == p.emitted[e].path
          && p.jobs[p.emitted[e].job].status == Hashed(e)
          && p.emitted[e].path in w.files
          && p.emitted[e].hash == w.hash(w.files[p.emitted[e].path]))
    && |p.sent| <= |p.emitted|
    && (p.status != NoConnection ==> |p.sent| == |p.emitted|)
    && (forall e | 0 <= e < |p.sent| :: p.sent[e] == Sent(p.emitted[e].hash, p.emitted[e].path))
  }

  // ---------------------------------------------------------------------------
  // Steps that touch one slot

  /** Everything slot j has and owns is the same. */
  ghost predicate SameSlot(s: Sys, t: Sys, j: nat)
    requires j < |s.proc.slots| == |s.proc.buffers| && Slot(j) in s.proc.ios
  {
    && j < |t.proc.slots| && j < |t.proc.buffers| && Slot(j) in t.proc.ios
    && t.proc.ios[Slot(j)] == s.proc.ios[Slot(j)]
    && t.proc.slots[j] == s.proc.slots[j]
    && t.proc.buffers[j] == s.proc.buffers[j]
  }

  ghost predicate LocalSlots(w: World, s: Sys, t: Sys, i: nat) {
    && HasIds(s.proc) && |s.proc.buffers| == |s.proc.slots|
    && HasIds(t.proc) && |t.proc.buffers| == |t.proc.slots| == |s.proc.slots|
    && s.posted <= t.posted
    && (forall j | 0 <= j < |s.proc.slots| && j != i :: SameSlot(s, t, j))
    && (i < |t.proc.slots| ==> SlotData(w, t, i))
  }

  ghost predicate LocalStrs(p: Proc, r: Proc, i: nat) {
    && (forall x | x in p.strs && p.strs[x].owner != i :: x in r.strs && r.strs[x] == p.strs[x])
    && (forall x | x in r.strs ::
          if r.strs[x].owner == i then StrOwned(r, x) else x in p.strs && r.strs[x] == p.strs[x])
  }

  ghost predicate LocalFds(s: Sys, t: Sys, i: nat) {
    && (forall x | x in s.proc.fds && s.proc.fds[x].owner != i ::
          x in t.proc.fds && t.proc.fds[x] == s.proc.fds[x])
    && (forall x | x in t.proc.fds ::
          if t.proc.fds[x].owner == i then FdOwned(t, x)
          else x in s.proc.fds && t.proc.fds[x] == s.proc.fds[x])
  }

  ghost predicate LocalJobs(p: Proc, r: Proc, i: nat) {
    && |p.jobs| <= |r.jobs| && p.emitted <= r.emitted
    && (forall x | 0 <= x < |p.jobs| && p.jobs[x].status != InSlot(i) :: r.jobs[x] == p.jobs[x])
    && (forall x | 0 <= x < |r.jobs| && (x >= |p.jobs| || r.jobs[x] != p.jobs[x]) :: JobOwned(r, x))
    && (forall x | 0 <= x < |r.jobs| && r.jobs[x].status == InSlot(i) :: JobOwned(r, x))
  }

  /** From s to t only slot i, and strings, descriptors and jobs of slot i, change. */
  ghost predicate Local(w: World, s: Sys, t: Sys, i: nat) {
    LocalSlots(w, s, t, i) && LocalStrs(s.proc, t.proc, i) && LocalFds(s, t, i) && LocalJobs(s.proc, t.proc, i)
  }

  lemma SlotFrame(w: World, s: Sys, t: Sys, i: nat, j: nat)
    requires Own(s) && SlotsOk(w, s) && JobsOwned(s.proc) && Local(w, s, t, i)
    requires j < |s.proc.slots| && j != i
    ensures SlotData(w, t, j)
  {
    assert SlotData(w, s, j) && SameSlot(s, t, j);
    assert InCqOk(s, Slot(j));
  }

  lemma LocalKeeps(w: World, s: Sys, t: Sys, i: nat)
    requires Own(s) && Data(w, s) && Local(w, s, t, i)
    ensures Data(w, t)
  {
    forall j | 0 <= j < |t.proc.slots| ensures SlotData(w, t, j) {
      if j != i { SlotFrame(w, s, t, i, j); }
    }
    OwnersKept(w, s, t, i);
  }

  lemma OwnersKept(w: World, s: Sys, t: Sys, i: nat)
    requires StrsOwned(s.proc) && FdsOwned(s) && JobsOwned(s.proc) && Local(w, s, t, i)
    ensures StrsOwned(t.proc) && FdsOwned(t) && JobsOwned(t.proc)
  {
    forall x | x in t.proc.strs ensures StrOwned(t.proc, x) {
      if t.proc.strs[x].owner != i {
        assert StrOwned(s.proc, x) && SameSlot(s, t, s.proc.strs[x].owner);
      }
    }
    forall x | x in t.proc.fds ensures FdOwned(t, x) {
      if t.proc.fds[x].owner != i {
        assert FdOwned(s, x) && SameSlot(s, t, s.proc.fds[x].owner);
      }
    }
    forall x | 0 <= x < |t.proc.jobs| ensures JobOwned(t.proc, x) {
      if x < |s.proc.jobs| && t.proc.jobs[x] == s.proc.jobs[x] && s.proc.jobs[x].status != InSlot(i) {
        assert JobOwned(s.proc, x);
        if s.proc.jobs[x].status.InSlot? {
          assert SameSlot(s, t, s.proc.jobs[x].status.slot);
        }
      }
    }
  }

  // How the parts of Local come about

  lemma StrsKept(p: Proc, r: Proc, i: nat)
    requires StrsOwned(p) && r.strs == p.strs && HasIds(p) && HasIds(r) && |r.slots| == |p.slots|
    requires i < |p.slots| && FilePhase(p, i) ==> FilePhase(r, i) && r.slots[i].data == p.slots[i].data
    ensures LocalStrs(p, r, i)
  {
    forall x | x in r.strs && r.strs[x].owner == i ensures StrOwned(r, x) {
      assert StrOwned(p, x);
    }
  }

  lemma StrsDropped(p: Proc, r: Proc, i: nat, ptr: nat)
    requires StrsOwned(p) && r.strs == p.strs - {ptr}
    requires i < |p.slots| && p.slots[i].data == Some(ptr) && (ptr in p.strs ==> p.strs[ptr].owner == i)
    ensures LocalStrs(p, r, i)
  {
    forall x | x in r.strs ensures r.strs[x].owner != i {
      assert StrOwned(p, x);
    }
  }

  lemma StrsAdded(p: Proc, r: Proc, i: nat, ptr: nat)
    requires StrsOwned(p) && ptr !in p.strs && ptr in r.strs && r.strs == p.strs[ptr := r.strs[ptr]]
    requires r.strs[ptr].owner == i && i < |p.slots| && Slot(i) in p.ios && !FilePhase(p, i)
    requires StrOwned(r, ptr)
    ensures LocalStrs(p, r, i)
  {
    forall x | x in p.strs ensures p.strs[x].owner != i {
      assert StrOwned(p, x);
    }
  }

  lemma FdsKept(s: Sys, t: Sys, i: nat)
    requires FdsOwned(s) && t.proc.fds == s.proc.fds
    requires forall x | x in s.proc.fds && s.proc.fds[x].owner == i && FdOwned(s, x) :: FdOwned(t, x)
    ensures LocalFds(s, t, i)
  {
  }

  lemma FdsAdded(s: Sys, t: Sys, i: nat, fd: int)
    requires FdsOwned(s) && fd !in s.proc.fds && fd in t.proc.fds
    requires t.proc.fds == s.proc.fds[fd := t.proc.fds[fd]] && t.proc.fds[fd].owner == i && FdOwned(t, fd)
    requires Slot(i) in s.proc.ios && s.proc.ios[Slot(i)].callback != OnFileRead && !Arrived(s, Slot(i))
    ensures LocalFds(s, t, i)
  {
    forall x | x in s.proc.fds ensures s.proc.fds[x].owner != i {
      assert FdOwned(s, x);
    }
  }

  lemma FdsDropped(s: Sys, t: Sys, i: nat, fd: int)
    requires FdsOwned(s) && t.proc.fds == s.proc.fds - {fd}
    requires Slot(i) in s.proc.ios && s.proc.ios[Slot(i)].callback == OnFileRead
    requires s.proc.ios[Slot(i)].fd == fd && (fd in s.proc.fds ==> s.proc.fds[fd].owner == i)
    ensures LocalFds(s, t, i)
  {
    forall x | x in t.proc.fds ensures t.proc.fds[x].owner != i {
      assert FdOwned(s, x);
    }
  }

  lemma JobsKept(p: Proc, r: Proc, i: nat)
    requires JobsOwned(p) && r.jobs == p.jobs && r.emitted == p.emitted
    requires HasIds(p) && HasIds(r) && |p.slots| == |r.slots|
    requires i < |p.slots| && FilePhase(p, i) ==> FilePhase(r, i) && r.slots[i].job == p.slots[i].job
    ensures LocalJobs(p, r, i)
  {
    forall x | 0 <= x < |r.jobs| && r.jobs[x].status == InSlot(i) ensures JobOwned(r, x) {
      assert JobOwned(p, x);
    }
  }

  /** Slot i's job is over. */
  lemma JobSettled(p: Proc, r: Proc, i: nat, st: JobStatus)
    requires JobsOwned(p) && i < |p.slots| && p.slots[i].job < |p.jobs|
    requires p.jobs[p.slots[i].job].status == InSlot(i)
    requires var j := p.slots[i].job; r.jobs == p.jobs[j := p.jobs[j].(status := st)]
    requires p.emitted <= r.emitted && !st.InSlot?
    requires st.Hashed? ==> st.index < |r.emitted| && r.emitted[st.index].job == p.slots[i].job
    ensures LocalJobs(p, r, i)
  {
    forall x | 0 <= x < |p.jobs| && p.jobs[x].status == InSlot(i) ensures x == p.slots[i].job {
      assert JobOwned(p, x);
    }
  }

  lemma JobAdded(p: Proc, r: Proc, i: nat, job: Job)
    requires JobsOwned(p) && i < |p.slots| && Slot(i) in p.ios && !FilePhase(p, i)
    requires r.jobs == p.jobs + [job] && r.emitted == p.emitted && job.status == InSlot(i)
    requires i < |r.slots| && Slot(i) in r.ios && FilePhase(r, i) && r.slots[i].job == |p.jobs|
    ensures LocalJobs(p, r, i)
  {
    forall x | 0 <= x < |p.jobs| ensures p.jobs[x].status != InSlot(i) {
      assert JobOwned(p, x);
    }
  }
}
