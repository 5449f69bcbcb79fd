/** The callbacks of a slab slot keep the invariant: on_file_open, on_file_read and
    on_socket_timeout_update. */
module FileSteps {
  import opened Requests
  import opened Runtime
  import opened HashSystem
  import opened Ownership
  import opened FileState
  import opened KernelSteps

  ghost predicate Next(s: Sys, id: ReqId) {
    s.reaped < |s.posted| && s.posted[s.reaped].id == id && id in s.proc.ios
  }

  /** Only slot i's object moved, to a place between callbacks. */
  lemma SlotMoved(p: Proc, r: Proc, i: nat)
    requires HasIds(p) && Singles(p) && Settled(p) && Slot(i) in p.ios && Slot(i) in r.ios
    requires r.ios == p.ios[Slot(i) := r.ios[Slot(i)]] && r.connected == p.connected && |r.slots| == |p.slots|
    requires !r.ios[Slot(i)].loc.Held? && !r.ios[Slot(i)].loc.Parked?
    ensures HasIds(r) && Singles(r) && Settled(r)
  {
    assert r.ios.Keys == p.ios.Keys;
  }

  lemma RearmKeeps(s: Sys, i: nat, io: Io, q: Preq, head: nat)
    requires Own(s) && i < |s.proc.slots| && AtHand(s.proc, Slot(i)) && io.loc == Held
    requires q.inFlight == s.proc.slots[i].inFlight && s.proc.seen <= head
    ensures Own(CaughtUp(s, Rearm(s.proc, i, io, q, head)))
  {
    EditKeeps(s, Slot(i), io);
    var u := s.(proc := SetIo(s.proc, Slot(i), io));
    var p := u.proc.(slots := u.proc.slots[i := q]);
    FrameKeeps(u, p);
    SubmitKeeps(u.(proc := p), Slot(i), head);
  }

  /** The memory a slot's callback starts from: s with slot i's object in hand. */
  ghost predicate Handed(s: Sys, p: Proc, i: nat) {
    && i < |s.proc.slots| && Slot(i) in s.proc.ios
    && p == s.proc.(ios := p.ios, seen := p.seen)
    && p.ios == s.proc.ios[Slot(i) := s.proc.ios[Slot(i)].(loc := Held)]
    && p.seen <= |p.subs|
  }

  lemma ReapHands(s: Sys, i: nat)
    requires Own(s) && Next(s, Slot(i)) && i < |s.proc.slots|
    ensures Slot(i) in s.proc.ios && !s.posted[s.reaped].more && Handed(s, Reap(s).proc, i)
    ensures s.proc.ios[Slot(i)].loc == InCq(s.posted[s.reaped].pos, s.reaped)
  {
    assert CqeOk(s, s.reaped);
  }

  /** Slot i is rewritten and resubmitted, keeping its string, job and descriptor. */
  lemma RearmLocal(w: World, s: Sys, p: Proc, t: Sys, i: nat, io: Io, q: Preq, head: nat)
    requires Data(w, s) && Handed(s, p, i) && FilePhase(s.proc, i) && p.seen <= head
    requires t.proc == Rearm(p, i, io, q, head) && t.posted == s.posted
    requires io.callback == OnFileRead && q.data == s.proc.slots[i].data && q.job == s.proc.slots[i].job
    requires SlotData(w, t, i)
    requires forall x | x in s.proc.fds && s.proc.fds[x].owner == i && FdOwned(s, x) :: x == io.fd
    ensures Local(w, s, t, i)
  {
    SubmitFrame(p.(ios := p.ios[Slot(i) := io], slots := p.slots[i := q]), Slot(i), head);
    assert t.proc.ios.Keys == s.proc.ios.Keys;
    StrsKept(s.proc, t.proc, i);
    JobsKept(s.proc, t.proc, i);
    forall x | x in s.proc.fds && s.proc.fds[x].owner == i && FdOwned(s, x) ensures FdOwned(t, x) {
    }
    FdsKept(s, t, i);
  }

  // ---------------------------------------------------------------------------
  // on_file_read: more data

  /** The hasher stays in step with the file offset. */
  lemma FedStillReading(w: World, s: Sys, t: Sys, i: nat, res: nat)
    requires i < |s.proc.slots| && i < |s.proc.buffers| && Slot(i) in s.proc.ios && Reading(w, s, i)
    requires Arrived(s, Slot(i)) && Result(s, Slot(i)) == res
    requires t.proc.strs == s.proc.strs && t.proc.fds == s.proc.fds && t.proc.jobs == s.proc.jobs
    requires t.proc.buffers == s.proc.buffers && |t.proc.slots| == |s.proc.slots| && Slot(i) in t.proc.ios
    requires t.proc.slots[i] == FedSlot(s.proc.slots[i], s.proc.buffers[i][..res])
    requires t.proc.ios[Slot(i)] == FedIo(s.proc.ios[Slot(i)], res).(loc := t.proc.ios[Slot(i)].loc)
    requires !t.proc.ios[Slot(i)].loc.InCq?
    ensures Reading(w, t, i)
  {
    var content, off := w.files[PathOf(s.proc, i)], s.proc.ios[Slot(i)].off;
    assert content[..off] + content[off..off + res] == content[..off + res];
  }

  lemma ReadMoreLocal(w: World, s: Sys, p: Proc, t: Sys, i: nat, res: nat, head: nat)
    requires Data(w, s) && Handed(s, p, i) && p.seen <= head
    requires s.proc.ios[Slot(i)].loc != Free && s.proc.ios[Slot(i)].callback == OnFileRead
    requires Arrived(s, Slot(i)) && Result(s, Slot(i)) == res
    requires i < |p.buffers| && res <= |p.buffers[i]|
    requires t.proc == Rearm(p, i, FedIo(p.ios[Slot(i)], res), FedSlot(p.slots[i], p.buffers[i][..res]), head)
    requires t.posted == s.posted
    ensures Local(w, s, t, i)
  {
    assert SlotData(w, s, i);
    var io, q := FedIo(p.ios[Slot(i)], res), FedSlot(p.slots[i], p.buffers[i][..res]);
    SubmitFrame(p.(ios := p.ios[Slot(i) := io], slots := p.slots[i := q]), Slot(i), head);
    FedStillReading(w, s, t, i, res);
    RearmLocal(w, s, p, t, i, io, q, head);
  }

  /** What a resubmitting callback leaves alone. */
  lemma RearmRest(s: Sys, p: Proc, t: Sys, i: nat, io: Io, q: Preq, head: nat)
    requires Handed(s, p, i) && p.seen <= head && t.proc == Rearm(p, i, io, q, head)
    ensures t.proc.status == s.proc.status && Slot(i) in t.proc.ios
    ensures t.proc.ios == s.proc.ios[Slot(i) := t.proc.ios[Slot(i)]]
    ensures !t.proc.ios[Slot(i)].loc.Held? && !t.proc.ios[Slot(i)].loc.Parked?
    ensures t.proc.jobs == s.proc.jobs && t.proc.emitted == s.proc.emitted
    ensures t.proc.sent == s.proc.sent && t.proc.connected == s.proc.connected
    ensures |t.proc.slots| == |s.proc.slots|
  {
    SubmitFrame(p.(ios := p.ios[Slot(i) := io], slots := p.slots[i := q]), Slot(i), head);
  }

  /** Only slot i is concerned and it is at rest again. */
  ghost predicate SlotStep(w: World, s: Sys, t: Sys, i: nat) {
    && Own(t) && Local(w, s, t, i)
    && t.proc.connected == s.proc.connected && |t.proc.slots| == |s.proc.slots|
    && Slot(i) in s.proc.ios && Slot(i) in t.proc.ios
    && t.proc.ios == s.proc.ios[Slot(i) := t.proc.ios[Slot(i)]]
    && !t.proc.ios[Slot(i)].loc.Held? && !t.proc.ios[Slot(i)].loc.Parked?
  }

  lemma SlotStepKeeps(w: World, s: Sys, t: Sys, i: nat)
    requires Full(w, s) && SlotStep(w, s, t, i)
    ensures Full(w, t)
  {
    LocalKeeps(w, s, t, i);
    SlotMoved(s.proc, t.proc, i);
  }

  lemma ReadMoreStep(w: World, s: Sys, t: Sys, i: nat, head: nat)
    requires Full(w, s) && Next(s, Slot(i)) && Reap(s).proc.seen <= head
    requires i < |s.proc.slots| && s.proc.ios[Slot(i)].callback == OnFileRead && s.posted[s.reaped].res > 0
    requires s.posted[s.reaped].res <= |s.proc.buffers[i]|
    requires var p, res := Reap(s).proc, s.posted[s.reaped].res;
             t == CaughtUp(Reap(s), Rearm(p, i, FedIo(p.ios[Slot(i)], res),
                                          FedSlot(p.slots[i], p.buffers[i][..res]), head))
    ensures SlotStep(w, s, t, i)
  {
    ReapHands(s, i);
    ReapKeeps(s);
    var p, res := Reap(s).proc, s.posted[s.reaped].res;
    var io, q := FedIo(p.ios[Slot(i)], res), FedSlot(p.slots[i], p.buffers[i][..res]);
    RearmKeeps(Reap(s), i, io, q, head);
    RearmRest(s, p, t, i, io, q, head);
    ReadMoreLocal(w, s, p, t, i, res, head);
  }

  // ---------------------------------------------------------------------------
  // on_file_read: the slot is given up

  lemma RetiredKeeps(s: Sys, i: nat, ptr: nat, fd: int)
    requires Own(s) && i < |s.proc.slots| && AtHand(s.proc, Slot(i))
    ensures Own(s.(proc := Retired(s.proc, i, ptr, fd)))
  {
    var p, q := s.proc, s.proc.slots[i];
    var p1 := p.(strs := p.strs - {ptr}, fds := p.fds - {fd}, slots := p.slots[i := q.(data := None, data2 := 0)]);
    FrameKeeps(s, p1);
    FreeReqKeeps(s.(proc := p1), i);
    assert FreeReq(p1, i).slots == Retired(p, i, ptr, fd).slots;
    assert FreeReq(p1, i) == Retired(p, i, ptr, fd);
  }

  /** The slot's string and descriptor go, its job is settled, nothing else is touched. */
  lemma RetiredLocal(w: World, s: Sys, p: Proc, t: Sys, i: nat, ptr: nat, st: JobStatus)
    requires Data(w, s) && Handed(s, p, i) && i < |s.proc.buffers| && Reading(w, s, i)
    requires s.proc.ios[Slot(i)].loc != Free && s.proc.ios[Slot(i)].callback == OnFileRead
    requires s.proc.slots[i].data == Some(ptr) && !st.InSlot?
    requires t.proc == Retired(p.(jobs := t.proc.jobs, emitted := t.proc.emitted, sent := t.proc.sent),
                               i, ptr, s.proc.ios[Slot(i)].fd)
    requires var j := s.proc.slots[i].job; t.proc.jobs == s.proc.jobs[j := s.proc.jobs[j].(status := st)]
    requires s.proc.emitted <= t.proc.emitted && t.posted == s.posted
    requires st.Hashed? ==> st.index < |t.proc.emitted| && t.proc.emitted[st.index].job == s.proc.slots[i].job
    ensures Local(w, s, t, i)
  {
    assert SlotData(w, s, i);
    assert t.proc.ios.Keys == s.proc.ios.Keys;
    StrsDropped(s.proc, t.proc, i, ptr);
    FdsDropped(s, t, i, s.proc.ios[Slot(i)].fd);
    JobSettled(s.proc, t.proc, i, st);
  }

  ghost predicate ReadDelivered(w: World, s: Sys, i: nat) {
    && Full(w, s) && Next(s, Slot(i)) && i < |s.proc.slots|
    && s.proc.ios[Slot(i)].callback == OnFileRead
  }

  /** What is known of a read whose completion is next. */
  lemma ReadFacts(w: World, s: Sys, i: nat)
    requires ReadDelivered(w, s, i)
    ensures Handed(s, Reap(s).proc, i) && Own(Reap(s)) && AtHand(Reap(s).proc, Slot(i))
    ensures i < |s.proc.buffers| && Reading(w, s, i) && s.proc.ios[Slot(i)].loc != Free
    ensures |s.proc.buffers[i]| == READ_BUF_SIZE && Reap(s).posted == s.posted
    ensures var io := s.proc.ios[Slot(i)];
            ReadArrived(w.files[PathOf(s.proc, i)], io.off, s.posted[s.reaped].res, s.proc.buffers[i])
  {
    ReapHands(s, i);
    ReapKeeps(s);
    assert SlotData(w, s, i);
  }

  lemma ReadGone(w: World, s: Sys, t: Sys, i: nat, st: JobStatus)
    requires ReadDelivered(w, s, i) && OwnsPath(s.proc, i) && !st.InSlot?
    requires var p, q := Reap(s).proc, s.proc.slots[i];
             && t == Reap(s).(proc := t.proc)
             && t.proc == Retired(p.(jobs := t.proc.jobs, emitted := t.proc.emitted, sent := t.proc.sent),
                                  i, q.data.value, s.proc.ios[Slot(i)].fd)
             && t.proc.jobs == s.proc.jobs[q.job := s.proc.jobs[q.job].(status := st)]
    requires s.proc.emitted <= t.proc.emitted
    requires st.Hashed? ==> st.index < |t.proc.emitted| && t.proc.emitted[st.index].job == s.proc.slots[i].job
    ensures SlotStep(w, s, t, i)
  {
    ReadFacts(w, s, i);
    var p, ptr, fd := Reap(s).proc, s.proc.slots[i].data.value, s.proc.ios[Slot(i)].fd;
    RetiredOwn(Reap(s), t, i, ptr, fd);
    RetiredLocal(w, s, p, t, i, ptr, st);
    RetiredRest(s, p, t, i, ptr, fd);
  }

  lemma GoneKeeps(w: World, s: Sys, t: Sys, i: nat, st: JobStatus)
    requires ReadDelivered(w, s, i) && OwnsPath(s.proc, i) && !st.InSlot?
    requires var p, q := Reap(s).proc, s.proc.slots[i];
             && t == Reap(s).(proc := t.proc)
             && t.proc == Retired(p.(jobs := t.proc.jobs, emitted := t.proc.emitted, sent := t.proc.sent),
                                  i, q.data.value, s.proc.ios[Slot(i)].fd)
             && t.proc.jobs == s.proc.jobs[q.job := s.proc.jobs[q.job].(status := st)]
    requires s.proc.emitted <= t.proc.emitted
    requires st.Hashed? ==> st.index < |t.proc.emitted| && t.proc.emitted[st.index].job == s.proc.slots[i].job
    ensures Full(w, t)
  {
    ReadGone(w, s, t, i, st);
    SlotStepKeeps(w, s, t, i);
  }

  lemma RetiredOwn(r: Sys, t: Sys, i: nat, ptr: nat, fd: int)
    requires Own(r) && i < |r.proc.slots| && AtHand(r.proc, Slot(i)) && t == r.(proc := t.proc)
    requires t.proc == Retired(r.proc.(jobs := t.proc.jobs, emitted := t.proc.emitted, sent := t.proc.sent),
                               i, ptr, fd)
    ensures Own(t)
  {
    var p1 := r.proc.(jobs := t.proc.jobs, emitted := t.proc.emitted, sent := t.proc.sent);
    FrameKeeps(r, p1);
    RetiredKeeps(r.(proc := p1), i, ptr, fd);
  }

  lemma RetiredRest(s: Sys, p: Proc, t: Sys, i: nat, ptr: nat, fd: int)
    requires Handed(s, p, i)
    requires t.proc == Retired(p.(jobs := t.proc.jobs, emitted := t.proc.emitted, sent := t.proc.sent),
                               i, ptr, fd)
    ensures t.proc.connected == s.proc.connected && |t.proc.slots| == |s.proc.slots|
    ensures Slot(i) in t.proc.ios && t.proc.ios == s.proc.ios[Slot(i) := t.proc.ios[Slot(i)]]
    ensures t.proc.ios[Slot(i)].loc == Free
  {
  }

  lemma ReadFailStep(w: World, s: Sys, t: Sys, i: nat, head: nat)
    requires ReadDelivered(w, s, i) && s.posted[s.reaped].res < 0 && s.proc.status == Running
    requires Emissions(w, s.proc)
    requires t == CaughtUp(Reap(s), OnRead(w, Reap(s).proc, i, s.posted[s.reaped].res, head))
    ensures Inv(w, t)
  {
    ReadFacts(w, s, i);
    var p, q := Reap(s).proc, s.proc.slots[i];
    ReadFailForm(w, p, i, q.data.value, s.posted[s.reaped].res, head);
    GoneKeeps(w, s, t, i, ReadFailed);
    SettleEmissions(w, s.proc, t.proc, q.job, ReadFailed);
  }

  /** Settling a job that was in a slot does not disturb earlier lines. */
  lemma SettleEmissions(w: World, p: Proc, r: Proc, j: nat, st: JobStatus)
    requires Emissions(w, p) && j < |p.jobs| && p.jobs[j].status.InSlot?
    requires r.jobs == p.jobs[j := p.jobs[j].(status := st)]
    requires r.emitted == p.emitted && r.sent == p.sent && r.status == p.status
    ensures Emissions(w, r)
  {
  }

  /** At end of file the line printed is the slot's own path with the hash of the whole file. */
  lemma NewEmission(w: World, p: Proc, r: Proc, j: nat, path: Bytes, hash: Bytes)
    requires Emissions(w, p) && j < |p.jobs| && p.jobs[j].status.InSlot? && p.jobs[j].path == path
    requires path in w.files && hash == w.hash(w.files[path]) && p.status == Running
    requires r.jobs == p.jobs[j := p.jobs[j].(status := Hashed(|p.emitted|))]
    requires r.emitted == p.emitted + [Emission(j, path, hash)]
    requires (r.status == Running && r.sent == p.sent + [Sent(hash, path)])
             || (r.status == NoConnection && r.sent == p.sent)
    ensures Emissions(w, r)
  {
  }

  lemma EofStep(w: World, s: Sys, t: Sys, i: nat, head: nat)
    requires ReadDelivered(w, s, i) && s.posted[s.reaped].res == 0 && s.proc.status == Running
    requires Emissions(w, s.proc)
    requires t == CaughtUp(Reap(s), OnRead(w, Reap(s).proc, i, 0, head))
    ensures Inv(w, t)
  {
    ReadFacts(w, s, i);
    var p, q := Reap(s).proc, s.proc.slots[i];
    var path := PathOf(s.proc, i);
    assert q.hasher == w.files[path];
    assert path[..q.data2] == path;
    if p.connected {
      EofForm(w, p, i, q.data.value, head);
      GoneKeeps(w, s, t, i, Hashed(|s.proc.emitted|));
    } else {
      NoConnectionForm(w, p, i, q.data.value, head);
    }
    NewEmission(w, s.proc, t.proc, q.job, path, w.hash(q.hasher));
  }

  lemma ReadStep(w: World, s: Sys, t: Sys, i: nat, head: nat)
    requires ReadDelivered(w, s, i) && s.proc.status == Running && Emissions(w, s.proc)
    requires Reap(s).proc.seen <= head
    requires t == CaughtUp(Reap(s), OnRead(w, Reap(s).proc, i, s.posted[s.reaped].res, head))
    ensures Inv(w, t)
  {
    var res := s.posted[s.reaped].res;
    if res < 0 {
      ReadFailStep(w, s, t, i, head);
    } else if res == 0 {
      EofStep(w, s, t, i, head);
    } else {
      ReadFacts(w, s, i);
      var p := Reap(s).proc;
      ReadMoreForm(w, p, i, res, head);
      ReadMoreStep(w, s, t, i, head);
      SlotStepKeeps(w, s, t, i);
      RearmRest(s, p, t, i, FedIo(p.ios[Slot(i)], res), FedSlot(p.slots[i], p.buffers[i][..res]), head);
      EmissionsFrame(w, s.proc, t.proc);
    }
  }

  // ---------------------------------------------------------------------------
  // on_file_open

  ghost predicate OpenDelivered(w: World, s: Sys, i: nat) {
    && Full(w, s) && Next(s, Slot(i)) && i < |s.proc.slots|
    && s.proc.ios[Slot(i)].callback == OnFileOpen
  }

  lemma OpenFacts(w: World, s: Sys, i: nat)
    requires OpenDelivered(w, s, i)
    ensures Handed(s, Reap(s).proc, i) && Own(Reap(s)) && AtHand(Reap(s).proc, Slot(i))
    ensures i < |s.proc.buffers| && SlotData(w, s, i) && Opening(w, s, i)
    ensures s.proc.ios[Slot(i)].loc != Free && Reap(s).posted == s.posted
    ensures Arrived(s, Slot(i)) && Result(s, Slot(i)) == s.posted[s.reaped].res
  {
    ReapHands(s, i);
    ReapKeeps(s);
    assert SlotData(w, s, i);
  }

  lemma OpenedLocal(w: World, s: Sys, p: Proc, t: Sys, i: nat, res: nat, head: nat)
    requires Data(w, s) && Handed(s, p, i) && p.seen <= head && i < |s.proc.buffers|
    requires s.proc.ios[Slot(i)].loc != Free && s.proc.ios[Slot(i)].callback == OnFileOpen
    requires SlotData(w, s, i) && Opening(w, s, i) && Arrived(s, Slot(i)) && Result(s, Slot(i)) == res
    requires t.proc == Rearm(p, i, OpenedIo(p.ios[Slot(i)], p.slots[i], res), p.slots[i].(hasher := []), head)
    requires t.posted == s.posted
    ensures Local(w, s, t, i)
  {
    var io, q := OpenedIo(p.ios[Slot(i)], p.slots[i], res), p.slots[i].(hasher := []);
    SubmitFrame(p.(ios := p.ios[Slot(i) := io], slots := p.slots[i := q]), Slot(i), head);
    assert w.files[PathOf(s.proc, i)][..0] == [];
    assert Reading(w, t, i);
    RearmLocal(w, s, p, t, i, io, q, head);
  }

  lemma OpenedStep(w: World, s: Sys, t: Sys, i: nat, head: nat)
    requires OpenDelivered(w, s, i) && s.posted[s.reaped].res >= 0 && Reap(s).proc.seen <= head
    requires var p, res := Reap(s).proc, s.posted[s.reaped].res;
             t == CaughtUp(Reap(s), Rearm(p, i, OpenedIo(p.ios[Slot(i)], p.slots[i], res),
                                          p.slots[i].(hasher := []), head))
    ensures SlotStep(w, s, t, i)
  {
    OpenFacts(w, s, i);
    var p, res := Reap(s).proc, s.posted[s.reaped].res;
    var io, q := OpenedIo(p.ios[Slot(i)], p.slots[i], res), p.slots[i].(hasher := []);
    RearmKeeps(Reap(s), i, io, q, head);
    RearmRest(s, p, t, i, io, q, head);
    OpenedLocal(w, s, p, t, i, res, head);
  }

  lemma NotOpenedLocal(w: World, s: Sys, p: Proc, t: Sys, i: nat, ptr: nat)
    requires Data(w, s) && Handed(s, p, i) && i < |s.proc.buffers| && SlotData(w, s, i) && Opening(w, s, i)
    requires s.proc.ios[Slot(i)].loc != Free && s.proc.ios[Slot(i)].callback == OnFileOpen
    requires s.proc.slots[i].data == Some(ptr) && Arrived(s, Slot(i)) && Result(s, Slot(i)) < 0
    requires t.proc == Retired(p.(jobs := t.proc.jobs, emitted := t.proc.emitted, sent := t.proc.sent), i, ptr, -1)
    requires var j := s.proc.slots[i].job; t.proc.jobs == s.proc.jobs[j := s.proc.jobs[j].(status := OpenFailed)]
    requires t.proc.emitted == s.proc.emitted && t.posted == s.posted && -1 !in s.proc.fds
    ensures Local(w, s, t, i)
  {
    assert t.proc.ios.Keys == s.proc.ios.Keys;
    StrsDropped(s.proc, t.proc, i, ptr);
    assert t.proc.fds == s.proc.fds;
    FdsKept(s, t, i);
    JobSettled(s.proc, t.proc, i, OpenFailed);
  }

  lemma DescriptorsPositive(s: Sys)
    requires HasIds(s.proc) && FdsOwned(s)
    ensures forall fd | fd in s.proc.fds :: fd >= 0
  {
    forall fd | fd in s.proc.fds ensures fd >= 0 {
      assert FdOwned(s, fd);
    }
  }

  lemma NotOpenedStep(w: World, s: Sys, t: Sys, i: nat)
    requires OpenDelivered(w, s, i) && s.posted[s.reaped].res < 0 && OwnsPath(s.proc, i)
    requires var p, q := Reap(s).proc, s.proc.slots[i];
             && t == Reap(s).(proc := t.proc)
             && t.proc == Retired(p.(jobs := p.jobs[q.job := p.jobs[q.job].(status := OpenFailed)]),
                                  i, q.data.value, -1)
    ensures SlotStep(w, s, t, i) && t.proc.status == s.proc.status
    ensures t.proc.emitted == s.proc.emitted && t.proc.sent == s.proc.sent
  {
    OpenFacts(w, s, i);
    var p, q := Reap(s).proc, s.proc.slots[i];
    DescriptorsPositive(s);
    RetiredOwn(Reap(s), t, i, q.data.value, -1);
    NotOpenedLocal(w, s, p, t, i, q.data.value);
    RetiredRest(s, p, t, i, q.data.value, -1);
  }

  lemma OpenStep(w: World, s: Sys, t: Sys, i: nat, head: nat)
    requires OpenDelivered(w, s, i) && s.proc.status == Running && Emissions(w, s.proc)
    requires Reap(s).proc.seen <= head
    requires t == CaughtUp(Reap(s), OnOpen(Reap(s).proc, i, s.posted[s.reaped].res, head))
    ensures Inv(w, t)
  {
    OpenFacts(w, s, i);
    var p, q, res := Reap(s).proc, s.proc.slots[i], s.posted[s.reaped].res;
    if res < 0 {
      DescriptorsPositive(s);
      NotOpenedForm(p, i, q.data.value, res, head);
      NotOpenedStep(w, s, t, i);
      SlotStepKeeps(w, s, t, i);
      SettleEmissions(w, s.proc, t.proc, q.job, OpenFailed);
    } else {
      OpenedForm(p, i, res, head);
      OpenedStep(w, s, t, i, head);
      SlotStepKeeps(w, s, t, i);
      RearmRest(s, p, t, i, OpenedIo(p.ios[Slot(i)], p.slots[i], res), p.slots[i].(hasher := []), head);
      EmissionsFrame(w, s.proc, t.proc);
    }
  }

  // ---------------------------------------------------------------------------
  // on_socket_timeout_update

  lemma UpdateStep(w: World, s: Sys, t: Sys, i: nat)
    requires Full(w, s) && Next(s, Slot(i)) && i < |s.proc.slots|
    requires s.proc.ios[Slot(i)].callback == OnTimeoutUpdate
    requires s.proc.status == Running && Emissions(w, s.proc)
    requires t == CaughtUp(Reap(s), FreeReq(Reap(s).proc, i))
    ensures Inv(w, t)
  {
    ReapHands(s, i);
    ReapKeeps(s);
    FreeReqKeeps(Reap(s), i);
    FreedLocal(w, s, Reap(s).proc, t, i);
    SlotStepKeeps(w, s, t, i);
    EmissionsFrame(w, s.proc, t.proc);
  }

  lemma FreedLocal(w: World, s: Sys, p: Proc, t: Sys, i: nat)
    requires Data(w, s) && Handed(s, p, i) && t.proc == FreeReq(p, i) && t.posted == s.posted
    requires s.proc.ios[Slot(i)].callback == OnTimeoutUpdate
    ensures Local(w, s, t, i)
  {
    assert SlotData(w, s, i);
    assert t.proc.ios.Keys == s.proc.ios.Keys;
    StrsKept(s.proc, t.proc, i);
    JobsKept(s.proc, t.proc, i);
    FdsKept(s, t, i);
  }
}
