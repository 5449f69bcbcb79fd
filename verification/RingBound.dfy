/** When the submission ring can overflow depends on how late the kernel publishes its head.
    For a kernel that does so before the completion can be reaped, and for one that does so
    once per batch, a slab small enough never has a submission refused. */
module RingBound {
  import opened Requests
  import opened Runtime
  import opened HashSystem
  import opened Ownership
  import opened KernelSteps
  import opened LoopSteps
  import opened HashRuns
  import opened HashTheorems
  import opened Submissions

  // ---------------------------------------------------------------------------
  // What the kernel promises about its head

  /** `Prompt`: the head covering an SQE is published before the SQE's CQE can be reaped.
      `Batched`: SQEs are taken in batches, each of SQEs published before it began, and the head
      is published once a batch is done; `start(q)` is where the batch of SQE q starts. */
  datatype Kernel = Prompt | Batched(start: nat -> nat)

  /** A head loaded after reaping what `s` has reaped. */
  ghost predicate Covers(kernel: Kernel, s: Sys, head: nat) {
    forall k | 0 <= k < s.reaped && k < |s.posted| ::
      match kernel
      case Prompt => s.posted[k].pos < head
      case Batched(start) => start(s.posted[k].pos) <= head
  }

  /** What serving the completion just reaped in `r` can observe of the kernel. */
  ghost predicate Timely(kernel: Kernel, r: Sys, env: Env) {
    && Covers(kernel, r, env.head1)
    && (kernel.Batched? ==>
          0 < r.reaped <= |r.posted| && r.posted[r.reaped - 1].pos < kernel.start(|r.proc.subs|))
  }

  /** Runs with such a kernel. */
  ghost predicate RunsOn(kernel: Kernel, w: World, s: Sys, acts: seq<Action>, t: Sys)
    decreases |acts|
  {
    if acts == [] then t == s
    else
      && Enabled(w, s, acts[0])
      && (acts[0].Dispatch? ==> Timely(kernel, Reap(s), acts[0].env))
      && RunsOn(kernel, w, Apply(w, s, acts[0]), acts[1..], t)
  }

  ghost predicate Batches(kernel: Kernel) {
    kernel.Batched? ==> forall a: nat, b: nat | a <= b :: kernel.start(a) <= kernel.start(b)
  }

  ghost predicate ReachesOn(kernel: Kernel, w: World, n: nat, buffers: seq<Bytes>, acts: seq<Action>, t: Sys) {
    Batches(kernel) && Buffers(n, buffers) && RunsOn(kernel, w, Init(n, buffers), acts, t)
  }

  lemma {:induction false} RunsOnRuns(kernel: Kernel, w: World, s: Sys, acts: seq<Action>, t: Sys)
    requires RunsOn(kernel, w, s, acts, t)
    ensures Runs(w, s, acts, t)
    decreases |acts|
  {
    if acts != [] {
      RunsOnRuns(kernel, w, Apply(w, s, acts[0]), acts[1..], t);
    }
  }

  /** The largest slab for which no submission is ever refused. */
  function SafeSlots(kernel: Kernel): nat {
    if kernel.Prompt? then 125 else 61
  }

  // ---------------------------------------------------------------------------
  // What is known of past submissions

  ghost predicate IsFinal(s: Sys, k: nat, q: nat)
    requires k < |s.posted| && q < |s.proc.subs|
  {
    s.posted[k].pos == q && !s.posted[k].more && s.posted[k].id == s.proc.subs[q].id
  }

  /** Every finished SQE has its final CQE in the log. */
  ghost predicate Recorded(s: Sys) {
    forall q | q in s.done ::
      q < |s.proc.subs| && exists k | 0 <= k < |s.posted| :: IsFinal(s, k, q)
  }

  ghost predicate Reaped(s: Sys, q: nat) {
    exists k | 0 <= k < s.reaped && k < |s.posted| :: s.posted[k].pos == q
  }

  /** timer_req is submitted once. */
  ghost predicate TimerOnce(p: Proc) {
    && Timer in p.ios
    && (forall q, r | 0 <= q < |p.subs| && 0 <= r < |p.subs| && p.subs[q].id == p.subs[r].id == Timer :: q == r)
    && (forall q | 0 <= q < |p.subs| && p.subs[q].id == Timer :: p.ios[Timer].opcode == TimeoutOp)
  }

  /** An object is submitted again only after its last SQE was reaped, so in a later batch. */
  ghost predicate Spaced(start: nat -> nat, s: Sys) {
    forall q, r | 0 <= q < r < |s.proc.subs| && s.proc.subs[q].id == s.proc.subs[r].id ::
      Reaped(s, q) && q < start(r)
  }

  /** What is submitted from now on is in a later batch than anything reaped. */
  ghost predicate Ahead(start: nat -> nat, s: Sys) {
    forall q: nat | Reaped(s, q) :: q < start(|s.proc.subs|)
  }

  ghost predicate Hist(kernel: Kernel, s: Sys) {
    && s.reaped <= |s.posted| && Recorded(s) && TimerOnce(s.proc) && Batches(kernel)
    && (kernel.Batched? ==> Spaced(kernel.start, s) && Ahead(kernel.start, s))
  }

  // ---------------------------------------------------------------------------
  // Counting entries by object

  function AllIds(n: nat): set<ReqId> {
    if n == 0 then {Poll, Conn, Recv, Timer} else AllIds(n - 1) + {Slot(n - 1)}
  }

  lemma {:induction false} AllIdsMember(n: nat, id: ReqId)
    ensures id in AllIds(n) <==> (id.Slot? ==> id.index < n)
  {
    if n > 0 {
      AllIdsMember(n - 1, id);
    }
  }

  lemma {:induction false} AllIdsSize(n: nat)
    ensures |AllIds(n)| == n + 4
  {
    if n > 0 {
      AllIdsSize(n - 1);
      AllIdsMember(n - 1, Slot(n - 1));
    }
  }

  lemma SubsetSize<T>(a: set<T>, b: set<T>)
    requires a <= b
    ensures |a| <= |b|
  {
    assert b == a + (b - a);
  }

  /** The objects named by the SQEs at `ps`. */
  function Named(subs: seq<Sqe>, ps: set<nat>): set<ReqId>
    requires forall q | q in ps :: q < |subs|
  {
    set q | q in ps :: subs[q].id
  }

  lemma {:induction false} NamedSize(subs: seq<Sqe>, ps: set<nat>)
    requires forall q | q in ps :: q < |subs|
    requires forall q, r | q in ps && r in ps && subs[q].id == subs[r].id :: q == r
    ensures |Named(subs, ps)| == |ps|
    decreases |ps|
  {
    if ps != {} {
      var q :| q in ps;
      NamedSize(subs, ps - {q});
      assert Named(subs, ps) == Named(subs, ps - {q}) + {subs[q].id};
    }
  }

  function Range(a: nat, b: nat): set<nat>
    decreases b
  {
    if b <= a then {} else Range(a, b - 1) + {b - 1}
  }

  lemma {:induction false} RangeMembers(a: nat, b: nat, q: nat)
    ensures q in Range(a, b) <==> a <= q < b
    decreases b
  {
    if a < b {
      RangeMembers(a, b - 1, q);
    }
  }

  lemma {:induction false} RangeSize(a: nat, b: nat)
    requires a <= b
    ensures |Range(a, b)| == b - a
    decreases b
  {
    if a < b {
      RangeSize(a, b - 1);
      RangeMembers(a, b - 1, b - 1);
    }
  }

  // ---------------------------------------------------------------------------
  // Entries beyond a loaded head

  /** SQE q is its object's current one. */
  ghost predicate Out(s: Sys, q: nat)
    requires q < |s.proc.subs|
  {
    var id := s.proc.subs[q].id;
    && id in s.proc.ios
    && (s.proc.ios[id].loc == Pending(q) || (s.proc.ios[id].loc.InCq? && s.proc.ios[id].loc.pos == q))
  }

  lemma OutOrReaped(s: Sys, q: nat)
    requires Own(s) && Recorded(s) && q < |s.proc.subs|
    ensures Out(s, q) || Reaped(s, q)
  {
    assert SqeOk(s, q);
    if q in s.done {
      var k :| 0 <= k < |s.posted| && IsFinal(s, k, q);
      if k >= s.reaped {
        assert CqeOk(s, k);
      }
    }
  }

  ghost function OutFrom(s: Sys, h: nat): set<nat> {
    set q: nat | h <= q < |s.proc.subs| && Out(s, q)
  }

  ghost function LateFrom(s: Sys, h: nat): set<nat> {
    set q: nat | h <= q < |s.proc.subs| && !Out(s, q)
  }

  lemma Split(s: Sys, h: nat)
    requires h <= |s.proc.subs|
    ensures |OutFrom(s, h)| + |LateFrom(s, h)| == |s.proc.subs| - h
  {
    RangeSize(h, |s.proc.subs|);
    forall q: nat ensures q in Range(h, |s.proc.subs|) <==> h <= q < |s.proc.subs| {
      RangeMembers(h, |s.proc.subs|, q);
    }
    assert Range(h, |s.proc.subs|) == OutFrom(s, h) + LateFrom(s, h);
  }

  lemma OutDistinct(s: Sys, h: nat)
    ensures |Named(s.proc.subs, OutFrom(s, h))| == |OutFrom(s, h)|
  {
    NamedSize(s.proc.subs, OutFrom(s, h));
  }

  /** Beyond a head that covers what was reaped, no object has two reaped entries, and with a
      prompt kernel none has one. */
  lemma LateDistinct(kernel: Kernel, s: Sys, h: nat)
    requires Own(s) && Hist(kernel, s) && Covers(kernel, s, h)
    ensures |Named(s.proc.subs, LateFrom(s, h))| == |LateFrom(s, h)|
    ensures kernel.Prompt? ==> LateFrom(s, h) == {}
  {
    forall q | q in LateFrom(s, h) ensures Reaped(s, q) && kernel.Batched? {
      OutOrReaped(s, q);
    }
    forall q, r | q in LateFrom(s, h) && r in LateFrom(s, h) && s.proc.subs[q].id == s.proc.subs[r].id
      ensures q == r
    {
      if q < r {
        LatePair(kernel, s, h, q, r);
      } else if r < q {
        LatePair(kernel, s, h, r, q);
      }
    }
    NamedSize(s.proc.subs, LateFrom(s, h));
  }

  lemma LatePair(kernel: Kernel, s: Sys, h: nat, q: nat, r: nat)
    requires Hist(kernel, s) && Covers(kernel, s, h) && kernel.Batched?
    requires h <= q < r < |s.proc.subs| && Reaped(s, r)
    ensures s.proc.subs[q].id != s.proc.subs[r].id
  {
    var k :| 0 <= k < s.reaped && k < |s.posted| && s.posted[k].pos == r;
    assert kernel.start(r) <= h;
  }

  /** A callback is about to submit `ids`, and `spare` is another object that is not out. */
  ghost predicate AboutTo(s: Sys, ids: seq<ReqId>, spare: ReqId) {
    && (forall a | 0 <= a < |ids| :: ids[a] in s.proc.ios && Unreferenced(s.proc.ios[ids[a]].loc) && ids[a] != spare)
    && (forall a, b | 0 <= a < b < |ids| :: ids[a] != ids[b])
    && spare in s.proc.ios && Unreferenced(s.proc.ios[spare].loc) && (spare == Conn || spare == Recv)
    && (Timer in ids ==> s.proc.ios[Timer].opcode != TimeoutOp)
  }

  function Elements(ids: seq<ReqId>): set<ReqId> {
    set id | id in ids
  }

  lemma {:induction false} ElementsSize(ids: seq<ReqId>)
    requires forall a, b | 0 <= a < b < |ids| :: ids[a] != ids[b]
    ensures |Elements(ids)| == |ids|
  {
    if ids != [] {
      var front, last := ids[..|ids| - 1], ids[|ids| - 1];
      ElementsSize(front);
      assert Elements(ids) == Elements(front) + {last};
    }
  }

  /** Objects out and objects about to be submitted are different, and `spare` is neither. */
  lemma OutAndWanted(s: Sys, h: nat, ids: seq<ReqId>, spare: ReqId)
    requires Own(s) && AboutTo(s, ids, spare)
    ensures var o, d := Named(s.proc.subs, OutFrom(s, h)), Elements(ids);
            |o| + |ids| == |o + d| && o + d <= AllIds(|s.proc.slots|) - {spare}
  {
    var o, d := Named(s.proc.subs, OutFrom(s, h)), Elements(ids);
    ElementsSize(ids);
    assert o !! d;
    forall id | id in o + d ensures id in AllIds(|s.proc.slots|) && id != spare {
      AllIdsMember(|s.proc.slots|, id);
    }
  }

  lemma LateKnown(s: Sys, h: nat)
    requires Own(s)
    ensures Named(s.proc.subs, LateFrom(s, h)) <= AllIds(|s.proc.slots|)
  {
    forall id | id in Named(s.proc.subs, LateFrom(s, h)) ensures id in AllIds(|s.proc.slots|) {
      var q :| q in LateFrom(s, h) && s.proc.subs[q].id == id;
      assert SqeOk(s, q);
      AllIdsMember(|s.proc.slots|, id);
    }
  }

  /** timer_req has an entry reaped, or one out or about to be made, but not both. */
  lemma TimerApart(s: Sys, h: nat, ids: seq<ReqId>, spare: ReqId)
    requires TimerOnce(s.proc) && AboutTo(s, ids, spare)
    ensures Timer !in Named(s.proc.subs, OutFrom(s, h)) + Elements(ids) || Timer !in Named(s.proc.subs, LateFrom(s, h))
  {
  }

  /** How full the ring can look to a thread about to submit. */
  lemma Occupancy(kernel: Kernel, s: Sys, h: nat, ids: seq<ReqId>, spare: ReqId)
    requires Own(s) && Hist(kernel, s) && Covers(kernel, s, h) && AboutTo(s, ids, spare) && h <= |s.proc.subs|
    ensures var n := |s.proc.slots|;
            |s.proc.subs| - h + |ids| <= if kernel.Prompt? then n + 3 else 2 * n + 6
  {
    var n := |s.proc.slots|;
    var o, l := Named(s.proc.subs, OutFrom(s, h)), Named(s.proc.subs, LateFrom(s, h));
    Split(s, h);
    OutDistinct(s, h);
    LateDistinct(kernel, s, h);
    OutAndWanted(s, h, ids, spare);
    AllIdsSize(n);
    AllIdsMember(n, spare);
    SubsetSize(o + Elements(ids), AllIds(n) - {spare});
    if kernel.Batched? {
      LateKnown(s, h);
      TwiceAll(n, o + Elements(ids), l, spare) by {
        TimerApart(s, h, ids, spare);
      }
    }
  }

  lemma TwiceAll(n: nat, o: set<ReqId>, l: set<ReqId>, spare: ReqId)
    requires o <= AllIds(n) - {spare} && l <= AllIds(n) && (spare == Conn || spare == Recv)
    requires Timer !in o || Timer !in l
    ensures |o| + |l| <= 2 * n + 6
  {
    AllIdsSize(n);
    AllIdsMember(n, spare);
    AllIdsMember(n, Timer);
    if Timer in o {
      SubsetSize(o, AllIds(n) - {spare});
      SubsetSize(l, AllIds(n) - {Timer});
    } else {
      SubsetSize(o, AllIds(n) - {spare} - {Timer});
      SubsetSize(l, AllIds(n));
    }
  }

  // ---------------------------------------------------------------------------
  // Steps

  /** The objects a callback submits are at hand, and another embedded one is idle. */
  lemma SlotReady(w: World, s: Sys, env: Env) returns (spare: ReqId)
    requires Full(w, s) && s.proc.status == Running && Enabled(w, s, Dispatch(env))
    requires s.posted[s.reaped].id.Slot? && Shape(Reap(s).proc)
    ensures AboutTo(Reap(s), Submits(Reap(s).proc, s.posted[s.reaped], env), spare)
  {
    var c := s.posted[s.reaped];
    CallbackOwner(w, s, c.id);
    ReapShape(s);
    assert !c.more && Reap(s).proc.ios[c.id].loc == Held by { assert CqeOk(s, s.reaped); }
    spare := if s.proc.connected then Conn else Recv;
    SlotAbout(Reap(s), c, env, spare);
  }

  lemma SlotAbout(r: Sys, c: Cqe, env: Env, spare: ReqId)
    requires HasIds(r.proc) && c.id in r.proc.ios && c.id.Slot? && r.proc.ios[c.id].loc == Held
    requires var cb := r.proc.ios[c.id].callback; cb == OnFileOpen || cb == OnFileRead || cb == OnTimeoutUpdate
    requires spare in r.proc.ios && Unreferenced(r.proc.ios[spare].loc) && (spare == Conn || spare == Recv)
    ensures AboutTo(r, Submits(r.proc, c, env), spare)
  {
  }

  lemma SingleReady(w: World, s: Sys, env: Env) returns (spare: ReqId)
    requires Full(w, s) && s.proc.status == Running && Enabled(w, s, Dispatch(env))
    requires !s.posted[s.reaped].id.Slot? && Shape(Reap(s).proc)
    ensures AboutTo(Reap(s), Submits(Reap(s).proc, s.posted[s.reaped], env), spare)
  {
    var id := s.posted[s.reaped].id;
    CallbackOwner(w, s, id);
    ReapShape(s);
    ReapSingle(w, s, id);
    ReapFiles(s, id);
    DeliveredSingle(s, id);
    spare := if s.proc.connected || s.proc.ios[id].callback == OnSocketConnect then Conn else Recv;
    SingleAbout(Reap(s), s.posted[s.reaped], env, spare);
  }

  lemma SingleAbout(r: Sys, c: Cqe, env: Env, spare: ReqId)
    requires Own(r) && Singles(r.proc) && c.id in r.proc.ios && Shape(r.proc)
    requires c.more ==> c.id == Poll && c.res >= 0
    requires !c.more ==> AtHand(r.proc, c.id)
    requires match r.proc.ios[c.id].callback
             case OnQueueEvent => c.id == Poll
             case OnTimeout => c.id == Timer
             case OnSocketCreate => c.id == Conn && !r.proc.connected
             case OnSocketConnect => c.id == Conn && !r.proc.connected
             case OnSocketRead => c.id == Recv && r.proc.connected
             case _ => false
    requires spare == if r.proc.connected || r.proc.ios[c.id].callback == OnSocketConnect then Conn else Recv
    ensures AboutTo(r, Submits(r.proc, c, env), spare)
  {
    if r.proc.free != [] {
      HeadFree(r);
    }
  }

  lemma Ready(w: World, s: Sys, env: Env) returns (spare: ReqId)
    requires Inv(w, s) && Enabled(w, s, Dispatch(env))
    ensures Shape(Reap(s).proc) && AboutTo(Reap(s), Submits(Reap(s).proc, s.posted[s.reaped], env), spare)
    ensures Own(Reap(s)) && s.posted[s.reaped].id in Reap(s).proc.ios
  {
    ReapShape(s);
    ReapKeeps(s);
    if s.posted[s.reaped].id.Slot? {
      spare := SlotReady(w, s, env);
    } else {
      spare := SingleReady(w, s, env);
    }
  }

  /** Reaping keeps the history; a timely kernel keeps batches apart. */
  lemma ReapHist(kernel: Kernel, s: Sys, env: Env)
    requires Hist(kernel, s) && s.reaped < |s.posted| && s.posted[s.reaped].id in s.proc.ios
    requires Timely(kernel, Reap(s), env)
    ensures Hist(kernel, Reap(s))
  {
    var r := Reap(s);
    assert r.proc.ios[Timer].opcode == s.proc.ios[Timer].opcode;
    forall q | q in r.done ensures q < |r.proc.subs| && exists k | 0 <= k < |r.posted| :: IsFinal(r, k, q) {
      var k :| 0 <= k < |s.posted| && IsFinal(s, k, q);
      assert IsFinal(r, k, q);
    }
    if kernel.Batched? {
      ReapSpaced(kernel.start, s);
      forall q: nat | Reaped(r, q) ensures q < kernel.start(|r.proc.subs|) {
        var k :| 0 <= k < r.reaped && k < |r.posted| && r.posted[k].pos == q;
        if k < s.reaped {
          assert Reaped(s, q);
        }
      }
    }
  }

  lemma ReapSpaced(start: nat -> nat, s: Sys)
    requires s.reaped < |s.posted| && s.posted[s.reaped].id in s.proc.ios && Spaced(start, s)
    ensures Spaced(start, Reap(s))
  {
    var r := Reap(s);
    forall a, b | 0 <= a < b < |r.proc.subs| && r.proc.subs[a].id == r.proc.subs[b].id
      ensures Reaped(r, a) && a < start(b)
    {
      assert Reaped(s, a);
    }
  }

  /** Submitting objects at hand keeps the history. */
  lemma AppendHist(kernel: Kernel, r: Sys, t: Sys, ids: seq<ReqId>, spare: ReqId)
    requires Own(r) && Hist(kernel, r) && AboutTo(r, ids, spare) && Appends(r.proc, t.proc, ids)
    requires t.posted == r.posted && t.reaped == r.reaped && t.done == r.done
    ensures Hist(kernel, t)
  {
    forall q | q in t.done ensures q < |t.proc.subs| && exists k | 0 <= k < |t.posted| :: IsFinal(t, k, q) {
      var k :| 0 <= k < |r.posted| && IsFinal(r, k, q);
      assert IsFinal(t, k, q);
    }
    AppendTimer(r.proc, t.proc, ids) by {
      assert Timer in ids ==> r.proc.ios[Timer].opcode != TimeoutOp;
    }
    if kernel.Batched? {
      AppendSpaced(kernel, r, t, ids, spare);
      forall q: nat | Reaped(t, q) ensures q < kernel.start(|t.proc.subs|) {
        assert Reaped(r, q);
      }
    }
  }

  lemma AppendTimer(p: Proc, r: Proc, ids: seq<ReqId>)
    requires TimerOnce(p) && Appends(p, r, ids) && (Timer in ids ==> p.ios[Timer].opcode != TimeoutOp)
    requires forall a, b | 0 <= a < b < |ids| :: ids[a] != ids[b]
    ensures TimerOnce(r)
  {
    forall q | 0 <= q < |r.subs| && r.subs[q].id == Timer
      ensures if q < |p.subs| then p.subs[q].id == Timer else ids[q - |p.subs|] == Timer
    {
      if q >= |p.subs| {
        assert r.subs[|p.subs| + (q - |p.subs|)].id == ids[q - |p.subs|];
      }
    }
  }

  lemma AppendSpaced(kernel: Kernel, r: Sys, t: Sys, ids: seq<ReqId>, spare: ReqId)
    requires kernel.Batched? && Own(r) && Hist(kernel, r) && AboutTo(r, ids, spare) && Appends(r.proc, t.proc, ids)
    requires t.posted == r.posted && t.reaped == r.reaped
    ensures Spaced(kernel.start, t)
  {
    var n := |r.proc.subs|;
    forall a, b | n <= a < b < |t.proc.subs| ensures t.proc.subs[a].id != t.proc.subs[b].id {
      assert t.proc.subs[n + (a - n)].id == ids[a - n] && t.proc.subs[n + (b - n)].id == ids[b - n];
    }
    forall a, b | 0 <= a < b < |t.proc.subs| && t.proc.subs[a].id == t.proc.subs[b].id
      ensures Reaped(t, a) && a < kernel.start(b)
    {
      if b < n {
        assert r.proc.subs[a].id == r.proc.subs[b].id;
        assert Reaped(r, a);
      } else if a < n {
        assert t.proc.subs[n + (b - n)].id == ids[b - n] == r.proc.subs[a].id;
        OutOrReaped(r, a);
        assert kernel.start(n) <= kernel.start(b);
      }
    }
  }

  lemma KernelHist(kernel: Kernel, w: World, s: Sys, a: Action)
    requires Inv(w, s) && Hist(kernel, s) && Enabled(w, s, a) && !a.Dispatch?
    ensures Hist(kernel, Apply(w, s, a)) && Apply(w, s, a).proc.lost == s.proc.lost
  {
    var t := Apply(w, s, a);
    if a.Complete? {
      PerformFrame(w, s.proc, s.proc.subs[a.pos], a.res);
    }
    assert t.proc.subs == s.proc.subs && t.reaped == s.reaped && s.posted <= t.posted;
    forall q | q in t.done ensures q < |t.proc.subs| && exists k | 0 <= k < |t.posted| :: IsFinal(t, k, q) {
      if q in s.done {
        var k :| 0 <= k < |s.posted| && IsFinal(s, k, q);
        assert IsFinal(t, k, q);
      } else {
        assert IsFinal(t, |s.posted|, q);
      }
    }
    if kernel.Batched? {
      SameReaped(kernel.start, s, t);
    }
  }

  lemma SameReaped(start: nat -> nat, s: Sys, t: Sys)
    requires t.proc.subs == s.proc.subs && t.reaped == s.reaped <= |s.posted| && s.posted <= t.posted
    requires Spaced(start, s) && Ahead(start, s)
    ensures Spaced(start, t) && Ahead(start, t)
  {
    forall q: nat ensures Reaped(t, q) <==> Reaped(s, q) {
      if Reaped(s, q) {
        var k :| 0 <= k < s.reaped && k < |s.posted| && s.posted[k].pos == q;
        assert t.posted[k].pos == q;
      }
    }
  }

  ghost predicate Small(kernel: Kernel, s: Sys) {
    Hist(kernel, s) && |s.proc.slots| <= SafeSlots(kernel) && s.proc.lost == []
  }

  lemma DispatchFits(kernel: Kernel, w: World, s: Sys, env: Env)
    requires Inv(w, s) && Enabled(w, s, Dispatch(env)) && Small(kernel, s) && Timely(kernel, Reap(s), env)
    ensures Hist(kernel, Serve(w, s, env)) && Serve(w, s, env).proc.lost == []
  {
    var r, c := Reap(s), s.posted[s.reaped];
    CallbackOwner(w, s, c.id);
    ReapShape(s);
    ReapHist(kernel, s, env);
    var spare := Ready(w, s, env);
    HasRoom(kernel, r, c, env, spare);
    CallbackAppends(w, r.proc, c, env);
    AppendHist(kernel, r, Serve(w, s, env), Submits(r.proc, c, env), spare);
  }

  lemma HasRoom(kernel: Kernel, r: Sys, c: Cqe, env: Env, spare: ReqId)
    requires Own(r) && Hist(kernel, r) && Covers(kernel, r, env.head1) && |r.proc.slots| <= SafeSlots(kernel)
    requires c.id in r.proc.ios && AboutTo(r, Submits(r.proc, c, env), spare)
    ensures var ids := Submits(r.proc, c, env); |r.proc.subs| + |ids| <= env.head1 + SQ_ENTRIES || ids == []
  {
    if env.head1 <= |r.proc.subs| {
      Occupancy(kernel, r, env.head1, Submits(r.proc, c, env), spare);
    } else {
      assert |Submits(r.proc, c, env)| <= 2;
    }
  }

  lemma StepFits(kernel: Kernel, w: World, s: Sys, a: Action)
    requires Inv(w, s) && Enabled(w, s, a) && Small(kernel, s)
    requires a.Dispatch? ==> Timely(kernel, Reap(s), a.env)
    ensures Small(kernel, Apply(w, s, a))
  {
    StepKeepsSize(w, s, a);
    if a.Dispatch? {
      DispatchFits(kernel, w, s, a.env);
    } else {
      KernelHist(kernel, w, s, a);
    }
  }

  lemma {:induction false} RunFits(kernel: Kernel, w: World, s: Sys, acts: seq<Action>, t: Sys)
    requires Inv(w, s) && Small(kernel, s) && RunsOn(kernel, w, s, acts, t)
    ensures Small(kernel, t)
    decreases |acts|
  {
    if acts != [] {
      StepFits(kernel, w, s, acts[0]);
      StepKeeps(w, s, acts[0]);
      RunFits(kernel, w, Apply(w, s, acts[0]), acts[1..], t);
    }
  }

  lemma InitSmall(kernel: Kernel, w: World, n: nat, buffers: seq<Bytes>)
    requires Buffers(n, buffers) && Batches(kernel) && n <= SafeSlots(kernel)
    ensures Small(kernel, Init(n, buffers))
  {
    InitHolds(w, n, buffers);
    BlankIds(n, buffers);
    var p0 := Blank(n, buffers);
    SubmitAppends(p0, Poll, 0);
    SubmitAppends(Submit(p0, Poll, 0), Conn, 0);
    AppendsThen(p0, Submit(p0, Poll, 0), Setup(n, buffers), [Poll], [Conn]);
    var s := Init(n, buffers);
    assert s.proc.subs[0].id == Poll && s.proc.subs[1].id == Conn;
  }

  // ---------------------------------------------------------------------------
  // Main results

  /** Ring never full: with at most 125 slots and a prompt kernel, or at most 61 and a kernel
      that publishes its head once per batch, no run ever has a submission refused. */
  lemma NeverFull(kernel: Kernel, w: World, n: nat, buffers: seq<Bytes>, acts: seq<Action>, t: Sys)
    requires ReachesOn(kernel, w, n, buffers, acts, t) && n <= SafeSlots(kernel)
    ensures t.proc.lost == []
  {
    InitHolds(w, n, buffers);
    InitSmall(kernel, w, n, buffers);
    RunFits(kernel, w, Init(n, buffers), acts, t);
  }

  /** Within the bound the partition is the four-way one: nothing is ever lost. */
  lemma PartitionWithinBound(
    kernel: Kernel, w: World, n: nat, buffers: seq<Bytes>, acts: seq<Action>, t: Sys, i: nat)
    requires ReachesOn(kernel, w, n, buffers, acts, t) && n <= SafeSlots(kernel) && i < n && t.proc.status == Running
    ensures One(OnFreeList(t, i)) + One(InSubmissionRing(t, Slot(i))) + One(InKernel(t, Slot(i)))
            + One(InCompletionRing(t, Slot(i))) == 1
    ensures InSubmissionRing(t, Poll) || InKernel(t, Poll) || InCompletionRing(t, Poll)
  {
    RunsOnRuns(kernel, w, Init(n, buffers), acts, t);
    OwnershipPartition(w, n, buffers, acts, t, i);
    NeverFull(kernel, w, n, buffers, acts, t);
    ReachesInv(w, n, buffers, acts, t);
    PlaceByLoc(t, Poll);
  }
}
