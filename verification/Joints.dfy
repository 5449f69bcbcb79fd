/** Where the parts of the whole meet, in every run: a processor has opened what the queue
    handed to it, and its connection has been given what it reported. */
module Joints {
  import opened Requests
  import opened WholeSystem

  // ---------------------------------------------------------------------------
  // What a step of a processor does to its logs

  ghost predicate SamePaths(a: seq<R.Job>, b: seq<R.Job>) {
    |a| == |b| && forall j | 0 <= j < |a| :: a[j].path == b[j].path
  }

  /** No file is taken up; at most one verifier call is made. */
  ghost predicate AtMostReports(p: R.Proc, r: R.Proc) {
    && SamePaths(p.jobs, r.jobs)
    && (r.sent == p.sent || (|r.sent| == |p.sent| + 1 && p.sent <= r.sent))
  }

  /** One file is taken up if the queue gave an event or had no token; a processor that goes
      on has taken it up. */
  ghost predicate TakesUp(p: R.Proc, r: R.Proc, got: R.Got) {
    && r.sent == p.sent
    && (r.jobs == p.jobs
        || (!got.GotNothing? && |r.jobs| == |p.jobs| + 1 && p.jobs <= r.jobs
            && r.jobs[|p.jobs|].path == R.EventPath(got)))
    && (r.status == R.Running && !got.GotNothing? ==> r.jobs != p.jobs)
  }

  lemma SubmitLogs(p: R.Proc, id: ReqId, head: nat)
    requires id in p.ios
    ensures var r := R.Submit(p, id, head);
            r.jobs == p.jobs && r.sent == p.sent && r.status == p.status
  {
  }

  lemma ReadLogs(w: R.World, p: R.Proc, i: nat, res: int, head: nat)
    requires i < |p.slots| && Slot(i) in p.ios
    ensures AtMostReports(p, R.OnRead(w, p, i, res, head))
  {
    if res < 0 {
      RetireLogs(R.Settle(p, i, R.ReadFailed), i);
    } else if res == 0 {
      EndLogs(w, p, i, head);
    } else {
      MoreLogs(w, p, i, res, head);
    }
  }

  lemma EndLogs(w: R.World, p: R.Proc, i: nat, head: nat)
    requires i < |p.slots| && Slot(i) in p.ios
    ensures AtMostReports(p, R.OnRead(w, p, i, 0, head))
  {
    var p1 := R.Feed(p, i, 0);
    assert p1.jobs == p.jobs && p1.sent == p.sent;
    if p1.status == R.Running {
      var p2 := R.Emit(w, p1, i);
      assert AtMostReports(p, p2);
      if p2.status == R.Running {
        RetireLogs(p2, i);
      }
    }
  }

  lemma MoreLogs(w: R.World, p: R.Proc, i: nat, res: nat, head: nat)
    requires i < |p.slots| && Slot(i) in p.ios && res > 0
    ensures AtMostReports(p, R.OnRead(w, p, i, res, head))
  {
    var p1 := R.Feed(p, i, res);
    assert p1.jobs == p.jobs && p1.sent == p.sent;
    if p1.status == R.Running {
      var io := p1.ios[Slot(i)];
      SubmitLogs(p1.(ios := p1.ios[Slot(i) := io.(off := io.off + res)], slots := p1.slots[i := p1.slots[i]]),
                 Slot(i), head);
    }
  }

  lemma RetireLogs(p: R.Proc, i: nat)
    requires i < |p.slots| && Slot(i) in p.ios
    ensures R.Retire(p, i).jobs == p.jobs && R.Retire(p, i).sent == p.sent
  {
  }

  lemma OpenLogs(p: R.Proc, i: nat, res: int, head: nat)
    requires i < |p.slots| && Slot(i) in p.ios
    ensures AtMostReports(p, R.OnOpen(p, i, res, head))
  {
    if res < 0 {
      var p1 := R.Settle(p, i, R.OpenFailed);
      assert AtMostReports(p, p1);
      var p2 := R.DropPath(p1, i);
      assert p2.jobs == p1.jobs && p2.sent == p1.sent;
    } else {
      var io := R.OpenedIo(p.ios[Slot(i)], p.slots[i], res);
      SubmitLogs(p.(ios := p.ios[Slot(i) := io], slots := p.slots[i := p.slots[i].(hasher := [])]), Slot(i), head);
    }
  }

  lemma FlushLogs(p: R.Proc, ok: bool, head: nat)
    requires H.Shape(p)
    ensures var r := R.FlushEgress(p, ok, head); r.jobs == p.jobs && r.sent == p.sent
  {
    if ok && p.ios[Timer].opcode != TimeoutOp {
      SubmitLogs(R.SetIo(p, Timer, R.TimerIo(p.ios[Timer])), Timer, head);
    } else if ok && p.free != [] {
      var i, p1 := p.free[0], R.GetReq(p);
      assert p1.jobs == p.jobs && p1.sent == p.sent;
      if p1.status == R.Running {
        SubmitLogs(p1.(ios := p1.ios[Slot(i) := R.UpdateIo(p1.ios[Slot(i)])], slots := p1.slots[i := p1.slots[i]]),
                   Slot(i), head);
      }
    }
  }

  lemma OpenEventLogs(p: R.Proc, got: R.Got, ptr: nat, head: nat)
    requires H.Shape(p) && p.free != [] && !got.GotNothing?
    ensures TakesUp(p, R.OpenEvent(p, got, ptr, head), got)
  {
    var i, p1 := p.free[0], R.GetReq(p);
    if p1.status == R.Running {
      var p2 := R.WithJob(p1, i, got, ptr);
      var q := p1.slots[i].(data := Some(ptr), data2 := |R.EventPath(got)|, job := |p1.jobs|);
      SubmitLogs(p2.(ios := p2.ios[Slot(i) := R.OpenIo(p1.ios[Slot(i)], ptr)], slots := p2.slots[i := q]),
                 Slot(i), head);
    }
  }

  lemma QueueLogs(p: R.Proc, res: int, more: bool, got: R.Got, ptr: nat, head1: nat, head2: nat)
    requires H.Shape(p)
    ensures var r := R.OnQueue(p, res, more, got, ptr, head1, head2);
            if res < 0 then AtMostReports(p, r) && r.sent == p.sent else TakesUp(p, r, got)
  {
    if res >= 0 && !got.GotNothing? && p.free != [] {
      var p1 := R.OpenEvent(p, got, ptr, head1);
      OpenEventLogs(p, got, ptr, head1);
      if p1.status == R.Running && !more {
        SubmitLogs(p1, Poll, head2);
      }
    }
  }

  lemma RecvLogs(p: R.Proc, env: H.Env)
    requires H.Shape(p)
    ensures H.Shape(R.Submit(p, Recv, env.head1))
    ensures AtMostReports(p, H.AfterFirst(R.Submit(p, Recv, env.head1), env))
  {
    SubmitLogs(p, Recv, env.head1);
    T.SubmitShape(p, Recv, env.head1);
    FlushLogs(R.Submit(p, Recv, env.head1), env.ok, env.head2);
  }

  lemma ConnectLogs(p: R.Proc, env: H.Env)
    requires H.Shape(p)
    ensures H.Shape(R.OnConnected(p)) && H.Shape(R.Submit(R.OnConnected(p), Recv, env.head1))
    ensures AtMostReports(p, H.AfterFirst(R.Submit(R.OnConnected(p), Recv, env.head1), env))
  {
    assert R.OnConnected(p).ios.Keys == p.ios.Keys;
    RecvLogs(R.OnConnected(p), env);
  }

  lemma CallbackLogs(w: R.World, p: R.Proc, cqe: Cqe, env: H.Env)
    requires H.Shape(p) && cqe.id in p.ios
    ensures var r := H.Callback(w, p, cqe, env);
            if p.ios[cqe.id].callback == OnQueueEvent && cqe.res >= 0 then TakesUp(p, r, env.got)
            else AtMostReports(p, r)
  {
    match p.ios[cqe.id].callback
    case OnQueueEvent => QueueLogs(p, cqe.res, cqe.more, env.got, env.ptr, env.head1, env.head2);
    case OnFileOpen => if cqe.id.Slot? { OpenLogs(p, cqe.id.index, cqe.res, env.head1); }
    case OnFileRead => if cqe.id.Slot? { ReadLogs(w, p, cqe.id.index, cqe.res, env.head1); }
    case OnSocketConnect =>
      if cqe.res >= 0 && env.init { ConnectLogs(p, env); }
    case OnSocketRead =>
      if cqe.res >= 0 { RecvLogs(p, env); }
    case _ =>
  }

  lemma ServeLogs(w: R.World, s: H.Sys, env: H.Env)
    requires H.Enabled(w, s, H.Dispatch(env))
    ensures var t := H.Apply(w, s, H.Dispatch(env));
            if Wakes(s) then TakesUp(s.proc, t.proc, env.got) else AtMostReports(s.proc, t.proc)
  {
    H.ReapShape(s);
    CallbackLogs(w, H.Reap(s).proc, s.posted[s.reaped], env);
  }

  lemma KernelLogs(w: R.World, s: H.Sys, a: H.Action)
    requires H.Enabled(w, s, a) && !a.Dispatch?
    ensures var t := H.Apply(w, s, a); t.proc.jobs == s.proc.jobs && t.proc.sent == s.proc.sent
  {
    if a.Complete? {
      H.PerformFrame(w, s.proc, s.proc.subs[a.pos], a.res);
    }
  }

  // ---------------------------------------------------------------------------
  // Queue to processor

  /** The paths handed to consumer c, in order; the empty one is no file's. */
  function HandedTo(hs: seq<Q.Handed>, c: nat): seq<Bytes> {
    if hs == [] then []
    else
      var last := hs[|hs| - 1];
      HandedTo(hs[..|hs| - 1], c) + if last.consumer == c && last.event.path != [] then [last.event.path] else []
  }

  /** The paths a processor opened for events; without a token it opens the empty path. */
  function Opened(jobs: seq<R.Job>): seq<Bytes> {
    if jobs == [] then []
    else
      var last := jobs[|jobs| - 1];
      Opened(jobs[..|jobs| - 1]) + if last.path != [] then [last.path] else []
  }

  /** A processor that is running has opened exactly what the queue handed to it; one that has
      stopped may have stopped with the last event in its hands. */
  ghost predicate Fed(s: Whole, c: nat)
    requires c < |s.procs|
  {
    && Opened(s.procs[c].proc.jobs) <= HandedTo(s.queue.handed, c)
    && (s.procs[c].proc.status == R.Running ==>
          Opened(s.procs[c].proc.jobs) == HandedTo(s.queue.handed, c))
  }

  lemma {:induction false} OpenedByPath(a: seq<R.Job>, b: seq<R.Job>)
    requires SamePaths(a, b)
    ensures Opened(a) == Opened(b)
  {
    if a != [] {
      OpenedByPath(a[..|a| - 1], b[..|b| - 1]);
    }
  }

  lemma OpenedMore(p: R.Proc, r: R.Proc, got: R.Got)
    requires TakesUp(p, r, got)
    ensures r.jobs == p.jobs || Opened(r.jobs) == Opened(p.jobs) + NonEmpty(R.EventPath(got))
  {
    if r.jobs != p.jobs {
      assert r.jobs[..|p.jobs|] == p.jobs;
    }
  }

  function NonEmpty(path: Bytes): seq<Bytes> {
    if path == [] then [] else [path]
  }

  /** Serving a queue event adds what it was granted to the hand-outs of that thread alone. */
  lemma GrantIsHanded(q: Q.Sys, p: H.Sys, c: nat, d: nat)
    requires Q.Shape(q)
    ensures HandedTo(Consumed(q, p, c).handed, d)
         == HandedTo(q.handed, d)
            + if Wakes(p) && d == c then NonEmpty(R.EventPath(Grant(q, c))) else []
  {
    var r := Consumed(q, p, c);
    if r.handed != q.handed {
      assert r.handed[..|q.handed|] == q.handed;
    }
  }

  lemma ServeKeepsFed(x: Setup, s: Whole, a: Action, d: nat)
    requires Shape(x, s) && Enabled(x, s, a) && a.Serve? && d < |s.procs| && Fed(s, d)
    ensures Fed(Apply(x, s, a), d)
  {
    var t, c := Apply(x, s, a), a.c;
    GrantIsHanded(s.queue, s.procs[c], c, d);
    if d == c {
      ServeLogs(x.w, s.procs[c], a.env);
      if Wakes(s.procs[c]) {
        OpenedMore(s.procs[c].proc, t.procs[c].proc, a.env.got);
      } else {
        OpenedByPath(s.procs[c].proc.jobs, t.procs[c].proc.jobs);
      }
    }
  }

  lemma StepKeepsFed(x: Setup, s: Whole, a: Action, d: nat)
    requires Shape(x, s) && Enabled(x, s, a) && d < |s.procs| && Fed(s, d)
    ensures Fed(Apply(x, s, a), d)
  {
    if a.Serve? {
      ServeKeepsFed(x, s, a, d);
    } else if a.Kernel? {
      KernelLogs(x.w, s.procs[a.c], a.step);
    }
  }

  // ---------------------------------------------------------------------------
  // Processor to connection

  /** Streams were opened for the verifier calls, in order and with their payloads; a broken
      link has missed the call that broke it. */
  ghost predicate Delivers(link: Link, sent: seq<R.Sent>) {
    var os := link.conn.openings;
    && |os| <= |sent| && (!link.broken ==> |os| == |sent|)
    && (forall k | 0 <= k < |os| :: os[k].payload == sent[k].hash + sent[k].path)
  }

  ghost predicate Carries(s: Whole, c: nat)
    requires c < |s.procs| == |s.links|
  {
    Delivers(s.links[c], s.procs[c].proc.sent)
  }

  lemma CarriedDelivers(link: Link, before: seq<R.Sent>, after: seq<R.Sent>, stream: Option<int>,
                        flushes: bool, lib: V.Library)
    requires V.Inv(link.conn) && V.Conforms(lib) && !link.broken && Delivers(link, before)
    requires after == before || (|after| == |before| + 1 && before <= after)
    ensures Delivers(Carried(link, before, after, stream, flushes, lib), after)
  {
  }

  lemma StepKeepsCarries(x: Setup, s: Whole, a: Action, d: nat)
    requires Shape(x, s) && Enabled(x, s, a) && d < |s.procs| && Carries(s, d)
    ensures Carries(Apply(x, s, a), d)
  {
    if a.Serve? && a.c == d {
      ServeLogs(x.w, s.procs[d], a.env);
      CarriedDelivers(s.links[d], s.procs[d].proc.sent, Apply(x, s, a).procs[d].proc.sent, a.stream,
                      Flushes(s.procs[d], a.env), x.libs[d]);
    } else if a.Kernel? {
      KernelLogs(x.w, s.procs[a.c], a.step);
    }
  }

  // ---------------------------------------------------------------------------
  // Every run

  ghost predicate Joined(s: Whole) {
    && |s.procs| == |s.links|
    && (forall i | 0 <= i < |s.queue.handed| :: s.queue.handed[i].consumer < |s.procs|)
    && (forall c | 0 <= c < |s.procs| :: Fed(s, c) && Carries(s, c))
  }

  /** Only a serving thread is handed anything. */
  lemma StepKeepsHanded(x: Setup, s: Whole, a: Action)
    requires Shape(x, s) && Enabled(x, s, a)
    requires forall i | 0 <= i < |s.queue.handed| :: s.queue.handed[i].consumer < |s.procs|
    ensures var t := Apply(x, s, a);
            forall i | 0 <= i < |t.queue.handed| :: t.queue.handed[i].consumer < |t.procs|
  {
    HandedGrows(x, s, a);
    HandedWithin(s.queue.handed, Apply(x, s, a).queue.handed, |s.procs|);
  }

  lemma HandedWithin(before: seq<Q.Handed>, after: seq<Q.Handed>, n: nat)
    requires forall i | 0 <= i < |before| :: before[i].consumer < n
    requires after == before || (|after| == |before| + 1 && before <= after && after[|before|].consumer < n)
    ensures forall i | 0 <= i < |after| :: after[i].consumer < n
  {
  }

  lemma HandedGrows(x: Setup, s: Whole, a: Action)
    requires Shape(x, s) && Enabled(x, s, a)
    ensures var t := Apply(x, s, a);
            && |t.procs| == |s.procs|
            && (|| t.queue.handed == s.queue.handed
                || (|t.queue.handed| == |s.queue.handed| + 1 && s.queue.handed <= t.queue.handed
                    && t.queue.handed[|s.queue.handed|].consumer < |s.procs|))
  {
    var first := QueueStep(x, s, a);
  }

  lemma StepKeepsJoined(x: Setup, s: Whole, a: Action)
    requires Shape(x, s) && Enabled(x, s, a) && Joined(s)
    ensures Joined(Apply(x, s, a))
  {
    StepKeepsHanded(x, s, a);
    var t := Apply(x, s, a);
    forall d | 0 <= d < |t.procs| ensures Fed(t, d) && Carries(t, d) {
      StepKeepsFed(x, s, a, d);
      StepKeepsCarries(x, s, a, d);
    }
  }

  lemma {:induction false} RunKeepsJoined(x: Setup, s: Whole, acts: seq<Action>, t: Whole)
    requires Shape(x, s) && Runs(x, s, acts, t) && Joined(s)
    ensures Shape(x, t) && Joined(t)
    decreases |acts|
  {
    if acts != [] {
      StepKeepsJoined(x, s, acts[0]);
      RunKeepsJoined(x, Apply(x, s, acts[0]), acts[1..], t);
    }
  }

  /** In every run of the whole, every processor has been fed by the queue, and every
      connection by its processor. */
  lemma EveryRunJoined(x: Setup, acts: seq<Action>, t: Whole)
    requires Reaches(x, acts, t)
    ensures Shape(x, t) && Joined(t)
  {
    InitJoined(x);
    RunKeepsJoined(x, Init(x), acts, t);
  }

  lemma InitJoined(x: Setup)
    requires Starts(x)
    ensures Joined(Init(x))
  {
    var s := Init(x);
    forall c | 0 <= c < |s.procs| ensures Fed(s, c) && Carries(s, c) {
      assert s.procs[c].proc.jobs == [] && s.procs[c].proc.sent == [];
    }
  }
}
