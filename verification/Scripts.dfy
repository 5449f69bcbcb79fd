/** What happens while a thread's loop goes round, as a script: kernel steps, and the
    completions dispatched among them.  Playing a script is a run of the state machine. */
module Scripts {
  import opened Requests
  import R = Runtime
  import H = HashSystem
  import O = Ownership
  import K = KernelSteps
  import T = HashTheorems

  /** One turn of the dispatch loop: what the kernel does before it, and what its callback
      observes. */
  datatype Turn = Turn(kernel: seq<H.Action>, env: H.Env)

  /** One pass of the loop: what the kernel does before the tail is loaded, and the turns. */
  datatype Batch = Batch(before: seq<H.Action>, turns: seq<Turn>)

  ghost predicate OnlyKernel(acts: seq<H.Action>) {
    forall a | 0 <= a < |acts| :: !acts[a].Dispatch?
  }

  function Flatten(turns: seq<Turn>): seq<H.Action> {
    if turns == [] then [] else turns[0].kernel + ([H.Dispatch(turns[0].env)] + Flatten(turns[1..]))
  }

  // ---------------------------------------------------------------------------
  // One script

  /** Each step is one the kernel or the environment may take, and the completion ring has
      room: no completion is posted at or beyond `limit`. */
  ghost predicate Possible(w: R.World, s: H.Sys, acts: seq<H.Action>, limit: nat)
    decreases |acts|
  {
    acts == [] || s.proc.status != R.Running
    || (H.Enabled(w, s, acts[0]) && (acts[0].Complete? ==> |s.posted| < limit)
        && Possible(w, H.Apply(w, s, acts[0]), acts[1..], limit))
  }

  /** The steps in order, until one of them exits. */
  ghost function Play(w: R.World, s: H.Sys, acts: seq<H.Action>, limit: nat): H.Sys
    requires Possible(w, s, acts, limit)
    decreases |acts|
  {
    if acts == [] || s.proc.status != R.Running then s
    else Play(w, H.Apply(w, s, acts[0]), acts[1..], limit)
  }

  lemma RunsFirst(w: R.World, s: H.Sys, a: H.Action, rest: seq<H.Action>, t: H.Sys)
    requires H.Enabled(w, s, a) && H.Runs(w, H.Apply(w, s, a), rest, t)
    ensures H.Runs(w, s, [a] + rest, t)
  {
    assert ([a] + rest)[1..] == rest;
  }

  /** A run may start with a script. */
  lemma {:induction false} PlayThenRun(w: R.World, s: H.Sys, acts: seq<H.Action>, limit: nat, rest: seq<H.Action>,
                                       t: H.Sys)
    returns (run: seq<H.Action>)
    requires Possible(w, s, acts, limit) && H.Runs(w, Play(w, s, acts, limit), rest, t)
    ensures H.Runs(w, s, run, t)
    decreases |acts|
  {
    if acts == [] || s.proc.status != R.Running {
      run := rest;
    } else {
      var later := PlayThenRun(w, H.Apply(w, s, acts[0]), acts[1..], limit, rest, t);
      RunsFirst(w, s, acts[0], later, t);
      run := [acts[0]] + later;
    }
  }

  /** What serving the next completion in place relies on. */
  ghost predicate Ready(w: R.World, s: H.Sys, env: H.Env) {
    && H.Enabled(w, s, H.Dispatch(env)) && H.Shape(H.Reap(s).proc)
    && var id := s.posted[s.reaped].id; id.Slot? ==> id.index !in s.proc.free
  }

  /** What a kernel step in place relies on. */
  ghost predicate Lands(w: R.World, s: H.Sys, a: H.Action, limit: nat) {
    && !a.Dispatch? && H.Enabled(w, s, a) && H.Apply(w, s, a).proc.status == R.Running
    && (a.Complete? ==> |s.posted| < limit)
  }

  lemma OffTheList(s: H.Sys)
    requires O.Own(s) && s.reaped < |s.posted|
    ensures var id := s.posted[s.reaped].id; id.Slot? ==> id.index !in s.proc.free
  {
    assert O.CqeOk(s, s.reaped);
    var id := s.posted[s.reaped].id;
    assert id.Slot? ==> id.index < |s.proc.slots|;
  }

  lemma KernelRunning(w: R.World, s: H.Sys, a: H.Action)
    requires H.Enabled(w, s, a) && !a.Dispatch? && H.Apply(w, s, a).proc.status != R.Faulted
    ensures H.Apply(w, s, a).proc.status == R.Running
  {
    if a.Complete? {
      H.PerformFrame(w, s.proc, s.proc.subs[a.pos], a.res);
    }
  }

  /** The first step of a script, from a reachable state. */
  lemma Advance(w: R.World, s: H.Sys, first: H.Action, rest: seq<H.Action>, limit: nat) returns (t: H.Sys)
    requires K.Inv(w, s) && Possible(w, s, [first] + rest, limit) && s.proc.status == R.Running
    ensures H.Enabled(w, s, first) && t == H.Apply(w, s, first) && K.Inv(w, t)
    ensures first.Complete? ==> |s.posted| < limit
    ensures Possible(w, t, rest, limit) && Play(w, t, rest, limit) == Play(w, s, [first] + rest, limit)
  {
    assert ([first] + rest)[0] == first && ([first] + rest)[1..] == rest;
    t := H.Apply(w, s, first);
    T.StepKeeps(w, s, first);
  }

  lemma InvReady(w: R.World, s: H.Sys, env: H.Env)
    requires K.Inv(w, s) && H.Enabled(w, s, H.Dispatch(env))
    ensures Ready(w, s, env)
  {
    H.ReapShape(s);
    OffTheList(s);
  }

  lemma InvLands(w: R.World, s: H.Sys, a: H.Action, limit: nat)
    requires H.Enabled(w, s, a) && !a.Dispatch? && K.Inv(w, H.Apply(w, s, a))
    requires a.Complete? ==> |s.posted| < limit
    ensures Lands(w, s, a, limit)
  {
    KernelRunning(w, s, a);
  }

  // ---------------------------------------------------------------------------
  // The states a script goes through

  ghost predicate KernelOk(w: R.World, s: H.Sys, a: H.Action, t: H.Sys, limit: nat) {
    Lands(w, s, a, limit) && t == H.Apply(w, s, a)
  }

  ghost predicate ServeOk(w: R.World, s: H.Sys, env: H.Env, t: H.Sys) {
    Ready(w, s, env) && t == H.Apply(w, s, H.Dispatch(env))
  }

  /** The states around the kernel's steps of a turn, and the state after its callback. */
  datatype Trace = Trace(states: seq<H.Sys>, end: H.Sys)

  ghost predicate KernelTrace(w: R.World, acts: seq<H.Action>, states: seq<H.Sys>, limit: nat) {
    && |states| == |acts| + 1
    && (forall j | 0 <= j < |acts| :: KernelOk(w, states[j], acts[j], states[j + 1], limit))
  }

  ghost predicate TurnTrace(w: R.World, s: H.Sys, turn: Turn, tr: Trace, limit: nat) {
    && s.proc.status == R.Running && KernelTrace(w, turn.kernel, tr.states, limit) && tr.states[0] == s
    && ServeOk(w, tr.states[|turn.kernel|], turn.env, tr.end)
  }

  function StartOf(s: H.Sys, trs: seq<Trace>, k: nat): H.Sys
    requires k <= |trs|
  {
    if k == 0 then s else trs[k - 1].end
  }

  /** The turns of a batch, from `s` to `t`; all of them, unless a callback exits. */
  ghost predicate TurnsTrace(w: R.World, s: H.Sys, turns: seq<Turn>, trs: seq<Trace>, t: H.Sys, limit: nat) {
    && |trs| <= |turns| && t == StartOf(s, trs, |trs|) && (t.proc.status == R.Running ==> |trs| == |turns|)
    && (forall k | 0 <= k < |trs| :: TurnTrace(w, StartOf(s, trs, k), turns[k], trs[k], limit))
    && (forall k | 0 <= k <= |trs| :: Counted(s, StartOf(s, trs, k), k))
  }

  /** `t` has reaped k more than `s`, and no completion was taken back. */
  ghost predicate Counted(s: H.Sys, t: H.Sys, k: nat) {
    t.reaped == s.reaped + k && |s.posted| <= |t.posted|
  }

  /** The kernel reaps nothing and takes no completion back. */
  lemma {:induction false} KernelCounts(w: R.World, acts: seq<H.Action>, states: seq<H.Sys>, limit: nat, j: nat)
    requires KernelTrace(w, acts, states, limit) && j <= |acts|
    ensures states[j].reaped == states[0].reaped && |states[0].posted| <= |states[j].posted|
  {
    if j > 0 {
      KernelCounts(w, acts, states, limit, j - 1);
      assert KernelOk(w, states[j - 1], acts[j - 1], states[j - 1 + 1], limit);
    }
  }

  lemma OneTurn(w: R.World, s: H.Sys, turn: Turn, tr: Trace, limit: nat)
    requires TurnTrace(w, s, turn, tr, limit)
    ensures var u := tr.states[|turn.kernel|];
            && u.reaped == s.reaped && |s.posted| <= |u.posted|
            && Counted(s, tr.end, 1)
  {
    KernelCounts(w, turn.kernel, tr.states, limit, |turn.kernel|);
  }

  /** A turn that is still to come. */
  lemma NextTurn(w: R.World, s: H.Sys, turns: seq<Turn>, trs: seq<Trace>, t: H.Sys, limit: nat, k: nat)
    requires TurnsTrace(w, s, turns, trs, t, limit) && k <= |trs| && k < |turns|
    requires StartOf(s, trs, k).proc.status == R.Running
    ensures k < |trs| && TurnTrace(w, StartOf(s, trs, k), turns[k], trs[k], limit)
    ensures StartOf(s, trs, k).reaped == s.reaped + k && |s.posted| <= |StartOf(s, trs, k).posted|
  {
    assert Counted(s, StartOf(s, trs, k), k);
  }

  lemma StillRunning(w: R.World, s: H.Sys, turns: seq<Turn>, trs: seq<Trace>, t: H.Sys, limit: nat, k: nat)
    requires TurnsTrace(w, s, turns, trs, t, limit) && k < |trs|
    ensures StartOf(s, trs, k).proc.status == R.Running
  {
    assert TurnTrace(w, StartOf(s, trs, k), turns[k], trs[k], limit);
  }

  lemma LastTurn(w: R.World, s: H.Sys, turns: seq<Turn>, trs: seq<Trace>, t: H.Sys, limit: nat, k: nat)
    requires TurnsTrace(w, s, turns, trs, t, limit) && k <= |trs|
    requires StartOf(s, trs, k).proc.status == R.Running ==> k == |turns|
    ensures StartOf(s, trs, k) == t && |s.posted| <= |t.posted|
    ensures t.proc.status == R.Running ==> t.reaped == s.reaped + |turns|
  {
    if k < |trs| {
      StillRunning(w, s, turns, trs, t, limit, k);
    }
    assert k == |trs|;
    assert Counted(s, StartOf(s, trs, k), k);
  }

  lemma TraceStep(w: R.World, s: H.Sys, acts: seq<H.Action>, rest: seq<H.Action>, limit: nat) returns (t: H.Sys)
    requires K.Inv(w, s) && s.proc.status == R.Running && acts != [] && !acts[0].Dispatch?
    requires Possible(w, s, acts + rest, limit)
    ensures KernelOk(w, s, acts[0], t, limit) && K.Inv(w, t) && t.proc.status == R.Running
    ensures Possible(w, t, acts[1..] + rest, limit)
    ensures Play(w, t, acts[1..] + rest, limit) == Play(w, s, acts + rest, limit)
  {
    assert acts + rest == [acts[0]] + (acts[1..] + rest);
    t := Advance(w, s, acts[0], acts[1..] + rest, limit);
    InvLands(w, s, acts[0], limit);
  }

  lemma {:induction false} TraceKernel(w: R.World, s: H.Sys, acts: seq<H.Action>, rest: seq<H.Action>, limit: nat)
    returns (states: seq<H.Sys>)
    requires K.Inv(w, s) && s.proc.status == R.Running && OnlyKernel(acts) && Possible(w, s, acts + rest, limit)
    ensures KernelTrace(w, acts, states, limit) && states[0] == s
    ensures var t := states[|acts|];
            && K.Inv(w, t) && t.proc.status == R.Running && Possible(w, t, rest, limit)
            && Play(w, t, rest, limit) == Play(w, s, acts + rest, limit)
    decreases |acts|
  {
    if acts == [] {
      assert acts + rest == rest;
      states := [s];
    } else {
      var t := TraceStep(w, s, acts, rest, limit);
      var later := TraceKernel(w, t, acts[1..], rest, limit);
      states := KernelFirst(w, s, acts, later, limit);
    }
  }

  lemma KernelFirst(w: R.World, s: H.Sys, acts: seq<H.Action>, later: seq<H.Sys>, limit: nat)
    returns (states: seq<H.Sys>)
    requires acts != [] && KernelTrace(w, acts[1..], later, limit) && KernelOk(w, s, acts[0], later[0], limit)
    ensures KernelTrace(w, acts, states, limit) && states[0] == s && states[|acts|] == later[|acts[1..]|]
  {
    states := [s] + later;
    forall j | 0 <= j < |acts| ensures KernelOk(w, states[j], acts[j], states[j + 1], limit) {
      if j > 0 {
        assert KernelOk(w, later[j - 1], acts[1..][j - 1], later[j - 1 + 1], limit);
      }
    }
  }

  lemma TraceTurn(w: R.World, s: H.Sys, turn: Turn, rest: seq<H.Action>, limit: nat) returns (tr: Trace)
    requires K.Inv(w, s) && s.proc.status == R.Running && OnlyKernel(turn.kernel)
    requires Possible(w, s, turn.kernel + ([H.Dispatch(turn.env)] + rest), limit)
    ensures TurnTrace(w, s, turn, tr, limit) && K.Inv(w, tr.end) && Possible(w, tr.end, rest, limit)
    ensures Play(w, tr.end, rest, limit) == Play(w, s, turn.kernel + ([H.Dispatch(turn.env)] + rest), limit)
  {
    var states := TraceKernel(w, s, turn.kernel, [H.Dispatch(turn.env)] + rest, limit);
    var t := Advance(w, states[|turn.kernel|], H.Dispatch(turn.env), rest, limit);
    InvReady(w, states[|turn.kernel|], turn.env);
    tr := Trace(states, t);
  }

  lemma {:induction false} TraceTurns(w: R.World, s: H.Sys, turns: seq<Turn>, limit: nat) returns (trs: seq<Trace>)
    requires K.Inv(w, s) && (forall k | 0 <= k < |turns| :: OnlyKernel(turns[k].kernel))
    requires Possible(w, s, Flatten(turns), limit)
    ensures TurnsTrace(w, s, turns, trs, Play(w, s, Flatten(turns), limit), limit)
    ensures K.Inv(w, Play(w, s, Flatten(turns), limit))
    decreases |turns|
  {
    if turns == [] || s.proc.status != R.Running {
      trs := [];
    } else {
      var tr := TraceTurn(w, s, turns[0], Flatten(turns[1..]), limit);
      var later := TraceTurns(w, tr.end, turns[1..], limit);
      OneTurn(w, s, turns[0], tr, limit);
      TurnsFirst(w, s, turns, tr, later, Play(w, s, Flatten(turns), limit), limit);
      trs := [tr] + later;
    }
  }

  lemma LaterTurn(s: H.Sys, turns: seq<Turn>, tr: Trace, later: seq<Trace>, k: nat)
    requires 0 < k <= |later| + 1 && |later| < |turns|
    ensures k <= |later| ==> turns[1..][k - 1] == turns[k] && ([tr] + later)[k] == later[k - 1]
    ensures StartOf(tr.end, later, k - 1) == StartOf(s, [tr] + later, k)
  {
  }

  lemma TurnsFirst(w: R.World, s: H.Sys, turns: seq<Turn>, tr: Trace, later: seq<Trace>, t: H.Sys, limit: nat)
    requires turns != [] && TurnTrace(w, s, turns[0], tr, limit) && Counted(s, tr.end, 1)
    requires TurnsTrace(w, tr.end, turns[1..], later, t, limit)
    ensures TurnsTrace(w, s, turns, [tr] + later, t, limit)
  {
    var trs := [tr] + later;
    forall k | 0 <= k < |trs| ensures TurnTrace(w, StartOf(s, trs, k), turns[k], trs[k], limit) {
      if k > 0 {
        LaterTurn(s, turns, tr, later, k);
        assert TurnTrace(w, StartOf(tr.end, later, k - 1), turns[1..][k - 1], later[k - 1], limit);
      }
    }
    forall k | 0 <= k <= |trs| ensures Counted(s, StartOf(s, trs, k), k) {
      if k > 0 {
        LaterTurn(s, turns, tr, later, k);
        assert Counted(tr.end, StartOf(tr.end, later, k - 1), k - 1);
      }
    }
  }

  // ---------------------------------------------------------------------------
  // Batch after batch

  /** A batch from `s`, where everything before `s.reaped` has been released: the tail loaded
      after `before` covers the turns, and the ring has room up to the published head. */
  ghost predicate BatchPossible(w: R.World, s: H.Sys, b: Batch) {
    var limit := s.reaped + CQ_ENTRIES;
    && OnlyKernel(b.before) && (forall k | 0 <= k < |b.turns| :: OnlyKernel(b.turns[k].kernel))
    && Possible(w, s, b.before, limit)
    && var u := Play(w, s, b.before, limit);
       s.reaped + |b.turns| <= |u.posted| && Possible(w, u, Flatten(b.turns), limit)
  }

  ghost function PlayBatch(w: R.World, s: H.Sys, b: Batch): H.Sys
    requires BatchPossible(w, s, b)
  {
    var limit := s.reaped + CQ_ENTRIES;
    Play(w, Play(w, s, b.before, limit), Flatten(b.turns), limit)
  }

  ghost predicate AllPossible(w: R.World, s: H.Sys, bs: seq<Batch>)
    decreases |bs|
  {
    bs == [] || s.proc.status != R.Running
    || (BatchPossible(w, s, bs[0]) && AllPossible(w, PlayBatch(w, s, bs[0]), bs[1..]))
  }

  ghost function PlayAll(w: R.World, s: H.Sys, bs: seq<Batch>): H.Sys
    requires AllPossible(w, s, bs)
    decreases |bs|
  {
    if bs == [] || s.proc.status != R.Running then s else PlayAll(w, PlayBatch(w, s, bs[0]), bs[1..])
  }

  lemma TraceBefore(w: R.World, s: H.Sys, acts: seq<H.Action>, limit: nat) returns (states: seq<H.Sys>)
    requires K.Inv(w, s) && s.proc.status == R.Running && OnlyKernel(acts) && Possible(w, s, acts, limit)
    ensures KernelTrace(w, acts, states, limit) && states[0] == s
    ensures states[|acts|] == Play(w, s, acts, limit) && K.Inv(w, states[|acts|])
    ensures states[|acts|].reaped == s.reaped
  {
    assert acts + [] == acts;
    states := TraceKernel(w, s, acts, [], limit);
    KernelCounts(w, acts, states, limit, |acts|);
  }

  /** The states of a batch: around the kernel's steps before it, then turn by turn to `t`. */
  ghost predicate BatchTrace(w: R.World, s: H.Sys, b: Batch, states: seq<H.Sys>, trs: seq<Trace>, t: H.Sys) {
    && KernelTrace(w, b.before, states, s.reaped + CQ_ENTRIES) && states[0] == s
    && var u := states[|b.before|];
       && u.reaped == s.reaped && s.reaped + |b.turns| <= |u.posted|
       && TurnsTrace(w, u, b.turns, trs, t, s.reaped + CQ_ENTRIES)
  }

  lemma TraceAfter(w: R.World, s: H.Sys, b: Batch, u: H.Sys) returns (trs: seq<Trace>)
    requires BatchPossible(w, s, b) && u == Play(w, s, b.before, s.reaped + CQ_ENTRIES) && K.Inv(w, u)
    ensures s.reaped + |b.turns| <= |u.posted| && K.Inv(w, PlayBatch(w, s, b))
    ensures TurnsTrace(w, u, b.turns, trs, PlayBatch(w, s, b), s.reaped + CQ_ENTRIES)
  {
    trs := TraceTurns(w, u, b.turns, s.reaped + CQ_ENTRIES);
  }

  lemma TraceBatch(w: R.World, s: H.Sys, b: Batch) returns (states: seq<H.Sys>, trs: seq<Trace>)
    requires K.Inv(w, s) && s.proc.status == R.Running && BatchPossible(w, s, b)
    ensures BatchTrace(w, s, b, states, trs, PlayBatch(w, s, b)) && K.Inv(w, PlayBatch(w, s, b))
  {
    states := TraceBefore(w, s, b.before, s.reaped + CQ_ENTRIES);
    trs := TraceAfter(w, s, b, states[|b.before|]);
  }

  lemma NextBatch(w: R.World, s: H.Sys, bs: seq<Batch>, k: nat)
    requires k < |bs| && s.proc.status == R.Running && AllPossible(w, s, bs[k..])
    ensures BatchPossible(w, s, bs[k]) && AllPossible(w, PlayBatch(w, s, bs[k]), bs[k + 1..])
    ensures PlayAll(w, PlayBatch(w, s, bs[k]), bs[k + 1..]) == PlayAll(w, s, bs[k..])
  {
    assert bs[k..][0] == bs[k] && bs[k..][1..] == bs[k + 1..];
  }

  lemma BatchThenRun(w: R.World, s: H.Sys, b: Batch, rest: seq<H.Action>, t: H.Sys) returns (run: seq<H.Action>)
    requires BatchPossible(w, s, b) && H.Runs(w, PlayBatch(w, s, b), rest, t)
    ensures H.Runs(w, s, run, t)
  {
    var limit := s.reaped + CQ_ENTRIES;
    var u := BatchParts(w, s, b, limit);
    var later := PlayThenRun(w, u, Flatten(b.turns), limit, rest, t);
    run := PlayThenRun(w, s, b.before, limit, later, t);
  }

  lemma BatchParts(w: R.World, s: H.Sys, b: Batch, limit: nat) returns (u: H.Sys)
    requires BatchPossible(w, s, b) && limit == s.reaped + CQ_ENTRIES
    ensures Possible(w, s, b.before, limit) && u == Play(w, s, b.before, limit)
    ensures Possible(w, u, Flatten(b.turns), limit) && PlayBatch(w, s, b) == Play(w, u, Flatten(b.turns), limit)
  {
    u := Play(w, s, b.before, limit);
  }

  /** Whatever kernel and environment may do over any number of batches is a run. */
  lemma {:induction false} LoopIsRun(w: R.World, s: H.Sys, bs: seq<Batch>) returns (run: seq<H.Action>)
    requires AllPossible(w, s, bs)
    ensures H.Runs(w, s, run, PlayAll(w, s, bs))
    decreases |bs|
  {
    if bs == [] || s.proc.status != R.Running {
      run := [];
    } else {
      var later := LoopIsRun(w, PlayBatch(w, s, bs[0]), bs[1..]);
      run := BatchThenRun(w, s, bs[0], later, PlayAll(w, s, bs));
    }
  }
}
