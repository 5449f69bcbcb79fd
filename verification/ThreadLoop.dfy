/** The completion loop of one thread in place (ev_loop_run), batch after batch, with the
    kernel taking and posting in between: the rings, the memory and the descriptors go through
    the states of a run of `HashSystem`. */
module ThreadLoop {
  import opened Requests
  import opened Words
  import opened Processor
  import opened Scripts
  import E = EvLoop
  import S = SpscRing
  import R = Runtime
  import H = HashSystem
  import K = KernelSteps
  import T = HashTheorems

  /** Memory, descriptors, both rings and their histories are those of the state. */
  ghost predicate Linked(p: Proc, s: H.Sys)
    reads p, p.reqs, p.next, p.loop, p.loop.sqes, p.loop.cqes
  {
    p.Valid() && p.View() == s.proc && p.loop.cq.sent == s.posted
  }

  // ---------------------------------------------------------------------------
  // The kernel

  method PerformOpen(p: Proc, sqe: Sqe, res: int, ghost w: R.World)
    requires p.Valid() && sqe.opcode == OpenAt
    modifies p`fds, p`status
    ensures p.Valid() && p.View() == H.Perform(w, old(p.View()), sqe, res)
  {
    if !sqe.addr.Str? || sqe.addr.ptr !in p.strs || !sqe.id.Slot? || !H.ReadsOnly(sqe) {
      p.status := R.Faulted;
    } else if res >= 0 {
      p.fds := p.fds[res := R.OpenFile(p.strs[sqe.addr.ptr].path, sqe.id.index)];
    }
  }

  method PerformRead(p: Proc, w: R.World, sqe: Sqe, res: nat)
    requires p.Valid() && sqe.opcode == ReadOp && sqe.id.Slot? && res > 0
    modifies p`buffers, p`status
    ensures p.Valid() && p.View() == H.Perform(w, old(p.View()), sqe, res)
  {
    if sqe.fd !in p.fds || p.fds[sqe.fd].path !in w.files {
      p.status := R.Faulted;
      return;
    }
    var content := w.files[p.fds[sqe.fd].path];
    if !sqe.addr.Buf? || sqe.addr.index >= |p.buffers| || res > |p.buffers[sqe.addr.index]|
       || sqe.off + res > |content| {
      p.status := R.Faulted;
      return;
    }
    var b := p.buffers[sqe.addr.index];
    p.buffers := p.buffers[sqe.addr.index := content[sqe.off..sqe.off + res] + b[res..]];
  }

  /** What the kernel does to memory and descriptors. */
  method Perform(p: Proc, w: R.World, sqe: Sqe, res: int)
    requires p.Valid()
    modifies p`fds, p`buffers, p`status
    ensures p.Valid() && p.View() == H.Perform(w, old(p.View()), sqe, res)
  {
    if sqe.opcode == OpenAt {
      PerformOpen(p, sqe, res, w);
    } else if sqe.opcode == ReadOp && sqe.id.Slot? && res > 0 {
      PerformRead(p, w, sqe, res);
    }
  }

  /** The object of a finished SQE goes with its last completion. */
  method Finish(p: Proc, id: ReqId, pos: nat)
    requires p.Valid() && id in p.ios
    modifies p`ios
    ensures p.Valid()
    ensures p.View() == R.SetIo(old(p.View()), id, old(p.ios[id]).(loc := InCq(pos, |p.loop.cq.sent|)))
  {
    p.ios := p.ios[id := p.ios[id].(loc := InCq(pos, p.loop.posts))];
  }

  /** The kernel completes the SQE published at `pos`. */
  method Complete(p: Proc, w: R.World, pos: nat, res: int, more: bool, ghost s: H.Sys, ghost t: H.Sys)
    requires Linked(p, s) && KernelOk(w, s, H.Complete(pos, res, more), t, p.loop.cq.released + CQ_ENTRIES)
    modifies p`fds, p`buffers, p`status, p`ios, p.loop`cqTail, p.loop`posts, p.loop`cq, p.loop.cqes
    ensures Linked(p, t) && p.loop.cq.released == old(p.loop.cq.released)
  {
    var sqe := p.loop.log[pos];
    H.PerformFrame(w, s.proc, sqe, res);
    Perform(p, w, sqe, res);
    if !more {
      Finish(p, sqe.id, pos);
    }
    p.loop.KernelPosts(Cqe(sqe.id, res, more, pos));
  }

  /** The kernel's steps before a turn. */
  method KernelRuns(p: Proc, w: R.World, acts: seq<H.Action>, ghost states: seq<H.Sys>)
    requires KernelTrace(w, acts, states, p.loop.cq.released + CQ_ENTRIES) && Linked(p, states[0])
    modifies p`fds, p`buffers, p`status, p`ios, p.loop`cqTail, p.loop`posts, p.loop`cq, p.loop.cqes
    ensures Linked(p, states[|acts|]) && p.loop.cq.released == old(p.loop.cq.released)
  {
    var j := 0;
    while j < |acts|
      invariant j <= |acts| && Linked(p, states[j]) && p.loop.cq.released == old(p.loop.cq.released)
    {
      assert KernelOk(w, states[j], acts[j], states[j + 1], p.loop.cq.released + CQ_ENTRIES);
      KernelStep(p, w, acts[j], states[j], states[j + 1]);
      j := j + 1;
    }
  }

  method KernelStep(p: Proc, w: R.World, a: H.Action, ghost s: H.Sys, ghost t: H.Sys)
    requires Linked(p, s) && KernelOk(w, s, a, t, p.loop.cq.released + CQ_ENTRIES)
    modifies p`fds, p`buffers, p`status, p`ios, p.loop`cqTail, p.loop`posts, p.loop`cq, p.loop.cqes
    ensures Linked(p, t) && p.loop.cq.released == old(p.loop.cq.released)
  {
    if a.Complete? {
      Complete(p, w, a.pos, a.res, a.more, s, t);
    }
  }

  // ---------------------------------------------------------------------------
  // Dispatching

  /** Reaping puts the object in hand. */
  method Deliver(p: Proc, cqe: Cqe)
    requires p.Valid() && cqe.id in p.ios
    modifies p`ios
    ensures p.Valid()
    ensures p.View() == if cqe.more then old(p.View())
                        else R.SetIo(old(p.View()), cqe.id, old(p.ios[cqe.id]).(loc := Held))
  {
    if !cqe.more {
      p.ios := p.ios[cqe.id := p.ios[cqe.id].(loc := Held)];
    }
  }

  /** The completion is the machine's next, and its callback the machine's step. */
  method Serve(p: Proc, w: R.World, cqe: Cqe, env: H.Env, ghost s: H.Sys, ghost t: H.Sys)
    requires Linked(p, s) && ServeOk(w, s, env, t) && cqe == s.posted[s.reaped]
    modifies p, p.reqs, p.next, p.loop`sqTail, p.loop`log, p.loop`sq, p.loop.sqes
    ensures Linked(p, t)
  {
    Deliver(p, cqe);
    p.Dispatch(w, cqe, env);
  }

  /** The completion the counter selects is the machine's next. */
  method ServeAt(p: Proc, w: R.World, i: Word, env: H.Env, ghost words: seq<Word>, ghost from: nat, ghost k: nat,
                 ghost s: H.Sys, ghost t: H.Sys)
    returns (following: Word)
    requires Linked(p, s) && ServeOk(w, s, env, t) && p.loop.cq.released == from && E.Counting(words, from)
    requires s.reaped == from + k && k + 1 < |words| <= |s.posted| - from + 1 && i == words[k]
    modifies p, p.reqs, p.next, p.loop`sqTail, p.loop`log, p.loop`sq, p.loop.sqes
    ensures Linked(p, t) && following == words[k + 1]
  {
    var cqe;
    cqe, following := p.loop.CqeAt(i, words, from, k);
    Serve(p, w, cqe, env, s, t);
  }

  /** One turn of the dispatch loop: the kernel goes on, then the completion the counter
      selects is dispatched. */
  method TakeTurn(p: Proc, w: R.World, i: Word, turn: Turn, ghost words: seq<Word>, ghost from: nat, ghost k: nat,
                  ghost s: H.Sys, ghost tr: Trace)
    returns (following: Word)
    requires Linked(p, s) && p.loop.cq.released == from && TurnTrace(w, s, turn, tr, from + CQ_ENTRIES)
    requires s.reaped == from + k && k + 1 < |words| <= |s.posted| - from + 1 && i == words[k]
    requires E.Counting(words, from)
    modifies p, p.reqs, p.next, p.loop, p.loop.sqes, p.loop.cqes
    ensures Linked(p, tr.end) && p.loop.cq.released == from && following == words[k + 1]
  {
    OneTurn(w, s, turn, tr, from + CQ_ENTRIES);
    KernelRuns(p, w, turn.kernel, tr.states);
    following := ServeAt(p, w, i, turn.env, words, from, k, tr.states[|turn.kernel|], tr.end);
  }

  /** The first k turns are taken and the counter is at the next. */
  ghost predicate Going(p: Proc, i: Word, words: seq<Word>, from: nat, k: nat, s: H.Sys, trs: seq<Trace>)
    reads p, p.reqs, p.next, p.loop, p.loop.sqes, p.loop.cqes
  {
    k <= |trs| && k < |words| && Linked(p, StartOf(s, trs, k)) && p.loop.cq.released == from && i == words[k]
  }

  /** The batch: its turns lead from `s` to `t`, and the counter meets the tail only at its end. */
  ghost predicate Batched(w: R.World, tail: Word, turns: seq<Turn>, words: seq<Word>, from: nat, s: H.Sys,
                          trs: seq<Trace>, t: H.Sys) {
    && s.reaped == from && from + |turns| <= |s.posted| && TurnsTrace(w, s, turns, trs, t, from + CQ_ENTRIES)
    && |words| == |turns| + 1 && E.Counting(words, from) && tail == words[|turns|]
    && (forall j | 0 <= j < |turns| :: words[j] != tail)
  }

  method NextStep(p: Proc, w: R.World, i: Word, ghost tail: Word, turns: seq<Turn>, ghost words: seq<Word>,
                  ghost from: nat, k: nat, ghost s: H.Sys, ghost trs: seq<Trace>, ghost t: H.Sys)
    returns (following: Word)
    requires Going(p, i, words, from, k, s, trs) && i != tail && p.status == R.Running
    requires Batched(w, tail, turns, words, from, s, trs, t)
    modifies p, p.reqs, p.next, p.loop, p.loop.sqes, p.loop.cqes
    ensures k < |turns| && Going(p, following, words, from, k + 1, s, trs)
  {
    assert k != |turns|;
    assert StartOf(s, trs, k).proc.status == R.Running;
    NextTurn(w, s, turns, trs, t, from + CQ_ENTRIES, k);
    following := TakeTurn(p, w, i, turns[k], words, from, k, StartOf(s, trs, k), trs[k]);
  }

  /** The loop over the wrapping counter. */
  method DispatchAll(p: Proc, w: R.World, tail: Word, turns: seq<Turn>, ghost words: seq<Word>, ghost from: nat,
                     ghost s: H.Sys, ghost trs: seq<Trace>, ghost t: H.Sys)
    requires Going(p, p.loop.cqHead, words, from, 0, s, trs) && Batched(w, tail, turns, words, from, s, trs, t)
    modifies p, p.reqs, p.next, p.loop, p.loop.sqes, p.loop.cqes
    ensures Linked(p, t) && p.loop.cq.released == from
    ensures p.status == R.Running ==> t.reaped == from + |turns| <= |t.posted|
  {
    var i, k := p.loop.cqHead, 0;
    while i != tail && p.status == R.Running
      invariant Going(p, i, words, from, k, s, trs)
      decreases |turns| - k
    {
      i := NextStep(p, w, i, tail, turns, words, from, k, s, trs, t);
      k := k + 1;
    }
    LoopEnds(p, w, i, tail, turns, words, from, k, s, trs, t);
  }

  /** The loop ends with the last turn, or with the one that exits. */
  lemma LoopEnds(p: Proc, w: R.World, i: Word, tail: Word, turns: seq<Turn>, words: seq<Word>, from: nat, k: nat,
                 s: H.Sys, trs: seq<Trace>, t: H.Sys)
    requires Going(p, i, words, from, k, s, trs) && (i == tail || p.status != R.Running)
    requires Batched(w, tail, turns, words, from, s, trs, t)
    ensures Linked(p, t) && p.loop.cq.released == from
    ensures p.status == R.Running ==> t.reaped == from + |turns| <= |t.posted|
  {
    if p.status == R.Running {
      assert k == |turns|;
    }
    LastTurn(w, s, turns, trs, t, from + CQ_ENTRIES, k);
  }

  /** Everything is where the state says, and what was reaped has been released. */
  ghost predicate Between(p: Proc, s: H.Sys)
    reads p, p.reqs, p.next, p.loop, p.loop.sqes, p.loop.cqes
  {
    Linked(p, s) && (s.proc.status == R.Running ==> p.loop.cq.released == s.reaped)
  }

  /** The counter's values in a batch of n completions. */
  lemma Loaded(p: Proc, from: nat, n: nat, at: nat) returns (words: seq<Word>)
    requires p.Valid() && p.loop.cq.released == from && at == from + n <= |p.loop.cq.sent|
    ensures S.Enabled(p.loop.cq, S.LoadTail(at)) && |words| == n + 1 && E.Counting(words, from)
    ensures p.loop.cqHead == words[0] == Wrap(from) && words[n] == Wrap(at)
    ensures forall j | 0 <= j < n :: words[j] != words[n]
  {
    words := E.Counters(from, n);
    E.NoEarlyEnd(p.loop.cq, words);
  }

  /** The one store that ends a batch. */
  method EndBatch(p: Proc, tail: Word, ghost from: nat, ghost n: nat, ghost at: nat, ghost t: H.Sys)
    requires Linked(p, t) && p.loop.cq.released == from && t.reaped == at == from + n <= |t.posted|
    requires tail == Wrap(at)
    modifies p.loop`cqHead, p.loop`cq
    ensures Linked(p, t) && p.loop.cq.released == t.reaped && p.loop.cqHead == tail
  {
    ghost var words := Loaded(p, from, n, at);
    p.loop.Release(tail, at);
  }

  /** One pass of ev_loop_run from the loaded tail: every completion between the published
      head and that tail is dispatched, oldest first and once, while the kernel goes on; all
      are then released in one store, unless a callback exits. */
  method RunBatch(p: Proc, w: R.World, tail: Word, ghost at: nat, turns: seq<Turn>, ghost s: H.Sys,
                  ghost trs: seq<Trace>, ghost t: H.Sys)
    requires Linked(p, s) && p.loop.cq.released == s.reaped && at == s.reaped + |turns| <= |s.posted|
    requires tail == Wrap(at) && TurnsTrace(w, s, turns, trs, t, s.reaped + CQ_ENTRIES)
    modifies p, p.reqs, p.next, p.loop, p.loop.sqes, p.loop.cqes
    ensures Between(p, t)
    ensures p.status == R.Running ==> p.loop.cqHead == tail && t.reaped == at
  {
    ghost var words := Loaded(p, s.reaped, |turns|, at);
    DispatchAll(p, w, tail, turns, words, s.reaped, s, trs, t);
    if p.status == R.Running {
      EndBatch(p, tail, s.reaped, |turns|, at, t);
    }
  }

  /** The completion ring's tail as the kernel had published it n completions past the head. */
  method LoadTail(p: Proc, n: nat, ghost from: nat, ghost at: nat) returns (tail: Word)
    requires p.Valid() && p.loop.cq.released == from && at == from + n <= |p.loop.cq.sent|
    ensures tail == Wrap(at)
  {
    tail := Add(p.loop.cqHead, n);
    ghost var words := Loaded(p, from, n, at);
    AddWrap(from, n);
  }

  method RunTraced(p: Proc, w: R.World, b: Batch, ghost s: H.Sys, ghost states: seq<H.Sys>, ghost trs: seq<Trace>,
                   ghost t: H.Sys)
    requires Linked(p, s) && p.loop.cq.released == s.reaped && BatchTrace(w, s, b, states, trs, t)
    modifies p, p.reqs, p.next, p.loop, p.loop.sqes, p.loop.cqes
    ensures Between(p, t)
  {
    KernelRuns(p, w, b.before, states);
    ghost var at := s.reaped + |b.turns|;
    var tail := LoadTail(p, |b.turns|, s.reaped, at);
    RunBatch(p, w, tail, at, b.turns, states[|b.before|], trs, t);
  }

  method RunOne(p: Proc, w: R.World, b: Batch, ghost s: H.Sys)
    requires Between(p, s) && K.Inv(w, s) && s.proc.status == R.Running && BatchPossible(w, s, b)
    modifies p, p.reqs, p.next, p.loop, p.loop.sqes, p.loop.cqes
    ensures Between(p, PlayBatch(w, s, b)) && K.Inv(w, PlayBatch(w, s, b))
  {
    ghost var states, trs := TraceBatch(w, s, b);
    RunTraced(p, w, b, s, states, trs, PlayBatch(w, s, b));
  }

  /** ev_loop_run, as long as no callback exits. */
  method RunLoop(p: Proc, w: R.World, bs: seq<Batch>, ghost s: H.Sys)
    requires Between(p, s) && K.Inv(w, s) && AllPossible(w, s, bs)
    modifies p, p.reqs, p.next, p.loop, p.loop.sqes, p.loop.cqes
    ensures Between(p, PlayAll(w, s, bs)) && K.Inv(w, PlayAll(w, s, bs))
  {
    ghost var cur := s;
    assert bs[0..] == bs;
    var k := 0;
    while k < |bs| && p.status == R.Running
      invariant k <= |bs| && Between(p, cur) && K.Inv(w, cur)
      invariant AllPossible(w, cur, bs[k..]) && PlayAll(w, cur, bs[k..]) == PlayAll(w, s, bs)
    {
      NextBatch(w, cur, bs, k);
      RunOne(p, w, bs[k], cur);
      cur := PlayBatch(w, cur, bs[k]);
      k := k + 1;
    }
  }

  /** A fresh thread and any number of batches: the thread ends in a state the machine
      reaches from its start. */
  method RunThread(w: R.World, nrTasks: nat, buffers: seq<Bytes>, bs: seq<Batch>, blankSqe: Sqe, blankCqe: Cqe)
    returns (p: Proc, ghost t: H.Sys, ghost run: seq<H.Action>)
    requires nrTasks > 0 && T.Buffers(nrTasks, buffers) && AllPossible(w, H.Init(nrTasks, buffers), bs)
    ensures Between(p, t) && t == PlayAll(w, H.Init(nrTasks, buffers), bs)
    ensures T.Reaches(w, nrTasks, buffers, run, t)
  {
    p := new Proc(nrTasks, buffers, blankSqe, blankCqe);
    p.Start(nrTasks, buffers);
    ghost var s := H.Init(nrTasks, buffers);
    T.InitHolds(w, nrTasks, buffers);
    RunLoop(p, w, bs, s);
    t := PlayAll(w, s, bs);
    run := LoopIsRun(w, s, bs);
  }
}
