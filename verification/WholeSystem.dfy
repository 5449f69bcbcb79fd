/** The producer, the queue, every processor thread with its kernel ring, and every thread's
    QUIC connection as one state machine.  A processor's queue callback takes its event from
    the queue, and each of its verifier calls goes through its own connection. */
module WholeSystem {
  import opened Requests
  import Q = EventQueue
  import R = Runtime
  import H = HashSystem
  import T = HashTheorems
  import V = QuicSlot
  import X = Expiry
  import D = Verdicts

  /** What a run starts from: the files, the slab size, and per thread its read buffers, its
      stream buffer and its transport. */
  datatype Setup = Setup(
    w: R.World, n: nat, events: seq<Q.Event>, buffers: seq<seq<Bytes>>, datas: seq<Bytes>, libs: seq<V.Library>)

  ghost predicate Starts(x: Setup) {
    && |x.libs| > 0 && |x.events| == Q.QUEUE_SIZE && |x.buffers| == |x.datas| == |x.libs|
    && (forall c | 0 <= c < |x.libs| ::
          V.Conforms(x.libs[c]) && T.Buffers(x.n, x.buffers[c]) && |x.datas[c]| == V.SLOT_SIZE)
  }

  /** A connection; `broken` once a stream could not be opened or a report did not fit the slot,
      where the source goes on with a bad slot number or past the buffer. */
  datatype Link = Link(conn: V.Connection, broken: bool)

  datatype Whole = Whole(queue: Q.Sys, procs: seq<H.Sys>, links: seq<Link>)

  datatype Action =
    | Produce(event: Q.Event)                             // queue_add
    | Notify                                              // eventfd_write
    | Lock(c: nat)                                        // thread c spends a token, holding the lock
    | Kernel(c: nat, step: H.Action)                      // thread c's kernel ring moves
    | Serve(c: nat, env: H.Env, stream: Option<int>, expiry: X.Uint64, now: X.Uint64)
                                                          // thread c serves its next completion

  ghost predicate Shape(x: Setup, s: Whole) {
    && Starts(x) && Q.Shape(s.queue)
    && |s.procs| == |s.links| == |s.queue.tokens| == |x.libs|
    && (forall c | 0 <= c < |s.links| :: V.Inv(s.links[c].conn))
  }

  /** The next completion is a queue event that will try to consume. */
  predicate Wakes(s: H.Sys) {
    && s.reaped < |s.posted| && s.posted[s.reaped].id in s.proc.ios
    && s.proc.ios[s.posted[s.reaped].id].callback == OnQueueEvent && s.posted[s.reaped].res >= 0
  }

  /** The next completion makes verifier_flush_egress run. */
  predicate Flushes(s: H.Sys, env: H.Env) {
    && s.reaped < |s.posted| && s.posted[s.reaped].id in s.proc.ios && s.posted[s.reaped].res >= 0
    && var cb := s.proc.ios[s.posted[s.reaped].id].callback;
       cb == OnSocketRead || (cb == OnSocketConnect && env.init)
  }

  /** verifier_quic_flush returns a value that is not negative where verifier_flush_egress looks
      at it; `expiry` and `now` are the times it reads. */
  ghost predicate FlushOk(conn: V.Connection, lib: V.Library, expiry: X.Uint64, now: X.Uint64)
    requires V.Inv(conn) && V.Conforms(lib)
  {
    X.ToSigned(X.FlushResult(V.Flush(conn, lib).1 != V.Failed, expiry, now)) >= 0
  }

  /** What queue_consume_try gives thread c: without the lock it found no token. */
  function Grant(q: Q.Sys, c: nat): R.Got
    requires Q.Shape(q)
  {
    if q.lock != Some(c) then R.GotAgain
    else if q.buffer.head == q.buffer.tail then R.GotNothing
    else R.GotEvent(q.buffer.events[q.buffer.tail].path)
  }

  ghost predicate Active(s: Whole, c: nat) {
    c < |s.procs| == |s.links| && !s.links[c].broken
  }

  ghost predicate Enabled(x: Setup, s: Whole, a: Action)
    requires Shape(x, s)
  {
    match a
    case Produce(e) => Q.Enabled(s.queue, Q.Add(e))
    case Notify => Q.Enabled(s.queue, Q.Notify)
    case Lock(c) =>
      && Active(s, c) && s.procs[c].proc.status == R.Running && Wakes(s.procs[c])
      && Q.Enabled(s.queue, Q.SpendToken(c)) && s.queue.tokens[c] > 0
    case Kernel(c, step) => Active(s, c) && !step.Dispatch? && H.Enabled(x.w, s.procs[c], step)
    case Serve(c, env, stream, expiry, now) =>
      && Active(s, c) && H.Enabled(x.w, s.procs[c], H.Dispatch(env))
      && (Wakes(s.procs[c]) ==> Consumes(s.queue, c) && env.got == Grant(s.queue, c))
      && (Flushes(s.procs[c], env) ==> (env.ok <==> FlushOk(s.links[c].conn, x.libs[c], expiry, now)))
      && (stream.Some? ==> stream.value != V.NO_STREAM && stream.value !in s.links[c].conn.wires)
  }

  /** Thread c holds the lock with a token spent, or finds the lock free and no token. */
  predicate Consumes(q: Q.Sys, c: nat) {
    q.lock == Some(c) || (q.lock.None? && c < |q.tokens| && q.tokens[c] == 0)
  }

  /** The connection once a callback has gone from log `before` to log `after`: each new entry
      is a verifier_verify_hash call. */
  ghost function Carried(link: Link, before: seq<R.Sent>, after: seq<R.Sent>, stream: Option<int>,
                         flushes: bool, lib: V.Library): (r: Link)
    requires V.Inv(link.conn) && V.Conforms(lib)
    ensures V.Inv(r.conn)
  {
    if |after| > |before| then
      var sent := after[|before|];
      if stream.Some? && V.CanVerify(link.conn, stream.value, sent.hash, sent.path) then
        link.(conn := V.Verify(link.conn, stream.value, sent.hash, sent.path, lib).0)
      else link.(broken := true)
    else if flushes then link.(conn := V.Flush(link.conn, lib).0)
    else link
  }

  ghost function Consumed(q: Q.Sys, s: H.Sys, c: nat): (r: Q.Sys)
    requires Q.Shape(q)
    ensures Q.Shape(r) && |r.tokens| == |q.tokens|
  {
    if Wakes(s) && q.lock == Some(c) then Q.Apply(q, Q.Take(c)) else q
  }

  ghost function Apply(x: Setup, s: Whole, a: Action): (t: Whole)
    requires Shape(x, s) && Enabled(x, s, a)
    ensures Shape(x, t)
  {
    match a
    case Produce(e) => s.(queue := Q.Apply(s.queue, Q.Add(e)))
    case Notify => s.(queue := Q.Apply(s.queue, Q.Notify))
    case Lock(c) => s.(queue := Q.Apply(s.queue, Q.SpendToken(c)))
    case Kernel(c, step) => s.(procs := s.procs[c := H.Apply(x.w, s.procs[c], step)])
    case Serve(c, env, stream, _, _) =>
      var p := H.Apply(x.w, s.procs[c], H.Dispatch(env));
      Whole(
        Consumed(s.queue, s.procs[c], c),
        s.procs[c := p],
        s.links[c := Carried(s.links[c], s.procs[c].proc.sent, p.proc.sent, stream,
                             Flushes(s.procs[c], env), x.libs[c])])
  }

  ghost function Init(x: Setup): (s: Whole)
    requires Starts(x)
    ensures Shape(x, s)
  {
    Whole(Q.Init(|x.libs|, x.events),
          seq(|x.libs|, c requires 0 <= c < |x.libs| => H.Init(x.n, x.buffers[c])),
          seq(|x.libs|, c requires 0 <= c < |x.libs| => Link(V.Fresh(x.datas[c]), false)))
  }

  ghost predicate Runs(x: Setup, s: Whole, acts: seq<Action>, t: Whole)
    requires Shape(x, s)
    decreases |acts|
  {
    if acts == [] then t == s
    else Enabled(x, s, acts[0]) && Runs(x, Apply(x, s, acts[0]), acts[1..], t)
  }

  ghost predicate Reaches(x: Setup, acts: seq<Action>, t: Whole) {
    Starts(x) && Runs(x, Init(x), acts, t)
  }

  // ---------------------------------------------------------------------------
  // Each part of a run of the whole is a run of that part

  lemma {:induction false} QueueRun(x: Setup, s: Whole, acts: seq<Action>, t: Whole) returns (qacts: seq<Q.Action>)
    requires Shape(x, s) && Runs(x, s, acts, t)
    ensures Q.Runs(s.queue, qacts, t.queue)
    decreases |acts|
  {
    if acts == [] {
      qacts := [];
    } else {
      var rest := QueueRun(x, Apply(x, s, acts[0]), acts[1..], t);
      qacts := QueueFirst(x, s, acts[0], rest, t.queue);
    }
  }

  lemma QueueFirst(x: Setup, s: Whole, a: Action, rest: seq<Q.Action>, t: Q.Sys) returns (qacts: seq<Q.Action>)
    requires Shape(x, s) && Enabled(x, s, a) && Q.Runs(Apply(x, s, a).queue, rest, t)
    ensures Q.Runs(s.queue, qacts, t)
  {
    var first := QueueStep(x, s, a);
    if first == [] {
      qacts := rest;
    } else {
      qacts := [first[0]] + rest;
      QueueThen(s.queue, first[0], rest, t);
    }
  }

  lemma QueueThen(q: Q.Sys, a: Q.Action, rest: seq<Q.Action>, t: Q.Sys)
    requires Q.Shape(q) && Q.Enabled(q, a) && Q.Runs(Q.Apply(q, a), rest, t)
    ensures Q.Runs(q, [a] + rest, t)
  {
    assert ([a] + rest)[1..] == rest;
  }

  /** A step of the whole is a step of the queue, or leaves it alone. */
  lemma QueueStep(x: Setup, s: Whole, a: Action) returns (first: seq<Q.Action>)
    requires Shape(x, s) && Enabled(x, s, a)
    ensures |first| <= 1
    ensures var q := Apply(x, s, a).queue;
            if first == [] then q == s.queue else Q.Enabled(s.queue, first[0]) && q == Q.Apply(s.queue, first[0])
  {
    match a
    case Produce(e) => first := [Q.Add(e)];
    case Notify => first := [Q.Notify];
    case Lock(c) => first := [Q.SpendToken(c)];
    case Kernel(_, _) => first := [];
    case Serve(c, _, _, _, _) =>
      first := if Wakes(s.procs[c]) && s.queue.lock == Some(c) then [Q.Take(c)] else [];
  }

  lemma {:induction false} ProcessorRun(x: Setup, s: Whole, acts: seq<Action>, t: Whole, c: nat)
    returns (hacts: seq<H.Action>)
    requires Shape(x, s) && Runs(x, s, acts, t) && c < |s.procs|
    ensures |t.procs| == |s.procs| && H.Runs(x.w, s.procs[c], hacts, t.procs[c])
    decreases |acts|
  {
    if acts == [] {
      hacts := [];
    } else {
      var rest := ProcessorRun(x, Apply(x, s, acts[0]), acts[1..], t, c);
      hacts := rest;
      if acts[0].Kernel? && acts[0].c == c {
        hacts := [acts[0].step] + rest;
        assert hacts[1..] == rest;
      } else if acts[0].Serve? && acts[0].c == c {
        hacts := [H.Dispatch(acts[0].env)] + rest;
        assert hacts[1..] == rest;
      }
    }
  }

  lemma {:induction false} ConnectionRun(x: Setup, s: Whole, acts: seq<Action>, t: Whole, c: nat)
    returns (calls: seq<V.Call>)
    requires Shape(x, s) && Runs(x, s, acts, t) && c < |s.links|
    ensures |t.links| == |s.links| && V.Runs(s.links[c].conn, calls, x.libs[c], t.links[c].conn)
    decreases |acts|
  {
    if acts == [] {
      calls := [];
    } else {
      var u := Apply(x, s, acts[0]);
      var rest := ConnectionRun(x, u, acts[1..], t, c);
      calls := rest;
      if acts[0].Serve? && acts[0].c == c {
        var before, after := s.procs[c].proc.sent, u.procs[c].proc.sent;
        if |after| > |before| {
          if !u.links[c].broken {
            calls := [V.Report(acts[0].stream.value, after[|before|].hash, after[|before|].path)] + rest;
            assert calls[1..] == rest;
          }
        } else if Flushes(s.procs[c], acts[0].env) {
          calls := [V.FlushOnly] + rest;
          assert calls[1..] == rest;
        }
      }
    }
  }

  /** So whatever holds of every run of a processor with its kernel holds here of each one. */
  lemma ProcessorReaches(x: Setup, acts: seq<Action>, t: Whole, c: nat) returns (hacts: seq<H.Action>)
    requires Reaches(x, acts, t) && c < |x.libs|
    ensures |t.procs| == |x.libs| && T.Reaches(x.w, x.n, x.buffers[c], hacts, t.procs[c])
  {
    hacts := ProcessorRun(x, Init(x), acts, t, c);
  }

  /** In every run, a thread that has received from its connection, or has just made it, exits
      exactly when the transport reported an error to the flush that follows, the timeout does
      not fit a signed 64-bit number, or the timer is armed and no slot is left to update it. */
  lemma FlushDecides(
    x: Setup, acts: seq<Action>, s: Whole, c: nat, env: H.Env, stream: Option<int>, expiry: X.Uint64, now: X.Uint64)
    requires Reaches(x, acts, s) && Shape(x, s) && Enabled(x, s, Serve(c, env, stream, expiry, now))
    requires Flushes(s.procs[c], env)
    ensures var p, t := s.procs[c].proc, Apply(x, s, Serve(c, env, stream, expiry, now)).procs[c].proc;
            && Timer in p.ios
            && (t.status == R.Exited <==>
                  || V.Flush(s.links[c].conn, x.libs[c]).1 == V.Failed || expiry - now >= X.S63
                  || (p.ios[Timer].opcode == TimeoutOp && p.free == []))
            && (t.status == R.Exited || t.status == R.Running)
  {
    FlushOkIff(s.links[c].conn, x.libs[c], expiry, now);
    var hacts := ProcessorReaches(x, acts, s, c);
    FlushServed(x.w, x.n, x.buffers[c], hacts, s.procs[c], env);
  }

  lemma FlushOkIff(conn: V.Connection, lib: V.Library, expiry: X.Uint64, now: X.Uint64)
    requires V.Inv(conn) && V.Conforms(lib)
    ensures FlushOk(conn, lib, expiry, now) <==> V.Flush(conn, lib).1 != V.Failed && expiry - now < X.S63
  {
  }

  lemma FlushServed(w: R.World, n: nat, buffers: seq<Bytes>, acts: seq<H.Action>, s: H.Sys, env: H.Env)
    requires T.Reaches(w, n, buffers, acts, s) && H.Enabled(w, s, H.Dispatch(env)) && Flushes(s, env)
    ensures var p, t := s.proc, H.Apply(w, s, H.Dispatch(env)).proc;
            && Timer in p.ios && (t.status == R.Exited || t.status == R.Running)
            && (t.status == R.Exited <==> !env.ok || (p.ios[Timer].opcode == TimeoutOp && p.free == []))
  {
    D.StopsExactlyWhen(w, n, buffers, acts, s, env);
  }
}
