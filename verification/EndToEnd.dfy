/** From accepted event to bytes on the wire, in every run of the whole system. */
module EndToEnd {
  import opened Requests
  import opened WholeSystem
  import opened Joints
  import F = FileState

  // ---------------------------------------------------------------------------
  // Hand-outs to one thread, and the jobs opened for them, correspond by rank

  /** The position in the hand-out log of thread c's r-th hand-out. */
  function Position(hs: seq<Q.Handed>, c: nat, r: nat): nat
    requires r < |HandedTo(hs, c)|
  {
    var front := hs[..|hs| - 1];
    if r < |HandedTo(front, c)| then Position(front, c, r) else |hs| - 1
  }

  lemma {:induction false} PositionIs(hs: seq<Q.Handed>, c: nat, r: nat)
    requires r < |HandedTo(hs, c)|
    ensures var i := Position(hs, c, r);
            && i < |hs| && hs[i].consumer == c && hs[i].event.path == HandedTo(hs, c)[r] != []
            && |HandedTo(hs[..i], c)| == r
    decreases |hs|
  {
    var front := hs[..|hs| - 1];
    if r < |HandedTo(front, c)| {
      PositionIs(front, c, r);
      var i := Position(front, c, r);
      assert hs[..i] == front[..i];
    }
  }

  lemma {:induction false} PositionOf(hs: seq<Q.Handed>, c: nat, i: nat)
    requires i < |hs| && hs[i].consumer == c && hs[i].event.path != []
    ensures |HandedTo(hs[..i], c)| < |HandedTo(hs, c)| && Position(hs, c, |HandedTo(hs[..i], c)|) == i
    decreases |hs|
  {
    var front := hs[..|hs| - 1];
    if i < |front| {
      PositionOf(front, c, i);
      assert hs[..i] == front[..i];
    }
  }

  /** The rank of job j among those opened for events. */
  function Rank(jobs: seq<R.Job>, j: nat): nat
    requires j <= |jobs|
  {
    |Opened(jobs[..j])|
  }

  lemma {:induction false} RankIs(jobs: seq<R.Job>, j: nat)
    requires j < |jobs| && jobs[j].path != []
    ensures Rank(jobs, j) < |Opened(jobs)| && Opened(jobs)[Rank(jobs, j)] == jobs[j].path
    decreases |jobs|
  {
    var front := jobs[..|jobs| - 1];
    if j < |front| {
      RankIs(front, j);
      assert front[..j] == jobs[..j];
    } else {
      assert jobs[..j] == front;
    }
  }

  lemma {:induction false} RankGrows(jobs: seq<R.Job>, i: nat, j: nat)
    requires i < j <= |jobs| && jobs[i].path != []
    ensures Rank(jobs, i) < Rank(jobs, j)
  {
    var pre := jobs[..j];
    assert pre[..j - 1] == jobs[..j - 1] && pre[j - 1] == jobs[j - 1];
    if i < j - 1 {
      RankGrows(jobs, i, j - 1);
    }
  }

  lemma {:induction false} JobOfRank(jobs: seq<R.Job>, r: nat) returns (j: nat)
    requires r < |Opened(jobs)|
    ensures j < |jobs| && jobs[j].path == Opened(jobs)[r] != [] && Rank(jobs, j) == r
    decreases |jobs|
  {
    var front := jobs[..|jobs| - 1];
    if r < |Opened(front)| {
      j := JobOfRank(front, r);
      assert jobs[..j] == front[..j];
    } else {
      j := |jobs| - 1;
    }
  }

  /** The accepted event behind job j of thread c. */
  ghost function Source(t: Whole, c: nat, j: nat): nat
    requires c < |t.procs| && j < |t.procs[c].proc.jobs|
    requires Rank(t.procs[c].proc.jobs, j) < |HandedTo(t.queue.handed, c)|
  {
    Position(t.queue.handed, c, Rank(t.procs[c].proc.jobs, j))
  }

  /** Job j of thread c has a definite event behind it: accepted, and handed to that thread. */
  ghost predicate HasEvent(t: Whole, c: nat, j: nat) {
    && c < |t.procs| && j < |t.procs[c].proc.jobs|
    && Rank(t.procs[c].proc.jobs, j) < |HandedTo(t.queue.handed, c)|
    && var i := Source(t, c, j);
       && i < |t.queue.handed| <= |t.queue.accepted| && t.queue.handed[i].consumer == c
       && t.queue.accepted[i] == t.queue.handed[i].event
       && t.queue.accepted[i].path == t.procs[c].proc.jobs[j].path
  }

  lemma QueueFacts(x: Setup, acts: seq<Action>, t: Whole)
    requires Reaches(x, acts, t)
    ensures |t.queue.handed| <= |t.queue.accepted|
    ensures forall i | 0 <= i < |t.queue.handed| :: t.queue.accepted[i] == t.queue.handed[i].event
  {
    var qacts := QueueRun(x, Init(x), acts, t);
    Q.RunConserves(|x.libs|, x.events, qacts, t.queue);
    forall i | 0 <= i < |t.queue.handed| ensures t.queue.accepted[i] == t.queue.handed[i].event {
      assert t.queue.accepted[i] == Q.EventsOf(t.queue.handed)[i];
    }
  }

  /** Nothing is opened out of thin air: in every run, every file a thread opened for an event
      belongs to an event that was accepted and handed to that thread. */
  lemma EveryOpenHasItsEvent(x: Setup, acts: seq<Action>, t: Whole, c: nat, j: nat)
    requires Reaches(x, acts, t) && c < |t.procs|
    requires j < |t.procs[c].proc.jobs| && t.procs[c].proc.jobs[j].path != []
    ensures HasEvent(t, c, j)
  {
    EveryRunJoined(x, acts, t);
    QueueFacts(x, acts, t);
    assert Fed(t, c);
    RankIs(t.procs[c].proc.jobs, j);
    PositionIs(t.queue.handed, c, Rank(t.procs[c].proc.jobs, j));
  }

  /** Nothing is dropped on the way: in every run, every event handed out has been opened by
      the thread that got it, if that thread is still running; its file is in hand in a slot,
      reported by a line, or could not be opened or read, and only one of these. */
  lemma EveryEventIsOpened(x: Setup, acts: seq<Action>, t: Whole, i: nat) returns (j: nat)
    requires Reaches(x, acts, t) && i < |t.queue.handed| && t.queue.handed[i].event.path != []
    ensures t.queue.handed[i].consumer < |t.procs|
    ensures var c := t.queue.handed[i].consumer; var p := t.procs[c].proc;
            p.status == R.Running ==>
              && HasEvent(t, c, j) && Source(t, c, j) == i && R.HasIds(p)
              && (p.jobs[j].status.InSlot? ==>
                    && var s := p.jobs[j].status.slot;
                       s < |p.slots| && F.FilePhase(p, s) && p.slots[s].job == j)
              && (p.jobs[j].status.Hashed? <==>
                    exists e | 0 <= e < |p.emitted| :: p.emitted[e].job == j)
  {
    EveryRunJoined(x, acts, t);
    var c := t.queue.handed[i].consumer;
    j := 0;
    if t.procs[c].proc.status == R.Running {
      assert Fed(t, c);
      PositionOf(t.queue.handed, c, i);
      j := JobOfRank(t.procs[c].proc.jobs, |HandedTo(t.queue.handed[..i], c)|);
      EveryOpenHasItsEvent(x, acts, t, c, j);
      var hacts := ProcessorReaches(x, acts, t, c);
      T.JobsAccounted(x.w, x.n, x.buffers[c], hacts, t.procs[c], j);
    }
  }

  // ---------------------------------------------------------------------------
  // Lines

  /** In every run, line k of thread c reports an accepted event: its path with the hash of
      that file's whole content. */
  lemma LineTellsEvent(x: Setup, acts: seq<Action>, t: Whole, c: nat, k: nat)
    requires Reaches(x, acts, t) && c < |t.procs| && k < |t.procs[c].proc.emitted| && [] !in x.w.files
    ensures var m := t.procs[c].proc.emitted[k];
            && HasEvent(t, c, m.job) && t.queue.accepted[Source(t, c, m.job)].path == m.path
            && m.path in x.w.files && m.hash == x.w.hash(x.w.files[m.path])
  {
    EveryRunJoined(x, acts, t);
    var hacts := ProcessorReaches(x, acts, t, c);
    T.HashesAreWholeFile(x.w, x.n, x.buffers[c], hacts, t.procs[c]);
    EveryOpenHasItsEvent(x, acts, t, c, t.procs[c].proc.emitted[k].job);
  }

  lemma LinesOfOneThread(x: Setup, acts: seq<Action>, t: Whole, c: nat, k: nat, k': nat)
    requires Reaches(x, acts, t) && c < |t.procs| && k < |t.procs[c].proc.emitted| && k' < |t.procs[c].proc.emitted|
    requires k != k'
    ensures t.procs[c].proc.emitted[k].job != t.procs[c].proc.emitted[k'].job
  {
    EveryRunJoined(x, acts, t);
    var hacts := ProcessorReaches(x, acts, t, c);
    T.HashesAreWholeFile(x.w, x.n, x.buffers[c], hacts, t.procs[c]);
  }

  /** Different jobs, on one thread or on two, come from different events. */
  lemma SourcesDiffer(t: Whole, c: nat, j: nat, c': nat, j': nat)
    requires HasEvent(t, c, j) && HasEvent(t, c', j') && (c != c' || j < j')
    requires t.procs[c].proc.jobs[j].path != []
    ensures Source(t, c, j) != Source(t, c', j')
  {
    if c == c' {
      RankGrows(t.procs[c].proc.jobs, j, j');
      PositionIs(t.queue.handed, c, Rank(t.procs[c].proc.jobs, j));
      PositionIs(t.queue.handed, c, Rank(t.procs[c].proc.jobs, j'));
    }
  }

  /** No accepted event is reported twice: in every run two lines, of one thread or of two, are
      about different accepted events. */
  lemma LinesTellDifferentEvents(x: Setup, acts: seq<Action>, t: Whole, c: nat, k: nat, c': nat, k': nat)
    requires Reaches(x, acts, t) && [] !in x.w.files
    requires c < |t.procs| && k < |t.procs[c].proc.emitted|
    requires c' < |t.procs| && k' < |t.procs[c'].proc.emitted|
    requires c != c' || k != k'
    ensures var j, j' := t.procs[c].proc.emitted[k].job, t.procs[c'].proc.emitted[k'].job;
            HasEvent(t, c, j) && HasEvent(t, c', j') && Source(t, c, j) != Source(t, c', j')
  {
    LineTellsEvent(x, acts, t, c, k);
    LineTellsEvent(x, acts, t, c', k');
    var j, j' := t.procs[c].proc.emitted[k].job, t.procs[c'].proc.emitted[k'].job;
    if c == c' {
      LinesOfOneThread(x, acts, t, c, k, k');
    }
    if c == c' && j' < j {
      SourcesDiffer(t, c', j', c, j);
    } else {
      SourcesDiffer(t, c, j, c', j');
    }
  }

  // ---------------------------------------------------------------------------
  // Lines on the wire

  ghost predicate Digest(w: R.World) {
    forall b :: |w.hash(b)| == HASH_LEN
  }

  /** In every run, stream k of thread c was opened for line k. */
  lemma StreamIsLine(x: Setup, acts: seq<Action>, t: Whole, c: nat, k: nat)
    requires Reaches(x, acts, t) && c < |t.links|
    ensures |t.procs| == |t.links| && V.Inv(t.links[c].conn)
    ensures |t.links[c].conn.openings| <= |t.procs[c].proc.emitted|
    ensures k < |t.links[c].conn.openings| ==>
              var m := t.procs[c].proc.emitted[k]; t.links[c].conn.openings[k].payload == m.hash + m.path
  {
    EveryRunJoined(x, acts, t);
    assert Carries(t, c);
    var hacts := ProcessorReaches(x, acts, t, c);
    T.HashesAreWholeFile(x.w, x.n, x.buffers[c], hacts, t.procs[c]);
  }

  /** Stream k carries digest and path of accepted event i's file, and is finished. */
  ghost predicate Tells(x: Setup, t: Whole, c: nat, k: nat, i: nat)
    requires c < |t.links| && k < |t.links[c].conn.openings|
  {
    var conn := t.links[c].conn;
    && i < |t.queue.accepted| && t.queue.accepted[i].path in x.w.files
    && conn.openings[k].id in conn.wires
    && var path := t.queue.accepted[i].path;
       conn.wires[conn.openings[k].id] == V.Wire(x.w.hash(x.w.files[path]) + path, true)
  }

  /** In every run, a stream opened over a drained slot carries exactly the digest of the whole
      content of one accepted event's file followed by its path, finished, if and only if the
      slot was drained again before its next use, or by now; and such a stream can be read
      back as nothing else. */
  lemma StreamTellsEvent(x: Setup, acts: seq<Action>, t: Whole, c: nat, k: nat)
    requires Reaches(x, acts, t) && [] !in x.w.files && Digest(x.w)
    requires c < |t.links| && k < |t.links[c].conn.openings| && t.links[c].conn.openings[k].leftover == []
    ensures |t.procs| == |t.links| && k < |t.procs[c].proc.emitted| && V.Inv(t.links[c].conn)
    ensures var j, conn := t.procs[c].proc.emitted[k].job, t.links[c].conn;
            && HasEvent(t, c, j)
            && (Tells(x, t, c, k, Source(t, c, j)) <==> V.Rest(conn, k) == [])
            && (Tells(x, t, c, k, Source(t, c, j)) ==>
                  forall h: Bytes, p: Bytes | |h| == HASH_LEN && conn.wires[conn.openings[k].id].bytes == h + p ::
                    p == t.queue.accepted[Source(t, c, j)].path && h == x.w.hash(x.w.files[p]))
  {
    StreamIsLine(x, acts, t, c, k);
    LineTellsEvent(x, acts, t, c, k);
    var conn, m := t.links[c].conn, t.procs[c].proc.emitted[k];
    V.StreamExactIff(conn, k);
    forall h: Bytes, p: Bytes | |h| == HASH_LEN && m.hash + m.path == h + p
      ensures p == m.path && h == m.hash
    {
      V.PayloadDecodes(h, p, m.hash, m.path);
    }
  }

  /** Drained or not, in every run all bytes on a thread's streams in the order they were
      opened, then the unsent ones, are the digests and paths of its first lines in order, of
      all of them while the connection is whole. */
  lemma WireConserves(x: Setup, acts: seq<Action>, t: Whole, c: nat)
    requires Reaches(x, acts, t) && c < |t.links|
    ensures |t.procs| == |t.links| && V.Inv(t.links[c].conn)
    ensures var conn, lines := t.links[c].conn, t.procs[c].proc.emitted;
            && |conn.openings| <= |lines|
            && (t.procs[c].proc.status == R.Running && !t.links[c].broken ==> |conn.openings| == |lines|)
            && V.Concat(V.OnWire(conn, |conn.openings|)) + V.Unsent(conn.slot)
               == V.Concat(PayloadsOf(lines[..|conn.openings|]))
  {
    EveryRunJoined(x, acts, t);
    assert Carries(t, c);
    var conn, lines := t.links[c].conn, t.procs[c].proc.emitted;
    StreamIsLine(x, acts, t, c, 0);
    forall k | 0 <= k < |conn.openings| ensures conn.openings[k].payload == lines[k].hash + lines[k].path {
      StreamIsLine(x, acts, t, c, k);
    }
    AllLinesSent(x, acts, t, c);
    StreamsHold(conn, lines);
  }

  lemma AllLinesSent(x: Setup, acts: seq<Action>, t: Whole, c: nat)
    requires Reaches(x, acts, t) && c < |t.procs|
    ensures t.procs[c].proc.status == R.Running ==> |t.procs[c].proc.sent| == |t.procs[c].proc.emitted|
  {
    EveryRunJoined(x, acts, t);
    var hacts := ProcessorReaches(x, acts, t, c);
    T.HashesAreWholeFile(x.w, x.n, x.buffers[c], hacts, t.procs[c]);
  }

  lemma StreamsHold(conn: V.Connection, lines: seq<R.Emission>)
    requires V.Inv(conn) && |conn.openings| <= |lines|
    requires forall k | 0 <= k < |conn.openings| :: conn.openings[k].payload == lines[k].hash + lines[k].path
    ensures V.Concat(V.OnWire(conn, |conn.openings|)) + V.Unsent(conn.slot)
         == V.Concat(PayloadsOf(lines[..|conn.openings|]))
  {
    V.LedgersTelescope(conn, |conn.openings|);
    assert conn.openings[..|conn.openings|] == conn.openings;
    assert V.Payloads(conn.openings) == PayloadsOf(lines[..|conn.openings|]);
  }

  function PayloadsOf(lines: seq<R.Emission>): (ps: seq<Bytes>)
    ensures |ps| == |lines|
  {
    seq(|lines|, k requires 0 <= k < |lines| => lines[k].hash + lines[k].path)
  }
}
