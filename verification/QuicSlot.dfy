/** Sending hashes over QUIC (src/verifier_quic.h, src/verifier.c): one stream slot is
    opened, appended to, offered to the transport in pieces, and reused.  The transport
    (ngtcp2) is any `Library` that meets `Conforms`. */
module QuicSlot {
  import opened Requests

  const SLOT_SIZE: nat := 256
  const NO_STREAM: int := -1

  /** struct quic_stream */
  datatype Stream = Stream(streamId: int, data: Bytes, datalen: nat, nwrite: nat)

  /** What the transport has accepted for one stream. */
  datatype Wire = Wire(bytes: Bytes, fin: bool)

  /** History of an opening: bytes still unsent in the slot at that moment, and the
      bytes appended for this stream. */
  datatype Opening = Opening(id: int, leftover: Bytes, payload: Bytes)

  datatype Connection = Connection(
    slot: Stream, wires: map<int, Wire>, openings: seq<Opening>, calls: nat)

  /** Result of one ngtcp2_conn_writev_stream call plus, for a packet, of sending it. */
  datatype Answer =
    | WriteMore(accepted: nat)
    | Packet(wdatalen: int, sendOk: bool)
    | Blocked
    | Error

  /** `answer(n, len)` is the reply to call number n offering len stream bytes; from call
      `quiet` on the transport has no packet to emit. */
  datatype Library = Library(answer: (nat, nat) -> Answer, quiet: nat)

  ghost predicate Conforms(lib: Library) {
    forall n: nat, len: nat ::
      match lib.answer(n, len)
      case WriteMore(w) => 0 < w <= len
      case Packet(w, _) => n < lib.quiet && -1 <= w <= len
      case _ => true
  }

  ghost predicate SlotOk(s: Stream) {
    && s.nwrite <= s.datalen <= |s.data| == SLOT_SIZE
    && (s.streamId == NO_STREAM ==> s.datalen == 0)
  }

  function Unsent(s: Stream): Bytes
    requires SlotOk(s)
  {
    s.data[s.nwrite..s.datalen]
  }

  /** verifier_prep_vec's effect on the slot; what it offers is `Unsent`. */
  function Prepared(s: Stream): Stream
    requires SlotOk(s)
  {
    if s.streamId != NO_STREAM && s.nwrite == s.datalen
    then s.(streamId := NO_STREAM, datalen := 0, nwrite := 0)
    else s
  }

  /** The transport takes the first w offered bytes; every offer asks for FIN, which takes
      effect when the offer is accepted whole. */
  function Accept(c: Connection, w: nat): Connection
    requires SlotOk(c.slot) && w <= |Unsent(c.slot)| && c.slot.streamId in c.wires
  {
    var id := c.slot.streamId;
    c.(slot := c.slot.(nwrite := c.slot.nwrite + w),
       wires := c.wires[id := Wire(c.wires[id].bytes + Unsent(c.slot)[..w],
                                   c.slot.nwrite + w == c.slot.datalen)])
  }

  // ---------------------------------------------------------------------------
  // Invariant

  /** What stream k's bytes leave over: carried into the next stream, or still unsent. */
  function Rest(c: Connection, k: nat): Bytes
    requires SlotOk(c.slot) && k < |c.openings|
  {
    if k + 1 < |c.openings| then c.openings[k + 1].leftover else Unsent(c.slot)
  }

  ghost predicate Ledger(c: Connection, k: nat)
    requires SlotOk(c.slot) && k < |c.openings|
  {
    var o := c.openings[k];
    && o.id in c.wires
    && c.wires[o.id].bytes + Rest(c, k) == o.leftover + o.payload
    && (c.wires[o.id].fin <==> Rest(c, k) == [])
  }

  ghost predicate Inv(c: Connection) {
    && SlotOk(c.slot)
    && (c.slot.streamId != NO_STREAM ==>
          c.openings != [] && c.slot.streamId == c.openings[|c.openings| - 1].id)
    && (forall i, j | 0 <= i < j < |c.openings| :: c.openings[i].id != c.openings[j].id)
    && (forall k | 0 <= k < |c.openings| :: Ledger(c, k))
    && (c.openings != [] ==> c.openings[0].leftover == [])
  }

  lemma InvOffersOnCurrentStream(c: Connection)
    requires Inv(c) && Unsent(c.slot) != []
    ensures c.slot.streamId in c.wires && !c.wires[c.slot.streamId].fin
  {
    assert Ledger(c, |c.openings| - 1);
  }

  // ---------------------------------------------------------------------------
  // The flush loop

  /** How a flush ended: the transport had nothing more to write (Idle), a packet could not
      be sent, or the transport reported an error.  The first two both return 0. */
  datatype Ending = Idle | SendFailed | Failed

  function Current(c: Connection): int {
    if c.openings == [] then NO_STREAM else c.openings[|c.openings| - 1].id
  }

  /** Nothing but the current stream is written to. */
  ghost predicate OthersUntouched(c: Connection, d: Connection) {
    && d.openings == c.openings
    && forall id | id in c.wires && id != Current(c) :: id in d.wires && d.wires[id] == c.wires[id]
  }

  /** The flush loop's variant: before `quiet` the call number advances, after it only
      WRITE_MORE continues the loop and each one shrinks what is unsent. */
  function CallsLeft(c: Connection, lib: Library): nat {
    if c.calls < lib.quiet then lib.quiet - c.calls else 0
  }

  ghost predicate Progress(c: Connection, d: Connection, lib: Library)
    requires SlotOk(c.slot) && SlotOk(d.slot)
  {
    || CallsLeft(d, lib) < CallsLeft(c, lib)
    || (CallsLeft(d, lib) == CallsLeft(c, lib) && |Unsent(d.slot)| < |Unsent(c.slot)|)
  }

  function Prepare(c: Connection): Connection
    requires SlotOk(c.slot)
  {
    c.(slot := Prepared(c.slot), calls := c.calls + 1)
  }

  /** One turn of verifier_flush_out's loop; None means it goes round again. */
  function Turn(c: Connection, lib: Library): (r: (Connection, Option<Ending>))
    requires Conforms(lib) && Inv(c)
    ensures Inv(r.0) && OthersUntouched(c, r.0)
    ensures r.1.None? ==> Progress(c, r.0, lib)
    ensures r.1 == Some(Idle) && Unsent(r.0.slot) == [] ==> r.0.slot.streamId == NO_STREAM
  {
    PreparedKeeps(c);
    var c1 := Prepare(c);
    match lib.answer(c.calls, |Unsent(c1.slot)|)
    case WriteMore(w) =>
      AcceptKeeps(c1, w);
      (Accept(c1, w), None)
    case Error => (c1, Some(Failed))
    case Blocked => (c1, Some(Idle))
    case Packet(w, sendOk) =>
      var c2 := if w > 0 then AcceptKeeps(c1, w); Accept(c1, w) else c1;
      (c2, if sendOk then None else Some(SendFailed))
  }

  /** verifier_flush_out */
  function Flush(c: Connection, lib: Library): (r: (Connection, Ending))
    requires Conforms(lib) && Inv(c)
    ensures Inv(r.0) && OthersUntouched(c, r.0)
    ensures r.1 == Idle && Unsent(r.0.slot) == [] ==> r.0.slot.streamId == NO_STREAM
    decreases CallsLeft(c, lib), |Unsent(c.slot)|
  {
    var (d, end) := Turn(c, lib);
    if end.Some? then (d, end.value) else Flush(d, lib)
  }

  // What the transport answered, and how the loop follows it

  /** The answers after which the loop calls again. */
  predicate GoesOn(a: Answer) {
    a.WriteMore? || (a.Packet? && a.sendOk)
  }

  function Taken(a: Answer): nat {
    match a
    case WriteMore(w) => w
    case Packet(w, _) => if w > 0 then w else 0
    case _ => 0
  }

  /** What the last answer means. */
  predicate Means(a: Answer, end: Ending) {
    match end
    case Failed => a.Error?
    case Idle => a.Blocked?
    case SendFailed => a.Packet? && !a.sendOk
  }

  /** Calls number n, n + 1, ... offered `offers[0]`, `offers[1]`, ... bytes: each offer is the one
      before less what was taken of it, every answer but the last lets the loop go on, and
      `left` bytes are unsent after the last. */
  ghost predicate Conversation(lib: Library, n: nat, offers: seq<nat>, end: Ending, left: nat) {
    && offers != []
    && (forall k | 0 <= k < |offers| - 1 :: Carries(lib, n, offers, k))
    && var last := lib.answer(n + |offers| - 1, offers[|offers| - 1]);
       Means(last, end) && left + Taken(last) == offers[|offers| - 1]
  }

  ghost predicate Carries(lib: Library, n: nat, offers: seq<nat>, k: nat)
    requires k + 1 < |offers|
  {
    var a := lib.answer(n + k, offers[k]);
    GoesOn(a) && offers[k + 1] + Taken(a) == offers[k]
  }

  /** The value returned once the last of these offers was answered. */
  ghost predicate Returns(lib: Library, d: Connection, offers: seq<nat>, ret: int) {
    && offers != [] && d.calls > 0
    && ret == if lib.answer(d.calls - 1, offers[|offers| - 1]).Error? then -1 else 0
  }

  /** From c to d the transport was called once per offer, beginning with what was unsent, and
      `ret` says whether its last answer was an error. */
  ghost predicate Answered(lib: Library, c: Connection, d: Connection, end: Ending, ret: int) {
    && SlotOk(c.slot) && SlotOk(d.slot)
    && exists offers ::
         && Returns(lib, d, offers, ret) && d.calls == c.calls + |offers| && offers[0] == |Unsent(c.slot)|
         && Conversation(lib, c.calls, offers, end, |Unsent(d.slot)|)
  }

  lemma TurnFollows(c: Connection, lib: Library)
    requires Conforms(lib) && Inv(c)
    ensures var (d, end) := Turn(c, lib); var a := lib.answer(c.calls, |Unsent(c.slot)|);
            && d.calls == c.calls + 1 && |Unsent(d.slot)| + Taken(a) == |Unsent(c.slot)|
            && (end.None? <==> GoesOn(a)) && (end.Some? ==> Means(a, end.value))
  {
    PreparedKeeps(c);
    var p, a := Prepare(c), lib.answer(c.calls, |Unsent(c.slot)|);
    if Taken(a) > 0 {
      AcceptKeeps(p, Taken(a));
    }
  }

  lemma ConversationFirst(lib: Library, n: nat, first: nat, rest: seq<nat>, end: Ending, left: nat)
    requires Conversation(lib, n + 1, rest, end, left)
    requires var a := lib.answer(n, first); GoesOn(a) && rest[0] + Taken(a) == first
    ensures Conversation(lib, n, [first] + rest, end, left)
  {
    var offers := [first] + rest;
    forall k | 0 <= k < |offers| - 1 ensures Carries(lib, n, offers, k) {
      if k > 0 {
        assert Carries(lib, n + 1, rest, k - 1);
      }
    }
  }

  /** Over every conforming library, the flush makes one call per offer, starting from what is
      unsent, goes on exactly as long as the answers let it, and its ending is the meaning of
      the last answer: Failed on an error, Idle on 0, SendFailed on a packet not sent. */
  lemma {:induction false} FlushFollows(c: Connection, lib: Library) returns (offers: seq<nat>)
    requires Conforms(lib) && Inv(c)
    ensures var (d, end) := Flush(c, lib);
            && d.calls == c.calls + |offers| && offers != [] && offers[0] == |Unsent(c.slot)|
            && Conversation(lib, c.calls, offers, end, |Unsent(d.slot)|)
    decreases CallsLeft(c, lib), |Unsent(c.slot)|
  {
    TurnFollows(c, lib);
    var (d, end) := Turn(c, lib);
    offers := [|Unsent(c.slot)|];
    if end.None? {
      var rest := FlushFollows(d, lib);
      var r := Flush(d, lib);
      ConversationFirst(lib, c.calls, offers[0], rest, r.1, |Unsent(r.0.slot)|);
      offers := offers + rest;
    }
  }

  lemma PreparedKeeps(c: Connection)
    requires Inv(c)
    ensures Inv(Prepare(c)) && OthersUntouched(c, Prepare(c))
    ensures Unsent(Prepare(c).slot) == Unsent(c.slot)
    ensures Unsent(c.slot) == [] ==> Prepare(c).slot.streamId == NO_STREAM
  {
    forall k | 0 <= k < |c.openings| ensures Ledger(Prepare(c), k) {
      assert Ledger(c, k);
    }
  }

  lemma AcceptKeeps(c: Connection, w: nat)
    requires Inv(c) && 0 < w <= |Unsent(c.slot)|
    ensures c.slot.streamId in c.wires && Inv(Accept(c, w))
    ensures OthersUntouched(c, Accept(c, w))
    ensures |Unsent(Accept(c, w).slot)| == |Unsent(c.slot)| - w
  {
    InvOffersOnCurrentStream(c);
    var a := Accept(c, w);
    var last := |c.openings| - 1;
    assert Unsent(a.slot) == Unsent(c.slot)[w..];
    forall k | 0 <= k < |c.openings| ensures Ledger(a, k) {
      assert Ledger(c, k);
      if k == last {
        assert a.wires[c.slot.streamId].bytes + Unsent(a.slot)
            == c.wires[c.slot.streamId].bytes + (Unsent(c.slot)[..w] + Unsent(a.slot));
      }
    }
  }

  // ---------------------------------------------------------------------------
  // Reporting a file

  ghost predicate Fits(s: Stream, n: nat) {
    s.datalen + n <= SLOT_SIZE
  }

  function Appended(s: Stream, bytes: Bytes): (t: Stream)
    requires SlotOk(s) && Fits(s, |bytes|)
    ensures t.nwrite <= t.datalen <= |t.data| == SLOT_SIZE
    ensures t.data[t.nwrite..t.datalen] == Unsent(s) + bytes
  {
    s.(data := s.data[..s.datalen] + bytes + s.data[s.datalen + |bytes|..],
       datalen := s.datalen + |bytes|)
  }

  lemma TwoAppends(data: Bytes, at: nat, a: Bytes, b: Bytes)
    requires at + |a| + |b| <= |data|
    ensures var d := data[..at] + a + data[at + |a|..];
            d[..at + |a|] + b + d[at + |a| + |b|..] == data[..at] + (a + b) + data[at + |a + b|..]
  {
    var d := data[..at] + a + data[at + |a|..];
    assert d[..at + |a|] == data[..at] + a;
    assert d[at + |a| + |b|..] == data[at + |a| + |b|..];
  }

  /** A successful verifier_quic_get_slot, which takes over slot 0 whatever it holds,
      followed by the appends. */
  function Enqueue(c: Connection, id: int, payload: Bytes): Connection
    requires SlotOk(c.slot) && Fits(c.slot, |payload|)
  {
    c.(slot := Appended(c.slot, payload).(streamId := id),
       wires := c.wires[id := Wire([], false)],
       openings := c.openings + [Opening(id, Unsent(c.slot), payload)])
  }

  lemma EnqueueKeeps(c: Connection, id: int, payload: Bytes)
    requires Inv(c) && Fits(c.slot, |payload|) && payload != []
    requires id != NO_STREAM && id !in c.wires
    ensures Inv(Enqueue(c, id, payload))
  {
    var d := Enqueue(c, id, payload);
    var n := |c.openings|;
    forall k | 0 <= k < |d.openings| ensures Ledger(d, k) {
      if k < n {
        assert Ledger(c, k);
      } else {
        assert [] + Unsent(d.slot) == Unsent(c.slot) + payload;
      }
    }
    forall i, j | 0 <= i < j < |d.openings| ensures d.openings[i].id != d.openings[j].id {
      assert Ledger(c, i);
    }
  }

  /** verifier_verify_hash */
  function Verify(c: Connection, id: int, hash: Bytes, path: Bytes, lib: Library): (r: (Connection, Ending))
    requires Inv(c) && Conforms(lib) && CanVerify(c, id, hash, path)
    ensures Inv(r.0) && r.0.openings == c.openings + [Opening(id, Unsent(c.slot), hash + path)]
    ensures r.1 == Idle && Unsent(r.0.slot) == [] ==> r.0.slot.streamId == NO_STREAM
  {
    EnqueueKeeps(c, id, hash + path);
    Flush(Enqueue(c, id, hash + path), lib)
  }

  ghost predicate CanVerify(c: Connection, id: int, hash: Bytes, path: Bytes) {
    && |hash| == HASH_LEN && Fits(c.slot, |hash + path|)
    && id != NO_STREAM && id !in c.wires
  }

  /** From a drained slot the new stream receives a prefix of hash ++ path and the slot keeps
      the rest, so the stream is exactly hash ++ path, finished, if and only if the flush
      drained; other streams are untouched, and an idle ending with nothing unsent empties
      the slot. */
  lemma OneStreamPerFile(c: Connection, id: int, hash: Bytes, path: Bytes, lib: Library)
    requires Inv(c) && Conforms(lib) && CanVerify(c, id, hash, path)
    requires Unsent(c.slot) == []
    ensures var (d, end) := Verify(c, id, hash, path, lib);
            && id in d.wires && SlotOk(d.slot)
            && d.wires[id].bytes + Unsent(d.slot) == hash + path
            && (d.wires[id] == Wire(hash + path, true) <==> Unsent(d.slot) == [])
            && (forall k | k in c.wires :: k in d.wires && d.wires[k] == c.wires[k])
            && (end == Idle && Unsent(d.slot) == [] ==> d.slot.datalen == 0)
  {
    EnqueueKeeps(c, id, hash + path);
    var e := Enqueue(c, id, hash + path);
    var d := Flush(e, lib).0;
    assert Ledger(d, |d.openings| - 1);
    assert forall k | k in c.wires :: k in e.wires && e.wires[k] == c.wires[k];
  }

  /** Without that, bytes end up on the wrong stream: when the first flush is refused and the
      second accepted, the second stream carries both files and the first carries nothing. */
  lemma RefusedFlushMisattributes(
    c: Connection, id1: int, id2: int, hash1: Bytes, path1: Bytes, hash2: Bytes, path2: Bytes, lib: Library)
    requires Inv(c) && Conforms(lib) && c.slot.datalen == 0 && id1 != id2
    requires CanVerify(c, id1, hash1, path1) && CanVerify(c, id2, hash2, path2)
    requires |hash1 + path1| + |hash2 + path2| <= SLOT_SIZE
    requires lib.answer(c.calls, |hash1 + path1|) == Blocked
    requires var n := |hash1 + path1| + |hash2 + path2|;
             lib.answer(c.calls + 1, n) == WriteMore(n) && lib.answer(c.calls + 2, 0) == Blocked
    ensures var c1 := Verify(c, id1, hash1, path1, lib).0;
            && Inv(c1) && CanVerify(c1, id2, hash2, path2)
            && var c2 := Verify(c1, id2, hash2, path2, lib).0;
               && id1 in c2.wires && c2.wires[id1] == Wire([], false)
               && id2 in c2.wires
               && c2.wires[id2] == Wire((hash1 + path1) + (hash2 + path2), true)
  {
    EnqueueKeeps(c, id1, hash1 + path1);
    var e1 := Enqueue(c, id1, hash1 + path1);
    assert Unsent(e1.slot) == hash1 + path1;
    FlushRefused(e1, lib);
    var c1 := Prepare(e1);
    EnqueueKeeps(c1, id2, hash2 + path2);
    var e2 := Enqueue(c1, id2, hash2 + path2);
    assert Unsent(e2.slot) == (hash1 + path1) + (hash2 + path2);
    FlushWhole(e2, lib);
  }

  lemma FlushRefused(c: Connection, lib: Library)
    requires Inv(c) && Conforms(lib) && lib.answer(c.calls, |Unsent(c.slot)|) == Blocked
    ensures Flush(c, lib) == (Prepare(c), Idle)
  {
    PreparedKeeps(c);
  }

  lemma FlushWhole(c: Connection, lib: Library)
    requires Inv(c) && Conforms(lib)
    requires lib.answer(c.calls, |Unsent(c.slot)|) == WriteMore(|Unsent(c.slot)|)
    requires lib.answer(c.calls + 1, 0) == Blocked
    ensures var id, d := c.slot.streamId, Flush(c, lib).0;
            && id in c.wires
            && d.wires == c.wires[id := Wire(c.wires[id].bytes + Unsent(c.slot), true)]
  {
    PreparedKeeps(c);
    var p, n := Prepare(c), |Unsent(c.slot)|;
    assert 0 < n;
    AcceptKeeps(p, n);
    assert Unsent(p.slot)[..n] == Unsent(p.slot);
    assert Turn(c, lib) == (Accept(p, n), None);
    FlushRefused(Accept(p, n), lib);
    assert Prepare(Accept(p, n)).wires == Accept(p, n).wires;
  }

  /** The hash has a fixed length, so a received stream determines hash and path. */
  lemma PayloadDecodes(hash1: Bytes, path1: Bytes, hash2: Bytes, path2: Bytes)
    requires |hash1| == |hash2| == HASH_LEN && hash1 + path1 == hash2 + path2
    ensures hash1 == hash2 && path1 == path2
  {
    assert hash1 == (hash1 + path1)[..HASH_LEN] && path1 == (hash1 + path1)[HASH_LEN..];
    assert hash2 == (hash2 + path2)[..HASH_LEN] && path2 == (hash2 + path2)[HASH_LEN..];
  }

  // ---------------------------------------------------------------------------
  // Whole runs

  /** The processor reports a file, or a timer or socket event flushes. */
  datatype Call = Report(id: int, hash: Bytes, path: Bytes) | FlushOnly

  ghost predicate Runs(c: Connection, calls: seq<Call>, lib: Library, d: Connection)
    requires Inv(c) && Conforms(lib)
    decreases |calls|
  {
    if calls == [] then d == c
    else match calls[0]
         case FlushOnly => Runs(Flush(c, lib).0, calls[1..], lib, d)
         case Report(id, hash, path) =>
           && CanVerify(c, id, hash, path)
           && Runs(Verify(c, id, hash, path, lib).0, calls[1..], lib, d)
  }

  function Fresh(data: Bytes): Connection {
    Connection(Stream(NO_STREAM, data, 0, 0), map[], [], 0)
  }

  /** The payloads reported, in order. */
  function Reported(calls: seq<Call>): seq<Bytes> {
    if calls == [] then []
    else (if calls[0].Report? then [calls[0].hash + calls[0].path] else []) + Reported(calls[1..])
  }

  function Payloads(os: seq<Opening>): (ps: seq<Bytes>)
    ensures |ps| == |os|
  {
    seq(|os|, i requires 0 <= i < |os| => os[i].payload)
  }

  function Concat(bs: seq<Bytes>): Bytes {
    if bs == [] then [] else Concat(bs[..|bs| - 1]) + bs[|bs| - 1]
  }

  /** The bytes on the first n streams, in the order they were opened. */
  function OnWire(c: Connection, n: nat): seq<Bytes>
    requires SlotOk(c.slot) && n <= |c.openings|
    requires forall k | 0 <= k < n :: Ledger(c, k)
  {
    seq(n, k requires 0 <= k < n => assert Ledger(c, k); c.wires[c.openings[k].id].bytes)
  }

  /** What one call adds to the openings. */
  function Opens(c: Connection, call: Call): seq<Opening>
    requires SlotOk(c.slot)
  {
    if call.Report? then [Opening(call.id, Unsent(c.slot), call.hash + call.path)] else []
  }

  /** The state after the first call of a run. */
  lemma RunFirst(c: Connection, calls: seq<Call>, lib: Library, d: Connection) returns (v: Connection)
    requires Inv(c) && Conforms(lib) && calls != [] && Runs(c, calls, lib, d)
    ensures Inv(v) && v.openings == c.openings + Opens(c, calls[0]) && Runs(v, calls[1..], lib, d)
    ensures v == match calls[0]
                 case FlushOnly => Flush(c, lib).0
                 case Report(id, hash, path) => Verify(c, id, hash, path, lib).0
  {
    match calls[0]
    case FlushOnly =>
      v := Flush(c, lib).0;
      assert v.openings == c.openings + [];
    case Report(id, hash, path) =>
      v := Verify(c, id, hash, path, lib).0;
  }

  lemma {:induction false} RunKeeps(c: Connection, calls: seq<Call>, lib: Library, d: Connection)
    requires Inv(c) && Conforms(lib) && Runs(c, calls, lib, d)
    ensures Inv(d)
    ensures Payloads(d.openings) == Payloads(c.openings) + Reported(calls)
    decreases |calls|
  {
    if calls != [] {
      var v := FirstCall(c, calls, lib, d);
      RunKeeps(v, calls[1..], lib, d);
      PayloadsFirst(c, v, calls);
    }
  }

  /** The same, without saying how the state came about. */
  lemma FirstCall(c: Connection, calls: seq<Call>, lib: Library, d: Connection) returns (v: Connection)
    requires Inv(c) && Conforms(lib) && calls != [] && Runs(c, calls, lib, d)
    ensures Inv(v) && v.openings == c.openings + Opens(c, calls[0]) && Runs(v, calls[1..], lib, d)
  {
    v := RunFirst(c, calls, lib, d);
  }

  lemma PayloadsFirst(c: Connection, v: Connection, calls: seq<Call>)
    requires SlotOk(c.slot) && calls != [] && v.openings == c.openings + Opens(c, calls[0])
    ensures Payloads(v.openings) + Reported(calls[1..]) == Payloads(c.openings) + Reported(calls)
  {
    var rest := Reported(calls[1..]);
    if calls[0].Report? {
      var o := Opens(c, calls[0])[0];
      assert Reported(calls) == [o.payload] + rest;
      PayloadsExtend(c.openings, o, rest);
    } else {
      assert v.openings == c.openings && Reported(calls) == rest;
    }
  }

  lemma PayloadsExtend(os: seq<Opening>, o: Opening, rest: seq<Bytes>)
    ensures Payloads(os + [o]) + rest == Payloads(os) + ([o.payload] + rest)
  {
  }

  lemma {:induction false} LedgersTelescope(c: Connection, n: nat)
    requires Inv(c) && n <= |c.openings|
    ensures Concat(OnWire(c, n)) + (if n == 0 then [] else Rest(c, n - 1))
            == Concat(Payloads(c.openings[..n]))
  {
    if n > 0 {
      LedgersTelescope(c, n - 1);
      assert Ledger(c, n - 1);
      var o := c.openings[n - 1];
      var w, rest := c.wires[o.id].bytes, Rest(c, n - 1);
      assert OnWire(c, n) == OnWire(c, n - 1) + [w];
      assert Payloads(c.openings[..n]) == Payloads(c.openings[..n - 1]) + [o.payload];
      assert OnWire(c, n)[..n - 1] == OnWire(c, n - 1);
      assert Payloads(c.openings[..n])[..n - 1] == Payloads(c.openings[..n - 1]);
      var before := Concat(OnWire(c, n - 1));
      assert (before + w) + rest == before + (w + rest) == (before + o.leftover) + o.payload;
    }
  }

  /** Byte conservation over every run and every transport: what the streams carry, in the
      order they were opened, followed by what is still unsent, is what was reported. */
  lemma RunConserves(data: Bytes, calls: seq<Call>, lib: Library, d: Connection)
    requires |data| == SLOT_SIZE && Conforms(lib) && Runs(Fresh(data), calls, lib, d)
    ensures Inv(d) && |d.openings| == |Reported(calls)|
    ensures Concat(OnWire(d, |d.openings|)) + Unsent(d.slot) == Concat(Reported(calls))
  {
    RunKeeps(Fresh(data), calls, lib, d);
    LedgersTelescope(d, |d.openings|);
    assert d.openings[..|d.openings|] == d.openings;
    assert Payloads(Fresh(data).openings) + Reported(calls) == Reported(calls);
  }

  /** Every report finds the slot drained: nwrite == datalen, which verifier_quic_get_slot
      does not ask before it takes the slot over. */
  ghost predicate DrainedAtReports(c: Connection, calls: seq<Call>, lib: Library)
    requires Inv(c) && Conforms(lib)
    decreases |calls|
  {
    if calls == [] then true
    else match calls[0]
         case FlushOnly => DrainedAtReports(Flush(c, lib).0, calls[1..], lib)
         case Report(id, hash, path) =>
           && CanVerify(c, id, hash, path) && Unsent(c.slot) == []
           && DrainedAtReports(Verify(c, id, hash, path, lib).0, calls[1..], lib)
  }

  ghost predicate NoLeftovers(c: Connection) {
    forall k | 0 <= k < |c.openings| :: c.openings[k].leftover == []
  }

  /** What the guard found at each report is what the openings recorded. */
  lemma {:induction false} GuardIsRecorded(c: Connection, calls: seq<Call>, lib: Library, d: Connection)
    requires Inv(c) && Conforms(lib) && Runs(c, calls, lib, d)
    ensures c.openings <= d.openings
    ensures NoLeftovers(d) <==> NoLeftovers(c) && DrainedAtReports(c, calls, lib)
    decreases |calls|
  {
    if calls != [] {
      var v := GuardFirst(c, calls, lib, d);
      GuardIsRecorded(v, calls[1..], lib, d);
      LeftoversFirst(c, v, calls[0]);
    }
  }

  lemma GuardFirst(c: Connection, calls: seq<Call>, lib: Library, d: Connection) returns (v: Connection)
    requires Inv(c) && Conforms(lib) && calls != [] && Runs(c, calls, lib, d)
    ensures Inv(v) && v.openings == c.openings + Opens(c, calls[0]) && Runs(v, calls[1..], lib, d)
    ensures DrainedAtReports(c, calls, lib)
       <==> (calls[0].Report? ==> Unsent(c.slot) == []) && DrainedAtReports(v, calls[1..], lib)
  {
    v := RunFirst(c, calls, lib, d);
  }

  lemma LeftoversFirst(c: Connection, v: Connection, call: Call)
    requires SlotOk(c.slot) && v.openings == c.openings + Opens(c, call)
    ensures c.openings <= v.openings
    ensures NoLeftovers(v) <==> NoLeftovers(c) && (call.Report? ==> Unsent(c.slot) == [])
  {
    var n := |c.openings|;
    assert forall k | 0 <= k < n :: v.openings[k] == c.openings[k];
    if call.Report? {
      assert v.openings[n].leftover == Unsent(c.slot);
    }
  }

  /** A stream opened over a drained slot, and followed by one opened over a drained slot or,
      if it is the last, drained since, is finished and carries its own payload; and if the
      slot was drained when it was opened, that is the only way. */
  lemma StreamExactIff(c: Connection, k: nat)
    requires Inv(c) && k < |c.openings| && c.openings[k].leftover == []
    ensures Ledger(c, k)
    ensures c.wires[c.openings[k].id].bytes == c.openings[k].payload <==> Rest(c, k) == []
    ensures c.wires[c.openings[k].id].fin <==> Rest(c, k) == []
  {
    assert Ledger(c, k);
    var bytes := c.wires[c.openings[k].id].bytes;
    assert |bytes| + |Rest(c, k)| == |c.openings[k].payload|;
    assert [] + c.openings[k].payload == c.openings[k].payload;
    assert bytes + [] == bytes;
  }

  lemma {:induction false} ExactLeavesNothing(c: Connection, k: nat)
    requires Inv(c) && 0 < |c.openings| && k < |c.openings|
    requires OnWire(c, |c.openings| - 1) == Payloads(c.openings)[..|c.openings| - 1]
    ensures c.openings[k].leftover == []
  {
    if k > 0 {
      ExactLeavesNothing(c, k - 1);
      assert OnWire(c, |c.openings| - 1)[k - 1] == Payloads(c.openings)[k - 1];
      StreamExactIff(c, k - 1);
    }
  }

  lemma NothingLeftMeansExact(c: Connection)
    requires Inv(c) && c.openings != [] && NoLeftovers(c)
    ensures var last := |c.openings| - 1;
            && OnWire(c, last) == Payloads(c.openings)[..last]
            && (forall k | 0 <= k < last :: c.openings[k].id in c.wires && c.wires[c.openings[k].id].fin)
            && c.openings[last].id in c.wires
            && (c.wires[c.openings[last].id] == Wire(c.openings[last].payload, true) <==> Unsent(c.slot) == [])
  {
    var last := |c.openings| - 1;
    forall k | 0 <= k < last
      ensures Ledger(c, k) && c.wires[c.openings[k].id] == Wire(c.openings[k].payload, true)
    {
      StreamExactIff(c, k);
      assert Rest(c, k) == c.openings[k + 1].leftover;
    }
    StreamExactIff(c, last);
  }

  /** All streams but the last carry exactly their own file's payload if and only if every
      report found the slot drained.  Given that, they are finished, and the last stream is
      exact, and finished, if and only if the slot is drained now. */
  lemma StreamsExactIffDrained(data: Bytes, calls: seq<Call>, lib: Library, d: Connection)
    requires |data| == SLOT_SIZE && Conforms(lib) && Runs(Fresh(data), calls, lib, d)
    requires d.openings != []
    ensures Inv(d) && |d.openings| == |Reported(calls)|
    ensures var last := |d.openings| - 1;
            && (OnWire(d, last) == Reported(calls)[..last] <==> DrainedAtReports(Fresh(data), calls, lib))
            && (DrainedAtReports(Fresh(data), calls, lib) ==>
                  && (forall k | 0 <= k < last :: d.openings[k].id in d.wires && d.wires[d.openings[k].id].fin)
                  && d.openings[last].id in d.wires
                  && (d.wires[d.openings[last].id] == Wire(Reported(calls)[last], true)
                      <==> Unsent(d.slot) == []))
  {
    FromFresh(data, calls, lib, d);
    if NoLeftovers(d) {
      NothingLeftMeansExact(d);
    } else if OnWire(d, |d.openings| - 1) == Reported(calls)[..|d.openings| - 1] {
      ExactMeansNoLeftovers(d);
    }
  }

  lemma FromFresh(data: Bytes, calls: seq<Call>, lib: Library, d: Connection)
    requires |data| == SLOT_SIZE && Conforms(lib) && Runs(Fresh(data), calls, lib, d)
    ensures Inv(d) && Payloads(d.openings) == Reported(calls) && |d.openings| == |Reported(calls)|
    ensures NoLeftovers(d) <==> DrainedAtReports(Fresh(data), calls, lib)
  {
    RunKeeps(Fresh(data), calls, lib, d);
    GuardIsRecorded(Fresh(data), calls, lib, d);
    assert Payloads(Fresh(data).openings) + Reported(calls) == Reported(calls);
  }

  lemma ExactMeansNoLeftovers(c: Connection)
    requires Inv(c) && c.openings != []
    requires OnWire(c, |c.openings| - 1) == Payloads(c.openings)[..|c.openings| - 1]
    ensures NoLeftovers(c)
  {
    forall k | 0 <= k < |c.openings| ensures c.openings[k].leftover == [] {
      ExactLeavesNothing(c, k);
    }
  }

  // ---------------------------------------------------------------------------
  // When a report fits the slot

  /** Every report that can be made, a hash and a path below the size of a path buffer, fits
      if and only if at most 97 bytes of the buffer are in use, sent or not. */
  lemma EveryReportFitsIff(s: Stream)
    requires SlotOk(s)
    ensures (forall hash: Bytes, path: Bytes | |hash| == HASH_LEN && |path| < MAX_FILENAME_LEN ::
               Fits(s, |hash + path|))
            <==> s.datalen <= 97
  {
    if s.datalen > 97 {
      var hash: Bytes, path: Bytes := seq(HASH_LEN, _ => 0), seq(MAX_FILENAME_LEN - 1, _ => 0);
      assert !Fits(s, |hash + path|);
    }
  }

  /** Being drained is not enough: a flush whose last packet could not be sent leaves the slot
      drained but not reset, and the next report starts behind the bytes already sent. */
  lemma DrainedMayNotFit(c: Connection, id: int, hash: Bytes, path: Bytes, lib: Library)
    requires Inv(c) && Conforms(lib) && c.slot.streamId == NO_STREAM && CanVerify(c, id, hash, path)
    requires lib.answer(c.calls, |hash + path|) == Packet(|hash + path|, false)
    ensures var d := Verify(c, id, hash, path, lib).0;
            && SlotOk(d.slot) && Unsent(d.slot) == [] && d.slot.datalen == |hash + path|
            && (forall n: nat :: Fits(d.slot, n) <==> |hash + path| + n <= SLOT_SIZE)
  {
    EnqueueKeeps(c, id, hash + path);
    var e := Enqueue(c, id, hash + path);
    assert Unsent(e.slot) == hash + path && e.slot.datalen == |hash + path|;
    AcceptedNotSent(e, lib);
  }

  /** A flush in which all is accepted, but the packet cannot be sent. */
  lemma AcceptedNotSent(c: Connection, lib: Library)
    requires Inv(c) && Conforms(lib) && Unsent(c.slot) != []
    requires lib.answer(c.calls, |Unsent(c.slot)|) == Packet(|Unsent(c.slot)|, false)
    ensures var d := Flush(c, lib).0; SlotOk(d.slot) && Unsent(d.slot) == [] && d.slot.datalen == c.slot.datalen
  {
    PreparedKeeps(c);
    var p := Prepare(c);
    AcceptKeeps(p, |Unsent(p.slot)|);
    assert Turn(c, lib) == (Accept(p, |Unsent(p.slot)|), Some(SendFailed));
  }

  /** Every call ends with the transport idle and nothing unsent. */
  ghost predicate EndsDrained(c: Connection, calls: seq<Call>, lib: Library)
    requires Inv(c) && Conforms(lib)
    decreases |calls|
  {
    if calls == [] then true
    else match calls[0]
         case FlushOnly =>
           var (v, end) := Flush(c, lib);
           end == Idle && Unsent(v.slot) == [] && EndsDrained(v, calls[1..], lib)
         case Report(id, hash, path) =>
           && CanVerify(c, id, hash, path)
           && var (v, end) := Verify(c, id, hash, path, lib);
              end == Idle && Unsent(v.slot) == [] && EndsDrained(v, calls[1..], lib)
  }

  /** While calls end drained and idle, every report finds the slot drained, and the next one
      fits whatever its path. */
  lemma {:induction false} DrainedRunsFit(c: Connection, calls: seq<Call>, lib: Library, d: Connection)
    requires Inv(c) && Conforms(lib) && Runs(c, calls, lib, d)
    requires c.slot.streamId == NO_STREAM && EndsDrained(c, calls, lib)
    ensures SlotOk(d.slot) && d.slot.streamId == NO_STREAM && DrainedAtReports(c, calls, lib)
    ensures forall id, hash: Bytes, path: Bytes
              | id != NO_STREAM && id !in d.wires && |hash| == HASH_LEN && |path| < MAX_FILENAME_LEN ::
              CanVerify(d, id, hash, path)
    decreases |calls|
  {
    if calls != [] {
      var v := DrainedFirst(c, calls, lib, d);
      DrainedRunsFit(v, calls[1..], lib, d);
    }
  }

  lemma DrainedFirst(c: Connection, calls: seq<Call>, lib: Library, d: Connection) returns (v: Connection)
    requires Inv(c) && Conforms(lib) && calls != [] && Runs(c, calls, lib, d)
    requires c.slot.streamId == NO_STREAM && EndsDrained(c, calls, lib)
    ensures Inv(v) && Runs(v, calls[1..], lib, d) && v.slot.streamId == NO_STREAM && EndsDrained(v, calls[1..], lib)
    ensures DrainedAtReports(v, calls[1..], lib) ==> DrainedAtReports(c, calls, lib)
  {
    v := RunFirst(c, calls, lib, d);
  }

  // ---------------------------------------------------------------------------
  // The same code in place

  /** struct verifier's first hash_req_slot; `wires`, `openings` and `calls` are history. */
  class Verifier {
    var streamId: int
    const data: array<Byte>
    var datalen: nat
    var nwrite: nat
    var calls: nat
    ghost var wires: map<int, Wire>
    ghost var openings: seq<Opening>

    ghost function View(): Connection
      reads this, data
    {
      Connection(Stream(streamId, data[..], datalen, nwrite), wires, openings, calls)
    }

    constructor ()
      ensures fresh(data) && View() == Fresh(data[..]) && Inv(View())
    {
      streamId, datalen, nwrite, calls := NO_STREAM, 0, 0, 0;
      data := new Byte[SLOT_SIZE];
      wires, openings := map[], [];
    }

    /** verifier_quic_slot_writev; not ok where the copy would run past the buffer. */
    method SlotWritev(bytes: Bytes) returns (ok: bool)
      requires data.Length == SLOT_SIZE && nwrite <= datalen <= SLOT_SIZE
      modifies this`datalen, data
      ensures ok <==> old(datalen) + |bytes| <= SLOT_SIZE
      ensures ok ==> datalen == old(datalen) + |bytes|
      ensures ok ==> data[..] == old(data[..datalen]) + bytes + old(data[datalen + |bytes|..])
      ensures !ok ==> datalen == old(datalen) && data[..] == old(data[..])
    {
      if datalen + |bytes| > SLOT_SIZE {
        return false;
      }
      var at, i := datalen, 0;
      while i < |bytes|
        invariant i <= |bytes| && datalen == at
        invariant data[..at + i] == old(data[..datalen]) + bytes[..i]
        invariant data[at + |bytes|..] == old(data[datalen + |bytes|..])
      {
        data[at + i] := bytes[i];
        i := i + 1;
      }
      datalen := at + |bytes|;
      assert data[..] == data[..datalen] + data[datalen..];
      ok := true;
    }

    /** One turn of the loop: verifier_prep_vec, the transport call, and its outcome. */
    method FlushTurn(lib: Library) returns (end: Option<Ending>)
      requires Conforms(lib) && Inv(View())
      modifies this`streamId, this`datalen, this`nwrite, this`calls, this`wires
      ensures (View(), end) == Turn(old(View()), lib)
    {
      PreparedKeeps(View());
      ghost var prepared := Prepare(View());
      var len := 0;
      if streamId != NO_STREAM && nwrite < datalen {
        len := datalen - nwrite;
      } else if streamId != NO_STREAM {
        streamId, datalen, nwrite := NO_STREAM, 0, 0;
      }
      var answer := lib.answer(calls, len);
      calls := calls + 1;
      assert View() == prepared;
      match answer {
        case WriteMore(w) =>
          AcceptKeeps(prepared, w);
          wires := Accept(prepared, w).wires;
          nwrite := nwrite + w;
          end := None;
        case Error =>
          end := Some(Failed);
        case Blocked =>
          end := Some(Idle);
        case Packet(w, sendOk) =>
          if w > 0 {
            AcceptKeeps(prepared, w);
            wires := Accept(prepared, w).wires;
            nwrite := nwrite + w;
          }
          end := if sendOk then None else Some(SendFailed);
      }
    }

    /** The loop of verifier_flush_out. */
    method FlushLoop(lib: Library) returns (ret: int, ghost ending: Ending)
      requires Conforms(lib) && Inv(View())
      modifies this`streamId, this`datalen, this`nwrite, this`calls, this`wires
      ensures (View(), ending) == Flush(old(View()), lib)
      ensures ret == if ending == Failed then -1 else 0
    {
      while true
        invariant Inv(View())
        invariant Flush(View(), lib) == Flush(old(View()), lib)
        decreases CallsLeft(View(), lib), |Unsent(View().slot)|
      {
        var end := FlushTurn(lib);
        if end.Some? {
          return if end.value == Failed then -1 else 0, end.value;
        }
      }
    }

    /** verifier_flush_out: -1 exactly when the last call of its conversation with the transport
        was answered with an error. */
    method FlushOut(lib: Library) returns (ret: int, ghost ending: Ending)
      requires Conforms(lib) && Inv(View())
      modifies this`streamId, this`datalen, this`nwrite, this`calls, this`wires
      ensures (View(), ending) == Flush(old(View()), lib)
      ensures Answered(lib, old(View()), View(), ending, ret)
    {
      ghost var offers := FlushFollows(View(), lib);
      ret, ending := FlushLoop(lib);
      assert Returns(lib, View(), offers, ret);
    }

    /** Slot 0 taken over for the stream opened as `id`, then both appends. */
    method Store(id: int, hash: Bytes, path: Bytes) returns (ok: bool)
      requires SlotOk(View().slot)
      modifies this, data
      ensures ok <==> Fits(old(View()).slot, |hash + path|)
      ensures ok ==> View() == Enqueue(old(View()), id, hash + path)
    {
      ghost var c := View();
      if datalen + |hash| + |path| <= SLOT_SIZE {
        TwoAppends(data[..], datalen, hash, path);
      }
      wires := wires[id := Wire([], false)];
      openings := openings + [Opening(id, Unsent(c.slot), hash + path)];
      streamId := id;
      ok := SlotWritev(hash);
      if ok {
        ok := SlotWritev(path);
      }
    }

    /** verifier_verify_hash; `stream` is the stream opened, if one could be.  Not ok where the
        source goes on with an error code as slot number, or past the end of the buffer. */
    method VerifyHash(stream: Option<int>, hash: Bytes, path: Bytes, lib: Library)
      returns (ok: bool, ghost ending: Ending)
      requires Conforms(lib) && Inv(View()) && |hash| == HASH_LEN
      requires stream.Some? ==> stream.value != NO_STREAM && stream.value !in wires
      modifies this, data
      ensures ok <==> stream.Some? && CanVerify(old(View()), stream.value, hash, path)
      ensures ok ==> (View(), ending) == Verify(old(View()), stream.value, hash, path, lib)
    {
      ending := Idle;
      if stream.None? {
        return false, ending;
      }
      if datalen + |hash| + |path| <= SLOT_SIZE {
        EnqueueKeeps(View(), stream.value, hash + path);
      }
      ok := Store(stream.value, hash, path);
      if ok {
        var ret;
        ret, ending := FlushOut(lib);
      }
    }
  }
}
