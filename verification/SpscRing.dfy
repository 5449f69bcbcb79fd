/** The shared-memory ring protocol behind both io_uring queues (src/ev.c).

    One producer and one consumer run concurrently and share two 32-bit counters
    and a power-of-two slot array.  The submission ring has user space as producer
    and the kernel as consumer; the completion ring has the roles exchanged.  Every
    decision below is taken on wrapped words only.  The last five fields of `Ring`
    record the history and are never consulted by a step's effect on the words and
    slots; an acquire load may return any value published since the previous load. */
module SpscRing {
  import opened Words

  datatype Producer<T> =
    | Idle
    | Loaded(head: Word)   // holds a snapshot of the consumer's counter
    | Filled(value: T)     // slot written, counter not yet published

  datatype Consumer =
    | Resting
    | Draining(next: Word, end: Word)

  datatype Ring<T> = Ring(
    logSize: nat,
    slots: seq<T>,
    head: Word,
    tail: Word,
    producer: Producer<T>,
    consumer: Consumer,
    sent: seq<T>,       // every value published, in order
    received: seq<T>,   // every value read, in order
    released: nat,      // unwrapped value of `head`
    seen: nat,          // unwrapped value the producer last loaded from `head`
    limit: nat)         // unwrapped value the consumer last loaded from `tail`
  {
    function Entries(): nat {
      Pow2(logSize)
    }

    function Mask(): nat {
      Pow2(logSize) - 1
    }
  }

  datatype Action<T> =
    | LoadHead(at: nat)
    | Fill(value: T)
    | Publish
    | LoadTail(at: nat)
    | Read
    | Release

  function Init<T>(logSize: nat, slots: seq<T>): Ring<T> {
    Ring(logSize, slots, 0, 0, Idle, Resting, [], [], 0, 0, 0)
  }

  ghost predicate WellSized<T>(r: Ring<T>) {
    r.logSize <= 31 && |r.slots| == r.Entries()
  }

  /** The producer's full check, `tail - head > mask` on words. */
  predicate Full<T>(r: Ring<T>, head: Word) {
    Sub(r.tail, head) > r.Mask()
  }

  ghost predicate Enabled<T>(r: Ring<T>, a: Action<T>) {
    match a
    case LoadHead(at) => r.producer.Idle? && r.seen <= at <= r.released
    case Fill(_) => r.producer.Loaded?
    case Publish => r.producer.Filled?
    case LoadTail(at) => r.consumer.Resting? && r.limit <= at <= |r.sent|
    case Read => r.consumer.Draining? && r.consumer.next != r.consumer.end
    case Release => r.consumer.Draining? && r.consumer.next == r.consumer.end
  }

  function Apply<T>(r: Ring<T>, a: Action<T>): Ring<T>
    requires WellSized(r) && Enabled(r, a)
  {
    match a
    case LoadHead(at) =>
      r.(producer := Loaded(Wrap(at)), seen := at)
    case Fill(v) =>
      if Full(r, r.producer.head) then
        r.(producer := Idle)
      else
        r.(slots := r.slots[And(r.tail, r.Mask()) := v], producer := Filled(v))
    case Publish =>
      r.(tail := Inc(r.tail), producer := Idle, sent := r.sent + [r.producer.value])
    case LoadTail(at) =>
      r.(consumer := Draining(r.head, Wrap(at)), limit := at)
    case Read =>
      r.(received := r.received + [r.slots[And(r.consumer.next, r.Mask())]],
         consumer := r.consumer.(next := Inc(r.consumer.next)))
    case Release =>
      r.(head := r.consumer.end, released := |r.received|, consumer := Resting)
  }

  /** `s` is where the interleaving `acts` takes `r`. */
  ghost predicate Runs<T>(r: Ring<T>, acts: seq<Action<T>>, s: Ring<T>)
    requires WellSized(r)
    decreases |acts|
  {
    if acts == [] then s == r
    else Enabled(r, acts[0]) && Runs(Apply(r, acts[0]), acts[1..], s)
  }

  // ---------------------------------------------------------------------------
  // Invariant

  ghost predicate CountersAgree<T>(r: Ring<T>) {
    && r.tail == Wrap(|r.sent|)
    && r.head == Wrap(r.released)
    && r.seen <= r.released <= |r.received| <= |r.sent| <= r.seen + r.Entries()
    && r.limit <= |r.sent|
    && (r.consumer.Resting? ==> |r.received| == r.released == r.limit)
    && (r.consumer.Draining? ==>
          && r.consumer.next == Wrap(|r.received|)
          && r.consumer.end == Wrap(r.limit)
          && |r.received| <= r.limit)
    && (r.producer.Loaded? ==> r.producer.head == Wrap(r.seen))
    && (r.producer.Filled? ==> |r.sent| < r.seen + r.Entries())
  }

  ghost predicate SlotsHold<T>(r: Ring<T>)
    requires WellSized(r)
  {
    && (forall j | r.released <= j < |r.sent| :: r.slots[j % r.Entries()] == r.sent[j])
    && (r.producer.Filled? ==> r.slots[|r.sent| % r.Entries()] == r.producer.value)
  }

  ghost predicate Inv<T>(r: Ring<T>) {
    && WellSized(r)
    && CountersAgree(r)
    && SlotsHold(r)
    && r.received <= r.sent
  }

  lemma SizeBound(k: nat)
    requires k <= 31
    ensures Pow2(k) < WORD
  {
    Pow2At32();
    Pow2Split(k, 31 - k);
    assert Pow2(32) == 2 * (Pow2(k) * Pow2(31 - k));
    MulAtLeast(Pow2(k), Pow2(31 - k));
  }

  lemma MulAtLeast(a: nat, b: nat)
    requires b >= 1
    ensures a * b >= a
  {
  }

  /** Reads see the oldest unread value, whatever the counters have wrapped to. */
  lemma ReadIsFront<T>(r: Ring<T>)
    requires Inv(r) && Enabled(r, Read)
    ensures |r.received| < r.limit
    ensures r.slots[And(r.consumer.next, r.Mask())] == r.sent[|r.received|]
  {
    MaskedIndex(|r.received|, r.logSize);
    assert r.slots[|r.received| % r.Entries()] == r.sent[|r.received|];
  }

  lemma FillKeeps<T>(r: Ring<T>, v: T)
    requires Inv(r) && Enabled(r, Fill(v))
    ensures Inv(Apply(r, Fill(v)))
    ensures Full(r, r.producer.head) <==> |r.sent| == r.seen + r.Entries()
  {
    SizeBound(r.logSize);
    SubWrap(|r.sent|, r.seen);
    if !Full(r, r.producer.head) {
      MaskedIndex(|r.sent|, r.logSize);
      forall j | r.released <= j < |r.sent|
        ensures j % r.Entries() != |r.sent| % r.Entries()
      {
        IndexDistinct(j, |r.sent|, r.Entries());
      }
    }
  }

  lemma StepKeeps<T>(r: Ring<T>, a: Action<T>)
    requires Inv(r) && Enabled(r, a)
    ensures Inv(Apply(r, a))
  {
    match a
    case Fill(v) => FillKeeps(r, v);
    case Publish => PublishKeeps(r);
    case Read => ReadKeeps(r);
    case Release => WrapInjective(r);
    case _ =>
  }

  lemma PublishKeeps<T>(r: Ring<T>)
    requires Inv(r) && Enabled(r, Publish)
    ensures Inv(Apply(r, Publish))
  {
    IncWrap(|r.sent|);
  }

  lemma ReadKeeps<T>(r: Ring<T>)
    requires Inv(r) && Enabled(r, Read)
    ensures Inv(Apply(r, Read))
  {
    ReadIsFront(r);
    IncWrap(|r.received|);
    var s := Apply(r, Read);
    assert s.received == r.sent[..|r.received| + 1];
    assert CountersAgree(s);
    assert s.slots == r.slots && s.sent == r.sent && s.released == r.released;
  }

  /** `next == end` on words means the batch is really exhausted. */
  lemma WrapInjective<T>(r: Ring<T>)
    requires Inv(r) && r.consumer.Draining?
    ensures Sub(r.consumer.end, r.consumer.next) == r.limit - |r.received| <= r.Entries()
    ensures r.consumer.next == r.consumer.end <==> |r.received| == r.limit
  {
    SizeBound(r.logSize);
    SubWrap(r.limit, |r.received|);
  }

  lemma {:induction false} RunKeeps<T>(r: Ring<T>, acts: seq<Action<T>>, s: Ring<T>)
    requires Inv(r) && Runs(r, acts, s)
    ensures Inv(s)
    decreases |acts|
  {
    if acts != [] {
      StepKeeps(r, acts[0]);
      RunKeeps(Apply(r, acts[0]), acts[1..], s);
    }
  }

  // ---------------------------------------------------------------------------
  // What the two sides observe

  /** The FIFO the ring implements: published and not yet read. */
  function Pending<T>(r: Ring<T>): seq<T>
    requires |r.received| <= |r.sent|
  {
    r.sent[|r.received|..]
  }

  /** Every interleaving from an empty ring, however often the counters wrap:
      the consumer has read exactly a prefix of what was published, in order, and
      every slot whose value may still be read holds that value. */
  lemma RunIsFifo<T>(logSize: nat, slots: seq<T>, acts: seq<Action<T>>, s: Ring<T>)
    requires logSize <= 31 && |slots| == Pow2(logSize)
    requires Runs(Init(logSize, slots), acts, s)
    ensures s.received <= s.sent
    ensures |Pending(s)| <= |s.slots| == s.Entries() == Pow2(logSize)
    ensures forall j | s.released <= j < |s.sent| ::
              s.slots[And(Wrap(j), s.Mask())] == s.sent[j]
  {
    RunKeeps(Init(logSize, slots), acts, s);
    forall j | s.released <= j < |s.sent|
      ensures s.slots[And(Wrap(j), s.Mask())] == s.sent[j]
    {
      MaskedIndex(j, s.logSize);
    }
    LogSizeFixed(Init(logSize, slots), acts, s);
  }

  lemma {:induction false} LogSizeFixed<T>(r: Ring<T>, acts: seq<Action<T>>, s: Ring<T>)
    requires WellSized(r) && Runs(r, acts, s)
    ensures s.logSize == r.logSize
    decreases |acts|
  {
    if acts != [] {
      LogSizeFixed(Apply(r, acts[0]), acts[1..], s);
    }
  }

  /** Step-by-step refinement of a bounded FIFO.  Only Publish adds, at the back;
      only Read removes, from the front, and what it reads is that front; a value is
      refused only when the observed occupancy is the whole ring. */
  lemma StepRefinesFifo<T>(r: Ring<T>, a: Action<T>)
    requires Inv(r) && Enabled(r, a)
    ensures Inv(Apply(r, a))
    ensures match a
            case Publish => Pending(Apply(r, a)) == Pending(r) + [r.producer.value]
            case Read =>
              && Pending(r) != []
              && Pending(Apply(r, a)) == Pending(r)[1..]
              && Apply(r, a).received == r.received + [Pending(r)[0]]
            case Fill(v) =>
              && Pending(Apply(r, a)) == Pending(r)
              && (Apply(r, a).producer.Filled? <==> |r.sent| - r.seen < r.Entries())
              && (Apply(r, a).producer.Filled? ==> Apply(r, a).producer.value == v)
            case _ => Pending(Apply(r, a)) == Pending(r)
  {
    StepKeeps(r, a);
    match a
    case Fill(v) => FillKeeps(r, v);
    case Read => ReadIsFront(r);
    case _ =>
  }

  function CountReads<T>(acts: seq<Action<T>>): nat {
    if acts == [] then 0 else (if acts[0].Read? then 1 else 0) + CountReads(acts[1..])
  }

  /** A reaping batch entered at (next, end) and left at next == end performs exactly
      end - next reads (mod 2^32), at most the ring size, no matter what the producer
      publishes meanwhile. */
  lemma {:induction false} BatchLength<T>(r: Ring<T>, acts: seq<Action<T>>, s: Ring<T>)
    requires Inv(r) && r.consumer.Draining? && Runs(r, acts, s)
    requires forall a | a in acts :: !a.Release?
    requires s.consumer.Draining? && s.consumer.next == s.consumer.end
    ensures CountReads(acts) == Sub(r.consumer.end, r.consumer.next) <= r.Entries()
    ensures s.received == r.sent[..r.limit]
    decreases |acts|
  {
    WrapInjective(r);
    if acts != [] {
      var r1 := Apply(r, acts[0]);
      assert acts[0] in acts;
      StepKeeps(r, acts[0]);
      if acts[0].Read? {
        ReadIsFront(r);
        WrapInjective(r1);
      }
      BatchLength(r1, acts[1..], s);
    }
  }
}
