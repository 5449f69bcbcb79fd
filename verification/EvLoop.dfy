/** src/ev.c: the loop's rings on the shared arrays and 32-bit counters: submitting a request
    and publishing the completion head.  The ghost rings tie each method to the steps of the
    concurrent protocol in `SpscRing`; the dispatch loop itself is `Processor.Proc.RunBatch`. */
module EvLoop {
  import opened Words
  import opened Requests
  import R = SpscRing

  const EV_FULL: nat := 1

  lemma RingSizes()
    ensures Pow2(7) == SQ_ENTRIES && Pow2(8) == CQ_ENTRIES
  {
    assert Pow2(4) == 16;
  }

  class Loop {
    const sqMask: nat
    const cqMask: nat
    const sqes: array<Sqe>
    const cqes: array<Cqe>
    var sqTail: Word
    var cqHead: Word
    var cqTail: Word
    var log: seq<Sqe>  // history: what was published
    var posts: nat  // history: how many completions were posted
    ghost var sq: R.Ring<Sqe>
    ghost var cq: R.Ring<Cqe>

    ghost predicate Valid()
      reads this, sqes, cqes
    {
      && R.Inv(sq) && sq.producer.Idle?
      && R.Inv(cq) && cq.consumer.Resting? && cq.producer.Idle?
      && sqes[..] == sq.slots && sqTail == sq.tail && sqMask == sq.Mask()
      && cqes[..] == cq.slots && cqHead == cq.head && cqTail == cq.tail && cqMask == cq.Mask()
      && log == sq.sent && posts == |cq.sent|
    }

    /** The kernel grants the requested submission entries and twice as many completions. */
    constructor (blankSqe: Sqe, blankCqe: Cqe)
      ensures Valid() && fresh(sqes) && fresh(cqes)
      ensures sqes.Length == SQ_ENTRIES && cqes.Length == CQ_ENTRIES
      ensures sq.sent == [] && cq.sent == [] && sq.seen == 0 && cq.released == 0 && sq.consumer.Resting?
    {
      RingSizes();
      sqMask, cqMask := SQ_ENTRIES - 1, CQ_ENTRIES - 1;
      sqes := new Sqe[SQ_ENTRIES](_ => blankSqe);
      cqes := new Cqe[CQ_ENTRIES](_ => blankCqe);
      sqTail, cqHead, cqTail, log, posts := 0, 0, 0, [], 0;
      sq := R.Init(7, seq(SQ_ENTRIES, _ => blankSqe));
      cq := R.Init(8, seq(CQ_ENTRIES, _ => blankCqe));
    }

    /** `head` is the acquire load of the kernel's counter; `at` is its unwrapped value. */
    method IouReq(id: ReqId, req: Io, head: Word, ghost at: nat) returns (code: nat)
      requires Valid()
      requires R.Enabled(sq, R.LoadHead(at)) && head == Wrap(at)
      modifies this`sqTail, this`log, this`sq, sqes
      ensures Valid()
      ensures code == 0 || code == EV_FULL
      ensures code == EV_FULL <==> |old(sq.sent)| - at == sqes.Length
      ensures sq.sent == old(sq.sent) + if code == 0 then [ToSqe(id, req)] else []
      ensures code == 0 ==> SameRequest(sq.sent[|old(sq.sent)|], id, req)
      ensures sq.seen == at && sq.released == old(sq.released) && sq.received == old(sq.received)
      ensures sq.consumer == old(sq.consumer)
      ensures R.Runs(old(sq),
                     [R.LoadHead(at), R.Fill(ToSqe(id, req))] + if code == 0 then [R.Publish] else [],
                     sq)
    {
      var tail := sqTail;
      var index := And(tail, sqMask);
      if Sub(tail, head) > sqMask {
        RefusedSteps(sq, at, ToSqe(id, req));
        sq := sq.(seen := at);
        return EV_FULL;
      }
      AcceptedSteps(sq, at, ToSqe(id, req));
      sqes[index] := ToSqe(id, req);
      sqTail, log := Inc(tail), log + [ToSqe(id, req)];
      sq := Submitted(sq, at, ToSqe(id, req));
      code := 0;
    }

    /** The kernel takes and releases what was published up to `at`. */
    ghost method KernelTakes(at: nat)
      requires Valid() && sq.consumer.Resting? && at <= |sq.sent|
      modifies this`sq
      ensures Valid() && sq.consumer.Resting? && at <= sq.released
      ensures sq.sent == old(sq.sent) && sq.seen == old(sq.seen)
    {
      if at > sq.released {
        BatchReleased(sq, at);
        sq := Drained(sq, at);
      }
    }

    /** The kernel posts a completion, having found room beyond the published head. */
    method KernelPosts(cqe: Cqe)
      requires Valid() && |cq.sent| - cq.released < cqes.Length
      modifies this`cqTail, this`posts, this`cq, cqes
      ensures Valid() && cq.sent == old(cq.sent) + [cqe] && cq.released == old(cq.released)
    {
      if R.Full(cq, Wrap(cq.released)) {
        RefusedSteps(cq, cq.released, cqe);
      }
      AcceptedSteps(cq, cq.released, cqe);
      var index := And(cqTail, cqMask);
      cqes[index] := cqe;
      cqTail, posts := Inc(cqTail), posts + 1;
      cq := Submitted(cq, cq.released, cqe);
    }

    /** The k-th completion of a batch, and the counter's next value, whatever the kernel has
        posted since the batch's tail was loaded; `words` are the counter's values in the batch. */
    method CqeAt(i: Word, ghost words: seq<Word>, ghost from: nat, ghost k: nat) returns (cqe: Cqe, following: Word)
      requires Valid() && from == cq.released && Counting(words, from)
      requires k + 1 < |words| <= |cq.sent| - from + 1 && i == words[k]
      ensures cqe == cq.sent[from + k] && following == words[k + 1]
    {
      assert At(words, k) == Wrap(from + k) && At(words, k + 1) == Wrap(from + k + 1);
      EntryAt(cq, from + |words| - 1, from + k);
      IncWrap(from + k);
      var index := And(i, cqMask);
      cqe := cqes[index];
      following := Inc(i);
    }

    /** The store that ends a batch releases exactly the completions dispatched in it. */
    method Release(tail: Word, ghost at: nat)
      requires Valid() && R.Enabled(cq, R.LoadTail(at)) && tail == Wrap(at)
      modifies this`cqHead, this`cq
      ensures Valid() && cqHead == tail && cq == Drained(old(cq), at)
      ensures at - old(cq.released) == Sub(tail, old(cqHead)) <= cqes.Length
    {
      BatchSpan(cq, at);
      BatchReleased(cq, at);
      cqHead := tail;
      cq := Drained(cq, at);
    }
  }

  function At(words: seq<Word>, j: nat): Word
    requires j < |words|
  {
    words[j]
  }

  /** `words` are the counter's values at the positions from `from` on. */
  ghost predicate Counting(words: seq<Word>, from: nat) {
    forall j: nat {:trigger At(words, j)} | j < |words| :: At(words, j) == Wrap(from + j)
  }

  lemma Counters(from: nat, n: nat) returns (words: seq<Word>)
    ensures |words| == n + 1 && Counting(words, from) && words[0] == Wrap(from) && words[n] == Wrap(from + n)
  {
    words := seq<Word>(n + 1, j requires 0 <= j <= n => Wrap(from + j));
  }

  /** The counter meets the loaded tail only at the end. */
  lemma NoEarlyEnd<T>(r: R.Ring<T>, words: seq<Word>)
    requires R.Inv(r) && words != [] && Counting(words, r.released)
    requires R.Enabled(r, R.LoadTail(r.released + |words| - 1))
    ensures forall j | 0 <= j < |words| - 1 :: words[j] != words[|words| - 1]
  {
    var n := |words| - 1;
    assert At(words, n) == Wrap(r.released + n);
    forall j | 0 <= j < n ensures words[j] != words[n] {
      assert At(words, j) == Wrap(r.released + j);
      EntryAt(r, r.released + n, r.released + j);
    }
  }

  /** The completion ring after loading the tail at `at`, reading the batch and releasing it. */
  ghost function Drained<T>(r: R.Ring<T>, at: nat): R.Ring<T>
    requires at <= |r.sent|
  {
    r.(head := Wrap(at), received := r.sent[..at], released := at, limit := at)
  }

  ghost function Reading<T>(r: R.Ring<T>, at: nat, k: nat): R.Ring<T>
    requires k <= |r.sent|
  {
    r.(consumer := R.Draining(Wrap(k), Wrap(at)), limit := at, received := r.sent[..k])
  }

  lemma {:induction false} ReadingKeeps<T>(r: R.Ring<T>, at: nat, k: nat)
    requires R.Inv(r) && R.Enabled(r, R.LoadTail(at)) && r.released <= k <= at
    ensures R.Inv(Reading(r, at, k))
    decreases k
  {
    if k == r.released {
      R.StepKeeps(r, R.LoadTail(at));
      assert R.Apply(r, R.LoadTail(at)) == Reading(r, at, k);
    } else {
      ReadingKeeps(r, at, k - 1);
      ReadsFront(r, at, k - 1);
    }
  }

  lemma ReadsFront<T>(r: R.Ring<T>, at: nat, k: nat)
    requires k < at <= |r.sent| && R.Inv(Reading(r, at, k))
    ensures Wrap(k) != Wrap(at) && And(Wrap(k), r.Mask()) < |r.slots|
    ensures r.slots[And(Wrap(k), r.Mask())] == r.sent[k]
    ensures R.Inv(Reading(r, at, k + 1))
  {
    var d := Reading(r, at, k);
    R.WrapInjective(d);
    MaskedIndex(k, r.logSize);
    R.ReadIsFront(d);
    R.ReadKeeps(d);
    IncWrap(k);
    assert r.sent[..k] + [r.sent[k]] == r.sent[..k + 1];
    assert R.Apply(d, R.Read) == Reading(r, at, k + 1);
  }

  lemma EntryAt<T>(r: R.Ring<T>, at: nat, k: nat)
    requires R.Inv(r) && R.Enabled(r, R.LoadTail(at)) && r.released <= k < at
    ensures Wrap(k) != Wrap(at) && And(Wrap(k), r.Mask()) < |r.slots|
    ensures r.slots[And(Wrap(k), r.Mask())] == r.sent[k]
  {
    ReadingKeeps(r, at, k);
    ReadsFront(r, at, k);
  }

  lemma BatchSpan<T>(r: R.Ring<T>, at: nat)
    requires R.Inv(r) && R.Enabled(r, R.LoadTail(at))
    ensures r.released <= at && Sub(Wrap(at), r.head) == at - r.released <= r.Entries()
    ensures r.received == r.sent[..r.released]
  {
    ReadingKeeps(r, at, r.released);
    R.WrapInjective(Reading(r, at, r.released));
  }

  lemma BatchReleased<T>(r: R.Ring<T>, at: nat)
    requires R.Inv(r) && R.Enabled(r, R.LoadTail(at))
    ensures R.Inv(Drained(r, at))
    ensures r.sent[..at] == r.sent[..r.released] + r.sent[r.released..at]
  {
    ReadingKeeps(r, at, at);
    R.StepKeeps(Reading(r, at, at), R.Release);
    assert R.Apply(Reading(r, at, at), R.Release) == Drained(r, at);
  }

  /** The submission ring after a load, a fill that found room, and a publish. */
  function Submitted<T>(r: R.Ring<T>, at: nat, v: T): R.Ring<T>
    requires And(r.tail, r.Mask()) < |r.slots|
  {
    r.(slots := r.slots[And(r.tail, r.Mask()) := v], tail := Inc(r.tail),
       sent := r.sent + [v], seen := at)
  }

  lemma RefusedSteps<T>(r: R.Ring<T>, at: nat, v: T)
    requires R.Inv(r) && r.producer.Idle? && R.Enabled(r, R.LoadHead(at)) && R.Full(r, Wrap(at))
    ensures |r.sent| - at == r.Entries() && R.Inv(r.(seen := at))
    ensures R.Runs(r, [R.LoadHead(at), R.Fill(v)] + [], r.(seen := at))
  {
    R.StepKeeps(r, R.LoadHead(at));
    var r1 := R.Apply(r, R.LoadHead(at));
    R.FillKeeps(r1, v);
    RunsTwo(r, R.LoadHead(at), R.Fill(v));
  }

  lemma AcceptedSteps<T>(r: R.Ring<T>, at: nat, v: T)
    requires R.Inv(r) && r.producer.Idle? && R.Enabled(r, R.LoadHead(at)) && !R.Full(r, Wrap(at))
    ensures |r.sent| - at < r.Entries() && And(r.tail, r.Mask()) < |r.slots|
    ensures R.Inv(Submitted(r, at, v))
    ensures R.Runs(r, [R.LoadHead(at), R.Fill(v)] + [R.Publish], Submitted(r, at, v))
  {
    MaskedIndex(|r.sent|, r.logSize);
    R.StepKeeps(r, R.LoadHead(at));
    var r1 := R.Apply(r, R.LoadHead(at));
    R.FillKeeps(r1, v);
    var r2 := R.Apply(r1, R.Fill(v));
    R.PublishKeeps(r2);
    RunsThree(r, R.LoadHead(at), R.Fill(v), R.Publish);
  }

  lemma RunsTwo<T>(r: R.Ring<T>, a: R.Action<T>, b: R.Action<T>)
    requires R.WellSized(r) && R.Enabled(r, a) && R.Enabled(R.Apply(r, a), b)
    ensures R.Runs(r, [a, b] + [], R.Apply(R.Apply(r, a), b))
  {
    var r1 := R.Apply(r, a);
    assert ([a, b] + [])[1..] == [b];
    assert R.Runs(R.Apply(r1, b), [], R.Apply(r1, b));
    assert R.Runs(r1, [b], R.Apply(r1, b)) by { assert [b][1..] == []; }
  }

  lemma RunsThree<T>(r: R.Ring<T>, a: R.Action<T>, b: R.Action<T>, c: R.Action<T>)
    requires R.WellSized(r) && R.Enabled(r, a) && R.Enabled(R.Apply(r, a), b)
    requires R.Enabled(R.Apply(R.Apply(r, a), b), c)
    ensures R.Runs(r, [a, b] + [c], R.Apply(R.Apply(R.Apply(r, a), b), c))
  {
    RunsTwo(R.Apply(r, a), b, c);
    assert ([a, b] + [c])[1..] == [b, c] + [];
  }
}
