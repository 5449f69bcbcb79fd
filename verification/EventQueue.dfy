/** The work queue (src/queue.c), its producer with round-robin notification
    (src/ride.c) and any number of consumers, each with its own semaphore eventfd. */
module EventQueue {
  import opened Requests

  const QUEUE_SIZE: nat := 8192
  const EAGAIN: int := 11

  datatype Event = Event(path: Bytes, pathLen: int)

  // ---------------------------------------------------------------------------
  // The circular buffer

  datatype Buffer = Buffer(events: seq<Event>, head: nat, tail: nat)

  ghost predicate WellFormed(b: Buffer) {
    |b.events| == QUEUE_SIZE && b.head < QUEUE_SIZE && b.tail < QUEUE_SIZE
  }

  function Contents(b: Buffer): seq<Event>
    requires WellFormed(b)
  {
    if b.tail <= b.head then b.events[b.tail..b.head]
    else b.events[b.tail..] + b.events[..b.head]
  }

  predicate IsFull(b: Buffer) {
    (b.head + 1) % QUEUE_SIZE == b.tail
  }

  function Push(b: Buffer, e: Event): Buffer
    requires WellFormed(b)
  {
    b.(events := b.events[b.head := e], head := (b.head + 1) % QUEUE_SIZE)
  }

  function Pop(b: Buffer): Buffer {
    b.(tail := (b.tail + 1) % QUEUE_SIZE)
  }

  lemma PushAppends(b: Buffer, e: Event)
    requires WellFormed(b) && !IsFull(b)
    ensures WellFormed(Push(b, e)) && Contents(Push(b, e)) == Contents(b) + [e]
  {
    var p := Push(b, e);
    if b.head < b.tail {
      assert p.events[b.tail..] == b.events[b.tail..];
      assert p.events[..p.head] == b.events[..b.head] + [e];
    } else if p.head == 0 {
      assert p.tail > 0 && Contents(p) == p.events[b.tail..] + [];
    } else {
      assert p.events[b.tail..b.head + 1] == b.events[b.tail..b.head] + [e];
    }
  }

  lemma PopDropsFront(b: Buffer)
    requires WellFormed(b) && b.head != b.tail
    ensures WellFormed(Pop(b)) && Contents(b) != []
    ensures b.events[b.tail] == Contents(b)[0]
    ensures Contents(Pop(b)) == Contents(b)[1..]
  {
    var p := Pop(b);
    if b.tail + 1 == QUEUE_SIZE {
      assert p.tail == 0;
      assert b.events[b.tail..] == [b.events[b.tail]];
    } else {
      assert p.tail == b.tail + 1;
      assert b.tail > b.head ==> b.events[b.tail..] == [b.events[b.tail]] + b.events[p.tail..];
    }
    assert Contents(b) == [b.events[b.tail]] + Contents(p);
  }

  lemma LengthByIndices(b: Buffer)
    requires WellFormed(b)
    ensures |Contents(b)| < QUEUE_SIZE
    ensures IsFull(b) <==> |Contents(b)| == QUEUE_SIZE - 1
    ensures b.head == b.tail <==> Contents(b) == []
  {
  }

  /** A bounded FIFO of capacity QUEUE_SIZE - 1, across index wraparound. */
  lemma BufferIsFifo(b: Buffer, e: Event)
    requires WellFormed(b)
    ensures |Contents(b)| < QUEUE_SIZE
    ensures IsFull(b) <==> |Contents(b)| == QUEUE_SIZE - 1
    ensures b.head == b.tail <==> Contents(b) == []
    ensures !IsFull(b) ==>
              WellFormed(Push(b, e)) && Contents(Push(b, e)) == Contents(b) + [e]
    ensures Contents(b) != [] ==>
              && WellFormed(Pop(b))
              && b.events[b.tail] == Contents(b)[0]
              && Contents(Pop(b)) == Contents(b)[1..]
  {
    LengthByIndices(b);
    if !IsFull(b) {
      PushAppends(b, e);
    }
    if b.head != b.tail {
      PopDropsFront(b);
    }
  }

  /** src/queue.c, each body being one lock-protected critical section. */
  class Queue {
    var events: array<Event>
    var head: nat
    var tail: nat

    ghost predicate Valid()
      reads this, events
    {
      WellFormed(View())
    }

    ghost function View(): Buffer
      reads this, events
    {
      Buffer(events[..], head, tail)
    }

    constructor ()
      ensures Valid() && fresh(events) && Contents(View()) == []
    {
      events := new Event[QUEUE_SIZE];
      head, tail := 0, 0;
    }

    method Add(e: Event) returns (ret: int)
      requires Valid()
      modifies this`head, events
      ensures Valid()
      ensures ret == if |old(Contents(View()))| == QUEUE_SIZE - 1 then 1 else 0
      ensures Contents(View()) == old(Contents(View())) + if ret == 0 then [e] else []
      ensures View() == if old(IsFull(View())) then old(View()) else Push(old(View()), e)
    {
      LengthByIndices(View());
      if (head + 1) % QUEUE_SIZE == tail {
        return 1;
      }
      PushAppends(View(), e);
      events[head] := e;
      head := (head + 1) % QUEUE_SIZE;
      assert View() == Push(old(View()), e);
      ret := 0;
    }

    /** `tokens` is the calling thread's eventfd counter, read in semaphore mode; `fault` says
        that reading it fails otherwise than for want of a token, and the process exits. */
    method ConsumeTry(tokens: nat, fault: bool)
      returns (exited: bool, ret: int, event: Option<Event>, tokens': nat)
      requires Valid()
      modifies this`tail
      ensures Valid() && exited == fault
      ensures fault ==> event == None && View() == old(View()) && tokens' == tokens
      ensures !fault ==>
                && ret == (if tokens == 0 then EAGAIN else if old(Contents(View())) == [] then 1 else 0)
                && tokens' == if tokens == 0 then 0 else tokens - 1
      ensures !fault && ret == 0 ==>
                && event == Some(old(Contents(View()))[0])
                && Contents(View()) == old(Contents(View()))[1..]
                && View() == Pop(old(View()))
      ensures !fault && ret != 0 ==> event == None && View() == old(View())
    {
      LengthByIndices(View());
      exited, ret, event, tokens' := false, 0, None, tokens;
      if fault {
        return true, 0, None, tokens;
      }
      if tokens == 0 {
        return false, EAGAIN, None, 0;
      }
      tokens' := tokens - 1;
      if head == tail {
        return false, 1, None, tokens';
      }
      PopDropsFront(View());
      event := Some(events[tail]);
      tail := (tail + 1) % QUEUE_SIZE;
    }
  }

  // ---------------------------------------------------------------------------
  // One producer, any number of consumers

  datatype Handed = Handed(consumer: nat, event: Event)

  /** `tokens[c]` is eventfd c's counter.  A consumer holding the lock has spent a
      token and not yet looked at the buffer; the producer notifies after unlocking.
      The fields from `accepted` on are history. */
  datatype Sys = Sys(
    buffer: Buffer,
    tokens: seq<nat>,
    lock: Option<nat>,
    owing: bool,          // the producer is between queue_add and eventfd_write
    next: nat,            // efd_next
    accepted: seq<Event>,
    handed: seq<Handed>,
    drops: nat,
    empties: nat,
    writes: seq<nat>)

  datatype Action =
    | Add(event: Event)
    | Notify
    | SpendToken(consumer: nat)
    | Take(consumer: nat)

  ghost predicate Enabled(s: Sys, a: Action)
  {
    match a
    case Add(_) => !s.owing && s.lock.None?
    case Notify => s.owing
    case SpendToken(c) => c < |s.tokens| && s.lock.None?
    case Take(c) => s.lock == Some(c)
  }

  ghost predicate Shape(s: Sys) {
    WellFormed(s.buffer) && |s.tokens| == |s.writes| > 0
  }

  function Apply(s: Sys, a: Action): (t: Sys)
    requires Shape(s) && Enabled(s, a)
    ensures Shape(t)
  {
    match a
    case Add(e) =>
      if IsFull(s.buffer) then s.(drops := s.drops + 1, owing := true)
      else s.(buffer := Push(s.buffer, e), accepted := s.accepted + [e], owing := true)
    case Notify =>
      var j := s.next % |s.tokens|;
      s.(tokens := s.tokens[j := s.tokens[j] + 1],
         writes := s.writes[j := s.writes[j] + 1], next := s.next + 1, owing := false)
    case SpendToken(c) =>
      if s.tokens[c] == 0 then s
      else s.(tokens := s.tokens[c := s.tokens[c] - 1], lock := Some(c))
    case Take(c) =>
      if s.buffer.head == s.buffer.tail then s.(empties := s.empties + 1, lock := None)
      else s.(buffer := Pop(s.buffer), lock := None,
              handed := s.handed + [Handed(c, s.buffer.events[s.buffer.tail])])
  }

  function Init(consumers: nat, events: seq<Event>): Sys {
    Sys(Buffer(events, 0, 0), seq(consumers, _ => 0), None, false, 0, [], [], 0, 0,
        seq(consumers, _ => 0))
  }

  ghost predicate Runs(s: Sys, acts: seq<Action>, t: Sys)
    requires Shape(s)
    decreases |acts|
  {
    if acts == [] then t == s
    else Enabled(s, acts[0]) && Runs(Apply(s, acts[0]), acts[1..], t)
  }

  function Sum(xs: seq<nat>): nat {
    if xs == [] then 0 else xs[0] + Sum(xs[1..])
  }

  function EventsOf(hs: seq<Handed>): (es: seq<Event>)
    ensures |es| == |hs|
    ensures forall i | 0 <= i < |hs| :: es[i] == hs[i].event
  {
    seq(|hs|, i requires 0 <= i < |hs| => hs[i].event)
  }

  function Flag(b: bool): nat {
    if b then 1 else 0
  }

  /** How many of the first n notifications, dealt round-robin to k threads, went to j. */
  function Share(n: nat, j: nat, k: nat): nat
    requires k > 0
  {
    n / k + Flag(n % k > j)
  }

  ghost predicate Conserved(s: Sys)
    requires Shape(s)
  {
    && EventsOf(s.handed) + Contents(s.buffer) == s.accepted
    && Sum(s.tokens) + Flag(s.owing) + Flag(s.lock.Some?) + s.empties
       == |Contents(s.buffer)| + s.drops
    && s.empties <= s.drops
    && |s.accepted| + s.drops == s.next + Flag(s.owing)
  }

  ghost predicate Balanced(s: Sys)
    requires Shape(s)
  {
    forall j | 0 <= j < |s.writes| :: s.writes[j] == Share(s.next, j, |s.writes|)
  }

  ghost predicate Inv(s: Sys) {
    Shape(s) && Conserved(s) && Balanced(s)
  }

  lemma {:induction false} SumUpdate(xs: seq<nat>, j: nat, v: nat)
    requires j < |xs|
    ensures Sum(xs[j := v]) == Sum(xs) - xs[j] + v
    decreases j
  {
    if j == 0 {
      assert xs[0 := v][1..] == xs[1..];
    } else {
      assert xs[j := v][1..] == xs[1..][j - 1 := v];
      SumUpdate(xs[1..], j - 1, v);
    }
  }

  lemma {:induction false} SumZeros(k: nat)
    ensures Sum(seq(k, _ => 0)) == 0
  {
    if k > 0 {
      SumZeros(k - 1);
      assert seq(k, _ => 0 as nat)[1..] == seq(k - 1, _ => 0);
    }
  }

  lemma ShareStep(n: nat, j: nat, k: nat)
    requires j < k
    ensures Share(n + 1, j, k) == Share(n, j, k) + Flag(n % k == j)
  {
    var q, r := n / k, n % k;
    assert n == k * q + r;
    if r == k - 1 {
      assert n + 1 == k * (q + 1);
      DivUnique(n + 1, k, q + 1, 0);
    } else {
      DivUnique(n + 1, k, q, r + 1);
    }
  }

  lemma NotifyKeeps(s: Sys)
    requires Inv(s) && Enabled(s, Notify)
    ensures Inv(Apply(s, Notify))
  {
    var k := |s.tokens|;
    SumUpdate(s.tokens, s.next % k, s.tokens[s.next % k] + 1);
    forall j | 0 <= j < k
      ensures Apply(s, Notify).writes[j] == Share(s.next + 1, j, k)
    {
      ShareStep(s.next, j, k);
    }
  }

  lemma TakeKeeps(s: Sys, c: nat)
    requires Inv(s) && Enabled(s, Take(c))
    ensures Inv(Apply(s, Take(c)))
  {
    LengthByIndices(s.buffer);
    if s.buffer.head != s.buffer.tail {
      PopDropsFront(s.buffer);
      HandOver(s.handed, Handed(c, s.buffer.events[s.buffer.tail]), Contents(s.buffer));
    }
  }

  lemma HandOver(hs: seq<Handed>, h: Handed, queued: seq<Event>)
    requires queued != [] && queued[0] == h.event
    ensures EventsOf(hs + [h]) + queued[1..] == EventsOf(hs) + queued
  {
  }

  lemma StepKeeps(s: Sys, a: Action)
    requires Inv(s) && Enabled(s, a)
    ensures Inv(Apply(s, a))
  {
    match a
    case Add(e) => BufferIsFifo(s.buffer, e);
    case Notify => NotifyKeeps(s);
    case SpendToken(c) =>
      if s.tokens[c] > 0 {
        SumUpdate(s.tokens, c, s.tokens[c] - 1);
      }
    case Take(c) => TakeKeeps(s, c);
  }

  lemma {:induction false} RunKeeps(s: Sys, acts: seq<Action>, t: Sys)
    requires Inv(s) && Runs(s, acts, t)
    ensures Inv(t)
    decreases |acts|
  {
    if acts != [] {
      StepKeeps(s, acts[0]);
      RunKeeps(Apply(s, acts[0]), acts[1..], t);
    }
  }

  lemma InitHolds(consumers: nat, events: seq<Event>)
    requires consumers > 0 && |events| == QUEUE_SIZE
    ensures Inv(Init(consumers, events))
  {
    SumZeros(consumers);
  }

  /** Over every run: accepted events leave in order, each to one consumer; and
      tokens account exactly for queued items, drops and fruitless wake-ups. */
  lemma RunConserves(consumers: nat, events: seq<Event>, acts: seq<Action>, t: Sys)
    requires consumers > 0 && |events| == QUEUE_SIZE
    requires Runs(Init(consumers, events), acts, t)
    ensures Shape(t) && EventsOf(t.handed) + Contents(t.buffer) == t.accepted
    ensures |Contents(t.buffer)| <= QUEUE_SIZE - 1
    ensures Sum(t.tokens) + Flag(t.owing) + Flag(t.lock.Some?)
            == |Contents(t.buffer)| + t.drops - t.empties
    ensures t.empties <= t.drops
    // no queued item is without a token
    ensures |Contents(t.buffer)| <= Sum(t.tokens) + Flag(t.owing) + Flag(t.lock.Some?)
    // a wake-up about to find nothing has an earlier drop to blame
    ensures t.lock.Some? && Contents(t.buffer) == [] ==> t.empties < t.drops
  {
    InitHolds(consumers, events);
    RunKeeps(Init(consumers, events), acts, t);
    BufferIsFifo(t.buffer, Event([], 0));
  }

  /** Round-robin: after any run, thread j was notified ceil((n - j) / k) times, dropped
      events included, so two threads never differ by more than one. */
  lemma RunBalances(consumers: nat, events: seq<Event>, acts: seq<Action>, t: Sys)
    requires consumers > 0 && |events| == QUEUE_SIZE
    requires Runs(Init(consumers, events), acts, t)
    ensures |t.writes| == consumers
    ensures |t.accepted| + t.drops == t.next + Flag(t.owing)
    ensures forall j | 0 <= j < consumers :: t.writes[j] == CeilShare(t.next, j, consumers)
    ensures forall i, j | 0 <= i < consumers && 0 <= j < consumers :: t.writes[i] <= t.writes[j] + 1
  {
    InitHolds(consumers, events);
    RunKeeps(Init(consumers, events), acts, t);
    ConsumersFixed(Init(consumers, events), acts, t);
    forall j | 0 <= j < consumers
      ensures t.writes[j] == CeilShare(t.next, j, consumers)
    {
      ShareIsCeiling(t.next, j, consumers);
    }
  }

  /** ceil((n - j) / k), or 0 when thread j's turn has not come yet. */
  function CeilShare(n: nat, j: nat, k: nat): nat
    requires k > 0
  {
    if j < n then (n - j + k - 1) / k else 0
  }

  lemma ShareIsCeiling(n: nat, j: nat, k: nat)
    requires j < k
    ensures Share(n, j, k) == CeilShare(n, j, k)
  {
    var q, r := n / k, n % k;
    assert n == k * q + r;
    if j < n {
      if r > j {
        assert n - j + k - 1 == k * (q + 1) + (r - j - 1);
        DivUnique(n - j + k - 1, k, q + 1, r - j - 1);
      } else {
        assert n - j + k - 1 == k * q + (r - j + k - 1);
        DivUnique(n - j + k - 1, k, q, r - j + k - 1);
      }
    } else {
      DivUnique(n, k, 0, n);
    }
  }

  lemma DivUnique(x: int, k: int, q: int, r: int)
    requires k > 0 && x == k * q + r && 0 <= r < k
    ensures x / k == q && x % k == r
  {
    var d := x / k - q;
    assert k * d == r - x % k;
    assert d >= 1 ==> k * d >= k;
    assert d <= -1 ==> k * d <= -k;
  }

  lemma {:induction false} ConsumersFixed(s: Sys, acts: seq<Action>, t: Sys)
    requires Shape(s) && Runs(s, acts, t)
    ensures |t.writes| == |s.writes|
    decreases |acts|
  {
    if acts != [] {
      ConsumersFixed(Apply(s, acts[0]), acts[1..], t);
    }
  }
}
