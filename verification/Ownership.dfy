/** Where every request object is, over every run: the invariant behind the ownership
    partition, kept by each primitive the callbacks and the kernel are built from. */
module Ownership {
  import opened Requests
  import opened Runtime
  import opened HashSystem

  ghost predicate PendingOk(s: Sys, id: ReqId)
    requires id in s.proc.ios
  {
    var loc := s.proc.ios[id].loc;
    loc.Pending? ==>
      && loc.pos < |s.proc.subs|
      && s.proc.subs[loc.pos] == ToSqe(id, s.proc.ios[id])
      && loc.pos !in s.done
  }

  ghost predicate InCqOk(s: Sys, id: ReqId)
    requires id in s.proc.ios
  {
    var loc := s.proc.ios[id].loc;
    loc.InCq? ==>
      && s.reaped <= loc.index < |s.posted|
      && s.posted[loc.index].id == id
      && s.posted[loc.index].pos == loc.pos
      && !s.posted[loc.index].more
      && loc.pos in s.done
      && loc.pos < |s.proc.subs| && s.proc.subs[loc.pos] == ToSqe(id, s.proc.ios[id])
  }

  ghost predicate LostOk(s: Sys, id: ReqId)
    requires id in s.proc.ios
  {
    var loc := s.proc.ios[id].loc;
    loc.Lost? ==> loc.index < |s.proc.lost| && s.proc.lost[loc.index].id == id
  }

  ghost predicate SqeOk(s: Sys, q: nat)
    requires q < |s.proc.subs|
  {
    var id := s.proc.subs[q].id;
    && id in s.proc.ios
    && (q !in s.done ==> s.proc.ios[id].loc == Pending(q))
  }

  ghost predicate CqeOk(s: Sys, k: nat)
    requires k < |s.posted|
  {
    var c := s.posted[k];
    && c.id in s.proc.ios && c.pos < s.consumed
    && (c.more ==> c.id == Poll && c.res >= 0)
    && (!c.more ==> s.proc.ios[c.id].loc == InCq(c.pos, k))
  }

  ghost predicate Locs(s: Sys) {
    && HasIds(s.proc)
    && s.proc.seen <= s.consumed <= |s.proc.subs|
    && s.reaped <= |s.posted|
    && (forall q | q in s.done :: q < s.consumed)
    && (forall q | 0 <= q < |s.proc.subs| :: SqeOk(s, q))
    && (forall k | s.reaped <= k < |s.posted| :: CqeOk(s, k))
    && (forall id | id in s.proc.ios :: PendingOk(s, id) && InCqOk(s, id) && LostOk(s, id))
    && (forall k | 0 <= k < |s.proc.lost| ::
          s.proc.lost[k].id in s.proc.ios && s.proc.ios[s.proc.lost[k].id].loc == Lost(k))
  }

  /** The free list holds, once each, exactly the slots not in flight. */
  ghost predicate FreeList(p: Proc) {
    && HasIds(p)
    && p.nrFree == |p.free|
    && (forall a | 0 <= a < |p.free| :: p.free[a] < |p.slots|)
    && (forall a, b | 0 <= a < b < |p.free| :: p.free[a] != p.free[b])
    && (forall i | 0 <= i < |p.slots| ::
          && (i in p.free <==> p.ios[Slot(i)].loc == Free)
          && (p.slots[i].inFlight <==> p.ios[Slot(i)].loc != Free))
  }

  ghost predicate Own(s: Sys) {
    Locs(s) && FreeList(s.proc)
  }

  /** An object no ring entry or completion refers to. */
  predicate AtHand(p: Proc, id: ReqId) {
    id in p.ios && (p.ios[id].loc.Held? || p.ios[id].loc.Parked?)
  }

  // ---------------------------------------------------------------------------
  // Primitives

  lemma TakeKeeps(s: Sys, upto: nat)
    requires Own(s) && s.consumed <= upto <= |s.proc.subs|
    ensures Own(Take(s, upto))
  {
    var t := Take(s, upto);
    forall q | 0 <= q < |t.proc.subs| ensures SqeOk(t, q) { assert SqeOk(s, q); }
    forall k | t.reaped <= k < |t.posted| ensures CqeOk(t, k) { assert CqeOk(s, k); }
    forall id | id in t.proc.ios ensures PendingOk(t, id) && InCqOk(t, id) && LostOk(t, id) {
      assert PendingOk(s, id) && InCqOk(s, id) && LostOk(s, id);
    }
  }

  ghost predicate SameRings(s: Sys, t: Sys) {
    && t == s.(proc := t.proc)
    && t.proc.subs == s.proc.subs && t.proc.seen == s.proc.seen && t.proc.lost == s.proc.lost
    && |t.proc.slots| == |s.proc.slots|
  }

  predicate Unreferenced(loc: Loc) {
    loc.Free? || loc.Held? || loc.Parked?
  }

  /** An object no ring entry refers to moves to another such place. */
  ghost predicate Moved(s: Sys, t: Sys, id: ReqId) {
    && SameRings(s, t) && id in s.proc.ios && id in t.proc.ios
    && t.proc.ios == s.proc.ios[id := t.proc.ios[id]]
    && Unreferenced(s.proc.ios[id].loc) && Unreferenced(t.proc.ios[id].loc)
  }

  lemma MovedSqe(s: Sys, t: Sys, id: ReqId, q: nat)
    requires Moved(s, t, id) && q < |s.proc.subs| && SqeOk(s, q)
    ensures SqeOk(t, q)
  {
  }

  lemma MovedCqe(s: Sys, t: Sys, id: ReqId, k: nat)
    requires Moved(s, t, id) && k < |s.posted| && CqeOk(s, k)
    ensures CqeOk(t, k)
  {
  }

  lemma MovedObject(s: Sys, t: Sys, id: ReqId, x: ReqId)
    requires Moved(s, t, id) && x in s.proc.ios && PendingOk(s, x) && InCqOk(s, x) && LostOk(s, x)
    ensures x in t.proc.ios && PendingOk(t, x) && InCqOk(t, x) && LostOk(t, x)
  {
  }

  lemma MoveKeepsLocs(s: Sys, t: Sys, id: ReqId)
    requires Locs(s) && Moved(s, t, id)
    ensures Locs(t)
  {
    assert t.proc.ios.Keys == s.proc.ios.Keys;
    forall q | 0 <= q < |t.proc.subs| ensures SqeOk(t, q) { MovedSqe(s, t, id, q); }
    forall k | t.reaped <= k < |t.posted| ensures CqeOk(t, k) { MovedCqe(s, t, id, k); }
    forall x | x in t.proc.ios ensures PendingOk(t, x) && InCqOk(t, x) && LostOk(t, x) {
      MovedObject(s, t, id, x);
    }
  }

  /** Moving an object between places other than the free list. */
  lemma MoveKeepsFreeList(p: Proc, r: Proc, id: ReqId)
    requires FreeList(p) && id in p.ios && id in r.ios && r.ios == p.ios[id := r.ios[id]]
    requires p.ios[id].loc != Free && r.ios[id].loc != Free
    requires r.free == p.free && r.nrFree == p.nrFree && |r.slots| == |p.slots|
    requires forall i | 0 <= i < |p.slots| :: r.slots[i].inFlight == p.slots[i].inFlight
    ensures FreeList(r)
  {
    assert r.ios.Keys == p.ios.Keys;
  }

  lemma FrameKeeps(s: Sys, p: Proc)
    requires Own(s) && SameOwnership(s.proc, p)
    ensures Own(s.(proc := p))
  {
    var t := s.(proc := p);
    forall q | 0 <= q < |t.proc.subs| ensures SqeOk(t, q) { assert SqeOk(s, q); }
    forall k | t.reaped <= k < |t.posted| ensures CqeOk(t, k) { assert CqeOk(s, k); }
    forall id | id in t.proc.ios ensures PendingOk(t, id) && InCqOk(t, id) && LostOk(t, id) {
      assert PendingOk(s, id) && InCqOk(s, id) && LostOk(s, id);
    }
  }

  /** Rewriting an object at hand, or parking it. */
  lemma EditKeeps(s: Sys, id: ReqId, io: Io)
    requires Own(s) && AtHand(s.proc, id) && (io.loc.Held? || io.loc.Parked?)
    ensures Own(s.(proc := SetIo(s.proc, id, io)))
  {
    var t := s.(proc := SetIo(s.proc, id, io));
    MoveKeepsLocs(s, t, id);
    MoveKeepsFreeList(s.proc, t.proc, id);
  }

  lemma ReapKeeps(s: Sys)
    requires Own(s) && s.reaped < |s.posted|
    ensures s.posted[s.reaped].id in s.proc.ios && Own(Reap(s))
    ensures !s.posted[s.reaped].more ==> AtHand(Reap(s).proc, s.posted[s.reaped].id)
  {
    assert CqeOk(s, s.reaped);
    var t, c := Reap(s), s.posted[s.reaped];
    assert t.proc.ios.Keys == s.proc.ios.Keys;
    forall q | 0 <= q < |t.proc.subs| ensures SqeOk(t, q) { assert SqeOk(s, q); }
    forall k | t.reaped <= k < |t.posted| ensures CqeOk(t, k) { assert CqeOk(s, k); }
    forall x | x in t.proc.ios ensures PendingOk(t, x) && InCqOk(t, x) && LostOk(t, x) {
      assert PendingOk(s, x) && InCqOk(s, x) && LostOk(s, x);
    }
    if !c.more {
      MoveKeepsFreeList(s.proc, t.proc, c.id);
    }
  }

  lemma SubmitKeeps(s: Sys, id: ReqId, head: nat)
    requires Own(s) && AtHand(s.proc, id) && s.proc.seen <= head
    ensures Own(CaughtUp(s, Submit(s.proc, id, head)))
  {
    var h := if head <= |s.proc.subs| then head else |s.proc.subs|;
    var u := Take(s, if h > s.consumed then h else s.consumed);
    TakeKeeps(s, u.consumed);
    LoadKeeps(u, h);
    var v := u.(proc := u.proc.(seen := h));
    SubmitSplit(s, v, id, head, h);
    if |s.proc.subs| - h > SQ_ENTRIES - 1 {
      RefusedKeeps(v, id);
    } else {
      AcceptedKeeps(v, id);
    }
  }

  /** A submission is a load followed by an accepted or a refused entry. */
  lemma SubmitSplit(s: Sys, v: Sys, id: ReqId, head: nat, h: nat)
    requires id in s.proc.ios && h == (if head <= |s.proc.subs| then head else |s.proc.subs|)
    requires v == s.(consumed := if h > s.consumed then h else s.consumed, proc := s.proc.(seen := h))
    ensures CaughtUp(s, Submit(s.proc, id, head))
         == v.(proc := if |s.proc.subs| - h > SQ_ENTRIES - 1 then Refused(v.proc, id, h) else Accepted(v.proc, id, h))
  {
  }

  lemma LoadKeeps(s: Sys, h: nat)
    requires Own(s) && s.proc.seen <= h <= s.consumed
    ensures Own(s.(proc := s.proc.(seen := h)))
  {
    var t := s.(proc := s.proc.(seen := h));
    forall q | 0 <= q < |t.proc.subs| ensures SqeOk(t, q) { assert SqeOk(s, q); }
    forall k | t.reaped <= k < |t.posted| ensures CqeOk(t, k) { assert CqeOk(s, k); }
    forall x | x in t.proc.ios ensures PendingOk(t, x) && InCqOk(t, x) && LostOk(t, x) {
      assert PendingOk(s, x) && InCqOk(s, x) && LostOk(s, x);
    }
  }

  lemma AcceptedKeeps(s: Sys, id: ReqId)
    requires Own(s) && AtHand(s.proc, id)
    ensures Own(s.(proc := Accepted(s.proc, id, s.proc.seen)))
  {
    AcceptedLocs(s, id);
    MoveKeepsFreeList(s.proc, Accepted(s.proc, id, s.proc.seen), id);
  }

  lemma AcceptedLocs(s: Sys, id: ReqId)
    requires Locs(s) && AtHand(s.proc, id)
    ensures Locs(s.(proc := Accepted(s.proc, id, s.proc.seen)))
  {
    var t := s.(proc := Accepted(s.proc, id, s.proc.seen));
    assert t.proc.ios.Keys == s.proc.ios.Keys;
    forall q | 0 <= q < |t.proc.subs| ensures SqeOk(t, q) { AcceptedSqe(s, t, id, q); }
    forall k | t.reaped <= k < |t.posted| ensures CqeOk(t, k) { AcceptedCqe(s, t, id, k); }
    forall x | x in t.proc.ios ensures PendingOk(t, x) && InCqOk(t, x) && LostOk(t, x) {
      AcceptedObject(s, t, id, x);
    }
  }

  lemma AcceptedSqe(s: Sys, t: Sys, id: ReqId, q: nat)
    requires AtHand(s.proc, id) && t == s.(proc := Accepted(s.proc, id, s.proc.seen)) && q < |t.proc.subs|
    requires q < |s.proc.subs| ==> SqeOk(s, q)
    requires forall q | q in s.done :: q < |s.proc.subs|
    ensures SqeOk(t, q)
  {
  }

  lemma AcceptedCqe(s: Sys, t: Sys, id: ReqId, k: nat)
    requires AtHand(s.proc, id) && t == s.(proc := Accepted(s.proc, id, s.proc.seen)) && k < |s.posted| && CqeOk(s, k)
    ensures CqeOk(t, k)
  {
  }

  lemma AcceptedObject(s: Sys, t: Sys, id: ReqId, x: ReqId)
    requires AtHand(s.proc, id) && t == s.(proc := Accepted(s.proc, id, s.proc.seen)) && x in s.proc.ios
    requires PendingOk(s, x) && InCqOk(s, x) && LostOk(s, x) && (forall q | q in s.done :: q < |s.proc.subs|)
    ensures x in t.proc.ios && PendingOk(t, x) && InCqOk(t, x) && LostOk(t, x)
  {
  }

  lemma RefusedKeeps(s: Sys, id: ReqId)
    requires Own(s) && AtHand(s.proc, id)
    ensures Own(s.(proc := Refused(s.proc, id, s.proc.seen)))
  {
    RefusedLocs(s, id);
    MoveKeepsFreeList(s.proc, Refused(s.proc, id, s.proc.seen), id);
  }

  lemma RefusedLocs(s: Sys, id: ReqId)
    requires Locs(s) && AtHand(s.proc, id)
    ensures Locs(s.(proc := Refused(s.proc, id, s.proc.seen)))
  {
    var t := s.(proc := Refused(s.proc, id, s.proc.seen));
    assert t.proc.ios.Keys == s.proc.ios.Keys;
    forall q | 0 <= q < |t.proc.subs| ensures SqeOk(t, q) { RefusedSqe(s, t, id, q); }
    forall k | t.reaped <= k < |t.posted| ensures CqeOk(t, k) { RefusedCqe(s, t, id, k); }
    forall x | x in t.proc.ios ensures PendingOk(t, x) && InCqOk(t, x) && LostOk(t, x) {
      RefusedObject(s, t, id, x);
    }
  }

  lemma RefusedSqe(s: Sys, t: Sys, id: ReqId, q: nat)
    requires AtHand(s.proc, id) && t == s.(proc := Refused(s.proc, id, s.proc.seen)) && q < |t.proc.subs|
    requires q < |s.proc.subs| ==> SqeOk(s, q)
    requires forall q | q in s.done :: q < |s.proc.subs|
    ensures SqeOk(t, q)
  {
  }

  lemma RefusedCqe(s: Sys, t: Sys, id: ReqId, k: nat)
    requires AtHand(s.proc, id) && t == s.(proc := Refused(s.proc, id, s.proc.seen)) && k < |s.posted| && CqeOk(s, k)
    ensures CqeOk(t, k)
  {
  }

  lemma RefusedObject(s: Sys, t: Sys, id: ReqId, x: ReqId)
    requires AtHand(s.proc, id) && t == s.(proc := Refused(s.proc, id, s.proc.seen)) && x in s.proc.ios
    requires PendingOk(s, x) && InCqOk(s, x) && LostOk(s, x) && (forall q | q in s.done :: q < |s.proc.subs|)
    ensures x in t.proc.ios && PendingOk(t, x) && InCqOk(t, x) && LostOk(t, x)
  {
  }

  lemma PostKeeps(w: World, s: Sys, pos: nat, res: int, more: bool)
    requires Own(s) && CanComplete(w, s, pos, res, more)
    requires more ==> s.proc.subs[pos].id == Poll
    ensures s.proc.subs[pos].id in s.proc.ios && Own(Post(w, s, pos, res, more))
  {
    assert SqeOk(s, pos);
    var p := Perform(w, s.proc, s.proc.subs[pos], res);
    PerformFrame(w, s.proc, s.proc.subs[pos], res);
    FrameKeeps(s, p);
    var u := s.(proc := p);
    if more {
      PostMore(u, Cqe(Poll, res, true, pos));
    } else {
      PostFinal(u, Cqe(s.proc.subs[pos].id, res, false, pos));
    }
  }

  lemma PostMore(s: Sys, c: Cqe)
    requires Own(s) && c.id == Poll && c.more && c.res >= 0 && c.pos < s.consumed
    ensures Own(s.(posted := s.posted + [c]))
  {
    var t := s.(posted := s.posted + [c]);
    forall q | 0 <= q < |t.proc.subs| ensures SqeOk(t, q) { assert SqeOk(s, q); }
    forall k | t.reaped <= k < |t.posted| ensures CqeOk(t, k) {
      if k < |s.posted| { assert CqeOk(s, k); }
    }
    forall x | x in t.proc.ios ensures PendingOk(t, x) && InCqOk(t, x) && LostOk(t, x) {
      assert PendingOk(s, x) && InCqOk(s, x) && LostOk(s, x);
    }
  }

  lemma PostFinal(s: Sys, c: Cqe)
    requires Own(s) && !c.more && c.pos < s.consumed && c.pos !in s.done
    requires s.proc.subs[c.pos].id == c.id && c.id in s.proc.ios
    ensures Own(Finish(s, s.proc, c.id, c.pos, c.res))
  {
    assert SqeOk(s, c.pos);
    var t := Finish(s, s.proc, c.id, c.pos, c.res);
    assert t.proc.ios.Keys == s.proc.ios.Keys;
    forall q | 0 <= q < |t.proc.subs| ensures SqeOk(t, q) { assert SqeOk(s, q); }
    forall k | t.reaped <= k < |t.posted| ensures CqeOk(t, k) {
      if k < |s.posted| { assert CqeOk(s, k); }
    }
    forall x | x in t.proc.ios ensures PendingOk(t, x) && InCqOk(t, x) && LostOk(t, x) {
      assert PendingOk(s, x) && InCqOk(s, x) && LostOk(s, x);
    }
    MoveKeepsFreeList(s.proc, t.proc, c.id);
  }

  lemma GetReqKeeps(s: Sys)
    requires Own(s) && s.proc.free != []
    ensures Slot(s.proc.free[0]) in s.proc.ios && Own(s.(proc := GetReq(s.proc)))
    ensures AtHand(GetReq(s.proc), Slot(s.proc.free[0])) && GetReq(s.proc).status == s.proc.status
  {
    var i := s.proc.free[0];
    var p := GetReq(s.proc);
    assert i in s.proc.free && !s.proc.slots[i].inFlight;
    MoveKeepsLocs(s, s.(proc := p), Slot(i));
    assert p.ios.Keys == s.proc.ios.Keys;
    forall j | 0 <= j < |p.slots| ensures j in p.free <==> p.ios[Slot(j)].loc == Free {
      assert j in s.proc.free <==> j == i || j in p.free;
    }
  }

  lemma FreeReqKeeps(s: Sys, i: nat)
    requires Own(s) && i < |s.proc.slots| && AtHand(s.proc, Slot(i))
    ensures Own(s.(proc := FreeReq(s.proc, i)))
  {
    var p := FreeReq(s.proc, i);
    MoveKeepsLocs(s, s.(proc := p), Slot(i));
    assert p.ios.Keys == s.proc.ios.Keys;
    assert i !in s.proc.free;
  }
}
