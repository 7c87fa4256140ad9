/** Every operation on the lease table keeps it a faithful projection of its history. */
module QueueRefinement {
  import opened Options
  import opened Queue

  /** A removal, whether the job finished or died. */
  lemma RemoveRefines(start: nat, q: QRec, h: seq<Event>, k: nat, e: Event, q': QRec)
    requires Refines(start, q, h) && k < |q.fl|
    requires e == Finish(q.fl[k].index) || e == Die(q.fl[k].index)
    requires q'.next == q.next && q'.fl == SwapRemove(q.fl, k)
    requires e.Finish? ==> q'.deadTotal == q.deadTotal && q'.dead == q.dead
    requires e.Die? ==> q'.deadTotal == q.deadTotal + 1 && q'.dead == PushDead(q.dead, e.index)
    ensures Refines(start, q', h + [e])
  {
    SwapRemoveHolds(q.fl, k);
    FatesAppend(h, e);
    DeathsAppend(h, e);
  }

  /** A lease given a new expiry: by a redelivery or by a fail. */
  lemma RetimeRefines(start: nat, q: QRec, h: seq<Event>, k: nat, e: Event, l: Lease, q': QRec)
    requires Refines(start, q, h) && k < |q.fl|
    requires e.index == l.index == q.fl[k].index
    requires JobStep(Leased(q.fl[k].expires, q.fl[k].attempts), e) == Leased(l.expires, l.attempts)
    requires q' == q.(fl := q.fl[k := l])
    ensures Refines(start, q', h + [e])
  {
    FatesAppend(h, e);
    DeathsAppend(h, e);
    forall i: nat | Fate(h + [e], i).Leased? ensures Holds(q'.fl, i) {
      assert Holds(q.fl, i);
      var j :| 0 <= j < |q.fl| && q.fl[j].index == i;
      assert q'.fl[j].index == i;
    }
  }

  lemma FreshRefines(start: nat, t: Taking, h: seq<Event>, max: nat, now: nat, lease: nat, last: nat)
    requires Refines(start, t.q, h) && MayGrantFresh(t, max, lease, last)
    ensures Refines(start, GrantFresh(t, now, lease).q, h + [HandOut(t.q.next, now, now + lease, lease > 0)])
  {
    var e := HandOut(t.q.next, now, now + lease, lease > 0);
    var q' := GrantFresh(t, now, lease).q;
    FatesAppend(h, e);
    DeathsAppend(h, e);
    forall i: nat | Fate(h + [e], i).Leased? ensures Holds(q'.fl, i) {
      if i == e.index {
        assert q'.fl[|t.q.fl|].index == i;
      } else {
        assert Holds(t.q.fl, i);
        var j :| 0 <= j < |t.q.fl| && t.q.fl[j].index == i;
        assert q'.fl[j].index == i;
      }
    }
  }

  lemma {:induction false} ScanRefines(start: nat, t: Taking, h: seq<Event>, k: nat, max: nat, now: nat, lease: nat)
    requires Refines(start, t.q, h + t.events)
    ensures Refines(start, ScanFrom(t, k, max, now, lease).q, h + ScanFrom(t, k, max, now, lease).events)
    decreases |t.q.fl| - k
  {
    if k >= |t.q.fl| || |t.chosen| >= max {
    } else if t.q.fl[k].expires > now {
      ScanRefines(start, t, h, k + 1, max, now, lease);
    } else {
      var e := t.q.fl[k];
      if Exhausted(t.q, e) {
        var t' := Bury(t, k);
        RemoveRefines(start, t.q, h + t.events, k, Die(e.index), t'.q);
        assert h + t'.events == h + t.events + [Die(e.index)];
        ScanRefines(start, t', h, k, max, now, lease);
      } else {
        var t' := Regrant(t, k, now, lease);
        var ev := HandOut(e.index, now, now + lease, true);
        RetimeRefines(start, t.q, h + t.events, k, ev, Lease(e.index, now + lease, e.attempts + 1), t'.q);
        assert h + t'.events == h + t.events + [ev];
        ScanRefines(start, t', h, k + 1, max, now, lease);
      }
    }
  }

  lemma {:induction false} FreshPassRefines(start: nat, t: Taking, h: seq<Event>, max: nat, now: nat, lease: nat, last: nat)
    requires Refines(start, t.q, h + t.events)
    ensures Refines(start, FreshFrom(t, max, now, lease, last).q, h + FreshFrom(t, max, now, lease, last).events)
    decreases max - |t.chosen|
  {
    if MayGrantFresh(t, max, lease, last) {
      var t' := GrantFresh(t, now, lease);
      FreshRefines(start, t, h + t.events, max, now, lease, last);
      assert h + t'.events == h + t.events + [HandOut(t.q.next, now, now + lease, lease > 0)];
      FreshPassRefines(start, t', h, max, now, lease, last);
    }
  }

  lemma TakeRefines(start: nat, q: QRec, h: seq<Event>, max: int, lease: Option<nat>, now: nat, last: nat)
    requires Refines(start, q, h)
    ensures Refines(start, Take(q, max, lease, now, last).q, h + Take(q, max, lease, now, last).events)
  {
    var t := StartTake(q, lease);
    assert h + t.events == h;
    var ms := EffectiveLease(q, lease);
    ScanRefines(start, t, h, 0, ClampMax(max), now, ms);
    FreshPassRefines(start, ScanFrom(t, 0, ClampMax(max), now, ms), h, ClampMax(max), now, ms, last);
  }

  lemma DoneRefines(start: nat, q: QRec, h: seq<Event>, index: nat)
    requires Refines(start, q, h)
    ensures Refines(start, Done(q, index).0, h + Done(q, index).1)
  {
    var k := Find(q.fl, index);
    if k == |q.fl| {
      assert h + [] == h;
    } else {
      RemoveRefines(start, q, h, k, Finish(index), Done(q, index).0);
    }
  }

  lemma FailRefines(start: nat, q: QRec, h: seq<Event>, index: nat, delay: Option<nat>, now: nat)
    requires Refines(start, q, h)
    ensures Refines(start, Fail(q, index, delay, now).0, h + Fail(q, index, delay, now).1)
  {
    var k := Find(q.fl, index);
    if k == |q.fl| {
      assert h + [] == h;
    } else {
      var until := now + FailDelay(q, q.fl[k].attempts, delay);
      RetimeRefines(start, q, h, k, Retime(index, until), q.fl[k].(expires := until), Fail(q, index, delay, now).0);
    }
  }

  lemma ApplyRefines(start: nat, q: QRec, h: seq<Event>, op: Op)
    requires Refines(start, q, h)
    ensures Refines(start, Apply(q, op).0, h + Apply(q, op).1)
  {
    match op
    case OpTake(max, lease, now, last) => TakeRefines(start, q, h, max, lease, now, last);
    case OpDone(index) => DoneRefines(start, q, h, index);
    case OpFail(index, delay, now) => FailRefines(start, q, h, index, delay, now);
    case OpConfig(l, m, b, x) => assert h + [] == h;
  }
}
