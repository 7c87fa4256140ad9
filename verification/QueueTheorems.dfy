/**
 What every run of a queue group guarantees, said of the history itself:
 conservation, lease exclusion, the attempt bound, and the agreement between
 `take` and `next_due`.
 */
module QueueTheorems {
  import opened Options
  import opened Queue
  import opened QueueRefinement
  import opened Words

  // ---- reading a history directly ----------------------------------------

  ghost predicate WasFinished(h: seq<Event>, i: nat) { Finish(i) in h }

  ghost predicate WasBuried(h: seq<Event>, i: nat) { Die(i) in h }

  ghost predicate WasForgotten(h: seq<Event>, i: nat) {
    exists e | e in h :: e.HandOut? && e.index == i && !e.leased
  }

  function HandOuts(h: seq<Event>, i: nat): nat {
    if h == [] then 0
    else
      var e := h[|h| - 1];
      HandOuts(h[..|h| - 1], i) + if e.HandOut? && e.index == i then 1 else 0
  }

  /** The expiry last recorded for `i`, by a take or by a fail. */
  function LastExpiry(h: seq<Event>, i: nat): Option<nat> {
    if h == [] then None
    else
      var e := h[|h| - 1];
      if e.index == i && (e.HandOut? || e.Retime?) then Some(e.until) else LastExpiry(h[..|h| - 1], i)
  }

  /** Over every run the table is a faithful projection of the history. */
  lemma {:induction false} RunRefines(q0: QRec, ops: seq<Op>)
    requires IsNew(q0)
    ensures var (q, h) := Run(q0, ops); Refines(q0.next, q, h)
  {
    var start := q0.next;
    if ops != [] {
      RunRefines(q0, ops[..|ops| - 1]);
      var (q1, h1) := Run(q0, ops[..|ops| - 1]);
      ApplyRefines(start, q1, h1, ops[|ops| - 1]);
    }
  }

  /** The automaton's verdict, in terms of the plain history. */
  lemma {:induction false} FateMeaning(h: seq<Event>, i: nat)
    requires Fate(h, i) != Broken
    ensures Fate(h, i).Finished? <==> WasFinished(h, i)
    ensures Fate(h, i).Dead? <==> WasBuried(h, i)
    ensures Fate(h, i).Forgotten? <==> WasForgotten(h, i)
    ensures Fate(h, i).Waiting? ==> HandOuts(h, i) == 0 && LastExpiry(h, i).None?
    ensures Fate(h, i).Leased? ==> HandOuts(h, i) == Fate(h, i).tries >= 1 && LastExpiry(h, i) == Some(Fate(h, i).until)
  {
    if h != [] {
      var g, e := h[..|h| - 1], h[|h| - 1];
      assert h == g + [e];
      FateMeaning(g, i);
    }
  }

  lemma {:induction false} BrokenPrefix(h: seq<Event>, n: nat, i: nat)
    requires n <= |h| && Fate(h, i) != Broken
    ensures Fate(h[..n], i) != Broken
  {
    if n < |h| {
      assert h[..|h| - 1][..n] == h[..n];
      BrokenPrefix(h[..|h| - 1], n, i);
    } else {
      assert h[..n] == h;
    }
  }

  // ---- conservation ------------------------------------------------------

  function Count(b: bool): nat { if b then 1 else 0 }

  /**
   Below `next` every job is exactly one of: in the table, finished, dead, or
   handed out under no lease; above it nothing has happened.  The table holds
   each index once, at most 256 of them, and the dead list is the tail of the
   sequence of deaths.
   */
  lemma Conservation(q0: QRec, ops: seq<Op>, i: nat)
    requires IsNew(q0)
    ensures
      var (q, h) := Run(q0, ops);
      && |q.fl| <= INFLIGHT_MAX
      && Distinct(q.fl)
      && (Holds(q.fl, i) ==> q0.next <= i < q.next)
      && (q0.next <= i < q.next ==>
            Count(Holds(q.fl, i)) + Count(WasFinished(h, i)) + Count(WasBuried(h, i)) + Count(WasForgotten(h, i)) == 1)
      && (!(q0.next <= i < q.next) ==>
            HandOuts(h, i) == 0 && !WasFinished(h, i) && !WasBuried(h, i))
      && q.deadTotal == |Deaths(h)|
      && q.dead == LastOf(Deaths(h), DEAD_MAX)
  {
    RunRefines(q0, ops);
    var (q, h) := Run(q0, ops);
    FateMeaning(h, i);
    assert Fate(h, i).Leased? <==> Holds(q.fl, i);
  }

  // ---- leases ------------------------------------------------------------

  /**
   A hand-out never overlaps an earlier lease: it happens no sooner than the
   expiry last recorded for that job, and never after the job has finished,
   died or been given away without a lease.  The hand-out number is the count
   of those before it plus one.
   */
  lemma LeaseExclusion(q0: QRec, ops: seq<Op>, n: nat)
    requires IsNew(q0)
    requires n < |Run(q0, ops).1|
    requires Run(q0, ops).1[n].HandOut?
    ensures
      var h := Run(q0, ops).1;
      var e := h[n];
      && (LastExpiry(h[..n], e.index).Some? ==> LastExpiry(h[..n], e.index).value <= e.at)
      && (LastExpiry(h[..n], e.index).None? <==> HandOuts(h[..n], e.index) == 0)
      && !WasFinished(h[..n], e.index)
      && !WasBuried(h[..n], e.index)
      && !WasForgotten(h[..n], e.index)
  {
    RunRefines(q0, ops);
    var (q, h) := Run(q0, ops);
    var i := h[n].index;
    assert Fate(h, i) != Broken;
    BrokenPrefix(h, n, i);
    BrokenPrefix(h, n + 1, i);
    assert h[..n + 1] == h[..n] + [h[n]];
    FateAppend(h[..n], h[n], i);
    FateMeaning(h[..n], i);
  }

  /** What a lease stores about its job is what the history says about it. */
  lemma StoredAttempts(q0: QRec, ops: seq<Op>, k: nat)
    requires IsNew(q0)
    requires k < |Run(q0, ops).0.fl|
    ensures
      var (q, h) := Run(q0, ops);
      && q.fl[k].attempts == HandOuts(h, q.fl[k].index)
      && LastExpiry(h, q.fl[k].index) == Some(q.fl[k].expires)
  {
    RunRefines(q0, ops);
    var (q, h) := Run(q0, ops);
    FateMeaning(h, q.fl[k].index);
  }

  // ---- whose lease it is ------------------------------------------------------

  lemma TakeOne(next: nat, now: nat, last: nat)
    requires next <= last
    ensures
      var q := FreshRec(next);
      var t := Take(q, 1, None, now, last);
      && t.q == q.(next := next + 1, fl := [Lease(next, now + LEASE_DEFAULT_MS, 1)])
      && t.events == [HandOut(next, now, now + LEASE_DEFAULT_MS, true)]
  {
    var q := FreshRec(next);
    var t0 := StartTake(q, None);
    assert ScanFrom(t0, 0, 1, now, LEASE_DEFAULT_MS) == t0;
    var t1 := GrantFresh(t0, now, LEASE_DEFAULT_MS);
    assert FreshFrom(t0, 1, now, LEASE_DEFAULT_MS, last) == FreshFrom(t1, 1, now, LEASE_DEFAULT_MS, last) == t1;
    assert t1.q.fl == [Lease(next, now + LEASE_DEFAULT_MS, 1)];
  }

  lemma RetakeOne(next: nat, was: nat, now: nat, last: nat)
    requires was + LEASE_DEFAULT_MS <= now
    ensures
      var q := FreshRec(next).(next := next + 1, fl := [Lease(next, was + LEASE_DEFAULT_MS, 1)]);
      var t := Take(q, 1, None, now, last);
      && t.q == q.(fl := [Lease(next, now + LEASE_DEFAULT_MS, 2)])
      && t.events == [HandOut(next, now, now + LEASE_DEFAULT_MS, true)]
  {
    var q := FreshRec(next).(next := next + 1, fl := [Lease(next, was + LEASE_DEFAULT_MS, 1)]);
    var t0 := StartTake(q, None);
    var t1 := Regrant(t0, 0, now, LEASE_DEFAULT_MS);
    assert t1.q.fl == [Lease(next, now + LEASE_DEFAULT_MS, 2)];
    assert ScanFrom(t0, 0, 1, now, LEASE_DEFAULT_MS) == ScanFrom(t1, 1, 1, now, LEASE_DEFAULT_MS) == t1;
  }

  /** Whether bjm_done finds a job: exactly when it is in the table, whoever the lease was given to. */
  lemma DoneFindsExactly(q: QRec, index: nat)
    ensures Done(q, index).1 != [] <==> Holds(q.fl, index)
  {
    var k := Find(q.fl, index);
    if Holds(q.fl, index) {
      var j :| 0 <= j < |q.fl| && q.fl[j].index == index;
      assert k <= j;
    }
  }

  /**
   A job taken at `first`, expired, and taken again at `second`: the first
   worker's done still finds it, and ends the second worker's lease.
   */
  lemma StaleHolderFinishes(next: nat, first: nat, second: nat, last: nat)
    requires next <= last && first + LEASE_DEFAULT_MS <= second
    ensures
      var ops := [OpTake(1, None, first, last), OpTake(1, None, second, last), OpDone(next)];
      var (q, h) := Run(FreshRec(next), ops);
      && h == [HandOut(next, first, first + LEASE_DEFAULT_MS, true),
               HandOut(next, second, second + LEASE_DEFAULT_MS, true), Finish(next)]
      && !Holds(q.fl, next)
  {
    var a, b, c := OpTake(1, None, first, last), OpTake(1, None, second, last), OpDone(next);
    TakeOne(next, first, last);
    RetakeOne(next, first, second, last);
    RunThree(FreshRec(next), a, b, c);
    var held := FreshRec(next).(next := next + 1, fl := [Lease(next, second + LEASE_DEFAULT_MS, 2)]);
    assert Find(held.fl, next) == 0;
    assert Done(held, next) == (held.(fl := []), [Finish(next)]);
  }

  lemma RunThree(q: QRec, a: Op, b: Op, c: Op)
    ensures
      var (q1, h1) := Apply(q, a);
      var (q2, h2) := Apply(q1, b);
      var (q3, h3) := Apply(q2, c);
      Run(q, [a, b, c]) == (q3, h1 + h2 + h3)
  {
    hide Apply;
    assert [a, b, c][..2] == [a, b] && [a, b][..1] == [a] && [a][..0] == [];
    assert Run(q, []) == (q, []);
    assert Run(q, [a]) == (Apply(q, a).0, [] + Apply(q, a).1);
    assert [] + Apply(q, a).1 == Apply(q, a).1;
    assert Run(q, [a, b]) == (Apply(Apply(q, a).0, b).0, Apply(q, a).1 + Apply(Apply(q, a).0, b).1);
  }

  // ---- the attempt bound --------------------------------------------------

  /** Every hand-out in `h` left its job with at most `m` of them. */
  ghost predicate Bounded(h: seq<Event>, m: nat) {
    forall i: nat :: HandOuts(h, i) <= m
  }

  lemma HandOutsAppend(h: seq<Event>, e: Event)
    ensures forall i: nat :: HandOuts(h + [e], i) == HandOuts(h, i) + if e.HandOut? && e.index == i then 1 else 0
  {
    assert (h + [e])[..|h|] == h;
  }

  lemma {:induction false} ScanBounded(start: nat, t: Taking, h: seq<Event>, k: nat, max: nat, now: nat, lease: nat, m: nat)
    requires Refines(start, t.q, h + t.events) && Bounded(h + t.events, m)
    requires 1 <= t.q.maxAttempts <= m
    ensures Bounded(h + ScanFrom(t, k, max, now, lease).events, m)
    decreases |t.q.fl| - k
  {
    if k >= |t.q.fl| || |t.chosen| >= max {
    } else if t.q.fl[k].expires > now {
      ScanBounded(start, t, h, k + 1, max, now, lease, m);
    } else {
      var e := t.q.fl[k];
      if Exhausted(t.q, e) {
        var t' := Bury(t, k);
        RemoveRefines(start, t.q, h + t.events, k, Die(e.index), t'.q);
        assert h + t'.events == h + t.events + [Die(e.index)];
        HandOutsAppend(h + t.events, Die(e.index));
        ScanBounded(start, t', h, k, max, now, lease, m);
      } else {
        var t' := Regrant(t, k, now, lease);
        var ev := HandOut(e.index, now, now + lease, true);
        RetimeRefines(start, t.q, h + t.events, k, ev, Lease(e.index, now + lease, e.attempts + 1), t'.q);
        assert h + t'.events == h + t.events + [ev];
        HandOutsAppend(h + t.events, ev);
        FateMeaning(h + t.events, e.index);
        ScanBounded(start, t', h, k + 1, max, now, lease, m);
      }
    }
  }

  lemma {:induction false} FreshBounded(start: nat, t: Taking, h: seq<Event>, max: nat, now: nat, lease: nat, last: nat, m: nat)
    requires Refines(start, t.q, h + t.events) && Bounded(h + t.events, m) && 1 <= m
    ensures Bounded(h + FreshFrom(t, max, now, lease, last).events, m)
    decreases max - |t.chosen|
  {
    if MayGrantFresh(t, max, lease, last) {
      var t' := GrantFresh(t, now, lease);
      var ev := HandOut(t.q.next, now, now + lease, lease > 0);
      FreshRefines(start, t, h + t.events, max, now, lease, last);
      assert h + t'.events == h + t.events + [ev];
      HandOutsAppend(h + t.events, ev);
      FateMeaning(h + t.events, t.q.next);
      FreshBounded(start, t', h, max, now, lease, last, m);
    }
  }

  lemma ApplyBounded(start: nat, q: QRec, h: seq<Event>, op: Op, m: nat)
    requires Refines(start, q, h) && Bounded(h, m) && 1 <= q.maxAttempts <= m
    ensures Bounded(h + Apply(q, op).1, m)
  {
    match op
    case OpTake(max, lease, now, last) =>
      var t, ms := StartTake(q, lease), EffectiveLease(q, lease);
      assert h + t.events == h;
      ScanRefines(start, t, h, 0, ClampMax(max), now, ms);
      ScanBounded(start, t, h, 0, ClampMax(max), now, ms, m);
      FreshBounded(start, ScanFrom(t, 0, ClampMax(max), now, ms), h, ClampMax(max), now, ms, last, m);
    case OpDone(index) =>
      assert h + [] == h;
      HandOutsAppend(h, Finish(index));
    case OpFail(index, delay, now) =>
      assert h + [] == h;
      if Find(q.fl, index) < |q.fl| { HandOutsAppend(h, Apply(q, op).1[0]); }
    case OpConfig(_, _, _, _) =>
      assert h + [] == h;
  }

  lemma {:induction false} ScanKeepsLimit(t: Taking, k: nat, max: nat, now: nat, lease: nat)
    ensures ScanFrom(t, k, max, now, lease).q.maxAttempts == t.q.maxAttempts
    ensures ScanFrom(t, k, max, now, lease).q.next == t.q.next
    ensures ScanFrom(t, k, max, now, lease).q.leaseMs == t.q.leaseMs
    decreases |t.q.fl| - k
  {
    if k >= |t.q.fl| || |t.chosen| >= max {
    } else if t.q.fl[k].expires > now {
      ScanKeepsLimit(t, k + 1, max, now, lease);
    } else if Exhausted(t.q, t.q.fl[k]) {
      ScanKeepsLimit(Bury(t, k), k, max, now, lease);
    } else {
      ScanKeepsLimit(Regrant(t, k, now, lease), k + 1, max, now, lease);
    }
  }

  lemma {:induction false} FreshKeepsLimit(t: Taking, max: nat, now: nat, lease: nat, last: nat)
    ensures FreshFrom(t, max, now, lease, last).q.maxAttempts == t.q.maxAttempts
    ensures FreshFrom(t, max, now, lease, last).q.next >= t.q.next
    ensures FreshFrom(t, max, now, lease, last).q.next <= Max(t.q.next, last + 1)
    ensures FreshFrom(t, max, now, lease, last).q.leaseMs == t.q.leaseMs
    decreases max - |t.chosen|
  {
    if MayGrantFresh(t, max, lease, last) {
      FreshKeepsLimit(GrantFresh(t, now, lease), max, now, lease, last);
    }
  }

  lemma TakeKeepsLimit(q: QRec, max: int, lease: Option<nat>, now: nat, last: nat)
    ensures Take(q, max, lease, now, last).q.maxAttempts == q.maxAttempts
    ensures q.next <= Take(q, max, lease, now, last).q.next <= Max(q.next, last + 1)
    ensures Take(q, max, lease, now, last).q.leaseMs == EffectiveLease(q, lease)
  {
    var t, ms := StartTake(q, lease), EffectiveLease(q, lease);
    ScanKeepsLimit(t, 0, ClampMax(max), now, ms);
    FreshKeepsLimit(ScanFrom(t, 0, ClampMax(max), now, ms), ClampMax(max), now, ms, last);
  }

  /** The limit is never lifted (0) nor raised past `m` by this call. */
  predicate LimitWithin(op: Op, m: nat) {
    op.OpConfig? ==> 1 <= op.maxAttempts <= m
  }

  /**
   While the configured limit stays between 1 and `m`, no job is ever handed
   out more than `m` times, whatever workers do.
   */
  lemma {:induction false} AttemptBound(q0: QRec, ops: seq<Op>, m: nat)
    requires IsNew(q0) && 1 <= q0.maxAttempts <= m
    requires forall op | op in ops :: LimitWithin(op, m)
    ensures
      var (q, h) := Run(q0, ops);
      Bounded(h, m) && 1 <= q.maxAttempts <= m
  {
    if ops != [] {
      var init, op := ops[..|ops| - 1], ops[|ops| - 1];
      AttemptBound(q0, init, m);
      RunRefines(q0, init);
      var (q1, h1) := Run(q0, init);
      assert op in ops;
      ApplyBounded(q0.next, q1, h1, op, m);
      if op.OpTake? { TakeKeepsLimit(q1, op.max, op.lease, op.now, op.last); }
    }
  }

  // ---- one take ------------------------------------------------------------

  ghost predicate OncePerIndex(h: seq<Event>) {
    forall a, b | 0 <= a < b < |h| :: h[a].index != h[b].index
  }

  /** No job at table position `k` or later has been touched yet. */
  ghost predicate Untouched(t: Taking, k: nat) {
    forall a, j | 0 <= a < |t.events| && k <= j < |t.q.fl| :: t.events[a].index != t.q.fl[j].index
  }

  ghost predicate UnexpiredBelow(fl: seq<Lease>, k: nat, now: nat) {
    forall j | 0 <= j < k && j < |fl| :: fl[j].expires > now
  }

  lemma BuryUntouched(t: Taking, k: nat)
    requires k < |t.q.fl| && Distinct(t.q.fl) && Untouched(t, k) && OncePerIndex(t.events)
    ensures Distinct(Bury(t, k).q.fl) && Untouched(Bury(t, k), k) && OncePerIndex(Bury(t, k).events)
  {
    SwapRemoveHolds(t.q.fl, k);
    var t' := Bury(t, k);
    forall a, j | 0 <= a < |t'.events| && k <= j < |t'.q.fl| ensures t'.events[a].index != t'.q.fl[j].index {
      var j' := if j == k then |t.q.fl| - 1 else j;
      assert t'.q.fl[j] == t.q.fl[j'];
    }
  }

  /**
   The redelivery pass, swap-removal and all, touches each entry at most once;
   if it is not cut short by `max`, a positive lease leaves nothing expired.
   */
  lemma {:induction false} ScanOnce(t: Taking, k: nat, max: nat, now: nat, lease: nat)
    requires k <= |t.q.fl| && Distinct(t.q.fl) && Untouched(t, k) && OncePerIndex(t.events)
    requires lease > 0 ==> UnexpiredBelow(t.q.fl, k, now)
    requires forall e | e in t.events :: e.index < t.q.next
    requires forall e | e in t.q.fl :: e.index < t.q.next
    ensures
      var t' := ScanFrom(t, k, max, now, lease);
      && OncePerIndex(t'.events)
      && (forall e | e in t'.events :: e.index < t'.q.next)
      && (|t'.chosen| < max && lease > 0 ==> forall e | e in t'.q.fl :: e.expires > now)
    decreases |t.q.fl| - k
  {
    if k >= |t.q.fl| || |t.chosen| >= max {
    } else if t.q.fl[k].expires > now {
      ScanOnce(t, k + 1, max, now, lease);
    } else if Exhausted(t.q, t.q.fl[k]) {
      BuryUntouched(t, k);
      SwapRemoveHolds(t.q.fl, k);
      ScanOnce(Bury(t, k), k, max, now, lease);
    } else {
      ScanOnce(Regrant(t, k, now, lease), k + 1, max, now, lease);
    }
  }

  lemma {:induction false} FreshOnce(t: Taking, max: nat, now: nat, lease: nat, last: nat)
    requires OncePerIndex(t.events)
    requires forall e | e in t.events :: e.index < t.q.next
    requires lease > 0 && |t.chosen| < max ==> forall e | e in t.q.fl :: e.expires > now
    ensures
      var t' := FreshFrom(t, max, now, lease, last);
      && OncePerIndex(t'.events)
      && (t'.q.next > t.q.next && lease > 0 ==> forall e | e in t'.q.fl :: e.expires > now)
      && (t'.q.next > t.q.next ==> |t.chosen| < max)
    decreases max - |t.chosen|
  {
    if MayGrantFresh(t, max, lease, last) {
      var t' := GrantFresh(t, now, lease);
      FreshOnce(t', max, now, lease, last);
      FreshKeepsLimit(t', max, now, lease, last);
      if MayGrantFresh(t', max, lease, last) {
        FreshKeepsLimit(GrantFresh(t', now, lease), max, now, lease, last);
      } else {
        assert FreshFrom(t', max, now, lease, last) == t';
      }
    }
  }

  /**
   One take never touches a job twice, and it hands out untouched messages
   under a positive lease only when no expired lease is left behind.
   */
  lemma TakeOnce(q: QRec, max: int, lease: Option<nat>, now: nat, last: nat)
    requires Distinct(q.fl) && forall e | e in q.fl :: e.index < q.next
    ensures
      var t := Take(q, max, lease, now, last);
      && OncePerIndex(t.events)
      && (t.q.next > q.next && EffectiveLease(q, lease) > 0 ==> forall e | e in t.q.fl :: e.expires > now)
  {
    var t, ms, m := StartTake(q, lease), EffectiveLease(q, lease), ClampMax(max);
    ScanOnce(t, 0, m, now, ms);
    ScanKeepsLimit(t, 0, m, now, ms);
    FreshOnce(ScanFrom(t, 0, m, now, ms), m, now, ms, last);
  }

  // ---- take and next-due ---------------------------------------------------

  ghost predicate FindsNothing(t: Taking) { t.chosen == [] && t.dying == [] }

  lemma {:induction false} ScanGrows(t: Taking, k: nat, max: nat, now: nat, lease: nat)
    ensures
      var t' := ScanFrom(t, k, max, now, lease);
      |t'.chosen| >= |t.chosen| && |t'.dying| >= |t.dying|
    decreases |t.q.fl| - k
  {
    if k >= |t.q.fl| || |t.chosen| >= max {
    } else if t.q.fl[k].expires > now {
      ScanGrows(t, k + 1, max, now, lease);
    } else if Exhausted(t.q, t.q.fl[k]) {
      ScanGrows(Bury(t, k), k, max, now, lease);
    } else {
      ScanGrows(Regrant(t, k, now, lease), k + 1, max, now, lease);
    }
  }

  lemma {:induction false} FreshGrows(t: Taking, max: nat, now: nat, lease: nat, last: nat)
    ensures
      var t' := FreshFrom(t, max, now, lease, last);
      |t'.chosen| >= |t.chosen| && t'.dying == t.dying
    decreases max - |t.chosen|
  {
    if MayGrantFresh(t, max, lease, last) {
      FreshGrows(GrantFresh(t, now, lease), max, now, lease, last);
    }
  }

  /** A scan that has found nothing so far finds something iff an entry ahead is expired. */
  lemma {:induction false} ScanFinds(t: Taking, k: nat, max: nat, now: nat, lease: nat)
    requires FindsNothing(t) && 0 < max
    ensures
      var t' := ScanFrom(t, k, max, now, lease);
      if exists j | k <= j < |t.q.fl| :: t.q.fl[j].expires <= now
      then |t'.chosen| + |t'.dying| >= 1
      else t' == t
    decreases |t.q.fl| - k
  {
    if k >= |t.q.fl| {
    } else if t.q.fl[k].expires > now {
      ScanFinds(t, k + 1, max, now, lease);
    } else if Exhausted(t.q, t.q.fl[k]) {
      ScanGrows(Bury(t, k), k, max, now, lease);
    } else {
      ScanGrows(Regrant(t, k, now, lease), k + 1, max, now, lease);
    }
  }

  predicate AnyExpired(fl: seq<Lease>, now: nat) {
    exists j | 0 <= j < |fl| :: fl[j].expires <= now
  }

  /** Exactly when a take has anything to do. */
  lemma TakeFinds(q: QRec, max: int, lease: Option<nat>, now: nat, last: nat)
    ensures
      var ms := EffectiveLease(q, lease);
      var t := Take(q, max, lease, now, last);
      && (FindsNothing(t) <==>
            !AnyExpired(q.fl, now) && (q.next > last || (ms > 0 && |q.fl| >= INFLIGHT_MAX)))
      && (FindsNothing(t) ==> t.q == q.(leaseMs := ms))
  {
    var t, ms, m := StartTake(q, lease), EffectiveLease(q, lease), ClampMax(max);
    ScanFinds(t, 0, m, now, ms);
    var s := ScanFrom(t, 0, m, now, ms);
    FreshGrows(s, m, now, ms, last);
    if AnyExpired(q.fl, now) {
      var j :| 0 <= j < |q.fl| && q.fl[j].expires <= now;
      assert t.q.fl[j].expires <= now;
    } else {
      assert s == t;
      if MayGrantFresh(s, m, ms, last) {
        FreshGrows(GrantFresh(s, now, ms), m, now, ms, last);
      }
    }
  }

  /**
   After a take that found nothing, the reported due time is exact: a later
   take with the log unchanged finds something if and only if that time has
   come, or it asks for no lease at all and the table was what held it back.
   */
  lemma NextDueIsExact(q: QRec, max: int, lease: Option<nat>, now: nat, last: nat,
                       max': int, lease': Option<nat>, now': nat)
    requires FindsNothing(Take(q, max, lease, now, last))
    ensures
      var q' := Take(q, max, lease, now, last).q;
      var due := NextDue(q'.fl);
      FindsNothing(Take(q', max', lease', now', last)) <==>
        && (due.Some? ==> now' < due.value)
        && (EffectiveLease(q', lease') == 0 ==> q'.next > last)
  {
    TakeFinds(q, max, lease, now, last);
    var q' := Take(q, max, lease, now, last).q;
    TakeFinds(q', max', lease', now', last);
    var due := NextDue(q'.fl);
    if due.Some? {
      var e :| e in q'.fl && e.expires == due.value;
      var k :| 0 <= k < |q'.fl| && q'.fl[k] == e;
      assert AnyExpired(q'.fl, now') <==> due.value <= now' by {
        if AnyExpired(q'.fl, now') {
          var j :| 0 <= j < |q'.fl| && q'.fl[j].expires <= now';
          assert q'.fl[j] in q'.fl;
        }
      }
    }
    if q'.next <= last && EffectiveLease(q', lease') > 0 { assert |q'.fl| >= INFLIGHT_MAX; }
  }
}
