/**
 What one call on a queue group hands out, buries, keeps and re-times, said
 outright: how many jobs a take gives, which ones, for how long, and when it
 may give fewer than asked for.
 */
module QueueTakes {
  import opened Options
  import opened Words
  import opened Queue
  import opened QueueTheorems
  import opened Backoff

  /** The jobs handed out in a history, in order. */
  function Given(h: seq<Event>): seq<nat> {
    if h == [] then []
    else Given(h[..|h| - 1]) + if h[|h| - 1].HandOut? then [h[|h| - 1].index] else []
  }

  function IndexesOf(chosen: seq<Grant>): (r: seq<nat>)
    ensures |r| == |chosen| && forall i | 0 <= i < |r| :: r[i] == chosen[i].index
  {
    seq(|chosen|, i requires 0 <= i < |chosen| => chosen[i].index)
  }

  ghost predicate IsChosen(chosen: seq<Grant>, index: nat) {
    exists g | g in chosen :: g.index == index
  }

  /** `g` is an expired job of the table with an attempt left, offered once more. */
  ghost predicate OfferedAgain(q: QRec, now: nat, g: Grant) {
    exists e | e in q.fl ::
      e.index == g.index && e.expires <= now && (q.maxAttempts == 0 || e.attempts < q.maxAttempts) && g.attempts == e.attempts + 1
  }

  /** `e` expired with no attempt left. */
  predicate PastHope(q: QRec, now: nat, e: Lease) {
    e.expires <= now && q.maxAttempts != 0 && e.attempts >= q.maxAttempts
  }

  /** `e` stands in the table as it did, or because it was just handed out. */
  ghost predicate Accountable(q: QRec, t: Taking, now: nat, ms: nat, e: Lease) {
    e in q.fl || (Grant(e.index, e.attempts) in t.chosen && e.expires == now + ms)
  }

  // ---- the redelivery pass ----------------------------------------------------------

  /** What the pass has come to at position `k`. */
  ghost predicate Passed(q: QRec, t: Taking, k: nat, now: nat, ms: nat) {
    && Distinct(t.q.fl) && t.q == q.(leaseMs := ms, fl := t.q.fl, deadTotal := t.q.deadTotal, dead := t.q.dead)
    && |t.q.fl| <= |q.fl|
    && (forall g | g in t.chosen :: OfferedAgain(q, now, g) && Lease(g.index, now + ms, g.attempts) in t.q.fl)
    && (forall e | e in t.dying :: e in q.fl && PastHope(q, now, e))
    && (forall e | e in t.q.fl :: Accountable(q, t, now, ms, e))
    && (forall e | e in q.fl :: e in t.q.fl || e in t.dying || IsChosen(t.chosen, e.index))
    && (forall j | 0 <= j < k && j < |t.q.fl| :: IsChosen(t.chosen, t.q.fl[j].index) || t.q.fl[j].expires > now)
    && (forall j | k <= j < |t.q.fl| :: t.q.fl[j] in q.fl && !IsChosen(t.chosen, t.q.fl[j].index))
    && Given(t.events) == IndexesOf(t.chosen)
    && (forall e | e in t.events && e.HandOut? :: e.at == now && e.until == now + ms)
  }

  lemma GivenAppend(h: seq<Event>, e: Event)
    ensures Given(h + [e]) == Given(h) + if e.HandOut? then [e.index] else []
  {
    assert (h + [e])[..|h|] == h;
  }

  lemma PassedBury(q: QRec, t: Taking, k: nat, now: nat, ms: nat)
    requires Passed(q, t, k, now, ms) && k < |t.q.fl| && t.q.fl[k].expires <= now && Exhausted(t.q, t.q.fl[k])
    ensures Passed(q, Bury(t, k), k, now, ms)
  {
    var t', e := Bury(t, k), t.q.fl[k];
    SwapRemoveHolds(t.q.fl, k);
    GivenAppend(t.events, Die(e.index));
    SwapRemoveKeeps(t.q.fl, k);
    assert e in t'.dying by { assert t'.dying[|t.dying|] == e; }
    forall j | k <= j < |t'.q.fl| ensures t'.q.fl[j] in q.fl && !IsChosen(t'.chosen, t'.q.fl[j].index) {
      assert t'.q.fl[j] == t.q.fl[if j == k then |t.q.fl| - 1 else j];
    }
    forall g | g in t'.chosen ensures Lease(g.index, now + ms, g.attempts) in t'.q.fl {
      assert IsChosen(t.chosen, g.index);
      assert g.index != e.index;
    }
  }

  lemma SwapRemoveKeeps(fl: seq<Lease>, k: nat)
    requires k < |fl|
    ensures forall x | x in fl :: x == fl[k] || x in SwapRemove(fl, k)
    ensures forall x | x in SwapRemove(fl, k) :: x in fl
  {
    var r := SwapRemove(fl, k);
    forall x | x in fl && x != fl[k] ensures x in r {
      var i :| 0 <= i < |fl| && fl[i] == x;
      if i == |fl| - 1 { assert r[k] == x; } else { assert r[i] == x; }
    }
  }

  lemma RegrantTable(t: Taking, k: nat, now: nat, ms: nat)
    requires k < |t.q.fl| && Distinct(t.q.fl)
    ensures
      var t', e := Regrant(t, k, now, ms), t.q.fl[k];
      var l := Lease(e.index, now + ms, e.attempts + 1);
      && Distinct(t'.q.fl) && l in t'.q.fl
      && (forall x | x in t.q.fl && x != e :: x in t'.q.fl) && (forall x | x in t'.q.fl :: x == l || x in t.q.fl)
      && (forall c | c in t'.chosen :: c == Grant(e.index, e.attempts + 1) || c in t.chosen)
      && (forall c | c in t.chosen :: c in t'.chosen) && Grant(e.index, e.attempts + 1) in t'.chosen
  {
    var t', e := Regrant(t, k, now, ms), t.q.fl[k];
    assert t'.q.fl[k] == Lease(e.index, now + ms, e.attempts + 1) && t'.chosen[|t.chosen|] == Grant(e.index, e.attempts + 1);
    forall x | x in t.q.fl && x != e ensures x in t'.q.fl {
      var i :| 0 <= i < |t.q.fl| && t.q.fl[i] == x;
      assert t'.q.fl[i] == x;
    }
  }

  lemma RegrantHands(q: QRec, t: Taking, k: nat, now: nat, ms: nat)
    requires Passed(q, t, k, now, ms) && k < |t.q.fl| && t.q.fl[k].expires <= now && !Exhausted(t.q, t.q.fl[k])
    ensures
      var t' := Regrant(t, k, now, ms);
      forall c | c in t'.chosen :: OfferedAgain(q, now, c) && Lease(c.index, now + ms, c.attempts) in t'.q.fl
  {
    RegrantTable(t, k, now, ms);
    var t', e := Regrant(t, k, now, ms), t.q.fl[k];
    hide Queue.Regrant, Given, IndexesOf;
    forall c | c in t'.chosen ensures OfferedAgain(q, now, c) && Lease(c.index, now + ms, c.attempts) in t'.q.fl {
      if c in t.chosen {
        assert IsChosen(t.chosen, c.index);
        assert c.index != e.index;
      }
    }
  }

  lemma RegrantKeeps(q: QRec, t: Taking, k: nat, now: nat, ms: nat)
    requires Passed(q, t, k, now, ms) && k < |t.q.fl|
    ensures
      var t' := Regrant(t, k, now, ms);
      && (forall x | x in t'.q.fl :: Accountable(q, t', now, ms, x))
      && (forall x | x in q.fl :: x in t'.q.fl || x in t'.dying || IsChosen(t'.chosen, x.index))
  {
    RegrantTable(t, k, now, ms);
    var t', e := Regrant(t, k, now, ms), t.q.fl[k];
    assert t'.dying == t.dying;
    hide Queue.Regrant, Given, IndexesOf, OfferedAgain, PastHope;
    forall x | x in t'.q.fl ensures Accountable(q, t', now, ms, x) {
      if x in t.q.fl { assert Accountable(q, t, now, ms, x); }
    }
    forall x | x in q.fl ensures x in t'.q.fl || x in t'.dying || IsChosen(t'.chosen, x.index) {
      if IsChosen(t.chosen, x.index) {
        var g :| g in t.chosen && g.index == x.index;
        assert g in t'.chosen;
      }
    }
  }

  lemma RegrantPlaces(q: QRec, t: Taking, k: nat, now: nat, ms: nat)
    requires Passed(q, t, k, now, ms) && k < |t.q.fl|
    ensures
      var t' := Regrant(t, k, now, ms);
      && (forall j | 0 <= j < k + 1 && j < |t'.q.fl| :: IsChosen(t'.chosen, t'.q.fl[j].index) || t'.q.fl[j].expires > now)
      && (forall j | k + 1 <= j < |t'.q.fl| :: t'.q.fl[j] in q.fl && !IsChosen(t'.chosen, t'.q.fl[j].index))
  {
    RegrantTable(t, k, now, ms);
    var t', e := Regrant(t, k, now, ms), t.q.fl[k];
    hide Given, IndexesOf, OfferedAgain, PastHope, Accountable;
    assert forall j | 0 <= j < |t.q.fl| && j != k :: t'.q.fl[j] == t.q.fl[j] && t.q.fl[j].index != e.index;
    assert t'.q.fl[k].index == e.index && IsChosen(t'.chosen, e.index);
    forall x | IsChosen(t.chosen, x) ensures IsChosen(t'.chosen, x) {
      var g :| g in t.chosen && g.index == x;
      assert g in t'.chosen;
    }
  }

  lemma PassedRegrant(q: QRec, t: Taking, k: nat, now: nat, ms: nat)
    requires Passed(q, t, k, now, ms) && k < |t.q.fl| && t.q.fl[k].expires <= now && !Exhausted(t.q, t.q.fl[k])
    ensures Passed(q, Regrant(t, k, now, ms), k + 1, now, ms)
  {
    RegrantTable(t, k, now, ms);
    RegrantHands(q, t, k, now, ms);
    RegrantKeeps(q, t, k, now, ms);
    RegrantPlaces(q, t, k, now, ms);
    GivenAppend(t.events, HandOut(t.q.fl[k].index, now, now + ms, true));
    hide OfferedAgain, PastHope, Accountable, IsChosen;
  }

  lemma {:induction false} ScanPasses(q: QRec, t: Taking, k: nat, m: nat, now: nat, ms: nat) returns (k': nat)
    requires Passed(q, t, k, now, ms) && k <= |t.q.fl| && |t.chosen| <= m
    ensures
      var t' := ScanFrom(t, k, m, now, ms);
      |t'.chosen| <= m && Passed(q, t', k', now, ms) && (|t'.chosen| < m ==> k' >= |t'.q.fl|)
    decreases |t.q.fl| - k
  {
    k' := k;
    hide Passed;
    if k >= |t.q.fl| || |t.chosen| >= m {
    } else if t.q.fl[k].expires > now {
      PassedOver(q, t, k, now, ms);
      k' := ScanPasses(q, t, k + 1, m, now, ms);
    } else if Exhausted(t.q, t.q.fl[k]) {
      PassedBury(q, t, k, now, ms);
      k' := ScanPasses(q, Bury(t, k), k, m, now, ms);
    } else {
      PassedRegrant(q, t, k, now, ms);
      k' := ScanPasses(q, Regrant(t, k, now, ms), k + 1, m, now, ms);
    }
  }

  lemma PassedOver(q: QRec, t: Taking, k: nat, now: nat, ms: nat)
    requires Passed(q, t, k, now, ms) && k < |t.q.fl| && t.q.fl[k].expires > now
    ensures Passed(q, t, k + 1, now, ms)
  {
  }

  // ---- the pass over fresh jobs ------------------------------------------------------

  /** Jobs `from` to `to` - 1, each for the first time. */
  function Firsts(from: nat, to: nat): (r: seq<Grant>)
    requires from <= to
    ensures |r| == to - from && forall i | 0 <= i < |r| :: r[i] == Grant(from + i, 1)
  {
    seq(to - from, i requires 0 <= i < to - from => Grant(from + i, 1))
  }

  function FirstLeases(from: nat, to: nat, until: nat): (r: seq<Lease>)
    requires from <= to
    ensures |r| == to - from && forall i | 0 <= i < |r| :: r[i] == Lease(from + i, until, 1)
  {
    seq(to - from, i requires 0 <= i < to - from => Lease(from + i, until, 1))
  }

  /** The fresh pass hands out a run of jobs in order, as many as there is room for, and leases them. */
  lemma {:induction false} FreshRun(t: Taking, m: nat, now: nat, ms: nat, last: nat)
    requires |t.chosen| <= m && |t.q.fl| <= INFLIGHT_MAX
    ensures
      var t' := FreshFrom(t, m, now, ms, last);
      && t.q.next <= t'.q.next && |t'.chosen| <= m && |t'.q.fl| <= INFLIGHT_MAX
      && t'.chosen == t.chosen + Firsts(t.q.next, t'.q.next)
      && t'.q == t.q.(next := t'.q.next, fl := if ms > 0 then t.q.fl + FirstLeases(t.q.next, t'.q.next, now + ms) else t.q.fl)
      && t'.dying == t.dying && (t'.q.next > t.q.next ==> t'.q.next <= last + 1)
      && (|t'.chosen| < m ==> t'.q.next > last || (ms > 0 && |t'.q.fl| == INFLIGHT_MAX))
    decreases m - |t.chosen|
  {
    if MayGrantFresh(t, m, ms, last) {
      var t1 := GrantFresh(t, now, ms);
      FreshRun(t1, m, now, ms, last);
      var t' := FreshFrom(t1, m, now, ms, last);
      assert [Grant(t.q.next, 1)] + Firsts(t.q.next + 1, t'.q.next) == Firsts(t.q.next, t'.q.next);
      assert [Lease(t.q.next, now + ms, 1)] + FirstLeases(t.q.next + 1, t'.q.next, now + ms) == FirstLeases(t.q.next, t'.q.next, now + ms);
    } else {
      assert t.chosen + Firsts(t.q.next, t.q.next) == t.chosen && t.q.fl + FirstLeases(t.q.next, t.q.next, now + ms) == t.q.fl;
    }
  }

  lemma {:induction false} FreshEvents(t: Taking, m: nat, now: nat, ms: nat, last: nat)
    requires Given(t.events) == IndexesOf(t.chosen) && forall e | e in t.events && e.HandOut? :: e.at == now && e.until == now + ms
    ensures
      var t' := FreshFrom(t, m, now, ms, last);
      Given(t'.events) == IndexesOf(t'.chosen) && forall e | e in t'.events && e.HandOut? :: e.at == now && e.until == now + ms
    decreases m - |t.chosen|
  {
    if MayGrantFresh(t, m, ms, last) {
      GivenAppend(t.events, HandOut(t.q.next, now, now + ms, ms > 0));
      FreshEvents(GrantFresh(t, now, ms), m, now, ms, last);
    }
  }

  // ---- the take --------------------------------------------------------------------------

  /** A table as every run leaves it. */
  ghost predicate Tidy(q: QRec) {
    Distinct(q.fl) && |q.fl| <= 256 && forall e | e in q.fl :: e.index < q.next
  }

  /**
   What a take gives.  With `m` the number asked for, brought into 1 to 256, and
   `ms` the lease asked for or else the configured one: at most `m` jobs, first
   expired ones with an attempt left, each with one attempt more, then jobs never
   handed out, in order; fewer than `m` only when no expired job is left over and
   the log is exhausted or the table full of leases.
   */
  lemma TakeGives(q: QRec, max: int, lease: Option<nat>, now: nat, last: nat) returns (again: seq<Grant>)
    requires Tidy(q)
    ensures
      var t := Take(q, max, lease, now, last);
      var m := if max < 1 then 1 else if max > 256 then 256 else max;
      var ms := if lease.Some? then lease.value else q.leaseMs;
      && |t.chosen| <= m && q.next <= t.q.next && (t.q.next > q.next ==> t.q.next <= last + 1)
      && t.chosen == again + Firsts(q.next, t.q.next) && (forall g | g in again :: OfferedAgain(q, now, g))
      && (|t.chosen| < m ==>
            && (forall e | e in q.fl && e.expires <= now :: e in t.dying || IsChosen(t.chosen, e.index))
            && (t.q.next > last || (ms > 0 && |t.q.fl| == 256)))
      && (forall e | e in t.dying :: e in q.fl && PastHope(q, now, e))
      && Given(t.events) == IndexesOf(t.chosen) && (forall e | e in t.events && e.HandOut? :: e.at == now && e.until == now + ms)
  {
    var m := if max < 1 then 1 else if max > 256 then 256 else max;
    var ms := EffectiveLease(q, lease);
    var s, k := TakeSplits(q, max, m, lease, now, last);
    again := s.chosen;
    var t := Take(q, max, lease, now, last);
    hide Take, Queue.EffectiveLease, OfferedAgain, PastHope;
    PassedSays(q, s, k, now, ms);
    if |t.chosen| < m { ScanLeavesNone(q, s, t, k, now, ms); }
  }

  /** What a finished redelivery pass says of what it handed out and buried. */
  lemma PassedSays(q: QRec, s: Taking, k: nat, now: nat, ms: nat)
    requires Passed(q, s, k, now, ms)
    ensures forall g | g in s.chosen :: OfferedAgain(q, now, g)
    ensures forall e | e in s.dying :: e in q.fl && PastHope(q, now, e)
    ensures s.q.next == q.next
  {
    hide OfferedAgain, PastHope;
  }

  /** A take is a redelivery pass and, after it, a run of fresh jobs. */
  lemma TakeSplits(q: QRec, max: int, m: nat, lease: Option<nat>, now: nat, last: nat) returns (s: Taking, k: nat)
    requires Tidy(q) && m == if max < 1 then 1 else if max > 256 then 256 else max
    ensures
      var t, ms := Take(q, max, lease, now, last), EffectiveLease(q, lease);
      && Passed(q, s, k, now, ms) && |s.chosen| <= |t.chosen| <= m && (|s.chosen| < m ==> k >= |s.q.fl|)
      && s.q.next == q.next <= t.q.next && t.chosen == s.chosen + Firsts(q.next, t.q.next) && t.dying == s.dying
      && t.q == s.q.(next := t.q.next, fl := if ms > 0 then s.q.fl + FirstLeases(q.next, t.q.next, now + ms) else s.q.fl)
      && (t.q.next > q.next ==> t.q.next <= last + 1)
      && (|t.chosen| < m ==> t.q.next > last || (ms > 0 && |t.q.fl| == 256))
      && Given(t.events) == IndexesOf(t.chosen) && (forall e | e in t.events && e.HandOut? :: e.at == now && e.until == now + ms)
  {
    var ms, t0 := EffectiveLease(q, lease), StartTake(q, lease);
    StartPassed(q, lease, now);
    TakeIs(q, max, m, lease, now, last);
    hide *;
    k := ScanPasses(q, t0, 0, m, now, ms);
    s := ScanFrom(t0, 0, m, now, ms);
    PassedShape(q, s, k, now, ms);
    FreshRun(s, m, now, ms, last);
    FreshEvents(s, m, now, ms, last);
  }

  lemma TakeIs(q: QRec, max: int, m: nat, lease: Option<nat>, now: nat, last: nat)
    requires m == if max < 1 then 1 else if max > 256 then 256 else max
    ensures
      var ms := EffectiveLease(q, lease);
      Take(q, max, lease, now, last) == FreshFrom(ScanFrom(StartTake(q, lease), 0, m, now, ms), m, now, ms, last)
    ensures StartTake(q, lease).chosen == [] && INFLIGHT_MAX == 256
  {
  }

  lemma PassedShape(q: QRec, s: Taking, k: nat, now: nat, ms: nat)
    requires Tidy(q) && Passed(q, s, k, now, ms)
    ensures s.q.next == q.next && |s.q.fl| <= INFLIGHT_MAX
    ensures Given(s.events) == IndexesOf(s.chosen) && (forall e | e in s.events && e.HandOut? :: e.at == now && e.until == now + ms)
  {
    hide OfferedAgain, PastHope, Accountable;
  }

  lemma StartPassed(q: QRec, lease: Option<nat>, now: nat)
    requires Tidy(q)
    ensures Passed(q, StartTake(q, lease), 0, now, EffectiveLease(q, lease))
  {
  }

  lemma ScanLeavesNone(q: QRec, s: Taking, t: Taking, k: nat, now: nat, ms: nat)
    requires Tidy(q) && Passed(q, s, k, now, ms) && k >= |s.q.fl| && s.chosen <= t.chosen && t.dying == s.dying
    ensures forall e | e in q.fl && e.expires <= now :: e in t.dying || IsChosen(t.chosen, e.index)
  {
    hide OfferedAgain, PastHope, Accountable;
    forall x | IsChosen(s.chosen, x) ensures IsChosen(t.chosen, x) {
      var g :| g in s.chosen && g.index == x;
      var i :| 0 <= i < |s.chosen| && s.chosen[i] == g;
      assert t.chosen[i] == g;
    }
    forall e | e in q.fl && e.expires <= now ensures e in t.dying || IsChosen(t.chosen, e.index) {
      if e in s.q.fl { var j :| 0 <= j < |s.q.fl| && s.q.fl[j] == e; }
    }
  }

  /**
   What a take leaves in the table: each job handed out under a lease, until `ms`
   from now and with its attempts counted; every other lease as it was, but for
   the buried ones; and the settings as they were, but for the lease asked for.
   */
  lemma TakeLeaves(q: QRec, max: int, lease: Option<nat>, now: nat, last: nat)
    requires Tidy(q)
    ensures
      var t := Take(q, max, lease, now, last);
      var ms := if lease.Some? then lease.value else q.leaseMs;
      && (forall g | g in t.chosen && (ms > 0 || g.index < q.next) :: Lease(g.index, now + ms, g.attempts) in t.q.fl)
      && (forall e | e in t.q.fl :: e in q.fl || (Grant(e.index, e.attempts) in t.chosen && e.expires == now + ms))
      && (forall e | e in q.fl :: e in t.q.fl || e in t.dying || IsChosen(t.chosen, e.index))
      && t.q == q.(leaseMs := ms, next := t.q.next, fl := t.q.fl, deadTotal := t.q.deadTotal, dead := t.q.dead)
  {
    LeaseIs(q, lease);
    TakeLeases(q, max, lease, now, last);
    TakeSettings(q, max, lease, now, last);
  }

  lemma TakeLeases(q: QRec, max: int, lease: Option<nat>, now: nat, last: nat)
    requires Tidy(q)
    ensures
      var t, ms := Take(q, max, lease, now, last), EffectiveLease(q, lease);
      && (forall g | g in t.chosen && (ms > 0 || g.index < q.next) :: Lease(g.index, now + ms, g.attempts) in t.q.fl)
      && (forall e | e in t.q.fl :: e in q.fl || (Grant(e.index, e.attempts) in t.chosen && e.expires == now + ms))
      && (forall e | e in q.fl :: e in t.q.fl || e in t.dying || IsChosen(t.chosen, e.index))
  {
    hide *;
    var m := if max < 1 then 1 else if max > 256 then 256 else max;
    var s, k := TakeSplits(q, max, m, lease, now, last);
    LeftInTable(q, s, Take(q, max, lease, now, last), k, now, EffectiveLease(q, lease));
  }

  lemma TakeSettings(q: QRec, max: int, lease: Option<nat>, now: nat, last: nat)
    requires Tidy(q)
    ensures
      var t := Take(q, max, lease, now, last);
      t.q == q.(leaseMs := EffectiveLease(q, lease), next := t.q.next, fl := t.q.fl, deadTotal := t.q.deadTotal, dead := t.q.dead)
  {
    hide *;
    var m := if max < 1 then 1 else if max > 256 then 256 else max;
    var s, k := TakeSplits(q, max, m, lease, now, last);
    SettingsKept(q, s, k, now, EffectiveLease(q, lease));
  }

  lemma LeaseIs(q: QRec, lease: Option<nat>)
    ensures EffectiveLease(q, lease) == if lease.Some? then lease.value else q.leaseMs
  {
  }

  lemma SettingsKept(q: QRec, s: Taking, k: nat, now: nat, ms: nat)
    requires Passed(q, s, k, now, ms)
    ensures s.q == q.(leaseMs := ms, fl := s.q.fl, deadTotal := s.q.deadTotal, dead := s.q.dead)
  {
    hide OfferedAgain, PastHope, Accountable;
  }

  lemma LeftInTable(q: QRec, s: Taking, t: Taking, k: nat, now: nat, ms: nat)
    requires Tidy(q) && Passed(q, s, k, now, ms) && s.q.next <= t.q.next && t.dying == s.dying
    requires t.chosen == s.chosen + Firsts(s.q.next, t.q.next)
    requires t.q.fl == if ms > 0 then s.q.fl + FirstLeases(s.q.next, t.q.next, now + ms) else s.q.fl
    ensures forall g | g in t.chosen && (ms > 0 || g.index < q.next) :: Lease(g.index, now + ms, g.attempts) in t.q.fl
    ensures forall e | e in t.q.fl :: e in q.fl || (Grant(e.index, e.attempts) in t.chosen && e.expires == now + ms)
    ensures forall e | e in q.fl :: e in t.q.fl || e in t.dying || IsChosen(t.chosen, e.index)
  {
    hide OfferedAgain, PastHope;
    var given, leases := Firsts(s.q.next, t.q.next), FirstLeases(s.q.next, t.q.next, now + ms);
    forall g | g in given ensures g.index >= q.next && (ms > 0 ==> Lease(g.index, now + ms, g.attempts) in t.q.fl) {
      var i :| 0 <= i < |given| && given[i] == g;
      assert leases[i] == Lease(g.index, now + ms, g.attempts) && leases[i] in leases;
    }
    forall e | e in leases ensures Grant(e.index, e.attempts) in t.chosen && e.expires == now + ms {
      var i :| 0 <= i < |leases| && leases[i] == e;
      assert given[i] == Grant(e.index, e.attempts) && given[i] in given;
    }
    forall e | e in s.q.fl ensures e in q.fl || (Grant(e.index, e.attempts) in t.chosen && e.expires == now + ms) {
      assert Accountable(q, s, now, ms, e);
    }
    forall x | IsChosen(s.chosen, x) ensures IsChosen(t.chosen, x) {
      var g :| g in s.chosen && g.index == x;
      assert g in t.chosen;
    }
  }

  /** Every run leaves the table tidy. */
  lemma RunTidy(q0: QRec, ops: seq<Op>)
    requires IsNew(q0)
    ensures Tidy(Run(q0, ops).0)
  {
    RunRefines(q0, ops);
    var q := Run(q0, ops).0;
    forall e | e in q.fl ensures e.index < q.next {
      var k :| 0 <= k < |q.fl| && q.fl[k] == e;
    }
  }

  // ---- the other calls ---------------------------------------------------------------------

  /** A failed job is offered again after the delay given, or else after the group's: its base doubled per attempt, up to the ceiling. */
  lemma FailDelays(q: QRec, k: nat, delay: Option<nat>, now: nat)
    requires Distinct(q.fl) && k < |q.fl|
    ensures
      var (q', h) := Fail(q, q.fl[k].index, delay, now);
      && |q'.fl| == |q.fl|
      && q' == q.(fl := q.fl[k := q.fl[k].(expires := q'.fl[k].expires)]) && h == [Retime(q.fl[k].index, q'.fl[k].expires)]
      && (delay.Some? ==> q'.fl[k].expires == now + delay.value)
      && (delay.None? && 0 < q.maxBackoffMs < U64 && q.backoffMs < 0x4_0000_0000 && 1 <= q.fl[k].attempts <= U32 ==>
            q'.fl[k].expires == now + Min(q.backoffMs * Pow2(Min(q.fl[k].attempts - 1, 30) as nat), q.maxBackoffMs))
  {
    assert Find(q.fl, q.fl[k].index) == k;
    if delay.None? && 0 < q.maxBackoffMs < U64 && q.backoffMs < 0x4_0000_0000 && 1 <= q.fl[k].attempts <= U32 {
      BackoffClosedForm(q, q.fl[k].attempts);
    }
  }

  /** A finished job leaves the table, and nothing else does; a job not in the table cannot be failed or finished. */
  lemma DoneRemoves(q: QRec, index: nat, delay: Option<nat>, now: nat)
    requires Distinct(q.fl)
    ensures
      var q' := Done(q, index).0;
      (forall e :: e in q'.fl <==> e in q.fl && e.index != index) && q' == q.(fl := q'.fl)
    ensures !Holds(q.fl, index) ==> Done(q, index) == (q, []) && Fail(q, index, delay, now) == (q, [])
  {
    var k := Find(q.fl, index);
    if k < |q.fl| {
      SwapRemoveKeeps(q.fl, k);
      SwapRemoveHolds(q.fl, k);
      var q' := Done(q, index).0;
      forall e | e in q'.fl ensures e.index != index {
        var j :| 0 <= j < |q'.fl| && q'.fl[j] == e;
      }
    } else {
      assert forall e | e in q.fl :: e.index != index;
    }
  }

  /** What a group is configured for is what the next calls go by: the lease, the attempts, the first delay and the longest. */
  lemma ConfigTakesEffect(q: QRec, leaseMs: nat, maxAttempts: nat, backoffMs: nat, maxBackoffMs: nat, k: nat, now: nat, max: int, last: nat)
    requires Tidy(q) && k < |q.fl| && 1 <= q.fl[k].attempts <= U32
    requires 0 < maxBackoffMs < U64 && backoffMs < 0x4_0000_0000
    ensures
      var q' := Config(q, leaseMs, maxAttempts, backoffMs, maxBackoffMs);
      var (failed, t) := (Fail(q', q.fl[k].index, None, now).0, Take(q', max, None, now, last));
      && q'.next == q.next && q'.fl == q.fl && q'.deadTotal == q.deadTotal && q'.dead == q.dead
      && |failed.fl| == |q.fl|
      && failed.fl[k].expires == now + Min(backoffMs * Pow2(Min(q.fl[k].attempts - 1, 30) as nat), maxBackoffMs)
      && (forall g | g in t.chosen && leaseMs > 0 :: Lease(g.index, now + leaseMs, g.attempts) in t.q.fl)
      && (forall e | e in t.dying :: e.expires <= now && maxAttempts != 0 && e.attempts >= maxAttempts)
  {
    hide Take, Fail;
    var q' := Config(q, leaseMs, maxAttempts, backoffMs, maxBackoffMs);
    FailDelays(q', k, None, now);
    TakeLeaves(q', max, None, now, last);
    var _ := TakeGives(q', max, None, now, last);
  }
}
