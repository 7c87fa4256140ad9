/**
 Queue groups: the lease table of src/store.c as values.

 A group stores only `next` (the lowest index never handed out) and a flat
 table of leases; "done" is the absence of an entry.  The independent account
 of what the table means is `Fate`: every job is replayed on its own through a
 small automaton that goes `Broken` on any illegal transition (a hand-out
 before the recorded expiry, a second finish, a hand-out of a finished job).
 The table is proved to refine that account over every run.
 */
module Queue {
  import opened Options
  import opened Words

  const INFLIGHT_MAX: nat := 256
  const DEAD_MAX: nat := 64
  const LEASE_DEFAULT_MS: nat := 30000
  const MAX_ATTEMPTS_DEFAULT: nat := 10
  const BACKOFF_DEFAULT_MS: nat := 1000
  const MAX_BACKOFF_DEFAULT_MS: nat := 300000

  datatype Lease = Lease(index: nat, expires: nat, attempts: nat)

  datatype QRec = QRec(
    next: nat, leaseMs: nat, maxAttempts: nat, backoffMs: nat, maxBackoffMs: nat,
    fl: seq<Lease>, deadTotal: nat, dead: seq<nat>)

  /** A job handed to a worker: what a take answers with. */
  datatype Grant = Grant(index: nat, attempts: nat)

  /** What happened to one job. */
  datatype Event =
    | HandOut(index: nat, at: nat, until: nat, leased: bool)
    | Retime(index: nat, until: nat)
    | Finish(index: nat)
    | Die(index: nat)

  /** A take in progress: the record, what it chose, what died, what happened. */
  datatype Taking = Taking(q: QRec, chosen: seq<Grant>, dying: seq<Lease>, events: seq<Event>)

  // ---- the operations ---------------------------------------------------

  /** A record for a group that has never been stored (queue_load's fallback). */
  function FreshRec(start: nat): QRec {
    QRec(start, LEASE_DEFAULT_MS, MAX_ATTEMPTS_DEFAULT, BACKOFF_DEFAULT_MS, MAX_BACKOFF_DEFAULT_MS, [], 0, [])
  }

  function SwapRemove(fl: seq<Lease>, k: nat): seq<Lease>
    requires k < |fl|
  {
    fl[k := fl[|fl| - 1]][..|fl| - 1]
  }

  function PushDead(dead: seq<nat>, index: nat): seq<nat> {
    (if |dead| == DEAD_MAX then dead[1..] else dead) + [index]
  }

  predicate Exhausted(q: QRec, e: Lease) {
    q.maxAttempts != 0 && e.attempts >= q.maxAttempts
  }

  function Bury(t: Taking, k: nat): Taking
    requires k < |t.q.fl|
  {
    var e := t.q.fl[k];
    Taking(
      t.q.(deadTotal := t.q.deadTotal + 1, dead := PushDead(t.q.dead, e.index), fl := SwapRemove(t.q.fl, k)),
      t.chosen, t.dying + [e], t.events + [Die(e.index)])
  }

  function Regrant(t: Taking, k: nat, now: nat, lease: nat): Taking
    requires k < |t.q.fl|
  {
    var e := t.q.fl[k];
    Taking(
      t.q.(fl := t.q.fl[k := Lease(e.index, now + lease, e.attempts + 1)]),
      t.chosen + [Grant(e.index, e.attempts + 1)], t.dying,
      t.events + [HandOut(e.index, now, now + lease, true)])
  }

  /** The redelivery pass, from table position `k` on. */
  function ScanFrom(t: Taking, k: nat, max: nat, now: nat, lease: nat): Taking
    decreases |t.q.fl| - k
  {
    if k >= |t.q.fl| || |t.chosen| >= max then t
    else if t.q.fl[k].expires > now then ScanFrom(t, k + 1, max, now, lease)
    else if Exhausted(t.q, t.q.fl[k]) then ScanFrom(Bury(t, k), k, max, now, lease)
    else ScanFrom(Regrant(t, k, now, lease), k + 1, max, now, lease)
  }

  predicate MayGrantFresh(t: Taking, max: nat, lease: nat, last: nat) {
    |t.chosen| < max && t.q.next <= last && (lease > 0 ==> |t.q.fl| < INFLIGHT_MAX)
  }

  function GrantFresh(t: Taking, now: nat, lease: nat): Taking {
    var q := if lease > 0 then t.q.(fl := t.q.fl + [Lease(t.q.next, now + lease, 1)]) else t.q;
    Taking(
      q.(next := q.next + 1), t.chosen + [Grant(t.q.next, 1)], t.dying,
      t.events + [HandOut(t.q.next, now, now + lease, lease > 0)])
  }

  /** The pass over messages never handed out. */
  function FreshFrom(t: Taking, max: nat, now: nat, lease: nat, last: nat): Taking
    decreases max - |t.chosen|
  {
    if MayGrantFresh(t, max, lease, last)
    then FreshFrom(GrantFresh(t, now, lease), max, now, lease, last)
    else t
  }

  function ClampMax(max: int): (m: nat)
    ensures 1 <= m <= INFLIGHT_MAX
  {
    if max < 1 then 1 else if max > INFLIGHT_MAX then INFLIGHT_MAX else max
  }

  /** `None` is the caller saying "whatever the group is configured for". */
  function EffectiveLease(q: QRec, lease: Option<nat>): nat {
    if lease.None? then q.leaseMs else lease.value
  }

  function StartTake(q: QRec, lease: Option<nat>): Taking {
    Taking(q.(leaseMs := EffectiveLease(q, lease)), [], [], [])
  }

  function Take(q: QRec, max: int, lease: Option<nat>, now: nat, last: nat): Taking {
    var ms := EffectiveLease(q, lease);
    FreshFrom(ScanFrom(StartTake(q, lease), 0, ClampMax(max), now, ms), ClampMax(max), now, ms, last)
  }

  /** The first position whose index is `index`, or |fl|. */
  function Find(fl: seq<Lease>, index: nat): (k: nat)
    ensures k <= |fl|
    ensures k < |fl| ==> fl[k].index == index
    ensures forall j | 0 <= j < k :: fl[j].index != index
  {
    if |fl| == 0 then 0
    else if fl[0].index == index then 0
    else
      var k := Find(fl[1..], index);
      assert forall j | 1 <= j < k + 1 :: fl[j] == fl[1..][j - 1];
      k + 1
  }

  function Done(q: QRec, index: nat): (QRec, seq<Event>) {
    var k := Find(q.fl, index);
    if k == |q.fl| then (q, []) else (q.(fl := SwapRemove(q.fl, k)), [Finish(index)])
  }

  /**
   The wait before a failed job is offered again, with the C arithmetic: the
   attempt count narrowed to 32 bits and a 64-bit shift that may wrap.
   */
  function BackoffFor(q: QRec, attempts: nat): nat {
    Delay(q.backoffMs, q.maxBackoffMs, attempts)
  }

  function Delay(base: nat, ceiling: nat, attempts: nat): nat {
    if base == 0 then 0 else CapDelay((base * Pow2(ShiftFor(attempts))) % U64, base, ceiling)
  }

  function ShiftFor(attempts: nat): nat {
    var raw := if attempts > 0 then (attempts - 1) % U32 else 0;
    if raw > 30 then 30 else raw
  }

  /** `shifted` below the base means the shift overflowed; the ceiling applies if there is one. */
  function CapDelay(shifted: nat, base: nat, ceiling: nat): nat {
    var d := if shifted < base then ceiling else shifted;
    if ceiling != 0 && d > ceiling then ceiling else d
  }

  function FailDelay(q: QRec, attempts: nat, delay: Option<nat>): nat {
    if delay.None? then BackoffFor(q, attempts) else delay.value
  }

  function Fail(q: QRec, index: nat, delay: Option<nat>, now: nat): (QRec, seq<Event>) {
    var k := Find(q.fl, index);
    if k == |q.fl| then (q, [])
    else
      var until := now + FailDelay(q, q.fl[k].attempts, delay);
      (q.(fl := q.fl[k := q.fl[k].(expires := until)]), [Retime(index, until)])
  }

  function Config(q: QRec, leaseMs: nat, maxAttempts: nat, backoffMs: nat, maxBackoffMs: nat): QRec {
    q.(leaseMs := leaseMs, maxAttempts := maxAttempts, backoffMs := backoffMs, maxBackoffMs := maxBackoffMs)
  }

  /** The earliest expiry in the table; `None` when the group is idle. */
  function NextDue(fl: seq<Lease>): (due: Option<nat>)
    ensures due.None? <==> fl == []
    ensures due.Some? ==> (exists e | e in fl :: e.expires == due.value)
    ensures due.Some? ==> forall e | e in fl :: due.value <= e.expires
  {
    if fl == [] then None
    else
      var rest := NextDue(fl[..|fl| - 1]);
      var e := fl[|fl| - 1];
      assert fl == fl[..|fl| - 1] + [e];
      if rest.None? || e.expires < rest.value then Some(e.expires) else rest
  }

  /** The lowest index still owed to a worker. */
  function Owed(q: QRec): (o: nat)
    ensures o <= q.next
    ensures forall e | e in q.fl :: o <= e.index
    ensures o == q.next || exists e | e in q.fl :: e.index == o
  {
    OwedFrom(q.fl, q.next)
  }

  function OwedFrom(fl: seq<Lease>, bound: nat): (o: nat)
    ensures o <= bound
    ensures forall e | e in fl :: o <= e.index
    ensures o == bound || exists e | e in fl :: e.index == o
  {
    if fl == [] then bound
    else
      var o := OwedFrom(fl[..|fl| - 1], bound);
      var e := fl[|fl| - 1];
      assert fl == fl[..|fl| - 1] + [e];
      if e.index < o then e.index else o
  }

  // ---- what the history says -------------------------------------------

  datatype Job = Waiting | Leased(until: nat, tries: nat) | Finished | Dead | Forgotten | Broken

  /** One job's life.  Anything not listed is illegal. */
  function JobStep(j: Job, e: Event): Job {
    match (j, e)
    case (Waiting, HandOut(_, _, until, leased)) => if leased then Leased(until, 1) else Forgotten
    case (Leased(until, tries), HandOut(_, at, again, leased)) =>
      if at >= until && leased then Leased(again, tries + 1) else Broken
    case (Leased(_, tries), Retime(_, until)) => Leased(until, tries)
    case (Leased(_, _), Finish(_)) => Finished
    case (Leased(_, _), Die(_)) => Dead
    case _ => Broken
  }

  function Fate(h: seq<Event>, i: nat): Job {
    if h == [] then Waiting
    else
      var e := h[|h| - 1];
      var before := Fate(h[..|h| - 1], i);
      if e.index == i then JobStep(before, e) else before
  }

  /** The jobs that died, in order. */
  function Deaths(h: seq<Event>): seq<nat> {
    if h == [] then []
    else Deaths(h[..|h| - 1]) + if h[|h| - 1].Die? then [h[|h| - 1].index] else []
  }

  function LastOf(s: seq<nat>, n: nat): seq<nat> {
    if |s| <= n then s else s[|s| - n..]
  }

  // ---- the table refines the history -----------------------------------

  ghost predicate Distinct(fl: seq<Lease>) {
    forall a, b | 0 <= a < b < |fl| :: fl[a].index != fl[b].index
  }

  ghost predicate Holds(fl: seq<Lease>, i: nat) {
    exists k | 0 <= k < |fl| :: fl[k].index == i
  }

  ghost predicate Refines(start: nat, q: QRec, h: seq<Event>) {
    && start <= q.next
    && |q.fl| <= INFLIGHT_MAX
    && Distinct(q.fl)
    && (forall k | 0 <= k < |q.fl| ::
          start <= q.fl[k].index < q.next &&
          Fate(h, q.fl[k].index) == Leased(q.fl[k].expires, q.fl[k].attempts))
    && (forall i: nat :: Fate(h, i).Leased? ==> Holds(q.fl, i))
    && (forall i: nat :: Fate(h, i) != Broken && (Fate(h, i).Waiting? <==> !(start <= i < q.next)))
    && q.deadTotal == |Deaths(h)|
    && q.dead == LastOf(Deaths(h), DEAD_MAX)
  }

  lemma FateAppend(h: seq<Event>, e: Event, i: nat)
    ensures Fate(h + [e], i) == if e.index == i then JobStep(Fate(h, i), e) else Fate(h, i)
  {
    assert (h + [e])[..|h|] == h;
  }

  lemma FatesAppend(h: seq<Event>, e: Event)
    ensures forall i: nat :: Fate(h + [e], i) == if e.index == i then JobStep(Fate(h, i), e) else Fate(h, i)
  {
    forall i: nat ensures Fate(h + [e], i) == if e.index == i then JobStep(Fate(h, i), e) else Fate(h, i) {
      FateAppend(h, e, i);
    }
  }

  lemma DeathsAppend(h: seq<Event>, e: Event)
    ensures Deaths(h + [e]) == Deaths(h) + if e.Die? then [e.index] else []
  {
    assert (h + [e])[..|h|] == h;
  }

  lemma SwapRemoveHolds(fl: seq<Lease>, k: nat)
    requires k < |fl| && Distinct(fl)
    ensures Distinct(SwapRemove(fl, k))
    ensures forall i: nat | i != fl[k].index && Holds(fl, i) :: Holds(SwapRemove(fl, k), i)
    ensures forall j | 0 <= j < |fl| - 1 :: SwapRemove(fl, k)[j] == (if j == k then fl[|fl| - 1] else fl[j])
    ensures !Holds(SwapRemove(fl, k), fl[k].index)
  {
    var r := SwapRemove(fl, k);
    forall i: nat | i != fl[k].index && Holds(fl, i) ensures Holds(r, i) {
      var j :| 0 <= j < |fl| && fl[j].index == i;
      if j == |fl| - 1 { assert r[k].index == i; } else { assert r[j].index == i; }
    }
  }

  // ---- runs --------------------------------------------------------------

  /** One call on the group.  `last` is where the log ends at that moment. */
  datatype Op =
    | OpTake(max: int, lease: Option<nat>, now: nat, last: nat)
    | OpDone(index: nat)
    | OpFail(index: nat, delay: Option<nat>, now: nat)
    | OpConfig(leaseMs: nat, maxAttempts: nat, backoffMs: nat, maxBackoffMs: nat)

  function Apply(q: QRec, op: Op): (QRec, seq<Event>) {
    match op
    case OpTake(max, lease, now, last) => var t := Take(q, max, lease, now, last); (t.q, t.events)
    case OpDone(index) => Done(q, index)
    case OpFail(index, delay, now) => Fail(q, index, delay, now)
    case OpConfig(l, m, b, x) => (Config(q, l, m, b, x), [])
  }

  function Run(q: QRec, ops: seq<Op>): (QRec, seq<Event>) {
    if ops == [] then (q, [])
    else
      var (q1, h1) := Run(q, ops[..|ops| - 1]);
      var (q2, h2) := Apply(q1, ops[|ops| - 1]);
      (q2, h1 + h2)
  }

  /** A group nothing has happened to yet, whatever its settings. */
  predicate IsNew(q: QRec) { q.fl == [] && q.deadTotal == 0 && q.dead == [] }
}
