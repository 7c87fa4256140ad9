/**
 The queue record as src/store.c edits it: fixed-size tables changed in place.
 Every method is proved to compute the value-level operation of `Queue`, which
 is what the theorems of `QueueTheorems` are about.
 */
module QueueGroups {
  import opened Options
  import opened Queue

  /** A record the fixed tables have room for. */
  predicate Holdable(q: QRec) { |q.fl| <= INFLIGHT_MAX && |q.dead| <= DEAD_MAX }

  class QueueGroup {
    var next: nat
    var leaseMs: nat
    var maxAttempts: nat
    var backoffMs: nat
    var maxBackoffMs: nat
    const fl: array<Lease>
    var nfl: nat
    var deadTotal: nat
    const dead: array<nat>
    var ndead: nat

    ghost predicate Valid()
      reads this
    {
      && fl.Length == INFLIGHT_MAX && nfl <= INFLIGHT_MAX
      && dead.Length == DEAD_MAX && ndead <= DEAD_MAX
    }

    function Rec(): QRec
      requires Valid()
      reads this, fl, dead
    {
      QRec(next, leaseMs, maxAttempts, backoffMs, maxBackoffMs, fl[..nfl], deadTotal, dead[..ndead])
    }

    /** A group that was never stored: it starts at the oldest surviving message. */
    constructor (base: nat)
      ensures Valid() && fresh(fl) && fresh(dead)
      ensures Rec() == FreshRec(base + 1) == QRec(base + 1, 30000, 10, 1000, 300000, [], 0, [])
    {
      next := base + 1;
      leaseMs, maxAttempts := LEASE_DEFAULT_MS, MAX_ATTEMPTS_DEFAULT;
      backoffMs, maxBackoffMs := BACKOFF_DEFAULT_MS, MAX_BACKOFF_DEFAULT_MS;
      fl := new Lease[INFLIGHT_MAX](_ => Lease(0, 0, 0));
      dead := new nat[DEAD_MAX](_ => 0);
      nfl, deadTotal, ndead := 0, 0, 0;
    }

    /** A stored record read back into the tables. */
    constructor Load(q: QRec)
      requires Holdable(q)
      ensures Valid() && fresh(fl) && fresh(dead)
      ensures Rec() == q
    {
      next, leaseMs, maxAttempts := q.next, q.leaseMs, q.maxAttempts;
      backoffMs, maxBackoffMs := q.backoffMs, q.maxBackoffMs;
      fl := new Lease[INFLIGHT_MAX](i => if 0 <= i < |q.fl| then q.fl[i] else Lease(0, 0, 0));
      dead := new nat[DEAD_MAX](i => if 0 <= i < |q.dead| then q.dead[i] else 0);
      nfl, deadTotal, ndead := |q.fl|, q.deadTotal, |q.dead|;
      new;
      assert fl[..nfl] == q.fl && dead[..ndead] == q.dead;
    }

    /** Remove one lease by moving the last one into its place. */
    method RemoveLease(k: nat)
      requires Valid() && k < nfl
      modifies this`nfl, fl
      ensures Valid()
      ensures Rec() == old(Rec()).(fl := SwapRemove(old(Rec()).fl, k))
    {
      ghost var was := fl[..nfl];
      if k != nfl - 1 {
        fl[k] := fl[nfl - 1];
      }
      nfl := nfl - 1;
      assert fl[..nfl] == SwapRemove(was, k);
    }

    /** Make room in a full list of deaths by dropping the oldest. */
    method ShiftDead()
      requires Valid() && ndead == DEAD_MAX
      modifies this`ndead, dead
      ensures Valid() && ndead == DEAD_MAX - 1
      ensures dead[..ndead] == old(dead[..])[1..]
    {
      forall j | 0 <= j < DEAD_MAX - 1 { dead[j] := dead[j + 1]; }
      ndead := ndead - 1;
    }

    /** Append to the list of the most recent deaths, dropping the oldest when full. */
    method RecordDeath(index: nat)
      requires Valid()
      modifies this`deadTotal, this`ndead, dead
      ensures Valid()
      ensures Rec() == old(Rec()).(deadTotal := old(deadTotal) + 1, dead := PushDead(old(Rec()).dead, index))
    {
      ghost var was := dead[..ndead];
      deadTotal := deadTotal + 1;
      if ndead == DEAD_MAX {
        assert was == dead[..];
        ShiftDead();
      }
      ghost var kept := dead[..ndead];
      dead[ndead] := index;
      ndead := ndead + 1;
      assert dead[..ndead] == kept + [index];
    }

    /** Give the job at position `k` a new lease. */
    method Relet(k: nat, until: nat)
      requires Valid() && k < nfl
      modifies fl
      ensures Valid()
      ensures var e := old(Rec()).fl[k];
              Rec() == old(Rec()).(fl := old(Rec()).fl[k := Lease(e.index, until, e.attempts + 1)])
    {
      ghost var was := fl[..nfl];
      fl[k] := Lease(fl[k].index, until, fl[k].attempts + 1);
      assert fl[..nfl] == was[k := Lease(was[k].index, until, was[k].attempts + 1)];
    }

    /** Move `next` past the next message, leasing it when there is a lease. */
    method Advance(now: nat, ms: nat)
      requires Valid() && (ms > 0 ==> nfl < INFLIGHT_MAX)
      modifies this`next, this`nfl, fl
      ensures Valid()
      ensures Rec() == GrantFresh(Taking(old(Rec()), [], [], []), now, ms).q
    {
      ghost var was := fl[..nfl];
      if ms > 0 {
        fl[nfl] := Lease(next, now + ms, 1);
        nfl := nfl + 1;
        assert fl[..nfl] == was + [Lease(next, now + ms, 1)];
      }
      next := next + 1;
    }

    /** The redelivery pass over expired leases. */
    method Redeliver(m: nat, now: nat, ms: nat)
      returns (chosen: seq<Grant>, dying: seq<Lease>, ghost t: Taking)
      requires Valid()
      modifies this`nfl, this`deadTotal, this`ndead, fl, dead
      ensures Valid()
      ensures t == ScanFrom(Taking(old(Rec()), [], [], []), 0, m, now, ms)
      ensures t == Taking(Rec(), chosen, dying, t.events)
      ensures |chosen| <= m && |dying| + nfl == old(nfl)
    {
      ghost var start := Taking(Rec(), [], [], []);
      t := start;
      chosen, dying := [], [];
      var k := 0;
      while k < nfl && |chosen| < m
        invariant Valid() && k <= nfl
        invariant t == Taking(Rec(), chosen, dying, t.events)
        invariant |chosen| <= m && |dying| + nfl == old(nfl)
        invariant ScanFrom(t, k, m, now, ms) == ScanFrom(start, 0, m, now, ms)
        decreases nfl - k
      {
        var e := fl[k];
        if e.expires > now {
          k := k + 1;
        } else if maxAttempts != 0 && e.attempts >= maxAttempts {
          t := Bury(t, k);
          RecordDeath(e.index);
          dying := dying + [e];
          RemoveLease(k);
        } else {
          t := Regrant(t, k, now, ms);
          Relet(k, now + ms);
          chosen := chosen + [Grant(e.index, e.attempts + 1)];
          k := k + 1;
        }
      }
    }

    /** The pass over messages never handed out; a full table pushes back. */
    method HandOutFresh(already: seq<Grant>, m: nat, now: nat, ms: nat, last: nat, ghost t0: Taking)
      returns (chosen: seq<Grant>, ghost t: Taking)
      requires Valid()
      requires t0 == Taking(Rec(), already, t0.dying, t0.events) && |already| <= m
      modifies this`next, this`nfl, fl
      ensures Valid()
      ensures t == FreshFrom(t0, m, now, ms, last)
      ensures t == Taking(Rec(), chosen, t0.dying, t.events)
      ensures |chosen| <= m
    {
      chosen := already;
      t := t0;
      while |chosen| < m && next <= last
        invariant Valid()
        invariant t == Taking(Rec(), chosen, t0.dying, t.events)
        invariant |chosen| <= m
        invariant FreshFrom(t, m, now, ms, last) == FreshFrom(t0, m, now, ms, last)
      {
        if ms > 0 && nfl >= INFLIGHT_MAX { break; }
        t := GrantFresh(t, now, ms);
        chosen := chosen + [Grant(next, 1)];
        Advance(now, ms);
      }
    }

    /**
     Lease up to `max` jobs; `last` is the end of the log.  A job that ran out
     of attempts is handed back in `dying`, never more of them than the table held.
     */
    method TakeJobs(max: int, lease: Option<nat>, now: nat, last: nat)
      returns (chosen: seq<Grant>, dying: seq<Lease>, ghost happened: seq<Event>)
      requires Valid()
      modifies this, fl, dead
      ensures Valid()
      ensures
        var t := Take(old(Rec()), max, lease, now, last);
        Rec() == t.q && chosen == t.chosen && dying == t.dying && happened == t.events
      ensures |chosen| <= INFLIGHT_MAX && |dying| <= old(nfl)
    {
      var ms := if lease.None? then leaseMs else lease.value;
      leaseMs := ms;
      var m := ClampMax(max);
      ghost var t;
      chosen, dying, t := Redeliver(m, now, ms);
      chosen, t := HandOutFresh(chosen, m, now, ms, last, t);
      happened := t.events;
    }

    /** The table position of `index`, or `nfl`. */
    method FindLease(index: nat) returns (k: nat)
      requires Valid()
      ensures k == Find(fl[..nfl], index)
      ensures k <= nfl
    {
      k := 0;
      while k < nfl && fl[k].index != index
        invariant k <= nfl
        invariant forall j | 0 <= j < k :: fl[j].index != index
      {
        k := k + 1;
      }
    }

    method DoneJob(index: nat) returns (found: bool)
      requires Valid()
      modifies this`nfl, fl
      ensures Valid() && Rec() == Done(old(Rec()), index).0
      ensures found <==> Done(old(Rec()), index).1 != []
    {
      var k := FindLease(index);
      found := k < nfl;
      if found { RemoveLease(k); }
    }

    method FailJob(index: nat, delay: Option<nat>, now: nat) returns (found: bool, retryIn: nat)
      requires Valid()
      modifies fl
      ensures Valid() && Rec() == Fail(old(Rec()), index, delay, now).0
      ensures found <==> Fail(old(Rec()), index, delay, now).1 != []
      ensures found ==> Fail(old(Rec()), index, delay, now).1 == [Retime(index, now + retryIn)]
    {
      var k := FindLease(index);
      found, retryIn := k < nfl, 0;
      if found {
        ghost var q := Rec();
        retryIn := FailDelay(Rec(), fl[k].attempts, delay);
        fl[k] := fl[k].(expires := now + retryIn);
        assert fl[..nfl] == q.fl[k := q.fl[k].(expires := now + retryIn)];
      }
    }

    method Configure(lease: nat, attempts: nat, backoff: nat, ceiling: nat)
      requires Valid()
      modifies this`leaseMs, this`maxAttempts, this`backoffMs, this`maxBackoffMs
      ensures Valid() && Rec() == Config(old(Rec()), lease, attempts, backoff, ceiling)
    {
      leaseMs, maxAttempts, backoffMs, maxBackoffMs := lease, attempts, backoff, ceiling;
    }

    /** The earliest expiry, found by one pass over the table. */
    method EarliestDue() returns (due: Option<nat>)
      requires Valid()
      ensures due == NextDue(fl[..nfl])
    {
      due := None;
      for k := 0 to nfl
        invariant due == NextDue(fl[..k])
      {
        assert fl[..k + 1][..k] == fl[..k];
        if due.None? || fl[k].expires < due.value { due := Some(fl[k].expires); }
      }
    }

    /** The trim floor this group imposes: one below the lowest index owed. */
    method TrimFloor() returns (f: nat)
      requires Valid()
      ensures f == if Owed(Rec()) > 0 then Owed(Rec()) - 1 else 0
    {
      var owed := next;
      for k := 0 to nfl
        invariant owed == OwedFrom(fl[..k], next)
      {
        assert fl[..k + 1][..k] == fl[..k];
        if fl[k].index < owed { owed := fl[k].index; }
      }
      f := if owed > 0 then owed - 1 else 0;
    }
  }
}
