/**
 A turn that comes to nothing: what a subscription's round leaves behind when it
 starts no delivery and finds nothing to wait for, step by step.
 */
module PushTurn {
  import opened Options
  import opened Words
  import opened Queue
  import opened Names
  import opened PushModel
  import opened PushReceipts
  import opened PushQuiet

  // ---- a take that comes to nothing ------------------------------------------------

  /** Every lease is expired and out of attempts. */
  ghost predicate AllSpent(q: QRec, now: nat) {
    forall e | e in q.fl :: e.expires <= now && Exhausted(q, e)
  }

  lemma {:induction false} CountLiveSwap(r: Range, fl: seq<Lease>, k: nat)
    requires k < |fl|
    ensures CountLive(r, fl) == CountLive(r, SwapRemove(fl, k)) + if InLog(r, fl[k].index) then 1 else 0
  {
    var n := |fl| - 1;
    if k == n {
      assert SwapRemove(fl, k) == fl[..n];
    } else {
      var init := fl[..n];
      CountLiveSwap(r, init, k);
      CountLiveReplace(r, init, k, fl[n]);
      assert SwapRemove(fl, k) == init[k := fl[n]];
    }
  }

  lemma {:induction false} CountLiveReplace(r: Range, fl: seq<Lease>, k: nat, e: Lease)
    requires k < |fl|
    ensures CountLive(r, fl[k := e]) + (if InLog(r, fl[k].index) then 1 else 0)
         == CountLive(r, fl) + if InLog(r, e.index) then 1 else 0
  {
    var n := |fl| - 1;
    if k == n {
      assert fl[k := e][..n] == fl[..n];
    } else {
      CountLiveReplace(r, fl[..n], k, e);
      assert fl[k := e][..n] == fl[..n][k := e];
    }
  }

  lemma CountLiveAppend(r: Range, fl: seq<Lease>, e: Lease)
    ensures CountLive(r, fl + [e]) == CountLive(r, fl) + if InLog(r, e.index) then 1 else 0
  {
    assert (fl + [e])[..|fl|] == fl;
  }

  lemma {:induction false} CountLiveSome(r: Range, fl: seq<Lease>)
    ensures CountLive(r, fl) > 0 <==> exists e | e in fl :: InLog(r, e.index)
  {
    if fl != [] {
      var n := |fl| - 1;
      CountLiveSome(r, fl[..n]);
      assert fl == fl[..n] + [fl[n]];
    }
  }

  /** Positions the scan has passed stay occupied. */
  lemma {:induction false} ScanKeepsPassed(t: Taking, k: nat, max: nat, now: nat, lease: nat)
    requires k <= |t.q.fl|
    ensures |ScanFrom(t, k, max, now, lease).q.fl| >= k
    decreases |t.q.fl| - k
  {
    if k >= |t.q.fl| || |t.chosen| >= max {
    } else if t.q.fl[k].expires > now {
      ScanKeepsPassed(t, k + 1, max, now, lease);
    } else if Exhausted(t.q, t.q.fl[k]) {
      ScanKeepsPassed(Bury(t, k), k, max, now, lease);
    } else {
      ScanKeepsPassed(Regrant(t, k, now, lease), k + 1, max, now, lease);
    }
  }

  /** A scan that leaves an empty table has buried everything in it. */
  lemma {:induction false} ScanBuries(t: Taking, max: nat, now: nat, lease: nat, r: Range)
    requires |t.chosen| < max && ScanFrom(t, 0, max, now, lease).q.fl == []
    ensures
      var t' := ScanFrom(t, 0, max, now, lease);
      && AllSpent(t.q, now) && t'.chosen == t.chosen
      && t'.q == t.q.(fl := [], deadTotal := t'.q.deadTotal, dead := t'.q.dead)
      && CountLive(r, t'.dying) == CountLive(r, t.dying) + CountLive(r, t.q.fl)
    decreases |t.q.fl|
  {
    if t.q.fl != [] {
      var e := t.q.fl[0];
      if e.expires > now {
        ScanKeepsPassed(t, 1, max, now, lease);
        assert false;
      } else if !Exhausted(t.q, e) {
        ScanKeepsPassed(Regrant(t, 0, now, lease), 1, max, now, lease);
        assert false;
      } else {
        var b := Bury(t, 0);
        ScanBuries(b, max, now, lease, r);
        CountLiveSwap(r, t.q.fl, 0);
        CountLiveAppend(r, t.dying, e);
        assert forall x | x in t.q.fl :: x == e || x in b.q.fl by { SwapKeeps(t.q.fl); }
      }
    }
  }

  lemma SwapKeeps(fl: seq<Lease>)
    requires fl != []
    ensures forall x | x in fl :: x == fl[0] || x in SwapRemove(fl, 0)
  {
    var r := SwapRemove(fl, 0);
    forall x | x in fl && x != fl[0] ensures x in r {
      var i :| 0 <= i < |fl| && fl[i] == x;
      if i == |fl| - 1 { assert r[0] == x; } else { assert r[i] == x; }
    }
  }

  ghost predicate Given(chosen: seq<Grant>, i: nat) {
    exists g | g in chosen :: g.index == i
  }

  /** The fresh pass: what it grants under a lease stays in the table. */
  lemma {:induction false} FreshGrants(t: Taking, max: nat, now: nat, lease: nat, last: nat)
    ensures
      var t' := FreshFrom(t, max, now, lease, last);
      && t.chosen <= t'.chosen && t.q.next <= t'.q.next
      && |t.q.fl| <= |t'.q.fl|
      && t'.q.leaseMs == t.q.leaseMs && t'.q.maxAttempts == t.q.maxAttempts && t'.dying == t.dying
      && (lease > 0 && t'.q.next > t.q.next ==> t'.q.fl != [])
      && !MayGrantFresh(t', max, lease, last)
      && (t'.q.next == t.q.next ==> t' == t)
    decreases max - |t.chosen|
  {
    if MayGrantFresh(t, max, lease, last) { FreshGrants(GrantFresh(t, now, lease), max, now, lease, last); }
  }

  /** And every index it moves past is chosen. */
  lemma {:induction false} FreshGives(t: Taking, max: nat, now: nat, lease: nat, last: nat, i: nat)
    requires t.q.next <= i < FreshFrom(t, max, now, lease, last).q.next
    ensures Given(FreshFrom(t, max, now, lease, last).chosen, i)
    decreases max - |t.chosen|
  {
    if MayGrantFresh(t, max, lease, last) {
      var t1 := GrantFresh(t, now, lease);
      if i == t.q.next {
        FreshGrants(t1, max, now, lease, last);
        assert t1.chosen[|t.chosen|] == Grant(i, 1);
        assert FreshFrom(t1, max, now, lease, last).chosen[|t.chosen|] == Grant(i, 1);
      } else {
        FreshGives(t1, max, now, lease, last, i);
      }
    }
  }

  /** A group with a zero lease that has not been handed out past what was trimmed. */
  predicate Straggling(q: QRec, base: nat) { q.leaseMs == 0 && q.next <= base }

  /** What a fruitless take does to a record: bury every lease, hand out nothing that is still there. */
  ghost predicate Emptied(q: QRec, q': QRec, r: Range, now: nat) {
    && q'.fl == [] && AllSpent(q, now)
    && q'.leaseMs == q.leaseMs && q'.maxAttempts == q.maxAttempts
    && q.next <= q'.next <= Max(q.next, r.base + 1)
    && (!Straggling(q, r.base) ==> q'.next == q.next && r.last < q.next)
  }

  /** Any lease that can be waited for gives a wake. */
  lemma LeaseWakes(fl: seq<Lease>)
    requires fl != [] && forall e | e in fl :: e.expires > 0
    ensures EarlierWake(0, NextDue(fl)) != 0
  {
    var due := NextDue(fl);
    assert exists e | e in fl :: e.expires == due.value;
  }

  /** Nothing handed out that is still in the log, and nothing to wait for. */
  ghost predicate Fruitless(q: QRec, max: int, now: nat, r: Range) {
    var t := Take(q, max, None, now, r.last);
    LiveJobs(r, t.chosen) == [] && EarlierWake(0, NextDue(t.q.fl)) == 0
  }

  lemma FruitlessTake(q: QRec, max: int, now: nat, r: Range)
    requires Sound(q, r) && now > 0 && Fruitless(q, max, now, r)
    ensures
      var t := Take(q, max, None, now, r.last);
      Emptied(q, t.q, r, now) && CountLive(r, t.dying) == CountLive(r, q.fl)
  {
    var m, ms, t0 := ClampMax(max), q.leaseMs, StartTake(q, None);
    var s := ScanFrom(t0, 0, m, now, ms);
    var t := Take(q, max, None, now, r.last);
    assert t == FreshFrom(s, m, now, ms, r.last);
    TakeSound(q, max, None, now, r);
    FreshGrants(s, m, now, ms, r.last);
    if t.q.fl != [] {
      LeaseWakes(t.q.fl);
      assert false;
    }
    ScanBuries(t0, m, now, ms, r);
    LiveJobsAre(r, t.chosen);
    if s.q.next < t.q.next {
      FreshGives(s, m, now, ms, r.last, s.q.next);
      FreshGives(s, m, now, ms, r.last, t.q.next - 1);
      FreshBelow(s, m, now, ms, r.last);
    }
  }

  /** What is known of a group once a take of at most `max` jobs has come to nothing: it had handed everything out, or what it hands out next was trimmed. */
  predicate HadNothing(q: QRec, max: int, r: Range) {
    if Straggling(q, r.base) then r.base < r.last ==> q.next + ClampMax(max) <= r.base + 1 else r.last < q.next
  }

  lemma {:induction false} FreshCounts(t: Taking, max: nat, now: nat, last: nat)
    requires |t.chosen| <= max
    ensures
      var t' := FreshFrom(t, max, now, 0, last);
      t'.q.next - t.q.next == |t'.chosen| - |t.chosen| && |t'.chosen| <= max
    decreases max - |t.chosen|
  {
    if MayGrantFresh(t, max, 0, last) { FreshCounts(GrantFresh(t, now, 0), max, now, last); }
  }

  lemma FruitlessHadNothing(q: QRec, max: int, now: nat, r: Range)
    requires Sound(q, r) && now > 0 && Fruitless(q, max, now, r)
    ensures HadNothing(q, max, r)
  {
    FruitlessTake(q, max, now, r);
    if Straggling(q, r.base) && r.base < r.last {
      var m, t0 := ClampMax(max), StartTake(q, None);
      var s := ScanFrom(t0, 0, m, now, 0);
      TakeSound(q, max, None, now, r);
      FreshGrants(s, m, now, 0, r.last);
      ScanBuries(t0, m, now, 0, r);
      FreshCounts(s, m, now, r.last);
    }
  }

  /** Had a group had something before, it would have had it later. */
  lemma HadNothingBefore(q: QRec, q': QRec, max: int, r: Range, r': Range, now: nat)
    requires Evolved(q, q', r.base, now) && r'.base == r.base && r.last <= r'.last && HadNothing(q', max, r')
    ensures HadNothing(q, max, r)
  {
  }

  lemma {:induction false} FreshBelow(t: Taking, max: nat, now: nat, lease: nat, last: nat)
    requires t.q.next <= last + 1
    ensures FreshFrom(t, max, now, lease, last).q.next <= last + 1
    decreases max - |t.chosen|
  {
    if MayGrantFresh(t, max, lease, last) { FreshBelow(GrantFresh(t, now, lease), max, now, lease, last); }
  }

  /**
   Exactly when such a take strands jobs: it leaves something in the log that
   nobody was handed, and no lease to come back for, if and only if leases last
   no time at all and everything it handed out had been trimmed away.
   */
  lemma StrandsExactly(q: QRec, max: int, now: nat, r: Range)
    requires Sound(q, r) && now > 0 && Fruitless(q, max, now, r)
    ensures OwesNothing(Take(q, max, None, now, r.last).q, r) <==> !(q.leaseMs == 0 && q.next <= r.base < r.last)
  {
    FruitlessTake(q, max, now, r);
  }

  // ---- where dead letters come from ---------------------------------------------------

  /** The subject whose dead letters go to `x`. */
  function Source(x: string): Option<string> {
    if IsDeadName(x) && DeadName(x[..|x| - |DEAD_SUFFIX|]) == Some(x) then Some(x[..|x| - |DEAD_SUFFIX|]) else None
  }

  lemma SourceIs(s: string, x: string)
    ensures Source(x) == Some(s) <==> DeadName(s) == Some(x)
    ensures Source(x) == Some(s) ==> '/' !in s && '/' !in x && Source(s) == None && s != x
  {
    if DeadName(s) == Some(x) {
      assert x == s + DEAD_SUFFIX && x[..|x| - |DEAD_SUFFIX|] == s;
    }
    if Source(x) == Some(s) {
      NameHasNoSlash(x);
      assert x == s + DEAD_SUFFIX;
      assert forall c | c in s :: c in x;
    }
  }

  /** The letters a worker would still add to channel `x`: the leases its group holds on jobs that are in the log. */
  function Letters(st: Store, s: Sub, x: string): nat {
    if IsWorker(s) && Source(x).Some?
    then CountLive(LogOf(st, Source(x).value), GroupRec(st, Source(x).value, s.cfg.group).fl) else 0
  }

  // ---- what a fruitless turn changes ---------------------------------------------------

  ghost predicate SubsKept(v: World, w: World, k: nat) {
    && k < |v.subs| == |w.subs|
    && (forall j | 0 <= j < |v.subs| && j != k :: w.subs[j] == v.subs[j])
    && SameCore(v.subs[k], w.subs[k]) && w.subs[k].rr == v.subs[k].rr && w.subs[k].inflight == v.subs[k].inflight
  }

  /** The list grows by channels of covered subjects, each for letters there were. */
  ghost predicate NamesGrown(v: World, w: World, k: nat)
    requires k < |v.subs|
  {
    && v.names <= w.names
    && (forall i | |v.names| <= i < |w.names| ::
          && w.names[i] !in v.names
          && Source(w.names[i]).Some? && Source(w.names[i]).value in v.names
          && Covers(v.subs[k].cfg.pattern, Source(w.names[i]).value)
          && Letters(v.store, v.subs[k], w.names[i]) > 0 && Letters(w.store, v.subs[k], w.names[i]) == 0)
    && (forall x | Letters(w.store, v.subs[k], x) < Letters(v.store, v.subs[k], x) :: x in w.names)
  }

  /** Letters move from tables to channels, one for one; nothing else is appended. */
  ghost predicate LogsMoved(v: World, w: World, k: nat)
    requires k < |v.subs|
  {
    forall x: string | '/' !in x ::
      && LogOf(w.store, x).base == LogOf(v.store, x).base
      && LogOf(w.store, x).last + Letters(w.store, v.subs[k], x) == LogOf(v.store, x).last + Letters(v.store, v.subs[k], x)
  }

  /** A record after fruitless takes: as it was, or buried empty and handed out at most past what was trimmed. */
  ghost predicate Evolved(q: QRec, q': QRec, base: nat, now: nat) {
    && q'.leaseMs == q.leaseMs && q'.maxAttempts == q.maxAttempts
    && q.next <= q'.next <= Max(q.next, base + 1)
    && (!Straggling(q, base) ==> q'.next == q.next)
    && (q'.fl == q.fl || (q'.fl == [] && AllSpent(q, now)))
  }

  ghost predicate GroupsMoved(v: World, w: World, k: nat, now: nat)
    requires k < |v.subs|
  {
    forall name: string, group: string | '/' !in name ::
      if IsWorker(v.subs[k]) && group == v.subs[k].cfg.group && name in w.names && Covers(v.subs[k].cfg.pattern, name)
      then Evolved(GroupRec(v.store, name, group), GroupRec(w.store, name, group), LogOf(v.store, name).base, now)
      else GroupRec(w.store, name, group) == GroupRec(v.store, name, group)
  }

  /** Receipts move only over what was trimmed. */
  ghost predicate Standing(a: Store, b: Store) {
    forall name: string, consumer: string | '/' !in name ::
      Max(Acked(b, JoinKey(name, consumer)), LogOf(a, name).base) == Max(Acked(a, JoinKey(name, consumer)), LogOf(a, name).base)
  }

  ghost predicate Turned(v: World, w: World, k: nat, now: nat) {
    && SubsKept(v, w, k) && NamesGrown(v, w, k) && LogsMoved(v, w, k) && GroupsMoved(v, w, k, now)
    && Standing(v.store, w.store)
  }

  // ---- one step ---------------------------------------------------------------------------

  /** Subject `name` asked for worker `s` with nothing to show. */
  ghost predicate AskedInVain(st: Store, s: Sub, name: string, now: nat) {
    IsWorker(s) && name in st.logs && '/' !in name
    && Fruitless(GroupRec(st, name, s.cfg.group), WantJobs(s.cfg), now, st.logs[name])
  }

  /** What asking in vain does to the store. */
  lemma VainAsk(st: Store, s: Sub, name: string, now: nat)
    requires AskedInVain(st, s, name, now) && StoreSound(st) && now > 0
    ensures
      var a, q, r, n := AskQueue(st, s.cfg, name, now), GroupRec(st, name, s.cfg.group), st.logs[name],
                        CountLive(st.logs[name], GroupRec(st, name, s.cfg.group).fl);
      var q' := GroupRec(a.st, name, s.cfg.group);
      && Emptied(q, q', r, now)
      && a.st.groups == st.groups[JoinKey(name, s.cfg.group) := q']
      && a.st.cursors == st.cursors
      && (if n == 0 || DeadName(name).None? then a.st.logs == st.logs && a.dead == {}
          else var d := DeadName(name).value;
               && a.st.logs == st.logs[d := Range(LogOf(st, d).base, LogOf(st, d).last + n)] && a.dead == {d})
  {
    GroupRecSound(st, name, s.cfg.group);
    FruitlessTake(GroupRec(st, name, s.cfg.group), WantJobs(s.cfg), now, st.logs[name]);
  }

  lemma OtherKey(name: string, group: string, other: string, g: string)
    requires '/' !in name && '/' !in other && (other != name || g != group)
    ensures JoinKey(other, g) != JoinKey(name, group)
  {
    if JoinKey(other, g) == JoinKey(name, group) { JoinKeyInjective(other, g, name, group); }
  }

  /** The store after such an ask, group by group and log by log. */
  lemma VainGroups(st: Store, s: Sub, name: string, now: nat, other: string, g: string)
    requires AskedInVain(st, s, name, now) && StoreSound(st) && now > 0 && '/' !in other
    ensures
      var st' := AskQueue(st, s.cfg, name, now).st;
      && LogOf(st', other).base == LogOf(st, other).base
      && (other != name || g != s.cfg.group ==> GroupRec(st', other, g) == GroupRec(st, other, g))
      && (DeadName(name) != Some(other) ==> LogOf(st', other) == LogOf(st, other))
      && (DeadName(name) == Some(other) ==>
            LogOf(st', other).last == LogOf(st, other).last + CountLive(st.logs[name], GroupRec(st, name, s.cfg.group).fl))
  {
    hide Queue.Take, PushModel.AskQueue;
    VainAsk(st, s, name, now);
    if other != name || g != s.cfg.group { OtherKey(name, s.cfg.group, other, g); }
  }

  lemma VainLetters(st: Store, s: Sub, name: string, now: nat, x: string)
    requires AskedInVain(st, s, name, now) && StoreSound(st) && now > 0
    ensures
      var st' := AskQueue(st, s.cfg, name, now).st;
      Letters(st', s, x) == if Source(x) == Some(name) then 0 else Letters(st, s, x)
    ensures Source(x) == Some(name) ==> Letters(st, s, x) == CountLive(st.logs[name], GroupRec(st, name, s.cfg.group).fl)
  {
    hide Queue.Take, PushModel.AskQueue, DeadName;
    VainAsk(st, s, name, now);
    if Source(x).Some? {
      var y := Source(x).value;
      SourceIs(y, x);
      VainGroups(st, s, name, now, y, s.cfg.group);
      SourceIs(name, y);
    }
  }

  /** One step of a round that neither starts nor finds anything to wait for. */
  ghost predicate VainStep(w: World, k: nat, i: nat, env: Env) {
    && k < |w.subs| && i < |w.names| && Steady(w) && env.now > 0 && w.subs[k].wake == 0
    && TryName(w, k, i, env).GoOn? && TryName(w, k, i, env).w.subs[k].wake == 0
  }

  lemma WorkerAsksInVain(w: World, k: nat, i: nat, env: Env)
    requires VainStep(w, k, i, env) && IsWorker(w.subs[k]) && Covers(w.subs[k].cfg.pattern, w.names[i])
    ensures AskedInVain(w.store, w.subs[k], w.names[i], env.now)
    ensures
      var a, t := AskQueue(w.store, w.subs[k].cfg, w.names[i], env.now), TryName(w, k, i, env).w;
      && t.store == a.st && t.names == AddAll(w.names, a.dead, w.names[i])
      && t.subs == w.subs[k := w.subs[k].(wake := 0)]
  {
    hide Queue.Take, StoreSound, DeadName, PushModel.AddAll;
    assert w.names[i] in w.names;
  }

  lemma WorkerStepLogs(w: World, k: nat, i: nat, env: Env)
    requires VainStep(w, k, i, env) && IsWorker(w.subs[k]) && Covers(w.subs[k].cfg.pattern, w.names[i])
    ensures LogsMoved(w, TryName(w, k, i, env).w, k)
  {
    hide Queue.Take, PushModel.AskQueue, PushModel.TryName, DeadName, Letters;
    var s, name, t := w.subs[k], w.names[i], TryName(w, k, i, env).w;
    WorkerAsksInVain(w, k, i, env);
    forall x: string | '/' !in x
      ensures LogOf(t.store, x).base == LogOf(w.store, x).base
      ensures LogOf(t.store, x).last + Letters(t.store, s, x) == LogOf(w.store, x).last + Letters(w.store, s, x)
    {
      VainGroups(w.store, s, name, env.now, x, s.cfg.group);
      VainLetters(w.store, s, name, env.now, x);
      SourceIs(name, x);
    }
  }

  lemma WorkerStepGroups(w: World, k: nat, i: nat, env: Env)
    requires VainStep(w, k, i, env) && IsWorker(w.subs[k]) && Covers(w.subs[k].cfg.pattern, w.names[i])
    ensures GroupsMoved(w, TryName(w, k, i, env).w, k, env.now)
  {
    hide Queue.Take, PushModel.AskQueue, PushModel.TryName, DeadName, GroupRec;
    var s, name, t := w.subs[k], w.names[i], TryName(w, k, i, env).w;
    WorkerAsksInVain(w, k, i, env);
    VainAsk(w.store, s, name, env.now);
    assert w.names <= t.names && name in t.names;
    forall other: string, g: string | '/' !in other && (other != name || g != s.cfg.group)
      ensures GroupRec(t.store, other, g) == GroupRec(w.store, other, g)
    {
      VainGroups(w.store, s, name, env.now, other, g);
    }
  }

  lemma WorkerStepNames(w: World, k: nat, i: nat, env: Env)
    requires VainStep(w, k, i, env) && IsWorker(w.subs[k]) && Covers(w.subs[k].cfg.pattern, w.names[i])
    ensures NamesGrown(w, TryName(w, k, i, env).w, k)
  {
    hide Queue.Take, PushModel.AskQueue, PushModel.TryName, DeadName, Letters;
    var s, name, t := w.subs[k], w.names[i], TryName(w, k, i, env).w;
    WorkerAsksInVain(w, k, i, env);
    VainAsk(w.store, s, name, env.now);
    if DeadName(name).Some? {
      SourceIs(name, DeadName(name).value);
      VainLetters(w.store, s, name, env.now, DeadName(name).value);
    }
    forall x | Letters(t.store, s, x) < Letters(w.store, s, x) ensures x in t.names {
      VainLetters(w.store, s, name, env.now, x);
      SourceIs(name, x);
    }
  }

  lemma StepTurned(w: World, k: nat, i: nat, env: Env)
    requires VainStep(w, k, i, env)
    ensures Turned(w, TryName(w, k, i, env).w, k, env.now)
  {
    hide Turned, Queue.Take, PushModel.AskQueue, PushModel.AskReader, DeadName, StoreSound;
    var s, name, t := w.subs[k], w.names[i], TryName(w, k, i, env).w;
    assert name in w.names;
    if !Covers(s.cfg.pattern, name) {
      SameTurned(w, t, k, env.now);
    } else if IsWorker(s) {
      StepTurnedWorker(w, k, i, env);
    } else {
      ReaderTurned(w, t, k, name, env.now);
    }
  }

  lemma StepTurnedWorker(w: World, k: nat, i: nat, env: Env)
    requires VainStep(w, k, i, env) && IsWorker(w.subs[k]) && Covers(w.subs[k].cfg.pattern, w.names[i])
    ensures Turned(w, TryName(w, k, i, env).w, k, env.now)
  {
    var s, name, t := w.subs[k], w.names[i], TryName(w, k, i, env).w;
    hide Queue.Take, PushModel.AskQueue, PushModel.TryName, DeadName, Letters, LogsMoved, GroupsMoved, NamesGrown;
    WorkerAsksInVain(w, k, i, env);
    WorkerStepLogs(w, k, i, env);
    WorkerStepGroups(w, k, i, env);
    WorkerStepNames(w, k, i, env);
    if name in w.store.logs { VainAsk(w.store, s, name, env.now); }
    StandsStill(w.store, t.store);
  }

  lemma SameTurned(w: World, t: World, k: nat, now: nat)
    requires k < |w.subs| && t == w
    ensures Turned(w, t, k, now)
  {
  }

  lemma StandsStill(a: Store, b: Store)
    requires b.cursors == a.cursors
    ensures Standing(a, b)
  {
  }

  lemma ReaderTurned(w: World, t: World, k: nat, name: string, now: nat)
    requires k < |w.subs| && !IsWorker(w.subs[k]) && '/' !in name
    requires t == w.(store := AskReader(w.store, w.subs[k].consumer, name).0)
    ensures Turned(w, t, k, now)
  {
    forall x: string, c: string | '/' !in x
      ensures Max(Acked(t.store, JoinKey(x, c)), LogOf(w.store, x).base) == Max(Acked(w.store, JoinKey(x, c)), LogOf(w.store, x).base)
    {
      if x != name || c != w.subs[k].consumer { OtherKey(name, w.subs[k].consumer, x, c); }
    }
  }

  // ---- several steps --------------------------------------------------------------------

  lemma EvolvedTrans(a: QRec, b: QRec, c: QRec, base: nat, now: nat)
    requires Evolved(a, b, base, now) && Evolved(b, c, base, now)
    ensures Evolved(a, c, base, now)
  {
  }

  /** The record of one group after a fruitless stretch: evolved, if not the same. */
  lemma GroupEvolved(v: World, w: World, k: nat, now: nat, name: string, group: string)
    requires k < |v.subs| && GroupsMoved(v, w, k, now) && '/' !in name
    ensures Evolved(GroupRec(v.store, name, group), GroupRec(w.store, name, group), LogOf(v.store, name).base, now)
  {
  }

  /** A subject that is no channel keeps its log, and loses letters only by burying. */
  lemma SourceStands(v: World, w: World, k: nat, now: nat, x: string)
    requires k < |v.subs| && LogsMoved(v, w, k) && GroupsMoved(v, w, k, now) && Source(x).Some?
    ensures LogOf(w.store, Source(x).value) == LogOf(v.store, Source(x).value)
    ensures Letters(w.store, v.subs[k], x) <= Letters(v.store, v.subs[k], x)
  {
    var s := Source(x).value;
    SourceIs(s, x);
    assert Letters(w.store, v.subs[k], s) == 0 && Letters(v.store, v.subs[k], s) == 0;
    GroupEvolved(v, w, k, now, s, v.subs[k].cfg.group);
  }

  lemma LettersFall(v: World, w: World, k: nat, now: nat, x: string)
    requires k < |v.subs| && LogsMoved(v, w, k) && GroupsMoved(v, w, k, now)
    ensures Letters(w.store, v.subs[k], x) <= Letters(v.store, v.subs[k], x)
  {
    if Source(x).Some? { SourceStands(v, w, k, now, x); }
  }

  lemma GroupsTrans(u: World, v: World, w: World, k: nat, now: nat)
    requires SubsKept(u, v, k) && u.names <= v.names && v.names <= w.names
    requires GroupsMoved(u, v, k, now) && GroupsMoved(v, w, k, now) && LogsMoved(u, v, k)
    ensures GroupsMoved(u, w, k, now)
  {
    hide GroupRec, Evolved, PushModel.Covers;
    assert forall x | x in u.names :: x in v.names;
    assert forall x | x in v.names :: x in w.names;
    forall name: string, group: string | '/' !in name
      ensures
        if IsWorker(u.subs[k]) && group == u.subs[k].cfg.group && name in w.names && Covers(u.subs[k].cfg.pattern, name)
        then Evolved(GroupRec(u.store, name, group), GroupRec(w.store, name, group), LogOf(u.store, name).base, now)
        else GroupRec(w.store, name, group) == GroupRec(u.store, name, group)
    {
      GroupEvolved(u, v, k, now, name, group);
      GroupEvolved(v, w, k, now, name, group);
      assert LogOf(v.store, name).base == LogOf(u.store, name).base;
      EvolvedTrans(GroupRec(u.store, name, group), GroupRec(v.store, name, group), GroupRec(w.store, name, group),
                   LogOf(u.store, name).base, now);
    }
  }

  lemma LogsTrans(u: World, v: World, w: World, k: nat)
    requires SubsKept(u, v, k) && LogsMoved(u, v, k) && LogsMoved(v, w, k)
    requires forall x :: Letters(v.store, v.subs[k], x) == Letters(v.store, u.subs[k], x)
    requires forall x :: Letters(w.store, v.subs[k], x) == Letters(w.store, u.subs[k], x)
    ensures LogsMoved(u, w, k)
  {
    hide Letters, LogOf;
  }

  /** Letters depend on a subscription through its group only. */
  lemma SameLetters(st: Store, s: Sub, t: Sub)
    requires SameCore(s, t)
    ensures forall x :: Letters(st, t, x) == Letters(st, s, x)
  {
  }

  lemma NamesTrans(u: World, v: World, w: World, k: nat, now: nat)
    requires SubsKept(u, v, k) && NamesGrown(u, v, k) && NamesGrown(v, w, k)
    requires LogsMoved(u, v, k) && GroupsMoved(u, v, k, now) && LogsMoved(v, w, k) && GroupsMoved(v, w, k, now)
    ensures NamesGrown(u, w, k)
  {
    hide Letters, Source, PushModel.Covers, LogsMoved, GroupsMoved;
    SameLetters(u.store, u.subs[k], v.subs[k]);
    SameLetters(v.store, u.subs[k], v.subs[k]);
    SameLetters(w.store, u.subs[k], v.subs[k]);
    forall i | |u.names| <= i < |w.names|
      ensures
        && w.names[i] !in u.names
        && Source(w.names[i]).Some? && Source(w.names[i]).value in u.names
        && Covers(u.subs[k].cfg.pattern, Source(w.names[i]).value)
        && Letters(u.store, u.subs[k], w.names[i]) > 0 && Letters(w.store, u.subs[k], w.names[i]) == 0
    {
      LettersFall(v, w, k, now, w.names[i]);
      if i < |v.names| {
        assert w.names[i] == v.names[i];
      } else {
        var x := w.names[i];
        LettersFall(u, v, k, now, x);
        assert forall y | y in u.names :: y in v.names;
        var s := Source(x).value;
        var j :| 0 <= j < |v.names| && v.names[j] == s;
        if j >= |u.names| { SourceIs(s, x); assert false; }
        assert u.names[j] == s;
      }
    }
    forall x | Letters(w.store, u.subs[k], x) < Letters(u.store, u.subs[k], x) ensures x in w.names {
      if x in v.names {
        var j :| 0 <= j < |v.names| && v.names[j] == x;
        assert w.names[j] == x;
      }
    }
  }

  lemma StandingTrans(a: Store, b: Store, c: Store)
    requires Standing(a, b) && Standing(b, c) && forall x: string | '/' !in x :: LogOf(b, x).base == LogOf(a, x).base
    ensures Standing(a, c)
  {
    hide LogOf;
  }

  lemma TurnedTrans(u: World, v: World, w: World, k: nat, now: nat)
    requires Turned(u, v, k, now) && Turned(v, w, k, now)
    ensures Turned(u, w, k, now)
  {
    hide LogsMoved, GroupsMoved, NamesGrown, Standing, Letters;
    SameLetters(v.store, u.subs[k], v.subs[k]);
    SameLetters(w.store, u.subs[k], v.subs[k]);
    LogsTrans(u, v, w, k);
    NamesPrefix(u, v, k);
    NamesPrefix(v, w, k);
    GroupsTrans(u, v, w, k, now);
    NamesTrans(u, v, w, k, now);
    BasesStand(u, v, k);
    StandingTrans(u.store, v.store, w.store);
  }

  lemma NamesPrefix(v: World, w: World, k: nat)
    requires k < |v.subs| && NamesGrown(v, w, k)
    ensures v.names <= w.names
  {
  }

  lemma BasesStand(v: World, w: World, k: nat)
    requires k < |v.subs| && LogsMoved(v, w, k)
    ensures forall x: string | '/' !in x :: LogOf(w.store, x).base == LogOf(v.store, x).base
  {
  }

  // ---- a whole round ------------------------------------------------------------------------

  /** In a round from `rr`, position `p` comes before position `q`. */
  predicate Earlier(rr: nat, p: nat, q: nat) {
    if p >= rr then q < rr || p < q else p < q < rr
  }

  /** The positions the first `n` steps of a round have dealt with. */
  predicate Dealt(rr: nat, n: nat, size: nat, p: nat) {
    p < size && (rr <= p < rr + n || p + size < rr + n)
  }

  /** Why position `p` may still have something: it straggles, or its letters came after it was asked. */
  ghost predicate Excused(v: World, names: seq<string>, k: nat, p: nat)
    requires k < |v.subs| && p < |names|
  {
    var s, x := v.subs[k], names[p];
    && IsWorker(s)
    && (|| Straggling(GroupRec(v.store, x, s.cfg.group), LogOf(v.store, x).base)
        || (Letters(v.store, s, x) > 0 &&
            exists q | 0 <= q < |names| :: Source(x) == Some(names[q]) && Earlier(s.rr, p, q) && Covers(s.cfg.pattern, names[q])))
  }

  /** Position `p` has been dealt with: not covered, or asked and left quiet unless excused. */
  ghost predicate Fine(v: World, w: World, k: nat, p: nat)
    requires k < |v.subs| && p < |w.names|
  {
    var s, x := v.subs[k], w.names[p];
    Covers(s.cfg.pattern, x) ==>
      && (IsWorker(s) && p < |v.names| ==>
            GroupRec(w.store, x, s.cfg.group).fl == []
            && HadNothing(GroupRec(v.store, x, s.cfg.group), WantJobs(s.cfg), LogOf(v.store, x)))
      && (QuietAt(w.store, s, x) || Excused(v, w.names, k, p))
  }

  ghost predicate DealtFine(v: World, w: World, k: nat, n: nat)
    requires k < |v.subs|
  {
    forall p | Dealt(v.subs[k].rr, n, |w.names|, p) :: Fine(v, w, k, p)
  }

  /** Quiet stays quiet where the log stands and the record evolves. */
  lemma QuietStays(v: World, w: World, k: nat, now: nat, s: Sub, x: string)
    requires Turned(v, w, k, now) && '/' !in x && LogOf(w.store, x).last == LogOf(v.store, x).last
    requires QuietAt(v.store, s, x)
    ensures QuietAt(w.store, s, x)
  {
    if IsWorker(s) {
      GroupEvolved(v, w, k, now, x, s.cfg.group);
      assert LogOf(w.store, x) == LogOf(v.store, x);
    } else {
      assert Max(Acked(w.store, JoinKey(x, s.consumer)), LogOf(v.store, x).base)
          == Max(Acked(v.store, JoinKey(x, s.consumer)), LogOf(v.store, x).base);
    }
  }

  /** An excuse keeps, however the list grows. */
  lemma ExcuseKeeps(v: World, names: seq<string>, names': seq<string>, k: nat, p: nat)
    requires k < |v.subs| && p < |names| && names <= names' && Excused(v, names, k, p)
    ensures Excused(v, names', k, p)
  {
    hide Letters, Source, GroupRec;
    var s, x := v.subs[k], names[p];
    assert names'[p] == x;
    if !Straggling(GroupRec(v.store, x, s.cfg.group), LogOf(v.store, x).base) {
      var q :| 0 <= q < |names| && Source(x) == Some(names[q]) && Earlier(s.rr, p, q) && Covers(s.cfg.pattern, names[q]);
      assert names'[q] == names[q];
    }
  }

  /** The step itself: the subject asked is left empty and quiet, or straggles. */
  lemma AskedIsFine(w: World, k: nat, i: nat, env: Env)
    requires VainStep(w, k, i, env) && Covers(w.subs[k].cfg.pattern, w.names[i])
    ensures
      var s, x, t := w.subs[k], w.names[i], TryName(w, k, i, env).w;
      && (IsWorker(s) ==>
            GroupRec(t.store, x, s.cfg.group).fl == []
            && HadNothing(GroupRec(w.store, x, s.cfg.group), WantJobs(s.cfg), LogOf(w.store, x)))
      && (QuietAt(t.store, s, x) || (IsWorker(s) && Straggling(GroupRec(w.store, x, s.cfg.group), LogOf(w.store, x).base)))
  {
    var s, x, t := w.subs[k], w.names[i], TryName(w, k, i, env).w;
    assert x in w.names;
    if IsWorker(s) {
      hide Queue.Take, PushModel.AskQueue, PushModel.TryName, DeadName, Letters;
      WorkerAsksInVain(w, k, i, env);
      VainAsk(w.store, s, x, env.now);
      VainGroups(w.store, s, x, env.now, x, s.cfg.group);
      GroupRecSound(w.store, x, s.cfg.group);
      FruitlessHadNothing(GroupRec(w.store, x, s.cfg.group), WantJobs(s.cfg), env.now, LogOf(w.store, x));
      SourceIs(x, x);
    }
  }

  /** One more step keeps everything dealt with fine. */
  lemma StepFine(v: World, w: World, k: nat, n: nat, env: Env, p: nat)
    requires k < |w.subs| && n < |w.names| && Turned(v, w, k, env.now) && VainStep(w, k, Position(w, k, n), env)
    requires v.subs[k].rr == 0 || v.subs[k].rr < |w.names|
    requires DealtFine(v, w, k, n)
    requires |TryName(w, k, Position(w, k, n), env).w.names| <= |w.names| + 1
    requires Dealt(v.subs[k].rr, n + 1, |TryName(w, k, Position(w, k, n), env).w.names|, p)
    ensures Fine(v, TryName(w, k, Position(w, k, n), env).w, k, p)
  {
    hide PushModel.TryName, Letters, Source, GroupRec, QuietAt, Straggling, Excused, LogsMoved, GroupsMoved, Standing;
    var i := Position(w, k, n);
    var t := TryName(w, k, i, env).w;
    PositionIs(w, k, n);
    StepTurned(w, k, i, env);
    TurnedTrans(v, w, t, k, env.now);
    var s := v.subs[k];
    var x := t.names[p];
    if Covers(s.cfg.pattern, x) {
      if p == i {
        StepFineHere(v, w, k, i, env);
      } else if p < |w.names| {
        assert Dealt(s.rr, n, |w.names|, p);
        assert Fine(v, w, k, p);
        StepFineThere(v, w, k, n, env, p);
      } else {
        assert Earlier(s.rr, p, i);
        StepFineNew(v, w, k, i, env, p);
      }
    }
  }

  lemma StepFineHere(v: World, w: World, k: nat, i: nat, env: Env)
    requires VainStep(w, k, i, env) && Turned(v, w, k, env.now)
    requires Covers(v.subs[k].cfg.pattern, w.names[i])
    requires w.names <= TryName(w, k, i, env).w.names
    ensures Fine(v, TryName(w, k, i, env).w, k, i)
  {
    hide PushModel.TryName, Letters, Source, Standing, HadNothing, QuietAt;
    AskedIsFine(w, k, i, env);
    assert w.names[i] in w.names;
    var x, g := w.names[i], v.subs[k].cfg.group;
    GroupEvolved(v, w, k, env.now, x, g);
    BasesStand(v, w, k);
    LettersFall(v, w, k, env.now, x);
    if IsWorker(v.subs[k]) {
      HadNothingBefore(GroupRec(v.store, x, g), GroupRec(w.store, x, g), WantJobs(v.subs[k].cfg),
                       LogOf(v.store, x), LogOf(w.store, x), env.now);
    }
    SameQuietCore(TryName(w, k, i, env).w.store, w.subs[k], v.subs[k], w.names[i]);
  }

  /** Being quiet depends on a subscription through its core only. */
  lemma SameQuietCore(st: Store, s: Sub, t: Sub, x: string)
    requires SameCore(s, t)
    ensures QuietAt(st, s, x) <==> QuietAt(st, t, x)
  {
  }

  /** Where letters have just come from: position `i`, which was asked later than `p`. */
  lemma LettersExcuse(v: World, w: World, k: nat, i: nat, env: Env, p: nat)
    requires VainStep(w, k, i, env) && Turned(v, w, k, env.now)
    requires w.names <= TryName(w, k, i, env).w.names && p < |TryName(w, k, i, env).w.names|
    requires Earlier(v.subs[k].rr, p, i)
    requires
      var x := TryName(w, k, i, env).w.names[p];
      '/' !in x && LogOf(TryName(w, k, i, env).w.store, x).last != LogOf(w.store, x).last
    ensures Excused(v, TryName(w, k, i, env).w.names, k, p)
  {
    hide PushModel.AskReader, Straggling, Standing, DeadName;
    var t := TryName(w, k, i, env).w;
    var s, x := v.subs[k], t.names[p];
    StepLetters(w, k, i, env, x);
    LettersFall(v, w, k, env.now, x);
    SameLetters(w.store, s, w.subs[k]);
    assert t.names[i] == w.names[i];
  }

  /** A log that grew in a step: letters from the subject asked. */
  lemma StepLetters(w: World, k: nat, i: nat, env: Env, x: string)
    requires VainStep(w, k, i, env) && '/' !in x
    requires LogOf(TryName(w, k, i, env).w.store, x).last != LogOf(w.store, x).last
    ensures IsWorker(w.subs[k]) && Covers(w.subs[k].cfg.pattern, w.names[i])
    ensures Source(x) == Some(w.names[i]) && Letters(w.store, w.subs[k], x) > 0
  {
    var s, name := w.subs[k], w.names[i];
    assert name in w.names;
    if Covers(s.cfg.pattern, name) && IsWorker(s) {
      hide Queue.Take, PushModel.AskQueue, PushModel.TryName, DeadName, Letters;
      WorkerAsksInVain(w, k, i, env);
      VainGroups(w.store, s, name, env.now, x, s.cfg.group);
      VainLetters(w.store, s, name, env.now, x);
      SourceIs(name, x);
    }
  }

  lemma StepFineThere(v: World, w: World, k: nat, n: nat, env: Env, p: nat)
    requires k < |w.subs| && n < |w.names| && Turned(v, w, k, env.now) && VainStep(w, k, Position(w, k, n), env)
    requires v.subs[k].rr == 0 || v.subs[k].rr < |w.names|
    requires p < |w.names| && p != Position(w, k, n) && Dealt(v.subs[k].rr, n, |w.names|, p)
    requires Fine(v, w, k, p) && Covers(v.subs[k].cfg.pattern, w.names[p])
    ensures w.names <= TryName(w, k, Position(w, k, n), env).w.names
    ensures Fine(v, TryName(w, k, Position(w, k, n), env).w, k, p)
  {
    hide PushModel.TryName, Letters, Source, QuietAt, Straggling, Excused, LogsMoved, Standing;
    var i := Position(w, k, n);
    var t := TryName(w, k, i, env).w;
    PositionIs(w, k, n);
    StepTurned(w, k, i, env);
    var s, x := v.subs[k], w.names[p];
    assert x in w.names && t.names[p] == x;
    GroupEvolved(w, t, k, env.now, x, s.cfg.group);
    if Excused(v, w.names, k, p) {
      ExcuseKeeps(v, w.names, t.names, k, p);
    } else if LogOf(t.store, x).last == LogOf(w.store, x).last {
      QuietStays(w, t, k, env.now, s, x);
    } else {
      LettersExcuse(v, w, k, i, env, p);
    }
  }

  lemma StepFineNew(v: World, w: World, k: nat, i: nat, env: Env, p: nat)
    requires VainStep(w, k, i, env) && Turned(v, w, k, env.now)
    requires |w.names| <= p < |TryName(w, k, i, env).w.names| && Earlier(v.subs[k].rr, p, i)
    ensures Fine(v, TryName(w, k, i, env).w, k, p)
  {
    hide PushModel.TryName, QuietAt, Excused, Standing, DeadName;
    var t := TryName(w, k, i, env).w;
    StepTurned(w, k, i, env);
    var x := t.names[p];
    assert Source(x).Some?;
    SourceIs(Source(x).value, x);
    NewNameGrew(w, k, i, env, p);
    LettersExcuse(v, w, k, i, env, p);
  }

  /** A name that joins the list in a step had letters in that step. */
  lemma NewNameGrew(w: World, k: nat, i: nat, env: Env, p: nat)
    requires VainStep(w, k, i, env) && |w.names| <= p < |TryName(w, k, i, env).w.names|
    ensures w.names <= TryName(w, k, i, env).w.names
    ensures
      var t := TryName(w, k, i, env).w;
      '/' !in t.names[p] && LogOf(t.store, t.names[p]).last != LogOf(w.store, t.names[p]).last
  {
    var s, name := w.subs[k], w.names[i];
    assert name in w.names;
    if Covers(s.cfg.pattern, name) && IsWorker(s) {
      hide Queue.Take, PushModel.AskQueue, PushModel.TryName, Letters;
      WorkerAsksInVain(w, k, i, env);
      VainAsk(w.store, s, name, env.now);
      var d := DeadName(name).value;
      SourceIs(name, d);
      VainGroups(w.store, s, name, env.now, d, s.cfg.group);
    }
  }

  /** A wake once set stays set while nothing starts. */
  lemma {:induction false} WakeStays(w: World, k: nat, n: nat, env: Env)
    requires k < |w.subs| && AllSend(env) && Steady(w) && w.subs[k].wake != 0
    ensures !StartFrom(w, k, n, env).started ==> StartFrom(w, k, n, env).w.subs[k].wake != 0
    decreases LeftToAsk(w.names, n)
  {
    if n < |w.names| {
      var i := Position(w, k, n);
      var t := TryName(w, k, i, env);
      TryLeavesLess(w, k, i, n, env);
      TryOnwards(w, k, i, env);
      if t.GoOn? { WakeStays(t.w, k, n + 1, env); }
    }
  }

  lemma TryOnwards(w: World, k: nat, i: nat, env: Env)
    requires k < |w.subs| && i < |w.names| && AllSend(env) && Steady(w)
    ensures
      var t := TryName(w, k, i, env);
      && |t.w.subs| == |w.subs| && Steady(t.w) && |t.w.names| <= |w.names| + 1
      && (t.Stop? ==> t.started)
      && (t.GoOn? && w.subs[k].wake != 0 ==> t.w.subs[k].wake != 0)
  {
    hide Queue.Take, PushModel.AskQueue, StoreSound, DeadName;
    assert w.names[i] in w.names;
    TryWorkerSteady(w, k, i, env);
    TryReaderSteady(w, k, i, env);
    DuePositive(w.store, w.subs[k].cfg, w.names[i], env.now);
  }

  /** A due time is never 0, which would mean none. */
  lemma DuePositive(st: Store, cfg: Cfg, name: string, now: nat)
    requires StoreSound(st) && '/' !in name && now > 0
    ensures AskQueue(st, cfg, name, now).due.Some? ==> AskQueue(st, cfg, name, now).due.value > 0
  {
    hide Queue.Take;
    GroupRecSound(st, name, cfg.group);
    if name in st.logs {
      TakeSound(GroupRec(st, name, cfg.group), WantJobs(cfg), None, now, st.logs[name]);
    }
  }

  /** A round that starts nothing and finds nothing to wait for: all it passed is fine, all the way round. */
  lemma {:induction false} RoundInVain(v: World, w: World, k: nat, n: nat, env: Env)
    requires k < |w.subs| && AllSend(env) && Steady(w) && w.subs[k].wake == 0
    requires Turned(v, w, k, env.now) && n <= |w.names| && (v.subs[k].rr == 0 || v.subs[k].rr < |w.names|)
    requires DealtFine(v, w, k, n)
    requires !StartFrom(w, k, n, env).started && StartFrom(w, k, n, env).w.subs[k].wake == 0
    ensures
      var w' := StartFrom(w, k, n, env).w;
      Turned(v, w', k, env.now) && forall p | 0 <= p < |w'.names| :: Fine(v, w', k, p)
    decreases LeftToAsk(w.names, n)
  {
    hide PushModel.TryName, Fine, Turned, Steady;
    TurnedSame(v, w, k, env.now);
    if n == |w.names| {
      forall p | 0 <= p < |w.names| ensures Fine(v, w, k, p) {
        assert Dealt(v.subs[k].rr, n, |w.names|, p);
      }
    } else {
      var i := Position(w, k, n);
      var t := TryName(w, k, i, env);
      TryOnwards(w, k, i, env);
      TryLeavesLess(w, k, i, n, env);
      if t.w.subs[k].wake != 0 {
        WakeStays(t.w, k, n + 1, env);
        assert false;
      } else {
        StepTurned(w, k, i, env);
        TurnedTrans(v, w, t.w, k, env.now);
        forall p | Dealt(v.subs[k].rr, n + 1, |t.w.names|, p) ensures Fine(v, t.w, k, p) {
          StepFine(v, w, k, n, env, p);
        }
        TurnedNames(w, t.w, k, env.now);
        RoundInVain(v, t.w, k, n + 1, env);
      }
    }
  }

  lemma TurnedNames(v: World, w: World, k: nat, now: nat)
    requires Turned(v, w, k, now)
    ensures v.names <= w.names && |w.subs| == |v.subs| && k < |v.subs|
  {
  }

  lemma TurnedSame(v: World, w: World, k: nat, now: nat)
    requires Turned(v, w, k, now)
    ensures k < |v.subs| && |w.subs| == |v.subs| && w.subs[k].rr == v.subs[k].rr
  {
  }
}
