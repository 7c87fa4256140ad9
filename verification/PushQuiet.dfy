/**
 When there is nothing to deliver, and what every delivery attempt keeps: sound
 groups, a list of known subjects.
 */
module PushQuiet {
  import opened Options
  import opened Words
  import opened Queue
  import opened Names
  import opened Settlement
  import opened PushModel
  import opened PushReceipts

  // ---- groups -------------------------------------------------------------------

  /** What a group's record keeps whatever is trimmed: every lease was handed out and can be waited for. */
  ghost predicate Sound(q: QRec, r: Range) {
    && 1 <= q.next <= r.last + 1
    && forall e | e in q.fl :: 0 < e.index < q.next && e.expires > 0
  }

  ghost predicate StoreSound(st: Store) {
    && (forall name | name in st.logs :: st.logs[name].base <= st.logs[name].last)
    && forall name: string, group: string | '/' !in name && JoinKey(name, group) in st.groups ::
      Sound(st.groups[JoinKey(name, group)], LogOf(st, name))
  }

  lemma SwapRemoveSound(q: QRec, r: Range, k: nat)
    requires k < |q.fl| && Sound(q, r)
    ensures Sound(q.(fl := SwapRemove(q.fl, k)), r)
  {
  }

  lemma {:induction false} ScanSound(t: Taking, k: nat, max: nat, now: nat, lease: nat, r: Range)
    requires Sound(t.q, r) && now > 0
    ensures Sound(ScanFrom(t, k, max, now, lease).q, r)
    decreases |t.q.fl| - k
  {
    if k >= |t.q.fl| || |t.chosen| >= max {
    } else if t.q.fl[k].expires > now {
      ScanSound(t, k + 1, max, now, lease, r);
    } else if Exhausted(t.q, t.q.fl[k]) {
      SwapRemoveSound(t.q, r, k);
      ScanSound(Bury(t, k), k, max, now, lease, r);
    } else {
      assert t.q.fl[k] in t.q.fl;
      ScanSound(Regrant(t, k, now, lease), k + 1, max, now, lease, r);
    }
  }

  lemma {:induction false} FreshSound(t: Taking, max: nat, now: nat, lease: nat, r: Range)
    requires Sound(t.q, r) && now > 0
    ensures Sound(FreshFrom(t, max, now, lease, r.last).q, r)
    decreases max - |t.chosen|
  {
    if MayGrantFresh(t, max, lease, r.last) {
      FreshSound(GrantFresh(t, now, lease), max, now, lease, r);
    }
  }

  lemma TakeSound(q: QRec, max: int, lease: Option<nat>, now: nat, r: Range)
    requires Sound(q, r) && now > 0
    ensures Sound(Take(q, max, lease, now, r.last).q, r)
  {
    var t, ms := StartTake(q, lease), EffectiveLease(q, lease);
    ScanSound(t, 0, ClampMax(max), now, ms, r);
    FreshSound(ScanFrom(t, 0, ClampMax(max), now, ms), ClampMax(max), now, ms, r);
  }

  /** A queue operation the surroundings may perform: real clock, real end of log. */
  predicate RealOp(op: Op, r: Range) {
    match op
    case OpTake(_, _, now, last) => now > 0 && last == r.last
    case OpFail(_, _, now) => now > 0
    case _ => true
  }

  lemma ApplySound(q: QRec, op: Op, r: Range)
    requires Sound(q, r) && RealOp(op, r)
    ensures Sound(Apply(q, op).0, r)
  {
    match op
    case OpTake(max, lease, now, last) => TakeSound(q, max, lease, now, r);
    case OpDone(index) =>
      var k := Find(q.fl, index);
      if k < |q.fl| { SwapRemoveSound(q, r, k); }
    case OpFail(index, _, _) =>
      var k := Find(q.fl, index);
      if k < |q.fl| { assert q.fl[k] in q.fl; }
    case OpConfig(_, _, _, _) =>
  }

  lemma {:induction false} SettleSound(q: QRec, jobs: seq<nat>, n: nat, answer: Answer, now: nat, r: Range)
    requires Sound(q, r) && now > 0 && n <= |jobs|
    ensures Sound(SettleFirst(q, jobs, n, answer, now), r)
  {
    if n > 0 {
      SettleSound(q, jobs, n - 1, answer, now, r);
      var q1 := SettleFirst(q, jobs, n - 1, answer, now);
      ApplySound(q1, OpDone(jobs[n - 1]), r);
      ApplySound(q1, OpFail(jobs[n - 1], None, now), r);
    }
  }

  lemma GroupRecSound(st: Store, name: string, group: string)
    requires StoreSound(st) && '/' !in name
    ensures Sound(GroupRec(st, name, group), LogOf(st, name))
  {
    if JoinKey(name, group) in st.groups { assert Sound(st.groups[JoinKey(name, group)], LogOf(st, name)); }
  }

  lemma StoreSoundUpdate(st: Store, name: string, group: string, q: QRec)
    requires StoreSound(st) && '/' !in name && Sound(q, LogOf(st, name))
    ensures StoreSound(st.(groups := st.groups[JoinKey(name, group) := q]))
  {
    var st' := st.(groups := st.groups[JoinKey(name, group) := q]);
    forall n: string, g: string | '/' !in n && JoinKey(n, g) in st'.groups
      ensures Sound(st'.groups[JoinKey(n, g)], LogOf(st', n))
    {
      if JoinKey(n, g) == JoinKey(name, group) { JoinKeyInjective(n, g, name, group); }
    }
  }

  /** More messages at the end of a log, or fewer at its start, leave every group sound. */
  lemma StoreSoundResized(st: Store, name: string, r: Range)
    requires StoreSound(st) && r.base <= r.last && LogOf(st, name).last <= r.last
    ensures StoreSound(st.(logs := st.logs[name := r]))
  {
    var st' := st.(logs := st.logs[name := r]);
    forall n: string, g: string | '/' !in n && JoinKey(n, g) in st'.groups
      ensures Sound(st'.groups[JoinKey(n, g)], LogOf(st', n))
    {
      assert Sound(st.groups[JoinKey(n, g)], LogOf(st, n));
    }
  }

  lemma StoreSoundSameLogs(st: Store, st': Store)
    requires StoreSound(st) && st'.logs == st.logs && st'.groups == st.groups
    ensures StoreSound(st')
  {
    forall n: string, g: string | '/' !in n && JoinKey(n, g) in st'.groups
      ensures Sound(st'.groups[JoinKey(n, g)], LogOf(st', n))
    {
      assert Sound(st.groups[JoinKey(n, g)], LogOf(st, n));
    }
  }

  // ---- quiet --------------------------------------------------------------------

  /** Nothing that is still in the log is leased or left to hand out. */
  ghost predicate OwesNothing(q: QRec, r: Range) {
    r.last < Max(q.next, r.base + 1) && forall e | e in q.fl :: !InLog(r, e.index)
  }

  /** There is nothing of `name` to deliver to this subscription. */
  ghost predicate QuietAt(st: Store, s: Sub, name: string) {
    if IsWorker(s) then OwesNothing(GroupRec(st, name, s.cfg.group), LogOf(st, name))
    else LogOf(st, name).last <= Max(Acked(st, JoinKey(name, s.consumer)), LogOf(st, name).base)
  }

  /** Nothing to deliver on any subject it covers. */
  ghost predicate Quiet(w: World, s: Sub) {
    forall name | name in w.names && Covers(s.cfg.pattern, name) :: QuietAt(w.store, s, name)
  }

  /** Not on its way, not backing off, not waiting for a lease. */
  predicate Idle(s: Sub, clock: nat) {
    !s.inflight && s.due <= clock && s.wake == 0
  }

  ghost predicate AllQuiet(w: World, clock: nat) {
    forall k | 0 <= k < |w.subs| && !w.subs[k].gone :: Idle(w.subs[k], clock) && Quiet(w, w.subs[k])
  }

  // ---- what a delivery attempt keeps -----------------------------------------------

  /** What an engine keeps about its subject list and its subscriptions' places in it. */
  ghost predicate Listed(w: World) {
    && PlainNames(w.names)
    && (forall name | name in w.names :: name in w.store.logs)
    && (forall k | 0 <= k < |w.subs| :: w.subs[k].rr == 0 || w.subs[k].rr < |w.names|)
    && (forall k | 0 <= k < |w.subs| :: '/' !in w.subs[k].subject)
  }

  ghost predicate AllSend(env: Env) {
    env.now > 0 && forall id: nat :: env.sends(id)
  }

  ghost predicate Steady(w: World) { StoreSound(w.store) && Listed(w) }

  /** Asking a queue keeps every group sound. */
  lemma AskQueueSound(st: Store, cfg: Cfg, name: string, now: nat)
    requires StoreSound(st) && '/' !in name && now > 0
    ensures
      var a := AskQueue(st, cfg, name, now);
      && StoreSound(a.st)
      && (forall x | x in st.logs :: x in a.st.logs)
      && (forall d | d in a.dead :: d in a.st.logs && DeadName(name) == Some(d))
  {
    hide Queue.Take, StoreSound, DeadName;
    if name in st.logs {
      var r := st.logs[name];
      GroupRecSound(st, name, cfg.group);
      TakeSound(GroupRec(st, name, cfg.group), WantJobs(cfg), None, now, r);
      var t := Take(GroupRec(st, name, cfg.group), WantJobs(cfg), None, now, r.last);
      StoreSoundUpdate(st, name, cfg.group, t.q);
      var st1 := st.(groups := st.groups[JoinKey(name, cfg.group) := t.q]);
      if DeadName(name).Some? {
        var d := LogOf(st1, DeadName(name).value);
        LogsOrdered(st1, DeadName(name).value);
        StoreSoundResized(st1, DeadName(name).value, Range(d.base, d.last + CountLive(r, t.dying)));
      }
    }
  }

  lemma LogsOrdered(st: Store, name: string)
    requires StoreSound(st)
    ensures LogOf(st, name).base <= LogOf(st, name).last
  {
  }

  lemma AfterAskSteady(w: World, name: string, a: Asked)
    requires Listed(w) && StoreSound(a.st) && (forall x | x in w.store.logs :: x in a.st.logs)
    requires forall d | d in a.dead :: d in a.st.logs && DeadName(name) == Some(d)
    ensures Steady(AfterAsk(w, name, a)) && w.names <= AfterAsk(w, name, a).names
  {
    AfterAskPlain(w, name, a);
  }

  lemma TryWorkerSteady(w: World, k: nat, i: nat, env: Env)
    requires k < |w.subs| && i < |w.names| && env.now > 0 && Steady(w)
    ensures Steady(TryWorker(w, k, i, env).w)
  {
    hide Queue.Take, StoreSound;
    assert w.names[i] in w.names;
    AskQueueSound(w.store, w.subs[k].cfg, w.names[i], env.now);
    AfterAskSteady(w, w.names[i], AskQueue(w.store, w.subs[k].cfg, w.names[i], env.now));
  }

  lemma TryReaderSteady(w: World, k: nat, i: nat, env: Env)
    requires k < |w.subs| && i < |w.names| && Steady(w)
    ensures Steady(TryReader(w, k, i, env).w)
  {
    assert w.names[i] in w.names;
    StoreSoundSameLogs(w.store, AskReader(w.store, w.subs[k].consumer, w.names[i]).0);
  }

  lemma {:induction false} StartSteady(w: World, k: nat, n: nat, env: Env)
    requires k < |w.subs| && env.now > 0 && Steady(w)
    ensures Steady(StartFrom(w, k, n, env).w)
    decreases LeftToAsk(w.names, n)
  {
    hide Steady;
    if n < |w.names| {
      var i := Position(w, k, n);
      TryWorkerSteady(w, k, i, env);
      TryReaderSteady(w, k, i, env);
      TryLeavesLess(w, k, i, n, env);
      var t := TryName(w, k, i, env);
      if t.GoOn? { StartSteady(t.w, k, n + 1, env); }
    }
  }

  lemma TurnSteady(w: World, k: nat, env: Env)
    requires k < |w.subs| && env.now > 0 && Steady(w)
    ensures Steady(StartDelivery(w, k, env).w)
  {
    var w0 := w.(subs := w.subs[k := w.subs[k].(wake := 0)]);
    assert Steady(w0);
    StartSteady(w0, k, 0, env);
  }

  lemma {:induction false} PassSteady(p: Pass, k: nat, env: Env)
    requires env.now > 0 && Steady(p.w)
    ensures Steady(PassFrom(p, k, env).w)
    decreases |p.w.subs| - k
  {
    hide Steady, PushModel.StartDelivery;
    if k < |p.w.subs| {
      var s := p.w.subs[k];
      if s.gone {
        PassSteady(p, k + 1, env);
      } else if s.inflight || s.due > env.now {
        PassSteady(p.(busy := true), k + 1, env);
      } else {
        var o := StartDelivery(p.w, k, env);
        TurnSteady(p.w, k, env);
        PassSteady(Pass(o.w, p.started || o.started, p.busy || o.w.subs[k].wake != 0), k + 1, env);
      }
    }
  }

  lemma PumpSteady(w: World, env: Env)
    requires env.now > 0 && Steady(w)
    ensures Steady(Pump(w, env))
  {
    if w.work {
      PassSteady(Pass(w, false, false), 0, env);
      var p := PumpPass(w, env);
      assert Steady(p.w) ==> Steady(p.w.(work := false));
    }
  }
}
