/**
 No lost wakeups: over every run, when the engine has stopped scanning (`work`
 is off) nothing is waiting on it.  Three things break this in the code: letters
 that come behind a subscription already asked and a zero lease behind a trim,
 both pinned down here, and a send that does not start (`PushSends`).
 */
module PushWakeups {
  import opened Options
  import opened Queue
  import opened Names
  import opened Settlement
  import opened PushModel
  import opened PushReceipts
  import opened PushQuiet
  import opened PushTurn
  import opened PushPass
  import opened PushStops
  import opened PushStill

  // ---- moves that wake nobody ---------------------------------------------------------

  /** Logs grow no longer, receipts only advance, and who owes nothing goes on owing nothing. */
  ghost predicate Calm(st: Store, st': Store) {
    && (forall name: string :: LogOf(st', name).last == LogOf(st, name).last && LogOf(st, name).base <= LogOf(st', name).base)
    && (forall key: string :: Acked(st, key) <= Acked(st', key))
    && (forall name: string, group: string | '/' !in name && OwesNothing(GroupRec(st, name, group), LogOf(st, name)) ::
          OwesNothing(GroupRec(st', name, group), LogOf(st', name)))
  }

  lemma CalmQuiet(st: Store, st': Store, s: Sub, name: string)
    requires Calm(st, st') && '/' !in name && QuietAt(st, s, name)
    ensures QuietAt(st', s, name)
  {
  }

  // ---- over every run --------------------------------------------------------------------

  /** When the engine has stopped scanning, nothing is waiting on it. */
  ghost predicate Awake(w: World, clock: nat) {
    Steady(w) && (!w.work ==> AllQuiet(w, clock))
  }

  function Clock(m: Move, clock: nat): nat {
    if m.DoPump? then m.env.now else clock
  }

  /** A pump from this state loses nothing: something keeps it going, or nothing strands and nobody misses letters. */
  ghost predicate SafePump(w: World, now: nat) {
    KeptBusy(w, now) || Stirs(w, now) || (!Strands(w, now) && !Lossy(w, now))
  }

  /** The setting of the guarantee: time runs forward, sends start, and pumps are safe.  Trims are free. */
  ghost predicate Regular(w: World, m: Move, clock: nat) {
    && Allowed(w, m)
    && match m
       case DoPump(env) => AllSend(env) && clock <= env.now && (w.work ==> SafePump(w, env.now))
       case DoFinish(_, _, now) => now > 0
       case DoTrim(name, _) => '/' !in name
       case DoQueue(name, group, op) => '/' !in name && RealOp(op, LogOf(w.store, name))
       case _ => true
  }

  /** A change of the store that wakes nobody keeps an idle engine rightly idle. */
  lemma CalmAwake(w: World, st: Store, clock: nat)
    requires Awake(w, clock) && Calm(w.store, st) && StoreSound(st)
    requires forall name | name in w.store.logs :: name in st.logs
    ensures Awake(w.(store := st), clock)
  {
    hide QuietAt, StoreSound, Calm;
    var w' := w.(store := st);
    if !w.work {
      forall k | 0 <= k < |w'.subs| && !w'.subs[k].gone ensures Quiet(w', w'.subs[k]) {
        assert Quiet(w, w.subs[k]);
        forall name | name in w'.names && Covers(w'.subs[k].cfg.pattern, name) ensures QuietAt(st, w'.subs[k], name) {
          CalmQuiet(w.store, st, w.subs[k], name);
        }
      }
    }
  }

  lemma SwapOutAwake(w: World, k: nat, w': World, clock: nat)
    requires Awake(w, clock) && k < |w.subs| && w'.subs == SwapOut(w.subs, k)
    requires w'.store == w.store && w'.names == w.names && w'.work == w.work
    ensures Awake(w', clock)
  {
    hide QuietAt, StoreSound;
    forall j | 0 <= j < |w'.subs|
      ensures w'.subs[j] in w.subs
      ensures !w.work && !w'.subs[j].gone ==> Idle(w'.subs[j], clock) && Quiet(w', w'.subs[j])
    {
      SwapOutEntry(w.subs, k, j);
      var i := if j == k then |w.subs| - 1 else j;
      assert w'.subs[j] == w.subs[i];
      if !w.work && !w.subs[i].gone { assert Quiet(w, w.subs[i]); }
    }
  }

  lemma RemoveAwake(w: World, consumer: string, clock: nat)
    requires Awake(w, clock)
    ensures Awake(Remove(w, consumer), clock)
  {
    hide QuietAt, StoreSound;
    var k := FindAny(w.subs, consumer);
    var w' := Remove(w, consumer);
    if k < |w.subs| {
      if w.subs[k].inflight {
        if !w.work {
          forall j | 0 <= j < |w'.subs| && !w'.subs[j].gone ensures Quiet(w', w'.subs[j]) {
            assert Quiet(w, w.subs[j]);
          }
        }
      } else {
        SwapOutAwake(w, k, w', clock);
      }
    }
  }

  /** A trim, forced or not, leaves nothing new to deliver. */
  lemma TrimCalm(st: Store, name: string, base: nat)
    requires StoreSound(st) && name in st.logs && st.logs[name].base <= base <= st.logs[name].last
    ensures Calm(st, TrimStore(st, name, base)) && StoreSound(TrimStore(st, name, base))
  {
    StoreSoundResized(st, name, Range(base, st.logs[name].last));
  }

  /** Whatever is done to a group that owes nothing, it goes on owing nothing. */
  lemma OwesNothingStill(q: QRec, op: Op, r: Range)
    requires OwesNothing(q, r) && RealOp(op, r)
    ensures OwesNothing(Apply(q, op).0, r)
  {
    match op
    case OpTake(max, lease, now, last) =>
      var ms := EffectiveLease(q, lease);
      ScanOwesNothing(StartTake(q, lease), 0, ClampMax(max), now, ms, r);
      FreshOwesNothing(ScanFrom(StartTake(q, lease), 0, ClampMax(max), now, ms), ClampMax(max), now, ms, r);
    case OpDone(index) =>
      var k := Find(q.fl, index);
      if k < |q.fl| {
        assert forall e | e in SwapRemove(q.fl, k) :: e in q.fl;
      }
    case OpFail(index, _, _) =>
      var k := Find(q.fl, index);
      if k < |q.fl| { assert q.fl[k] in q.fl; }
    case OpConfig(_, _, _, _) =>
  }

  lemma {:induction false} ScanOwesNothing(t: Taking, k: nat, max: nat, now: nat, lease: nat, r: Range)
    requires OwesNothing(t.q, r)
    ensures OwesNothing(ScanFrom(t, k, max, now, lease).q, r)
    decreases |t.q.fl| - k
  {
    if k >= |t.q.fl| || |t.chosen| >= max {
    } else if t.q.fl[k].expires > now {
      ScanOwesNothing(t, k + 1, max, now, lease, r);
    } else if Exhausted(t.q, t.q.fl[k]) {
      assert forall e | e in SwapRemove(t.q.fl, k) :: e in t.q.fl;
      ScanOwesNothing(Bury(t, k), k, max, now, lease, r);
    } else {
      assert t.q.fl[k] in t.q.fl;
      ScanOwesNothing(Regrant(t, k, now, lease), k + 1, max, now, lease, r);
    }
  }

  lemma {:induction false} FreshOwesNothing(t: Taking, max: nat, now: nat, lease: nat, r: Range)
    requires OwesNothing(t.q, r)
    ensures OwesNothing(FreshFrom(t, max, now, lease, r.last).q, r)
    decreases max - |t.chosen|
  {
    if MayGrantFresh(t, max, lease, r.last) { FreshOwesNothing(GrantFresh(t, now, lease), max, now, lease, r); }
  }

  lemma QueueAwake(w: World, name: string, group: string, op: Op, clock: nat)
    requires Awake(w, clock) && Regular(w, DoQueue(name, group, op), clock)
    ensures Awake(Moved(w, DoQueue(name, group, op)), clock)
  {
    var st := w.store;
    var q := GroupRec(st, name, group);
    GroupRecSound(st, name, group);
    ApplySound(q, op, LogOf(st, name));
    StoreSoundUpdate(st, name, group, Apply(q, op).0);
    QueueCalm(st, name, group, op);
    CalmAwake(w, QueueStore(st, name, group, op), clock);
  }

  lemma QueueCalm(st: Store, name: string, group: string, op: Op)
    requires '/' !in name && RealOp(op, LogOf(st, name))
    ensures Calm(st, QueueStore(st, name, group, op))
  {
    hide Queue.Apply;
    var st' := QueueStore(st, name, group, op);
    forall n: string, g: string | '/' !in n && OwesNothing(GroupRec(st, n, g), LogOf(st, n))
      ensures OwesNothing(GroupRec(st', n, g), LogOf(st', n))
    {
      if n == name && g == group {
        OwesNothingStill(GroupRec(st, name, group), op, LogOf(st, name));
      } else {
        OtherKey(name, group, n, g);
      }
    }
  }

  lemma SettleGroupSound(st: Store, name: string, group: string, jobs: seq<nat>, answer: Answer, now: nat)
    requires StoreSound(st) && now > 0 && '/' !in name
    ensures StoreSound(SettleGroup(st, name, group, jobs, answer, now))
  {
    var key := JoinKey(name, group);
    if key in st.groups {
      assert Sound(st.groups[key], LogOf(st, name));
      SettleSound(st.groups[key], jobs, |jobs|, answer, now, LogOf(st, name));
      StoreSoundUpdate(st, name, group, Settle(st.groups[key], jobs, answer, now));
    }
  }

  lemma FinishAwake(w: World, k: nat, report: Report, now: nat, clock: nat)
    requires Awake(w, clock) && k < |w.subs| && w.subs[k].inflight && now > 0
    ensures Awake(Complete(w, k, report, now), clock)
  {
    hide QuietAt, StoreSound, SettleGroup;
    var s := w.subs[k];
    var w' := Complete(w, k, report, now);
    if s.gone {
      assert SwapOut(w.subs[k := s.(inflight := false)], k) == SwapOut(w.subs, k);
      SwapOutAwake(w, k, w', clock);
    } else {
      assert w.work;
      assert w'.work && w'.names == w.names && w'.subs == w.subs[k := w'.subs[k]];
      if IsWorker(s) { FinishWorkerSound(w, k, report, now); } else { StoreSoundSameLogs(w.store, w'.store); }
    }
  }

  lemma FinishWorkerSound(w: World, k: nat, report: Report, now: nat)
    requires StoreSound(w.store) && k < |w.subs| && !w.subs[k].gone && IsWorker(w.subs[k]) && now > 0 && '/' !in w.subs[k].subject
    ensures StoreSound(Complete(w, k, report, now).store) && Complete(w, k, report, now).store.logs == w.store.logs
  {
    var s := w.subs[k];
    SettleGroupSound(w.store, s.subject, s.cfg.group, s.jobs, report.answer, now);
  }

  lemma AckCalm(st: Store, key: string, index: nat)
    ensures Calm(st, SetCursor(st, key, index))
  {
  }

  lemma PublishAwake(w: World, name: string, clock: nat)
    requires Awake(w, clock) && '/' !in name
    ensures Awake(Publish(w, name), clock)
  {
    LogsOrdered(w.store, name);
    var r := LogOf(w.store, name);
    StoreSoundResized(w.store, name, Range(r.base, r.last + 1));
  }

  lemma PumpAwake(w: World, env: Env, clock: nat)
    requires Awake(w, clock) && Regular(w, DoPump(env), clock)
    ensures Awake(Pump(w, env), env.now)
  {
    hide Steady, Quiet, Pump, Strands, Lossy, Stirs;
    PumpSteady(w, env);
    if w.work {
      if KeptBusy(w, env.now) {
        BusyGoesOn(w, env);
      } else if Stirs(w, env.now) {
        StirsGoesOn(w, env);
      } else if Stops(w, env) {
        StopLosesExactly(w, env);
      }
    } else {
      PumpResting(w, env);
      forall k | 0 <= k < |w.subs| && !w.subs[k].gone ensures Idle(w.subs[k], env.now) && Quiet(w, w.subs[k]) {
        assert Idle(w.subs[k], clock);
      }
    }
  }

  /**
   Without a zero lease behind a trim that is exactly what it takes: a pump from
   this state loses nothing if and only if it is safe.
   */
  lemma SafePumpExactly(w: World, env: Env)
    requires AllSend(env) && Steady(w) && AllListed(w) && NoStragglers(w) && w.work
    ensures SafePump(w, env.now) <==> Pump(w, env).work || AllQuiet(Pump(w, env), env.now)
  {
    hide Steady, AllListed, Quiet, Pump, Lossy, Stirs, KeptBusy;
    NothingStrands(w, env.now);
    StopsExactly(w, env);
    if Stops(w, env) { StopLosesExactly(w, env); }
  }

  lemma NothingStrands(w: World, now: nat)
    requires Steady(w) && AllListed(w) && NoStragglers(w)
    ensures !Strands(w, now)
  {
    hide LettersTo, StoreSound, GroupRec, Straggling;
    forall j, x | 0 <= j < |w.subs| && x !in w.names && OnList(w, x, |w.subs|, now)
      ensures !Straggling(GroupRec(w.store, x, w.subs[j].cfg.group), LogOf(w.store, x).base)
    {
      JoinsAsChannel(w, x, |w.subs|, now);
      UnknownIsNew(w.store, x, w.subs[j].cfg.group);
    }
  }

  lemma PumpResting(w: World, env: Env)
    requires !w.work
    ensures Pump(w, env) == w
  {
  }

  lemma MoveAwake(w: World, m: Move, clock: nat)
    requires Awake(w, clock) && Regular(w, m, clock)
    ensures Awake(Moved(w, m), Clock(m, clock))
  {
    match m
    case DoPublish(name) => PublishAwake(w, name, clock);
    case DoAdd(id, consumer, cfg) =>
    case DoRemove(consumer) => RemoveAwake(w, consumer, clock);
    case DoSeed(consumer, pattern, atEnd, from) =>
      SeedLogs(w.store, w.names, |w.names|, consumer, pattern, atEnd, from);
      StoreSoundSameLogs(w.store, Seed(w, consumer, pattern, atEnd, from).store);
    case DoPump(env) => PumpAwake(w, env, clock);
    case DoFinish(id, report, now) => FinishAwake(w, FindId(w.subs, id), report, now, clock);
    case DoTrim(name, base) =>
      TrimCalm(w.store, name, base);
      CalmAwake(w, TrimStore(w.store, name, base), clock);
    case DoQueue(name, group, op) => QueueAwake(w, name, group, op, clock);
    case DoAck(key, index) =>
      StoreSoundSameLogs(w.store, SetCursor(w.store, key, index));
      AckCalm(w.store, key, index);
      CalmAwake(w, SetCursor(w.store, key, index), clock);
  }

  /** A run under the regular setting, with the clock it ends at. */
  ghost function RegularRun(w: World, clock: nat, moves: seq<Move>): Option<(World, nat)> {
    if moves == [] then Some((w, clock))
    else
      var before := RegularRun(w, clock, moves[..|moves| - 1]);
      var m := moves[|moves| - 1];
      if before.Some? && Regular(before.value.0, m, before.value.1)
      then Some((Moved(before.value.0, m), Clock(m, before.value.1))) else None
  }

  /**
   No lost wakeups.  In every regular run, forced trims and manual receipts
   included, from an engine that has just been started: whenever it has stopped
   scanning, no live subscription is on its way, backing off or waiting for a
   lease, and none has anything to deliver.
   */
  lemma {:induction false} NoLostWakeups(w: World, clock: nat, moves: seq<Move>)
    requires Awake(w, clock) && RegularRun(w, clock, moves).Some?
    ensures
      var (w', now) := RegularRun(w, clock, moves).value;
      && Awake(w', now)
      && (!w'.work ==> forall k | 0 <= k < |w'.subs| && !w'.subs[k].gone :: Idle(w'.subs[k], now) && Quiet(w', w'.subs[k]))
  {
    if moves != [] {
      hide Awake, Regular, Moved;
      NoLostWakeups(w, clock, moves[..|moves| - 1]);
      var (w1, now) := RegularRun(w, clock, moves[..|moves| - 1]).value;
      MoveAwake(w1, moves[|moves| - 1], now);
    }
    AwakeMeans(RegularRun(w, clock, moves).value.0, RegularRun(w, clock, moves).value.1);
  }

  lemma AwakeMeans(w: World, clock: nat)
    requires Awake(w, clock)
    ensures !w.work ==> forall k | 0 <= k < |w.subs| && !w.subs[k].gone :: Idle(w.subs[k], clock) && Quiet(w, w.subs[k])
  {
  }

  // ---- the pass that loses one -------------------------------------------------------------

  /** A reader of "a.dead" listed before a worker on "a". */
  function LosingWorld(q: QRec): World {
    World(
      [NewSub(1, "r", Cfg("a.dead", "", 0)), NewSub(2, "w", Cfg("a", "g", 1))],
      ["a", "a.dead"], true, 0,
      Store(map["a" := Range(0, 1), "a.dead" := Range(0, 0)], map[], map[JoinKey("a", "g") := q]))
  }

  /** One job, out of attempts, its lease expired. */
  const SPENT: QRec := QRec(2, 30000, 1, 1000, 300000, [Lease(1, 5, 1)], 0, [])

  lemma SpentTake(now: nat)
    requires now >= 5
    ensures var t := Take(SPENT, 1, None, now, 1);
            t.chosen == [] && t.dying == [Lease(1, 5, 1)] && t.q.fl == []
  {
    var t := StartTake(SPENT, None);
    assert ScanFrom(t, 0, 1, now, 30000) == Bury(t, 0);
  }

  lemma LosingNames()
    ensures DeadName("a") == Some("a.dead") && Covers("a", "a") && !Covers("a", "a.dead")
    ensures Covers("a.dead", "a.dead") && !Covers("a.dead", "a")
  {
    assert "a" + DEAD_SUFFIX == "a.dead";
    assert !HasWildcard("a") && !HasWildcard("a.dead");
    assert "a.dead"[0] == 'a' && "a"[0] == 'a';
    assert |"a"| < |"a.dead"|;
  }

  lemma LosingReader(env: Env)
    requires AllSend(env)
    ensures StartDelivery(LosingWorld(SPENT), 0, env) == Out(LosingWorld(SPENT), false)
  {
    var w := LosingWorld(SPENT);
    LosingNames();
    assert w.subs[0 := w.subs[0].(wake := 0)] == w.subs;
    assert TryName(w, 0, 0, env) == GoOn(w);
    assert TryName(w, 0, 1, env) == GoOn(w);
    assert StartFrom(w, 0, 2, env) == Out(w, false);
    assert StartFrom(w, 0, 1, env) == Out(w, false);
  }

  /** What is left once the worker's turn has buried the job. */
  function LostWorld(): World {
    var w := LosingWorld(SPENT);
    w.(store := w.store.(groups := w.store.groups[JoinKey("a", "g") := Take(SPENT, 1, None, 5, 1).q],
                         logs := w.store.logs["a.dead" := Range(0, 1)]))
  }

  lemma LosingAsk(now: nat)
    requires now >= 5
    ensures
      var a := AskQueue(LosingWorld(SPENT).store, Cfg("a", "g", 1), "a", now);
      && a.jobs == [] && a.due == None && a.dead == {"a.dead"} && a.st == LostWorld().store
  {
    LosingNames();
    SpentTake(now);
    SpentTake(5);
    SpentSame(now);
    assert CountLive(Range(0, 1), [Lease(1, 5, 1)]) == 1 by { assert [Lease(1, 5, 1)][..0] == []; }
  }

  lemma SpentSame(now: nat)
    requires now >= 5
    ensures Take(SPENT, 1, None, now, 1).q == Take(SPENT, 1, None, 5, 1).q
  {
    var t := StartTake(SPENT, None);
    assert ScanFrom(t, 0, 1, now, 30000) == Bury(t, 0);
    assert ScanFrom(t, 0, 1, 5, 30000) == Bury(t, 0);
  }

  lemma LosingWorker(env: Env)
    requires AllSend(env) && env.now >= 5
    ensures StartDelivery(LosingWorld(SPENT), 1, env) == Out(LostWorld(), false)
  {
    hide PushModel.AskQueue, Queue.Take, Names.DeadName, Names.TokensMatch, Names.Tokens;
    var w, w1 := LosingWorld(SPENT), LostWorld();
    LosingNames();
    LosingAsk(env.now);
    assert w.subs[1 := w.subs[1].(wake := 0)] == w.subs;
    assert AddAll(w.names, {"a.dead"}, "a") == w.names;
    assert TryName(w, 1, 0, env) == GoOn(w1);
    assert TryName(w1, 1, 1, env) == GoOn(w1);
    assert StartFrom(w1, 1, 2, env) == Out(w1, false);
    assert StartFrom(w1, 1, 1, env) == Out(w1, false);
    assert StartFrom(w, 1, 0, env) == Out(w1, false);
  }

  /**
   The pass loses a wakeup: the reader is asked first and has nothing, then the
   worker's take dead-letters the job into the reader's channel and finds nothing
   to hand out, and `work` is turned off with a message waiting.
   */
  lemma DeadLetterLosesWakeup(env: Env)
    requires AllSend(env) && env.now >= 5
    ensures
      var w' := Pump(LosingWorld(SPENT), env);
      && !w'.work && |w'.subs| == 2
      && LogOf(w'.store, "a.dead") == Range(0, 1)
      && w'.subs[0] == LosingWorld(SPENT).subs[0] && !QuietAt(w'.store, w'.subs[0], "a.dead")
  {
    var w, w1 := LosingWorld(SPENT), LostWorld();
    var p0 := Pass(w, false, false);
    assert PassFrom(p0, 0, env) == Pass(w1, false, false) by {
      hide PushModel.StartDelivery, Queue.Take;
      LosingReader(env);
      LosingWorker(env);
      assert PassFrom(p0, 0, env) == PassFrom(p0, 1, env);
      assert PassFrom(p0, 1, env) == PassFrom(Pass(w1, false, false), 2, env);
    }
    assert LogOf(w1.store, "a.dead") == Range(0, 1);
  }

  // ---- the trim that strands ------------------------------------------------------------------

  /** A group whose leases last no time, nothing handed out yet. */
  const NO_LEASE: QRec := QRec(1, 0, 10, 1000, 300000, [], 0, [])

  /** Its worker, after a forced trim of messages 1 to 3 of 9. */
  function TrimmedWorld(): World {
    World([NewSub(1, "w", Cfg("a", "g", 1))], ["a"], true, 0,
          Store(map["a" := Range(3, 9)], map[], map[JoinKey("a", "g") := NO_LEASE]))
  }

  lemma NoLeaseTake(now: nat)
    ensures
      var t := Take(NO_LEASE, 1, None, now, 9);
      t.chosen == [Grant(1, 1)] && t.dying == [] && t.q == NO_LEASE.(next := 2)
  {
    var t0 := StartTake(NO_LEASE, None);
    var t1 := GrantFresh(t0, now, 0);
    assert ScanFrom(t0, 0, 1, now, 0) == t0;
    assert FreshFrom(t0, 1, now, 0, 9) == FreshFrom(t1, 1, now, 0, 9) == t1;
  }

  /**
   A zero lease behind a trim: the take gives away job 1, which is gone, leaves
   no lease to come back for, and `work` is turned off with jobs 4 to 9 waiting.
   No letter is involved.
   */
  lemma ZeroLeaseLosesWakeup(env: Env)
    requires AllSend(env)
    ensures
      var w, w' := TrimmedWorld(), Pump(TrimmedWorld(), env);
      && !w'.work && StrandedAt(w, 0, "a", env.now) && !Lossy(w, env.now)
      && GroupRec(w'.store, "a", "g") == NO_LEASE.(next := 2) && LogOf(w'.store, "a") == Range(3, 9)
      && !QuietAt(w'.store, w'.subs[0], "a")
  {
    var w := TrimmedWorld();
    LosingNames();
    NoLeaseTake(env.now);
    assert w.subs[0 := w.subs[0].(wake := 0)] == w.subs;
    var a := AskQueue(w.store, w.subs[0].cfg, "a", env.now);
    assert LiveJobs(Range(3, 9), [Grant(1, 1)]) == [] by { assert [Grant(1, 1)][..0] == []; }
    assert a.jobs == [] && a.due == None && a.dead == {};
    var w1 := w.(store := a.st);
    assert TryName(w, 0, 0, env) == GoOn(w1);
    assert StartFrom(w1, 0, 1, env) == Out(w1, false);
    assert StartFrom(w, 0, 0, env) == Out(w1, false);
    var p0 := Pass(w, false, false);
    assert PassFrom(p0, 0, env) == PassFrom(Pass(w1, false, false), 1, env) == Pass(w1, false, false);
    NoLetters(w, "a", |w.subs|, env.now);
    forall j, k, s ensures !Misses(w, j, k, s, env.now) {
    }
  }

  /** Where no table holds a lease there are no letters. */
  lemma {:induction false} NoLetters(w: World, s: string, n: nat, now: nat)
    requires n <= |w.subs| && forall k | 0 <= k < |w.subs| :: GroupRec(w.store, s, w.subs[k].cfg.group).fl == []
    ensures LettersFrom(w, s, n, now) == 0
  {
    if n > 0 { NoLetters(w, s, n - 1, now); }
  }
}
