/**
 bjm_pusher itself: the fields and loops of src/push.c, each operation proved
 to do what PushModel says.
 */
module PushEngine {
  import opened Options
  import opened Words
  import opened Queue
  import opened QueueGroups
  import opened Names
  import opened Settlement
  import opened PushModel
  import PushReceipts
  import opened Backoff

  /** From step `n` of a round on, this is where it ends. */
  ghost predicate Leads(w: World, k: nat, n: nat, env: Env, goal: Out) {
    k < |w.subs| && StartFrom(w, k, n, env).w == goal.w && StartFrom(w, k, n, env).started == goal.started
  }

  lemma StartUnfolds(w: World, k: nat, n: nat, env: Env, goal: Out)
    requires Leads(w, k, n, env, goal) && n < |w.names|
    ensures
      match TryName(w, k, Position(w, k, n), env)
      case Stop(w1, started) => w1 == goal.w && started == goal.started
      case GoOn(w1) => Leads(w1, k, n + 1, env, goal) && LeftToAsk(w1.names, n + 1) < LeftToAsk(w.names, n)
  {
    TryLeavesLess(w, k, Position(w, k, n), n, env);
  }

  lemma StartEnds(w: World, k: nat, n: nat, env: Env, goal: Out)
    requires Leads(w, k, n, env, goal) && n >= |w.names|
    ensures w == goal.w && !goal.started
  {
  }

  class Pusher {
    var subs: seq<Sub>
    var names: seq<string>
    var work: bool
    var inflight: int
    var store: Store

    function State(): World
      reads this
    {
      World(subs, names, work, inflight, store)
    }

    /** Every stored group fits the tables it is loaded into. */
    ghost predicate Valid()
      reads this
    {
      forall key | key in store.groups :: Holdable(store.groups[key])
    }

    constructor (st: Store)
      requires forall key | key in st.groups :: Holdable(st.groups[key])
      ensures Valid() && State() == World([], [], true, 0, st)
    {
      subs, names, work, inflight, store := [], [], true, 0, st;
    }

    // ---- registration ----------------------------------------------------------

    method Notify(name: string)
      requires Valid()
      modifies this
      ensures Valid()
      ensures State() == PushModel.Notify(old(State()), name)
    {
      NamesAdd(name);
      work := true;
    }

    method NamesAdd(name: string)
      modifies this`names
      ensures names == AddName(old(names), name)
    {
      for i := 0 to |names|
        invariant name !in names[..i]
      {
        if names[i] == name { return; }
      }
      names := names + [name];
    }

    /** find: deleted entries are passed over. */
    method FindSub(consumer: string) returns (k: nat)
      ensures k == FindLive(subs, consumer)
    {
      k := 0;
      while k < |subs|
        invariant k <= |subs|
        invariant forall j | 0 <= j < k :: subs[j].gone || subs[j].consumer != consumer
      {
        if !subs[k].gone && subs[k].consumer == consumer { return; }
        k := k + 1;
      }
    }

    method Add(id: nat, consumer: string, cfg: Cfg)
      requires Valid()
      modifies this
      ensures Valid()
      ensures State() == PushModel.Add(old(State()), id, consumer, cfg)
    {
      var k := FindSub(consumer);
      if k < |subs| {
        subs := subs[k := subs[k].(cfg := cfg)];
      } else {
        subs := subs + [NewSub(id, consumer, cfg)];
      }
      work := true;
    }

    method TakeOut(k: nat)
      requires k < |subs|
      modifies this`subs
      ensures subs == SwapOut(old(subs), k)
    {
      subs := subs[k := subs[|subs| - 1]];
      subs := subs[..|subs| - 1];
    }

    method Remove(consumer: string)
      requires Valid()
      modifies this
      ensures Valid()
      ensures State() == PushModel.Remove(old(State()), consumer)
    {
      var k := 0;
      while k < |subs|
        invariant k <= |subs| && State() == old(State())
        invariant forall j | 0 <= j < k :: subs[j].consumer != consumer
      {
        if subs[k].consumer == consumer {
          assert k == FindAny(subs, consumer);
          if subs[k].inflight { subs := subs[k := subs[k].(gone := true)]; } else { TakeOut(k); }
          return;
        }
        k := k + 1;
      }
      assert k == FindAny(subs, consumer);
    }

    method Seed(consumer: string, pattern: string, atEnd: bool, from: nat)
      requires Valid()
      modifies this
      ensures Valid()
      ensures State() == PushModel.Seed(old(State()), consumer, pattern, atEnd, from)
    {
      for i := 0 to |names|
        invariant Valid() && names == old(names)
        invariant State() == old(State()).(store := SeedFirst(old(store), old(names), i, consumer, pattern, atEnd, from))
      {
        var name := names[i];
        if Covers(pattern, name) && JoinKey(name, consumer) !in store.cursors {
          var at := 0;
          if atEnd { at := LogOf(store, name).last; } else if from > 1 { at := from - 1; }
          store := SetCursor(store, JoinKey(name, consumer), at);
        }
      }
      work := true;
    }

    // ---- starting a delivery ---------------------------------------------------

    /** Publish an envelope for each job that died and is still in the log, announced like any publish. */
    method PublishLetters(name: string, r: Range, dying: seq<Lease>)
      requires Valid()
      modifies this
      ensures Valid() && subs == old(subs) && inflight == old(inflight)
      ensures
        var n := CountLive(r, dying);
        if n == 0 || DeadName(name).None? then State() == old(State())
        else
          var d := LogOf(old(store), DeadName(name).value);
          State() == old(State()).(
            store := old(store).(logs := old(store).logs[DeadName(name).value := Range(d.base, d.last + n)]),
            names := AddName(old(names), DeadName(name).value), work := true)
    {
      var channel := DeadName(name);
      if channel.None? { return; }
      var d := LogOf(store, channel.value);
      var n := 0;
      for i := 0 to |dying|
        invariant n == CountLive(r, dying[..i])
      {
        assert dying[..i + 1][..i] == dying[..i];
        if InLog(r, dying[i].index) { n := n + 1; }
      }
      assert dying[..|dying|] == dying;
      if n > 0 {
        store := store.(logs := store.logs[channel.value := Range(d.base, d.last + n)]);
        NamesAdd(channel.value);
        work := true;
      }
    }

    /** Load a group, take from it in its tables, and store it again. */
    method TakeStored(name: string, group: string, max: nat, now: nat, last: nat)
      returns (chosen: seq<Grant>, dying: seq<Lease>, due: Option<nat>)
      requires Valid()
      modifies this`store
      ensures Valid()
      ensures
        var t := Take(GroupRec(old(store), name, group), max, None, now, last);
        && chosen == t.chosen && dying == t.dying && due == NextDue(t.q.fl)
        && store == old(store).(groups := old(store).groups[JoinKey(name, group) := t.q])
    {
      hide Queue.Take;
      var g := new QueueGroup.Load(GroupRec(store, name, group));
      ghost var happened;
      chosen, dying, happened := g.TakeJobs(max, None, now, last);
      store := store.(groups := store.groups[JoinKey(name, group) := g.Rec()]);
      due := g.EarliestDue();
    }

    /** When the group stored under `key` has a lease lapse, if there is one. */
    method DueOf(key: string) returns (due: Option<nat>)
      requires Valid()
      ensures due == if key in store.groups then NextDue(store.groups[key].fl) else None
    {
      due := None;
      if key in store.groups {
        var g := new QueueGroup.Load(store.groups[key]);
        due := g.EarliestDue();
      }
    }

    /** Lease jobs of one subject for worker `k`; what dies on the way is published like anything else. */
    method TakeBatch(k: nat, name: string, now: nat) returns (jobs: seq<nat>, due: Option<nat>)
      requires k < |subs|
      requires Valid()
      modifies this
      ensures Valid()
      ensures var a := AskQueue(old(store), old(subs)[k].cfg, name, now);
              jobs == a.jobs && due == a.due && State() == AfterAsk(old(State()), name, a)
    {
      hide Queue.Take, PushModel.LiveJobs, PushModel.CountLive, DeadName;
      var cfg := subs[k].cfg;
      if name !in store.logs {
        jobs := [];
        due := DueOf(JoinKey(name, cfg.group));
        return;
      }
      var r := store.logs[name];
      var chosen, dying;
      chosen, dying, due := TakeStored(name, cfg.group, WantJobs(cfg), now, r.last);
      jobs := JobsInLog(r, chosen);
      PublishLetters(name, r, dying);
    }

    /** Where reader `k` stands on one subject, jumping over what was trimmed. */
    method NextFor(k: nat, name: string) returns (acked: Option<nat>)
      requires k < |subs|
      requires Valid()
      modifies this`store
      ensures Valid()
      ensures (store, acked) == AskReader(old(store), subs[k].consumer, name)
    {
      var key := JoinKey(name, subs[k].consumer);
      if name !in store.logs { return None; }
      var at := Acked(store, key);
      if store.logs[name].last <= at { return None; }
      if at < store.logs[name].base {
        store := SetCursor(store, key, store.logs[name].base);
        at := store.logs[name].base;
        if store.logs[name].last <= at { return None; }
      }
      return Some(at);
    }

    method SendBatch(k: nat, s: Sub, env: Env) returns (ok: bool)
      requires k < |subs|
      requires Valid()
      modifies this
      ensures Valid()
      ensures (State(), ok) == Send(old(State()), k, s, env)
    {
      ok := env.sends(s.id);
      if ok {
        subs := subs[k := s.(inflight := true)];
        inflight := inflight + 1;
      } else {
        subs := subs[k := s];
      }
    }

    /** One subject: true when the search is over, with a delivery started or refused. */
    method AskOne(k: nat, i: nat, env: Env) returns (over: bool, started: bool)
      requires k < |subs| && i < |names|
      requires Valid()
      modifies this
      ensures Valid()
      ensures
        match TryName(old(State()), k, i, env)
        case GoOn(w) => !over && !started && State() == w
        case Stop(w, ok) => over && started == ok && State() == w
    {
      over, started := false, false;
      var name := names[i];
      if !Covers(subs[k].cfg.pattern, name) { return; }
      if IsWorker(subs[k]) {
        var jobs, due := TakeBatch(k, name, env.now);
        if jobs == [] {
          subs := subs[k := subs[k].(wake := EarlierWake(subs[k].wake, due))];
          return;
        }
        started := SendBatch(k, PreparedJobs(subs[k], name, jobs, (i + 1) % |names|), env);
        over := true;
      } else {
        var acked := NextFor(k, name);
        if acked.None? { return; }
        var count := BatchSize(env.batch(subs[k].id), store.logs[name].last - acked.value);
        started := SendBatch(k, Prepared(subs[k], name, acked.value, count, (i + 1) % |names|), env);
        over := true;
      }
    }

    /** start_delivery: once round the subjects from where the last delivery left off. */
    method StartDelivery(k: nat, env: Env) returns (started: bool)
      requires k < |subs|
      requires Valid()
      modifies this
      ensures Valid()
      ensures var o := PushModel.StartDelivery(old(State()), k, env);
              State() == o.w && started == o.started
    {
      hide PushModel.TryName, PushModel.StartFrom;
      subs := subs[k := subs[k].(wake := 0)];
      ghost var goal := StartFrom(State(), k, 0, env);
      var n := 0;
      while n < |names|
        invariant Valid() && k < |subs| && Leads(State(), k, n, env, goal)
        decreases LeftToAsk(names, n)
      {
        ghost var w := State();
        StartUnfolds(w, k, n, env, goal);
        var over, ok := AskOne(k, (subs[k].rr + n) % |names|, env);
        if over { return ok; }
        n := n + 1;
      }
      StartEnds(State(), k, n, env, goal);
      return false;
    }

    // ---- the pump ----------------------------------------------------------------

    /** bjm_pusher_pump; `nextDue` is the time it collects for its last branch. */
    method Pump(now: nat, env: Env) returns (sleep: int)
      requires env.now == now
      requires Valid()
      modifies this
      ensures Valid()
      ensures State() == PushModel.Pump(old(State()), env)
      ensures sleep == if inflight != 0 then 2 else if work then 0 else 1000
    {
      var nextDue := 0;
      if work {
        var started, busy := false, false;
        ghost var p := Pass(State(), false, false);
        var i := 0;
        while i < |subs|
          invariant Valid() && p.w == State() && p.started == started && p.busy == busy
          invariant PassFrom(p, i, env) == PumpPass(old(State()), env)
          invariant nextDue != 0 ==> busy
          decreases |subs| - i
        {
          var s := subs[i];
          if !s.gone {
            if s.inflight {
              busy := true;
              p := p.(busy := true);
            } else if s.due > now {
              busy := true;
              if nextDue == 0 || s.due < nextDue { nextDue := s.due; }
              p := p.(busy := true);
            } else {
              ghost var o := PushModel.StartDelivery(State(), i, env);
              var ok := StartDelivery(i, env);
              started := started || ok;
              if subs[i].wake != 0 {
                busy := true;
                if nextDue == 0 || subs[i].wake < nextDue { nextDue := subs[i].wake; }
              }
              p := Pass(o.w, p.started || o.started, p.busy || o.w.subs[i].wake != 0);
            }
          }
          i := i + 1;
        }
        if !started && !busy { work := false; }
        // A time in `nextDue` means a busy pass, and a busy pass leaves `work` on.
        PushReceipts.PassWorks(Pass(old(State()), false, false), 0, env);
        assert nextDue != 0 ==> work;
      }
      if inflight != 0 { return TICK_MS; }
      if work { return 0; }
      // The wait of `nextDue` that the code has here is never taken.
      assert nextDue == 0;
      return IDLE_MS;
    }

    // ---- completion ----------------------------------------------------------------

    /** The delivery of subscription `k` is over. */
    method Finish(k: nat, report: Report, now: nat)
      requires k < |subs|
      requires Valid()
      modifies this
      ensures Valid()
      ensures State() == Complete(old(State()), k, report, now)
    {
      var s := subs[k].(inflight := false);
      subs := subs[k := s];
      inflight := inflight - 1;
      if s.gone {
        TakeOut(k);
      } else if IsWorker(s) {
        FinishJobs(k, report, now);
      } else if !IsOk(report.answer) {
        BackOff(k, now);
      } else {
        var ack := s.last;
        if report.ack.Some? {
          ack := report.ack.value;
          if ack > s.last { ack := s.last; }
        }
        if ack >= s.first {
          store := SetCursor(store, JoinKey(s.subject, s.consumer), ack);
          subs := subs[k := s.(due := 0, failures := 0)];
          work := true;
        } else {
          BackOff(k, now);
        }
      }
    }

    method FinishJobs(k: nat, report: Report, now: nat)
      requires k < |subs|
      requires Valid()
      modifies this
      ensures Valid()
      ensures State() == FinishWorker(old(State()), k, report, now)
    {
      if report.answer.Unreached? {
        BackOff(k, now);
        return;
      }
      var s := subs[k];
      var key := JoinKey(s.subject, s.cfg.group);
      if key in store.groups {
        var g := new QueueGroup.Load(store.groups[key]);
        Settlement.FinishJobs(g, s.jobs, report.answer, now);
        store := store.(groups := store.groups[key := g.Rec()]);
      }
      subs := subs[k := s.(jobs := [])];
      if !IsOk(report.answer) {
        BackOff(k, now);
        return;
      }
      subs := subs[k := subs[k].(failures := 0, due := 0)];
      work := true;
    }

    method BackOff(k: nat, now: nat)
      requires k < |subs|
      modifies this`subs
      ensures subs == old(subs)[k := BackedOff(old(subs)[k], now)]
    {
      var failures := subs[k].failures + 1;
      var wait := BackoffWait(failures);
      subs := subs[k := subs[k].(failures := failures, due := now + wait)];
    }
  }

  /** The jobs of a take that are still there to be read. */
  method JobsInLog(r: Range, chosen: seq<Grant>) returns (jobs: seq<nat>)
    ensures jobs == LiveJobs(r, chosen)
  {
    jobs := [];
    for i := 0 to |chosen|
      invariant jobs == LiveJobs(r, chosen[..i])
    {
      assert chosen[..i + 1][..i] == chosen[..i];
      if InLog(r, chosen[i].index) { jobs := jobs + [chosen[i].index]; }
    }
    assert chosen[..|chosen|] == chosen;
  }

  /** The doubling loop of backoff(). */
  method BackoffWait(failures: nat) returns (wait: nat)
    requires failures > 0
    ensures wait == PushWait(failures)
  {
    wait := BACKOFF_MS;
    var i := 1;
    while i < failures && wait < MAX_PUSH_BACKOFF_MS
      invariant 1 <= i <= failures && wait == BACKOFF_MS * Pow2(i - 1)
    {
      wait := wait * 2;
      i := i + 1;
    }
    Pow2Mono(i - 1, failures - 1);
    if wait > MAX_PUSH_BACKOFF_MS { wait := MAX_PUSH_BACKOFF_MS; }
  }

  /** The wait never exceeds its ceiling and never shrinks from one failure to the next. */
  lemma BackoffGrows(a: nat, b: nat)
    requires 0 < a <= b
    ensures 500 <= PushWait(a) <= PushWait(b) <= 30000
    ensures PushWait(1) == 500 && PushWait(a + 1) == Min(2 * PushWait(a), 30000)
    ensures a >= 7 ==> PushWait(a) == 30000
  {
    Pow2Mono(0, a - 1);
    Pow2Mono(a - 1, b - 1);
    assert Pow2(6) == 64;
    if a >= 7 { Pow2Mono(6, a - 1); }
  }
}
