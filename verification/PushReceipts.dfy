/**
 What every run of the delivery engine keeps: the in-flight counter, one live
 subscription per consumer, and receipts that tile the log.
 */
module PushReceipts {
  import opened Options
  import opened Queue
  import opened Names
  import opened Settlement
  import opened PushModel

  // ---- the moves of the engine and its surroundings ------------------------------

  datatype Move =
    | DoPublish(name: string)
    | DoAdd(id: nat, consumer: string, cfg: Cfg)
    | DoRemove(consumer: string)
    | DoSeed(consumer: string, pattern: string, atEnd: bool, from: nat)
    | DoPump(env: Env)
    /** The transport reports the delivery of subscription `id` over. */
    | DoFinish(id: nat, report: Report, now: nat)
    /** Retention, forced or not, moves a subject's base. */
    | DoTrim(name: string, base: nat)
    /** Anybody else's operation on a queue group. */
    | DoQueue(name: string, group: string, op: Op)
    /** A receipt acknowledged by hand. */
    | DoAck(key: string, index: nat)

  function FindId(subs: seq<Sub>, id: nat): (k: nat)
    ensures k <= |subs|
    ensures k < |subs| ==> subs[k].id == id
    ensures forall j | 0 <= j < k :: subs[j].id != id
  {
    if subs == [] then 0
    else if subs[0].id == id then 0
    else
      var k := FindId(subs[1..], id);
      assert forall j | 1 <= j < k + 1 :: subs[j] == subs[1..][j - 1];
      k + 1
  }

  function TrimStore(st: Store, name: string, base: nat): Store {
    st.(logs := st.logs[name := LogOf(st, name).(base := base)])
  }

  function QueueStore(st: Store, name: string, group: string, op: Op): Store {
    st.(groups := st.groups[JoinKey(name, group) := Apply(GroupRec(st, name, group), op).0])
  }

  /** Moves the guarantees are about: no group change under a delivery, no seeding of a live consumer. */
  predicate Allowed(w: World, m: Move) {
    match m
    case DoPublish(name) => '/' !in name
    case DoAdd(id, consumer, cfg) =>
      && (forall k | 0 <= k < |w.subs| :: w.subs[k].id != id)
      && (var k := FindLive(w.subs, consumer); k < |w.subs| && w.subs[k].inflight ==> cfg.group == w.subs[k].cfg.group)
    case DoSeed(consumer, _, _, _) => FindLive(w.subs, consumer) == |w.subs|
    case DoFinish(id, _, _) => var k := FindId(w.subs, id); k < |w.subs| && w.subs[k].inflight
    case DoTrim(name, base) => name in w.store.logs && w.store.logs[name].base <= base <= w.store.logs[name].last
    case _ => true
  }

  function Moved(w: World, m: Move): World
    requires Allowed(w, m)
  {
    match m
    case DoPublish(name) => Publish(w, name)
    case DoAdd(id, consumer, cfg) => Add(w, id, consumer, cfg)
    case DoRemove(consumer) => Remove(w, consumer)
    case DoSeed(consumer, pattern, atEnd, from) => Seed(w, consumer, pattern, atEnd, from)
    case DoPump(env) => Pump(w, env)
    case DoFinish(id, report, now) => Complete(w, FindId(w.subs, id), report, now)
    case DoTrim(name, base) => w.(store := TrimStore(w.store, name, base))
    case DoQueue(name, group, op) => w.(store := QueueStore(w.store, name, group, op))
    case DoAck(key, index) => w.(store := SetCursor(w.store, key, index))
  }

  // ---- counting what is in flight ---------------------------------------------------

  function InFlight(subs: seq<Sub>): nat {
    if subs == [] then 0
    else InFlight(subs[..|subs| - 1]) + if subs[|subs| - 1].inflight then 1 else 0
  }

  function Bit(b: bool): nat { if b then 1 else 0 }

  lemma {:induction false} InFlightUpdate(subs: seq<Sub>, k: nat, s: Sub)
    requires k < |subs|
    ensures InFlight(subs[k := s]) == InFlight(subs) - Bit(subs[k].inflight) + Bit(s.inflight)
  {
    var n := |subs| - 1;
    if k == n {
      assert subs[k := s][..n] == subs[..n];
    } else {
      InFlightUpdate(subs[..n], k, s);
      assert subs[k := s][..n] == subs[..n][k := s];
    }
  }

  lemma InFlightAppend(subs: seq<Sub>, s: Sub)
    ensures InFlight(subs + [s]) == InFlight(subs) + Bit(s.inflight)
  {
    assert (subs + [s])[..|subs|] == subs;
  }

  lemma InFlightSwapOut(subs: seq<Sub>, k: nat)
    requires k < |subs|
    ensures InFlight(SwapOut(subs, k)) == InFlight(subs) - Bit(subs[k].inflight)
  {
    var last, r := subs[|subs| - 1], SwapOut(subs, k);
    var u := subs[k := last];
    InFlightUpdate(subs, k, last);
    LastApart(u);
    assert u[|u| - 1] == last && u[..|u| - 1] == r;
    InFlightAppend(r, last);
  }

  lemma LastApart<T>(s: seq<T>)
    requires s != []
    ensures s == s[..|s| - 1] + [s[|s| - 1]]
  {
  }

  // ---- the invariant -----------------------------------------------------------------

  ghost predicate IdsDistinct(subs: seq<Sub>) {
    forall a, b | 0 <= a < b < |subs| :: subs[a].id != subs[b].id
  }

  /** At most one live subscription per consumer. */
  ghost predicate LiveUnique(subs: seq<Sub>) {
    forall a, b | 0 <= a < |subs| && 0 <= b < |subs| && !subs[a].gone && !subs[b].gone && subs[a].consumer == subs[b].consumer :: a == b
  }

  ghost predicate GoneInFlight(subs: seq<Sub>) {
    forall a | 0 <= a < |subs| && subs[a].gone :: subs[a].inflight
  }

  ghost predicate Counted(w: World) {
    && w.inflight == InFlight(w.subs)
    && IdsDistinct(w.subs) && LiveUnique(w.subs) && GoneInFlight(w.subs)
  }

  predicate Delivering(s: Sub) { s.inflight && !s.gone && !IsWorker(s) }

  function KeyOf(s: Sub): string { JoinKey(s.subject, s.consumer) }

  /** A delivery under way picks up exactly where its receipt stands. */
  ghost predicate PicksUp(st: Store, s: Sub) {
    Delivering(s) ==> '/' !in s.subject && 1 <= s.first <= s.last && Acked(st, KeyOf(s)) == s.first - 1
  }

  ghost predicate AllPickUp(w: World) {
    forall k | 0 <= k < |w.subs| :: PicksUp(w.store, w.subs[k])
  }

  ghost predicate PlainNames(names: seq<string>) {
    forall name | name in names :: '/' !in name
  }

  ghost predicate Inv(w: World) {
    Counted(w) && AllPickUp(w) && PlainNames(w.names)
  }

  // ---- starting a delivery ---------------------------------------------------------------

  /** The fields of a subscription that starting a delivery never touches. */
  ghost predicate SameCore(s: Sub, t: Sub) {
    && t.id == s.id && t.consumer == s.consumer && t.cfg == s.cfg && t.gone == s.gone
    && t.due == s.due && t.failures == s.failures
  }

  /** Only subscription `k` differs, and not in its core. */
  ghost predicate OnlySub(w: World, w': World, k: nat)
    requires k < |w.subs|
  {
    && |w'.subs| == |w.subs|
    && w'.subs == w.subs[k := w'.subs[k]]
    && SameCore(w.subs[k], w'.subs[k])
    && (w.work ==> w'.work)
  }

  /** And the counter says whether its delivery is on its way. */
  ghost predicate Shape(w: World, k: nat, o: Out)
    requires k < |w.subs|
  {
    && OnlySub(w, o.w, k)
    && o.w.subs[k].inflight == o.started
    && o.w.inflight == w.inflight + Bit(o.started)
  }

  ghost predicate TryShaped(w: World, k: nat, t: Try)
    requires k < |w.subs|
  {
    && OnlySub(w, t.w, k)
    && t.w.subs[k].inflight == (t.Stop? && t.started)
    && t.w.inflight == w.inflight + Bit(t.Stop? && t.started)
  }

  lemma TryWorkerShape(w: World, k: nat, i: nat, env: Env)
    requires k < |w.subs| && i < |w.names| && !w.subs[k].inflight
    ensures TryShaped(w, k, TryWorker(w, k, i, env))
  {
  }

  lemma TryReaderShape(w: World, k: nat, i: nat, env: Env)
    requires k < |w.subs| && i < |w.names| && !w.subs[k].inflight
    ensures TryShaped(w, k, TryReader(w, k, i, env))
  {
    assert w.subs[k := w.subs[k]] == w.subs;
  }

  lemma TryShape(w: World, k: nat, i: nat, env: Env)
    requires k < |w.subs| && i < |w.names| && !w.subs[k].inflight
    ensures TryShaped(w, k, TryName(w, k, i, env))
  {
    assert w.subs[k := w.subs[k]] == w.subs;
    TryWorkerShape(w, k, i, env);
    TryReaderShape(w, k, i, env);
  }

  lemma ShapeVia(w: World, w1: World, k: nat, o: Out)
    requires k < |w.subs| && OnlySub(w, w1, k) && w1.inflight == w.inflight && Shape(w1, k, o)
    ensures Shape(w, k, o)
  {
    assert w.subs[k := w1.subs[k]][k := o.w.subs[k]] == w.subs[k := o.w.subs[k]];
  }

  lemma {:induction false} StartShape(w: World, k: nat, n: nat, env: Env)
    requires k < |w.subs| && !w.subs[k].inflight
    ensures Shape(w, k, StartFrom(w, k, n, env))
    decreases LeftToAsk(w.names, n)
  {
    if n < |w.names| {
      var i := Position(w, k, n);
      TryShape(w, k, i, env);
      TryLeavesLess(w, k, i, n, env);
      var t := TryName(w, k, i, env);
      if t.GoOn? {
        StartShape(t.w, k, n + 1, env);
        ShapeVia(w, t.w, k, StartFrom(t.w, k, n + 1, env));
      }
    } else {
      assert w.subs[k := w.subs[k]] == w.subs;
    }
  }

  /** Receipts after a step: untouched, or jumped to the base of a trimmed log by their own consumer. */
  ghost predicate OnlyJumps(before: Store, after: Store, consumer: string) {
    forall key: string ::
      || Acked(after, key) == Acked(before, key)
      || Jumped(before, after, key, consumer)
  }

  ghost predicate Jumped(before: Store, after: Store, key: string, consumer: string) {
    exists name: string ::
      && '/' !in name && key == JoinKey(name, consumer) && name in before.logs
      && Acked(before, key) < before.logs[name].base && Acked(after, key) == before.logs[name].base
  }

  ghost predicate SameBases(before: Store, after: Store) {
    && (forall name | name in before.logs :: name in after.logs && after.logs[name].base == before.logs[name].base)
    && (forall name | name in after.logs && name !in before.logs :: after.logs[name].base == 0)
  }

  lemma AskQueueKeeps(st: Store, cfg: Cfg, name: string, now: nat)
    ensures AskQueue(st, cfg, name, now).st.cursors == st.cursors
    ensures SameBases(st, AskQueue(st, cfg, name, now).st)
  {
  }

  lemma AskReaderJumps(st: Store, consumer: string, name: string)
    requires '/' !in name
    ensures
      var (st', acked) := AskReader(st, consumer, name);
      && st'.logs == st.logs && OnlyJumps(st, st', consumer)
      && (acked.Some? ==> acked.value == Acked(st', JoinKey(name, consumer)) && name in st.logs && acked.value < st.logs[name].last)
  {
    var (st', acked) := AskReader(st, consumer, name);
    forall key: string ensures Acked(st', key) == Acked(st, key) || Jumped(st, st', key, consumer) {
      if Acked(st', key) != Acked(st, key) { assert key == JoinKey(name, consumer); }
    }
  }

  lemma JumpsCompose(a: Store, b: Store, c: Store, consumer: string)
    requires OnlyJumps(a, b, consumer) && OnlyJumps(b, c, consumer) && SameBases(a, b)
    ensures OnlyJumps(a, c, consumer)
  {
    forall key: string ensures Acked(c, key) == Acked(a, key) || Jumped(a, c, key, consumer) {
      if Acked(c, key) != Acked(b, key) {
        var name: string :| '/' !in name && key == JoinKey(name, consumer) && name in b.logs
          && Acked(b, key) < b.logs[name].base && Acked(c, key) == b.logs[name].base;
        if Acked(b, key) != Acked(a, key) {
          var other: string :| '/' !in other && key == JoinKey(other, consumer) && other in a.logs
            && Acked(a, key) < a.logs[other].base && Acked(b, key) == a.logs[other].base;
          JoinKeyInjective(name, consumer, other, consumer);
        }
        assert name in a.logs;
      } else if Acked(b, key) != Acked(a, key) {
        var name: string :| '/' !in name && key == JoinKey(name, consumer) && name in a.logs
          && Acked(a, key) < a.logs[name].base && Acked(b, key) == a.logs[name].base;
      }
    }
  }

  lemma NoJumps(st: Store, st': Store, consumer: string)
    requires st'.cursors == st.cursors
    ensures OnlyJumps(st, st', consumer)
  {
  }

  lemma AfterAskPlain(w: World, name: string, a: Asked)
    requires PlainNames(w.names)
    ensures PlainNames(AfterAsk(w, name, a).names)
  {
    if DeadName(name).Some? { NameHasNoSlash(DeadName(name).value); }
  }

  /** What starting a delivery does to receipts, and where the delivery picks up. */
  ghost predicate Picks(w: World, k: nat, o: Out)
    requires k < |w.subs|
  {
    && |o.w.subs| == |w.subs|
    && OnlyJumps(w.store, o.w.store, w.subs[k].consumer)
    && SameBases(w.store, o.w.store)
    && PlainNames(o.w.names)
    && PicksUp(o.w.store, o.w.subs[k])
  }

  lemma PicksVia(w: World, w1: World, k: nat, o: Out)
    requires k < |w.subs| && |w1.subs| == |w.subs| && w1.subs[k].consumer == w.subs[k].consumer
    requires OnlyJumps(w.store, w1.store, w.subs[k].consumer) && SameBases(w.store, w1.store)
    requires Picks(w1, k, o)
    ensures Picks(w, k, o)
  {
    JumpsCompose(w.store, w1.store, o.w.store, w.subs[k].consumer);
  }

  lemma TryWorkerPicks(w: World, k: nat, i: nat, env: Env)
    requires k < |w.subs| && i < |w.names| && !w.subs[k].inflight && IsWorker(w.subs[k]) && PlainNames(w.names)
    ensures var t := TryWorker(w, k, i, env); Picks(w, k, Out(t.w, false))
  {
    var a := AskQueue(w.store, w.subs[k].cfg, w.names[i], env.now);
    AskQueueKeeps(w.store, w.subs[k].cfg, w.names[i], env.now);
    AfterAskPlain(w, w.names[i], a);
    NoJumps(w.store, a.st, w.subs[k].consumer);
  }

  lemma TryReaderPicks(w: World, k: nat, i: nat, env: Env)
    requires k < |w.subs| && i < |w.names| && !w.subs[k].inflight && PlainNames(w.names)
    ensures var t := TryReader(w, k, i, env); Picks(w, k, Out(t.w, false))
  {
    assert w.names[i] in w.names;
    AskReaderJumps(w.store, w.subs[k].consumer, w.names[i]);
  }

  lemma {:induction false} StartPicks(w: World, k: nat, n: nat, env: Env)
    requires k < |w.subs| && !w.subs[k].inflight && PlainNames(w.names)
    ensures Picks(w, k, StartFrom(w, k, n, env))
    decreases LeftToAsk(w.names, n)
  {
    NoJumps(w.store, w.store, w.subs[k].consumer);
    if n < |w.names| {
      var i := Position(w, k, n);
      if Covers(w.subs[k].cfg.pattern, w.names[i]) {
        if IsWorker(w.subs[k]) { TryWorkerPicks(w, k, i, env); } else { TryReaderPicks(w, k, i, env); }
      }
      TryShape(w, k, i, env);
      TryLeavesLess(w, k, i, n, env);
      var t := TryName(w, k, i, env);
      if t.GoOn? {
        StartPicks(t.w, k, n + 1, env);
        PicksVia(w, t.w, k, StartFrom(t.w, k, n + 1, env));
      }
    }
  }

  // ---- the pump ---------------------------------------------------------------------------

  /** A pass never turns `work` off by itself. */
  lemma {:induction false} PassWorks(p: Pass, k: nat, env: Env)
    requires p.w.work
    ensures PassFrom(p, k, env).w.work
    decreases |p.w.subs| - k
  {
    if k < |p.w.subs| {
      var s := p.w.subs[k];
      if s.gone {
        PassWorks(p, k + 1, env);
      } else if s.inflight || s.due > env.now {
        PassWorks(p.(busy := true), k + 1, env);
      } else {
        var w0 := p.w.(subs := p.w.subs[k := p.w.subs[k].(wake := 0)]);
        StartShape(w0, k, 0, env);
        var o := StartDelivery(p.w, k, env);
        PassWorks(Pass(o.w, p.started || o.started, p.busy || o.w.subs[k].wake != 0), k + 1, env);
      }
    }
  }

  /** Receipts of consumers other than `consumer` do not move by its jumps. */
  lemma OthersUntouched(before: Store, after: Store, consumer: string, s: Sub)
    requires OnlyJumps(before, after, consumer) && s.consumer != consumer && '/' !in s.subject
    ensures Acked(after, KeyOf(s)) == Acked(before, KeyOf(s))
  {
    if Jumped(before, after, KeyOf(s), consumer) {
      var name: string :| '/' !in name && KeyOf(s) == JoinKey(name, consumer) && name in before.logs
        && Acked(before, KeyOf(s)) < before.logs[name].base && Acked(after, KeyOf(s)) == before.logs[name].base;
      JoinKeyInjective(s.subject, s.consumer, name, consumer);
      assert false;
    }
  }

  /** Replacing one subscription by another with the same core keeps the counted facts. */
  lemma UpdateCounted(w: World, k: nat, s: Sub, w': World)
    requires Counted(w) && k < |w.subs|
    requires s.id == w.subs[k].id && s.consumer == w.subs[k].consumer && (w.subs[k].gone ==> s.gone) && (s.gone ==> s.inflight)
    requires w'.subs == w.subs[k := s] && w'.inflight == w.inflight - Bit(w.subs[k].inflight) + Bit(s.inflight)
    ensures Counted(w')
  {
    InFlightUpdate(w.subs, k, s);
  }

  lemma StartInv(w: World, k: nat, env: Env)
    requires Inv(w) && k < |w.subs| && !w.subs[k].inflight
    ensures Inv(StartDelivery(w, k, env).w)
    ensures Shape(w, k, StartDelivery(w, k, env)) && Picks(w, k, StartDelivery(w, k, env))
  {
    var w0 := w.(subs := w.subs[k := w.subs[k].(wake := 0)]);
    var o := StartFrom(w0, k, 0, env);
    StartShape(w0, k, 0, env);
    StartPicks(w0, k, 0, env);
    ShapeVia(w, w0, k, o);
    UpdateCounted(w, k, o.w.subs[k], o.w);
    forall j | 0 <= j < |o.w.subs| ensures PicksUp(o.w.store, o.w.subs[j]) {
      if j != k && Delivering(w.subs[j]) {
        assert PicksUp(w.store, w.subs[j]);
        assert !w.subs[k].gone;
        OthersUntouched(w.store, o.w.store, w.subs[k].consumer, w.subs[j]);
      }
    }
  }

  /** Over a whole pass every receipt is where it was, or at the base it jumped to. */
  ghost predicate JumpsOnly(before: Store, after: Store) {
    forall key: string ::
      Acked(after, key) == Acked(before, key) || exists consumer: string :: Jumped(before, after, key, consumer)
  }

  lemma JumpsOnlyCompose(a: Store, b: Store, c: Store, consumer: string)
    requires JumpsOnly(a, b) && SameBases(a, b) && OnlyJumps(b, c, consumer)
    ensures JumpsOnly(a, c)
  {
    forall key: string ensures Acked(c, key) == Acked(a, key) || exists d: string :: Jumped(a, c, key, d) {
      if Acked(c, key) != Acked(b, key) {
        var name: string :| '/' !in name && key == JoinKey(name, consumer) && name in b.logs
          && Acked(b, key) < b.logs[name].base && Acked(c, key) == b.logs[name].base;
        if Acked(b, key) != Acked(a, key) {
          var d: string :| Jumped(a, b, key, d);
          var other: string :| '/' !in other && key == JoinKey(other, d) && other in a.logs
            && Acked(a, key) < a.logs[other].base && Acked(b, key) == a.logs[other].base;
          JoinKeyInjective(name, consumer, other, d);
          assert false;
        }
        assert name in a.logs;
        assert Jumped(a, c, key, consumer);
      } else if Acked(b, key) != Acked(a, key) {
        var d: string :| Jumped(a, b, key, d);
        assert Jumped(a, c, key, d);
      }
    }
  }

  lemma SameBasesCompose(a: Store, b: Store, c: Store)
    requires SameBases(a, b) && SameBases(b, c)
    ensures SameBases(a, c)
  {
  }

  lemma {:induction false} PassInv(w: World, p: Pass, k: nat, env: Env)
    requires Inv(p.w) && JumpsOnly(w.store, p.w.store) && SameBases(w.store, p.w.store)
    ensures Inv(PassFrom(p, k, env).w) && JumpsOnly(w.store, PassFrom(p, k, env).w.store)
    decreases |p.w.subs| - k
  {
    if k < |p.w.subs| {
      var s := p.w.subs[k];
      if s.gone {
        PassInv(w, p, k + 1, env);
      } else if s.inflight || s.due > env.now {
        PassInv(w, p.(busy := true), k + 1, env);
      } else {
        var o := StartDelivery(p.w, k, env);
        StartInv(p.w, k, env);
        JumpsOnlyCompose(w.store, p.w.store, o.w.store, s.consumer);
        SameBasesCompose(w.store, p.w.store, o.w.store);
        PassInv(w, Pass(o.w, p.started || o.started, p.busy || o.w.subs[k].wake != 0), k + 1, env);
      }
    }
  }

  lemma PumpInv(w: World, env: Env)
    requires Inv(w)
    ensures Inv(Pump(w, env)) && JumpsOnly(w.store, Pump(w, env).store)
  {
    if w.work { PassInv(w, Pass(w, false, false), 0, env); }
  }

  // ---- completion and registration ----------------------------------------------------------

  lemma SwapOutEntry(subs: seq<Sub>, k: nat, j: nat)
    requires k < |subs| && j < |subs| - 1
    ensures SwapOut(subs, k)[j] == if j == k then subs[|subs| - 1] else subs[j]
  {
  }

  lemma SwapOutCounted(w: World, k: nat, w': World)
    requires Counted(w) && k < |w.subs|
    requires w'.subs == SwapOut(w.subs, k) && w'.inflight == w.inflight - Bit(w.subs[k].inflight)
    ensures Counted(w')
  {
    InFlightSwapOut(w.subs, k);
    assert forall j | 0 <= j < |w'.subs| :: w'.subs[j] == if j == k then w.subs[|w.subs| - 1] else w.subs[j];
  }

  /** What a completion acknowledges, if anything: a 2xx answer to a live reader that took something. */
  predicate Takes(s: Sub, report: Report) {
    && !s.gone && !IsWorker(s) && report.answer.Answered? && 200 <= report.answer.status < 300
    && (report.ack.Some? ==> s.first <= report.ack.value) && s.first <= s.last
  }

  /** A completion moves one receipt at most, and moves it exactly over the part of the batch that was taken. */
  lemma CompleteReceipts(w: World, k: nat, report: Report, now: nat)
    requires Inv(w) && k < |w.subs| && w.subs[k].inflight
    ensures
      var s, st := w.subs[k], Complete(w, k, report, now).store;
      if Takes(s, report) then
        && Acked(w.store, KeyOf(s)) == s.first - 1
        && s.first <= AckedTo(s, report) <= s.last
        && st == w.store.(cursors := w.store.cursors[KeyOf(s) := AckedTo(s, report)])
      else st.cursors == w.store.cursors
  {
    assert PicksUp(w.store, w.subs[k]);
  }

  lemma CompleteCounted(w: World, k: nat, report: Report, now: nat)
    requires Counted(w) && k < |w.subs| && w.subs[k].inflight
    ensures Counted(Complete(w, k, report, now))
  {
    var s := w.subs[k];
    var w' := Complete(w, k, report, now);
    if s.gone {
      SwapOutCounted(w, k, w');
      assert SwapOut(w.subs[k := s.(inflight := false)], k) == SwapOut(w.subs, k);
    } else {
      assert w'.subs == w.subs[k := w'.subs[k]];
      UpdateCounted(w, k, w'.subs[k], w');
    }
  }

  /** Two live deliveries are never of the same subject for the same consumer. */
  lemma KeysDiffer(w: World, k: nat, i: nat)
    requires Inv(w) && k < |w.subs| && i < |w.subs| && i != k && Delivering(w.subs[k]) && Delivering(w.subs[i])
    ensures KeyOf(w.subs[i]) != KeyOf(w.subs[k])
  {
    assert PicksUp(w.store, w.subs[k]) && PicksUp(w.store, w.subs[i]);
    if KeyOf(w.subs[i]) == KeyOf(w.subs[k]) {
      JoinKeyInjective(w.subs[k].subject, w.subs[k].consumer, w.subs[i].subject, w.subs[i].consumer);
      assert false;
    }
  }

  lemma CompletePicks(w: World, k: nat, report: Report, now: nat)
    requires Inv(w) && k < |w.subs| && w.subs[k].inflight
    ensures AllPickUp(Complete(w, k, report, now))
  {
    var s := w.subs[k];
    var w' := Complete(w, k, report, now);
    CompleteReceipts(w, k, report, now);
    forall j | 0 <= j < |w'.subs| ensures PicksUp(w'.store, w'.subs[j]) {
      var i := if s.gone && j == k then |w.subs| - 1 else j;
      if !s.gone && j == k {
        assert !w'.subs[j].inflight;
      } else {
        assert w'.subs[j] == w.subs[i];
        assert PicksUp(w.store, w.subs[i]);
        if Takes(s, report) && Delivering(w.subs[i]) { KeysDiffer(w, k, i); }
      }
    }
  }

  lemma AddCounted(w: World, id: nat, consumer: string, cfg: Cfg)
    requires Counted(w) && Allowed(w, DoAdd(id, consumer, cfg))
    ensures Counted(Add(w, id, consumer, cfg))
  {
    var k := FindLive(w.subs, consumer);
    if k < |w.subs| {
      UpdateCounted(w, k, w.subs[k].(cfg := cfg), Add(w, id, consumer, cfg));
    } else {
      InFlightAppend(w.subs, NewSub(id, consumer, cfg));
    }
  }

  lemma AddInv(w: World, id: nat, consumer: string, cfg: Cfg)
    requires Inv(w) && Allowed(w, DoAdd(id, consumer, cfg))
    ensures Inv(Add(w, id, consumer, cfg))
  {
    AddCounted(w, id, consumer, cfg);
    var k := FindLive(w.subs, consumer);
    if k < |w.subs| { assert PicksUp(w.store, w.subs[k]); }
  }

  lemma RemoveCounted(w: World, consumer: string)
    requires Counted(w)
    ensures Counted(Remove(w, consumer))
  {
    var k := FindAny(w.subs, consumer);
    if k < |w.subs| {
      if w.subs[k].inflight {
        UpdateCounted(w, k, w.subs[k].(gone := true), Remove(w, consumer));
      } else {
        SwapOutCounted(w, k, Remove(w, consumer));
      }
    }
  }

  lemma RemoveInv(w: World, consumer: string)
    requires Inv(w)
    ensures Inv(Remove(w, consumer))
  {
    RemoveCounted(w, consumer);
    var k := FindAny(w.subs, consumer);
    var w' := Remove(w, consumer);
    if k < |w.subs| && !w.subs[k].inflight {
      forall j | 0 <= j < |w'.subs| ensures PicksUp(w'.store, w'.subs[j]) {
        SwapOutEntry(w.subs, k, j);
      }
    }
  }

  /**
   Removing a consumer does not skip entries already deleted: it leaves a live
   subscription behind exactly when a deleted one of the same consumer, still
   waiting for its delivery, comes before the live one.
   */
  lemma RemoveIsCompleteExactly(w: World, consumer: string)
    requires Counted(w)
    ensures
      var subs' := Remove(w, consumer).subs;
      FindLive(subs', consumer) == |subs'| <==> !(FindAny(w.subs, consumer) < FindLive(w.subs, consumer) < |w.subs|)
  {
    var k, live := FindAny(w.subs, consumer), FindLive(w.subs, consumer);
    var subs' := Remove(w, consumer).subs;
    if k < live < |w.subs| {
      assert w.subs[k].gone && w.subs[k].inflight;
      assert !subs'[live].gone && subs'[live].consumer == consumer;
    } else {
      forall j | 0 <= j < |subs'| ensures subs'[j].gone || subs'[j].consumer != consumer {
        if k < |w.subs| && !w.subs[k].inflight { SwapOutEntry(w.subs, k, j); }
      }
    }
  }

  /** And it happens: remove, add and remove again while one delivery is under way leave the new subscription live. */
  lemma RemoveAddRemove(w: World, consumer: string, id: nat, cfg: Cfg)
    requires Counted(w)
    requires FindLive(w.subs, consumer) < |w.subs| && w.subs[FindLive(w.subs, consumer)].inflight
    requires FindAny(w.subs, consumer) == FindLive(w.subs, consumer)
    ensures
      var w' := Remove(Add(Remove(w, consumer), id, consumer, cfg), consumer);
      w'.subs[FindLive(w'.subs, consumer)..] == [NewSub(id, consumer, cfg)]
  {
    var k := FindAny(w.subs, consumer);
    var subs1 := w.subs[k := w.subs[k].(gone := true)];
    assert Remove(w, consumer).subs == subs1;
    assert FindLive(subs1, consumer) == |subs1|;
    var subs2 := subs1 + [NewSub(id, consumer, cfg)];
    assert Add(Remove(w, consumer), id, consumer, cfg).subs == subs2;
    assert subs2[k].consumer == consumer && forall j | 0 <= j < k :: subs2[j] == w.subs[j];
    assert FindAny(subs2, consumer) == k;
    assert subs2[k := subs2[k].(gone := true)] == subs2;
    assert !subs2[|subs1|].gone && subs2[|subs1|].consumer == consumer;
    assert forall j | 0 <= j < |subs1| :: subs2[j] == subs1[j];
    assert FindLive(subs2, consumer) == |subs1|;
  }

  lemma {:induction false} SeedReceipts(st: Store, names: seq<string>, n: nat, consumer: string, pattern: string, atEnd: bool, from: nat, key: string)
    requires n <= |names|
    ensures
      var st' := SeedFirst(st, names, n, consumer, pattern, atEnd, from);
      && (key in st.cursors ==> key in st'.cursors && st'.cursors[key] == st.cursors[key])
      && (Acked(st', key) != Acked(st, key) ==> exists i | 0 <= i < n :: key == JoinKey(names[i], consumer))
  {
    if n > 0 { SeedReceipts(st, names, n - 1, consumer, pattern, atEnd, from, key); }
  }

  /** Where seeding leaves each subject it covers: an old receipt stands, a missing one is placed as asked. */
  lemma {:induction false} SeedPlaces(st: Store, names: seq<string>, n: nat, consumer: string, pattern: string, atEnd: bool, from: nat, name: string)
    requires n <= |names| && PlainNames(names) && name in names[..n] && Covers(pattern, name)
    ensures
      var st', key := SeedFirst(st, names, n, consumer, pattern, atEnd, from), JoinKey(name, consumer);
      && key in st'.cursors
      && st'.cursors[key] == (if key in st.cursors then st.cursors[key] else if atEnd then LogOf(st, name).last else if from > 1 then from - 1 else 0)
      && st'.logs == st.logs
  {
    var last, st1 := names[n - 1], SeedFirst(st, names, n - 1, consumer, pattern, atEnd, from);
    var key := JoinKey(name, consumer);
    assert names[..n] == names[..n - 1] + [last];
    SeedReceipts(st, names, n - 1, consumer, pattern, atEnd, from, key);
    SeedLogs(st, names, n - 1, consumer, pattern, atEnd, from);
    if name in names[..n - 1] {
      SeedPlaces(st, names, n - 1, consumer, pattern, atEnd, from, name);
    } else if key !in st.cursors && key in st1.cursors {
      SeedOnly(st, names, n - 1, consumer, pattern, atEnd, from, name);
    }
  }

  lemma {:induction false} SeedLogs(st: Store, names: seq<string>, n: nat, consumer: string, pattern: string, atEnd: bool, from: nat)
    requires n <= |names|
    ensures SeedFirst(st, names, n, consumer, pattern, atEnd, from).logs == st.logs
    ensures SeedFirst(st, names, n, consumer, pattern, atEnd, from).groups == st.groups
  {
    if n > 0 { SeedLogs(st, names, n - 1, consumer, pattern, atEnd, from); }
  }

  /** No receipt appears for a subject that was not gone over. */
  lemma {:induction false} SeedOnly(st: Store, names: seq<string>, n: nat, consumer: string, pattern: string, atEnd: bool, from: nat, name: string)
    requires n <= |names| && PlainNames(names) && '/' !in name && name !in names[..n]
    ensures JoinKey(name, consumer) in SeedFirst(st, names, n, consumer, pattern, atEnd, from).cursors
       <==> JoinKey(name, consumer) in st.cursors
  {
    if n > 0 {
      assert names[..n] == names[..n - 1] + [names[n - 1]];
      SeedOnly(st, names, n - 1, consumer, pattern, atEnd, from, name);
      assert names[n - 1] in names;
      if JoinKey(names[n - 1], consumer) == JoinKey(name, consumer) {
        JoinKeyInjective(names[n - 1], consumer, name, consumer);
        assert false;
      }
    }
  }

  /** An unanswered delivery of jobs changes nothing stored; an answered one settles its own group and no other. */
  lemma WorkerSettles(w: World, k: nat, report: Report, now: nat)
    requires k < |w.subs| && !w.subs[k].gone && IsWorker(w.subs[k])
    ensures
      var s, st := w.subs[k], Complete(w, k, report, now).store;
      var key := JoinKey(s.subject, s.cfg.group);
      && (report.answer.Unreached? ==> st == w.store)
      && (forall other: string | other != key :: other in st.groups <==> other in w.store.groups)
      && (forall other: string | other != key && other in st.groups :: st.groups[other] == w.store.groups[other])
      && (key in w.store.groups ==>
            key in st.groups && st.groups[key] == Settle(w.store.groups[key], s.jobs, report.answer, now))
      && st.logs == w.store.logs && st.cursors == w.store.cursors
  {
  }

  lemma SeedInv(w: World, consumer: string, pattern: string, atEnd: bool, from: nat)
    requires Inv(w) && Allowed(w, DoSeed(consumer, pattern, atEnd, from))
    ensures Inv(Seed(w, consumer, pattern, atEnd, from))
  {
    var w' := Seed(w, consumer, pattern, atEnd, from);
    forall j | 0 <= j < |w'.subs| ensures PicksUp(w'.store, w'.subs[j]) {
      var s := w.subs[j];
      assert PicksUp(w.store, s);
      SeedReceipts(w.store, w.names, |w.names|, consumer, pattern, atEnd, from, KeyOf(s));
      if Delivering(s) && Acked(w'.store, KeyOf(s)) != Acked(w.store, KeyOf(s)) {
        var i :| 0 <= i < |w.names| && KeyOf(s) == JoinKey(w.names[i], consumer);
        assert w.names[i] in w.names;
        JoinKeyInjective(s.subject, s.consumer, w.names[i], consumer);
        assert false;
      }
    }
  }

  lemma MovedInv(w: World, m: Move)
    requires Inv(w) && Allowed(w, m) && !m.DoAck?
    ensures Inv(Moved(w, m))
  {
    match m
    case DoAdd(id, consumer, cfg) => AddInv(w, id, consumer, cfg);
    case DoRemove(consumer) => RemoveInv(w, consumer);
    case DoSeed(consumer, pattern, atEnd, from) => SeedInv(w, consumer, pattern, atEnd, from);
    case DoPump(env) => PumpInv(w, env);
    case DoFinish(id, report, now) =>
      CompleteCounted(w, FindId(w.subs, id), report, now);
      CompletePicks(w, FindId(w.subs, id), report, now);
    case DoAck(_, _) =>
    case _ =>
      forall j | 0 <= j < |w.subs| ensures PicksUp(Moved(w, m).store, w.subs[j]) {
        assert PicksUp(w.store, w.subs[j]);
      }
  }

  // ---- runs ------------------------------------------------------------------------------------

  function Run(w: World, moves: seq<Move>): Option<World> {
    if moves == [] then Some(w)
    else
      var before := Run(w, moves[..|moves| - 1]);
      var m := moves[|moves| - 1];
      if before.Some? && Allowed(before.value, m) then Some(Moved(before.value, m)) else None
  }

  ghost predicate NoManualAcks(moves: seq<Move>) {
    forall i | 0 <= i < |moves| :: !moves[i].DoAck?
  }

  /** An engine just started: nothing on its way, one live entry per registered consumer. */
  ghost predicate JustStarted(w: World) {
    && w.inflight == 0 && PlainNames(w.names)
    && (forall k | 0 <= k < |w.subs| :: !w.subs[k].inflight && !w.subs[k].gone)
    && IdsDistinct(w.subs) && LiveUnique(w.subs)
  }

  lemma {:induction false} NoneInFlight(subs: seq<Sub>)
    requires forall k | 0 <= k < |subs| :: !subs[k].inflight
    ensures InFlight(subs) == 0
  {
    if subs != [] { NoneInFlight(subs[..|subs| - 1]); }
  }

  lemma {:induction false} RunInv(w: World, moves: seq<Move>)
    requires JustStarted(w) && Run(w, moves).Some? && NoManualAcks(moves)
    ensures Inv(Run(w, moves).value)
  {
    if moves == [] {
      NoneInFlight(w.subs);
    } else {
      RunInv(w, moves[..|moves| - 1]);
      MovedInv(Run(w, moves[..|moves| - 1]).value, moves[|moves| - 1]);
    }
  }

  lemma StartCounted(w: World, k: nat, env: Env)
    requires Counted(w) && k < |w.subs| && !w.subs[k].inflight
    ensures Counted(StartDelivery(w, k, env).w)
  {
    var w0 := w.(subs := w.subs[k := w.subs[k].(wake := 0)]);
    var o := StartFrom(w0, k, 0, env);
    StartShape(w0, k, 0, env);
    ShapeVia(w, w0, k, o);
    UpdateCounted(w, k, o.w.subs[k], o.w);
  }

  lemma {:induction false} PassCounted(p: Pass, k: nat, env: Env)
    requires Counted(p.w)
    ensures Counted(PassFrom(p, k, env).w)
    decreases |p.w.subs| - k
  {
    hide PushModel.StartDelivery, Counted;
    if k < |p.w.subs| {
      var s := p.w.subs[k];
      if s.gone {
        PassCounted(p, k + 1, env);
      } else if s.inflight || s.due > env.now {
        PassCounted(p.(busy := true), k + 1, env);
      } else {
        var o := StartDelivery(p.w, k, env);
        StartCounted(p.w, k, env);
        PassCounted(Pass(o.w, p.started || o.started, p.busy || o.w.subs[k].wake != 0), k + 1, env);
      }
    }
  }

  /** Every move keeps the count, manual acknowledgements included. */
  lemma MovedCounted(w: World, m: Move)
    requires Counted(w) && Allowed(w, m)
    ensures Counted(Moved(w, m))
  {
    match m
    case DoAdd(id, consumer, cfg) => AddCounted(w, id, consumer, cfg);
    case DoRemove(consumer) => RemoveCounted(w, consumer);
    case DoPump(env) => if w.work { PassCounted(Pass(w, false, false), 0, env); }
    case DoFinish(id, report, now) => CompleteCounted(w, FindId(w.subs, id), report, now);
    case _ =>
  }

  lemma {:induction false} RunCounted(w: World, moves: seq<Move>)
    requires JustStarted(w) && Run(w, moves).Some?
    ensures Counted(Run(w, moves).value)
  {
    if moves == [] {
      NoneInFlight(w.subs);
    } else {
      RunCounted(w, moves[..|moves| - 1]);
      MovedCounted(Run(w, moves[..|moves| - 1]).value, moves[|moves| - 1]);
    }
  }

  /** The counter always equals the number of deliveries under way, and a consumer has one live subscription at most. */
  lemma CounterIsExact(w: World, moves: seq<Move>)
    requires JustStarted(w) && Run(w, moves).Some?
    ensures var w' := Run(w, moves).value;
            w'.inflight == InFlight(w'.subs) && LiveUnique(w'.subs)
  {
    RunCounted(w, moves);
  }

  // ---- the receipts tile the log ---------------------------------------------------------------------

  /** How one receipt moved. */
  datatype Piece =
    /** first..last of a batch first..batchLast was taken. */
    | Taken(first: nat, last: nat, batchLast: nat)
    /** The receipt jumped over from+1..end; `base` is where the subject's log began at that move. */
    | Gap(from: nat, end: nat, base: nat)
    /** A new subscription was placed. */
    | Placed(at: nat)

  /** The subject a receipt's key is about. */
  function SubjectOf(key: string): string { key[..FirstSlash(key)] }

  /** What a move says it does to `key`: for a completion, told by the delivery, not by the receipt. */
  function PieceOf(w: World, m: Move, key: string): Option<Piece>
    requires Allowed(w, m)
  {
    match m
    case DoFinish(id, report, _) =>
      var s := w.subs[FindId(w.subs, id)];
      if Takes(s, report) && KeyOf(s) == key then Some(Taken(s.first, AckedTo(s, report), s.last)) else None
    case DoPump(env) =>
      var now := Acked(Pump(w, env).store, key);
      if now != Acked(w.store, key) then Some(Gap(Acked(w.store, key), now, LogOf(w.store, SubjectOf(key)).base)) else None
    case DoSeed(consumer, pattern, atEnd, from) =>
      var now := Acked(Seed(w, consumer, pattern, atEnd, from).store, key);
      if now != Acked(w.store, key) then Some(Placed(now)) else None
    case _ => None
  }

  function Pieces(w: World, moves: seq<Move>, key: string): seq<Piece> {
    if moves == [] then []
    else
      var init, m := moves[..|moves| - 1], moves[|moves| - 1];
      var before := Run(w, init);
      Pieces(w, init, key) +
      if before.Some? && Allowed(before.value, m) && PieceOf(before.value, m, key).Some?
      then [PieceOf(before.value, m, key).value] else []
  }

  /** Laying the pieces end to end; `None` when one does not fit. */
  function Laid(start: nat, pieces: seq<Piece>): Option<nat> {
    if pieces == [] then Some(start)
    else
      var at := Laid(start, pieces[..|pieces| - 1]);
      if at.None? then None
      else
        match pieces[|pieces| - 1]
        case Taken(first, last, batchLast) =>
          if first == at.value + 1 && first <= last <= batchLast then Some(last) else None
        case Gap(from, end, base) => if from == at.value && from < end == base then Some(end) else None
        case Placed(to) => if at.value == 0 then Some(to) else None
  }

  lemma SubjectOfKey(name: string, consumer: string)
    requires '/' !in name
    ensures FirstSlash(JoinKey(name, consumer)) <= |JoinKey(name, consumer)| && SubjectOf(JoinKey(name, consumer)) == name
  {
    FirstSlashOfKey(name, consumer);
  }

  lemma PieceFits(w: World, m: Move, key: string)
    requires Inv(w) && Allowed(w, m) && !m.DoAck?
    ensures
      var was, end := Acked(w.store, key), Acked(Moved(w, m).store, key);
      match PieceOf(w, m, key)
      case None => end == was
      case Some(Taken(first, last, batchLast)) => first == was + 1 && first <= last <= batchLast && end == last
      case Some(Gap(from, to, base)) =>
        && from == was < base == to == end
        && SubjectOf(key) in w.store.logs && w.store.logs[SubjectOf(key)].base == base
      case Some(Placed(to)) => was == 0 && end == to
  {
    match m
    case DoFinish(id, report, now) =>
      CompleteReceipts(w, FindId(w.subs, id), report, now);
    case DoPump(env) =>
      PumpInv(w, env);
      if Acked(Pump(w, env).store, key) != Acked(w.store, key) {
        var consumer: string :| Jumped(w.store, Pump(w, env).store, key, consumer);
        var name: string :| '/' !in name && key == JoinKey(name, consumer) && name in w.store.logs
          && Acked(w.store, key) < w.store.logs[name].base && Acked(Pump(w, env).store, key) == w.store.logs[name].base;
        SubjectOfKey(name, consumer);
      }
    case DoSeed(consumer, pattern, atEnd, from) =>
      SeedReceipts(w.store, w.names, |w.names|, consumer, pattern, atEnd, from, key);
    case _ =>
  }

  /**
   Receipts tile the log.  In every run, what was taken of a subject for a
   consumer is laid end to end, in order, without overlap, each piece inside a
   batch that was answered 2xx; the only thing skipped is what a trim had
   already removed; and where the pieces end is where the receipt stands.
   */
  lemma {:induction false} ReceiptsTile(w: World, moves: seq<Move>, key: string)
    requires JustStarted(w) && Run(w, moves).Some? && NoManualAcks(moves)
    ensures Laid(Acked(w.store, key), Pieces(w, moves, key)) == Some(Acked(Run(w, moves).value.store, key))
  {
    if moves != [] {
      var init, m := moves[..|moves| - 1], moves[|moves| - 1];
      ReceiptsTile(w, init, key);
      RunInv(w, init);
      var t := Run(w, init).value;
      PieceFits(t, m, key);
      var before := Pieces(w, init, key);
      if PieceOf(t, m, key).Some? {
        assert Pieces(w, moves, key) == before + [PieceOf(t, m, key).value];
        LaidAppend(Acked(w.store, key), before, PieceOf(t, m, key).value);
      } else {
        assert Pieces(w, moves, key) == before;
      }
    }
  }

  lemma LaidAppend(start: nat, pieces: seq<Piece>, piece: Piece)
    requires Laid(start, pieces).Some?
    ensures
      var at := Laid(start, pieces).value;
      Laid(start, pieces + [piece]) ==
        match piece
        case Taken(first, last, batchLast) => if first == at + 1 && first <= last <= batchLast then Some(last) else None
        case Gap(from, end, base) => if from == at && from < end == base then Some(end) else None
        case Placed(to) => if at == 0 then Some(to) else None
  {
    assert (pieces + [piece])[..|pieces|] == pieces;
  }
}
