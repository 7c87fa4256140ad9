/**
 The delivery engine of src/push.c as values: what it keeps, what it asks of
 the store, and what each of its operations does.

 A subscription is either a reader (no group: it is sent the log from its
 receipt on) or a worker (a group: it is sent leased jobs).
 */
module PushModel {
  import opened Options
  import opened Words
  import opened Queue
  import opened Names
  import opened Receipts
  import opened Settlement

  const TICK_MS: int := 2
  const IDLE_MS: int := 1000
  const BACKOFF_MS: nat := 500
  const MAX_PUSH_BACKOFF_MS: nat := 30000

  /** The log holds (base, last]. */
  datatype Range = Range(base: nat, last: nat)

  /** What the engine reads and writes of the store. */
  datatype Store = Store(logs: map<string, Range>, cursors: map<string, nat>, groups: map<string, QRec>)

  datatype Cfg = Cfg(pattern: string, group: string, maxJobs: nat)

  /** One psub; `id` stands for its address. */
  datatype Sub = Sub(
    id: nat, consumer: string, cfg: Cfg, inflight: bool, gone: bool,
    subject: string, first: nat, last: nat, jobs: seq<nat>,
    due: nat, wake: nat, failures: nat, rr: nat)

  datatype World = World(subs: seq<Sub>, names: seq<string>, work: bool, inflight: int, store: Store)

  /** What the engine cannot know: the clock, whether a send starts, how much a read returns. */
  datatype Env = Env(now: nat, sends: nat -> bool, batch: nat -> nat)

  /** A world, and whether a delivery was started on the way. */
  datatype Out = Out(w: World, started: bool)

  predicate IsWorker(s: Sub) { s.cfg.group != "" }

  predicate Covers(pattern: string, name: string) {
    if HasWildcard(pattern) then TokensMatch(Tokens(pattern, 0), Tokens(name, 0)) else pattern == name
  }

  function AddName(names: seq<string>, name: string): (r: seq<string>)
    ensures names <= r && name in r && |r| <= |names| + 1
  {
    if name in names then names else names + [name]
  }

  // ---- asking the store ------------------------------------------------------

  function Acked(st: Store, key: string): nat {
    if key in st.cursors then st.cursors[key] else 0
  }

  function SetCursor(st: Store, key: string, index: nat): Store {
    st.(cursors := CursorSet(st.cursors, key, index))
  }

  /** What a reader has to send of one subject: its log from after the receipt, skipping what was trimmed. */
  function AskReader(st: Store, consumer: string, name: string): (Store, Option<nat>) {
    var key := JoinKey(name, consumer);
    if name !in st.logs || st.logs[name].last <= Acked(st, key) then (st, None)
    else if Acked(st, key) < st.logs[name].base then
      var st1 := SetCursor(st, key, st.logs[name].base);
      if st.logs[name].last <= st.logs[name].base then (st1, None) else (st1, Some(st.logs[name].base))
    else (st, Some(Acked(st, key)))
  }

  /** bjm_read's byte budget stops somewhere after the first entry. */
  function BatchSize(wanted: nat, available: nat): nat
    requires available > 0
  {
    if wanted < 1 then 1 else if wanted > available then available else wanted
  }

  predicate InLog(r: Range, index: nat) { r.base < index <= r.last }

  function LiveJobs(r: Range, chosen: seq<Grant>): (jobs: seq<nat>)
    ensures |jobs| <= |chosen|
  {
    if chosen == [] then []
    else
      var g := chosen[|chosen| - 1];
      LiveJobs(r, chosen[..|chosen| - 1]) + if InLog(r, g.index) then [g.index] else []
  }

  lemma {:induction false} LiveJobsAre(r: Range, chosen: seq<Grant>)
    ensures LiveJobs(r, chosen) != [] <==> exists g | g in chosen :: InLog(r, g.index)
  {
    if chosen != [] {
      var n := |chosen| - 1;
      LiveJobsAre(r, chosen[..n]);
      assert chosen == chosen[..n] + [chosen[n]];
    }
  }

  function CountLive(r: Range, dying: seq<Lease>): (n: nat)
    ensures n <= |dying|
  {
    if dying == [] then 0
    else CountLive(r, dying[..|dying| - 1]) + if InLog(r, dying[|dying| - 1].index) then 1 else 0
  }

  function LogOf(st: Store, name: string): Range {
    if name in st.logs then st.logs[name] else Range(0, 0)
  }

  function GroupRec(st: Store, name: string, group: string): QRec {
    var key := JoinKey(name, group);
    if key in st.groups then st.groups[key] else FreshRec(LogOf(st, name).base + 1)
  }

  datatype Asked = Asked(st: Store, jobs: seq<nat>, due: Option<nat>, dead: set<string>)

  function WantJobs(cfg: Cfg): nat {
    var want := if cfg.maxJobs != 0 then cfg.maxJobs else 1;
    if want > JOBS_MAX then JOBS_MAX else want
  }

  /** A take for a worker: the jobs still in the log, the dead letters it publishes, and the next due time. */
  function AskQueue(st: Store, cfg: Cfg, name: string, now: nat): Asked {
    var key := JoinKey(name, cfg.group);
    if name !in st.logs then
      Asked(st, [], if key in st.groups then NextDue(st.groups[key].fl) else None, {})
    else
      var r := st.logs[name];
      var t := Take(GroupRec(st, name, cfg.group), WantJobs(cfg), None, now, r.last);
      var st1 := st.(groups := st.groups[key := t.q]);
      var letters := CountLive(r, t.dying);
      var dead := DeadName(name);
      if letters == 0 || dead.None? then Asked(st1, LiveJobs(r, t.chosen), NextDue(t.q.fl), {})
      else
        var d := LogOf(st, dead.value);
        Asked(st1.(logs := st1.logs[dead.value := Range(d.base, d.last + letters)]),
              LiveJobs(r, t.chosen), NextDue(t.q.fl), {dead.value})
  }

  // ---- starting a delivery -----------------------------------------------------

  /** Hand a prepared delivery to the transport. */
  function Send(w: World, k: nat, s: Sub, env: Env): (World, bool)
    requires k < |w.subs|
  {
    if env.sends(s.id)
    then (w.(subs := w.subs[k := s.(inflight := true)], inflight := w.inflight + 1), true)
    else (w.(subs := w.subs[k := s]), false)
  }

  /** What a batch from `acked` on looks like in the subscription. */
  function Prepared(s: Sub, name: string, acked: nat, count: nat, rr: nat): Sub {
    s.(subject := name, first := acked + 1, last := acked + count, rr := rr)
  }

  function PreparedJobs(s: Sub, name: string, jobs: seq<nat>, rr: nat): Sub
    requires jobs != []
  {
    s.(subject := name, first := jobs[0], last := jobs[|jobs| - 1], jobs := jobs, rr := rr)
  }

  /** 0 means "no wake set". */
  function EarlierWake(wake: nat, due: Option<nat>): nat {
    if due.Some? && (wake == 0 || due.value < wake) then due.value else wake
  }

  function AddAll(names: seq<string>, dead: set<string>, name: string): (r: seq<string>)
    ensures names <= r && |r| <= |names| + 1
  {
    if DeadName(name).Some? && DeadName(name).value in dead then AddName(names, DeadName(name).value) else names
  }

  /** The world after asking a queue: its dead letters have been announced like any publish. */
  function AfterAsk(w: World, name: string, a: Asked): World {
    w.(store := a.st, names := AddAll(w.names, a.dead, name), work := w.work || a.dead != {})
  }

  /** Names whose dead-letter channel is not in the list yet. */
  function Unpaired(names: seq<string>): set<string> {
    set x | x in names && DeadName(x).Some? && DeadName(x).value !in names
  }

  lemma SubsetSize(a: set<string>, b: set<string>)
    requires a <= b
    ensures |a| <= |b|
    decreases |a|
  {
    if a != {} {
      var x :| x in a;
      SubsetSize(a - {x}, b - {x});
    }
  }

  /** Learning a dead-letter channel lengthens the list but pairs a name off. */
  lemma PairingPays(names: seq<string>, name: string)
    requires name in names && DeadName(name).Some?
    ensures
      var names' := AddName(names, DeadName(name).value);
      |names'| + |Unpaired(names')| <= |names| + |Unpaired(names)|
  {
    var d := DeadName(name).value;
    if d !in names {
      var names' := AddName(names, d);
      DeadIsDead(name);
      assert name in Unpaired(names);
      assert Unpaired(names') <= Unpaired(names) - {name};
      SubsetSize(Unpaired(names'), Unpaired(names) - {name});
    }
  }

  /** How much of the subject list is left, counting channels that may still appear. */
  function LeftToAsk(names: seq<string>, n: nat): int {
    |names| + |Unpaired(names)| - n
  }

  /** One subject asked: go on to the next, or stop with a delivery (or a failed send). */
  datatype Try = GoOn(w: World) | Stop(w: World, started: bool)

  /** One subject of a worker's: lease jobs, or note when some will be due. */
  function TryWorker(w: World, k: nat, i: nat, env: Env): Try
    requires k < |w.subs| && i < |w.names|
  {
    var s, name := w.subs[k], w.names[i];
    var a := AskQueue(w.store, s.cfg, name, env.now);
    var w1 := AfterAsk(w, name, a);
    if a.jobs == [] then GoOn(w1.(subs := w1.subs[k := s.(wake := EarlierWake(s.wake, a.due))]))
    else
      var (w2, ok) := Send(w1, k, PreparedJobs(s, name, a.jobs, (i + 1) % |w1.names|), env);
      Stop(w2, ok)
  }

  /** One subject of a reader's: a batch from after its receipt. */
  function TryReader(w: World, k: nat, i: nat, env: Env): Try
    requires k < |w.subs| && i < |w.names|
  {
    var s, name := w.subs[k], w.names[i];
    var (st, acked) := AskReader(w.store, s.consumer, name);
    var w1 := w.(store := st);
    if acked.None? then GoOn(w1)
    else
      var count := BatchSize(env.batch(s.id), st.logs[name].last - acked.value);
      var (w2, ok) := Send(w1, k, Prepared(s, name, acked.value, count, (i + 1) % |w.names|), env);
      Stop(w2, ok)
  }

  function TryName(w: World, k: nat, i: nat, env: Env): Try
    requires k < |w.subs| && i < |w.names|
  {
    if !Covers(w.subs[k].cfg.pattern, w.names[i]) then GoOn(w)
    else if IsWorker(w.subs[k]) then TryWorker(w, k, i, env)
    else TryReader(w, k, i, env)
  }

  /** The position start_delivery looks at in its `n`-th step. */
  function Position(w: World, k: nat, n: nat): (i: nat)
    requires k < |w.subs| && w.names != []
    ensures i < |w.names|
  {
    (w.subs[k].rr + n) % |w.names|
  }

  lemma ModOnce(x: nat, m: nat)
    requires 0 < m && x < 2 * m
    ensures x % m == if x < m then x else x - m
  {
    if x >= m { assert x == m + (x - m); }
  }

  /** Positions run from `rr` up to the end of the list and on from its start. */
  lemma PositionIs(w: World, k: nat, n: nat)
    requires k < |w.subs| && n < |w.names| && (w.subs[k].rr == 0 || w.subs[k].rr < |w.names|)
    ensures Position(w, k, n) == if w.subs[k].rr + n < |w.names| then w.subs[k].rr + n else w.subs[k].rr + n - |w.names|
  {
    ModOnce(w.subs[k].rr + n, |w.names|);
  }

  lemma TryLeavesLess(w: World, k: nat, i: nat, n: nat, env: Env)
    requires k < |w.subs| && i < |w.names|
    ensures var t := TryName(w, k, i, env);
            |t.w.subs| == |w.subs| && (t.GoOn? ==> LeftToAsk(t.w.names, n + 1) < LeftToAsk(w.names, n))
  {
    if DeadName(w.names[i]).Some? { PairingPays(w.names, w.names[i]); }
  }

  /** start_delivery's loop over the subjects, from step `n` on. */
  function StartFrom(w: World, k: nat, n: nat, env: Env): (o: Out)
    requires k < |w.subs|
    ensures |o.w.subs| == |w.subs|
    decreases LeftToAsk(w.names, n)
  {
    if n >= |w.names| then Out(w, false)
    else
      TryLeavesLess(w, k, Position(w, k, n), n, env);
      match TryName(w, k, Position(w, k, n), env)
      case Stop(w1, started) => Out(w1, started)
      case GoOn(w1) => StartFrom(w1, k, n + 1, env)
  }

  function StartDelivery(w: World, k: nat, env: Env): (o: Out)
    requires k < |w.subs|
    ensures |o.w.subs| == |w.subs|
  {
    StartFrom(w.(subs := w.subs[k := w.subs[k].(wake := 0)]), k, 0, env)
  }

  // ---- the pump --------------------------------------------------------------------

  /** Live, free and due: a pass gives it a turn. */
  predicate TurnDue(s: Sub, now: nat) { !s.gone && !s.inflight && s.due <= now }

  datatype Pass = Pass(w: World, started: bool, busy: bool)

  /** One pass over the subscriptions, from position `k` on. */
  function PassFrom(p: Pass, k: nat, env: Env): Pass
    decreases |p.w.subs| - k
  {
    if k >= |p.w.subs| then p
    else
      var s := p.w.subs[k];
      if s.gone then PassFrom(p, k + 1, env)
      else if s.inflight || s.due > env.now then PassFrom(p.(busy := true), k + 1, env)
      else
        var o := StartDelivery(p.w, k, env);
        PassFrom(Pass(o.w, p.started || o.started, p.busy || o.w.subs[k].wake != 0), k + 1, env)
  }

  function PumpPass(w: World, env: Env): Pass {
    PassFrom(Pass(w, false, false), 0, env)
  }

  function Pump(w: World, env: Env): World {
    if !w.work then w
    else
      var p := PumpPass(w, env);
      if !p.started && !p.busy then p.w.(work := false) else p.w
  }

  // ---- completion -------------------------------------------------------------------

  /** What the transport reports: the answer, and X-Sukkal-Ack if it came. */
  datatype Report = Report(answer: Answer, ack: Option<nat>)

  /** The delay after the given number of failures in a row. */
  function PushWait(failures: nat): nat
    requires failures > 0
  {
    Min(BACKOFF_MS * Pow2(failures - 1), MAX_PUSH_BACKOFF_MS) as nat
  }

  function BackedOff(s: Sub, now: nat): Sub {
    s.(failures := s.failures + 1, due := now + PushWait(s.failures + 1))
  }

  function Recovered(s: Sub): Sub { s.(failures := 0, due := 0) }

  function SwapOut(subs: seq<Sub>, k: nat): seq<Sub>
    requires k < |subs|
  {
    subs[k := subs[|subs| - 1]][..|subs| - 1]
  }

  function SettleGroup(st: Store, name: string, group: string, jobs: seq<nat>, answer: Answer, now: nat): Store {
    var key := JoinKey(name, group);
    if key !in st.groups then st else st.(groups := st.groups[key := Settle(st.groups[key], jobs, answer, now)])
  }

  function FinishWorker(w: World, k: nat, report: Report, now: nat): World
    requires k < |w.subs|
  {
    var s := w.subs[k];
    if report.answer.Unreached? then w.(subs := w.subs[k := BackedOff(s, now)])
    else
      var st := SettleGroup(w.store, s.subject, s.cfg.group, s.jobs, report.answer, now);
      var s1 := s.(jobs := []);
      if !IsOk(report.answer) then w.(store := st, subs := w.subs[k := BackedOff(s1, now)])
      else w.(store := st, subs := w.subs[k := Recovered(s1)], work := true)
  }

  /** How far a 2xx acknowledges: the batch, or less if the subscriber says so. */
  function AckedTo(s: Sub, report: Report): nat {
    if report.ack.Some? && report.ack.value < s.last then report.ack.value else s.last
  }

  function FinishReader(w: World, k: nat, report: Report, now: nat): World
    requires k < |w.subs|
  {
    var s := w.subs[k];
    if !IsOk(report.answer) || AckedTo(s, report) < s.first then w.(subs := w.subs[k := BackedOff(s, now)])
    else
      w.(store := SetCursor(w.store, JoinKey(s.subject, s.consumer), AckedTo(s, report)),
         subs := w.subs[k := Recovered(s)], work := true)
  }

  function Complete(w: World, k: nat, report: Report, now: nat): World
    requires k < |w.subs|
  {
    var s := w.subs[k].(inflight := false);
    var w1 := w.(subs := w.subs[k := s], inflight := w.inflight - 1);
    if s.gone then w1.(subs := SwapOut(w1.subs, k))
    else if IsWorker(s) then FinishWorker(w1, k, report, now)
    else FinishReader(w1, k, report, now)
  }

  // ---- registration ------------------------------------------------------------------

  /** The first live subscription of a consumer, or |subs|. */
  function FindLive(subs: seq<Sub>, consumer: string): (k: nat)
    ensures k <= |subs|
    ensures k < |subs| ==> !subs[k].gone && subs[k].consumer == consumer
    ensures forall j | 0 <= j < k :: subs[j].gone || subs[j].consumer != consumer
  {
    if subs == [] then 0
    else if !subs[0].gone && subs[0].consumer == consumer then 0
    else
      var k := FindLive(subs[1..], consumer);
      assert forall j | 1 <= j < k + 1 :: subs[j] == subs[1..][j - 1];
      k + 1
  }

  /** bjm_pusher_remove looks at every entry, deleted ones included. */
  function FindAny(subs: seq<Sub>, consumer: string): (k: nat)
    ensures k <= |subs|
    ensures k < |subs| ==> subs[k].consumer == consumer
    ensures forall j | 0 <= j < k :: subs[j].consumer != consumer
  {
    if subs == [] then 0
    else if subs[0].consumer == consumer then 0
    else
      var k := FindAny(subs[1..], consumer);
      assert forall j | 1 <= j < k + 1 :: subs[j] == subs[1..][j - 1];
      k + 1
  }

  function NewSub(id: nat, consumer: string, cfg: Cfg): Sub {
    Sub(id, consumer, cfg, false, false, "", 0, 0, [], 0, 0, 0, 0)
  }

  function Add(w: World, id: nat, consumer: string, cfg: Cfg): World {
    var k := FindLive(w.subs, consumer);
    if k < |w.subs| then w.(subs := w.subs[k := w.subs[k].(cfg := cfg)], work := true)
    else w.(subs := w.subs + [NewSub(id, consumer, cfg)], work := true)
  }

  function Remove(w: World, consumer: string): World {
    var k := FindAny(w.subs, consumer);
    if k == |w.subs| then w
    else if w.subs[k].inflight then w.(subs := w.subs[k := w.subs[k].(gone := true)])
    else w.(subs := SwapOut(w.subs, k))
  }

  function Notify(w: World, name: string): World {
    w.(names := AddName(w.names, name), work := true)
  }

  /** Where a brand-new subscription starts on one subject. */
  function SeedAt(st: Store, name: string, atEnd: bool, from: nat): nat {
    if atEnd then LogOf(st, name).last else if from > 1 then from - 1 else 0
  }

  function SeedFirst(st: Store, names: seq<string>, n: nat, consumer: string, pattern: string, atEnd: bool, from: nat): Store
    requires n <= |names|
  {
    if n == 0 then st
    else
      var st1 := SeedFirst(st, names, n - 1, consumer, pattern, atEnd, from);
      var name := names[n - 1];
      if !Covers(pattern, name) || JoinKey(name, consumer) in st1.cursors then st1
      else SetCursor(st1, JoinKey(name, consumer), SeedAt(st1, name, atEnd, from))
  }

  function Seed(w: World, consumer: string, pattern: string, atEnd: bool, from: nat): World {
    w.(store := SeedFirst(w.store, w.names, |w.names|, consumer, pattern, atEnd, from), work := true)
  }

  /** A message appended to a subject by anybody: the store tells the engine. */
  function Publish(w: World, name: string): World {
    var r := LogOf(w.store, name);
    Notify(w.(store := w.store.(logs := w.store.logs[name := Range(r.base, r.last + 1)])), name)
  }
}
