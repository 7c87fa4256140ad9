/**
 Round-robin fairness: a subject with something to deliver is reached by the
 next round, whatever the other subjects have, and with a fixed list of n
 subjects it is served within n deliveries of the subscription.
 */
module PushFairness {
  import opened Options
  import opened Queue
  import opened Names
  import opened PushModel
  import opened PushReceipts

  // ---- what asking the other subjects leaves alone ---------------------------------

  /** Asking for `name` now would find something to send. */
  ghost predicate Deliverable(w: World, s: Sub, name: string, now: nat) {
    && Covers(s.cfg.pattern, name)
    && if IsWorker(s) then AskQueue(w.store, s.cfg, name, now).jobs != []
       else AskReader(w.store, s.consumer, name).1.Some?
  }

  lemma {:induction false} FreshExtends(t: Taking, max: nat, now: nat, lease: nat, last: nat)
    ensures t.chosen <= FreshFrom(t, max, now, lease, last).chosen
    decreases max - |t.chosen|
  {
    if MayGrantFresh(t, max, lease, last) { FreshExtends(GrantFresh(t, now, lease), max, now, lease, last); }
  }

  /** A longer log never takes a fresh job away from a take. */
  lemma {:induction false} FreshGrows(t: Taking, max: nat, now: nat, lease: nat, last: nat, more: nat)
    ensures FreshFrom(t, max, now, lease, last).chosen <= FreshFrom(t, max, now, lease, last + more).chosen
    decreases max - |t.chosen|
  {
    if MayGrantFresh(t, max, lease, last) {
      FreshGrows(GrantFresh(t, now, lease), max, now, lease, last, more);
    } else {
      FreshExtends(t, max, now, lease, last + more);
    }
  }

  /** A longer log never empties what a worker would be sent. */
  lemma LongerLogStillHas(q: QRec, max: int, now: nat, r: Range, more: nat)
    requires LiveJobs(r, Take(q, max, None, now, r.last).chosen) != []
    ensures LiveJobs(Range(r.base, r.last + more), Take(q, max, None, now, r.last + more).chosen) != []
  {
    hide Queue.ScanFrom, Queue.FreshFrom, Queue.StartTake, PushModel.LiveJobs;
    var r' := Range(r.base, r.last + more);
    var chosen, chosen' := Take(q, max, None, now, r.last).chosen, Take(q, max, None, now, r'.last).chosen;
    var ms := EffectiveLease(q, None);
    FreshGrows(ScanFrom(StartTake(q, None), 0, ClampMax(max), now, ms), ClampMax(max), now, ms, r.last, more);
    LiveJobsAre(r, chosen);
    LiveJobsAre(r', chosen');
    var g :| g in chosen && InLog(r, g.index);
    assert g in chosen' && InLog(r', g.index);
  }

  /** What asking about another subject leaves of `name`: its group as it was, its log at most longer. */
  ghost predicate LeavesQueue(st: Store, st': Store, name: string, group: string) {
    && GroupRec(st', name, group) == GroupRec(st, name, group)
    && name in st.logs && name in st'.logs
    && st'.logs[name].base == st.logs[name].base && st.logs[name].last <= st'.logs[name].last
  }

  lemma OthersLeave(st: Store, cfg: Cfg, other: string, name: string, now: nat)
    requires other != name && '/' !in other && '/' !in name && name in st.logs
    ensures LeavesQueue(st, AskQueue(st, cfg, other, now).st, name, cfg.group)
  {
    if JoinKey(other, cfg.group) == JoinKey(name, cfg.group) {
      JoinKeyInjective(other, cfg.group, name, cfg.group);
      assert false;
    }
  }

  lemma LeftStillHas(st: Store, st': Store, cfg: Cfg, name: string, now: nat)
    requires LeavesQueue(st, st', name, cfg.group) && AskQueue(st, cfg, name, now).jobs != []
    ensures AskQueue(st', cfg, name, now).jobs != []
  {
    var r, r' := st.logs[name], st'.logs[name];
    LongerLogStillHas(GroupRec(st, name, cfg.group), WantJobs(cfg), now, r, r'.last - r.last);
    assert r' == Range(r.base, r.last + (r'.last - r.last));
  }

  lemma AskQueueLeaves(st: Store, cfg: Cfg, other: string, name: string, now: nat)
    requires other != name && '/' !in other && '/' !in name
    requires AskQueue(st, cfg, name, now).jobs != []
    ensures AskQueue(AskQueue(st, cfg, other, now).st, cfg, name, now).jobs != []
  {
    OthersLeave(st, cfg, other, name, now);
    LeftStillHas(st, AskQueue(st, cfg, other, now).st, cfg, name, now);
  }

  lemma AskReaderLeaves(st: Store, consumer: string, other: string, name: string)
    requires other != name && '/' !in other && '/' !in name
    requires AskReader(st, consumer, name).1.Some?
    ensures AskReader(AskReader(st, consumer, other).0, consumer, name).1.Some?
  {
    if JoinKey(other, consumer) == JoinKey(name, consumer) {
      JoinKeyInjective(other, consumer, name, consumer);
      assert false;
    }
  }

  /** A step over another subject leaves this one deliverable; a step over this one stops. */
  lemma TryLeaves(w: World, k: nat, i: nat, env: Env, name: string)
    requires k < |w.subs| && i < |w.names| && PlainNames(w.names) && '/' !in name
    requires Deliverable(w, w.subs[k], name, env.now)
    ensures
      var t := TryName(w, k, i, env);
      && w.names <= t.w.names
      && (w.names[i] == name ==> t.Stop?)
      && (t.GoOn? ==> Deliverable(t.w, t.w.subs[k], name, env.now) && t.w.subs[k].rr == w.subs[k].rr && t.w.subs[k].id == w.subs[k].id)
  {
    hide PushModel.AddAll, PushModel.Covers, Queue.Take;
    var s := w.subs[k];
    assert w.names[i] in w.names;
    if w.names[i] != name && Covers(s.cfg.pattern, w.names[i]) {
      if IsWorker(s) {
        AskQueueLeaves(w.store, s.cfg, w.names[i], name, env.now);
      } else {
        AskReaderLeaves(w.store, s.consumer, w.names[i], name);
      }
    }
  }

  // ---- one round --------------------------------------------------------------------

  /** How many subjects lie before position `j` in a round that starts at `rr`. */
  function Distance(rr: nat, j: nat, size: nat): (d: nat)
    requires rr < size && j < size
    ensures d < size
  {
    if j >= rr then j - rr else j + size - rr
  }

  lemma PositionAt(w: World, k: nat, n: nat, j: nat)
    requires k < |w.subs| && n < |w.names| && j < |w.names| && w.subs[k].rr < |w.names|
    ensures Position(w, k, n) == j <==> Distance(w.subs[k].rr, j, |w.names|) == n
  {
    PositionIs(w, k, n);
  }

  /** The round stopped `m` subjects on from where it began. */
  ghost predicate StoppedAt(w: World, k: nat, o: Out, m: nat)
    requires k < |w.subs| && w.names != []
  {
    && |o.w.subs| == |w.subs|
    && o.w.subs[k].subject == w.names[Position(w, k, m)]
    && o.w.subs[k].rr == (Position(w, k, m) + 1) % |w.names|
  }

  /** Position `j` is still ahead after `n` steps of a round. */
  predicate Ahead(w: World, k: nat, n: nat, j: nat)
    requires k < |w.subs| && j < |w.names| && w.subs[k].rr < |w.names|
  {
    n <= Distance(w.subs[k].rr, j, |w.names|)
  }

  lemma TryStopsAt(w: World, k: nat, n: nat, env: Env)
    requires k < |w.subs| && n < |w.names| && TryName(w, k, Position(w, k, n), env).Stop?
    ensures
      var t := TryName(w, k, Position(w, k, n), env);
      && (t.w.names == w.names ==> StoppedAt(w, k, Out(t.w, t.started), n))
      && t.started == env.sends(w.subs[k].id)
  {
    hide PushModel.AskQueue, PushModel.AskReader, PushModel.Covers, PushModel.AddAll;
  }

  /** What a round that stops where it should has done. */
  ghost predicate Reached(w: World, k: nat, n: nat, env: Env, j: nat, o: Out)
    requires k < |w.subs| && j < |w.names| && w.subs[k].rr < |w.names|
  {
    && o.started == env.sends(w.subs[k].id)
    && w.names <= o.w.names
    && (o.w.names == w.names ==> exists m | n <= m <= Distance(w.subs[k].rr, j, |w.names|) :: StoppedAt(w, k, o, m))
  }

  /** A step that goes on has position `j` still ahead and still deliverable. */
  lemma StillAhead(w: World, k: nat, n: nat, env: Env, j: nat)
    requires k < |w.subs| && j < |w.names| && w.subs[k].rr < |w.names| && PlainNames(w.names)
    requires Deliverable(w, w.subs[k], w.names[j], env.now) && Ahead(w, k, n, j)
    requires TryName(w, k, Position(w, k, n), env).GoOn?
    ensures
      var t := TryName(w, k, Position(w, k, n), env);
      && |t.w.subs| == |w.subs| && t.w.subs[k].rr == w.subs[k].rr && t.w.subs[k].id == w.subs[k].id
      && w.names <= t.w.names && t.w.names[j] == w.names[j] && PlainNames(t.w.names)
      && Deliverable(t.w, t.w.subs[k], w.names[j], env.now)
      && n < |w.names| && Ahead(t.w, k, n + 1, j) && LeftToAsk(t.w.names, n + 1) < LeftToAsk(w.names, n)
  {
    assert w.names[j] in w.names;
    TryLeaves(w, k, Position(w, k, n), env, w.names[j]);
    TryLeavesLess(w, k, Position(w, k, n), n, env);
    TryPlain(w, k, Position(w, k, n), env);
    PositionAt(w, k, n, j);
  }

  lemma SamePosition(w: World, w1: World, k: nat, m: nat, o: Out, o': Out)
    requires k < |w.subs| && k < |w1.subs| && w.names != [] && w1.names == w.names && w1.subs[k].rr == w.subs[k].rr
    requires StoppedAt(w1, k, o, m) && |o.w.subs| == |w.subs| && o'.w == o.w
    ensures StoppedAt(w, k, o', m)
  {
    assert Position(w1, k, m) == Position(w, k, m);
  }

  lemma ReachedVia(w: World, w1: World, k: nat, n: nat, env: Env, j: nat, o: Out, o': Out)
    requires k < |w.subs| && |w1.subs| == |w.subs| && j < |w.names| && w.names <= w1.names
    requires w1.subs[k].rr == w.subs[k].rr < |w.names| && w1.subs[k].id == w.subs[k].id
    requires Reached(w1, k, n + 1, env, j, o) && o'.w == o.w && o'.started == o.started
    ensures Reached(w, k, n, env, j, o')
  {
    hide StoppedAt, PushModel.Position;
    if o.w.names == w.names {
      assert w1.names == w.names;
      var m :| n + 1 <= m <= Distance(w.subs[k].rr, j, |w.names|) && StoppedAt(w1, k, o, m);
      StoppedSize(w1, k, o, m);
      SamePosition(w, w1, k, m, o, o');
    }
  }

  lemma StoppedSize(w: World, k: nat, o: Out, m: nat)
    requires k < |w.subs| && w.names != [] && StoppedAt(w, k, o, m)
    ensures |o.w.subs| == |w.subs|
  {
  }

  /** A round reaches what is deliverable, or something before it; and with the list fixed, at the place that says. */
  lemma {:induction false} RoundStops(w: World, k: nat, n: nat, env: Env, j: nat)
    requires k < |w.subs| && j < |w.names| && w.subs[k].rr < |w.names| && PlainNames(w.names)
    requires Deliverable(w, w.subs[k], w.names[j], env.now) && Ahead(w, k, n, j)
    ensures Reached(w, k, n, env, j, StartFrom(w, k, n, env))
    decreases LeftToAsk(w.names, n)
  {
    var t := TryName(w, k, Position(w, k, n), env);
    if t.Stop? {
      assert w.names[j] in w.names;
      TryLeaves(w, k, Position(w, k, n), env, w.names[j]);
      TryStopsAt(w, k, n, env);
      assert t.w.names == w.names ==> StoppedAt(w, k, Out(t.w, t.started), n);
    } else {
      StillAhead(w, k, n, env, j);
      RoundStops(t.w, k, n + 1, env, j);
      ReachedVia(w, t.w, k, n, env, j, StartFrom(t.w, k, n + 1, env), StartFrom(w, k, n, env));
    }
  }

  lemma TryPlain(w: World, k: nat, i: nat, env: Env)
    requires k < |w.subs| && i < |w.names| && PlainNames(w.names)
    ensures PlainNames(TryName(w, k, i, env).w.names)
  {
    if Covers(w.subs[k].cfg.pattern, w.names[i]) && IsWorker(w.subs[k]) {
      AfterAskPlain(w, w.names[i], AskQueue(w.store, w.subs[k].cfg, w.names[i], env.now));
    }
  }

  /** A free subscription with anything deliverable, reader or worker, is started (when the transport takes it). */
  lemma DeliverableIsStarted(w: World, k: nat, env: Env, name: string)
    requires k < |w.subs| && PlainNames(w.names) && (w.subs[k].rr == 0 || w.subs[k].rr < |w.names|)
    requires name in w.names && Deliverable(w, w.subs[k], name, env.now)
    ensures StartDelivery(w, k, env).started == env.sends(w.subs[k].id)
  {
    var j :| 0 <= j < |w.names| && w.names[j] == name;
    var w0 := w.(subs := w.subs[k := w.subs[k].(wake := 0)]);
    assert Deliverable(w0, w0.subs[k], name, env.now);
    RoundStops(w0, k, 0, env, j);
  }

  /** The decreasing measure: a delivery serves position `j` or brings the round nearer to it. */
  lemma TurnServesOrNears(w: World, k: nat, env: Env, j: nat)
    requires k < |w.subs| && j < |w.names| && w.subs[k].rr < |w.names| && PlainNames(w.names)
    requires Deliverable(w, w.subs[k], w.names[j], env.now)
    requires StartDelivery(w, k, env).w.names == w.names
    ensures
      var s := StartDelivery(w, k, env).w.subs[k];
      && s.rr < |w.names|
      && (s.subject == w.names[j]
          || Distance(s.rr, j, |w.names|) < Distance(w.subs[k].rr, j, |w.names|))
  {
    var w0 := w.(subs := w.subs[k := w.subs[k].(wake := 0)]);
    assert Deliverable(w0, w0.subs[k], w.names[j], env.now);
    RoundStops(w0, k, 0, env, j);
    var o := StartDelivery(w, k, env);
    var d := Distance(w.subs[k].rr, j, |w.names|);
    var m :| 0 <= m <= d && StoppedAt(w0, k, o, m);
    ModOnce(w.subs[k].rr + m, |w.names|);
    ModOnce(Position(w0, k, m) + 1, |w.names|);
  }

  // ---- over a run ------------------------------------------------------------------

  /** A pump is a series of turns; `Rest` is its turning `work` off. */
  datatype Step = Turn(id: nat, env: Env) | Rest | Other(m: Move)

  predicate Legal(w: World, step: Step) {
    match step
    case Turn(id, _) => var k := FindId(w.subs, id); k < |w.subs| && !w.subs[k].gone && !w.subs[k].inflight
    case Rest => true
    case Other(m) => !m.DoPump? && Allowed(w, m)
  }

  function Stepped(w: World, step: Step): World
    requires Legal(w, step)
  {
    match step
    case Turn(id, env) => StartDelivery(w, FindId(w.subs, id), env).w
    case Rest => w.(work := false)
    case Other(m) => Moved(w, m)
  }

  function After(w: World, steps: seq<Step>): Option<World> {
    if steps == [] then Some(w)
    else
      var before := After(w, steps[..|steps| - 1]);
      var step := steps[|steps| - 1];
      if before.Some? && Legal(before.value, step) then Some(Stepped(before.value, step)) else None
  }

  predicate IsTurn(step: Step, id: nat) { step.Turn? && step.id == id }

  /** How often the subscription's turn came. */
  function Turns(steps: seq<Step>, id: nat): nat {
    if steps == [] then 0
    else Turns(steps[..|steps| - 1], id) + if IsTurn(steps[|steps| - 1], id) then 1 else 0
  }

  /** The run has got here, with the subject list as it was and the subscription still there. */
  predicate Present(at: Option<World>, id: nat, names: seq<string>) {
    at.Some? && at.value.names == names && FindId(at.value.subs, id) < |at.value.subs|
  }

  /** Sends start, and there is something of `name` to send. */
  ghost predicate Ready(at: Option<World>, step: Step, name: string) {
    at.Some? && step.Turn? && step.env.sends(step.id) &&
    var k := FindId(at.value.subs, step.id);
    k < |at.value.subs| && Deliverable(at.value, at.value.subs[k], name, step.env.now)
  }

  /** The subject list stays, the subscription stays, and whenever its turn comes `name` is deliverable and sends start. */
  ghost predicate Contested(w: World, steps: seq<Step>, id: nat, name: string, names: seq<string>) {
    && (forall n | 0 <= n <= |steps| :: Present(After(w, steps[..n]), id, names))
    && (forall n | 0 <= n < |steps| && IsTurn(steps[n], id) :: Ready(After(w, steps[..n]), steps[n], name))
  }

  /** This turn starts a delivery of `name`. */
  predicate Serves(at: Option<World>, step: Step, name: string) {
    at.Some? && step.Turn? && Legal(at.value, step) &&
    var k := FindId(at.value.subs, step.id);
    var o := StartDelivery(at.value, k, step.env);
    o.started && o.w.subs[k].subject == name
  }

  ghost predicate Served(w: World, steps: seq<Step>, id: nat, name: string) {
    exists n | 0 <= n < |steps| && IsTurn(steps[n], id) :: Serves(After(w, steps[..n]), steps[n], name)
  }

  function PlaceOf(w: World, id: nat): nat
    requires FindId(w.subs, id) < |w.subs|
  {
    w.subs[FindId(w.subs, id)].rr
  }

  lemma FindIs(subs: seq<Sub>, k: nat, id: nat)
    requires IdsDistinct(subs) && k < |subs| && subs[k].id == id
    ensures FindId(subs, id) == k
  {
  }

  /** Subscription `id`, if there, is at place `rr` of its round. */
  ghost predicate AtPlace(subs: seq<Sub>, id: nat, rr: nat) {
    IdsDistinct(subs) && forall j | 0 <= j < |subs| && subs[j].id == id :: subs[j].rr == rr
  }

  lemma UpdatePlace(subs: seq<Sub>, k: nat, s: Sub, id: nat, rr: nat)
    requires AtPlace(subs, id, rr) && k < |subs| && s.id == subs[k].id && (s.id == id ==> s.rr == rr)
    ensures AtPlace(subs[k := s], id, rr)
  {
  }

  lemma SwapPlace(subs: seq<Sub>, k: nat, id: nat, rr: nat)
    requires AtPlace(subs, id, rr) && k < |subs|
    ensures AtPlace(SwapOut(subs, k), id, rr)
  {
    var after := SwapOut(subs, k);
    forall j | 0 <= j < |after| ensures after[j] == subs[if j == k then |subs| - 1 else j] {
      SwapOutEntry(subs, k, j);
    }
  }

  lemma FinishPlace(w: World, k: nat, report: Report, now: nat, id: nat, rr: nat)
    requires AtPlace(w.subs, id, rr) && k < |w.subs|
    ensures AtPlace(Complete(w, k, report, now).subs, id, rr)
  {
    var w' := Complete(w, k, report, now);
    var s := w.subs[k];
    if s.gone {
      assert SwapOut(w.subs[k := s.(inflight := false)], k) == SwapOut(w.subs, k);
      SwapPlace(w.subs, k, id, rr);
    } else {
      assert w'.subs == w.subs[k := w'.subs[k]];
      UpdatePlace(w.subs, k, w'.subs[k], id, rr);
    }
  }

  lemma AddPlace(w: World, added: nat, consumer: string, cfg: Cfg, id: nat, rr: nat)
    requires AtPlace(w.subs, id, rr) && added != id && Allowed(w, DoAdd(added, consumer, cfg))
    ensures AtPlace(Add(w, added, consumer, cfg).subs, id, rr)
  {
    var k := FindLive(w.subs, consumer);
    if k < |w.subs| { UpdatePlace(w.subs, k, w.subs[k].(cfg := cfg), id, rr); }
  }

  lemma RemovePlace(w: World, consumer: string, id: nat, rr: nat)
    requires AtPlace(w.subs, id, rr)
    ensures AtPlace(Remove(w, consumer).subs, id, rr)
  {
    var k := FindAny(w.subs, consumer);
    if k < |w.subs| {
      if w.subs[k].inflight {
        UpdatePlace(w.subs, k, w.subs[k].(gone := true), id, rr);
      } else {
        SwapPlace(w.subs, k, id, rr);
      }
    }
  }

  /** Nothing but a turn moves a subscription's place in its round. */
  lemma MovePlace(w: World, m: Move, id: nat, rr: nat)
    requires AtPlace(w.subs, id, rr) && FindId(w.subs, id) < |w.subs| && Allowed(w, m) && !m.DoPump?
    ensures AtPlace(Moved(w, m).subs, id, rr)
  {
    match m
    case DoAdd(n, consumer, cfg) => AddPlace(w, n, consumer, cfg, id, rr);
    case DoRemove(consumer) => RemovePlace(w, consumer, id, rr);
    case DoFinish(n, report, now) => FinishPlace(w, FindId(w.subs, n), report, now, id, rr);
    case _ =>
  }

  /** A turn of one subscription leaves the places of the others. */
  lemma OthersTurnPlace(w: World, k: nat, env: Env, id: nat, rr: nat)
    requires AtPlace(w.subs, id, rr) && k < |w.subs| && !w.subs[k].inflight && w.subs[k].id != id
    ensures AtPlace(StartDelivery(w, k, env).w.subs, id, rr)
  {
    var w0 := w.(subs := w.subs[k := w.subs[k].(wake := 0)]);
    var o := StartFrom(w0, k, 0, env);
    StartShape(w0, k, 0, env);
    ShapeVia(w, w0, k, o);
    UpdatePlace(w.subs, k, o.w.subs[k], id, rr);
  }

  lemma StepPlace(w: World, step: Step, id: nat, rr: nat)
    requires AtPlace(w.subs, id, rr) && FindId(w.subs, id) < |w.subs| && Legal(w, step) && !IsTurn(step, id)
    ensures AtPlace(Stepped(w, step).subs, id, rr)
  {
    match step
    case Turn(other, env) => OthersTurnPlace(w, FindId(w.subs, other), env, id, rr);
    case Rest =>
    case Other(m) => MovePlace(w, m, id, rr);
  }

  lemma PlaceIs(w: World, id: nat)
    requires IdsDistinct(w.subs) && FindId(w.subs, id) < |w.subs|
    ensures AtPlace(w.subs, id, PlaceOf(w, id))
  {
  }

  lemma StepKeepsPlace(w: World, step: Step, id: nat)
    requires IdsDistinct(w.subs) && FindId(w.subs, id) < |w.subs| && Legal(w, step) && !IsTurn(step, id)
    ensures
      var w' := Stepped(w, step);
      IdsDistinct(w'.subs) && (FindId(w'.subs, id) < |w'.subs| ==> PlaceOf(w', id) == PlaceOf(w, id))
  {
    PlaceIs(w, id);
    StepPlace(w, step, id, PlaceOf(w, id));
  }

  lemma TurnKeepsIds(w: World, k: nat, env: Env)
    requires IdsDistinct(w.subs) && k < |w.subs| && !w.subs[k].inflight
    ensures
      var w' := StartDelivery(w, k, env).w;
      && IdsDistinct(w'.subs) && |w'.subs| == |w.subs|
      && FindId(w.subs, w.subs[k].id) == k && FindId(w'.subs, w.subs[k].id) == k
  {
    var w0 := w.(subs := w.subs[k := w.subs[k].(wake := 0)]);
    StartShape(w0, k, 0, env);
    ShapeVia(w, w0, k, StartFrom(w0, k, 0, env));
    FindIs(w.subs, k, w.subs[k].id);
    FindIs(StartDelivery(w, k, env).w.subs, k, w.subs[k].id);
  }

  /** One turn of the subscription itself: it serves the subject or comes nearer. */
  lemma OwnTurn(w: World, step: Step, names: seq<string>, j: nat)
    requires j < |names| && PlainNames(names) && IdsDistinct(w.subs) && step.Turn? && Legal(w, step)
    requires Ready(Some(w), step, names[j]) && PlaceOf(w, step.id) < |names|
    requires w.names == names && Stepped(w, step).names == names
    ensures
      var w' := Stepped(w, step);
      && IdsDistinct(w'.subs) && FindId(w'.subs, step.id) < |w'.subs| && PlaceOf(w', step.id) < |names|
      && (Serves(Some(w), step, names[j])
          || Distance(PlaceOf(w', step.id), j, |names|) < Distance(PlaceOf(w, step.id), j, |names|))
  {
    var k := FindId(w.subs, step.id);
    TurnKeepsIds(w, k, step.env);
    TurnServesOrNears(w, k, step.env, j);
    DeliverableIsStarted(w, k, step.env, names[j]);
  }

  lemma ContestedPrefix(w: World, steps: seq<Step>, id: nat, name: string, names: seq<string>)
    requires steps != [] && Contested(w, steps, id, name, names)
    ensures Contested(w, steps[..|steps| - 1], id, name, names)
    ensures Served(w, steps[..|steps| - 1], id, name) ==> Served(w, steps, id, name)
  {
    var init := steps[..|steps| - 1];
    assert forall n | 0 <= n <= |init| :: init[..n] == steps[..n];
    forall n | 0 <= n < |init| && IsTurn(init[n], id) ensures Ready(After(w, init[..n]), init[n], name) {
      assert IsTurn(steps[n], id);
    }
    if Served(w, init, id, name) {
      var n :| 0 <= n < |init| && IsTurn(init[n], id) && Serves(After(w, init[..n]), init[n], name);
      assert IsTurn(steps[n], id) && Serves(After(w, steps[..n]), steps[n], name);
    }
  }

  /** Until the subject is served, every turn is paid for out of its distance. */
  ghost predicate Nearing(w: World, steps: seq<Step>, id: nat, names: seq<string>, j: nat)
    requires j < |names| && FindId(w.subs, id) < |w.subs| && PlaceOf(w, id) < |names|
  {
    var at := After(w, steps);
    && Present(at, id, names) && IdsDistinct(at.value.subs) && PlaceOf(at.value, id) < |names|
    && (Served(w, steps, id, names[j])
        || Turns(steps, id) + Distance(PlaceOf(at.value, id), j, |names|) <= Distance(PlaceOf(w, id), j, |names|))
  }

  lemma {:induction false} TurnsPaidFor(w: World, steps: seq<Step>, id: nat, names: seq<string>, j: nat)
    requires j < |names| && PlainNames(names) && IdsDistinct(w.subs)
    requires FindId(w.subs, id) < |w.subs| && PlaceOf(w, id) < |names|
    requires Contested(w, steps, id, names[j], names)
    ensures Nearing(w, steps, id, names, j)
  {
    assert steps[..|steps|] == steps;
    if steps != [] {
      var n := |steps| - 1;
      var step := steps[n];
      ContestedPrefix(w, steps, id, names[j], names);
      TurnsPaidFor(w, steps[..n], id, names, j);
      var at := After(w, steps[..n]);
      assert Present(After(w, steps[..n + 1]), id, names);
      if IsTurn(step, id) {
        assert Ready(at, step, names[j]);
        OwnTurn(at.value, step, names, j);
        if Serves(at, step, names[j]) { assert Served(w, steps, id, names[j]); }
      } else {
        StepKeepsPlace(at.value, step, id);
      }
    }
  }

  /**
   Round-robin fairness.  However the other subjects fare, and whatever else
   happens in between, a subject that stays deliverable is served within as many
   turns of the subscription as there are subjects, each of which starts a delivery.
   */
  lemma RoundRobinIsFair(w: World, steps: seq<Step>, id: nat, name: string, names: seq<string>)
    requires PlainNames(names) && name in names && IdsDistinct(w.subs)
    requires FindId(w.subs, id) < |w.subs| && (PlaceOf(w, id) == 0 || PlaceOf(w, id) < |names|)
    requires Contested(w, steps, id, name, names)
    requires Turns(steps, id) >= |names|
    ensures Served(w, steps, id, name)
  {
    var j :| 0 <= j < |names| && names[j] == name;
    TurnsPaidFor(w, steps, id, names, j);
  }

  /** Every one of those turns starts a delivery. */
  lemma EveryTurnStarts(w: World, steps: seq<Step>, id: nat, name: string, names: seq<string>, n: nat)
    requires PlainNames(names) && name in names && IdsDistinct(w.subs)
    requires FindId(w.subs, id) < |w.subs| && (PlaceOf(w, id) == 0 || PlaceOf(w, id) < |names|)
    requires Contested(w, steps, id, name, names)
    requires n < |steps| && IsTurn(steps[n], id)
    ensures
      var at := After(w, steps[..n]).value;
      StartDelivery(at, FindId(at.subs, id), steps[n].env).started
  {
    var j :| 0 <= j < |names| && names[j] == name;
    var init := steps[..n];
    assert forall m | 0 <= m <= n :: init[..m] == steps[..m];
    forall m | 0 <= m < |init| && IsTurn(init[m], id) ensures Ready(After(w, init[..m]), init[m], name) {
      assert IsTurn(steps[m], id);
    }
    TurnsPaidFor(w, init, id, names, j);
    assert Ready(After(w, steps[..n]), steps[n], name);
    var at := After(w, init).value;
    DeliverableIsStarted(at, FindId(at.subs, id), steps[n].env, name);
  }

  // ---- a pump is turns ----------------------------------------------------------------

  lemma {:induction false} AfterConcat(w: World, a: seq<Step>, b: seq<Step>)
    requires After(w, a).Some?
    ensures After(w, a + b) == After(After(w, a).value, b)
  {
    if b == [] {
      assert a + b == a;
    } else {
      AfterConcat(w, a, b[..|b| - 1]);
      assert (a + b)[..|a + b| - 1] == a + b[..|b| - 1];
    }
  }

  lemma OneStep(w: World, step: Step)
    requires Legal(w, step)
    ensures After(w, [step]) == Some(Stepped(w, step))
  {
    assert [step][..0] == [];
    assert After(w, [step][..0]) == Some(w);
  }

  /** One turn for each of those, in the order of the list. */
  function DueTurns(subs: seq<Sub>, k: nat, env: Env): seq<Step>
    decreases |subs| - k
  {
    if k >= |subs| then []
    else (if TurnDue(subs[k], env.now) then [Turn(subs[k].id, env)] else []) + DueTurns(subs, k + 1, env)
  }

  /** What decides who gets a turn. */
  ghost predicate SameTurns(a: seq<Sub>, b: seq<Sub>, k: nat, now: nat) {
    |a| == |b| && forall j | k <= j < |a| :: a[j].id == b[j].id && TurnDue(a[j], now) == TurnDue(b[j], now)
  }

  lemma {:induction false} DueTurnsSame(a: seq<Sub>, b: seq<Sub>, k: nat, env: Env)
    requires SameTurns(a, b, k, env.now)
    ensures DueTurns(a, k, env) == DueTurns(b, k, env)
    decreases |a| - k
  {
    if k < |a| { DueTurnsSame(a, b, k + 1, env); }
  }

  /** A turn decides nothing about the others'. */
  lemma TurnLeavesTurns(w: World, k: nat, env: Env)
    requires k < |w.subs| && !w.subs[k].inflight
    ensures SameTurns(w.subs, StartDelivery(w, k, env).w.subs, k + 1, env.now)
  {
    var w0 := w.(subs := w.subs[k := w.subs[k].(wake := 0)]);
    StartShape(w0, k, 0, env);
    ShapeVia(w, w0, k, StartFrom(w0, k, 0, env));
  }

  lemma {:induction false} PassIsTurns(p: Pass, k: nat, env: Env)
    requires IdsDistinct(p.w.subs)
    ensures After(p.w, DueTurns(p.w.subs, k, env)) == Some(PassFrom(p, k, env).w)
    decreases |p.w.subs| - k
  {
    hide PushModel.StartDelivery;
    if k < |p.w.subs| {
      var s := p.w.subs[k];
      if s.gone {
        assert DueTurns(p.w.subs, k, env) == DueTurns(p.w.subs, k + 1, env);
        PassIsTurns(p, k + 1, env);
      } else if s.inflight || s.due > env.now {
        assert DueTurns(p.w.subs, k, env) == DueTurns(p.w.subs, k + 1, env);
        PassIsTurns(p.(busy := true), k + 1, env);
      } else {
        var o := StartDelivery(p.w, k, env);
        var p' := Pass(o.w, p.started || o.started, p.busy || o.w.subs[k].wake != 0);
        TurnKeepsIds(p.w, k, env);
        PassIsTurns(p', k + 1, env);
        TurnLeavesTurns(p.w, k, env);
        DueTurnsSame(p.w.subs, o.w.subs, k + 1, env);
        OneStep(p.w, Turn(s.id, env));
        AfterConcat(p.w, [Turn(s.id, env)], DueTurns(p.w.subs, k + 1, env));
      }
    }
  }

  /**
   So fairness over turns is fairness over pumps: a pump is one turn for each
   live, free and due subscription, in order, and a rest if it then stops.
   */
  lemma PumpIsTurns(w: World, env: Env)
    requires IdsDistinct(w.subs)
    ensures
      var steps := if !w.work then [] else
                   DueTurns(w.subs, 0, env) + if Pump(w, env).work then [] else [Rest];
      After(w, steps) == Some(Pump(w, env))
  {
    if w.work {
      var turns := DueTurns(w.subs, 0, env);
      var p := PumpPass(w, env);
      PassIsTurns(Pass(w, false, false), 0, env);
      PassWorks(Pass(w, false, false), 0, env);
      if Pump(w, env).work {
        assert turns + [] == turns;
      } else {
        OneStep(p.w, Rest);
        AfterConcat(w, turns, [Rest]);
      }
    }
  }

  // ---- the turns of one subscription in a run of pumps ----------------------------------

  /** The turns of a pass: one for each live subscription that is free and due, none for any other. */
  lemma OneTurnEach(subs: seq<Sub>, k: nat, env: Env, id: nat)
    requires IdsDistinct(subs)
    ensures
      Turns(DueTurns(subs, k, env), id)
      == if exists j | k <= j < |subs| :: subs[j].id == id && !subs[j].gone && !subs[j].inflight && subs[j].due <= env.now then 1 else 0
  {
    hide Turns, DueTurns;
    TurnsCounted(subs, k, env, id);
  }

  lemma {:induction false} TurnsCounted(subs: seq<Sub>, k: nat, env: Env, id: nat)
    requires IdsDistinct(subs)
    ensures
      Turns(DueTurns(subs, k, env), id)
      == if exists j | k <= j < |subs| :: subs[j].id == id && TurnDue(subs[j], env.now) then 1 else 0
    decreases |subs| - k
  {
    if k < |subs| {
      TurnsCounted(subs, k + 1, env, id);
      var first: seq<Step> := if TurnDue(subs[k], env.now) then [Turn(subs[k].id, env)] else [];
      TurnsAppend(first, DueTurns(subs, k + 1, env), id);
      assert first != [] ==> first[..0] == [];
      assert Turns(first, id) == if TurnDue(subs[k], env.now) && subs[k].id == id then 1 else 0;
    }
  }

  lemma {:induction false} TurnsAppend(a: seq<Step>, b: seq<Step>, id: nat)
    ensures Turns(a + b, id) == Turns(a, id) + Turns(b, id)
  {
    if b == [] {
      assert a + b == a;
    } else {
      TurnsAppend(a, b[..|b| - 1], id);
      assert (a + b)[..|a + b| - 1] == a + b[..|b| - 1];
    }
  }
}
