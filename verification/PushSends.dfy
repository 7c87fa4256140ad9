/**
 Sends that do not start.  Such a send sets no backoff and nothing retries it,
 so an engine can stop scanning with messages waiting, or with jobs leased to
 nobody; this says exactly when, for readers and workers with and without a
 working transport.
 */
module PushSends {
  import opened Options
  import opened Words
  import opened Queue
  import opened Names
  import opened PushModel
  import opened PushReceipts
  import opened PushQuiet
  import opened PushTurn
  import opened PushPass

  /** A reader of `name` has something to send. */
  predicate Waiting(st: Store, consumer: string, name: string) {
    LogOf(st, name).last > Max(Acked(st, JoinKey(name, consumer)), LogOf(st, name).base)
  }

  /** Nothing is leased of the group, and no job it would hand out next has been trimmed. */
  predicate Orderly(st: Store, name: string, group: string) {
    var q := GroupRec(st, name, group);
    q.fl == [] && LogOf(st, name).base < q.next
  }

  /** The group has handed out all there is. */
  predicate AllGiven(st: Store, name: string, group: string) {
    LogOf(st, name).last < GroupRec(st, name, group).next
  }

  /** `s` takes from this group. */
  predicate Takes(s: Sub, name: string, group: string) {
    IsWorker(s) && group == s.cfg.group && Covers(s.cfg.pattern, name)
  }

  /** The same messages wait for the same readers, and no group but those `s` takes from has moved. */
  ghost predicate MovedFor(st: Store, st': Store, s: Sub) {
    && st'.logs == st.logs
    && (forall name: string, group: string | '/' !in name && !Takes(s, name, group) ::
          GroupRec(st', name, group) == GroupRec(st, name, group))
    && (forall name: string, consumer: string | '/' !in name :: Waiting(st', consumer, name) == Waiting(st, consumer, name))
  }

  lemma AskReaderMoves(st: Store, s: Sub, name: string)
    requires '/' !in name
    ensures MovedFor(st, AskReader(st, s.consumer, name).0, s)
    ensures AskReader(st, s.consumer, name).1.Some? <==> Waiting(st, s.consumer, name)
  {
    var st' := AskReader(st, s.consumer, name).0;
    forall n: string, c: string | '/' !in n ensures Waiting(st', c, n) == Waiting(st, c, n) {
      if JoinKey(n, c) == JoinKey(name, s.consumer) { JoinKeyInjective(n, c, name, s.consumer); }
    }
  }

  /** A fresh lease stays in the table through the rest of the pass. */
  lemma {:induction false} FreshKeeps(t: Taking, max: nat, now: nat, lease: nat, last: nat)
    ensures t.q.fl <= FreshFrom(t, max, now, lease, last).q.fl
    decreases max - |t.chosen|
  {
    if MayGrantFresh(t, max, lease, last) { FreshKeeps(GrantFresh(t, now, lease), max, now, lease, last); }
  }

  /** A take from a group with an empty table: it hands out the next job if there is one, and under a lease keeps it in the table. */
  lemma TakeFresh(q: QRec, max: int, now: nat, last: nat)
    requires q.fl == []
    ensures
      var t := Take(q, max, None, now, last);
      && t.dying == []
      && (last < q.next ==> t.chosen == [] && t.q == q)
      && (q.next <= last ==> t.chosen != [] && t.chosen[0].index == q.next)
      && (q.next <= last && q.leaseMs > 0 ==> t.q.fl != [] && t.q.fl[0].index == q.next)
  {
    var t0, m := StartTake(q, None), ClampMax(max);
    assert Take(q, max, None, now, last) == FreshFrom(t0, m, now, q.leaseMs, last);
    FreshGrants(t0, m, now, q.leaseMs, last);
    if q.next <= last {
      var t1 := GrantFresh(t0, now, q.leaseMs);
      FreshGrants(t1, m, now, q.leaseMs, last);
      FreshKeeps(t1, m, now, q.leaseMs, last);
    }
  }

  /** The group holds a lease on a job that is still in the log. */
  ghost predicate Leased(st: Store, name: string, group: string) {
    exists e | e in GroupRec(st, name, group).fl :: InLog(LogOf(st, name), e.index)
  }

  lemma AskOrderly(st: Store, s: Sub, name: string, now: nat)
    requires '/' !in name && IsWorker(s) && Covers(s.cfg.pattern, name) && Orderly(st, name, s.cfg.group) && name in st.logs
    ensures
      var a, q := AskQueue(st, s.cfg, name, now), GroupRec(st, name, s.cfg.group);
      && a.dead == {} && MovedFor(st, a.st, s)
      && (a.jobs == [] <==> AllGiven(st, name, s.cfg.group))
      && (a.jobs == [] ==> a.due == None && forall n: string, g: string | '/' !in n :: GroupRec(a.st, n, g) == GroupRec(st, n, g))
      && (a.jobs != [] && q.leaseMs > 0 ==> Leased(a.st, name, s.cfg.group))
  {
    hide Queue.Take, PushModel.Covers;
    var a, q, r := AskQueue(st, s.cfg, name, now), GroupRec(st, name, s.cfg.group), st.logs[name];
    var t := Take(q, WantJobs(s.cfg), None, now, r.last);
    TakeFresh(q, WantJobs(s.cfg), now, r.last);
    LiveJobsAre(r, t.chosen);
    forall n: string, g: string | '/' !in n
      ensures (n != name || g != s.cfg.group) ==> GroupRec(a.st, n, g) == GroupRec(st, n, g)
      ensures n == name && g == s.cfg.group ==> GroupRec(a.st, n, g) == t.q
    {
      if JoinKey(n, g) == JoinKey(name, s.cfg.group) { JoinKeyInjective(n, g, name, s.cfg.group); }
    }
    if q.next <= r.last {
      assert t.chosen[0] in t.chosen;
      if q.leaseMs > 0 { assert t.q.fl[0] in t.q.fl; }
    }
  }

  // ---- engines with nothing under way ------------------------------------------------

  /** Free and due, and if a worker, one with nothing leased and nothing trimmed to hand out. */
  ghost predicate Ready(w: World, s: Sub, now: nat) {
    && (s.rr == 0 || s.rr < |w.names|) && TurnDue(s, now)
    && (IsWorker(s) ==> forall name | name in w.names && Covers(s.cfg.pattern, name) :: Orderly(w.store, name, s.cfg.group))
  }

  /** No two live workers take from one group. */
  ghost predicate NotShared(w: World) {
    forall i, j, name | 0 <= i < j < |w.subs| && !w.subs[i].gone && !w.subs[j].gone && name in w.names ::
      !(IsWorker(w.subs[i]) && Takes(w.subs[j], name, w.subs[i].cfg.group) && Covers(w.subs[i].cfg.pattern, name))
  }

  /** From the `n`-th subscription on, each live one is ready. */
  ghost predicate Unoccupied(w: World, n: nat, now: nat) {
    && PlainNames(w.names) && (forall name | name in w.names :: name in w.store.logs) && NotShared(w)
    && forall k | n <= k < |w.subs| && !w.subs[k].gone :: Ready(w, w.subs[k], now)
  }

  /** There is something for `s` on this subject. */
  predicate HeardAt(st: Store, s: Sub, name: string) {
    if IsWorker(s) then !AllGiven(st, name, s.cfg.group) else Waiting(st, s.consumer, name)
  }

  /** Something waits for `s` on a subject it covers. */
  ghost predicate Heard(w: World, s: Sub) {
    !s.gone && exists name | name in w.names && Covers(s.cfg.pattern, name) :: HeardAt(w.store, s, name)
  }

  /** Its leases last. */
  ghost predicate Lasting(w: World, s: Sub) {
    IsWorker(s) ==> forall name | name in w.names && Covers(s.cfg.pattern, name) :: GroupRec(w.store, name, s.cfg.group).leaseMs > 0
  }

  /** Jobs of `s` stand leased in the table. */
  ghost predicate Stuck(w: World, s: Sub) {
    exists name | name in w.names && Covers(s.cfg.pattern, name) :: Leased(w.store, name, s.cfg.group)
  }

  // ---- one turn -------------------------------------------------------------------------

  /** What a step leaves as it was. */
  ghost predicate Kept(w: World, w': World, k: nat)
    requires k < |w.subs|
  {
    && w'.names == w.names && MovedFor(w.store, w'.store, w.subs[k])
    && |w'.subs| == |w.subs| && w'.subs[k].wake == w.subs[k].wake
    && SameCore(w.subs[k], w'.subs[k])
  }

  /** A subject with nothing for the subscription is passed over; one with something stops the round. */
  lemma TryKeeps(w: World, k: nat, i: nat, env: Env)
    requires k < |w.subs| && i < |w.names| && PlainNames(w.names) && w.names[i] in w.store.logs
    requires IsWorker(w.subs[k]) && Covers(w.subs[k].cfg.pattern, w.names[i]) ==> Orderly(w.store, w.names[i], w.subs[k].cfg.group)
    ensures
      var s, t := w.subs[k], TryName(w, k, i, env);
      && Kept(w, t.w, k)
      && (t.Stop? <==> Covers(s.cfg.pattern, w.names[i]) && HeardAt(w.store, s, w.names[i]))
      && (t.Stop? ==> t.started == env.sends(s.id))
      && (t.Stop? && IsWorker(s) && GroupRec(w.store, w.names[i], s.cfg.group).leaseMs > 0 ==>
            Leased(t.w.store, w.names[i], s.cfg.group))
      && (t.GoOn? ==> t.w.subs[k].rr == w.subs[k].rr && t.w.subs[k].inflight == w.subs[k].inflight
                      && forall n: string, g: string | '/' !in n :: GroupRec(t.w.store, n, g) == GroupRec(w.store, n, g))
  {
    hide PushModel.AskQueue, PushModel.AskReader, GroupRec, Waiting, PushModel.Covers, AllGiven, Leased, Orderly, DeadName;
    var s, name := w.subs[k], w.names[i];
    assert name in w.names;
    if Covers(s.cfg.pattern, name) {
      if IsWorker(s) { AskOrderly(w.store, s, name, env.now); } else { AskReaderMoves(w.store, s, name); }
    } else {
      NothingMoves(w.store, s);
    }
  }

  lemma NothingMoves(st: Store, s: Sub)
    ensures MovedFor(st, st, s)
  {
  }

  lemma MovedTrans(a: Store, b: Store, c: Store, s: Sub, s': Sub)
    requires MovedFor(a, b, s) && MovedFor(b, c, s') && s'.cfg == s.cfg
    ensures MovedFor(a, c, s)
  {
    hide GroupRec, Waiting, PushModel.Covers;
  }

  /** The same names heard and orderly, where no group has moved. */
  lemma StepHears(w: World, w': World, s: Sub, s': Sub, now: nat)
    requires PlainNames(w.names) && w'.names == w.names && w'.store.logs == w.store.logs && SameCore(s, s') && s'.rr == s.rr && s'.inflight == s.inflight
    requires forall name | name in w.names && Covers(s.cfg.pattern, name) && IsWorker(s) ::
               GroupRec(w'.store, name, s.cfg.group) == GroupRec(w.store, name, s.cfg.group)
    requires forall name: string, c: string | '/' !in name :: Waiting(w'.store, c, name) == Waiting(w.store, c, name)
    ensures (Heard(w', s') <==> Heard(w, s)) && (Ready(w', s', now) <==> Ready(w, s, now)) && (Lasting(w', s') <==> Lasting(w, s))
    ensures forall name | name in w.names && Covers(s.cfg.pattern, name) :: HeardAt(w'.store, s', name) <==> HeardAt(w.store, s, name)
  {
    hide GroupRec, Waiting, PushModel.Covers;
    assert forall name | name in w.names :: LogOf(w'.store, name) == LogOf(w.store, name) && '/' !in name;
  }

  /** A round comes to something exactly when something is heard; then it starts if the send does, and leaves what it leased otherwise. */
  ghost predicate RoundEnds(w: World, k: nat, o: Out, env: Env)
    requires k < |w.subs|
  {
    var s := w.subs[k];
    && Kept(w, o.w, k)
    && (o.started <==> Heard(w, s) && env.sends(s.id))
    && (IsWorker(s) && Heard(w, s) && Lasting(w, s) ==> Stuck(o.w, s))
    && (!Heard(w, s) ==> forall n: string, g: string | '/' !in n :: GroupRec(o.w.store, n, g) == GroupRec(w.store, n, g))
  }

  ghost predicate RoundReady(w: World, k: nat, n: nat, now: nat) {
    && k < |w.subs| && !w.subs[k].gone && n <= |w.names|
    && PlainNames(w.names) && (forall name | name in w.names :: name in w.store.logs) && Ready(w, w.subs[k], now)
    && forall p | 0 <= p < |w.names| && Dealt(w.subs[k].rr, n, |w.names|, p) && Covers(w.subs[k].cfg.pattern, w.names[p]) ::
         !HeardAt(w.store, w.subs[k], w.names[p])
  }

  lemma {:induction false} RoundSends(w: World, k: nat, n: nat, env: Env)
    requires RoundReady(w, k, n, env.now)
    ensures RoundEnds(w, k, StartFrom(w, k, n, env), env)
    decreases LeftToAsk(w.names, n)
  {
    hide GroupRec, Waiting, PushModel.Covers, MovedFor, HeardAt, Lasting, Leased, PushModel.TryName, PushModel.Position, Dealt;
    if n == |w.names| {
      AllDealt(w, k);
      KeptNothing(w, k);
    } else {
      var i := Position(w, k, n);
      var t := TryName(w, k, i, env);
      assert w.names[i] in w.names;
      TryKeeps(w, k, i, env);
      TryLeavesLess(w, k, i, n, env);
      if t.GoOn? {
        GoesOnReady(w, k, n, env);
        RoundSends(t.w, k, n + 1, env);
        EndsVia(w, t.w, k, StartFrom(t.w, k, n + 1, env), env);
      } else {
        StopsHere(w, k, n, i, env);
      }
    }
  }

  lemma AllDealt(w: World, k: nat)
    requires k < |w.subs| && (w.subs[k].rr == 0 || w.subs[k].rr < |w.names|)
    ensures forall p | 0 <= p < |w.names| :: Dealt(w.subs[k].rr, |w.names|, |w.names|, p)
  {
  }

  lemma KeptNothing(w: World, k: nat)
    requires k < |w.subs|
    ensures Kept(w, w, k)
  {
  }

  lemma StopsHere(w: World, k: nat, n: nat, i: nat, env: Env)
    requires RoundReady(w, k, n, env.now) && i < |w.names| && TryName(w, k, i, env).Stop? && PlainNames(w.names)
    ensures var t := TryName(w, k, i, env); RoundEnds(w, k, Out(t.w, t.started), env)
  {
    hide GroupRec, Waiting, PushModel.Covers, MovedFor, HeardAt, Leased, PushModel.TryName, Dealt;
    assert w.names[i] in w.names;
    TryKeeps(w, k, i, env);
  }

  lemma ReadyParts(w: World, s: Sub, now: nat)
    requires Ready(w, s, now)
    ensures s.rr == 0 || s.rr < |w.names|
    ensures IsWorker(s) ==> forall name | name in w.names && Covers(s.cfg.pattern, name) :: Orderly(w.store, name, s.cfg.group)
  {
  }

  lemma GoesOnReady(w: World, k: nat, n: nat, env: Env)
    requires RoundReady(w, k, n, env.now) && n < |w.names| && TryName(w, k, Position(w, k, n), env).GoOn?
    ensures RoundReady(TryName(w, k, Position(w, k, n), env).w, k, n + 1, env.now)
  {
    hide GroupRec, Waiting, PushModel.Covers, HeardAt, Leased, PushModel.TryName, Ready;
    ReadyParts(w, w.subs[k], env.now);
    assert w.names[Position(w, k, n)] in w.names;
    TryKeeps(w, k, Position(w, k, n), env);
    PositionIs(w, k, n);
    StepHears(w, TryName(w, k, Position(w, k, n), env).w, w.subs[k], TryName(w, k, Position(w, k, n), env).w.subs[k], env.now);
  }

  lemma EndsVia(w: World, w1: World, k: nat, o: Out, env: Env)
    requires k < |w.subs| && Kept(w, w1, k) && RoundEnds(w1, k, o, env)
    requires w1.subs[k].rr == w.subs[k].rr && w1.subs[k].inflight == w.subs[k].inflight && PlainNames(w.names)
    requires forall n: string, g: string | '/' !in n :: GroupRec(w1.store, n, g) == GroupRec(w.store, n, g)
    ensures RoundEnds(w, k, o, env)
  {
    hide GroupRec, Waiting, PushModel.Covers, HeardAt, Leased;
    StepHears(w, w1, w.subs[k], w1.subs[k], env.now);
    MovedTrans(w.store, w1.store, o.w.store, w.subs[k], w1.subs[k]);
  }

  // ---- a turn in a pass -------------------------------------------------------------------

  /** What a stretch of the pass came to for `s`: what was heard is leased, and what was not is as it was. */
  ghost predicate Outcome(w: World, w': World, s: Sub) {
    IsWorker(s) ==>
      && (Heard(w, s) && Lasting(w, s) ==> Stuck(w', s))
      && (!Heard(w, s) ==> forall name | name in w.names && Covers(s.cfg.pattern, name) ::
            GroupRec(w'.store, name, s.cfg.group) == GroupRec(w.store, name, s.cfg.group))
  }

  /** What one turn does. */
  ghost predicate TurnEnds(w: World, k: nat, o: Out, env: Env)
    requires k < |w.subs|
  {
    var s := w.subs[k];
    && (o.started <==> Heard(w, s) && env.sends(s.id))
    && o.w.names == w.names && MovedFor(w.store, o.w.store, s) && Outcome(w, o.w, s)
    && |o.w.subs| == |w.subs| && SameCore(s, o.w.subs[k]) && o.w.subs[k].wake == 0 && o.w.subs[k].inflight == o.started
    && forall j | 0 <= j < |w.subs| && j != k :: o.w.subs[j] == w.subs[j]
  }

  lemma TurnSends(w: World, k: nat, env: Env)
    requires Unoccupied(w, k, env.now) && k < |w.subs| && !w.subs[k].gone
    ensures TurnEnds(w, k, StartDelivery(w, k, env), env)
  {
    hide GroupRec, Waiting, PushModel.Covers, HeardAt, Leased, PushModel.TryName, PushModel.StartFrom;
    var v := Cleared(w, k);
    StepHears(w, v, w.subs[k], v.subs[k], env.now);
    RoundSends(v, k, 0, env);
    StartShape(v, k, 0, env);
    forall j | 0 <= j < |w.subs| && j != k ensures StartDelivery(w, k, env).w.subs[j] == w.subs[j] { OthersKept(w, k, env, j); }
    assert forall name | name in w.names :: '/' !in name;
  }

  /** Some subscription from the `n`-th on has something waiting and a transport that takes it. */
  ghost predicate MaySend(w: World, n: nat, env: Env) {
    exists k | n <= k < |w.subs| :: Heard(w, w.subs[k]) && env.sends(w.subs[k].id)
  }

  /** A group nobody takes from, from the `n`-th subscription on. */
  ghost predicate Foreign(w: World, n: nat, name: string, group: string) {
    forall j | n <= j < |w.subs| && !w.subs[j].gone :: !Takes(w.subs[j], name, group)
  }

  /** How a pass over the rest of the list ends. */
  ghost predicate Passed(p: Pass, k: nat, env: Env, p': Pass) {
    && !p'.busy && (p'.started <==> p.started || MaySend(p.w, k, env))
    && p'.w.names == p.w.names && p'.w.store.logs == p.w.store.logs
    && (forall name: string, c: string | '/' !in name :: Waiting(p'.w.store, c, name) == Waiting(p.w.store, c, name))
    && (forall name: string, g: string | '/' !in name && Foreign(p.w, k, name, g) ::
          GroupRec(p'.w.store, name, g) == GroupRec(p.w.store, name, g))
    && |p'.w.subs| == |p.w.subs| && (forall j | 0 <= j < |p.w.subs| :: SameCore(p.w.subs[j], p'.w.subs[j]))
    && (forall j | 0 <= j < k && j < |p.w.subs| :: p'.w.subs[j] == p.w.subs[j])
    && (forall j | k <= j < |p.w.subs| && !p.w.subs[j].gone ::
          Outcome(p.w, p'.w, p.w.subs[j]) && (!p'.started ==> p'.w.subs[j].wake == 0 && !p'.w.subs[j].inflight))
  }

  lemma MaySendFrom(w: World, k: nat, env: Env)
    requires k < |w.subs|
    ensures MaySend(w, k, env) <==> (Heard(w, w.subs[k]) && env.sends(w.subs[k].id)) || MaySend(w, k + 1, env)
  {
    hide Heard;
  }

  /** A later subscription hears what it heard: its groups are not those of `k`. */
  lemma RestHears(w: World, w': World, k: nat, j: nat, now: nat)
    requires k < j < |w.subs| == |w'.subs| && Unoccupied(w, k, now) && !w.subs[k].gone && w'.names == w.names
    requires MovedFor(w.store, w'.store, w.subs[k]) && w'.subs[j] == w.subs[j]
    ensures Heard(w', w'.subs[j]) <==> Heard(w, w.subs[j])
    ensures !w.subs[j].gone ==>
              (Ready(w', w'.subs[j], now) <==> Ready(w, w.subs[j], now)) && (Lasting(w', w'.subs[j]) <==> Lasting(w, w.subs[j]))
    ensures !w.subs[j].gone && IsWorker(w.subs[j]) ==> forall name | name in w.names && Covers(w.subs[j].cfg.pattern, name) ::
              GroupRec(w'.store, name, w.subs[j].cfg.group) == GroupRec(w.store, name, w.subs[j].cfg.group)
  {
    hide GroupRec, Waiting, PushModel.Covers, HeardAt, Orderly;
    if !w.subs[j].gone {
      forall name | name in w.names && Covers(w.subs[j].cfg.pattern, name) && IsWorker(w.subs[j])
        ensures GroupRec(w'.store, name, w.subs[j].cfg.group) == GroupRec(w.store, name, w.subs[j].cfg.group)
      {
        assert !Takes(w.subs[k], name, w.subs[j].cfg.group);
      }
      StepHears(w, w', w.subs[j], w'.subs[j], now);
    }
  }

  lemma RestUnoccupied(w: World, w': World, k: nat, env: Env)
    requires k < |w.subs| && Unoccupied(w, k, env.now) && !w.subs[k].gone
    requires w'.names == w.names && MovedFor(w.store, w'.store, w.subs[k]) && |w'.subs| == |w.subs| && SameCore(w.subs[k], w'.subs[k])
    requires forall j | 0 <= j < |w.subs| && j != k :: w'.subs[j] == w.subs[j]
    ensures Unoccupied(w', k + 1, env.now) && (MaySend(w', k + 1, env) <==> MaySend(w, k + 1, env))
  {
    hide GroupRec, Waiting, PushModel.Covers, Heard, Ready, MovedFor;
    forall j | k < j < |w.subs|
      ensures Heard(w', w'.subs[j]) <==> Heard(w, w.subs[j])
      ensures !w.subs[j].gone ==> Ready(w', w'.subs[j], env.now)
    {
      RestHears(w, w', k, j, env.now);
    }
    assert w'.store.logs == w.store.logs by { LogsOfMoved(w.store, w'.store, w.subs[k]); }
  }

  lemma LogsOfMoved(st: Store, st': Store, s: Sub)
    requires MovedFor(st, st', s)
    ensures st'.logs == st.logs
  {
  }

  /** The turn, and the pass over the rest. */
  lemma PassJoins(p: Pass, k: nat, env: Env, o: Out, p': Pass)
    requires k < |p.w.subs| && Unoccupied(p.w, k, env.now) && !p.w.subs[k].gone && TurnEnds(p.w, k, o, env)
    requires Passed(Pass(o.w, p.started || o.started, false), k + 1, env, p')
    ensures Passed(p, k, env, p')
  {
    hide GroupRec, Waiting, PushModel.Covers, Heard, Ready, Leased, Lasting;
    RestUnoccupied(p.w, o.w, k, env);
    MaySendFrom(p.w, k, env);
    forall j | k <= j < |p.w.subs| && !p.w.subs[j].gone ensures Outcome(p.w, p'.w, p.w.subs[j]) {
      if j == k { OwnOutcome(p.w, o.w, p'.w, k, env); } else { LaterOutcome(p, k, env, o, p', j); }
    }
    forall name: string, g: string | '/' !in name && Foreign(p.w, k, name, g)
      ensures GroupRec(p'.w.store, name, g) == GroupRec(p.w.store, name, g)
    {
      assert !Takes(p.w.subs[k], name, g);
      assert Foreign(o.w, k + 1, name, g);
    }
  }

  lemma LaterOutcome(p: Pass, k: nat, env: Env, o: Out, p': Pass, j: nat)
    requires k < j < |p.w.subs| && Unoccupied(p.w, k, env.now) && !p.w.subs[k].gone && TurnEnds(p.w, k, o, env)
    requires Passed(Pass(o.w, p.started || o.started, false), k + 1, env, p') && !p.w.subs[j].gone
    ensures Outcome(p.w, p'.w, p.w.subs[j])
  {
    hide GroupRec, Waiting, PushModel.Covers, Heard, Ready, Leased, Lasting, MovedFor, Stuck, Unoccupied, Foreign, MaySend;
    RestHears(p.w, o.w, k, j, env.now);
    assert Outcome(o.w, p'.w, o.w.subs[j]);
  }

  /** What a turn came to stands: nobody later in the list takes from its groups. */
  lemma OwnOutcome(w: World, w1: World, w': World, k: nat, env: Env)
    requires k < |w.subs| == |w1.subs| && Unoccupied(w, k, env.now) && !w.subs[k].gone && Outcome(w, w1, w.subs[k])
    requires w1.names == w.names && w'.names == w.names && w'.store.logs == w1.store.logs
    requires forall j | 0 <= j < |w.subs| && j != k :: w1.subs[j] == w.subs[j]
    requires forall name: string, g: string | '/' !in name && Foreign(w1, k + 1, name, g) ::
               GroupRec(w'.store, name, g) == GroupRec(w1.store, name, g)
    ensures Outcome(w, w', w.subs[k])
  {
    hide GroupRec, Waiting, PushModel.Covers, Heard, Ready, Lasting;
    var s := w.subs[k];
    forall name | IsWorker(s) && name in w.names && Covers(s.cfg.pattern, name)
      ensures GroupRec(w'.store, name, s.cfg.group) == GroupRec(w1.store, name, s.cfg.group)
      ensures LogOf(w'.store, name) == LogOf(w1.store, name)
    {
      assert Foreign(w1, k + 1, name, s.cfg.group);
    }
  }

  lemma {:induction false} PassSends(p: Pass, k: nat, env: Env)
    requires Unoccupied(p.w, k, env.now) && !p.busy
    ensures Passed(p, k, env, PassFrom(p, k, env))
    decreases |p.w.subs| - k
  {
    hide PushModel.StartDelivery, GroupRec, Waiting, PushModel.Covers, Heard, Ready, Leased, Lasting, MovedFor, Outcome;
    if k >= |p.w.subs| {
    } else if p.w.subs[k].gone {
      GoneHearsNothing(p.w, p.w.subs[k]);
      MaySendFrom(p.w, k, env);
      PassSends(p, k + 1, env);
    } else {
      var o := StartDelivery(p.w, k, env);
      TurnSends(p.w, k, env);
      RestUnoccupied(p.w, o.w, k, env);
      ReadyIsDue(p.w, p.w.subs[k], env.now);
      PassSends(Pass(o.w, p.started || o.started, false), k + 1, env);
      PassJoins(p, k, env, o, PassFrom(Pass(o.w, p.started || o.started, false), k + 1, env));
    }
  }

  lemma GoneHearsNothing(w: World, s: Sub)
    requires s.gone
    ensures !Heard(w, s)
  {
  }

  lemma ReadyIsDue(w: World, s: Sub, now: nat)
    requires Ready(w, s, now)
    ensures TurnDue(s, now)
  {
  }

  // ---- what the engine loses -----------------------------------------------------------------

  /**
   Exactly when such an engine goes on scanning, whichever sends start: when some
   subscription has something waiting and a transport that takes it.  When it
   stops, nothing moves until something from outside starts it again, whatever
   expires meanwhile; what waited for a reader still waits, what waited for a
   worker stands leased to nobody, and something is lost if and only if anything
   was waiting.
   */
  lemma FailedSendsLoseWakeups(w: World, env: Env)
    requires w.work && Unoccupied(w, 0, env.now)
    ensures Pump(w, env).work <==> exists k | 0 <= k < |w.subs| :: Heard(w, w.subs[k]) && env.sends(w.subs[k].id)
    ensures !Pump(w, env).work ==> forall later: Env :: Pump(Pump(w, env), later) == Pump(w, env)
    ensures !Pump(w, env).work ==> forall k | 0 <= k < |w.subs| && Heard(w, w.subs[k]) ::
              if IsWorker(w.subs[k]) then Lasting(w, w.subs[k]) ==> Stuck(Pump(w, env), w.subs[k])
              else Heard(Pump(w, env), w.subs[k])
    ensures !Pump(w, env).work && (forall k | 0 <= k < |w.subs| :: Lasting(w, w.subs[k])) ==>
              (AllQuiet(Pump(w, env), env.now) <==> forall k | 0 <= k < |w.subs| :: !Heard(w, w.subs[k]))
  {
    hide PushModel.PassFrom, Heard, QuietAt, Unoccupied, Waiting, Lasting, Stuck, Quiet, Outcome, Foreign, GroupRec;
    var p := Pass(w, false, false);
    PassSends(p, 0, env);
    PassWorks(p, 0, env);
    var w' := Pump(w, env);
    if !w'.work {
      forall k | 0 <= k < |w.subs| && !w.subs[k].gone
        ensures Idle(w'.subs[k], env.now)
        ensures Heard(w, w.subs[k]) && !IsWorker(w.subs[k]) ==> Heard(w', w.subs[k])
        ensures Heard(w, w.subs[k]) && IsWorker(w.subs[k]) && Lasting(w, w.subs[k]) ==> Stuck(w', w.subs[k])
        ensures Lasting(w, w.subs[k]) ==> (Quiet(w', w'.subs[k]) <==> !Heard(w, w.subs[k]))
      {
        assert Outcome(w, PassFrom(p, 0, env).w, w.subs[k]);
        StoppedHears(w, PassFrom(p, 0, env).w, w', k, env.now);
      }
      forall k | 0 <= k < |w.subs| && w.subs[k].gone ensures !Heard(w, w.subs[k]) { GoneHearsNothing(w, w.subs[k]); }
    }
  }

  /** After a pass that started nothing, a subscription is quiet exactly when nothing waited for it. */
  lemma StoppedHears(w: World, w1: World, w': World, k: nat, now: nat)
    requires Unoccupied(w, 0, now) && k < |w.subs| == |w1.subs| && !w.subs[k].gone && w' == w1.(work := false)
    requires w1.names == w.names && w1.store.logs == w.store.logs && SameCore(w.subs[k], w1.subs[k])
    requires forall name: string, c: string | '/' !in name :: Waiting(w1.store, c, name) == Waiting(w.store, c, name)
    requires w1.subs[k].wake == 0 && !w1.subs[k].inflight && Outcome(w, w1, w.subs[k])
    ensures Idle(w'.subs[k], now)
    ensures Heard(w, w.subs[k]) && !IsWorker(w.subs[k]) ==> Heard(w', w.subs[k])
    ensures Heard(w, w.subs[k]) && IsWorker(w.subs[k]) && Lasting(w, w.subs[k]) ==> Stuck(w', w.subs[k])
    ensures Lasting(w, w.subs[k]) ==> (Quiet(w', w'.subs[k]) <==> !Heard(w, w.subs[k]))
  {
    hide GroupRec, PushModel.Covers, Lasting, NotShared;
    assert forall name | name in w.names :: LogOf(w1.store, name) == LogOf(w.store, name) && '/' !in name;
  }

  /** A reader of "a" and a worker on it, and a reader of "b", where there is nothing. */
  function FailingWorld(): World {
    World([NewSub(1, "r", Cfg("a", "", 0)), NewSub(2, "q", Cfg("b", "", 0)), NewSub(3, "w", Cfg("a", "g", 1))],
          ["a", "b"], true, 0, Store(map["a" := Range(0, 1), "b" := Range(0, 0)], map[], map[]))
  }

  lemma FailingNames(x: string)
    ensures Covers("a", x) <==> x == "a"
    ensures Covers("b", x) <==> x == "b"
    ensures x in FailingWorld().names <==> x == "a" || x == "b"
    ensures x == "a" || x == "b" ==> '/' !in x
  {
    assert !HasWildcard("a") && !HasWildcard("b");
    assert |"a"| == 1 && "a"[0] == 'a' && |"b"| == 1 && "b"[0] == 'b';
    var names := FailingWorld().names;
    assert names[0] == "a" && names[1] == "b";
  }

  lemma FailingUnoccupied(now: nat)
    ensures
      var w := FailingWorld();
      Unoccupied(w, 0, now) && Heard(w, w.subs[0]) && Heard(w, w.subs[2]) && Lasting(w, w.subs[2])
  {
    var w := FailingWorld();
    hide PushModel.Covers;
    forall x: string ensures (Covers("a", x) <==> x == "a") && (Covers("b", x) <==> x == "b")
        && (x in w.names <==> x == "a" || x == "b") && (x == "a" || x == "b" ==> '/' !in x) {
      FailingNames(x);
    }
    assert GroupRec(w.store, "a", "g") == FreshRec(1);
    assert HeardAt(w.store, w.subs[0], "a") && HeardAt(w.store, w.subs[2], "a");
  }

  /** And there is such an engine with something waiting: the sends of its reader and of its worker fail. */
  lemma FailedSendExample(env: Env)
    requires !env.sends(1) && !env.sends(3)
    ensures
      var w, w' := FailingWorld(), Pump(FailingWorld(), env);
      && Unoccupied(w, 0, env.now) && !w'.work
      && Heard(w', w.subs[0]) && Stuck(w', w.subs[2])
  {
    hide Unoccupied, Heard, Lasting, Stuck, PushModel.Pump;
    var w := FailingWorld();
    FailingUnoccupied(env.now);
    FailingNothingElse();
    FailedSendsLoseWakeups(w, env);
  }

  lemma FailingNothingElse()
    ensures var w := FailingWorld(); !Heard(w, w.subs[1])
  {
    var w := FailingWorld();
    forall x | x in w.names && Covers("b", x) ensures !HeardAt(w.store, w.subs[1], x) { FailingNames(x); }
  }
}
