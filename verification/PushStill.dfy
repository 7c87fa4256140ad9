/**
 The other half: a pass in which nothing stirs starts nothing and finds nothing
 to wait for, turn by turn and step by step.
 */
module PushStill {
  import opened Options
  import opened Words
  import opened Queue
  import opened Names
  import opened PushModel
  import opened PushReceipts
  import opened PushQuiet
  import opened PushTurn
  import opened PushPass
  import opened PushStops

  ghost predicate Distinct(names: seq<string>) {
    forall p, q | 0 <= p < q < |names| :: names[p] != names[q]
  }

  /** The list holds each subject there is, once. */
  ghost predicate AllListed(w: World) {
    Distinct(w.names) && forall x | x in w.store.logs :: x in w.names
  }

  /** No worker covers a subject on which its group has a zero lease and stands behind a trim. */
  ghost predicate NoStragglers(w: World) {
    forall j, x | 0 <= j < |w.subs| && !w.subs[j].gone && IsWorker(w.subs[j]) && x in w.names && Covers(w.subs[j].cfg.pattern, x) ::
      !Straggling(GroupRec(w.store, x, w.subs[j].cfg.group), LogOf(w.store, x).base)
  }

  ghost predicate StillWorld(w: World, now: nat) {
    now > 0 && Steady(w) && AllListed(w) && NoStragglers(w) && !Stirs(w, now)
  }

  // ---- a take with nothing to find ----------------------------------------------------------

  lemma {:induction false} ScanOfSpent(t: Taking, max: nat, now: nat, lease: nat)
    requires |t.chosen| < max && AllSpent(t.q, now)
    ensures var t' := ScanFrom(t, 0, max, now, lease); t'.q.fl == [] && t'.chosen == t.chosen && t'.q.next == t.q.next
    decreases |t.q.fl|
  {
    if t.q.fl != [] { ScanOfSpent(Bury(t, 0), max, now, lease); }
  }

  /** All leases spent and everything handed out: a take finds nothing and leaves nothing. */
  lemma SpentTakeIsEmpty(q: QRec, max: int, now: nat, r: Range)
    requires AllSpent(q, now) && r.last < q.next
    ensures var t := Take(q, max, None, now, r.last); t.chosen == [] && t.q.fl == []
  {
    ScanOfSpent(StartTake(q, None), ClampMax(max), now, q.leaseMs);
  }

  lemma WorkerGoesOn(w: World, k: nat, i: nat, env: Env)
    requires k < |w.subs| && i < |w.names| && IsWorker(w.subs[k]) && w.names[i] in w.store.logs
    requires AllSpent(GroupRec(w.store, w.names[i], w.subs[k].cfg.group), env.now)
    requires LogOf(w.store, w.names[i]).last < GroupRec(w.store, w.names[i], w.subs[k].cfg.group).next
    ensures var t := TryName(w, k, i, env); t.GoOn? && t.w.subs[k].wake == w.subs[k].wake
  {
    hide Queue.Take, AllSpent, DeadName, PushModel.AddAll;
    SpentTakeIsEmpty(GroupRec(w.store, w.names[i], w.subs[k].cfg.group), WantJobs(w.subs[k].cfg), env.now, w.store.logs[w.names[i]]);
  }

  // ---- where a step finds a subject -----------------------------------------------------------

  /** The round of subscription `k`, begun in `v`, has come to `w` after `n` steps. */
  ghost predicate MidRound(w0: World, v: World, w: World, k: nat, n: nat, now: nat) {
    && StillWorld(w0, now) && Progress(w0, v, k, now) && k < |w0.subs| && TurnDue(w0.subs[k], now)
    && Turned(v, w, k, now) && Steady(w) && w.subs[k].wake == 0 && v.subs[k].wake == 0
    && Distinct(w.names) && w.subs[k].rr == w0.subs[k].rr
    && Untouched(v, w, k, n)
  }

  /**
   The groups at positions the round has not come to are as they were; the next
   one may be asked for the second time, when the list grew while it was asked.
   */
  ghost predicate Untouched(v: World, w: World, k: nat, n: nat)
    requires k < |w.subs|
  {
    forall p | 0 <= p < |w.names| && !Dealt(w.subs[k].rr, n, |w.names|, p) && !(n < |w.names| && p == Position(w, k, n)) ::
      GroupRec(w.store, w.names[p], w.subs[k].cfg.group) == GroupRec(v.store, w.names[p], w.subs[k].cfg.group)
  }

  lemma MidRoundParts(w0: World, v: World, w: World, k: nat, n: nat, now: nat)
    requires MidRound(w0, v, w, k, n, now)
    ensures k < |v.subs| && k < |w.subs| && |v.subs| == |w0.subs| == |w.subs|
    ensures SameCore(w0.subs[k], v.subs[k]) && SameCore(w0.subs[k], w.subs[k])
    ensures w0.names <= v.names <= w.names && NamesSo(w0, v, k, now) && LogsSo(w0, v, k, now)
    ensures PlainNames(w.names) && forall x | x in w.names :: x in w.store.logs
    ensures w.subs[k].rr == 0 || w.subs[k].rr < |w0.names|
  {
  }

  lemma MidLogs(w0: World, v: World, w: World, k: nat, n: nat, now: nat, x: string)
    requires MidRound(w0, v, w, k, n, now) && '/' !in x
    ensures k < |w.subs|
    ensures LogOf(w.store, x).base == LogOf(w0.store, x).base
    ensures LogOf(w.store, x).last + Letters(w.store, v.subs[k], x)
         == RangeAfter(w0, x, k, now).last + Letters(v.store, v.subs[k], x)
    ensures Letters(w.store, v.subs[k], x) == Letters(v.store, v.subs[k], x) || Letters(w.store, v.subs[k], x) == 0
  {
    hide GroupRec, AllSpent, Standing, NamesGrown, NamesSo, AllQuietSo, StillWorld, Untouched, Steady;
    if Source(x).Some? && IsWorker(v.subs[k]) {
      SourceStands(v, w, k, now, x);
      SourceIs(Source(x).value, x);
      GroupEvolved(v, w, k, now, Source(x).value, v.subs[k].cfg.group);
    }
  }

  /** A subject that was on the list as the round began. */
  lemma MidOnList(w0: World, v: World, w: World, k: nat, n: nat, now: nat, x: string)
    requires MidRound(w0, v, w, k, n, now) && x in v.names
    ensures OnList(w0, x, k, now)
  {
    hide LettersTo, Steady, StillWorld;
    var p :| 0 <= p < |v.names| && v.names[p] == x;
    if p < |w0.names| { assert w0.names[p] == x; }
  }

  /** Letters of subscription `k`'s own turn. */
  lemma MidLetters(w0: World, v: World, w: World, k: nat, n: nat, now: nat, x: string)
    requires MidRound(w0, v, w, k, n, now) && Letters(v.store, v.subs[k], x) > 0
    requires Source(x).Some? && Source(x).value in v.names && Covers(v.subs[k].cfg.pattern, Source(x).value)
    ensures RangeAfter(w0, x, k + 1, now).last == RangeAfter(w0, x, k, now).last + Letters(v.store, v.subs[k], x)
    ensures OnList(w0, x, k + 1, now)
  {
    hide Steady, StillWorld, Standing, LogsMoved, GroupsMoved, NamesGrown, GroupsSo, AllQuietSo, CountLive;
    var s := Source(x).value;
    SourceIsOld(w0, v, k, now, s, x);
    LettersForetold(w0, v, k, now, x);
  }

  /** A channel's letters have left only a source that the round has come to. */
  lemma SourceWasAsked(w0: World, v: World, w: World, k: nat, n: nat, now: nat, q: nat, x: string)
    requires MidRound(w0, v, w, k, n, now) && q < |w.names| && Source(x) == Some(w.names[q])
    requires Letters(w.store, v.subs[k], x) < Letters(v.store, v.subs[k], x)
    requires n < |w.names| && w.names[Position(w, k, n)] == x
    ensures Dealt(w.subs[k].rr, n, |w.names|, q)
  {
    hide Standing, NamesGrown, NamesSo, AllQuietSo, StillWorld, Steady, Progress;
    SourceStands(v, w, k, now, x);
    SourceIs(w.names[q], x);
    forall p | 0 <= p < |w.names| && !Dealt(w.subs[k].rr, n, |w.names|, p) && p != Position(w, k, n)
      ensures Letters(w.store, v.subs[k], x) == Letters(v.store, v.subs[k], x) || Source(x) != Some(w.names[p])
    {
      assert GroupRec(w.store, w.names[p], w.subs[k].cfg.group) == GroupRec(v.store, w.names[p], w.subs[k].cfg.group);
    }
  }

  /** A channel asked after its source: its letters are not late. */
  lemma NotLate(w0: World, v: World, w: World, k: nat, n: nat, now: nat)
    requires MidRound(w0, v, w, k, n, now) && n < |w.names|
    requires var x := w.names[Position(w, k, n)]; Letters(w.store, v.subs[k], x) < Letters(v.store, v.subs[k], x)
    ensures !OwnLate(w0, k, w.names[Position(w, k, n)])
  {
    hide Standing, NamesGrown, NamesSo, AllQuietSo, StillWorld, Steady, Progress, Turned, Letters, Untouched, Source;
    MidRoundParts(w0, v, w, k, n, now);
    var i, rr := Position(w, k, n), w.subs[k].rr;
    var x := w.names[i];
    PositionIs(w, k, n);
    assert !Dealt(rr, n, |w.names|, i) && (i < |w0.names| ==> w0.names[i] == x);
    forall q | 0 <= q < |w0.names| && Source(x) == Some(w0.names[q])
      ensures q < rr ==> x in w0.names
      ensures forall p | 0 <= p < |w0.names| && w0.names[p] == x :: !Earlier(rr, p, q)
    {
      assert w.names[q] == w0.names[q];
      SourceWasAsked(w0, v, w, k, n, now, q, x);
      forall p | 0 <= p < |w0.names| && w0.names[p] == x ensures p == i { assert w.names[p] == x; }
    }
  }

  /** A channel that joined the list in this round is asked with its letters in it. */
  lemma JoinedChannel(w0: World, v: World, w: World, k: nat, n: nat, now: nat, x: string)
    requires MidRound(w0, v, w, k, n, now) && x in w.names && x !in v.names
    ensures Letters(w.store, v.subs[k], x) == 0 && Letters(v.store, v.subs[k], x) > 0
    ensures Source(x).Some? && Source(x).value in v.names && Covers(v.subs[k].cfg.pattern, Source(x).value)
    ensures x !in w0.store.logs
  {
    hide Standing, LogsMoved, GroupsMoved, NamesSo, AllQuietSo, Steady, Progress, Letters, Untouched, NoStragglers, Stirs;
    var p :| 0 <= p < |w.names| && w.names[p] == x;
    MidRoundParts(w0, v, w, k, n, now);
    forall q | 0 <= q < |v.names| ensures w.names[q] in v.names { assert w.names[q] == v.names[q]; }
    assert x !in w0.names by { forall y | y in w0.names ensures y in v.names { PrefixHas(w0.names, v.names, y); } }
  }

  lemma SomeLease(fl: seq<Lease>) returns (e: Lease)
    requires fl != []
    ensures e in fl
  {
    e := fl[0];
  }

  /** Nothing can be leased of a subject that has no log. */
  lemma NoLogNoLease(st: Store, x: string, g: string)
    requires StoreSound(st) && '/' !in x && x !in st.logs
    ensures GroupRec(st, x, g).fl == []
  {
    GroupRecSound(st, x, g);
    if GroupRec(st, x, g).fl != [] {
      var e := SomeLease(GroupRec(st, x, g).fl);
      assert false;
    }
  }

  /** A subject with no log has not been trimmed. */
  lemma UnknownIsNew(st: Store, x: string, g: string)
    requires StoreSound(st) && '/' !in x && x !in st.logs
    ensures !Straggling(GroupRec(st, x, g), LogOf(st, x).base)
  {
    GroupRecSound(st, x, g);
  }

  lemma JoinsAsChannel(w: World, x: string, n: nat, now: nat)
    requires OnList(w, x, n, now) && x !in w.names
    ensures '/' !in x
  {
    SourceIs(Source(x).value, x);
  }

  /** What nothing stirring means for a worker. */
  lemma StillWorker(w0: World, k: nat, x: string, now: nat)
    requires StillWorld(w0, now) && k < |w0.subs| && !w0.subs[k].gone && IsWorker(w0.subs[k]) && Covers(w0.subs[k].cfg.pattern, x)
    ensures
      var q := GroupRec(w0.store, x, w0.subs[k].cfg.group);
      && (OnList(w0, x, k, now) ==> AllSpent(q, now) && RangeAfter(w0, x, k, now).last < q.next)
      && (OnList(w0, x, k + 1, now) ==> !Straggling(q, LogOf(w0.store, x).base))
      && (OnList(w0, x, k + 1, now) && !OwnLate(w0, k, x) ==> RangeAfter(w0, x, k + 1, now).last < q.next)
  {
    hide LettersTo, OwnLate, AllSpent, GroupRec, StoreSound;
    assert !StirsAt(w0, k, x, now);
    if OnList(w0, x, k + 1, now) && x !in w0.names {
      JoinsAsChannel(w0, x, k + 1, now);
      UnknownIsNew(w0.store, x, w0.subs[k].cfg.group);
    }
    ListStays(w0, x, k, now);
  }

  lemma ListStays(w0: World, x: string, k: nat, now: nat)
    ensures OnList(w0, x, k, now) ==> OnList(w0, x, k + 1, now)
  {
  }

  /** Whatever the step comes to, a worker finds it spent and handed out. */
  lemma WorkerShown(w0: World, v: World, w: World, k: nat, n: nat, now: nat)
    requires MidRound(w0, v, w, k, n, now) && n < |w.names| && IsWorker(w0.subs[k])
    requires Covers(w0.subs[k].cfg.pattern, w.names[Position(w, k, n)])
    ensures
      var x, g := w.names[Position(w, k, n)], w0.subs[k].cfg.group;
      AllSpent(GroupRec(w.store, x, g), now) && LogOf(w.store, x).last < GroupRec(w.store, x, g).next
  {
    hide Standing, LettersTo, Letters, Untouched, NoStragglers, Stirs, GroupRec, OwnLate, NamesSo, LogsSo, AllQuietSo, Steady, PushModel.Position;
    var x, g := w.names[Position(w, k, n)], w0.subs[k].cfg.group;
    MidRoundParts(w0, v, w, k, n, now);
    assert x in w.names && '/' !in x;
    MidLogs(w0, v, w, k, n, now, x);
    MidGroup(w0, v, w, k, n, now, x, g);
    StillWorker(w0, k, x, now);
    if x in v.names {
      MidOnList(w0, v, w, k, n, now, x);
      if Letters(w.store, v.subs[k], x) < Letters(v.store, v.subs[k], x) {
        MidSource(w0, v, w, k, n, now, x);
        MidLetters(w0, v, w, k, n, now, x);
        NotLate(w0, v, w, k, n, now);
      }
    } else {
      JoinedChannel(w0, v, w, k, n, now, x);
      MidLetters(w0, v, w, k, n, now, x);
      NotLate(w0, v, w, k, n, now);
      StoreIsSound(w0);
      NoLogNoLease(w0.store, x, g);
    }
  }

  lemma StoreIsSound(w: World)
    requires Steady(w)
    ensures StoreSound(w.store)
  {
  }

  lemma MidGroup(w0: World, v: World, w: World, k: nat, n: nat, now: nat, x: string, g: string)
    requires MidRound(w0, v, w, k, n, now) && '/' !in x
    ensures Evolved(GroupRec(w0.store, x, g), GroupRec(w.store, x, g), LogOf(w0.store, x).base, now)
  {
    hide Standing, NamesGrown, NamesSo, AllQuietSo, StillWorld, Steady, GroupRec, Untouched;
    GroupEvolved(v, w, k, now, x, g);
    BasesSo(w0, v, k, now, x);
    EvolvedTrans(GroupRec(w0.store, x, g), GroupRec(v.store, x, g), GroupRec(w.store, x, g), LogOf(w0.store, x).base, now);
  }

  /** Letters fall only where the round has asked their source. */
  lemma MidSource(w0: World, v: World, w: World, k: nat, n: nat, now: nat, x: string)
    requires MidRound(w0, v, w, k, n, now) && Letters(w.store, v.subs[k], x) < Letters(v.store, v.subs[k], x)
    ensures Source(x).Some? && Source(x).value in v.names && Covers(v.subs[k].cfg.pattern, Source(x).value)
  {
    hide Standing, NamesSo, AllQuietSo, StillWorld, Steady, Untouched, Progress;
    var s := Source(x).value;
    SourceIs(s, x);
    SourceStands(v, w, k, now, x);
    assert s in w.names;
    var p :| 0 <= p < |w.names| && w.names[p] == s;
    if p < |v.names| { assert v.names[p] == s; }
  }

  // ---- one step, one round, one pass --------------------------------------------------------------

  lemma ReaderGoesOn(w0: World, v: World, w: World, k: nat, n: nat, env: Env)
    requires MidRound(w0, v, w, k, n, env.now) && n < |w.names| && !IsWorker(w0.subs[k])
    requires Covers(w0.subs[k].cfg.pattern, w.names[Position(w, k, n)])
    ensures k < |w.subs| && var t := TryName(w, k, Position(w, k, n), env); t.GoOn? && t.w.subs[k].wake == 0
  {
    hide LettersTo, Letters, Untouched, NoStragglers, NamesSo, LogsSo, AllQuietSo, Steady, PushModel.Position, PushModel.Covers, Standing, GroupsMoved;
    var x, c := w.names[Position(w, k, n)], w0.subs[k].consumer;
    MidRoundParts(w0, v, w, k, n, env.now);
    assert x in w.names && '/' !in x;
    MidLogs(w0, v, w, k, n, env.now, x);
    ReaderList(w0, v, w, k, n, env.now);
    MidOnList(w0, v, w, k, n, env.now, x);
    assert !StirsAt(w0, k, x, env.now);
    MidReceipts(w0, v, w, k, n, env.now, x, c);
  }

  lemma ReaderList(w0: World, v: World, w: World, k: nat, n: nat, now: nat)
    requires MidRound(w0, v, w, k, n, now) && !IsWorker(w0.subs[k])
    ensures k < |v.subs| && w.names == v.names && forall x :: Letters(w.store, v.subs[k], x) == 0 && Letters(v.store, v.subs[k], x) == 0
  {
    MidRoundParts(w0, v, w, k, n, now);
    if |v.names| < |w.names| { OnlyWorkersGrow(v, w, k); }
  }

  lemma OnlyWorkersGrow(v: World, w: World, k: nat)
    requires k < |v.subs| && NamesGrown(v, w, k) && |v.names| < |w.names|
    ensures IsWorker(v.subs[k])
  {
    assert Letters(v.store, v.subs[k], w.names[|v.names|]) > 0;
  }

  lemma MidReceipts(w0: World, v: World, w: World, k: nat, n: nat, now: nat, x: string, c: string)
    requires MidRound(w0, v, w, k, n, now) && '/' !in x
    ensures Max(Acked(w.store, JoinKey(x, c)), LogOf(w0.store, x).base) == Max(Acked(w0.store, JoinKey(x, c)), LogOf(w0.store, x).base)
  {
    hide Untouched, Steady, StillWorld, NamesGrown, GroupsMoved, NamesSo, GroupsSo, AllQuietSo, Letters, LettersTo;
    BasesSo(w0, v, k, now, x);
    assert Max(Acked(w.store, JoinKey(x, c)), LogOf(v.store, x).base) == Max(Acked(v.store, JoinKey(x, c)), LogOf(v.store, x).base);
    assert Max(Acked(v.store, JoinKey(x, c)), LogOf(w0.store, x).base) == Max(Acked(w0.store, JoinKey(x, c)), LogOf(w0.store, x).base);
  }

  /** The next step goes on, and finds nothing to wait for. */
  lemma StepStill(w0: World, v: World, w: World, k: nat, n: nat, env: Env)
    requires MidRound(w0, v, w, k, n, env.now) && n < |w.names|
    ensures VainStep(w, k, Position(w, k, n), env)
  {
    hide Progress, Turned, StillWorld, Untouched, PushModel.Position, StoreSound, PushModel.TryWorker, PushModel.TryReader;
    MidRoundParts(w0, v, w, k, n, env.now);
    StillClock(w0, env.now);
    var x := w.names[Position(w, k, n)];
    assert x in w.names;
    if Covers(w0.subs[k].cfg.pattern, x) {
      if IsWorker(w0.subs[k]) {
        WorkerShown(w0, v, w, k, n, env.now);
        WorkerGoesOn(w, k, Position(w, k, n), env);
      } else {
        ReaderGoesOn(w0, v, w, k, n, env);
      }
    }
  }

  lemma StillClock(w0: World, now: nat)
    requires StillWorld(w0, now)
    ensures now > 0 && Steady(w0)
  {
  }

  lemma StepDistinct(w: World, k: nat, i: nat, env: Env)
    requires k < |w.subs| && i < |w.names| && Distinct(w.names)
    ensures Distinct(TryName(w, k, i, env).w.names)
  {
    hide PushModel.AskQueue, PushModel.AskReader, PushModel.Covers, DeadName;
  }

  /** A step touches the group it asks and no other. */
  lemma StepTouches(w: World, k: nat, i: nat, env: Env, x: string)
    requires VainStep(w, k, i, env) && '/' !in x && x != w.names[i]
    ensures GroupRec(TryName(w, k, i, env).w.store, x, w.subs[k].cfg.group) == GroupRec(w.store, x, w.subs[k].cfg.group)
  {
    var s, name := w.subs[k], w.names[i];
    if Covers(s.cfg.pattern, name) && IsWorker(s) {
      hide Queue.Take, PushModel.AskQueue, PushModel.TryName, DeadName, Letters;
      WorkerAsksInVain(w, k, i, env);
      VainGroups(w.store, s, name, env.now, x, s.cfg.group);
    }
  }

  /** Positions the round will come to after the next step, but not in it. */
  lemma StillAhead(rr: nat, n: nat, size: nat, size': nat, i: nat, i': nat, p: nat)
    requires rr == 0 || rr < size
    requires n < size <= size' <= size + 1 && i == (if rr + n < size then rr + n else rr + n - size)
    requires n + 1 < size' ==> i' == if rr + n + 1 < size' then rr + n + 1 else rr + n + 1 - size'
    requires p < size' && !Dealt(rr, n + 1, size', p) && !(n + 1 < size' && p == i')
    ensures p != i && (p < size ==> !Dealt(rr, n, size, p))
  {
  }

  lemma StepUntouched(w0: World, v: World, w: World, k: nat, n: nat, env: Env)
    requires MidRound(w0, v, w, k, n, env.now) && n < |w.names| && VainStep(w, k, Position(w, k, n), env)
    ensures var t := TryName(w, k, Position(w, k, n), env).w; k < |t.subs| && Untouched(v, t, k, n + 1)
  {
    hide MidRound, VainStep, PushModel.TryName, GroupRec, Steady, PushModel.Position, Dealt;
    MidRoundParts(w0, v, w, k, n, env.now);
    var i := Position(w, k, n);
    var t := TryName(w, k, i, env).w;
    VainParts(w, k, i, env);
    StepShort(w, k, i, env);
    PositionIs(w, k, n);
    var g, i' := w.subs[k].cfg.group, if n + 1 < |t.names| then Position(t, k, n + 1) else 0;
    if n + 1 < |t.names| { PositionIs(t, k, n + 1); }
    forall p | 0 <= p < |t.names| && !Dealt(w.subs[k].rr, n + 1, |t.names|, p) && !(n + 1 < |t.names| && p == Position(t, k, n + 1))
      ensures GroupRec(t.store, t.names[p], g) == GroupRec(v.store, t.names[p], g)
    {
      StillAhead(w.subs[k].rr, n, |w.names|, |t.names|, i, i', p);
      StepUntouchedAt(w0, v, w, k, n, env, p);
    }
  }

  lemma VainParts(w: World, k: nat, i: nat, env: Env)
    requires VainStep(w, k, i, env)
    ensures k < |w.subs| && Steady(w) && env.now > 0 && i < |w.names|
    ensures var t := TryName(w, k, i, env).w; k < |t.subs| && t.subs[k].rr == w.subs[k].rr && t.subs[k].cfg == w.subs[k].cfg
  {
    hide GroupsMoved, LogsMoved, NamesGrown, Standing, PushModel.TryName;
    StepTurned(w, k, i, env);
  }

  lemma StepUntouchedAt(w0: World, v: World, w: World, k: nat, n: nat, env: Env, p: nat)
    requires MidRound(w0, v, w, k, n, env.now) && n < |w.names| && VainStep(w, k, Position(w, k, n), env)
    requires PlainNames(TryName(w, k, Position(w, k, n), env).w.names)
    requires p < |TryName(w, k, Position(w, k, n), env).w.names| && p != Position(w, k, n)
    requires p < |w.names| ==> !Dealt(w.subs[k].rr, n, |w.names|, p)
    ensures
      var t, g := TryName(w, k, Position(w, k, n), env).w, w.subs[k].cfg.group;
      GroupRec(t.store, t.names[p], g) == GroupRec(v.store, t.names[p], g)
  {
    hide Progress, StillWorld, PushModel.TryName, LogsMoved, Standing, Letters, Source, Evolved, GroupRec, Steady, PushModel.Covers, PushModel.Position, Dealt;
    var i := Position(w, k, n);
    var t := TryName(w, k, i, env).w;
    StepTurned(w, k, i, env);
    assert t.names[p] in t.names;
    if p < |w.names| {
      assert t.names[p] == w.names[p];
    } else {
      assert t.names[p] !in w.names;
    }
    StepTouches(w, k, i, env, t.names[p]);
  }

  lemma StepShort(w: World, k: nat, i: nat, env: Env)
    requires k < |w.subs| && i < |w.names| && env.now > 0 && Steady(w)
    ensures w.names <= TryName(w, k, i, env).w.names && |TryName(w, k, i, env).w.names| <= |w.names| + 1
    ensures PlainNames(TryName(w, k, i, env).w.names)
  {
    hide PushModel.AskQueue, PushModel.AskReader, StoreSound, DeadName;
    TryWorkerSteady(w, k, i, env);
    TryReaderSteady(w, k, i, env);
  }

  lemma StepMid(w0: World, v: World, w: World, k: nat, n: nat, env: Env)
    requires MidRound(w0, v, w, k, n, env.now) && n < |w.names| && AllSend(env)
    ensures VainStep(w, k, Position(w, k, n), env)
    ensures MidRound(w0, v, TryName(w, k, Position(w, k, n), env).w, k, n + 1, env.now)
  {
    hide Progress, StillWorld, PushModel.TryName, Untouched, Turned, Steady, PushModel.Position;
    MidRoundParts(w0, v, w, k, n, env.now);
    var i := Position(w, k, n);
    StepStill(w0, v, w, k, n, env);
    StepTurned(w, k, i, env);
    TurnedTrans(v, w, TryName(w, k, i, env).w, k, env.now);
    TurnedSame(w, TryName(w, k, i, env).w, k, env.now);
    TryOnwards(w, k, i, env);
    StepDistinct(w, k, i, env);
    StepUntouched(w0, v, w, k, n, env);
  }

  lemma {:induction false} RoundStill(w0: World, v: World, w: World, k: nat, n: nat, env: Env)
    requires MidRound(w0, v, w, k, n, env.now) && AllSend(env)
    ensures
      var o := StartFrom(w, k, n, env);
      k < |o.w.subs| && !o.started && o.w.subs[k].wake == 0 && Distinct(o.w.names)
    decreases LeftToAsk(w.names, n)
  {
    hide Progress, StillWorld, PushModel.TryName, Untouched, Turned, Steady, PushModel.Position;
    MidRoundParts(w0, v, w, k, n, env.now);
    if n < |w.names| {
      var i := Position(w, k, n);
      TryLeavesLess(w, k, i, n, env);
      StepMid(w0, v, w, k, n, env);
      RoundStill(w0, v, TryName(w, k, i, env).w, k, n + 1, env);
    }
  }

  lemma TurnStill(w0: World, w: World, k: nat, env: Env)
    requires AllSend(env) && StillWorld(w0, env.now) && Progress(w0, w, k, env.now) && Steady(w) && Distinct(w.names)
    requires k < |w0.subs| && k < |w.subs| && TurnDue(w.subs[k], env.now)
    ensures
      var o := StartDelivery(w, k, env);
      !o.started && o.w.subs[k].wake == 0 && Distinct(o.w.names)
  {
    hide Progress, StillWorld, GroupsMoved, LogsMoved, NamesGrown, Standing, StoreSound;
    var v := Cleared(w, k);
    WakeCleared(w0, w, v, k, env.now);
    SameTurned(v, v, k, env.now);
    SubsStand(w0, w, k, env.now);
    assert Steady(v);
    assert Untouched(v, v, k, 0);
    RoundStill(w0, v, v, k, 0, env);
  }

  lemma SubsStand(w0: World, w: World, k: nat, now: nat)
    requires Progress(w0, w, k, now) && k < |w0.subs|
    ensures |w.subs| == |w0.subs| && SameCore(w0.subs[k], w.subs[k]) && w.subs[k].rr == w0.subs[k].rr && w.subs[k].inflight == w0.subs[k].inflight
  {
  }

  lemma {:induction false} PassStill(w0: World, p: Pass, k: nat, env: Env)
    requires AllSend(env) && StillWorld(w0, env.now) && k <= |p.w.subs| == |w0.subs| && Progress(w0, p.w, k, env.now)
    requires Steady(p.w) && Distinct(p.w.names) && !p.started && !p.busy && !KeptBusy(w0, env.now)
    ensures !PassFrom(p, k, env).started && !PassFrom(p, k, env).busy
    decreases |p.w.subs| - k
  {
    hide PushModel.StartDelivery, Progress, StillWorld, Steady, Distinct;
    if k < |p.w.subs| {
      var s := p.w.subs[k];
      SubsStand(w0, p.w, k, env.now);
      StillClock(w0, env.now);
      if s.gone {
        ProgressSkips(w0, p.w, k, env.now);
        PassStill(w0, p, k + 1, env);
      } else {
        assert TurnDue(w0.subs[k], env.now);
        var o := StartDelivery(p.w, k, env);
        TurnStill(w0, p.w, k, env);
        TurnFruitless(w0, p.w, k, env);
        TurnSteady(p.w, k, env);
        PassStill(w0, Pass(o.w, p.started || o.started, p.busy || o.w.subs[k].wake != 0), k + 1, env);
      }
    }
  }

  /**
   Exactly when a pump stops the engine, told from the state before it: when every
   live subscription is free and due, and none finds anything to start or to wait
   for in what it will be shown.
   */
  lemma StopsExactly(w: World, env: Env)
    requires AllSend(env) && Steady(w) && AllListed(w) && NoStragglers(w) && w.work
    ensures Stops(w, env) <==> !KeptBusy(w, env.now) && !Stirs(w, env.now)
  {
    hide Progress, Steady, AllListed, NoStragglers, Stirs, KeptBusy, PushModel.PassFrom;
    if KeptBusy(w, env.now) { BusyGoesOn(w, env); }
    if Stirs(w, env.now) { StirsGoesOn(w, env); }
    if !KeptBusy(w, env.now) && !Stirs(w, env.now) {
      ProgressStarts(w, env.now);
      ListedIsDistinct(w);
      PassStill(w, Pass(w, false, false), 0, env);
    }
  }

  lemma ListedIsDistinct(w: World)
    requires AllListed(w)
    ensures Distinct(w.names)
  {
  }

  // ---- the list stays complete -------------------------------------------------------------------

  lemma AskedLogs(st: Store, cfg: Cfg, name: string, now: nat)
    ensures
      var a := AskQueue(st, cfg, name, now);
      forall x | x in a.st.logs :: x in st.logs || (x in a.dead && DeadName(name) == Some(x))
  {
    hide Queue.Take, DeadName, PushModel.LiveJobs, PushModel.CountLive;
  }

  lemma AskedListed(w: World, name: string, a: Asked)
    requires AllListed(w) && forall x | x in a.st.logs :: x in w.store.logs || (x in a.dead && DeadName(name) == Some(x))
    ensures AllListed(AfterAsk(w, name, a))
  {
    hide DeadName;
  }

  lemma SameListed(w: World, w': World)
    requires AllListed(w) && w'.names == w.names && w'.store.logs == w.store.logs
    ensures AllListed(w')
  {
  }

  lemma TryListed(w: World, k: nat, i: nat, env: Env)
    requires k < |w.subs| && i < |w.names| && AllListed(w)
    ensures AllListed(TryName(w, k, i, env).w)
  {
    hide PushModel.AskQueue, PushModel.AfterAsk, DeadName, Distinct;
    AskedLogs(w.store, w.subs[k].cfg, w.names[i], env.now);
    AskedListed(w, w.names[i], AskQueue(w.store, w.subs[k].cfg, w.names[i], env.now));
    var a := AskQueue(w.store, w.subs[k].cfg, w.names[i], env.now);
    SameListed(AfterAsk(w, w.names[i], a), TryWorker(w, k, i, env).w);
  }

  lemma {:induction false} StartListed(w: World, k: nat, n: nat, env: Env)
    requires k < |w.subs| && AllListed(w)
    ensures AllListed(StartFrom(w, k, n, env).w)
    decreases LeftToAsk(w.names, n)
  {
    hide AllListed, PushModel.TryName;
    if n < |w.names| {
      var i := Position(w, k, n);
      TryLeavesLess(w, k, i, n, env);
      TryListed(w, k, i, env);
      var t := TryName(w, k, i, env);
      if t.GoOn? { StartListed(t.w, k, n + 1, env); }
    }
  }

  lemma {:induction false} PassListed(p: Pass, k: nat, env: Env)
    requires AllListed(p.w)
    ensures AllListed(PassFrom(p, k, env).w)
    decreases |p.w.subs| - k
  {
    hide Distinct;
    if k < |p.w.subs| {
      var s := p.w.subs[k];
      if s.gone {
        PassListed(p, k + 1, env);
      } else if s.inflight || s.due > env.now {
        PassListed(p.(busy := true), k + 1, env);
      } else {
        var o := StartDelivery(p.w, k, env);
        StartListed(Cleared(p.w, k), k, 0, env);
        PassListed(Pass(o.w, p.started || o.started, p.busy || o.w.subs[k].wake != 0), k + 1, env);
      }
    }
  }

  /** The engine's list, read from the store as it opens, stays complete in every run. */
  lemma {:induction false} RunListed(w: World, moves: seq<Move>)
    requires AllListed(w) && PushReceipts.Run(w, moves).Some?
    ensures AllListed(PushReceipts.Run(w, moves).value)
  {
    if moves != [] {
      RunListed(w, moves[..|moves| - 1]);
      MoveListed(PushReceipts.Run(w, moves[..|moves| - 1]).value, moves[|moves| - 1]);
    }
  }

  lemma MoveListed(w: World, m: Move)
    requires AllListed(w) && Allowed(w, m)
    ensures AllListed(Moved(w, m))
  {
    match m
    case DoSeed(consumer, pattern, atEnd, from) => SeedLogs(w.store, w.names, |w.names|, consumer, pattern, atEnd, from);
    case DoPump(env) => if w.work { PassListed(Pass(w, false, false), 0, env); }
    case _ =>
  }
}
