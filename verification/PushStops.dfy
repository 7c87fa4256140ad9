/**
 When a pass stops the engine, told from the state before it: what each
 subscription will be shown when its turn comes, and that the pass goes on if and
 only if one of them finds something to start or to wait for.
 */
module PushStops {
  import opened Options
  import opened Words
  import opened Names
  import opened PushModel
  import opened PushReceipts
  import opened PushQuiet
  import opened PushTurn
  import opened PushPass

  // ---- what will be shown ----------------------------------------------------------------

  /** The log of `x` as the first `n` turns leave it. */
  ghost function RangeAfter(w: World, x: string, n: nat, now: nat): Range {
    var r := LogOf(w.store, x);
    Range(r.base, r.last + LettersTo(w, x, n, now))
  }

  /** `x` is on the list when the first `n` turns are over. */
  ghost predicate OnList(w: World, x: string, n: nat, now: nat) {
    x in w.names || LettersTo(w, x, n, now) > 0
  }

  /** Worker `j` is asked about `x` before it buries what it will send there itself. */
  ghost predicate OwnLate(w: World, j: nat, x: string)
    requires j < |w.subs|
  {
    Source(x).Some? && FirstInRound(w.names, w.subs[j].rr, x, Source(x).value)
  }

  /** A reader stands before the end it will be shown. */
  ghost predicate ReaderStirs(w: World, j: nat, x: string, now: nat)
    requires j < |w.subs|
  {
    && OnList(w, x, j, now)
    && Max(Acked(w.store, JoinKey(x, w.subs[j].consumer)), LogOf(w.store, x).base) < RangeAfter(w, x, j, now).last
  }

  /** A worker's take will find something, or leave a lease. */
  ghost predicate WorkerStirs(w: World, j: nat, x: string, now: nat)
    requires j < |w.subs|
  {
    var s := w.subs[j];
    var q := GroupRec(w.store, x, s.cfg.group);
    || (OnList(w, x, j, now) && !(AllSpent(q, now) && HadNothing(q, WantJobs(s.cfg), RangeAfter(w, x, j, now))))
    || (OnList(w, x, j + 1, now) && !OwnLate(w, j, x)
        && !Straggling(q, LogOf(w.store, x).base) && q.next <= RangeAfter(w, x, j + 1, now).last)
  }

  ghost predicate StirsAt(w: World, j: nat, x: string, now: nat) {
    && j < |w.subs| && !w.subs[j].gone && Covers(w.subs[j].cfg.pattern, x)
    && if IsWorker(w.subs[j]) then WorkerStirs(w, j, x, now) else ReaderStirs(w, j, x, now)
  }

  ghost predicate Stirs(w: World, now: nat) {
    exists j, x :: StirsAt(w, j, x, now)
  }

  // ---- what stirs keeps the engine going -------------------------------------------------------

  /** What a turn that came to nothing left of a subject that was on the list before it. */
  lemma ShownBefore(w0: World, w: World, w': World, n: nat, now: nat, x: string)
    requires TurnInVain(w0, w, w', n, now) && OnList(w0, x, n, now) && Covers(w0.subs[n].cfg.pattern, x) && PlainNames(w'.names)
    ensures '/' !in x && LogOf(w.store, x) == RangeAfter(w0, x, n, now)
    ensures n < |w.subs| && IsWorker(w.subs[n]) == IsWorker(w0.subs[n])
    ensures IsWorker(w.subs[n]) ==>
              GroupRec(w'.store, x, w.subs[n].cfg.group).fl == []
              && HadNothing(GroupRec(w.store, x, w.subs[n].cfg.group), WantJobs(w.subs[n].cfg), LogOf(w.store, x))
    ensures !IsWorker(w.subs[n]) ==> QuietAt(w'.store, w.subs[n], x)
  {
    hide GroupsMoved, LogsMoved, Standing, AllQuietSo, GroupsSo, LettersTo, QuietAt, GroupRec, HadNothing, NamesGrown;
    TurnParts(w0, w, w', n, now);
    assert x in w.names by { if x in w0.names { PrefixHas(w0.names, w.names, x); } }
    var p :| 0 <= p < |w.names| && w.names[p] == x;
    assert w'.names[p] == x && x in w'.names;
    assert Fine(w, w', n, p);
  }

  lemma PrefixHas(a: seq<string>, b: seq<string>, x: string)
    requires a <= b && x in a
    ensures x in b
  {
    var i :| 0 <= i < |a| && a[i] == x;
    assert b[i] == x;
  }

  lemma ReaderWasStill(w0: World, w: World, w': World, n: nat, now: nat, x: string)
    requires TurnInVain(w0, w, w', n, now) && PlainNames(w'.names) && Steady(w0)
    requires Covers(w0.subs[n].cfg.pattern, x) && !IsWorker(w0.subs[n])
    ensures !ReaderStirs(w0, n, x, now)
  {
    hide GroupsMoved, NamesGrown, NamesSo, GroupsSo, AllQuietSo, LettersTo, Fine, Letters;
    if ReaderStirs(w0, n, x, now) {
      ShownBefore(w0, w, w', n, now, x);
      TurnStanding(w0, w, w', n, now);
      TurnLogs(w0, w, w', n, now);
      LettersRise(w0, w, w', n, now, x);
    }
  }

  lemma WorkerWasStill(w0: World, w: World, w': World, n: nat, now: nat, x: string)
    requires TurnInVain(w0, w, w', n, now) && PlainNames(w'.names) && Steady(w0)
    requires Covers(w0.subs[n].cfg.pattern, x) && IsWorker(w0.subs[n])
    ensures !WorkerStirs(w0, n, x, now)
  {
    var g, q := w0.subs[n].cfg.group, GroupRec(w0.store, x, w0.subs[n].cfg.group);
    if OnList(w0, x, n, now) {
      hide GroupsMoved, LogsMoved, NamesGrown, NamesSo, AllQuietSo, LettersTo, Fine, Letters, Standing, GroupRec, HadNothing, QuietAt;
      ShownBefore(w0, w, w', n, now, x);
      TurnGroups(w0, w, w', n, now);
      assert Evolved(q, GroupRec(w'.store, x, g), LogOf(w0.store, x).base, now);
      assert Evolved(q, GroupRec(w.store, x, g), LogOf(w0.store, x).base, now);
      HadNothingBefore(q, GroupRec(w.store, x, g), WantJobs(w0.subs[n].cfg), RangeAfter(w0, x, n, now), LogOf(w.store, x), now);
      assert AllSpent(q, now) && HadNothing(q, WantJobs(w0.subs[n].cfg), RangeAfter(w0, x, n, now));
    }
    if OnList(w0, x, n + 1, now) && !OwnLate(w0, n, x) && !Straggling(q, LogOf(w0.store, x).base) {
      OwnWasQuiet(w0, w, w', n, now, x);
    }
  }

  /** What a turn leaves of a channel that it does not bury into too late: nothing still there to hand out. */
  lemma NotLateIsQuiet(w0: World, w: World, w': World, n: nat, now: nat, x: string)
    requires TurnInVain(w0, w, w', n, now) && PlainNames(w'.names) && Steady(w0)
    requires Covers(w0.subs[n].cfg.pattern, x) && IsWorker(w0.subs[n]) && x in w'.names && !OwnLate(w0, n, x)
    requires !Straggling(GroupRec(w0.store, x, w0.subs[n].cfg.group), LogOf(w0.store, x).base)
    ensures QuietAt(w'.store, w0.subs[n], x)
  {
    hide LogsMoved, Standing, Letters, LettersTo, QuietAt, NamesGrown, NamesSo, LogsSo, AllQuietSo, DeadName, GroupRec, FirstInRound, Earlier, HadNothing;
    TurnParts(w0, w, w', n, now);
    var p :| 0 <= p < |w'.names| && w'.names[p] == x;
    assert Fine(w, w', n, p);
    SameQuietCore(w'.store, w0.subs[n], w.subs[n], x);
    if !QuietAt(w'.store, w0.subs[n], x) {
      var g := w0.subs[n].cfg.group;
      BasesSo(w0, w, n, now, x);
      assert Evolved(GroupRec(w0.store, x, g), GroupRec(w.store, x, g), LogOf(w0.store, x).base, now);
      var q :| 0 <= q < |w'.names| && Source(x) == Some(w'.names[q]) && Earlier(w.subs[n].rr, p, q);
      OrderBefore(w0, w, w', n, now, p, q, x, w'.names[q]);
    }
  }

  /** A worker that is asked after it has buried, or buries nothing, has handed out all there is when its turn is over. */
  lemma OwnWasQuiet(w0: World, w: World, w': World, n: nat, now: nat, x: string)
    requires TurnInVain(w0, w, w', n, now) && PlainNames(w'.names) && Steady(w0)
    requires Covers(w0.subs[n].cfg.pattern, x) && IsWorker(w0.subs[n])
    requires OnList(w0, x, n + 1, now) && !OwnLate(w0, n, x)
    requires !Straggling(GroupRec(w0.store, x, w0.subs[n].cfg.group), LogOf(w0.store, x).base)
    ensures RangeAfter(w0, x, n + 1, now).last < GroupRec(w0.store, x, w0.subs[n].cfg.group).next
  {
    var g := w0.subs[n].cfg.group;
    hide GroupsMoved, LogsMoved, NamesGrown, AllQuietSo, LettersTo, Fine, Letters, Standing, GroupRec, OwnLate, Progress, Turned, TurnInVain;
    LettersRise(w0, w, w', n, now, x);
    TurnGroups(w0, w, w', n, now);
    TurnNames(w0, w, w', n, now);
    TurnLogs(w0, w, w', n, now);
    if LettersTo(w0, x, n + 1, now) == LettersTo(w0, x, n, now) {
      ShownBefore(w0, w, w', n, now, x);
      GroupBefore(w0, w, w', n, now, x, g);
      HadNothingBefore(GroupRec(w0.store, x, g), GroupRec(w.store, x, g), WantJobs(w0.subs[n].cfg),
                       RangeAfter(w0, x, n, now), LogOf(w.store, x), now);
    } else {
      if x in w0.names { PrefixHas(w0.names, w'.names, x); }
      NotLateIsQuiet(w0, w, w', n, now, x);
      LogsOrdered(w0.store, x);
    }
  }

  lemma GroupBefore(w0: World, w: World, w': World, n: nat, now: nat, x: string, g: string)
    requires TurnInVain(w0, w, w', n, now) && '/' !in x
    ensures Evolved(GroupRec(w0.store, x, g), GroupRec(w.store, x, g), LogOf(w0.store, x).base, now)
    ensures n < |w.subs| && SameCore(w0.subs[n], w.subs[n])
  {
  }

  /** The turn of `j` in a pass that starts nothing and finds nothing to wait for. */
  lemma {:induction false} PassTurn(w0: World, p: Pass, k: nat, j: nat, env: Env) returns (v: World, v': World)
    requires AllSend(env) && Steady(w0) && Steady(p.w) && k <= j < |p.w.subs| && Progress(w0, p.w, k, env.now)
    requires |p.w.subs| == |w0.subs| && !w0.subs[j].gone
    requires !p.started && !p.busy && !PassFrom(p, k, env).started && !PassFrom(p, k, env).busy
    ensures TurnInVain(w0, v, v', j, env.now) && PlainNames(v'.names)
    decreases |p.w.subs| - k
  {
    hide PushModel.StartDelivery, NamesSo, LogsSo, GroupsSo, Standing, AllQuietSo, Steady, TurnInVain;
    var s := p.w.subs[k];
    assert SameCore(w0.subs[k], s);
    if s.gone {
      ProgressSkips(w0, p.w, k, env.now);
      v, v' := PassTurn(w0, p, k + 1, j, env);
    } else if s.inflight || s.due > env.now {
      PassStirs(p.(busy := true), k + 1, env);
      assert false;
    } else {
      var o := StartDelivery(p.w, k, env);
      var p' := Pass(o.w, p.started || o.started, p.busy || o.w.subs[k].wake != 0);
      PassStirs(p', k + 1, env);
      if k == j {
        TurnIsVain(w0, p.w, k, env);
        v, v' := Cleared(p.w, k), o.w;
      } else {
        TurnFruitless(w0, p.w, k, env);
        TurnSteady(p.w, k, env);
        v, v' := PassTurn(w0, p', k + 1, j, env);
      }
    }
  }

  /** A pass in which something stirs does not stop the engine. */
  lemma StirsGoesOn(w: World, env: Env)
    requires AllSend(env) && Steady(w) && w.work && Stirs(w, env.now)
    ensures Pump(w, env).work
  {
    hide Progress, Steady, TurnInVain, PushModel.PassFrom, WorkerStirs, ReaderStirs, PushModel.Covers;
    if !Pump(w, env).work {
      PassWorks(Pass(w, false, false), 0, env);
      ProgressStarts(w, env.now);
      var j: nat, x: string :| StirsAt(w, j, x, env.now);
      var v, v' := PassTurn(w, Pass(w, false, false), 0, j, env);
      if IsWorker(w.subs[j]) { WorkerWasStill(w, v, v', j, env.now, x); } else { ReaderWasStill(w, v, v', j, env.now, x); }
    }
  }
}
