/**
 A pass that stops the engine: what it has done, told from the state before it,
 and exactly when it leaves something undelivered.
 */
module PushPass {
  import opened Options
  import opened Words
  import opened Queue
  import opened Names
  import opened PushModel
  import opened PushReceipts
  import opened PushQuiet
  import opened PushTurn

  // ---- what can be told before the pass ----------------------------------------------

  /** Worker `k` will be asked about `s`. */
  predicate Asks(w: World, k: nat, s: string, now: nat) {
    k < |w.subs| && TurnDue(w.subs[k], now) && IsWorker(w.subs[k]) && s in w.names && Covers(w.subs[k].cfg.pattern, s)
  }

  /** One of the first `n` subscriptions asks for this group. */
  ghost predicate TakenBy(w: World, s: string, group: string, n: nat, now: nat) {
    exists i | 0 <= i < n :: Asks(w, i, s, now) && w.subs[i].cfg.group == group
  }

  /** The leases the first `n` leave to bury. */
  ghost function LeftIn(w: World, s: string, group: string, n: nat, now: nat): seq<Lease> {
    if TakenBy(w, s, group, n, now) then [] else GroupRec(w.store, s, group).fl
  }

  /** The dead letters of `s` that the first `n` subscriptions would publish. */
  ghost function LettersFrom(w: World, s: string, n: nat, now: nat): nat {
    if n == 0 then 0
    else LettersFrom(w, s, n - 1, now) +
         if Asks(w, n - 1, s, now) then CountLive(LogOf(w.store, s), LeftIn(w, s, w.subs[n - 1].cfg.group, n - 1, now)) else 0
  }

  ghost function LettersTo(w: World, x: string, n: nat, now: nat): nat {
    if Source(x).Some? then LettersFrom(w, Source(x).value, n, now) else 0
  }

  /** Where the log of `x` would end after the pass. */
  ghost function NewEnd(w: World, x: string, now: nat): nat {
    LogOf(w.store, x).last + LettersTo(w, x, |w.subs|, now)
  }

  /**
   Worker `k` would bury a job of `s`: it is live and free, covers `s`, and its
   group holds an expired lease, out of attempts, on a job still in the log of a
   subject that has a dead-letter channel.
   */
  ghost predicate WouldBury(w: World, k: nat, s: string, now: nat) {
    && Asks(w, k, s, now) && DeadName(s).Some?
    && var q := GroupRec(w.store, s, w.subs[k].cfg.group);
       exists e | e in q.fl :: e.expires <= now && Exhausted(q, e) && InLog(LogOf(w.store, s), e.index)
  }

  /** In its own round a subscription is asked about `x` before `s`, or comes past the end of the list before `x` is on it. */
  ghost predicate FirstInRound(names: seq<string>, rr: nat, x: string, s: string) {
    exists q | 0 <= q < |names| && names[q] == s ::
      || (x !in names && q < rr)
      || exists p | 0 <= p < |names| && names[p] == x :: Earlier(rr, p, q)
  }

  /** Subscription `j` is past `x` before worker `k` is asked about `s`. */
  ghost predicate AskedFirst(w: World, j: nat, x: string, k: nat, s: string)
    requires k < |w.subs|
  {
    j < k || (j == k && FirstInRound(w.names, w.subs[k].rr, x, s))
  }

  /** What subscription `s` would have to deliver of `x`, were the log to end at `end`. */
  predicate Pending(w: World, s: Sub, x: string, end: nat) {
    if IsWorker(s) then LogOf(w.store, x).base < end && GroupRec(w.store, x, s.cfg.group).next <= end
    else Max(Acked(w.store, JoinKey(x, s.consumer)), LogOf(w.store, x).base) < end
  }

  /** Live subscription `j` misses letters: past the channel before the worker that publishes them is asked, and not up to its new end. */
  ghost predicate Misses(w: World, j: nat, k: nat, s: string, now: nat) {
    && j < |w.subs| && !w.subs[j].gone && WouldBury(w, k, s, now)
    && var x := DeadName(s).value;
       && Covers(w.subs[j].cfg.pattern, x) && AskedFirst(w, j, x, k, s)
       && Pending(w, w.subs[j], x, NewEnd(w, x, now))
  }

  ghost predicate Lossy(w: World, now: nat) {
    exists j, k, s :: Misses(w, j, k, s, now)
  }

  /** Live worker `j` has a zero lease on `x` and nothing but trimmed jobs to hand out first. */
  ghost predicate StrandedAt(w: World, j: nat, x: string, now: nat) {
    && j < |w.subs| && !w.subs[j].gone && IsWorker(w.subs[j]) && Covers(w.subs[j].cfg.pattern, x)
    && (x in w.names || LettersTo(w, x, |w.subs|, now) > 0)
    && Straggling(GroupRec(w.store, x, w.subs[j].cfg.group), LogOf(w.store, x).base)
    && LogOf(w.store, x).base < NewEnd(w, x, now)
  }

  ghost predicate Strands(w: World, now: nat) {
    exists j, x :: StrandedAt(w, j, x, now)
  }

  // ---- how far a fruitless pass has come ------------------------------------------------

  ghost predicate SubsSo(w0: World, w: World, n: nat, now: nat) {
    && |w.subs| == |w0.subs| && n <= |w0.subs|
    && (forall j | 0 <= j < |w0.subs| ::
          SameCore(w0.subs[j], w.subs[j]) && w.subs[j].rr == w0.subs[j].rr && w.subs[j].inflight == w0.subs[j].inflight)
    && (forall j | 0 <= j < n && !w0.subs[j].gone :: TurnDue(w0.subs[j], now) && w.subs[j].wake == 0)
  }

  ghost predicate NamesSo(w0: World, w: World, n: nat, now: nat) {
    && w0.names <= w.names
    && (forall i | |w0.names| <= i < |w.names| ::
          w.names[i] !in w0.names && Source(w.names[i]).Some? && LettersTo(w0, w.names[i], n, now) > 0)
    && (forall x | LettersTo(w0, x, n, now) > 0 :: x in w.names)
  }

  ghost predicate LogsSo(w0: World, w: World, n: nat, now: nat) {
    forall x: string | '/' !in x ::
      && LogOf(w.store, x).base == LogOf(w0.store, x).base
      && LogOf(w.store, x).last == LogOf(w0.store, x).last + LettersTo(w0, x, n, now)
  }

  ghost predicate GroupsSo(w0: World, w: World, n: nat, now: nat) {
    forall name: string, group: string | '/' !in name ::
      && Evolved(GroupRec(w0.store, name, group), GroupRec(w.store, name, group), LogOf(w0.store, name).base, now)
      && (name in w0.names ==> GroupRec(w.store, name, group).fl == LeftIn(w0, name, group, n, now))
  }

  /** Letters came after subscription `j` was past them. */
  ghost predicate Delayed(w0: World, j: nat, x: string, n: nat, now: nat) {
    Source(x).Some? && exists k | 0 <= k < n && k < |w0.subs| ::
      WouldBury(w0, k, Source(x).value, now) && AskedFirst(w0, j, x, k, Source(x).value)
  }

  ghost predicate QuietSo(w0: World, w: World, j: nat, x: string, n: nat, now: nat)
    requires j < |w0.subs|
  {
    || QuietAt(w.store, w0.subs[j], x)
    || (IsWorker(w0.subs[j]) && Straggling(GroupRec(w0.store, x, w0.subs[j].cfg.group), LogOf(w0.store, x).base))
    || Delayed(w0, j, x, n, now)
  }

  ghost predicate AllQuietSo(w0: World, w: World, n: nat, now: nat)
    requires n <= |w0.subs|
  {
    forall j, x | 0 <= j < n && !w0.subs[j].gone && x in w.names && Covers(w0.subs[j].cfg.pattern, x) ::
      QuietSo(w0, w, j, x, n, now)
  }

  ghost predicate Progress(w0: World, w: World, n: nat, now: nat) {
    && SubsSo(w0, w, n, now) && NamesSo(w0, w, n, now) && LogsSo(w0, w, n, now) && GroupsSo(w0, w, n, now)
    && Standing(w0.store, w.store) && AllQuietSo(w0, w, n, now)
  }

  lemma ProgressStarts(w: World, now: nat)
    ensures Progress(w, w, 0, now)
  {
    forall name: string, group: string | '/' !in name
      ensures Evolved(GroupRec(w.store, name, group), GroupRec(w.store, name, group), LogOf(w.store, name).base, now)
      ensures GroupRec(w.store, name, group).fl == LeftIn(w, name, group, 0, now)
    {
      assert !TakenBy(w, name, group, 0, now);
    }
  }

  /** A subscription that asks for nothing moves nothing on. */
  lemma NobodyAsks(w: World, n: nat, s: string, group: string, now: nat)
    requires !Asks(w, n, s, now)
    ensures LettersFrom(w, s, n + 1, now) == LettersFrom(w, s, n, now)
    ensures LeftIn(w, s, group, n + 1, now) == LeftIn(w, s, group, n, now)
  {
    if TakenBy(w, s, group, n + 1, now) {
      var i :| 0 <= i < n + 1 && Asks(w, i, s, now) && w.subs[i].cfg.group == group;
      assert i < n;
    }
  }

  lemma ProgressSkips(w0: World, w: World, n: nat, now: nat)
    requires Progress(w0, w, n, now) && n < |w0.subs| && w0.subs[n].gone
    ensures Progress(w0, w, n + 1, now)
  {
    hide Straggling, QuietAt, WouldBury, AskedFirst, GroupRec, LogOf, Source, LettersFrom, TakenBy;
    forall s: string ensures LettersFrom(w0, s, n + 1, now) == LettersFrom(w0, s, n, now) {
      NobodyAsks(w0, n, s, "", now);
    }
    forall s: string, group: string ensures LeftIn(w0, s, group, n + 1, now) == LeftIn(w0, s, group, n, now) {
      NobodyAsks(w0, n, s, group, now);
    }
    forall j, x | 0 <= j < n + 1 && !w0.subs[j].gone && x in w.names && Covers(w0.subs[j].cfg.pattern, x)
      ensures QuietSo(w0, w, j, x, n + 1, now)
    {
      assert QuietSo(w0, w, j, x, n, now);
    }
  }

  // ---- one more turn ---------------------------------------------------------------------

  /** A turn of live subscription `n` that came to nothing. */
  ghost predicate TurnInVain(w0: World, w: World, w': World, n: nat, now: nat) {
    && Progress(w0, w, n, now) && n < |w0.subs| && TurnDue(w0.subs[n], now)
    && n < |w'.subs| && w.subs[n].wake == 0 && w'.subs[n].wake == 0
    && Turned(w, w', n, now) && (forall p | 0 <= p < |w'.names| :: Fine(w, w', n, p))
  }

  /** Channels are no sources: nothing that joined the list is one. */
  lemma SourceIsOld(w0: World, w: World, n: nat, now: nat, s: string, x: string)
    requires NamesSo(w0, w, n, now) && Source(x) == Some(s) && s in w.names
    ensures s in w0.names
  {
    SourceIs(s, x);
    var i :| 0 <= i < |w.names| && w.names[i] == s;
    if i >= |w0.names| { assert false; }
    assert w0.names[i] == s;
  }

  /** The letters subscription `n` still holds when its turn comes are those foretold. */
  lemma LettersForetold(w0: World, w: World, n: nat, now: nat, x: string)
    requires Progress(w0, w, n, now) && n < |w0.subs| && TurnDue(w0.subs[n], now) && Source(x).Some?
    requires Asks(w0, n, Source(x).value, now)
    ensures LogOf(w.store, Source(x).value) == LogOf(w0.store, Source(x).value)
    ensures Letters(w.store, w.subs[n], x)
         == CountLive(LogOf(w0.store, Source(x).value), LeftIn(w0, Source(x).value, w0.subs[n].cfg.group, n, now))
  {
    var s := Source(x).value;
    SourceIs(s, x);
    assert LettersTo(w0, s, n, now) == 0;
  }

  /** A turn takes the letters of the subjects it asks for, and no others. */
  lemma TurnTakesLetters(w0: World, w: World, w': World, n: nat, now: nat, x: string)
    requires TurnInVain(w0, w, w', n, now) && Source(x).Some?
    ensures
      Letters(w'.store, w.subs[n], x)
      == if Asks(w0, n, Source(x).value, now) then 0 else Letters(w.store, w.subs[n], x)
  {
    hide QuietAt, Excused, NamesGrown, Standing, AllQuietSo, Progress;
    var s := Source(x).value;
    SourceIs(s, x);
    SourceStands(w, w', n, now, x);
    TurnParts(w0, w, w', n, now);
    if Asks(w0, n, s, now) {
      var p :| 0 <= p < |w0.names| && w0.names[p] == s;
      assert w'.names[p] == s && p < |w.names|;
      assert Fine(w, w', n, p);
    } else if IsWorker(w.subs[n]) {
      if s in w'.names && Covers(w.subs[n].cfg.pattern, s) { SourceWasThere(w0, w, w', n, now, s, x); }
    }
  }

  lemma TurnParts(w0: World, w: World, w': World, n: nat, now: nat)
    requires TurnInVain(w0, w, w', n, now)
    ensures SubsSo(w0, w, n, now) && NamesSo(w0, w, n, now) && w0.names <= w.names <= w'.names
    ensures SameCore(w0.subs[n], w.subs[n]) && w.subs[n].rr == w0.subs[n].rr
  {
  }

  lemma SourceWasThere(w0: World, w: World, w': World, n: nat, now: nat, s: string, x: string)
    requires TurnInVain(w0, w, w', n, now) && Source(x) == Some(s) && s in w'.names
    ensures s in w0.names
  {
    SourceIs(s, x);
    var i :| 0 <= i < |w'.names| && w'.names[i] == s;
    if i >= |w.names| { assert false; }
    assert w.names[i] == s;
    SourceIsOld(w0, w, n, now, s, x);
  }

  lemma TurnLogs(w0: World, w: World, w': World, n: nat, now: nat)
    requires TurnInVain(w0, w, w', n, now)
    ensures LogsSo(w0, w', n + 1, now)
  {
    hide GroupsMoved, NamesGrown, Standing, AllQuietSo, NamesSo, GroupsSo, Fine, Letters, Asks;
    forall x: string | '/' !in x
      ensures LogOf(w'.store, x).base == LogOf(w0.store, x).base
      ensures LogOf(w'.store, x).last == LogOf(w0.store, x).last + LettersTo(w0, x, n + 1, now)
    {
      assert LogOf(w'.store, x).last + Letters(w'.store, w.subs[n], x) == LogOf(w.store, x).last + Letters(w.store, w.subs[n], x);
      if Source(x).Some? {
        TurnTakesLetters(w0, w, w', n, now, x);
        if Asks(w0, n, Source(x).value, now) {
          LettersForetold(w0, w, n, now, x);
        } else {
          NobodyAsks(w0, n, Source(x).value, "", now);
        }
      } else {
        NoSourceNoLetters(w.store, w.subs[n], x);
        NoSourceNoLetters(w'.store, w.subs[n], x);
      }
    }
  }

  lemma NoSourceNoLetters(st: Store, s: Sub, x: string)
    requires Source(x).None?
    ensures Letters(st, s, x) == 0
  {
  }

  /** Letters that come with this turn. */
  lemma LettersRise(w0: World, w: World, w': World, n: nat, now: nat, x: string)
    requires TurnInVain(w0, w, w', n, now)
    ensures LettersTo(w0, x, n, now) <= LettersTo(w0, x, n + 1, now)
    ensures LettersTo(w0, x, n + 1, now) > LettersTo(w0, x, n, now) <==>
              Letters(w'.store, w.subs[n], x) < Letters(w.store, w.subs[n], x)
    ensures LettersTo(w0, x, n + 1, now) > LettersTo(w0, x, n, now) ==> Source(x).Some? && Asks(w0, n, Source(x).value, now)
  {
    hide GroupsMoved, NamesGrown, LogsMoved, Standing, AllQuietSo, NamesSo, GroupsSo, Fine, Letters, Asks;
    if Source(x).Some? {
      TurnTakesLetters(w0, w, w', n, now, x);
      if Asks(w0, n, Source(x).value, now) {
        LettersForetold(w0, w, n, now, x);
      } else {
        NobodyAsks(w0, n, Source(x).value, "", now);
      }
    } else {
      NoSourceNoLetters(w.store, w.subs[n], x);
      NoSourceNoLetters(w'.store, w.subs[n], x);
    }
  }

  lemma TurnNames(w0: World, w: World, w': World, n: nat, now: nat)
    requires TurnInVain(w0, w, w', n, now)
    ensures NamesSo(w0, w', n + 1, now)
  {
    hide GroupsMoved, LogsMoved, Standing, AllQuietSo, GroupsSo, Fine, Letters, Asks, Source, LettersTo;
    assert w.names <= w'.names;
    forall i | |w0.names| <= i < |w'.names|
      ensures w'.names[i] !in w0.names && Source(w'.names[i]).Some? && LettersTo(w0, w'.names[i], n + 1, now) > 0
    {
      var x := w'.names[i];
      LettersRise(w0, w, w', n, now, x);
      if i < |w.names| {
        assert w.names[i] == x;
      } else {
        NewNameHasLetters(w0, w, w', n, now, i);
        assert forall y | y in w0.names :: y in w.names;
      }
    }
    forall x | LettersTo(w0, x, n + 1, now) > 0 ensures x in w'.names {
      LettersRise(w0, w, w', n, now, x);
      if LettersTo(w0, x, n, now) > 0 { assert x in w.names; }
    }
  }

  /** A name that joined in this turn had letters, and this turn took them. */
  lemma NewNameHasLetters(w0: World, w: World, w': World, n: nat, now: nat, i: nat)
    requires TurnInVain(w0, w, w', n, now) && |w.names| <= i < |w'.names|
    ensures Source(w'.names[i]).Some? && LettersTo(w0, w'.names[i], n + 1, now) > 0
  {
    hide GroupsMoved, LogsMoved, Standing, AllQuietSo, GroupsSo, Fine, LettersTo, LettersFrom, CountLive;
    TurnParts(w0, w, w', n, now);
    var x := w'.names[i];
    var s := Source(x).value;
    SourceIsOld(w0, w, n, now, s, x);
    assert Asks(w0, n, s, now);
    TurnTakesLetters(w0, w, w', n, now, x);
    LettersRise(w0, w, w', n, now, x);
  }

  lemma TurnGroups(w0: World, w: World, w': World, n: nat, now: nat)
    requires TurnInVain(w0, w, w', n, now) && PlainNames(w0.names)
    ensures GroupsSo(w0, w', n + 1, now)
  {
    hide LogsMoved, Standing, AllQuietSo, LogsSo, Letters, LettersTo, GroupRec, Straggling, QuietAt, Excused, NamesSo, NamesGrown;
    TurnParts(w0, w, w', n, now);
    forall name: string, group: string | '/' !in name
      ensures Evolved(GroupRec(w0.store, name, group), GroupRec(w'.store, name, group), LogOf(w0.store, name).base, now)
      ensures name in w0.names ==> GroupRec(w'.store, name, group).fl == LeftIn(w0, name, group, n + 1, now)
    {
      GroupEvolved(w, w', n, now, name, group);
      BasesSo(w0, w, n, now, name);
      EvolvedTrans(GroupRec(w0.store, name, group), GroupRec(w.store, name, group), GroupRec(w'.store, name, group),
                   LogOf(w0.store, name).base, now);
      if name in w0.names {
        if Asks(w0, n, name, now) && w0.subs[n].cfg.group == group {
          var p :| 0 <= p < |w0.names| && w0.names[p] == name;
          assert w'.names[p] == name && p < |w.names|;
          assert Fine(w, w', n, p);
          assert TakenBy(w0, name, group, n + 1, now);
        } else {
          LeftAlone(w0, n, name, group, now);
        }
      }
    }
  }

  lemma BasesSo(w0: World, w: World, n: nat, now: nat, name: string)
    requires Progress(w0, w, n, now) && '/' !in name
    ensures LogOf(w.store, name).base == LogOf(w0.store, name).base
  {
  }

  lemma LeftAlone(w0: World, n: nat, name: string, group: string, now: nat)
    requires n < |w0.subs| && !(Asks(w0, n, name, now) && w0.subs[n].cfg.group == group)
    ensures LeftIn(w0, name, group, n + 1, now) == LeftIn(w0, name, group, n, now)
  {
    if TakenBy(w0, name, group, n + 1, now) {
      var i :| 0 <= i < n + 1 && Asks(w0, i, name, now) && w0.subs[i].cfg.group == group;
      assert i < n;
    }
  }

  lemma TurnSubs(w0: World, w: World, w': World, n: nat, now: nat)
    requires TurnInVain(w0, w, w', n, now)
    ensures SubsSo(w0, w', n + 1, now)
  {
  }

  lemma TurnStanding(w0: World, w: World, w': World, n: nat, now: nat)
    requires TurnInVain(w0, w, w', n, now)
    ensures Standing(w0.store, w'.store)
  {
    hide GroupsMoved, NamesGrown, AllQuietSo, GroupsSo, Fine, NamesSo, Letters, LettersTo;
    StandingTrans(w0.store, w.store, w'.store);
  }

  // ---- who is quiet after it ----------------------------------------------------------------

  /** Letters foretold for this turn are leases worker `n` would bury. */
  lemma BuriesNow(w0: World, w: World, w': World, n: nat, now: nat, x: string)
    requires TurnInVain(w0, w, w', n, now) && PlainNames(w0.names) && Source(x).Some?
    requires Asks(w0, n, Source(x).value, now)
    requires CountLive(LogOf(w0.store, Source(x).value), LeftIn(w0, Source(x).value, w0.subs[n].cfg.group, n, now)) > 0
    ensures WouldBury(w0, n, Source(x).value, now)
  {
    hide LogsMoved, Standing, AllQuietSo, Letters, GroupRec, Straggling, QuietAt, Excused, NamesSo, NamesGrown, DeadName, Progress, Turned, Fine;
    var s, g := Source(x).value, w0.subs[n].cfg.group;
    SourceIs(s, x);
    TurnGroups(w0, w, w', n, now);
    var q0 := GroupRec(w0.store, s, g);
    CountLiveSome(LogOf(w0.store, s), LeftIn(w0, s, g, n, now));
    assert TakenBy(w0, s, g, n + 1, now);
    assert LeftIn(w0, s, g, n, now) == q0.fl;
    assert AllSpent(q0, now);
  }

  lemma RiseBuries(w0: World, w: World, w': World, n: nat, now: nat, x: string)
    requires TurnInVain(w0, w, w', n, now) && PlainNames(w0.names)
    requires LettersTo(w0, x, n + 1, now) > LettersTo(w0, x, n, now)
    ensures Source(x).Some? && WouldBury(w0, n, Source(x).value, now)
  {
    hide Progress, Turned, Fine, CountLive, LeftIn, WouldBury;
    LettersRise(w0, w, w', n, now, x);
    BuriesNow(w0, w, w', n, now, x);
  }

  /** An earlier subscription's quiet: kept, or letters have come behind it. */
  lemma EarlierQuiet(w0: World, w: World, w': World, n: nat, now: nat, j: nat, x: string)
    requires TurnInVain(w0, w, w', n, now) && Steady(w0) && PlainNames(w'.names)
    requires j < n && !w0.subs[j].gone && x in w'.names && Covers(w0.subs[j].cfg.pattern, x)
    ensures QuietSo(w0, w', j, x, n + 1, now)
  {
    hide GroupsMoved, LogsMoved, Standing, GroupsSo, Fine, Letters, LettersTo, QuietAt, Straggling, WouldBury, Source, NamesGrown;
    if LettersTo(w0, x, n + 1, now) > LettersTo(w0, x, n, now) {
      RiseBuries(w0, w, w', n, now, x);
      assert AskedFirst(w0, j, x, n, Source(x).value);
    } else {
      if x !in w.names {
        var i :| 0 <= i < |w'.names| && w'.names[i] == x;
        TurnParts(w0, w, w', n, now);
        NewNameHasLetters(w0, w, w', n, now, i);
        assert false;
      }
      assert QuietSo(w0, w, j, x, n, now);
      if QuietAt(w.store, w0.subs[j], x) {
        LettersRise(w0, w, w', n, now, x);
        LogStands(w0, w, w', n, now, x);
        QuietStays(w, w', n, now, w0.subs[j], x);
      }
    }
  }

  lemma LogStands(w0: World, w: World, w': World, n: nat, now: nat, x: string)
    requires TurnInVain(w0, w, w', n, now) && '/' !in x
    requires LettersTo(w0, x, n + 1, now) == LettersTo(w0, x, n, now)
    ensures LogOf(w'.store, x).last == LogOf(w.store, x).last
  {
    hide GroupsMoved, LogsMoved, Standing, GroupsSo, Fine, Letters, LettersTo, QuietAt, NamesGrown, NamesSo, SubsSo, AllQuietSo;
    TurnLogs(w0, w, w', n, now);
  }

  /** The order in the round, told on the list as it was before the pass. */
  lemma OrderBefore(w0: World, w: World, w': World, n: nat, now: nat, p: nat, q: nat, x: string, s: string)
    requires TurnInVain(w0, w, w', n, now) && Steady(w0)
    requires p < |w'.names| && q < |w'.names| && w'.names[p] == x && w'.names[q] == s
    requires Source(x) == Some(s) && Earlier(w0.subs[n].rr, p, q)
    ensures FirstInRound(w0.names, w0.subs[n].rr, x, s)
  {
    hide GroupsMoved, LogsMoved, Standing, GroupsSo, Fine, Letters, LettersTo, LogsSo, AllQuietSo, DeadName;
    TurnParts(w0, w, w', n, now);
    SourceIs(s, x);
    assert q < |w.names| ==> w.names[q] == s;
    if q >= |w0.names| { assert false; }
    assert w0.names[q] == s;
    if p < |w0.names| {
      assert w0.names[p] == x;
    } else {
      if p < |w.names| {
        assert w.names[p] == x;
      } else {
        assert forall y | y in w0.names :: y in w.names;
      }
      assert x !in w0.names;
    }
  }

  /** The subscription's own quiet, after its turn. */
  lemma OwnQuiet(w0: World, w: World, w': World, n: nat, now: nat, x: string)
    requires TurnInVain(w0, w, w', n, now) && Steady(w0) && PlainNames(w'.names)
    requires x in w'.names && Covers(w0.subs[n].cfg.pattern, x)
    ensures QuietSo(w0, w', n, x, n + 1, now)
  {
    hide LogsMoved, Standing, Letters, LettersTo, QuietAt, WouldBury, NamesGrown, NamesSo, LogsSo, AllQuietSo, DeadName, GroupRec, FirstInRound, Earlier;
    TurnParts(w0, w, w', n, now);
    var p :| 0 <= p < |w'.names| && w'.names[p] == x;
    assert Fine(w, w', n, p);
    SameQuietCore(w'.store, w0.subs[n], w.subs[n], x);
    if !QuietAt(w'.store, w0.subs[n], x) {
      var g := w0.subs[n].cfg.group;
      BasesSo(w0, w, n, now, x);
      assert Evolved(GroupRec(w0.store, x, g), GroupRec(w.store, x, g), LogOf(w0.store, x).base, now);
      if !Straggling(GroupRec(w.store, x, g), LogOf(w.store, x).base) {
        var q :| 0 <= q < |w'.names| && Source(x) == Some(w'.names[q]) && Earlier(w.subs[n].rr, p, q)
          && Covers(w.subs[n].cfg.pattern, w'.names[q]);
        var s := w'.names[q];
        SourceWasThere(w0, w, w', n, now, s, x);
        assert Asks(w0, n, s, now);
        LettersForetold(w0, w, n, now, x);
        BuriesNow(w0, w, w', n, now, x);
        OrderBefore(w0, w, w', n, now, p, q, x, s);
        assert AskedFirst(w0, n, x, n, s);
      }
    }
  }

  lemma ProgressTurns(w0: World, w: World, w': World, n: nat, now: nat)
    requires TurnInVain(w0, w, w', n, now) && Steady(w0) && PlainNames(w'.names)
    ensures Progress(w0, w', n + 1, now)
  {
    hide GroupsMoved, LogsMoved, NamesGrown, Standing, NamesSo, LogsSo, GroupsSo, Fine, QuietSo, Turned, Progress;
    TurnSubs(w0, w, w', n, now);
    TurnNames(w0, w, w', n, now);
    TurnLogs(w0, w, w', n, now);
    TurnGroups(w0, w, w', n, now);
    TurnStanding(w0, w, w', n, now);
    forall j, x | 0 <= j < n + 1 && !w0.subs[j].gone && x in w'.names && Covers(w0.subs[j].cfg.pattern, x)
      ensures QuietSo(w0, w', j, x, n + 1, now)
    {
      if j < n { EarlierQuiet(w0, w, w', n, now, j, x); } else { OwnQuiet(w0, w, w', n, now, x); }
    }
    ProgressIs(w0, w', n + 1, now);
  }

  lemma ProgressIs(w0: World, w: World, n: nat, now: nat)
    requires SubsSo(w0, w, n, now) && NamesSo(w0, w, n, now) && LogsSo(w0, w, n, now) && GroupsSo(w0, w, n, now)
    requires Standing(w0.store, w.store) && AllQuietSo(w0, w, n, now)
    ensures Progress(w0, w, n, now)
  {
  }

  // ---- the whole pass -------------------------------------------------------------------------

  /** Once busy or started, a pass stays so. */
  lemma {:induction false} PassStirs(p: Pass, k: nat, env: Env)
    ensures (p.busy ==> PassFrom(p, k, env).busy) && (p.started ==> PassFrom(p, k, env).started)
    decreases |p.w.subs| - k
  {
    hide PushModel.StartDelivery;
    if k < |p.w.subs| {
      var s := p.w.subs[k];
      if s.gone {
        PassStirs(p, k + 1, env);
      } else if s.inflight || s.due > env.now {
        PassStirs(p.(busy := true), k + 1, env);
      } else {
        var o := StartDelivery(p.w, k, env);
        PassStirs(Pass(o.w, p.started || o.started, p.busy || o.w.subs[k].wake != 0), k + 1, env);
      }
    }
  }

  /** The world as a subscription's turn begins. */
  function Cleared(w: World, n: nat): World
    requires n < |w.subs|
  {
    w.(subs := w.subs[n := w.subs[n].(wake := 0)])
  }

  /** The turn a fruitless pass gives. */
  lemma TurnIsVain(w0: World, w: World, n: nat, env: Env)
    requires AllSend(env) && Steady(w) && Steady(w0) && Progress(w0, w, n, env.now) && n < |w0.subs| && TurnDue(w.subs[n], env.now)
    requires !StartDelivery(w, n, env).started && StartDelivery(w, n, env).w.subs[n].wake == 0
    ensures n < |w.subs| && TurnInVain(w0, Cleared(w, n), StartDelivery(w, n, env).w, n, env.now)
    ensures PlainNames(StartDelivery(w, n, env).w.names)
  {
    hide GroupsMoved, LogsMoved, NamesGrown, Standing, NamesSo, LogsSo, GroupsSo, Fine, AllQuietSo, StoreSound;
    var v := Cleared(w, n);
    var w' := StartDelivery(w, n, env).w;
    assert w' == StartFrom(v, n, 0, env).w;
    SameTurned(v, v, n, env.now);
    assert DealtFine(v, v, n, 0);
    RoundInVain(v, v, n, 0, env);
    TurnSteady(w, n, env);
    WakeCleared(w0, w, v, n, env.now);
  }

  lemma TurnFruitless(w0: World, w: World, n: nat, env: Env)
    requires AllSend(env) && Steady(w) && Steady(w0) && Progress(w0, w, n, env.now) && n < |w0.subs| && TurnDue(w.subs[n], env.now)
    requires !StartDelivery(w, n, env).started && StartDelivery(w, n, env).w.subs[n].wake == 0
    ensures Progress(w0, StartDelivery(w, n, env).w, n + 1, env.now)
  {
    hide Progress, Turned, Fine, Steady, PushModel.StartDelivery;
    TurnIsVain(w0, w, n, env);
    ProgressTurns(w0, Cleared(w, n), StartDelivery(w, n, env).w, n, env.now);
  }

  lemma WakeCleared(w0: World, w: World, v: World, n: nat, now: nat)
    requires Progress(w0, w, n, now) && n < |w0.subs| && v == w.(subs := w.subs[n := w.subs[n].(wake := 0)])
    ensures Progress(w0, v, n, now)
  {
    hide LettersTo, LeftIn, Evolved, Standing, QuietAt, Delayed, Straggling, LogOf, GroupRec, Source;
    forall j, x | 0 <= j < n && !w0.subs[j].gone && x in v.names && Covers(w0.subs[j].cfg.pattern, x)
      ensures QuietSo(w0, v, j, x, n, now)
    {
      assert QuietSo(w0, w, j, x, n, now);
    }
  }

  lemma {:induction false} PassProgress(w0: World, p: Pass, k: nat, env: Env)
    requires AllSend(env) && Steady(w0) && Steady(p.w) && k <= |p.w.subs| && Progress(w0, p.w, k, env.now)
    requires !p.started && !p.busy && !PassFrom(p, k, env).started && !PassFrom(p, k, env).busy
    ensures Progress(w0, PassFrom(p, k, env).w, |w0.subs|, env.now)
    decreases |p.w.subs| - k
  {
    hide PushModel.StartDelivery, NamesSo, LogsSo, GroupsSo, Standing, AllQuietSo, Steady;
    if k < |p.w.subs| {
      var s := p.w.subs[k];
      assert SameCore(w0.subs[k], s);
      if s.gone {
        ProgressSkips(w0, p.w, k, env.now);
        PassProgress(w0, p, k + 1, env);
      } else if s.inflight || s.due > env.now {
        PassStirs(p.(busy := true), k + 1, env);
        assert false;
      } else {
        var o := StartDelivery(p.w, k, env);
        var p' := Pass(o.w, p.started || o.started, p.busy || o.w.subs[k].wake != 0);
        PassStirs(p', k + 1, env);
        TurnFruitless(w0, p.w, k, env);
        TurnSteady(p.w, k, env);
        PassProgress(w0, p', k + 1, env);
      }
    }
  }

  /** A pump that turns `work` off. */
  predicate Stops(w: World, env: Env) { w.work && !Pump(w, env).work }

  lemma StopProgress(w: World, env: Env)
    requires AllSend(env) && Steady(w) && Stops(w, env)
    ensures Progress(w, Pump(w, env), |w.subs|, env.now) && Steady(Pump(w, env))
  {
    hide Progress, Steady;
    PassWorks(Pass(w, false, false), 0, env);
    ProgressStarts(w, env.now);
    PassProgress(w, Pass(w, false, false), 0, env);
    PumpSteady(w, env);
    WorkAside(w, PumpPass(w, env).w, |w.subs|, env.now);
  }

  lemma WorkAside(w0: World, w: World, n: nat, now: nat)
    requires Progress(w0, w, n, now)
    ensures Progress(w0, w.(work := false), n, now)
  {
    var v := w.(work := false);
    hide LettersTo, LeftIn, Evolved, Standing, QuietAt, Delayed, Straggling, LogOf, GroupRec, Source;
    forall j, x | 0 <= j < n && !w0.subs[j].gone && x in v.names && Covers(w0.subs[j].cfg.pattern, x)
      ensures QuietSo(w0, v, j, x, n, now)
    {
      assert QuietSo(w0, w, j, x, n, now);
    }
  }

  /** All the leases of a group somebody asks for are letters. */
  lemma {:induction false} LettersReach(w: World, s: string, group: string, n: nat, now: nat)
    requires n <= |w.subs| && TakenBy(w, s, group, n, now)
    ensures LettersFrom(w, s, n, now) >= CountLive(LogOf(w.store, s), GroupRec(w.store, s, group).fl)
  {
    if n > 0 {
      if TakenBy(w, s, group, n - 1, now) {
        LettersReach(w, s, group, n - 1, now);
      } else {
        var i :| 0 <= i < n && Asks(w, i, s, now) && w.subs[i].cfg.group == group;
        assert i == n - 1;
      }
    }
  }

  lemma BuryMeansLetters(w: World, k: nat, s: string, now: nat)
    requires WouldBury(w, k, s, now)
    ensures LettersTo(w, DeadName(s).value, |w.subs|, now) > 0
  {
    var g := w.subs[k].cfg.group;
    SourceIs(s, DeadName(s).value);
    assert TakenBy(w, s, g, |w.subs|, now);
    LettersReach(w, s, g, |w.subs|, now);
    CountLiveSome(LogOf(w.store, s), GroupRec(w.store, s, g).fl);
  }

  /** Letters come from somebody who asks and a lease on a job in the log. */
  lemma {:induction false} LettersNeedLease(w: World, s: string, n: nat, now: nat) returns (k: nat)
    requires n <= |w.subs| && LettersFrom(w, s, n, now) > 0
    ensures k < n && Asks(w, k, s, now)
    ensures exists e | e in GroupRec(w.store, s, w.subs[k].cfg.group).fl :: InLog(LogOf(w.store, s), e.index)
  {
    if LettersFrom(w, s, n - 1, now) > 0 {
      k := LettersNeedLease(w, s, n - 1, now);
    } else {
      k := n - 1;
      CountLiveSome(LogOf(w.store, s), LeftIn(w, s, w.subs[k].cfg.group, k, now));
    }
  }

  /** In a pass that stops, what is foretold is buried, and nothing else: a dead letter appears if and only if some worker would bury. */
  lemma StopBuriesExactly(w: World, env: Env)
    requires AllSend(env) && Steady(w) && Stops(w, env)
    ensures (exists x: string | '/' !in x :: LogOf(Pump(w, env).store, x).last != LogOf(w.store, x).last)
       <==> (exists k, s :: WouldBury(w, k, s, env.now))
  {
    hide QuietAt, Standing, AllQuietSo, NamesSo, DeadName, Exhausted, SubsSo;
    StopProgress(w, env);
    var w' := Pump(w, env);
    if exists x: string | '/' !in x :: LogOf(w'.store, x).last != LogOf(w.store, x).last {
      var x: string :| '/' !in x && LogOf(w'.store, x).last != LogOf(w.store, x).last;
      var s := Source(x).value;
      SourceIs(s, x);
      var k := LettersNeedLease(w, s, |w.subs|, env.now);
      var g := w.subs[k].cfg.group;
      assert TakenBy(w, s, g, |w.subs|, env.now);
      assert AllSpent(GroupRec(w.store, s, g), env.now);
      assert WouldBury(w, k, s, env.now);
    }
    if exists k, s :: WouldBury(w, k, s, env.now) {
      var k, s :| WouldBury(w, k, s, env.now);
      BuryMeansLetters(w, k, s, env.now);
      var x := DeadName(s).value;
      SourceIs(s, x);
      assert LogOf(w'.store, x).last != LogOf(w.store, x).last;
    }
  }

  /** Pending before the pass means not quiet after it. */
  lemma PendingIsLoud(w: World, w': World, s: Sub, x: string, now: nat)
    requires Progress(w, w', |w.subs|, now) && '/' !in x && Pending(w, s, x, NewEnd(w, x, now))
    ensures !QuietAt(w'.store, s, x)
  {
    hide AllQuietSo, NamesSo, SubsSo, LettersTo, LeftIn;
    if IsWorker(s) {
      assert Evolved(GroupRec(w.store, x, s.cfg.group), GroupRec(w'.store, x, s.cfg.group), LogOf(w.store, x).base, now);
    } else {
      assert Max(Acked(w'.store, JoinKey(x, s.consumer)), LogOf(w.store, x).base)
          == Max(Acked(w.store, JoinKey(x, s.consumer)), LogOf(w.store, x).base);
    }
  }

  /** Not quiet after a pass means a straggler, or letters missed. */
  lemma LoudIsTold(w: World, w': World, j: nat, x: string, now: nat)
    requires Steady(w) && Steady(w') && Progress(w, w', |w.subs|, now)
    requires j < |w.subs| && !w.subs[j].gone && x in w'.names && Covers(w.subs[j].cfg.pattern, x)
    requires !QuietAt(w'.store, w.subs[j], x)
    ensures Strands(w, now) || Lossy(w, now)
  {
    hide LettersTo, LeftIn, WouldBury, AskedFirst, Asks, StoreSound, DeadName, PushModel.Covers;
    var s := w.subs[j];
    var g := s.cfg.group;
    var n := |w.subs|;
    assert '/' !in x;
    GroupRecSound(w.store, x, g);
    assert Evolved(GroupRec(w.store, x, g), GroupRec(w'.store, x, g), LogOf(w.store, x).base, now);
    assert LogOf(w'.store, x).base == LogOf(w.store, x).base && LogOf(w'.store, x).last == NewEnd(w, x, now);
    assert QuietSo(w, w', j, x, n, now);
    KnownName(w, w', x, now);
    if IsWorker(s) && Straggling(GroupRec(w.store, x, g), LogOf(w.store, x).base) {
      assert StrandedAt(w, j, x, now);
    } else {
      var k :| 0 <= k < n && WouldBury(w, k, Source(x).value, now) && AskedFirst(w, j, x, k, Source(x).value);
      SourceIs(Source(x).value, x);
      BuryMeansLetters(w, k, Source(x).value, now);
      assert Max(Acked(w'.store, JoinKey(x, s.consumer)), LogOf(w.store, x).base)
          == Max(Acked(w.store, JoinKey(x, s.consumer)), LogOf(w.store, x).base);
      assert Pending(w, s, x, NewEnd(w, x, now));
      assert Misses(w, j, k, Source(x).value, now);
    }
  }

  lemma KnownName(w: World, w': World, x: string, now: nat)
    requires Progress(w, w', |w.subs|, now) && x in w'.names
    ensures x in w.names || LettersTo(w, x, |w.subs|, now) > 0
  {
    hide LogsSo, GroupsSo, Standing, AllQuietSo, LettersTo, Source, SubsSo;
    var i :| 0 <= i < |w'.names| && w'.names[i] == x;
    if i < |w.names| { assert w.names[i] == x; }
  }

  lemma NameKnown(w: World, w': World, x: string, now: nat)
    requires Progress(w, w', |w.subs|, now) && (x in w.names || LettersTo(w, x, |w.subs|, now) > 0)
    ensures x in w'.names
  {
    hide LogsSo, GroupsSo, Standing, AllQuietSo, LettersTo, Source, SubsSo;
  }

  /**
   Exactly when a pass that stops the engine leaves something undelivered, told
   before the pass: when a zero lease strands jobs behind a trim, or when some
   live subscription misses the letters a worker asked after it would publish.
   */
  lemma StopLosesExactly(w: World, env: Env)
    requires AllSend(env) && Steady(w) && Stops(w, env)
    ensures AllQuiet(Pump(w, env), env.now) <==> !Strands(w, env.now) && !Lossy(w, env.now)
  {
    hide Progress, Steady, QuietAt, StrandedAt, Misses, LettersTo, PushModel.Covers, Pump;
    StopProgress(w, env);
    var w' := Pump(w, env);
    if !Strands(w, env.now) && !Lossy(w, env.now) {
      StoppedIdle(w, w', env.now);
      forall k, x | 0 <= k < |w'.subs| && !w'.subs[k].gone && x in w'.names && Covers(w'.subs[k].cfg.pattern, x)
        ensures QuietAt(w'.store, w'.subs[k], x)
      {
        SameQuietCore(w'.store, w.subs[k], w'.subs[k], x);
        if !QuietAt(w'.store, w.subs[k], x) { LoudIsTold(w, w', k, x, env.now); }
      }
    }
    if Strands(w, env.now) || Lossy(w, env.now) {
      var k, x := LostSomewhere(w, w', env.now);
      StoppedCores(w, w', env.now);
      SameQuietCore(w'.store, w.subs[k], w'.subs[k], x);
      assert !Quiet(w', w'.subs[k]);
    }
  }

  lemma StoppedCores(w: World, w': World, now: nat)
    requires Progress(w, w', |w.subs|, now)
    ensures |w'.subs| == |w.subs| && forall k | 0 <= k < |w.subs| :: SameCore(w.subs[k], w'.subs[k])
  {
  }

  lemma StoppedIdle(w: World, w': World, now: nat)
    requires Progress(w, w', |w.subs|, now)
    ensures |w'.subs| == |w.subs|
    ensures forall k | 0 <= k < |w.subs| :: SameCore(w.subs[k], w'.subs[k]) && (!w.subs[k].gone ==> Idle(w'.subs[k], now))
  {
    forall k | 0 <= k < |w.subs| ensures SameCore(w.subs[k], w'.subs[k]) && (!w.subs[k].gone ==> Idle(w'.subs[k], now)) {
      assert SameCore(w.subs[k], w'.subs[k]) && w'.subs[k].inflight == w.subs[k].inflight;
    }
  }

  lemma LostSomewhere(w: World, w': World, now: nat) returns (j: nat, x: string)
    requires Steady(w') && Progress(w, w', |w.subs|, now) && (Strands(w, now) || Lossy(w, now))
    ensures j < |w.subs| && !w.subs[j].gone && x in w'.names && Covers(w.subs[j].cfg.pattern, x)
    ensures !QuietAt(w'.store, w.subs[j], x)
  {
    hide Progress, QuietAt, LettersTo, PushModel.Covers, AskedFirst, DeadName;
    if Strands(w, now) {
      j, x :| StrandedAt(w, j, x, now);
    } else {
      var k, s;
      j, k, s :| Misses(w, j, k, s, now);
      x := DeadName(s).value;
      BuryMeansLetters(w, k, s, now);
    }
    NameKnown(w, w', x, now);
    PendingIsLoud(w, w', w.subs[j], x, now);
  }

  // ---- a pass that does not stop -----------------------------------------------------------------

  /** Some live subscription is on its way or backing off. */
  predicate KeptBusy(w: World, now: nat) {
    exists k | 0 <= k < |w.subs| :: !w.subs[k].gone && !TurnDue(w.subs[k], now)
  }

  lemma {:induction false} PassSees(p: Pass, k: nat, j: nat, env: Env)
    requires k <= j < |p.w.subs| && !p.w.subs[j].gone && !TurnDue(p.w.subs[j], env.now)
    ensures PassFrom(p, k, env).busy
    decreases |p.w.subs| - k
  {
    hide PushModel.StartDelivery;
    var s := p.w.subs[k];
    if k == j {
      PassStirs(p.(busy := true), k + 1, env);
    } else if s.gone {
      PassSees(p, k + 1, j, env);
    } else if s.inflight || s.due > env.now {
      PassSees(p.(busy := true), k + 1, j, env);
    } else {
      var o := StartDelivery(p.w, k, env);
      OthersKept(p.w, k, env, j);
      PassSees(Pass(o.w, p.started || o.started, p.busy || o.w.subs[k].wake != 0), k + 1, j, env);
    }
  }

  lemma OthersKept(w: World, k: nat, env: Env, j: nat)
    requires k < |w.subs| && !w.subs[k].inflight && j < |w.subs| && j != k
    ensures StartDelivery(w, k, env).w.subs[j] == w.subs[j]
  {
    var w0 := w.(subs := w.subs[k := w.subs[k].(wake := 0)]);
    StartShape(w0, k, 0, env);
    ShapeVia(w, w0, k, StartFrom(w0, k, 0, env));
  }

  lemma BusyGoesOn(w: World, env: Env)
    requires w.work && KeptBusy(w, env.now)
    ensures Pump(w, env).work
  {
    var k :| 0 <= k < |w.subs| && !w.subs[k].gone && !TurnDue(w.subs[k], env.now);
    PassSees(Pass(w, false, false), 0, k, env);
    PassWorks(Pass(w, false, false), 0, env);
  }

  /** A pass leaves alone what is deleted, on its way or backing off. */
  lemma {:induction false} PassSpares(p: Pass, k: nat, j: nat, env: Env)
    requires j < |p.w.subs| && (p.w.subs[j].gone || p.w.subs[j].inflight || p.w.subs[j].due > env.now || j < k)
    ensures |PassFrom(p, k, env).w.subs| == |p.w.subs| && PassFrom(p, k, env).w.subs[j] == p.w.subs[j]
    decreases |p.w.subs| - k
  {
    hide PushModel.StartDelivery;
    if k < |p.w.subs| {
      var s := p.w.subs[k];
      if s.gone {
        PassSpares(p, k + 1, j, env);
      } else if s.inflight || s.due > env.now {
        PassSpares(p.(busy := true), k + 1, j, env);
      } else {
        var o := StartDelivery(p.w, k, env);
        OthersKept(p.w, k, env, j);
        PassSpares(Pass(o.w, p.started || o.started, p.busy || o.w.subs[k].wake != 0), k + 1, j, env);
      }
    }
  }

  /** So a pump neither starts nor changes it, however often the engine looks. */
  lemma PumpSpares(w: World, j: nat, env: Env)
    requires j < |w.subs| && (w.subs[j].gone || w.subs[j].inflight || w.subs[j].due > env.now)
    ensures |Pump(w, env).subs| == |w.subs| && Pump(w, env).subs[j] == w.subs[j]
  {
    if w.work { PassSpares(Pass(w, false, false), 0, j, env); }
  }
}
