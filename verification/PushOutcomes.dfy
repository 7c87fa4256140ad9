/**
 What one event does to the engine, said outright: what each answer to a
 delivery leaves, what a delivery that starts carries, and what a registration
 or a message changes.
 */
module PushOutcomes {
  import opened Options
  import opened Words
  import opened Queue
  import opened Backoff
  import opened Settlement
  import opened PushModel
  import opened Names
  import opened QueueTheorems
  import opened QueueTakes

  // ---- the end of a delivery ----------------------------------------------------------

  /** The pause after one failure more than `failures`: half a second, doubled each time, half a minute at most. */
  function Pause(failures: nat): int { Min(500 * Pow2(failures), 30000) }

  /** Subscription `k` is off its delivery and waits before the next; only it has changed, and nothing starts the engine. */
  ghost predicate Pauses(w: World, w': World, k: nat, now: nat)
    requires k < |w.subs|
  {
    var s := w.subs[k];
    && |w'.subs| == |w.subs| && (forall j | 0 <= j < |w.subs| && j != k :: w'.subs[j] == w.subs[j])
    && w'.subs[k] == s.(inflight := false, failures := s.failures + 1, due := now + Pause(s.failures), jobs := w'.subs[k].jobs)
    && w'.inflight == w.inflight - 1 && w'.work == w.work && w'.names == w.names
  }

  /** It is off its delivery and may start again at once; the engine looks again. */
  ghost predicate Resumes(w: World, w': World, k: nat)
    requires k < |w.subs|
  {
    var s := w.subs[k];
    && |w'.subs| == |w.subs| && (forall j | 0 <= j < |w.subs| && j != k :: w'.subs[j] == w.subs[j])
    && w'.subs[k] == s.(inflight := false, failures := 0, due := 0, jobs := w'.subs[k].jobs)
    && w'.inflight == w.inflight - 1 && w'.work && w'.names == w.names
  }

  lemma PauseIs(failures: nat)
    ensures PushWait(failures + 1) == Pause(failures) && 500 <= Pause(failures) <= 30000
  {
    Pow2Mono(0, failures);
  }

  /** No answer, or any status but a 2xx: a reader's receipt stays, and it is sent the same batch later. */
  lemma ReaderRefused(w: World, k: nat, report: Report, now: nat)
    requires k < |w.subs| && !w.subs[k].gone && w.subs[k].cfg.group == ""
    requires report.answer.Unreached? || report.answer.status < 200 || report.answer.status >= 300
    ensures
      var w' := Complete(w, k, report, now);
      w'.store == w.store && Pauses(w, w', k, now) && w'.subs[k].due > now && w'.subs[k].jobs == w.subs[k].jobs
  {
    PauseIs(w.subs[k].failures);
  }

  /**
   A 2xx acknowledges the batch, or as much of it as the answer says; an answer
   that takes nothing counts as a refusal.
   */
  lemma ReaderAccepts(w: World, k: nat, report: Report, now: nat)
    requires k < |w.subs| && !w.subs[k].gone && w.subs[k].cfg.group == ""
    requires report.answer.Answered? && 200 <= report.answer.status < 300
    ensures
      var s, w' := w.subs[k], Complete(w, k, report, now);
      var key, to := s.subject + "/" + s.consumer, if report.ack.Some? && report.ack.value < s.last then report.ack.value else s.last;
      var was := if key in w.store.cursors then w.store.cursors[key] else 0;
      if to < s.first then w'.store == w.store && Pauses(w, w', k, now)
      else
        && Resumes(w, w', k) && key in w'.store.cursors && w'.store.cursors[key] == Max(was, to)
        && w'.store.logs == w.store.logs && w'.store.groups == w.store.groups
        && forall other | other != key :: (other in w'.store.cursors <==> other in w.store.cursors)
                                          && (other in w.store.cursors ==> w'.store.cursors[other] == w.store.cursors[other])
  {
    PauseIs(w.subs[k].failures);
  }

  /** A deleted subscription goes when its delivery ends, whatever the answer, and takes no receipt or lease with it. */
  lemma DeletedIsReaped(w: World, k: nat, report: Report, now: nat)
    requires k < |w.subs| && w.subs[k].gone
    ensures
      var w' := Complete(w, k, report, now);
      && w'.store == w.store && w'.work == w.work && w'.names == w.names && w'.inflight == w.inflight - 1
      && |w'.subs| == |w.subs| - 1
      && forall j | 0 <= j < |w'.subs| :: w'.subs[j] == if j == k then w.subs[|w.subs| - 1] else w.subs[j]
  {
  }

  /** A worker that did not answer: nothing is settled, its leases run on. */
  lemma WorkerUnreached(w: World, k: nat, ack: Option<nat>, now: nat)
    requires k < |w.subs| && !w.subs[k].gone && w.subs[k].cfg.group != ""
    ensures
      var w' := Complete(w, k, Report(Unreached, ack), now);
      w'.store == w.store && Pauses(w, w', k, now) && w'.subs[k].jobs == w.subs[k].jobs
  {
    PauseIs(w.subs[k].failures);
  }

  /** What an answer does to the leases of a delivery's jobs in the group of `key`. */
  ghost predicate Settled(st: Store, st': Store, key: string, jobs: seq<nat>, status: int, list: Option<seq<nat>>, now: nat) {
    && st'.logs == st.logs && st'.cursors == st.cursors
    && (forall other | other != key :: (other in st'.groups <==> other in st.groups)
                                       && (other in st.groups ==> st'.groups[other] == st.groups[other]))
    && (key in st'.groups <==> key in st.groups)
    && (key in st.groups ==> LeasesSettled(st.groups[key], st'.groups[key].fl, jobs, status, list, now))
  }

  /** And what it does to them one by one: released, re-timed with the attempts kept, or let alone. */
  ghost predicate LeasesSettled(q: QRec, fl': seq<Lease>, jobs: seq<nat>, status: int, list: Option<seq<nat>>, now: nat) {
    && (forall e | e in q.fl && e.index in jobs && 200 <= status < 300 && (list.Some? ==> e.index in list.value) ::
          forall e' | e' in fl' :: e'.index != e.index)
    && (forall e | e in q.fl && e.index in jobs && !(200 <= status < 300 && (list.Some? ==> e.index in list.value)) ::
          Stands(fl', e.index, now + BackoffFor(q, e.attempts), e.attempts))
    && (forall e | e in q.fl && e.index !in jobs :: e in fl')
    && (forall e' | e' in fl' :: exists e | e in q.fl :: e.index == e'.index)
  }

  /**
   A worker's answer, for every status and every list of up to 64 jobs.  A 2xx
   without a list releases every job of the delivery, one with a list those it
   names; any other status releases none.  What is not released is re-timed with
   its attempts kept.  After a 2xx the worker may start again, after anything else
   it waits.
   */
  lemma WorkerAnswers(w: World, k: nat, status: int, list: Option<seq<nat>>, ack: Option<nat>, now: nat)
    requires k < |w.subs| && !w.subs[k].gone && w.subs[k].cfg.group != "" && AllDistinct(w.subs[k].jobs)
    requires list.Some? ==> Words64(list.value) && |list.value| <= 64
    requires
      var key := w.subs[k].subject + "/" + w.subs[k].cfg.group;
      key in w.store.groups ==> Distinct(w.store.groups[key].fl)
    ensures
      var s := w.subs[k];
      var w' := Complete(w, k, Report(Answered(status, if list.Some? then Some(Join(list.value)) else None), ack), now);
      && Settled(w.store, w'.store, s.subject + "/" + s.cfg.group, s.jobs, status, list, now)
      && w'.subs != [] && k < |w'.subs| && w'.subs[k].jobs == []
      && (if 200 <= status < 300 then Resumes(w, w', k) else Pauses(w, w', k, now))
  {
    WorkerStores(w, k, status, list, ack, now);
    hide Settled;
    WorkerStands(w, k, status, if list.Some? then Some(Join(list.value)) else None, ack, now);
  }

  lemma WorkerStands(w: World, k: nat, status: int, done: Option<string>, ack: Option<nat>, now: nat)
    requires k < |w.subs| && !w.subs[k].gone && w.subs[k].cfg.group != ""
    ensures
      var w' := Complete(w, k, Report(Answered(status, done), ack), now);
      && |w'.subs| == |w.subs| && w'.subs[k].jobs == []
      && (if 200 <= status < 300 then Resumes(w, w', k) else Pauses(w, w', k, now))
  {
    hide PushModel.SettleGroup, PushModel.PushWait;
    PauseIs(w.subs[k].failures);
  }

  lemma WorkerStores(w: World, k: nat, status: int, list: Option<seq<nat>>, ack: Option<nat>, now: nat)
    requires k < |w.subs| && !w.subs[k].gone && w.subs[k].cfg.group != "" && AllDistinct(w.subs[k].jobs)
    requires list.Some? ==> Words64(list.value) && |list.value| <= 64
    requires
      var key := w.subs[k].subject + "/" + w.subs[k].cfg.group;
      key in w.store.groups ==> Distinct(w.store.groups[key].fl)
    ensures
      var s, answer := w.subs[k], Answered(status, if list.Some? then Some(Join(list.value)) else None);
      Settled(w.store, Complete(w, k, Report(answer, ack), now).store, s.subject + "/" + s.cfg.group, s.jobs, status, list, now)
  {
    var s, answer := w.subs[k], Answered(status, if list.Some? then Some(Join(list.value)) else None);
    var key := s.subject + "/" + s.cfg.group;
    WorkerStore(w, k, answer, ack, now);
    hide *;
    StoreSettled(w.store, Complete(w, k, Report(answer, ack), now).store, key, s.jobs, status, list, now);
  }

  lemma WorkerStore(w: World, k: nat, answer: Answer, ack: Option<nat>, now: nat)
    requires k < |w.subs| && !w.subs[k].gone && w.subs[k].cfg.group != "" && answer.Answered?
    ensures
      var s, key := w.subs[k], w.subs[k].subject + "/" + w.subs[k].cfg.group;
      Complete(w, k, Report(answer, ack), now).store
      == if key in w.store.groups
         then w.store.(groups := w.store.groups[key := Settlement.Settle(w.store.groups[key], s.jobs, answer, now)]) else w.store
  {
    hide Settlement.Settle, PushModel.PushWait, Settlement.IsOk;
  }

  lemma StoreSettled(st: Store, st': Store, key: string, jobs: seq<nat>, status: int, list: Option<seq<nat>>, now: nat)
    requires AllDistinct(jobs) && (list.Some? ==> Words64(list.value) && |list.value| <= 64)
    requires key in st.groups ==> Distinct(st.groups[key].fl)
    requires
      var answer := Answered(status, if list.Some? then Some(Join(list.value)) else None);
      st' == if key in st.groups then st.(groups := st.groups[key := Settlement.Settle(st.groups[key], jobs, answer, now)]) else st
    ensures Settled(st, st', key, jobs, status, list, now)
  {
    hide Settlement.Settle, Settlement.Join, Distinct, LeasesSettled;
    if key in st.groups { GroupSettles(st.groups[key], jobs, status, list, now); }
  }

  lemma GroupSettles(q: QRec, jobs: seq<nat>, status: int, list: Option<seq<nat>>, now: nat)
    requires Distinct(q.fl) && AllDistinct(jobs)
    requires list.Some? ==> Words64(list.value) && |list.value| <= 64
    ensures
      LeasesSettled(q, Settlement.Settle(q, jobs, Answered(status, if list.Some? then Some(Join(list.value)) else None), now).fl,
                    jobs, status, list, now)
  {
    AnswerSettles(q, jobs, status, list, now);
    var r := Settlement.Settle(q, jobs, Answered(status, if list.Some? then Some(Join(list.value)) else None), now);
    hide Settlement.Settle, Settlement.Join, Distinct, BackoffFor;
    SettledReads(q, r, jobs, status, list, now);
  }

  lemma SettledReads(q: QRec, r: QRec, jobs: seq<nat>, status: int, list: Option<seq<nat>>, now: nat)
    requires forall e | e in q.fl && e.index in jobs && Finishes(status, list, e.index) :: !Holds(r.fl, e.index)
    requires forall e | e in q.fl && e.index in jobs && !Finishes(status, list, e.index) ::
               Stands(r.fl, e.index, now + BackoffFor(q, e.attempts), e.attempts)
    requires forall e | e in q.fl && e.index !in jobs :: e in r.fl
    requires forall e | e in r.fl :: Holds(q.fl, e.index)
    ensures LeasesSettled(q, r.fl, jobs, status, list, now)
  {
    SettledGroup(q, r);
    hide BackoffFor, Holds;
  }

  /** Holding an index, entry by entry. */
  lemma SettledGroup(q: QRec, r: QRec)
    ensures forall i :: Holds(r.fl, i) <==> exists e | e in r.fl :: e.index == i
    ensures forall i :: Holds(q.fl, i) <==> exists e | e in q.fl :: e.index == i
  {
    forall i ensures Holds(r.fl, i) <==> exists e | e in r.fl :: e.index == i { HoldsEntry(r.fl, i); }
    forall i ensures Holds(q.fl, i) <==> exists e | e in q.fl :: e.index == i { HoldsEntry(q.fl, i); }
  }

  lemma HoldsEntry(fl: seq<Lease>, i: nat)
    ensures Holds(fl, i) <==> exists e | e in fl :: e.index == i
  {
    if e :| e in fl && e.index == i {
      var k :| 0 <= k < |fl| && fl[k] == e;
    }
    if Holds(fl, i) {
      var k :| 0 <= k < |fl| && fl[k].index == i;
      assert fl[k] in fl;
    }
  }

  // ---- what a delivery carries --------------------------------------------------------------

  /** Subscription `k` has been given its delivery: sent, or not taken by the transport. */
  ghost predicate Handed(w: World, t: Try, k: nat, s': Sub, env: Env)
    requires k < |w.subs|
  {
    && t.Stop? && t.started == env.sends(w.subs[k].id)
    && t.w.subs == w.subs[k := s'.(inflight := t.started || w.subs[k].inflight)]
    && t.w.inflight == w.inflight + if t.started then 1 else 0
  }

  /**
   A reader asked about a subject it covers is sent the messages after its receipt,
   or after what has been trimmed, as many as fit but one at least, and never past
   the end; with nothing there it is passed over.  Its receipt moves over what has
   been trimmed and no further.
   */
  lemma ReaderIsSent(w: World, k: nat, i: nat, env: Env)
    requires k < |w.subs| && i < |w.names| && w.subs[k].cfg.group == "" && Covers(w.subs[k].cfg.pattern, w.names[i])
    requires w.names[i] in w.store.logs && w.store.logs[w.names[i]].base <= w.store.logs[w.names[i]].last
    ensures
      var s, name, r, t := w.subs[k], w.names[i], w.store.logs[w.names[i]], TryName(w, k, i, env);
      var key := name + "/" + s.consumer;
      var was := if key in w.store.cursors then w.store.cursors[key] else 0;
      var at := Max(was, r.base);
      && t.w.names == w.names && t.w.work == w.work && t.w.store.logs == w.store.logs && t.w.store.groups == w.store.groups
      && (was >= r.last || was >= r.base ==> t.w.store.cursors == w.store.cursors)
      && (was < r.base && was < r.last ==> t.w.store.cursors == w.store.cursors[key := r.base])
      && (at >= r.last ==> t.GoOn? && t.w.subs == w.subs)
      && (at < r.last ==>
            var n := Min(Max(env.batch(s.id), 1), r.last - at);
            Handed(w, t, k, s.(subject := name, first := at + 1, last := (at + n) as nat, rr := (i + 1) % |w.names|), env))
  {
  }

  /** The jobs of `jobs` stand in `chosen` in the same order. */
  ghost predicate InOrderOf(jobs: seq<nat>, chosen: seq<Grant>) {
    exists at: seq<nat> :: Picked(at, jobs, chosen)
  }

  ghost predicate Picked(at: seq<nat>, jobs: seq<nat>, chosen: seq<Grant>) {
    && |at| == |jobs| && (forall n | 0 <= n < |at| :: at[n] < |chosen| && chosen[at[n]].index == jobs[n])
    && forall m, n | 0 <= m < n < |at| :: at[m] < at[n]
  }

  /** Of the jobs handed out, those still in the log, all of them ... */
  lemma {:induction false} LiveJobsExact(r: Range, chosen: seq<Grant>)
    ensures forall i :: i in LiveJobs(r, chosen) <==> r.base < i <= r.last && IsChosen(chosen, i)
  {
    if chosen != [] {
      var init, g := chosen[..|chosen| - 1], chosen[|chosen| - 1];
      LiveJobsExact(r, init);
      assert chosen == init + [g];
      forall i ensures IsChosen(chosen, i) <==> IsChosen(init, i) || g.index == i {
        if IsChosen(init, i) { var c :| c in init && c.index == i; assert c in chosen; }
        if g.index == i { assert g in chosen; }
      }
    }
  }

  /** ... and in order. */
  lemma {:induction false} LiveJobsOrdered(r: Range, chosen: seq<Grant>) returns (at: seq<nat>)
    ensures Picked(at, LiveJobs(r, chosen), chosen)
  {
    if chosen == [] {
      at := [];
    } else {
      var init, g := chosen[..|chosen| - 1], chosen[|chosen| - 1];
      at := LiveJobsOrdered(r, init);
      if InLog(r, g.index) { at := at + [|init|]; }
    }
  }

  /** A take hands out no job twice. */
  lemma ChosenOnce(q: QRec, max: int, now: nat, last: nat)
    requires Tidy(q)
    ensures AllDistinct(IndexesOf(Take(q, max, None, now, last).chosen))
  {
    hide Take;
    TakeOnce(q, max, None, now, last);
    var _ := TakeGives(q, max, None, now, last);
    OnceGiven(Take(q, max, None, now, last).events);
  }

  lemma AddedOnce(xs: seq<nat>, x: nat)
    requires AllDistinct(xs) && x !in xs
    ensures AllDistinct(xs + [x])
  {
  }

  lemma {:induction false} OnceGiven(h: seq<Event>)
    requires OncePerIndex(h)
    ensures AllDistinct(Given(h)) && forall i | i in Given(h) :: exists e | e in h :: e.index == i
  {
    if h != [] {
      var g, e := h[..|h| - 1], h[|h| - 1];
      OnceGiven(g);
      assert h == g + [e] && e in h;
      forall i | i in Given(g) ensures i != e.index && exists x | x in h :: x.index == i {
        var x :| x in g && x.index == i;
        var n :| 0 <= n < |g| && g[n] == x;
        assert h[n] == x && h[n].index != h[|g|].index;
      }
      if e.HandOut? { AddedOnce(Given(g), e.index); }
    }
  }

  /**
   A worker asked about a subject it covers takes as many jobs as it is configured
   for, one by default and 64 at most, and is sent those still in the log, each
   once and in the order they were handed out; with none it is passed over, and
   will be woken when the earliest lease of the group runs out.
   */
  lemma WorkerIsSent(w: World, k: nat, i: nat, env: Env)
    requires k < |w.subs| && i < |w.names| && w.subs[k].cfg.group != "" && Covers(w.subs[k].cfg.pattern, w.names[i])
    requires w.names[i] in w.store.logs && Tidy(GroupRec(w.store, w.names[i], w.subs[k].cfg.group))
    ensures
      var s, name, r, t := w.subs[k], w.names[i], w.store.logs[w.names[i]], TryName(w, k, i, env);
      var key, want := name + "/" + s.cfg.group, if s.cfg.maxJobs == 0 then 1 else if s.cfg.maxJobs > 64 then 64 else s.cfg.maxJobs;
      var q := if key in w.store.groups then w.store.groups[key] else FreshRec(r.base + 1);
      var take := Take(q, want, None, env.now, r.last);
      && t.w.store.groups == w.store.groups[key := take.q] && t.w.store.cursors == w.store.cursors
      && (t.GoOn? <==> forall i: nat | IsChosen(take.chosen, i) :: !(r.base < i <= r.last))
      && (t.GoOn? ==> t.w.subs == w.subs[k := s.(wake := t.w.subs[k].wake)] && WokenBy(s.wake, t.w.subs[k].wake, take.q.fl))
      && (t.Stop? ==>
            var jobs := t.w.subs[k].jobs;
            && (forall i :: i in jobs <==> r.base < i <= r.last && IsChosen(take.chosen, i))
            && InOrderOf(jobs, take.chosen) && AllDistinct(jobs) && 0 < |jobs| <= want
            && Handed(w, t, k, s.(subject := name, first := jobs[0], last := jobs[|jobs| - 1], jobs := jobs,
                                 rr := (i + 1) % |t.w.names|), env))
  {
    var s, name, r := w.subs[k], w.names[i], w.store.logs[w.names[i]];
    var q, want := GroupRec(w.store, name, s.cfg.group), WantJobs(s.cfg);
    hide Take, PushModel.AskQueue, PushModel.AddAll, PushModel.LiveJobs, Tidy, InOrderOf, IsChosen, AllDistinct;
    var take := Take(q, want, None, env.now, r.last);
    WorkerTries(w, k, i, env);
    hide PushModel.TryName, Handed;
    AskedOf(w.store, s.cfg, name, env.now);
    BatchIs(r, q, want, env.now);
  }

  /** The jobs a worker is sent: at most as many as it wants, each once, in order. */
  lemma BatchIs(r: Range, q: QRec, want: nat, now: nat)
    requires Tidy(q) && 1 <= want <= 64
    ensures
      var chosen := Take(q, want, None, now, r.last).chosen;
      var jobs := LiveJobs(r, chosen);
      && (forall i :: i in jobs <==> r.base < i <= r.last && IsChosen(chosen, i))
      && InOrderOf(jobs, chosen) && AllDistinct(jobs) && |jobs| <= want
      && (jobs == [] <==> forall i: nat | IsChosen(chosen, i) :: !(r.base < i <= r.last))
  {
    hide Take, PushModel.LiveJobs, Tidy, InOrderOf, IsChosen, OfferedAgain, PastHope;
    var chosen := Take(q, want, None, now, r.last).chosen;
    LiveJobsExact(r, chosen);
    var at := LiveJobsOrdered(r, chosen);
    assert InOrderOf(LiveJobs(r, chosen), chosen) by { MeansInOrder(at, LiveJobs(r, chosen), chosen); }
    ChosenOnce(q, want, now, r.last);
    var _ := TakeGives(q, want, None, now, r.last);
    OrderedOnce(LiveJobs(r, chosen), chosen);
    if LiveJobs(r, chosen) != [] { assert LiveJobs(r, chosen)[0] in LiveJobs(r, chosen); }
  }

  lemma MeansInOrder(at: seq<nat>, jobs: seq<nat>, chosen: seq<Grant>)
    requires Picked(at, jobs, chosen)
    ensures InOrderOf(jobs, chosen)
  {
  }

  /** What a step for a worker does with the answer to its take. */
  lemma WorkerTries(w: World, k: nat, i: nat, env: Env)
    requires k < |w.subs| && i < |w.names| && w.subs[k].cfg.group != "" && Covers(w.subs[k].cfg.pattern, w.names[i])
    ensures
      var s, name, t, a := w.subs[k], w.names[i], TryName(w, k, i, env), AskQueue(w.store, w.subs[k].cfg, w.names[i], env.now);
      && t.w.store == a.st && (t.GoOn? <==> a.jobs == [])
      && (t.GoOn? ==> t.w.subs == w.subs[k := s.(wake := t.w.subs[k].wake)]
                      && t.w.subs[k].wake == (if a.due.None? then s.wake
                                              else if s.wake == 0 then a.due.value else Min(s.wake, a.due.value)))
      && (t.Stop? ==>
            t.w.subs[k].jobs == a.jobs
            && Handed(w, t, k, s.(subject := name, first := a.jobs[0], last := a.jobs[|a.jobs| - 1], jobs := a.jobs,
                                  rr := (i + 1) % |t.w.names|), env))
  {
    hide PushModel.AskQueue, PushModel.AddAll;
  }

  lemma AskedOf(st: Store, cfg: Cfg, name: string, now: nat)
    requires name in st.logs
    ensures
      var a, q, r, key := AskQueue(st, cfg, name, now), GroupRec(st, name, cfg.group), st.logs[name], name + "/" + cfg.group;
      var take := Take(q, WantJobs(cfg), None, now, r.last);
      && q == (if key in st.groups then st.groups[key] else FreshRec(r.base + 1))
      && a.st.groups == st.groups[key := take.q] && a.st.cursors == st.cursors && a.jobs == LiveJobs(r, take.chosen)
      && a.due == NextDue(take.q.fl)
  {
    hide Take, DeadName, PushModel.LiveJobs, PushModel.CountLive;
  }

  /** The next wake: the one set already, or the earliest expiry of these leases, whichever comes first; 0 is none. */
  ghost predicate WokenBy(wake: nat, wake': nat, fl: seq<Lease>) {
    if fl == [] then wake' == wake
    else exists e | e in fl :: (forall x | x in fl :: e.expires <= x.expires)
                               && wake' == if wake == 0 then e.expires else Min(wake, e.expires)
  }

  lemma OrderedOnce(jobs: seq<nat>, chosen: seq<Grant>)
    requires InOrderOf(jobs, chosen) && AllDistinct(IndexesOf(chosen))
    ensures AllDistinct(jobs)
  {
    var at: seq<nat> :| Picked(at, jobs, chosen);
    forall m, n | 0 <= m < n < |jobs| ensures jobs[m] != jobs[n] {
      assert IndexesOf(chosen)[at[m]] != IndexesOf(chosen)[at[n]];
    }
  }

  /** Which subjects a subscription covers: those its pattern means, token by token, or the one it names. */
  lemma CoversMeans(pattern: string, name: string)
    requires JsPatternValid(pattern) && NameValid(name)
    ensures
      Covers(pattern, name) <==>
        if '*' in pattern || '>' in pattern then Means(Split(pattern, 0), Split(name, 0)) else pattern == name
  {
    MatcherMeaning(pattern, name);
  }

  // ---- registrations and messages ----------------------------------------------------------------

  /**
   Registering a consumer again changes what its live subscription covers and where
   it goes, and nothing else of it; a new one waits for nothing.  Either way the
   engine looks again.
   */
  lemma RegisterMoves(w: World, id: nat, consumer: string, cfg: Cfg)
    ensures
      var w' := Add(w, id, consumer, cfg);
      && w'.store == w.store && w'.names == w.names && w'.inflight == w.inflight && w'.work
      && |w.subs| <= |w'.subs|
      && (if exists k | 0 <= k < |w.subs| :: !w.subs[k].gone && w.subs[k].consumer == consumer
          then |w'.subs| == |w.subs|
               && exists k | 0 <= k < |w.subs| :: !w.subs[k].gone && w.subs[k].consumer == consumer && w'.subs == w.subs[k := w.subs[k].(cfg := cfg)]
          else w'.subs == w.subs + [Sub(id, consumer, cfg, false, false, "", 0, 0, [], 0, 0, 0, 0)])
  {
    var k := FindLive(w.subs, consumer);
    if k < |w.subs| { assert w.subs[k].consumer == consumer; }
  }

  /** Removing a consumer touches nobody else's subscription. */
  lemma RemoveSparesOthers(w: World, consumer: string, j: nat)
    requires j < |w.subs| && w.subs[j].consumer != consumer
    ensures
      var w' := Remove(w, consumer);
      w.subs[j] in w'.subs && w'.store == w.store && w'.names == w.names && w'.inflight == w.inflight && w'.work == w.work
  {
    var k, w' := FindAny(w.subs, consumer), Remove(w, consumer);
    if k < |w.subs| {
      if w.subs[k].inflight {
        assert w'.subs[j] == w.subs[j];
      } else {
        assert w'.subs[if j == |w.subs| - 1 then k else j] == w.subs[j];
      }
    } else {
      assert w'.subs[j] == w.subs[j];
    }
  }

  /** A message lengthens its log by one, puts its subject on the list if it was not there, and makes the engine look. */
  lemma MessageWakes(w: World, name: string)
    ensures
      var w', r := Publish(w, name), if name in w.store.logs then w.store.logs[name] else Range(0, 0);
      && w'.store == w.store.(logs := w.store.logs[name := Range(r.base, r.last + 1)])
      && w'.names == (if name in w.names then w.names else w.names + [name])
      && w'.work && w'.subs == w.subs && w'.inflight == w.inflight
  {
  }
}
