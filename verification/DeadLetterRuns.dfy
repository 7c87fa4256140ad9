/** Dead letters over every run of a subject's queue groups: one envelope for each job that died, and no more. */
module DeadLetterRuns {
  import opened Options
  import opened Queue
  import opened QueueRefinement
  import opened QueueTheorems
  import opened Names
  import opened DeadLetters

  // ---- a job dies once -----------------------------------------------------------------

  ghost predicate NoRepeats<T>(xs: seq<T>) {
    forall a, b | 0 <= a < b < |xs| :: xs[a] != xs[b]
  }

  lemma {:induction false} DeathsAre(h: seq<Event>, i: nat)
    ensures i in Deaths(h) <==> Die(i) in h
  {
    if h != [] {
      var n := |h| - 1;
      DeathsAre(h[..n], i);
      assert h == h[..n] + [h[n]];
    }
  }

  lemma {:induction false} NotBrokenBefore(h: seq<Event>, n: nat)
    requires n <= |h| && forall i: nat :: Fate(h, i) != Broken
    ensures forall i: nat :: Fate(h[..n], i) != Broken
  {
    forall i: nat ensures Fate(h[..n], i) != Broken { BrokenPrefix(h, n, i); }
  }

  /** In a history without illegal steps no job dies twice. */
  lemma {:induction false} DieOnce(h: seq<Event>)
    requires forall i: nat :: Fate(h, i) != Broken
    ensures NoRepeats(Deaths(h))
  {
    if h != [] {
      var g, e := h[..|h| - 1], h[|h| - 1];
      NotBrokenBefore(h, |g|);
      DieOnce(g);
      if e.Die? {
        DeathsAre(g, e.index);
        FateMeaning(g, e.index);
        assert Fate(h, e.index) == JobStep(Fate(g, e.index), e);
        assert e.index !in Deaths(g);
      }
    }
  }

  function Indexes(fl: seq<Lease>): seq<nat> {
    if fl == [] then [] else Indexes(fl[..|fl| - 1]) + [fl[|fl| - 1].index]
  }

  lemma {:induction false} DeathsConcat(a: seq<Event>, b: seq<Event>)
    ensures Deaths(a + b) == Deaths(a) + Deaths(b)
  {
    if b == [] {
      assert a + b == a && Deaths(a) + [] == Deaths(a);
    } else {
      var n := |b| - 1;
      DeathsConcat(a, b[..n]);
      assert (a + b)[..|a + b| - 1] == a + b[..n] && (a + b)[|a + b| - 1] == b[n];
      assert Deaths(a) + (Deaths(b[..n]) + if b[n].Die? then [b[n].index] else []) ==
             (Deaths(a) + Deaths(b[..n])) + if b[n].Die? then [b[n].index] else [];
    }
  }

  lemma IndexesAppend(fl: seq<Lease>, e: Lease)
    ensures Indexes(fl + [e]) == Indexes(fl) + [e.index]
  {
    assert (fl + [e])[..|fl|] == fl;
  }

  lemma {:induction false} ScanDying(t: Taking, k: nat, max: nat, now: nat, lease: nat)
    requires Deaths(t.events) == Indexes(t.dying)
    ensures var t' := ScanFrom(t, k, max, now, lease); Deaths(t'.events) == Indexes(t'.dying)
    decreases |t.q.fl| - k
  {
    if k >= |t.q.fl| || |t.chosen| >= max {
    } else if t.q.fl[k].expires > now {
      ScanDying(t, k + 1, max, now, lease);
    } else if Exhausted(t.q, t.q.fl[k]) {
      DeathsAppend(t.events, Die(t.q.fl[k].index));
      IndexesAppend(t.dying, t.q.fl[k]);
      ScanDying(Bury(t, k), k, max, now, lease);
    } else {
      DeathsAppend(t.events, HandOut(t.q.fl[k].index, now, now + lease, true));
      ScanDying(Regrant(t, k, now, lease), k + 1, max, now, lease);
    }
  }

  lemma {:induction false} FreshDying(t: Taking, max: nat, now: nat, lease: nat, last: nat)
    requires Deaths(t.events) == Indexes(t.dying)
    ensures var t' := FreshFrom(t, max, now, lease, last); Deaths(t'.events) == Indexes(t'.dying)
    decreases max - |t.chosen|
  {
    if MayGrantFresh(t, max, lease, last) {
      DeathsAppend(t.events, HandOut(t.q.next, now, now + lease, lease > 0));
      FreshDying(GrantFresh(t, now, lease), max, now, lease, last);
    }
  }

  /** The jobs a take hands back as dying are the deaths of its history, in order. */
  lemma TakeDying(q: QRec, max: int, lease: Option<nat>, now: nat, last: nat)
    ensures var t := Take(q, max, lease, now, last); Deaths(t.events) == Indexes(t.dying)
  {
    var t, ms := StartTake(q, lease), EffectiveLease(q, lease);
    ScanDying(t, 0, ClampMax(max), now, ms);
    FreshDying(ScanFrom(t, 0, ClampMax(max), now, ms), ClampMax(max), now, ms, last);
  }

  // ---- runs ---------------------------------------------------------------------------------

  /** A group's job. */
  datatype Job = Job(group: string, index: nat)

  /** What happens to one subject's groups and logs: calls on any of the groups, messages anywhere, the channel included, and trims. */
  datatype Act = Call(group: string, op: Op) | Arrive(name: string, e: Entry) | Trim(name: string, base: nat)

  /** An entry that reached the channel, and the death it tells of, if a take put it there. */
  datatype Post = Post(e: Entry, job: Option<Job>)

  /** The groups with their histories, the logs, what has reached the channel, all deaths in order, and those that left no letter. */
  datatype Life = Life(groups: map<string, QRec>, hists: map<string, seq<Event>>, logs: Logs,
                       posts: seq<Post>, deaths: seq<Job>, untold: seq<Job>)

  /** A group's record, which starts behind what has been trimmed. */
  function RecOf(l: Life, subject: string, group: string): QRec {
    if group in l.groups then l.groups[group] else FreshRec(LogOf(l.logs, subject).base + 1)
  }

  function HistOf(l: Life, group: string): seq<Event> {
    if group in l.hists then l.hists[group] else []
  }

  function JobsOf(group: string, indexes: seq<nat>): (r: seq<Job>)
    ensures |r| == |indexes| && forall i | 0 <= i < |r| :: r[i] == Job(group, indexes[i])
  {
    seq(|indexes|, i requires 0 <= i < |indexes| => Job(group, indexes[i]))
  }

  /** A job that dies now leaves an envelope: its entry is in the log, and the envelope can be built. */
  predicate Tells(logs: Logs, subject: string, group: string, lease: Lease, now: nat) {
    var entry := EntryAt(logs, subject, lease.index);
    entry.Some? && Writable(Death(subject, group, lease, now, entry.value))
  }

  /** The envelopes of these deaths, each with its job. */
  function Posted(logs: Logs, subject: string, group: string, dying: seq<Lease>, now: nat): seq<Post> {
    if dying == [] then []
    else
      var e := dying[|dying| - 1];
      Posted(logs, subject, group, dying[..|dying| - 1], now)
      + if Tells(logs, subject, group, e, now)
        then [Post(Letter(Death(subject, group, e, now, EntryAt(logs, subject, e.index).value)), Some(Job(group, e.index)))]
        else []
  }

  function Untold(logs: Logs, subject: string, group: string, dying: seq<Lease>, now: nat): seq<Job> {
    if dying == [] then []
    else
      var e := dying[|dying| - 1];
      Untold(logs, subject, group, dying[..|dying| - 1], now)
      + if Tells(logs, subject, group, e, now) then [] else [Job(group, e.index)]
  }

  function Entries(posts: seq<Post>): (r: seq<Entry>)
    ensures |r| == |posts| && forall i | 0 <= i < |r| :: r[i] == posts[i].e
  {
    seq(|posts|, i requires 0 <= i < |posts| => posts[i].e)
  }

  /** The jobs the channel tells of, in order. */
  function Told(posts: seq<Post>): seq<Job> {
    if posts == [] then []
    else Told(posts[..|posts| - 1]) + if posts[|posts| - 1].job.Some? then [posts[|posts| - 1].job.value] else []
  }

  function Trimmed(l: Log, base: nat): Log {
    if base <= l.base || base > LastIndex(l) then l else Log(base, l.entries[base - l.base..])
  }

  function Lived(l: Life, subject: string, act: Act): Life {
    match act
    case Call(g, op) =>
      var q, h := RecOf(l, subject, g), HistOf(l, g);
      if op.OpTake? then
        var t := Take(q, op.max, op.lease, op.now, LastIndex(LogOf(l.logs, subject)));
        Life(l.groups[g := t.q], l.hists[g := h + t.events], BuryAll(l.logs, subject, g, t.dying, op.now),
             l.posts + Posted(l.logs, subject, g, t.dying, op.now),
             l.deaths + JobsOf(g, Indexes(t.dying)), l.untold + Untold(l.logs, subject, g, t.dying, op.now))
      else
        l.(groups := l.groups[g := Apply(q, op).0], hists := l.hists[g := h + Apply(q, op).1])
    case Arrive(name, e) =>
      l.(logs := Append(l.logs, name, e),
         posts := if DeadName(subject) == Some(name) then l.posts + [Post(e, None)] else l.posts)
    case Trim(name, base) => l.(logs := l.logs[name := Trimmed(LogOf(l.logs, name), base)])
  }

  /** Any run from any logs, before any group has been used. */
  function Live(logs: Logs, subject: string, acts: seq<Act>): Life {
    if acts == [] then Life(map[], map[], logs, [], [], [])
    else Lived(Live(logs, subject, acts[..|acts| - 1]), subject, acts[|acts| - 1])
  }

  // ---- what a take adds -----------------------------------------------------------------------

  /** `e` is an envelope of this job. */
  ghost predicate TellsOf(e: Entry, subject: string, job: Job) {
    exists d: Death :: Writable(d) && e == Letter(d) && d.subject == subject && d.group == job.group && d.lease.index == job.index
  }

  ghost predicate Telling(posts: seq<Post>, subject: string) {
    forall p | p in posts && p.job.Some? :: TellsOf(p.e, subject, p.job.value)
  }

  lemma {:induction false} PostedTells(logs: Logs, subject: string, group: string, dying: seq<Lease>, now: nat)
    ensures Telling(Posted(logs, subject, group, dying, now), subject)
    ensures Entries(Posted(logs, subject, group, dying, now)) == Letters(logs, subject, group, dying, now)
  {
    hide Letter, Writable;
    if dying != [] {
      var init, e := dying[..|dying| - 1], dying[|dying| - 1];
      PostedTells(logs, subject, group, init, now);
      if Tells(logs, subject, group, e, now) {
        var d := Death(subject, group, e, now, EntryAt(logs, subject, e.index).value);
        assert TellsOf(Letter(d), subject, Job(group, e.index));
      }
    }
  }

  lemma {:induction false} ToldConcat(a: seq<Post>, b: seq<Post>)
    ensures Told(a + b) == Told(a) + Told(b)
  {
    if b == [] {
      assert a + b == a;
    } else {
      var n := |b| - 1;
      ToldConcat(a, b[..n]);
      assert (a + b)[..|a + b| - 1] == a + b[..n];
    }
  }

  lemma JobsAppend(group: string, indexes: seq<nat>, i: nat)
    ensures JobsOf(group, indexes + [i]) == JobsOf(group, indexes) + [Job(group, i)]
  {
  }

  lemma ToldOne(posts: seq<Post>, e: Entry, job: Job)
    ensures Told(posts + [Post(e, Some(job))]) == Told(posts) + [job]
  {
    assert (posts + [Post(e, Some(job))])[..|posts|] == posts;
  }

  lemma ToldLast(logs: Logs, subject: string, group: string, dying: seq<Lease>, now: nat)
    requires dying != []
    ensures
      var init, e := dying[..|dying| - 1], dying[|dying| - 1];
      Told(Posted(logs, subject, group, dying, now))
      == Told(Posted(logs, subject, group, init, now)) + if Tells(logs, subject, group, e, now) then [Job(group, e.index)] else []
  {
    hide Letter, Writable, Told, EntryAt;
    var init, e := dying[..|dying| - 1], dying[|dying| - 1];
    if Tells(logs, subject, group, e, now) {
      ToldOne(Posted(logs, subject, group, init, now),
              Letter(Death(subject, group, e, now, EntryAt(logs, subject, e.index).value)), Job(group, e.index));
    } else {
      assert Posted(logs, subject, group, init, now) + [] == Posted(logs, subject, group, init, now);
    }
  }

  /** Each death is told of or not. */
  lemma {:induction false} DeathsSplit(logs: Logs, subject: string, group: string, dying: seq<Lease>, now: nat)
    ensures multiset(Told(Posted(logs, subject, group, dying, now))) + multiset(Untold(logs, subject, group, dying, now))
         == multiset(JobsOf(group, Indexes(dying)))
  {
    hide Posted, Tells, Told, JobsOf;
    if dying == [] {
      NothingTold(logs, subject, group, now);
    } else {
      var init, e := dying[..|dying| - 1], dying[|dying| - 1];
      DeathsSplit(logs, subject, group, init, now);
      ToldLast(logs, subject, group, dying, now);
      JobsAppend(group, Indexes(init), e.index);
    }
  }

  lemma NothingTold(logs: Logs, subject: string, group: string, now: nat)
    ensures Told(Posted(logs, subject, group, [], now)) == [] && JobsOf(group, []) == []
  {
  }

  /** The indexes of one group's jobs, in order. */
  function Of(group: string, jobs: seq<Job>): seq<nat> {
    if jobs == [] then []
    else Of(group, jobs[..|jobs| - 1]) + if jobs[|jobs| - 1].group == group then [jobs[|jobs| - 1].index] else []
  }

  lemma {:induction false} OfConcat(group: string, a: seq<Job>, b: seq<Job>)
    ensures Of(group, a + b) == Of(group, a) + Of(group, b)
  {
    if b == [] {
      assert a + b == a;
    } else {
      var n := |b| - 1;
      OfConcat(group, a, b[..n]);
      assert (a + b)[..|a + b| - 1] == a + b[..n];
    }
  }

  lemma {:induction false} OfJobs(group: string, other: string, indexes: seq<nat>)
    ensures Of(other, JobsOf(group, indexes)) == if other == group then indexes else []
  {
    if indexes != [] {
      var n := |indexes| - 1;
      OfJobs(group, other, indexes[..n]);
      JobsAppend(group, indexes[..n], indexes[n]);
      assert indexes == indexes[..n] + [indexes[n]];
      assert JobsOf(group, indexes)[..n] == JobsOf(group, indexes[..n]);
    }
  }

  // ---- what every run keeps -----------------------------------------------------------------

  /** A group's record is what its history says, and the deaths listed for it are those of its history. */
  ghost predicate GroupTrue(l: Life, subject: string, group: string) {
    && (exists start: nat :: Refines(start, RecOf(l, subject, group), HistOf(l, group)))
    && Of(group, l.deaths) == Deaths(HistOf(l, group))
  }

  /** The channel holds what it held and what has reached it since, less what has been trimmed. */
  ghost predicate ChannelTrue(l: Life, logs0: Logs, subject: string)
    requires DeadName(subject).Some?
  {
    var was, now := LogOf(logs0, DeadName(subject).value), LogOf(l.logs, DeadName(subject).value);
    && was.base <= now.base <= was.base + |was.entries| + |l.posts|
    && now.entries == (was.entries + Entries(l.posts))[now.base - was.base..]
  }

  ghost predicate Accounted(l: Life, logs0: Logs, subject: string)
    requires DeadName(subject).Some?
  {
    && (forall g: string :: GroupTrue(l, subject, g))
    && ChannelTrue(l, logs0, subject)
    && Telling(l.posts, subject)
    && multiset(Told(l.posts)) + multiset(l.untold) == multiset(l.deaths)
  }

  lemma FreshTrue(start: nat)
    ensures Refines(start, FreshRec(start), []) && Deaths([]) == []
  {
  }

  lemma SuffixGrows<T>(a: seq<T>, b: seq<T>, more: seq<T>, k: nat)
    requires k <= |a| + |b|
    ensures (a + b)[k..] + more == (a + (b + more))[k..]
  {
  }

  lemma SuffixShrinks<T>(all: seq<T>, j: nat, k: nat)
    requires j <= k <= |all|
    ensures all[j..][k - j..] == all[k..]
  {
  }

  lemma EntriesConcat(a: seq<Post>, b: seq<Post>)
    ensures Entries(a + b) == Entries(a) + Entries(b)
  {
  }

  /** The posts of a stretch lengthen the channel. */
  lemma ChannelGrows(l: Life, l': Life, logs0: Logs, subject: string, more: seq<Post>)
    requires DeadName(subject).Some? && ChannelTrue(l, logs0, subject) && l'.posts == l.posts + more
    requires LogOf(l'.logs, DeadName(subject).value).base == LogOf(l.logs, DeadName(subject).value).base
    requires LogOf(l'.logs, DeadName(subject).value).entries == LogOf(l.logs, DeadName(subject).value).entries + Entries(more)
    ensures ChannelTrue(l', logs0, subject)
  {
    hide DeadName, LogOf, Entries;
    var was, now := LogOf(logs0, DeadName(subject).value), LogOf(l.logs, DeadName(subject).value);
    EntriesConcat(l.posts, more);
    SuffixGrows(was.entries, Entries(l.posts), Entries(more), now.base - was.base);
  }

  /** One group's step leaves the others as they were. */
  lemma GroupsStep(l: Life, l': Life, subject: string, group: string, events: seq<Event>, q: QRec, died: seq<nat>)
    requires forall g: string :: GroupTrue(l, subject, g)
    requires l'.groups == l.groups[group := q] && l'.hists == l.hists[group := HistOf(l, group) + events]
    requires LogOf(l'.logs, subject).base == LogOf(l.logs, subject).base && l'.deaths == l.deaths + JobsOf(group, died)
    requires Deaths(events) == died
    requires forall start: nat | Refines(start, RecOf(l, subject, group), HistOf(l, group)) ::
               Refines(start, q, HistOf(l, group) + events)
    ensures forall g: string :: GroupTrue(l', subject, g)
  {
    hide Refines, LogOf, Deaths, Of, JobsOf;
    forall g: string ensures GroupTrue(l', subject, g) {
      assert GroupTrue(l, subject, g);
      OfConcat(g, l.deaths, JobsOf(group, died));
      OfJobs(group, g, died);
      if g == group {
        DeathsConcat(HistOf(l, group), events);
        var start: nat :| Refines(start, RecOf(l, subject, group), HistOf(l, group));
        assert RecOf(l', subject, g) == q && HistOf(l', g) == HistOf(l, group) + events;
        assert Refines(start, RecOf(l', subject, g), HistOf(l', g));
      } else {
        assert Of(g, l.deaths) + [] == Of(g, l.deaths);
        assert RecOf(l', subject, g) == RecOf(l, subject, g) && HistOf(l', g) == HistOf(l, g);
      }
    }
  }

  /** What moves no group leaves them all true; those not used yet stay new. */
  lemma GroupsStay(l: Life, l': Life, subject: string)
    requires forall g: string :: GroupTrue(l, subject, g)
    requires l'.groups == l.groups && l'.hists == l.hists && l'.deaths == l.deaths && l.groups.Keys == l.hists.Keys
    ensures forall g: string :: GroupTrue(l', subject, g)
  {
    hide Refines, LogOf, Of, Deaths;
    forall g: string ensures GroupTrue(l', subject, g) {
      assert GroupTrue(l, subject, g);
      var start := LogOf(l'.logs, subject).base + 1;
      FreshTrue(start);
      assert HistOf(l', g) == HistOf(l, g);
      if g in l.groups {
        assert RecOf(l', subject, g) == RecOf(l, subject, g);
      } else {
        assert RecOf(l', subject, g) == FreshRec(start) && HistOf(l', g) == [];
        assert Refines(start, RecOf(l', subject, g), HistOf(l', g));
      }
    }
  }

  lemma AddsUp<T>(told: seq<T>, untold: seq<T>, deaths: seq<T>, t: seq<T>, u: seq<T>, more: seq<T>)
    requires multiset(told) + multiset(untold) == multiset(deaths) && multiset(t) + multiset(u) == multiset(more)
    ensures multiset(told + t) + multiset(untold + u) == multiset(deaths + more)
  {
  }

  lemma TakeAccounted(l: Life, logs0: Logs, subject: string, group: string, op: Op)
    requires DeadName(subject).Some? && Accounted(l, logs0, subject) && op.OpTake?
    ensures Accounted(Lived(l, subject, Call(group, op)), logs0, subject)
  {
    hide Take, Refines, DeadName, Letters, Told, Untold, Posted, BuryAll, LogOf, Deaths, Indexes, GroupTrue, ChannelTrue, JobsOf, TellsOf;
    var end := LastIndex(LogOf(l.logs, subject));
    var q, h := RecOf(l, subject, group), HistOf(l, group);
    var t := Take(q, op.max, op.lease, op.now, end);
    var l' := Lived(l, subject, Call(group, op));
    var more := Posted(l.logs, subject, group, t.dying, op.now);
    forall start: nat | Refines(start, q, h) ensures Refines(start, t.q, h + t.events) {
      TakeRefines(start, q, h, op.max, op.lease, op.now, end);
    }
    TakeDying(q, op.max, op.lease, op.now, end);
    OneLetterEach(l.logs, subject, group, t.dying, op.now);
    ChannelApart(subject);
    GroupsStep(l, l', subject, group, t.events, t.q, Indexes(t.dying));
    PostedTells(l.logs, subject, group, t.dying, op.now);
    ChannelGrows(l, l', logs0, subject, more);
    ToldConcat(l.posts, more);
    DeathsSplit(l.logs, subject, group, t.dying, op.now);
    AddsUp(Told(l.posts), l.untold, l.deaths, Told(more), Untold(l.logs, subject, group, t.dying, op.now),
           JobsOf(group, Indexes(t.dying)));
  }

  /** Only a take kills. */
  lemma CallsKillNobody(q: QRec, op: Op)
    requires !op.OpTake?
    ensures Deaths(Apply(q, op).1) == []
  {
    match op
    case OpDone(index) => assert [Finish(index)][..0] == [];
    case OpFail(index, delay, now) =>
      var k := Find(q.fl, index);
      if k < |q.fl| {
        var e := Retime(index, now + FailDelay(q, q.fl[k].attempts, delay));
        assert [e][..0] == [];
      }
    case OpConfig(_, _, _, _) =>
  }

  lemma CallAccounted(l: Life, logs0: Logs, subject: string, group: string, op: Op)
    requires DeadName(subject).Some? && Accounted(l, logs0, subject) && !op.OpTake?
    ensures Accounted(Lived(l, subject, Call(group, op)), logs0, subject)
  {
    hide Refines, DeadName, LogOf, Deaths, Apply, GroupTrue, Told, TellsOf;
    var q, h := RecOf(l, subject, group), HistOf(l, group);
    var l' := Lived(l, subject, Call(group, op));
    forall start: nat | Refines(start, q, h) ensures Refines(start, Apply(q, op).0, h + Apply(q, op).1) {
      ApplyRefines(start, q, h, op);
    }
    CallsKillNobody(q, op);
    assert l.deaths + JobsOf(group, []) == l.deaths;
    GroupsStep(l, l', subject, group, Apply(q, op).1, Apply(q, op).0, []);
  }

  lemma ArriveAccounted(l: Life, logs0: Logs, subject: string, name: string, e: Entry)
    requires DeadName(subject).Some? && Accounted(l, logs0, subject) && l.groups.Keys == l.hists.Keys
    ensures Accounted(Lived(l, subject, Arrive(name, e)), logs0, subject)
  {
    hide DeadName, GroupTrue, ChannelTrue, TellsOf, Told, LogOf, Append;
    var l' := Lived(l, subject, Arrive(name, e));
    GroupsStay(l, l', subject);
    var more := if DeadName(subject) == Some(name) then [Post(e, None)] else [];
    assert l'.posts == l.posts + more;
    AppendedLog(l.logs, name, e, DeadName(subject).value);
    ChannelGrows(l, l', logs0, subject, more);
    NoJobTold(l.posts, e);
  }

  lemma AppendedLog(logs: Logs, name: string, e: Entry, other: string)
    ensures LogOf(Append(logs, name, e), other).base == LogOf(logs, other).base
    ensures LogOf(Append(logs, name, e), other).entries == LogOf(logs, other).entries + if other == name then [e] else []
  {
  }

  lemma NoJobTold(posts: seq<Post>, e: Entry)
    ensures Told(posts + [Post(e, None)]) == Told(posts)
  {
    assert (posts + [Post(e, None)])[..|posts|] == posts;
  }

  lemma TrimAccounted(l: Life, logs0: Logs, subject: string, name: string, base: nat)
    requires DeadName(subject).Some? && Accounted(l, logs0, subject) && l.groups.Keys == l.hists.Keys
    ensures Accounted(Lived(l, subject, Trim(name, base)), logs0, subject)
  {
    hide DeadName, GroupTrue, ChannelTrue, TellsOf, Told, LogOf, Trimmed;
    var l' := Lived(l, subject, Trim(name, base));
    GroupsStay(l, l', subject);
    ChannelTrims(l, l', logs0, subject, name, base);
  }

  lemma TrimmedLog(logs: Logs, name: string, base: nat, other: string)
    ensures
      var was, now := LogOf(logs, other), LogOf(logs[name := Trimmed(LogOf(logs, name), base)], other);
      if other == name && was.base < base <= LastIndex(was) then now == Log(base, was.entries[base - was.base..]) else now == was
  {
  }

  lemma ChannelTrims(l: Life, l': Life, logs0: Logs, subject: string, name: string, base: nat)
    requires DeadName(subject).Some? && ChannelTrue(l, logs0, subject) && l'.posts == l.posts
    requires l'.logs == l.logs[name := Trimmed(LogOf(l.logs, name), base)]
    ensures ChannelTrue(l', logs0, subject)
  {
    hide DeadName, Entries, LogOf, Trimmed;
    var channel := DeadName(subject).value;
    TrimmedLog(l.logs, name, base, channel);
    SuffixTrims(LogOf(logs0, channel), Entries(l.posts), LogOf(l.logs, channel), LogOf(l'.logs, channel), base);
  }

  lemma SuffixTrims(was: Log, more: seq<Entry>, now: Log, cut: Log, base: nat)
    requires was.base <= now.base <= was.base + |was.entries| + |more| && now.entries == (was.entries + more)[now.base - was.base..]
    requires cut == now || (now.base < base <= LastIndex(now) && cut == Log(base, now.entries[base - now.base..]))
    ensures was.base <= cut.base <= was.base + |was.entries| + |more| && cut.entries == (was.entries + more)[cut.base - was.base..]
  {
    if cut != now { SuffixShrinks(was.entries + more, now.base - was.base, base - was.base); }
  }

  lemma ActAccounted(l: Life, logs: Logs, subject: string, act: Act)
    requires DeadName(subject).Some? && Accounted(l, logs, subject) && l.groups.Keys == l.hists.Keys
    ensures Accounted(Lived(l, subject, act), logs, subject)
  {
    hide Accounted, Lived, DeadName;
    match act
    case Call(g, op) =>
      if op.OpTake? { TakeAccounted(l, logs, subject, g, op); } else { CallAccounted(l, logs, subject, g, op); }
    case Arrive(name, e) => ArriveAccounted(l, logs, subject, name, e);
    case Trim(name, base) => TrimAccounted(l, logs, subject, name, base);
  }

  lemma SameGroups(l: Life, subject: string, act: Act)
    requires l.groups.Keys == l.hists.Keys
    ensures Lived(l, subject, act).groups.Keys == Lived(l, subject, act).hists.Keys
  {
  }

  lemma UnusedTrue(l: Life, subject: string, group: string)
    requires group !in l.groups && group !in l.hists && l.deaths == []
    ensures GroupTrue(l, subject, group)
  {
    hide Refines, LogOf;
    var start := LogOf(l.logs, subject).base + 1;
    FreshTrue(start);
    assert RecOf(l, subject, group) == FreshRec(start) && HistOf(l, group) == [];
    assert Refines(start, RecOf(l, subject, group), HistOf(l, group));
  }

  lemma NothingYet(logs: Logs, subject: string)
    requires DeadName(subject).Some?
    ensures Accounted(Life(map[], map[], logs, [], [], []), logs, subject)
  {
    hide GroupTrue, DeadName, LogOf;
    var l := Life(map[], map[], logs, [], [], []);
    forall g: string ensures GroupTrue(l, subject, g) { UnusedTrue(l, subject, g); }
  }

  lemma {:induction false} LiveAccounted(logs: Logs, subject: string, acts: seq<Act>)
    requires DeadName(subject).Some?
    ensures var l := Live(logs, subject, acts); Accounted(l, logs, subject) && l.groups.Keys == l.hists.Keys
  {
    hide Accounted, Lived, DeadName;
    if acts == [] {
      NothingYet(logs, subject);
    } else {
      var l, act := Live(logs, subject, acts[..|acts| - 1]), acts[|acts| - 1];
      LiveAccounted(logs, subject, acts[..|acts| - 1]);
      ActAccounted(l, logs, subject, act);
      SameGroups(l, subject, act);
    }
  }

  // ---- one envelope per death -----------------------------------------------------------------

  /** Jobs listed without repeats group by group are listed without repeats. */
  lemma {:induction false} ApartByGroup(jobs: seq<Job>)
    requires forall g: string :: NoRepeats(Of(g, jobs))
    ensures NoRepeats(jobs)
  {
    if jobs != [] {
      var init, last := jobs[..|jobs| - 1], jobs[|jobs| - 1];
      forall g: string ensures NoRepeats(Of(g, init)) {
        assert Of(g, init) <= Of(g, jobs);
      }
      ApartByGroup(init);
      OfHas(last.group, init, last.index);
      var of := Of(last.group, init);
      var longer := Of(last.group, jobs);
      assert longer == of + [last.index];
      forall k | 0 <= k < |of| ensures of[k] != last.index { assert longer[k] == of[k] && longer[|of|] == last.index; }
      assert last !in init;
    }
  }

  lemma {:induction false} OfHas(group: string, jobs: seq<Job>, index: nat)
    ensures index in Of(group, jobs) <==> Job(group, index) in jobs
  {
    if jobs != [] { OfHas(group, jobs[..|jobs| - 1], index); }
  }

  /**
   In every run, over all the groups of a subject, whatever else is written to
   the channel or trimmed, the channel gains exactly one envelope for each death
   of a group's job that happened while the job's entry was in the log and its
   envelope could be built: the letters name their jobs, no job twice, and
   together with the deaths that left none they are the deaths of the histories.
   */
  lemma OneEnvelopePerDeath(logs: Logs, subject: string, acts: seq<Act>)
    requires DeadName(subject).Some?
    ensures
      var l := Live(logs, subject, acts);
      && ChannelTrue(l, logs, subject) && Telling(l.posts, subject) && NoRepeats(Told(l.posts))
      && forall g: string, i: nat ::
           (i in Deaths(HistOf(l, g)) <==> Job(g, i) in Told(l.posts) || Job(g, i) in l.untold)
           && (Job(g, i) in Told(l.posts) ==> Job(g, i) !in l.untold)
  {
    LiveAccounted(logs, subject, acts);
    var l := Live(logs, subject, acts);
    hide ChannelTrue, Telling, Live, DeadName, Told;
    forall g: string ensures NoRepeats(Of(g, l.deaths)) && Of(g, l.deaths) == Deaths(HistOf(l, g)) {
      assert GroupTrue(l, subject, g);
      DieOnce(HistOf(l, g));
    }
    ApartByGroup(l.deaths);
    SplitDistinct(Told(l.posts), l.untold, l.deaths);
    forall g: string, i: nat ensures i in Deaths(HistOf(l, g)) <==> Job(g, i) in l.deaths { OfHas(g, l.deaths, i); }
  }

  lemma {:induction false} OnceEach<T>(xs: seq<T>, x: T)
    requires NoRepeats(xs)
    ensures multiset(xs)[x] == if x in xs then 1 else 0
  {
    if xs != [] {
      var n := |xs| - 1;
      assert xs == xs[..n] + [xs[n]];
      OnceEach(xs[..n], x);
    }
  }

  lemma RepeatCounts<T>(xs: seq<T>, a: nat, b: nat)
    requires a < b < |xs| && xs[a] == xs[b]
    ensures multiset(xs)[xs[a]] >= 2
  {
    assert xs == xs[..b] + [xs[b]] + xs[b + 1..];
    assert xs[..b][a] in multiset(xs[..b]);
  }

  /** What is listed once and split in two lies on one side only. */
  lemma SplitDistinct<T(!new)>(a: seq<T>, b: seq<T>, all: seq<T>)
    requires multiset(a) + multiset(b) == multiset(all) && NoRepeats(all)
    ensures NoRepeats(a)
    ensures forall x :: (x in all <==> x in a || x in b) && (x in a ==> x !in b)
  {
    forall x ensures multiset(all)[x] == if x in all then 1 else 0 { OnceEach(all, x); }
    forall i, j | 0 <= i < j < |a| ensures a[i] != a[j] {
      assert multiset(all)[a[i]] == multiset(a)[a[i]] + multiset(b)[a[i]];
      if a[i] == a[j] {
        RepeatCounts(a, i, j);
        assert false;
      }
    }
    forall x ensures (x in all <==> x in a || x in b) && (x in a ==> x !in b) {
      assert multiset(all)[x] == multiset(a)[x] + multiset(b)[x];
      assert (x in a <==> multiset(a)[x] > 0) && (x in b <==> multiset(b)[x] > 0) && (x in all <==> multiset(all)[x] > 0);
    }
  }
}
