/**
 Settling a delivery of jobs: the worker runs its handlers and answers with a
 status and perhaps an X-Sukkal-Done list (packages/node/src/client.js); the
 broker parses that header and finishes or fails each leased job
 (src/push.c: on_hdr, finish_jobs).
 */
module Settlement {
  import opened Options
  import opened Words
  import opened Decimal
  import opened Queue
  import opened QueueGroups

  const JOBS_MAX: nat := 64

  // ---- the header list on the wire ---------------------------------------------

  /** done.join(',') */
  function Join(list: seq<nat>): string {
    if list == [] then ""
    else if |list| == 1 then Dec(list[0])
    else Dec(list[0]) + "," + Join(list[1..])
  }

  function Lower(c: char): char {
    if 'A' <= c <= 'Z' then ((c as int - 'A' as int) + 'a' as int) as char else c
  }

  /** Case-insensitive "starts with", for a line longer than the name. */
  predicate HeaderIs(line: string, name: string) {
    |line| > |name| && forall i | 0 <= i < |name| :: Lower(line[i]) == name[i]
  }

  const DONE_HEADER: string := "x-sukkal-done:"

  function SkipOthers(s: string, p: nat): (q: nat)
    requires p <= |s|
    ensures p <= q <= |s|
    ensures forall i | p <= i < q :: !IsDigit(s[i])
    ensures q < |s| ==> IsDigit(s[q])
    decreases |s| - p
  {
    if p == |s| || IsDigit(s[p]) then p else SkipOthers(s, p + 1)
  }

  function SkipDigits(s: string, p: nat): (q: nat)
    requires p <= |s|
    ensures p <= q <= |s|
    ensures forall i | p <= i < q :: IsDigit(s[i])
    ensures q < |s| ==> !IsDigit(s[q])
    decreases |s| - p
  {
    if p == |s| || !IsDigit(s[p]) then p else SkipDigits(s, p + 1)
  }

  /** The digits read into a 64-bit accumulator. */
  function Value64(s: string): nat
    requires forall i | 0 <= i < |s| :: IsDigit(s[i])
  {
    if s == "" then 0
    else
      assert IsDigit(s[|s| - 1]);
      (10 * Value64(s[..|s| - 1]) + (s[|s| - 1] as int - '0' as int)) % U64
  }

  /** The numbers from position `p` on, at most `room` of them. */
  function ParseFrom(s: string, p: nat, room: nat): seq<nat>
    requires p <= |s|
    decreases room
  {
    if room == 0 then []
    else
      var q := SkipOthers(s, p);
      if q == |s| then []
      else
        var e := SkipDigits(s, q);
        [Value64(s[q..e])] + ParseFrom(s, e, room - 1)
  }

  /** Skip to the next digit. */
  method NextDigit(s: string, start: nat) returns (p: nat)
    requires start <= |s|
    ensures p == SkipOthers(s, start)
  {
    p := start;
    while p < |s| && !IsDigit(s[p])
      invariant start <= p <= |s|
      invariant SkipOthers(s, p) == SkipOthers(s, start)
      decreases |s| - p
    {
      p := p + 1;
    }
  }

  /** Accumulate a run of digits, modulo 2^64. */
  method ReadNumber(s: string, start: nat) returns (v: nat, p: nat)
    requires start <= |s|
    ensures p == SkipDigits(s, start)
    ensures v == Value64(s[start..p])
  {
    v, p := 0, start;
    while p < |s| && IsDigit(s[p])
      invariant start <= p <= |s|
      invariant forall i | start <= i < p :: IsDigit(s[i])
      invariant v == Value64(s[start..p])
      invariant SkipDigits(s, p) == SkipDigits(s, start)
      decreases |s| - p
    {
      assert s[start..p + 1][..p - start] == s[start..p];
      v := (10 * v + (s[p] as int - '0' as int)) % U64;
      p := p + 1;
    }
  }

  lemma ParseOne(s: string, p: nat, room: nat, before: seq<nat>)
    requires p <= |s| && room > 0 && SkipOthers(s, p) < |s|
    ensures
      var q := SkipOthers(s, p);
      var e := SkipDigits(s, q);
      before + ParseFrom(s, p, room) == (before + [Value64(s[q..e])]) + ParseFrom(s, e, room - 1)
  {
  }

  /** on_hdr's loop over the value of an X-Sukkal-Done line. */
  method ParseList(s: string, start: nat) returns (list: seq<nat>)
    requires start <= |s|
    ensures list == ParseFrom(s, start, JOBS_MAX)
  {
    list := [];
    var p: nat := start;
    while p < |s| && |list| < JOBS_MAX
      invariant p <= |s| && |list| <= JOBS_MAX
      invariant list + ParseFrom(s, p, JOBS_MAX - |list|) == ParseFrom(s, start, JOBS_MAX)
      decreases |s| - p
    {
      var q := NextDigit(s, p);
      if q >= |s| { break; }
      var v, e := ReadNumber(s, q);
      ParseOne(s, p, JOBS_MAX - |list|, list);
      list := list + [v];
      p := e;
    }
  }

  lemma {:induction false} Value64Small(s: string)
    requires forall i | 0 <= i < |s| :: IsDigit(s[i])
    requires Value(s) < U64
    ensures Value64(s) == Value(s)
  {
    if s != "" {
      assert IsDigit(s[|s| - 1]);
      Value64Small(s[..|s| - 1]);
    }
  }

  lemma {:induction false} SkipDigitsTo(s: string, p: nat, q: nat)
    requires p <= q <= |s| && (forall i | p <= i < q :: IsDigit(s[i])) && (q < |s| ==> !IsDigit(s[q]))
    ensures SkipDigits(s, p) == q
    decreases q - p
  {
    if p < q { SkipDigitsTo(s, p + 1, q); }
  }

  lemma {:induction false} NoDigitsLeft(s: string, p: nat)
    requires p <= |s| && forall i | p <= i < |s| :: !IsDigit(s[i])
    ensures SkipOthers(s, p) == |s|
    decreases |s| - p
  {
    if p < |s| { NoDigitsLeft(s, p + 1); }
  }

  /** One number off the front: the parser reads it and stands behind it. */
  lemma ParseNumber(s: string, p: nat, e: nat, x: nat, room: nat)
    requires x < U64 && 0 < room && p < e <= |s| && s[p..e] == Dec(x)
    requires e < |s| ==> !IsDigit(s[e])
    ensures ParseFrom(s, p, room) == [x] + ParseFrom(s, e, room - 1)
  {
    forall i | p <= i < e ensures IsDigit(s[i]) { assert s[i] == s[p..e][i - p]; }
    SkipDigitsTo(s, p, e);
    ValueOfDec(x);
    Value64Small(s[p..e]);
  }

  ghost predicate Words64(list: seq<nat>) { forall i | 0 <= i < |list| :: list[i] < U64 }

  lemma ParseSeparator(s: string, p: nat, room: nat)
    requires p < |s| && !IsDigit(s[p])
    ensures ParseFrom(s, p, room) == ParseFrom(s, p + 1, room)
  {
    assert SkipOthers(s, p) == SkipOthers(s, p + 1);
  }

  ghost predicate NoDigitsFrom(s: string, n: nat) {
    forall i | n <= i < |s| :: !IsDigit(s[i])
  }

  /** From `p` on, `s` is the numbers of `list` with a comma between, then nothing numeric. */
  ghost predicate Reads(s: string, p: nat, list: seq<nat>)
    requires p <= |s|
    decreases |list|
  {
    if list == [] then NoDigitsFrom(s, p)
    else
      var q := p + |Dec(list[0])|;
      && q <= |s| && s[p..q] == Dec(list[0])
      && if |list| == 1 then NoDigitsFrom(s, q) else q < |s| && s[q] == ',' && Reads(s, q + 1, list[1..])
  }

  lemma {:induction false} JoinReads(head: string, list: seq<nat>, tail: string)
    requires forall i | 0 <= i < |tail| :: !IsDigit(tail[i])
    ensures Reads(head + Join(list) + tail, |head|, list)
    decreases |list|
  {
    var s := head + Join(list) + tail;
    if |list| <= 1 {
      assert forall i | |head| + |Join(list)| <= i < |s| :: s[i] == tail[i - |head| - |Join(list)|];
    } else {
      var head' := head + Dec(list[0]) + ",";
      assert s == head' + Join(list[1..]) + tail;
      JoinReads(head', list[1..], tail);
    }
  }

  /** The first number of a list and its comma, given that the rest reads back. */
  lemma ParseItem(s: string, p: nat, q: nat, list: seq<nat>, room: nat)
    requires list != [] && list[0] < U64 && 0 < room
    requires p < q < |s| && s[p..q] == Dec(list[0]) && s[q] == ','
    requires ParseFrom(s, q + 1, room - 1) == list[1..]
    ensures ParseFrom(s, p, room) == list
  {
    ParseSeparator(s, q, room - 1);
    ParseNumber(s, p, q, list[0], room);
  }

  lemma ParseLast(s: string, p: nat, x: nat, room: nat)
    requires p <= |s| && x < U64 && 0 < room && Reads(s, p, [x])
    ensures ParseFrom(s, p, room) == [x]
  {
    var q := p + |Dec(x)|;
    ParseNumber(s, p, q, x, room);
    NoDigitsLeft(s, q);
  }

  /** Any comma-joined list of at most `room` indexes is read back as written. */
  lemma {:induction false} ParseJoined(s: string, p: nat, list: seq<nat>, room: nat)
    requires p <= |s| && Words64(list) && |list| <= room && Reads(s, p, list)
    ensures ParseFrom(s, p, room) == list
    decreases |list|
  {
    if list == [] {
      NoDigitsLeft(s, p);
    } else if |list| == 1 {
      assert list == [list[0]];
      ParseLast(s, p, list[0], room);
    } else {
      var q := p + |Dec(list[0])|;
      ParseJoined(s, q + 1, list[1..], room - 1);
      ParseItem(s, p, q, list, room);
    }
  }

  // ---- the worker's side ---------------------------------------------------------

  /** What the broker learns of a delivery: not reached, or a status and perhaps a done-header value. */
  datatype Answer = Unreached | Answered(status: int, done: Option<string>)

  /** The jobs whose handler succeeded, in order. */
  function Succeeded(jobs: seq<nat>, ok: nat -> bool): (r: seq<nat>)
    ensures forall i | i in r :: i in jobs && ok(i)
    ensures forall i | i in jobs && ok(i) :: i in r
    ensures |r| <= |jobs|
    ensures |r| == |jobs| ==> r == jobs
  {
    if jobs == [] then []
    else
      var init, last := jobs[..|jobs| - 1], jobs[|jobs| - 1];
      assert jobs == init + [last];
      Succeeded(init, ok) + if ok(last) then [last] else []
  }

  function WorkerAnswer(jobs: seq<nat>, ok: nat -> bool): Answer {
    var done := Succeeded(jobs, ok);
    if done == [] then Answered(500, None)
    else if |done| < |jobs| then Answered(200, Some(Join(done)))
    else Answered(200, None)
  }

  /** #handleJobs: run each handler, note the ones that returned. */
  method HandleJobs(jobs: seq<nat>, ok: nat -> bool) returns (answer: Answer)
    ensures answer == WorkerAnswer(jobs, ok)
  {
    var done: seq<nat> := [];
    for i := 0 to |jobs|
      invariant done == Succeeded(jobs[..i], ok)
    {
      assert jobs[..i + 1][..i] == jobs[..i];
      if ok(jobs[i]) { done := done + [jobs[i]]; }
    }
    assert jobs[..|jobs|] == jobs;
    if |done| == 0 { return Answered(500, None); }
    if |done| < |jobs| { return Answered(200, Some(Join(done))); }
    return Answered(200, None);
  }

  /**
   #handleMessages: messages in order, stopping at the first failure; `took` is
   the index of the last one handled, 0 when none was.
   */
  method HandleMessages(messages: seq<nat>, ok: nat -> bool) returns (took: nat, n: nat)
    ensures n <= |messages|
    ensures forall i | 0 <= i < n :: ok(messages[i])
    ensures n < |messages| ==> !ok(messages[n])
    ensures took == if n == 0 then 0 else messages[n - 1]
  {
    took, n := 0, 0;
    while n < |messages|
      invariant n <= |messages|
      invariant forall i | 0 <= i < n :: ok(messages[i])
      invariant took == if n == 0 then 0 else messages[n - 1]
    {
      if !ok(messages[n]) { break; }
      took := messages[n];
      n := n + 1;
    }
  }

  // ---- the broker's side -----------------------------------------------------------

  predicate IsOk(answer: Answer) { answer.Answered? && 200 <= answer.status < 300 }

  /** The header line as it arrives: name, a space, the value, CRLF. */
  function DoneLine(value: string): string { DONE_PREFIX + value + CRLF }

  const DONE_PREFIX: string := "X-Sukkal-Done: "
  const CRLF: string := "\r\n"

  function DoneList(answer: Answer): Option<seq<nat>> {
    if answer.Answered? && answer.done.Some?
    then Some(ParseFrom(DoneLine(answer.done.value), |DONE_HEADER|, JOBS_MAX))
    else None
  }

  /** finish_jobs' verdict on one job. */
  predicate IsFinished(answer: Answer, index: nat) {
    IsOk(answer) && (DoneList(answer).Some? ==> index in DoneList(answer).value)
  }

  function SettleOne(q: QRec, index: nat, answer: Answer, now: nat): QRec {
    if IsFinished(answer, index) then Done(q, index).0 else Fail(q, index, None, now).0
  }

  function SettleFirst(q: QRec, jobs: seq<nat>, n: nat, answer: Answer, now: nat): QRec
    requires n <= |jobs|
  {
    if n == 0 then q else SettleOne(SettleFirst(q, jobs, n - 1, answer, now), jobs[n - 1], answer, now)
  }

  function Settle(q: QRec, jobs: seq<nat>, answer: Answer, now: nat): QRec {
    if answer.Unreached? then q else SettleFirst(q, jobs, |jobs|, answer, now)
  }

  /** Look an index up in the done list. */
  method IsListed(list: seq<nat>, index: nat) returns (found: bool)
    ensures found <==> index in list
  {
    found := false;
    var j := 0;
    while j < |list| && !found
      invariant j <= |list|
      invariant found <==> index in list[..j]
    {
      found := list[j] == index;
      j := j + 1;
    }
    assert list[..|list|] == list;
  }

  method FinishJob(g: QueueGroup, index: nat, answer: Answer, now: nat)
    requires g.Valid() && answer.Answered?
    modifies g`nfl, g.fl
    ensures g.Valid() && g.Rec() == SettleOne(old(g.Rec()), index, answer, now)
  {
    var finished := IsOk(answer);
    var listed := DoneList(answer);
    if finished && listed.Some? { finished := IsListed(listed.value, index); }
    if finished {
      var _ := g.DoneJob(index);
    } else {
      var _, _ := g.FailJob(index, None, now);
    }
  }

  /** finish_jobs: settle each job of an answered delivery. */
  method FinishJobs(g: QueueGroup, jobs: seq<nat>, answer: Answer, now: nat)
    requires g.Valid()
    modifies g`nfl, g.fl
    ensures g.Valid() && g.Rec() == Settle(old(g.Rec()), jobs, answer, now)
  {
    if answer.Unreached? { return; }
    for i := 0 to |jobs|
      invariant g.Valid() && g.Rec() == SettleFirst(old(g.Rec()), jobs, i, answer, now)
    {
      FinishJob(g, jobs[i], answer, now);
    }
  }

  // ---- what settling does to the leases ----------------------------------------------

  /** The leases as a map from index; meaningful when indexes are distinct. */
  function Table(fl: seq<Lease>): map<nat, Lease> {
    map i: nat | i in (set e | e in fl :: e.index) :: (assert Find(fl, i) < |fl| by { Held(fl, i); } fl[Find(fl, i)])
  }

  lemma Held(fl: seq<Lease>, i: nat)
    requires exists e | e in fl :: e.index == i
    ensures Find(fl, i) < |fl|
  {
    var e :| e in fl && e.index == i;
    var k :| 0 <= k < |fl| && fl[k] == e;
  }

  lemma TableEntry(fl: seq<Lease>, k: nat)
    requires k < |fl| && Distinct(fl)
    ensures fl[k].index in Table(fl) && Table(fl)[fl[k].index] == fl[k]
  {
    assert fl[k] in fl;
    var j := Find(fl, fl[k].index);
    Held(fl, fl[k].index);
  }

  /** A map that agrees with the table entry by entry is the table. */
  lemma TableIs(fl: seq<Lease>, m: map<nat, Lease>)
    requires Distinct(fl)
    requires forall k | 0 <= k < |fl| :: fl[k].index in m && m[fl[k].index] == fl[k]
    requires forall i | i in m :: Holds(fl, i)
    ensures Table(fl) == m
  {
    forall i | i in Table(fl) ensures i in m && m[i] == Table(fl)[i] {
      var k := Find(fl, i);
    }
    forall i | i in m ensures i in Table(fl) {
      assert Holds(fl, i);
      var k :| 0 <= k < |fl| && fl[k].index == i;
      TableEntry(fl, k);
    }
  }

  lemma TableAgrees(fl: seq<Lease>)
    requires Distinct(fl)
    ensures forall k | 0 <= k < |fl| :: fl[k].index in Table(fl) && Table(fl)[fl[k].index] == fl[k]
    ensures forall i | i in Table(fl) :: Holds(fl, i)
  {
    forall k | 0 <= k < |fl| ensures fl[k].index in Table(fl) && Table(fl)[fl[k].index] == fl[k] { TableEntry(fl, k); }
    forall i | i in Table(fl) ensures Holds(fl, i) {
      assert fl[Find(fl, i)].index == i;
    }
  }

  lemma TableRemove(fl: seq<Lease>, k: nat)
    requires k < |fl| && Distinct(fl)
    ensures Distinct(SwapRemove(fl, k)) && Table(SwapRemove(fl, k)) == Table(fl) - {fl[k].index}
  {
    SwapRemoveHolds(fl, k);
    TableAgrees(fl);
    TableIs(SwapRemove(fl, k), Table(fl) - {fl[k].index});
  }

  lemma TableUpdate(fl: seq<Lease>, k: nat, l: Lease)
    requires k < |fl| && Distinct(fl) && l.index == fl[k].index
    ensures Distinct(fl[k := l]) && Table(fl[k := l]) == Table(fl)[l.index := l]
  {
    TableAgrees(fl);
    var fl' := fl[k := l];
    forall i | i in Table(fl)[l.index := l] ensures Holds(fl', i) {
      assert Holds(fl, i) by { TableEntry(fl, k); }
      var j :| 0 <= j < |fl| && fl[j].index == i;
      assert fl'[j].index == i;
    }
    TableIs(fl', Table(fl)[l.index := l]);
  }

  /** What is left of one job's lease. */
  function Retimed(q: QRec, e: Lease, now: nat): Lease {
    e.(expires := now + BackoffFor(q, e.attempts))
  }

  /** The leases after the first jobs of a delivery are settled. */
  function SettledTable(q: QRec, t: map<nat, Lease>, jobs: set<nat>, finished: set<nat>, now: nat): map<nat, Lease> {
    map i | i in t && !(i in jobs && i in finished) :: if i in jobs then Retimed(q, t[i], now) else t[i]
  }

  function Firsts(jobs: seq<nat>, n: nat): set<nat>
    requires n <= |jobs|
  {
    set i | i in jobs[..n]
  }

  ghost predicate AllDistinct(jobs: seq<nat>) {
    forall a, b | 0 <= a < b < |jobs| :: jobs[a] != jobs[b]
  }

  lemma FirstsStep(jobs: seq<nat>, n: nat)
    requires n < |jobs| && AllDistinct(jobs)
    ensures Firsts(jobs, n + 1) == Firsts(jobs, n) + {jobs[n]}
    ensures jobs[n] !in Firsts(jobs, n) && jobs[n] in jobs
  {
    assert jobs[..n + 1] == jobs[..n] + [jobs[n]];
  }

  predicate SameSettings(q: QRec, r: QRec) {
    r.backoffMs == q.backoffMs && r.maxBackoffMs == q.maxBackoffMs && r.next == q.next
  }

  /** The table after one job is settled. */
  function SettledOne(q: QRec, t: map<nat, Lease>, index: nat, finished: bool, now: nat): map<nat, Lease> {
    if index !in t then t else if finished then t - {index} else t[index := Retimed(q, t[index], now)]
  }

  lemma DoneTable(q: QRec, index: nat)
    requires Distinct(q.fl)
    ensures var r := Done(q, index).0;
            Distinct(r.fl) && SameSettings(q, r) && Table(r.fl) == SettledOne(q, Table(q.fl), index, true, 0)
  {
    var k := Find(q.fl, index);
    if k < |q.fl| {
      TableEntry(q.fl, k);
      TableRemove(q.fl, k);
    } else {
      assert !Holds(q.fl, index);
      TableAgrees(q.fl);
    }
  }

  lemma FailTable(q: QRec, index: nat, now: nat)
    requires Distinct(q.fl)
    ensures var r := Fail(q, index, None, now).0;
            Distinct(r.fl) && SameSettings(q, r) && Table(r.fl) == SettledOne(q, Table(q.fl), index, false, now)
  {
    var k := Find(q.fl, index);
    if k < |q.fl| {
      TableEntry(q.fl, k);
      assert Fail(q, index, None, now).0.fl == q.fl[k := Retimed(q, q.fl[k], now)];
      TableUpdate(q.fl, k, Retimed(q, q.fl[k], now));
    } else {
      assert !Holds(q.fl, index);
      TableAgrees(q.fl);
    }
  }

  lemma SettleOneTable(q: QRec, index: nat, answer: Answer, now: nat)
    requires Distinct(q.fl)
    ensures
      var r := SettleOne(q, index, answer, now);
      && Distinct(r.fl) && SameSettings(q, r)
      && Table(r.fl) == SettledOne(q, Table(q.fl), index, IsFinished(answer, index), now)
  {
    if IsFinished(answer, index) { DoneTable(q, index); } else { FailTable(q, index, now); }
  }

  lemma SettledStep(q: QRec, r: QRec, t: map<nat, Lease>, jobs: set<nat>, index: nat, finished: set<nat>, now: nat)
    requires index !in jobs && SameSettings(q, r)
    ensures SettledOne(r, SettledTable(q, t, jobs, finished, now), index, index in finished, now)
            == SettledTable(q, t, jobs + {index}, finished, now)
  {
    var a := SettledOne(r, SettledTable(q, t, jobs, finished, now), index, index in finished, now);
    var b := SettledTable(q, t, jobs + {index}, finished, now);
    assert a.Keys == b.Keys;
    forall i | i in a ensures a[i] == b[i] {
      if i == index { assert Retimed(r, t[i], now) == Retimed(q, t[i], now); }
    }
  }

  lemma {:induction false} SettleFirstTable(q: QRec, jobs: seq<nat>, n: nat, answer: Answer, now: nat, finished: set<nat>)
    requires Distinct(q.fl) && AllDistinct(jobs) && n <= |jobs|
    requires forall i | i in jobs :: i in finished <==> IsFinished(answer, i)
    ensures
      var r := SettleFirst(q, jobs, n, answer, now);
      Distinct(r.fl) && SameSettings(q, r) && Table(r.fl) == SettledTable(q, Table(q.fl), Firsts(jobs, n), finished, now)
  {
    if n == 0 {
      assert Firsts(jobs, 0) == {};
    } else {
      SettleFirstTable(q, jobs, n - 1, answer, now, finished);
      var r := SettleFirst(q, jobs, n - 1, answer, now);
      var index := jobs[n - 1];
      FirstsStep(jobs, n - 1);
      SettleOneTable(r, index, answer, now);
      SettledStep(q, r, Table(q.fl), Firsts(jobs, n - 1), index, finished, now);
    }
  }

  /** Whatever stands around it, a joined list reads back from just before its leading space. */
  lemma FramedListIsRead(head: string, list: seq<nat>, tail: string, start: nat)
    requires Words64(list) && |list| <= JOBS_MAX
    requires |head| == start + 1 && head[start] == ' '
    requires forall i | 0 <= i < |tail| :: !IsDigit(tail[i])
    ensures ParseFrom(head + Join(list) + tail, start, JOBS_MAX) == list
  {
    var s := head + Join(list) + tail;
    JoinReads(head, list, tail);
    ParseJoined(s, |head|, list, JOBS_MAX);
    assert s[start] == ' ';
    ParseSeparator(s, start, JOBS_MAX);
  }

  lemma LineShape()
    ensures |DONE_PREFIX| == |DONE_HEADER| + 1 && DONE_PREFIX[|DONE_HEADER|] == ' '
    ensures forall i | 0 <= i < |CRLF| :: !IsDigit(CRLF[i])
  {
  }

  /** What the broker parses out of a partial answer is what the worker listed. */
  lemma DoneListIsRead(done: seq<nat>, status: int)
    requires Words64(done) && |done| <= JOBS_MAX
    ensures DoneList(Answered(status, Some(Join(done)))) == Some(done)
  {
    LineShape();
    FramedListIsRead(DONE_PREFIX, done, CRLF, |DONE_HEADER|);
  }

  lemma AnswerNamesSuccesses(jobs: seq<nat>, ok: nat -> bool, i: nat)
    requires |jobs| <= JOBS_MAX && Words64(jobs) && i in jobs
    ensures IsFinished(WorkerAnswer(jobs, ok), i) <==> ok(i)
  {
    var done := Succeeded(jobs, ok);
    if done != [] && |done| < |jobs| {
      forall j | 0 <= j < |done| ensures done[j] < U64 {
        assert done[j] in jobs;
      }
      DoneListIsRead(done, 200);
    }
  }

  /**
   The whole round trip.  The worker's answer, printed, sent and parsed, releases
   as done exactly the jobs whose handler succeeded; every other job of the
   delivery that is still leased is re-timed by the group's backoff, attempts
   untouched; no other lease changes.
   */
  lemma SettlementRoundTrip(q: QRec, jobs: seq<nat>, ok: nat -> bool, now: nat)
    requires Distinct(q.fl) && AllDistinct(jobs) && |jobs| <= JOBS_MAX && Words64(jobs)
    ensures
      var r := Settle(q, jobs, WorkerAnswer(jobs, ok), now);
      && Distinct(r.fl)
      && Table(r.fl) == SettledTable(q, Table(q.fl), (set i | i in jobs), (set i | i in jobs && ok(i)), now)
  {
    var answer := WorkerAnswer(jobs, ok);
    var finished := set i | i in jobs && ok(i);
    forall i | i in jobs ensures i in finished <==> IsFinished(answer, i) {
      AnswerNamesSuccesses(jobs, ok, i);
    }
    SettleFirstTable(q, jobs, |jobs|, answer, now, finished);
    assert jobs[..|jobs|] == jobs;
    assert Firsts(jobs, |jobs|) == set i | i in jobs;
  }

  /** The line a worker sends is the one the broker looks for, and an unanswered delivery changes no lease. */
  lemma DoneLineIsRead(value: string, q: QRec, jobs: seq<nat>, now: nat)
    ensures HeaderIs(DoneLine(value), DONE_HEADER)
    ensures Settle(q, jobs, Unreached, now) == q
  {
    var line := DoneLine(value);
    assert line[..|DONE_HEADER|] == "X-Sukkal-Done:";
    forall i | 0 <= i < |DONE_HEADER| ensures Lower(line[i]) == DONE_HEADER[i] {
      assert line[i] == "X-Sukkal-Done:"[i];
    }
  }

  // ---- what each answer settles --------------------------------------------------------

  /** The jobs an answer finishes: none unless its status is 2xx, and then those its list names, or all without a list. */
  ghost predicate Finishes(status: int, list: Option<seq<nat>>, index: nat) {
    200 <= status < 300 && (list.Some? ==> index in list.value)
  }

  /** A lease in the table, by its three numbers. */
  ghost predicate Stands(fl: seq<Lease>, index: nat, expires: nat, attempts: nat) {
    Lease(index, expires, attempts) in fl
  }

  /**
   What an answer does to the leases, for every status and every list of up to 64
   jobs: a job it finishes leaves the table; every other job of the delivery that
   is held is re-timed by the group's backoff, its attempts unchanged; and the
   leases of other jobs stay as they are.  So a refusal, a 404 as much as a 500,
   releases nothing.
   */
  lemma AnswerSettles(q: QRec, jobs: seq<nat>, status: int, list: Option<seq<nat>>, now: nat)
    requires Distinct(q.fl) && AllDistinct(jobs)
    requires list.Some? ==> Words64(list.value) && |list.value| <= 64
    ensures
      var r := Settle(q, jobs, Answered(status, if list.Some? then Some(Join(list.value)) else None), now);
      && (forall e | e in q.fl && e.index in jobs && Finishes(status, list, e.index) :: !Holds(r.fl, e.index))
      && (forall e | e in q.fl && e.index in jobs && !Finishes(status, list, e.index) ::
            Stands(r.fl, e.index, now + BackoffFor(q, e.attempts), e.attempts))
      && (forall e | e in q.fl && e.index !in jobs :: e in r.fl)
      && (forall e | e in r.fl :: Holds(q.fl, e.index)) && Distinct(r.fl) && r.next == q.next
  {
    var answer := Answered(status, if list.Some? then Some(Join(list.value)) else None);
    var finished := set i | i in jobs && Finishes(status, list, i);
    AnswerTable(q, jobs, status, list, now, finished);
    ReadOff(q, Settle(q, jobs, answer, now), (set i | i in jobs), finished, now);
  }

  lemma AnswerTable(q: QRec, jobs: seq<nat>, status: int, list: Option<seq<nat>>, now: nat, finished: set<nat>)
    requires Distinct(q.fl) && AllDistinct(jobs)
    requires list.Some? ==> Words64(list.value) && |list.value| <= 64
    requires finished == set i | i in jobs && Finishes(status, list, i)
    ensures
      var r := Settle(q, jobs, Answered(status, if list.Some? then Some(Join(list.value)) else None), now);
      Distinct(r.fl) && r.next == q.next && Table(r.fl) == SettledTable(q, Table(q.fl), (set i | i in jobs), finished, now)
  {
    hide Table, SettledTable;
    var answer := Answered(status, if list.Some? then Some(Join(list.value)) else None);
    if list.Some? { DoneListIsRead(list.value, status); }
    SettleFirstTable(q, jobs, |jobs|, answer, now, finished);
    assert jobs[..|jobs|] == jobs;
    assert Firsts(jobs, |jobs|) == set i | i in jobs;
  }

  /** The leases of a settled table, one by one. */
  lemma ReadOff(q: QRec, r: QRec, jobs: set<nat>, finished: set<nat>, now: nat)
    requires Distinct(q.fl) && Distinct(r.fl) && Table(r.fl) == SettledTable(q, Table(q.fl), jobs, finished, now)
    ensures forall e | e in q.fl && e.index in jobs && e.index in finished :: !Holds(r.fl, e.index)
    ensures forall e | e in q.fl && e.index in jobs && e.index !in finished ::
              Stands(r.fl, e.index, now + BackoffFor(q, e.attempts), e.attempts)
    ensures forall e | e in q.fl && e.index !in jobs :: e in r.fl
    ensures forall e | e in r.fl :: Holds(q.fl, e.index)
  {
    hide Table, BackoffFor, Holds;
    TableReads(q.fl);
    TableReads(r.fl);
  }

  /** The table as a map says exactly what stands in it. */
  lemma TableReads(fl: seq<Lease>)
    requires Distinct(fl)
    ensures forall e :: e in fl <==> e.index in Table(fl) && Table(fl)[e.index] == e
    ensures forall i :: Holds(fl, i) <==> i in Table(fl)
    ensures forall i | i in Table(fl) :: Table(fl)[i].index == i
  {
    TableAgrees(fl);
    forall i | i in Table(fl) ensures Table(fl)[i] in fl && Table(fl)[i].index == i { assert fl[Find(fl, i)].index == i; }
    forall e | e in fl ensures e.index in Table(fl) && Table(fl)[e.index] == e {
      var k :| 0 <= k < |fl| && fl[k] == e;
    }
    forall i | Holds(fl, i) ensures i in Table(fl) {
      var k :| 0 <= k < |fl| && fl[k].index == i;
      assert fl[k].index in Table(fl);
    }
  }
}
