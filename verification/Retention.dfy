/**
 Retention policies of src/store.c: the boundary each limit proposes, the
 byte-to-count estimate, and the sparse ring of publish-time marks.
 */
module Retention {
  import opened Words

  const MARKS_MAX: nat := 256
  const MARKS_PER_WINDOW: nat := 128

  /** 0 means no limit. */
  datatype Policy = Policy(maxAgeS: nat, maxMessages: nat, maxBytes: nat, ignoreConsumers: bool)

  /** "Index `index` was published at second `time`." */
  datatype Mark = Mark(index: nat, time: nat)

  /** A subject's file: what was trimmed away, and the sizes of what is left. */
  datatype Log = Log(base: nat, sizes: seq<nat>, header: nat)

  function Sum(s: seq<nat>): nat {
    if s == [] then 0 else Sum(s[..|s| - 1]) + s[|s| - 1]
  }

  function Live(l: Log): nat { |l.sizes| }

  function Last(l: Log): nat { l.base + |l.sizes| }

  function FileLen(l: Log): nat { l.header + Sum(l.sizes) }

  // ---- the three limits --------------------------------------------------------

  function CountBoundary(l: Log, max: nat): nat {
    if max != 0 && Live(l) > max then Last(l) - max + 1 else 0
  }

  function Average(l: Log): nat
    requires Live(l) > 0
  {
    if FileLen(l) / Live(l) == 0 then 1 else FileLen(l) / Live(l)
  }

  function CeilDiv(x: nat, y: nat): nat
    requires y > 0
  {
    (x + y - 1) / y
  }

  /** How many messages the estimate drops to get under `max` bytes. */
  function ByteDrop(l: Log, max: nat): nat
    requires Live(l) > 0 && FileLen(l) > max
  {
    Min(CeilDiv(FileLen(l) - max, Average(l)), Live(l)) as nat
  }

  function ByteBoundary(l: Log, max: nat): nat
    requires Live(l) > 0
  {
    if max != 0 && FileLen(l) > max then l.base + ByteDrop(l, max) + 1 else 0
  }

  /** One past the highest index marked before `cutoff`. */
  function OldestKept(marks: seq<Mark>, cutoff: nat): nat {
    if marks == [] then 0
    else
      var b := OldestKept(marks[..|marks| - 1], cutoff);
      var m := marks[|marks| - 1];
      if m.time < cutoff && m.index + 1 > b then m.index + 1 else b
  }

  function AgeBoundary(marks: seq<Mark>, maxAge: nat, now: nat): nat {
    if maxAge != 0 && now > maxAge then OldestKept(marks, now - maxAge) else 0
  }

  /** policy_boundary: each limit in turn, the highest winning. */
  method PolicyBoundary(l: Log, p: Policy, marks: array<Mark>, n: nat, now: nat) returns (before: nat)
    requires n <= marks.Length
    ensures Live(l) == 0 ==> before == 0
    ensures Live(l) > 0 ==>
      before == Max(CountBoundary(l, p.maxMessages),
                    Max(ByteBoundary(l, p.maxBytes), AgeBoundary(marks[..n], p.maxAgeS, now)))
  {
    before := 0;
    if Live(l) == 0 { return; }
    if p.maxMessages != 0 && Live(l) > p.maxMessages {
      before := Last(l) - p.maxMessages + 1;
    }
    if p.maxBytes != 0 && FileLen(l) > p.maxBytes {
      var avg := FileLen(l) / Live(l);
      if avg == 0 { avg := 1; }
      var drop := (FileLen(l) - p.maxBytes + avg - 1) / avg;
      if drop > Live(l) { drop := Live(l); }
      if l.base + drop + 1 > before { before := l.base + drop + 1; }
    }
    if p.maxAgeS != 0 && now > p.maxAgeS {
      var cutoff := now - p.maxAgeS;
      var b := 0;
      for i := 0 to n
        invariant b == OldestKept(marks[..i], cutoff)
      {
        assert marks[..i + 1][..i] == marks[..i];
        if marks[i].time < cutoff && marks[i].index + 1 > b { b := marks[i].index + 1; }
      }
      if b > before { before := b; }
    }
  }

  /** Dropping everything below `before`, when nobody is owed anything. */
  function Dropped(l: Log, before: nat): Log {
    var newBase := Min(if before > 0 then before - 1 else 0, Last(l)) as nat;
    if newBase <= l.base then l else Log(newBase, l.sizes[newBase - l.base..], l.header)
  }

  /** The count limit leaves exactly the newest min(live, max) messages. */
  lemma CountLimitExact(l: Log, max: nat)
    requires max > 0
    ensures var l' := Dropped(l, CountBoundary(l, max));
            && Live(l') == Min(Live(l), max)
            && Last(l') == Last(l)
            && l'.sizes == l.sizes[Live(l) - Live(l')..]
  {
  }

  /** Several limits: what is left is what the tightest of them alone would leave. */
  lemma TightestWins(l: Log, a: nat, b: nat)
    ensures Dropped(l, Max(a, b)) == (if Live(Dropped(l, a)) <= Live(Dropped(l, b)) then Dropped(l, a) else Dropped(l, b))
  {
  }

  // ---- the byte limit -------------------------------------------------------------

  lemma {:induction false} SumSplit(s: seq<nat>, k: nat)
    requires k <= |s|
    ensures Sum(s) == Sum(s[..k]) + Sum(s[k..])
  {
    if k == |s| {
      assert s[..k] == s && s[k..] == [];
    } else {
      SumSplit(s[..|s| - 1], k);
      assert s[..|s| - 1][..k] == s[..k];
      assert s[k..][..|s| - k - 1] == s[..|s| - 1][k..];
    }
  }

  function ByteRun(l: Log, max: nat): Log {
    if Live(l) == 0 then l else Dropped(l, ByteBoundary(l, max))
  }

  function ByteRuns(l: Log, max: nat, n: nat): Log
    decreases n
  {
    if n == 0 then l else ByteRuns(ByteRun(l, max), max, n - 1)
  }

  lemma CeilPositive(x: nat, y: nat)
    requires x > 0 && y > 0
    ensures CeilDiv(x, y) >= 1
  {
  }

  /** A run over the limit drops at least one message: it always makes progress. */
  lemma ByteRunProgress(l: Log, max: nat)
    requires max > 0 && Live(l) > 0 && FileLen(l) > max
    ensures Live(ByteRun(l, max)) < Live(l)
    ensures Live(ByteRun(l, max)) == Live(l) - ByteDrop(l, max)
  {
    CeilPositive(FileLen(l) - max, Average(l));
  }

  /** Run again and again, it gets under the limit or empties the log in at most `live` runs. */
  lemma {:induction false} ByteRunsConverge(l: Log, max: nat, n: nat)
    requires max > 0 && n >= Live(l)
    ensures var l' := ByteRuns(l, max, n); FileLen(l') <= max || Live(l') == 0
    decreases n
  {
    if n > 0 {
      if Live(l) > 0 && FileLen(l) > max {
        ByteRunProgress(l, max);
        ByteRunsConverge(ByteRun(l, max), max, n - 1);
      } else {
        assert ByteRun(l, max) == l;
        ByteRunsStay(l, max, n);
      }
    }
  }

  lemma {:induction false} ByteRunsStay(l: Log, max: nat, n: nat)
    requires ByteRun(l, max) == l
    ensures ByteRuns(l, max, n) == l
  {
    if n > 0 { ByteRunsStay(l, max, n - 1); }
  }

  /** Size left after dropping the oldest `k`. */
  function LenWithout(l: Log, k: nat): nat
    requires k <= Live(l)
  {
    l.header + Sum(l.sizes[k..])
  }

  /** A run drops more than it had to: one message fewer would already have been enough. */
  predicate Overshoots(l: Log, max: nat)
    requires Live(l) > 0 && FileLen(l) > max
  {
    ByteDrop(l, max) > 0 && LenWithout(l, ByteDrop(l, max) - 1) <= max
  }

  /** The oldest `k` messages are no bigger than average, for every `k` short of all. */
  ghost predicate OldAreSmall(l: Log)
    requires Live(l) > 0
  {
    forall k | 0 <= k < Live(l) :: Sum(l.sizes[..k]) <= k * Average(l)
  }

  lemma CeilBound(x: nat, y: nat, d: nat)
    requires y > 0 && d == CeilDiv(x, y)
    ensures d >= 1 ==> (d - 1) * y < x
    ensures x <= d * y
  {
    assert x + y - 1 == d * y + (x + y - 1) % y;
  }

  lemma CeilOfMultiple(k: nat, y: nat)
    requires y > 0
    ensures CeilDiv(k * y + 1, y) == k + 1
  {
    var d := CeilDiv(k * y + 1, y);
    CeilBound(k * y + 1, y, d);
    if d <= k { MulLe(d, k, y); }
    if d >= k + 2 { MulLe(k + 1, d - 1, y); }
  }

  lemma MulLe(a: nat, b: nat, y: nat)
    requires a <= b
    ensures a * y <= b * y
  {
    assert b * y == a * y + (b - a) * y;
  }

  lemma NoOvershoot(l: Log, max: nat)
    requires max > 0 && Live(l) > 0 && FileLen(l) > max && OldAreSmall(l)
    ensures !Overshoots(l, max)
  {
    var avg, x, d := Average(l), FileLen(l) - max, ByteDrop(l, max);
    var c := CeilDiv(x, avg);
    CeilPositive(x, avg);
    CeilBound(x, avg, c);
    MulLe(d - 1, c - 1, avg);
    SumSplit(l.sizes, d - 1);
    assert Sum(l.sizes[..d - 1]) <= (d - 1) * avg;
  }

  /** A prefix of `k` heavier than average gives a limit at which a run overshoots. */
  lemma HeavyPrefixOvershoots(l: Log, k: nat)
    requires Live(l) > 0 && (forall i | 0 <= i < Live(l) :: l.sizes[i] > 0)
    requires 0 <= k < Live(l) && Sum(l.sizes[..k]) > k * Average(l)
    ensures
      var max := FileLen(l) - (k * Average(l) + 1);
      0 < max < FileLen(l) && Overshoots(l, max)
  {
    SumSplit(l.sizes, k);
    SumPositive(l.sizes[k..]);
    CeilOfMultiple(k, Average(l));
  }

  lemma SumPositive(s: seq<nat>)
    requires s != [] && s[|s| - 1] > 0
    ensures Sum(s) > 0
  {
  }

  /**
   The estimate "always errs towards removing too few", and exactly for which
   logs that is so: whatever the limit, a run never drops more than it had to
   if and only if no run of oldest messages is bigger than average.
   */
  lemma NeverOvershootsExactly(l: Log)
    requires Live(l) > 0 && forall i | 0 <= i < Live(l) :: l.sizes[i] > 0
    ensures (forall max: nat | 0 < max < FileLen(l) :: !Overshoots(l, max)) <==> OldAreSmall(l)
  {
    if OldAreSmall(l) {
      forall max: nat | 0 < max < FileLen(l) ensures !Overshoots(l, max) { NoOvershoot(l, max); }
    } else {
      var k :| 0 <= k < Live(l) && Sum(l.sizes[..k]) > k * Average(l);
      HeavyPrefixOvershoots(l, k);
    }
  }

  lemma {:induction false} UniformSum(s: seq<nat>, size: nat)
    requires forall i | 0 <= i < |s| :: s[i] == size
    ensures Sum(s) == |s| * size
  {
    if s != [] {
      UniformSum(s[..|s| - 1], size);
      assert |s| * size == (|s| - 1) * size + size;
    }
  }

  lemma DivLowerBound(x: nat, n: nat, y: nat)
    requires n > 0 && x >= n * y
    ensures x / n >= y
  {
    var q := x / n;
    assert x == q * n + x % n && (q + 1) * n == q * n + n;
    if q < y { MulLe(q + 1, y, n); }
  }

  /** Messages of one size: no byte-limit run ever drops one it did not have to. */
  lemma UniformNeverOvershoots(l: Log, size: nat, max: nat)
    requires size > 0 && Live(l) > 0 && forall i | 0 <= i < Live(l) :: l.sizes[i] == size
    requires 0 < max < FileLen(l)
    ensures !Overshoots(l, max)
  {
    UniformSum(l.sizes, size);
    DivLowerBound(FileLen(l), Live(l), size);
    forall k | 0 <= k < Live(l) ensures Sum(l.sizes[..k]) <= k * Average(l) {
      UniformSum(l.sizes[..k], size);
      MulRightLe(k, size, Average(l));
    }
    NoOvershoot(l, max);
  }

  lemma MulRightLe(k: nat, a: nat, b: nat)
    requires a <= b
    ensures k * a <= k * b
  {
    assert k * b == k * a + k * (b - a);
  }

  /** A log whose old messages are the big ones: one run drops two messages where one was enough. */
  lemma OvershootExample()
    ensures
      var l := Log(0, [90, 5, 5], 0);
      && FileLen(l) == 100 && Overshoots(l, 50)
      && ByteDrop(l, 50) == 2 && LenWithout(l, 1) == 10
  {
    var l := Log(0, [90, 5, 5], 0);
    SumOfThree(90, 5, 5);
    assert l.sizes[1..] == [5, 5];
    SumOfTwo(5, 5);
    assert Average(l) == 100 / 3 == 33;
    assert CeilDiv(50, 33) == 2;
  }

  lemma SumOfTwo(a: nat, b: nat)
    ensures Sum([a, b]) == a + b
  {
    assert [a, b][..1] == [a] && [a][..0] == [];
    assert Sum([a]) == a;
  }

  lemma SumOfThree(a: nat, b: nat, c: nat)
    ensures Sum([a, b, c]) == a + b + c
  {
    assert [a, b, c][..2] == [a, b];
    SumOfTwo(a, b);
  }

  // ---- the ring of marks -------------------------------------------------------------

  function Interval(maxAge: nat): nat {
    if maxAge / MARKS_PER_WINDOW < 1 then 1 else maxAge / MARKS_PER_WINDOW
  }

  /** A subject's marks and when the last one was written; 0 for never. */
  datatype Marks = Marks(ring: seq<Mark>, lastTime: nat)

  function Elapsed(now: nat, since: nat): int {
    if now >= since then now - since else now - since + U64
  }

  predicate WantsMark(m: Marks, maxAge: nat, now: nat) {
    maxAge != 0 && !(m.lastTime != 0 && Elapsed(now, m.lastTime) < Interval(maxAge))
  }

  function Pushed(ring: seq<Mark>, m: Mark): seq<Mark> {
    (if |ring| + 1 > MARKS_MAX then ring[1..] else ring) + [m]
  }

  /** mark_publish */
  function MarkPublish(m: Marks, maxAge: nat, index: nat, now: nat): Marks {
    if WantsMark(m, maxAge, now) then Marks(Pushed(m.ring, Mark(index, now)), now) else m
  }

  function Pruned(ring: seq<Mark>, base: nat): seq<Mark> {
    if ring == [] then []
    else Pruned(ring[..|ring| - 1], base) + if ring[|ring| - 1].index > base then [ring[|ring| - 1]] else []
  }

  class MarkRing {
    const v: array<Mark>
    var n: nat
    var lastTime: nat

    ghost predicate Valid()
      reads this
    {
      v.Length == MARKS_MAX && n <= MARKS_MAX
    }

    function State(): Marks
      requires Valid()
      reads this, v
    {
      Marks(v[..n], lastTime)
    }

    constructor ()
      ensures Valid() && fresh(v) && State() == Marks([], 0)
    {
      v := new Mark[MARKS_MAX](_ => Mark(0, 0));
      n, lastTime := 0, 0;
    }

    method DropOldest()
      requires Valid() && n == MARKS_MAX
      modifies this`n, v
      ensures Valid() && n == MARKS_MAX - 1 && v[..n] == old(v[..])[1..]
    {
      forall i | 0 <= i < MARKS_MAX - 1 { v[i] := v[i + 1]; }
      n := n - 1;
    }

    method Push(m: Mark)
      requires Valid()
      modifies this`n, v
      ensures Valid() && v[..n] == Pushed(old(v[..n]), m)
    {
      assert n == MARKS_MAX ==> v[..n] == v[..];
      if n + 1 > MARKS_MAX { DropOldest(); }
      ghost var kept := v[..n];
      v[n] := m;
      n := n + 1;
      assert v[..n] == kept + [m];
    }

    method Publish(maxAge: nat, index: nat, now: nat)
      requires Valid()
      modifies this`n, this`lastTime, v
      ensures Valid() && State() == MarkPublish(old(State()), maxAge, index, now)
    {
      if !WantsMark(State(), maxAge, now) { return; }
      Push(Mark(index, now));
      lastTime := now;
    }

    /** marks_prune: keep the marks above `base`, in place. */
    method Prune(base: nat)
      requires Valid()
      modifies this`n, v
      ensures Valid() && State() == old(State()).(ring := Pruned(old(State()).ring, base))
    {
      ghost var was := v[..n];
      var keep := 0;
      for i := 0 to n
        invariant keep <= i && Valid() && n == old(n)
        invariant v[..keep] == Pruned(was[..i], base)
        invariant v[i..n] == was[i..]
      {
        assert was[..i + 1][..i] == was[..i];
        assert v[i] == v[i..n][0] == was[i];
        ghost var front, rest := v[..keep], v[i + 1..n];
        assert rest == v[i..n][1..];
        if v[i].index > base {
          v[keep] := v[i];
          keep := keep + 1;
          assert v[..keep] == front + [was[i]];
        }
        assert v[i + 1..n] == rest;
      }
      assert was[..n] == was;
      n := keep;
    }
  }

  // ---- age retention over runs -----------------------------------------------------------

  /** What happens to a subject with an age policy: publishes, prunes, and restarts that forget `lastTime`. */
  datatype AgeOp = Published(now: nat) | Trimmed(base: nat) | Restarted

  /** `times[i]` is when index i + 1 was published. */
  datatype AgeState = AgeState(marks: Marks, times: seq<nat>)

  function AgeStep(s: AgeState, maxAge: nat, op: AgeOp): AgeState {
    match op
    case Published(now) =>
      AgeState(MarkPublish(s.marks, maxAge, |s.times| + 1, now), s.times + [now])
    case Trimmed(base) => s.(marks := s.marks.(ring := Pruned(s.marks.ring, base)))
    case Restarted => s.(marks := s.marks.(lastTime := 0))
  }

  function AgeRun(maxAge: nat, ops: seq<AgeOp>): AgeState {
    if ops == [] then AgeState(Marks([], 0), []) else AgeStep(AgeRun(maxAge, ops[..|ops| - 1]), maxAge, ops[|ops| - 1])
  }

  ghost predicate Truthful(s: AgeState) {
    forall m | m in s.marks.ring :: 1 <= m.index <= |s.times| && s.times[m.index - 1] == m.time
  }

  lemma {:induction false} PrunedKeeps(ring: seq<Mark>, base: nat)
    ensures forall m | m in Pruned(ring, base) :: m in ring
  {
    if ring != [] { PrunedKeeps(ring[..|ring| - 1], base); }
  }

  lemma {:induction false} MarksTruthful(maxAge: nat, ops: seq<AgeOp>)
    ensures Truthful(AgeRun(maxAge, ops))
  {
    if ops != [] {
      var init, op := ops[..|ops| - 1], ops[|ops| - 1];
      MarksTruthful(maxAge, init);
      var s := AgeRun(maxAge, init);
      match op
      case Published(now) =>
        var s' := AgeStep(s, maxAge, op);
        forall m | m in s'.marks.ring ensures 1 <= m.index <= |s'.times| && s'.times[m.index - 1] == m.time {
          if m in s.marks.ring { assert s.times[m.index - 1] == m.time; }
        }
      case Trimmed(base) => PrunedKeeps(s.marks.ring, base);
      case Restarted =>
    }
  }

  lemma {:induction false} OldestKeptMark(marks: seq<Mark>, cutoff: nat)
    ensures OldestKept(marks, cutoff) > 0 ==>
              exists m | m in marks :: m.time < cutoff && m.index + 1 == OldestKept(marks, cutoff)
  {
    if marks != [] {
      OldestKeptMark(marks[..|marks| - 1], cutoff);
      assert marks[|marks| - 1] in marks;
    }
  }

  /** The clock never ran backwards. */
  ghost predicate NonDecreasing(times: seq<nat>) {
    forall a, b | 0 <= a < b < |times| :: times[a] <= times[b]
  }

  /**
   Age retention never drops a message younger than the limit: whatever was
   published, pruned or restarted, everything below the boundary is older.
   */
  lemma AgeTrimIsSafe(maxAge: nat, ops: seq<AgeOp>, now: nat, i: nat)
    requires maxAge > 0
    requires NonDecreasing(AgeRun(maxAge, ops).times)
    requires 1 <= i <= |AgeRun(maxAge, ops).times|
    requires i < AgeBoundary(AgeRun(maxAge, ops).marks.ring, maxAge, now)
    ensures now - AgeRun(maxAge, ops).times[i - 1] > maxAge
  {
    MarksTruthful(maxAge, ops);
    OlderThanMark(AgeRun(maxAge, ops), maxAge, now, i);
  }

  /** Below the boundary there is a mark past the limit, and nothing before a mark is younger than it. */
  lemma OlderThanMark(s: AgeState, maxAge: nat, now: nat, i: nat)
    requires maxAge > 0 && Truthful(s) && NonDecreasing(s.times)
    requires 1 <= i <= |s.times| && i < AgeBoundary(s.marks.ring, maxAge, now)
    ensures now - s.times[i - 1] > maxAge
  {
    OldestKeptMark(s.marks.ring, now - maxAge);
    var m :| m in s.marks.ring && m.time < now - maxAge && m.index + 1 == OldestKept(s.marks.ring, now - maxAge);
    assert s.times[m.index - 1] == m.time;
    assert i - 1 <= m.index - 1;
  }

  /** Marks in the order and at the spacing they were written. */
  ghost predicate Spaced(m: Marks, maxAge: nat) {
    && |m.ring| <= MARKS_MAX
    && (m.ring != [] ==> m.lastTime >= m.ring[|m.ring| - 1].time && m.lastTime > 0)
    && Apart(m.ring, Interval(maxAge))
  }

  ghost predicate Apart(ring: seq<Mark>, gap: nat) {
    forall a | 0 <= a < |ring| - 1 :: ring[a].time + gap <= ring[a + 1].time
  }

  /** Dropping marks leaves the rest at least as far apart. */
  lemma {:induction false} PrunedApart(ring: seq<Mark>, gap: nat, base: nat)
    requires Apart(ring, gap)
    ensures
      var r := Pruned(ring, base);
      && Apart(r, gap) && |r| <= |ring|
      && (r != [] ==> r[|r| - 1].time <= ring[|ring| - 1].time)
  {
    if ring != [] {
      var init := ring[..|ring| - 1];
      PrunedApart(init, gap, base);
      if init != [] { assert ring[|ring| - 2].time + gap <= ring[|ring| - 1].time; }
    }
  }

  lemma PushSpaced(m: Marks, maxAge: nat, index: nat, now: nat)
    requires maxAge > 0 && Spaced(m, maxAge) && 0 < now && m.lastTime <= now
    ensures Spaced(MarkPublish(m, maxAge, index, now), maxAge)
  {
    if WantsMark(m, maxAge, now) {
      var ring' := Pushed(m.ring, Mark(index, now));
      var cut := if |m.ring| + 1 > MARKS_MAX then 1 else 0;
      forall a | 0 <= a < |ring'| - 1 ensures ring'[a].time + Interval(maxAge) <= ring'[a + 1].time {
        assert ring'[a] == m.ring[a + cut];
        if a + 1 < |ring'| - 1 { assert ring'[a + 1] == m.ring[a + cut + 1]; }
      }
    }
  }

  /** The last mark was written at some publish. */
  ghost predicate LastMarkTold(s: AgeState) {
    s.marks.lastTime == 0 || s.marks.lastTime in s.times
  }

  lemma PublishSpaced(s: AgeState, maxAge: nat, now: nat)
    requires maxAge > 0 && now > 0 && Spaced(s.marks, maxAge) && LastMarkTold(s) && NonDecreasing(s.times + [now])
    ensures var s' := AgeStep(s, maxAge, Published(now)); Spaced(s'.marks, maxAge) && LastMarkTold(s')
  {
    if s.marks.lastTime in s.times {
      var a :| 0 <= a < |s.times| && s.times[a] == s.marks.lastTime;
      assert (s.times + [now])[a] <= (s.times + [now])[|s.times|];
    }
    PushSpaced(s.marks, maxAge, |s.times| + 1, now);
  }

  lemma NonDecreasingPrefix(times: seq<nat>, now: nat)
    requires NonDecreasing(times + [now])
    ensures NonDecreasing(times)
  {
    forall a, b | 0 <= a < b < |times| ensures times[a] <= times[b] {
      assert (times + [now])[a] <= (times + [now])[b];
    }
  }

  /** Publishes from the first second on, and prunes: no restart. */
  predicate Unbroken(op: AgeOp) { !op.Restarted? && (op.Published? ==> op.now > 0) }

  /** Between restarts the ring stays spaced. */
  lemma TrimSpaced(s: AgeState, maxAge: nat, base: nat)
    requires Spaced(s.marks, maxAge) && LastMarkTold(s)
    ensures Spaced(AgeStep(s, maxAge, Trimmed(base)).marks, maxAge) && LastMarkTold(AgeStep(s, maxAge, Trimmed(base)))
  {
    PrunedApart(s.marks.ring, Interval(maxAge), base);
  }

  lemma StepTimes(s: AgeState, maxAge: nat, op: AgeOp)
    ensures AgeStep(s, maxAge, op).times == if op.Published? then s.times + [op.now] else s.times
  {
  }

  lemma {:induction false} RingSpaced(maxAge: nat, ops: seq<AgeOp>)
    requires maxAge > 0 && (forall op | op in ops :: Unbroken(op))
    requires NonDecreasing(AgeRun(maxAge, ops).times)
    ensures Spaced(AgeRun(maxAge, ops).marks, maxAge) && LastMarkTold(AgeRun(maxAge, ops))
  {
    if ops != [] {
      hide AgeStep, Spaced, LastMarkTold;
      var init, op := ops[..|ops| - 1], ops[|ops| - 1];
      var s := AgeRun(maxAge, init);
      assert op in ops;
      StepTimes(s, maxAge, op);
      if op.Published? { NonDecreasingPrefix(s.times, op.now); }
      RingSpaced(maxAge, init);
      match op
      case Published(now) => PublishSpaced(s, maxAge, now);
      case Trimmed(base) => TrimSpaced(s, maxAge, base);
    }
  }

  lemma {:induction false} SpanOf(m: Marks, maxAge: nat, b: nat)
    requires Spaced(m, maxAge) && b < |m.ring|
    ensures m.ring[0].time + b * Interval(maxAge) <= m.ring[b].time
  {
    if b > 0 {
      SpanOf(m, maxAge, b - 1);
      assert b * Interval(maxAge) == (b - 1) * Interval(maxAge) + Interval(maxAge);
    }
  }

  /** Two marks a full ring apart. */
  lemma FullRingSpan(maxAge: nat, ops: seq<AgeOp>)
    requires maxAge > 0 && (forall op | op in ops :: Unbroken(op))
    requires NonDecreasing(AgeRun(maxAge, ops).times)
    requires |AgeRun(maxAge, ops).marks.ring| == MARKS_MAX
    ensures
      var ring := AgeRun(maxAge, ops).marks.ring;
      ring[MARKS_MAX - 1].time - ring[0].time >= (MARKS_MAX - 1) * Interval(maxAge)
  {
    RingSpaced(maxAge, ops);
    SpanOf(AgeRun(maxAge, ops).marks, maxAge, MARKS_MAX - 1);
  }

  /** A full ring reaches back past one whole window, for every limit but 255 seconds, where it just reaches it. */
  lemma FullRingSpansWindow(maxAge: nat, ops: seq<AgeOp>)
    requires maxAge > 0 && (forall op | op in ops :: Unbroken(op))
    requires NonDecreasing(AgeRun(maxAge, ops).times)
    requires |AgeRun(maxAge, ops).marks.ring| == MARKS_MAX
    ensures
      var ring := AgeRun(maxAge, ops).marks.ring;
      && ring[MARKS_MAX - 1].time - ring[0].time >= maxAge
      && (maxAge != 255 ==> ring[MARKS_MAX - 1].time - ring[0].time > maxAge)
  {
    FullRingSpan(maxAge, ops);
    SpanArithmetic(maxAge);
  }

  lemma SpanArithmetic(maxAge: nat)
    ensures 255 * Interval(maxAge) >= maxAge
    ensures 255 * Interval(maxAge) > maxAge <==> maxAge != 255
    ensures 255 * Interval(maxAge) >= 2 * maxAge <==> maxAge <= 127
  {
  }

  /** Publishes exactly one interval apart. */
  function Steady(maxAge: nat, n: nat): seq<AgeOp> {
    if n == 0 then [] else Steady(maxAge, n - 1) + [Published(SteadyTime(maxAge, n - 1))]
  }

  function SteadyTime(maxAge: nat, k: nat): (t: nat)
    ensures t > 0
  {
    1 + k * Interval(maxAge)
  }

  /** `n` steady publishes, all marked, all still in the ring. */
  ghost predicate IsSteady(s: AgeState, maxAge: nat, n: nat) {
    && |s.marks.ring| == |s.times| == n
    && (forall k | 0 <= k < n :: s.marks.ring[k] == Mark(k + 1, SteadyTime(maxAge, k)) && s.times[k] == SteadyTime(maxAge, k))
    && s.marks.lastTime == (if n == 0 then 0 else SteadyTime(maxAge, n - 1))
  }

  lemma SteadyStep(s: AgeState, maxAge: nat, n: nat)
    requires maxAge > 0 && n < MARKS_MAX && IsSteady(s, maxAge, n)
    ensures IsSteady(AgeStep(s, maxAge, Published(SteadyTime(maxAge, n))), maxAge, n + 1)
  {
    if n > 0 { assert SteadyTime(maxAge, n) == SteadyTime(maxAge, n - 1) + Interval(maxAge); }
  }

  lemma {:induction false} SteadyRing(maxAge: nat, n: nat)
    requires maxAge > 0 && n <= MARKS_MAX
    ensures IsSteady(AgeRun(maxAge, Steady(maxAge, n)), maxAge, n)
    ensures forall op | op in Steady(maxAge, n) :: Unbroken(op)
  {
    hide AgeStep, IsSteady, SteadyTime;
    if n == 0 {
      NothingSteady(maxAge);
    } else {
      SteadyRing(maxAge, n - 1);
      SteadyStep(AgeRun(maxAge, Steady(maxAge, n - 1)), maxAge, n - 1);
      var ops := Steady(maxAge, n);
      assert ops[..|ops| - 1] == Steady(maxAge, n - 1);
    }
  }

  lemma NothingSteady(maxAge: nat)
    ensures IsSteady(AgeRun(maxAge, []), maxAge, 0)
  {
  }

  lemma {:induction false} SteadyOrdered(maxAge: nat, a: nat, b: nat)
    requires a <= b
    ensures SteadyTime(maxAge, a) <= SteadyTime(maxAge, b)
  {
    if a < b {
      SteadyOrdered(maxAge, a, b - 1);
      assert SteadyTime(maxAge, b) == SteadyTime(maxAge, b - 1) + Interval(maxAge);
    }
  }

  /** In every run between restarts, a full ring reaches back at least `span` seconds. */
  ghost predicate AlwaysSpans(maxAge: nat, span: nat) {
    forall ops: seq<AgeOp> |
      && (forall op | op in ops :: Unbroken(op))
      && NonDecreasing(AgeRun(maxAge, ops).times)
      && |AgeRun(maxAge, ops).marks.ring| == MARKS_MAX
      :: AgeRun(maxAge, ops).marks.ring[MARKS_MAX - 1].time - AgeRun(maxAge, ops).marks.ring[0].time >= span
  }

  /** How far back a full ring is sure to reach, exactly: 255 intervals. */
  lemma FullRingReachesExactly(maxAge: nat, span: nat)
    requires maxAge > 0
    ensures AlwaysSpans(maxAge, span) <==> span <= (MARKS_MAX - 1) * Interval(maxAge)
  {
    if span <= (MARKS_MAX - 1) * Interval(maxAge) {
      forall ops: seq<AgeOp> |
        && (forall op | op in ops :: Unbroken(op))
        && NonDecreasing(AgeRun(maxAge, ops).times)
        && |AgeRun(maxAge, ops).marks.ring| == MARKS_MAX
        ensures AgeRun(maxAge, ops).marks.ring[MARKS_MAX - 1].time - AgeRun(maxAge, ops).marks.ring[0].time >= span
      {
        FullRingSpan(maxAge, ops);
      }
    } else {
      var ops := Steady(maxAge, MARKS_MAX);
      SteadyRing(maxAge, MARKS_MAX);
      var s := AgeRun(maxAge, ops);
      forall a, b | 0 <= a < b < |s.times| ensures s.times[a] <= s.times[b] { SteadyOrdered(maxAge, a, b); }
      assert s.marks.ring[MARKS_MAX - 1].time - s.marks.ring[0].time == (MARKS_MAX - 1) * Interval(maxAge);
    }
  }

  /** So the two windows of history the ring is said to cover are sure exactly up to 127 seconds. */
  lemma TwoWindowsExactly(maxAge: nat)
    requires maxAge > 0
    ensures AlwaysSpans(maxAge, 2 * maxAge) <==> maxAge <= 127
  {
    FullRingReachesExactly(maxAge, 2 * maxAge);
    SpanArithmetic(maxAge);
  }

  // ---- exactly what age retention drops ---------------------------------------------------

  /** When the last mark was written, judged from the publish times alone; 0 for never. */
  function LastMark(times: seq<nat>, maxAge: nat): nat {
    if times == [] then 0
    else
      var before, t := LastMark(times[..|times| - 1], maxAge), times[|times| - 1];
      if MarkDue(before, maxAge, t) then t else before
  }

  predicate MarkDue(last: nat, maxAge: nat, now: nat) {
    WantsMark(Marks([], last), maxAge, now)
  }

  /** The publish of index `j` wrote a mark. */
  predicate Marked(times: seq<nat>, maxAge: nat, j: nat)
    requires 1 <= j <= |times|
  {
    MarkDue(LastMark(times[..j - 1], maxAge), maxAge, times[j - 1])
  }

  /** The highest base the ring was pruned to. */
  function Pruning(ops: seq<AgeOp>): nat {
    if ops == [] then 0
    else
      var before, op := Pruning(ops[..|ops| - 1]), ops[|ops| - 1];
      if op.Trimmed? && op.base > before then op.base else before
  }

  ghost predicate Ascending(ring: seq<Mark>) {
    forall a, b | 0 <= a < b < |ring| :: ring[a].index < ring[b].index
  }

  ghost predicate InRing(ring: seq<Mark>, j: nat) {
    exists m | m in ring :: m.index == j
  }

  /** The ring is full and has nothing as old as `j`. */
  ghost predicate PushedOut(ring: seq<Mark>, j: nat) {
    |ring| == MARKS_MAX && forall m | m in ring :: m.index > j
  }

  /** Every mark was written when it says. */
  ghost predicate OnlyWritten(ring: seq<Mark>, times: seq<nat>, maxAge: nat) {
    forall m | m in ring :: 1 <= m.index <= |times| && times[m.index - 1] == m.time && Marked(times, maxAge, m.index)
  }

  /** Above `floor` every mark that was written and that there was room for is there. */
  ghost predicate AllWritten(ring: seq<Mark>, times: seq<nat>, maxAge: nat, floor: nat) {
    forall j | floor < j <= |times| && Marked(times, maxAge, j) :: InRing(ring, j) || PushedOut(ring, j)
  }

  ghost predicate Knows(s: AgeState, maxAge: nat, floor: nat) {
    && s.marks.lastTime == LastMark(s.times, maxAge)
    && |s.marks.ring| <= MARKS_MAX && Ascending(s.marks.ring)
    && OnlyWritten(s.marks.ring, s.times, maxAge)
    && AllWritten(s.marks.ring, s.times, maxAge, floor)
  }

  /** A later publish leaves earlier ones marked as they were. */
  lemma MarkedBefore(times: seq<nat>, t: nat, maxAge: nat, j: nat)
    requires 1 <= j <= |times|
    ensures Marked(times + [t], maxAge, j) == Marked(times, maxAge, j)
  {
    assert (times + [t])[..j - 1] == times[..j - 1];
  }

  lemma MarkedNow(times: seq<nat>, t: nat, maxAge: nat)
    ensures Marked(times + [t], maxAge, |times| + 1) == MarkDue(LastMark(times, maxAge), maxAge, t)
    ensures LastMark(times + [t], maxAge) == if MarkDue(LastMark(times, maxAge), maxAge, t) then t else LastMark(times, maxAge)
  {
    assert (times + [t])[..|times|] == times;
  }

  /** Pushing a mark: the others stay, or the oldest goes because the ring is full. */
  lemma PushedKeeps(ring: seq<Mark>, m: Mark, j: nat)
    requires |ring| <= MARKS_MAX && Ascending(ring) && (forall x | x in ring :: x.index < m.index)
    ensures |Pushed(ring, m)| <= MARKS_MAX && Ascending(Pushed(ring, m)) && m in Pushed(ring, m)
    ensures forall x | x in Pushed(ring, m) :: x in ring || x == m
    ensures j < m.index && (InRing(ring, j) || PushedOut(ring, j)) ==> InRing(Pushed(ring, m), j) || PushedOut(Pushed(ring, m), j)
  {
    var r := Pushed(ring, m);
    var cut := if |ring| + 1 > MARKS_MAX then 1 else 0;
    PushedIs(ring, m, cut);
    PushedAscends(ring, m, cut);
    if j < m.index && (InRing(ring, j) || PushedOut(ring, j)) { PushedRemembers(ring, m, cut, j); }
    hide Ascending, InRing, PushedOut;
    assert r[|r| - 1] == m;
  }

  lemma PushedIs(ring: seq<Mark>, m: Mark, cut: nat)
    requires |ring| <= MARKS_MAX && cut == if |ring| + 1 > MARKS_MAX then 1 else 0
    ensures cut <= |ring| && Pushed(ring, m) == ring[cut..] + [m] && |Pushed(ring, m)| == |ring| - cut + 1 <= MARKS_MAX
  {
  }

  lemma PushedAscends(ring: seq<Mark>, m: Mark, cut: nat)
    requires cut <= |ring| && Pushed(ring, m) == ring[cut..] + [m] && Ascending(ring) && forall x | x in ring :: x.index < m.index
    ensures Ascending(Pushed(ring, m))
  {
    var r := Pushed(ring, m);
    hide Pushed;
    forall a, b | 0 <= a < b < |r| ensures r[a].index < r[b].index {
      assert r[a] == ring[a + cut];
      if b < |r| - 1 { assert r[b] == ring[b + cut]; } else { assert ring[a + cut] in ring; }
    }
  }

  lemma PushedRemembers(ring: seq<Mark>, m: Mark, cut: nat, j: nat)
    requires |ring| <= MARKS_MAX && Ascending(ring) && (forall x | x in ring :: x.index < m.index)
    requires cut == (if |ring| + 1 > MARKS_MAX then 1 else 0) && cut <= |ring| && Pushed(ring, m) == ring[cut..] + [m]
    requires j < m.index && (InRing(ring, j) || PushedOut(ring, j))
    ensures InRing(Pushed(ring, m), j) || PushedOut(Pushed(ring, m), j)
  {
    var r := Pushed(ring, m);
    hide Pushed;
    if InRing(ring, j) {
      var k :| 0 <= k < |ring| && ring[k].index == j;
      if k >= cut { assert r[k - cut].index == j; }
    }
  }

  lemma MarkSpeaks(m: Marks, maxAge: nat, now: nat)
    ensures WantsMark(m, maxAge, now) == MarkDue(m.lastTime, maxAge, now)
  {
  }

  lemma MarkedKnows(ring: seq<Mark>, times: seq<nat>, maxAge: nat, now: nat, floor: nat)
    requires |ring| <= MARKS_MAX && Ascending(ring) && OnlyWritten(ring, times, maxAge) && AllWritten(ring, times, maxAge, floor)
    requires MarkDue(LastMark(times, maxAge), maxAge, now)
    ensures
      var ring' := Pushed(ring, Mark(|times| + 1, now));
      |ring'| <= MARKS_MAX && Ascending(ring') && OnlyWritten(ring', times + [now], maxAge) && AllWritten(ring', times + [now], maxAge, floor)
  {
    hide Marked, LastMark, Pushed;
    var m, times' := Mark(|times| + 1, now), times + [now];
    MarkedNow(times, now, maxAge);
    PushedKeeps(ring, m, 0);
    forall x | x in Pushed(ring, m)
      ensures 1 <= x.index <= |times'| && times'[x.index - 1] == x.time && Marked(times', maxAge, x.index)
    {
      if x in ring { MarkedBefore(times, now, maxAge, x.index); }
    }
    forall j | floor < j <= |times'| && Marked(times', maxAge, j)
      ensures InRing(Pushed(ring, m), j) || PushedOut(Pushed(ring, m), j)
    {
      if j <= |times| {
        MarkedBefore(times, now, maxAge, j);
        PushedKeeps(ring, m, j);
      } else {
        assert m in Pushed(ring, m);
      }
    }
  }

  lemma UnmarkedKnows(ring: seq<Mark>, times: seq<nat>, maxAge: nat, now: nat, floor: nat)
    requires OnlyWritten(ring, times, maxAge) && AllWritten(ring, times, maxAge, floor)
    requires !MarkDue(LastMark(times, maxAge), maxAge, now)
    ensures OnlyWritten(ring, times + [now], maxAge) && AllWritten(ring, times + [now], maxAge, floor)
  {
    hide Marked, LastMark;
    MarkedNow(times, now, maxAge);
    forall x | x in ring ensures Marked(times + [now], maxAge, x.index) { MarkedBefore(times, now, maxAge, x.index); }
    forall j | floor < j <= |times| + 1 && Marked(times + [now], maxAge, j) ensures InRing(ring, j) || PushedOut(ring, j) {
      if j <= |times| { MarkedBefore(times, now, maxAge, j); }
    }
  }

  lemma PublishKnows(s: AgeState, maxAge: nat, now: nat, floor: nat)
    requires Knows(s, maxAge, floor)
    ensures Knows(AgeStep(s, maxAge, Published(now)), maxAge, floor)
  {
    hide Marked, LastMark, MarkDue, WantsMark, Pushed, OnlyWritten, AllWritten;
    MarkSpeaks(s.marks, maxAge, now);
    MarkedNow(s.times, now, maxAge);
    if WantsMark(s.marks, maxAge, now) {
      MarkedKnows(s.marks.ring, s.times, maxAge, now, floor);
    } else {
      UnmarkedKnows(s.marks.ring, s.times, maxAge, now, floor);
    }
  }

  /** Pruning an ascending ring cuts its front off. */
  lemma PrunedLast(ring: seq<Mark>, base: nat)
    requires ring != []
    ensures Pruned(ring, base) == Pruned(ring[..|ring| - 1], base) + if ring[|ring| - 1].index > base then [ring[|ring| - 1]] else []
  {
  }

  /** From `c` on the marks lie above the base, and before it they do not. */
  ghost predicate SplitsAt(ring: seq<Mark>, base: nat, c: nat) {
    c <= |ring| && forall k | 0 <= k < |ring| :: k < c <==> ring[k].index <= base
  }

  lemma SplitGoesOn(ring: seq<Mark>, base: nat, n: nat, c: nat)
    requires |ring| == n + 1 && Ascending(ring) && SplitsAt(ring[..n], base, c)
    ensures
      var c' := if ring[n].index <= base then n + 1 else c;
      SplitsAt(ring, base, c') && ring[c'..] == ring[..n][c..] + if ring[n].index > base then [ring[n]] else []
  {
    var init := ring[..n];
    assert forall k | 0 <= k < n :: init[k] == ring[k] && ring[k].index < ring[n].index;
    if ring[n].index <= base {
      assert n > 0 ==> init[n - 1].index <= base && n - 1 < c;
      assert c == n;
    }
  }

  lemma {:induction false} PrunedIsSuffix(ring: seq<Mark>, base: nat) returns (c: nat)
    requires Ascending(ring)
    ensures c <= |ring| && Pruned(ring, base) == ring[c..] && SplitsAt(ring, base, c)
  {
    if ring == [] {
      c := 0;
    } else {
      var n := |ring| - 1;
      AscendingBefore(ring);
      PrunedLast(ring, base);
      hide Pruned, Ascending, SplitsAt;
      c := PrunedIsSuffix(ring[..n], base);
      SplitGoesOn(ring, base, n, c);
      if ring[n].index <= base { c := n + 1; }
    }
  }

  lemma AscendingBefore(ring: seq<Mark>)
    requires Ascending(ring) && ring != []
    ensures Ascending(ring[..|ring| - 1])
  {
  }

  lemma PruneKnows(s: AgeState, maxAge: nat, base: nat, floor: nat)
    requires Knows(s, maxAge, floor)
    ensures Knows(AgeStep(s, maxAge, Trimmed(base)), maxAge, Max(floor, base) as nat)
  {
    var ring, s' := s.marks.ring, AgeStep(s, maxAge, Trimmed(base));
    var c := PrunedIsSuffix(ring, base);
    assert s'.marks.ring == ring[c..];
    forall j | floor < j <= |s.times| && base < j && Marked(s.times, maxAge, j)
      ensures InRing(s'.marks.ring, j) || PushedOut(s'.marks.ring, j)
    {
      if InRing(ring, j) {
        var k :| 0 <= k < |ring| && ring[k].index == j;
        assert ring[c..][k - c] == ring[k];
      } else {
        assert ring[0] in ring;
        assert c == 0 && ring[c..] == ring;
      }
    }
  }

  lemma {:induction false} RunKnows(maxAge: nat, ops: seq<AgeOp>)
    requires forall op | op in ops :: Unbroken(op)
    ensures Knows(AgeRun(maxAge, ops), maxAge, Pruning(ops))
  {
    if ops != [] {
      var init, op := ops[..|ops| - 1], ops[|ops| - 1];
      assert op in ops;
      RunKnows(maxAge, init);
      match op
      case Published(now) => PublishKnows(AgeRun(maxAge, init), maxAge, now, Pruning(init));
      case Trimmed(base) => PruneKnows(AgeRun(maxAge, init), maxAge, base, Pruning(init));
    }
  }

  lemma {:induction false} OldestKeptBound(marks: seq<Mark>, cutoff: nat, m: Mark)
    requires m in marks && m.time < cutoff
    ensures OldestKept(marks, cutoff) >= m.index + 1
  {
    var last := marks[|marks| - 1];
    if m in marks[..|marks| - 1] {
      OldestKeptBound(marks[..|marks| - 1], cutoff, m);
    } else {
      assert marks == marks[..|marks| - 1] + [last];
    }
  }

  /** The clock now: not before the last publish, and past it in the one case where a full ring just spans the window. */
  predicate ClockOk(times: seq<nat>, maxAge: nat, now: nat) {
    times != [] ==> times[|times| - 1] <= now && (maxAge == 255 ==> times[|times| - 1] < now)
  }

  /** A full ring reaches past the window. */
  ghost predicate Reaches(ring: seq<Mark>, maxAge: nat) {
    |ring| == MARKS_MAX ==>
      && ring[MARKS_MAX - 1].time - ring[0].time >= maxAge
      && (maxAge != 255 ==> ring[MARKS_MAX - 1].time - ring[0].time > maxAge)
  }

  lemma MarkPastLimitDrops(s: AgeState, maxAge: nat, floor: nat, now: nat, j: nat)
    requires maxAge > 0 && Knows(s, maxAge, floor) && Reaches(s.marks.ring, maxAge)
    requires NonDecreasing(s.times) && ClockOk(s.times, maxAge, now)
    requires floor < j <= |s.times| && Marked(s.times, maxAge, j) && s.times[j - 1] + maxAge < now
    ensures j < AgeBoundary(s.marks.ring, maxAge, now)
  {
    hide Marked, LastMark, OldestKept, Ascending;
    var ring := s.marks.ring;
    if InRing(ring, j) {
      var m :| m in ring && m.index == j;
      OldestKeptBound(ring, now - maxAge, m);
    } else {
      assert PushedOut(ring, j);
      var first, last := ring[0], ring[MARKS_MAX - 1];
      assert first in ring && last in ring;
      assert s.times[last.index - 1] <= s.times[|s.times| - 1];
      OldestKeptBound(ring, now - maxAge, first);
    }
  }

  lemma DroppedByMark(s: AgeState, maxAge: nat, floor: nat, now: nat, i: nat) returns (j: nat)
    requires maxAge > 0 && Knows(s, maxAge, floor) && i < AgeBoundary(s.marks.ring, maxAge, now)
    ensures i <= j && 1 <= j <= |s.times| && Marked(s.times, maxAge, j) && s.times[j - 1] + maxAge < now
  {
    hide Marked;
    OldestKeptMark(s.marks.ring, now - maxAge);
    var m :| m in s.marks.ring && m.time < now - maxAge && m.index + 1 == OldestKept(s.marks.ring, now - maxAge);
    j := m.index;
  }

  /**
   Exactly which messages age retention drops, in terms of the publish times
   alone: message `i` goes if and only if it, or one after it, wrote a mark and
   is over the limit.
   */
  lemma AgeDropsExactly(maxAge: nat, ops: seq<AgeOp>, now: nat, i: nat)
    requires maxAge > 0 && (forall op | op in ops :: Unbroken(op))
    requires NonDecreasing(AgeRun(maxAge, ops).times) && ClockOk(AgeRun(maxAge, ops).times, maxAge, now)
    requires Pruning(ops) < i <= |AgeRun(maxAge, ops).times|
    ensures
      var s := AgeRun(maxAge, ops);
      i < AgeBoundary(s.marks.ring, maxAge, now) <==>
        exists j | i <= j <= |s.times| :: Marked(s.times, maxAge, j) && s.times[j - 1] + maxAge < now
  {
    hide Marked, AgeRun, Knows, AgeBoundary;
    RunKnows(maxAge, ops);
    var s := AgeRun(maxAge, ops);
    if |s.marks.ring| == MARKS_MAX { FullRingSpansWindow(maxAge, ops); }
    if i < AgeBoundary(s.marks.ring, maxAge, now) {
      var j := DroppedByMark(s, maxAge, Pruning(ops), now, i);
    }
    if exists j | i <= j <= |s.times| :: Marked(s.times, maxAge, j) && s.times[j - 1] + maxAge < now {
      var j :| i <= j <= |s.times| && Marked(s.times, maxAge, j) && s.times[j - 1] + maxAge < now;
      MarkPastLimitDrops(s, maxAge, Pruning(ops), now, j);
    }
  }

  lemma {:induction false} LastMarkBound(times: seq<nat>, maxAge: nat)
    requires times != [] && NonDecreasing(times)
    ensures LastMark(times, maxAge) <= times[|times| - 1]
  {
    if |times| > 1 {
      assert times[|times| - 2] <= times[|times| - 1];
      LastMarkBound(times[..|times| - 1], maxAge);
    }
  }

  /** Without a mark in between, the last one stays. */
  lemma {:induction false} NoMarkBetween(times: seq<nat>, maxAge: nat, a: nat, b: nat)
    requires a <= b <= |times| && forall m | a < m <= b :: !Marked(times, maxAge, m)
    ensures LastMark(times[..b], maxAge) == LastMark(times[..a], maxAge)
  {
    if a < b {
      NoMarkBetween(times, maxAge, a, b - 1);
      assert times[..b][..b - 1] == times[..b - 1];
      assert !Marked(times, maxAge, b);
    }
  }

  /** Among publishes spread over an interval, one wrote a mark. */
  lemma MarkWithinInterval(times: seq<nat>, maxAge: nat, i: nat, j: nat)
    requires maxAge > 0 && NonDecreasing(times) && 1 <= i <= j <= |times|
    requires times[j - 1] - times[i - 1] >= Interval(maxAge)
    ensures exists m | i <= m <= j :: Marked(times, maxAge, m)
  {
    if forall m | i <= m < j :: !Marked(times, maxAge, m) {
      assert j > i;
      NoMarkBetween(times, maxAge, i - 1, j - 1);
      NoMarkBetween(times, maxAge, i, j - 1);
      LastMarkBound(times[..i], maxAge);
      assert Marked(times, maxAge, j);
    }
  }

  /**
   What is kept too long is at most one interval's worth: of the messages over
   the limit that a trim leaves, any two were published less than an interval
   apart.
   */
  lemma KeepsAtMostAnInterval(maxAge: nat, ops: seq<AgeOp>, now: nat, i: nat, j: nat)
    requires maxAge > 0 && (forall op | op in ops :: Unbroken(op))
    requires NonDecreasing(AgeRun(maxAge, ops).times) && ClockOk(AgeRun(maxAge, ops).times, maxAge, now)
    requires Pruning(ops) < i <= j <= |AgeRun(maxAge, ops).times|
    requires AgeRun(maxAge, ops).times[j - 1] + maxAge < now
    requires AgeBoundary(AgeRun(maxAge, ops).marks.ring, maxAge, now) <= i
    ensures AgeRun(maxAge, ops).times[j - 1] - AgeRun(maxAge, ops).times[i - 1] < Interval(maxAge)
  {
    var times := AgeRun(maxAge, ops).times;
    if times[j - 1] - times[i - 1] >= Interval(maxAge) {
      MarkWithinInterval(times, maxAge, i, j);
      var m :| i <= m <= j && Marked(times, maxAge, m);
      assert times[m - 1] <= times[j - 1];
      AgeDropsExactly(maxAge, ops, now, i);
      assert false;
    }
  }

  lemma TwoOps(maxAge: nat, a: AgeOp, b: AgeOp)
    ensures AgeRun(maxAge, [a, b]) == AgeStep(AgeStep(AgeState(Marks([], 0), []), maxAge, a), maxAge, b)
  {
    hide AgeStep;
    assert [a, b][..1] == [a] && [a][..0] == [];
    assert AgeRun(maxAge, [a]) == AgeStep(AgeRun(maxAge, []), maxAge, a);
  }

  /** But how long they are kept has no bound: on a quiet subject the second message here is never dropped. */
  lemma QuietSubjectKeeps(now: nat)
    requires now > 1001 + 1280
    ensures
      var s := AgeRun(1280, [Published(1000), Published(1001)]);
      s.times[1] + 1280 < now && AgeBoundary(s.marks.ring, 1280, now) == 2
  {
    TwoOps(1280, Published(1000), Published(1001));
    FirstMark();
    SecondUnmarked();
    OneMark(Mark(1, 1000), now - 1280);
    hide AgeRun, AgeStep, OldestKept;
  }

  lemma FirstMark()
    ensures AgeStep(AgeState(Marks([], 0), []), 1280, Published(1000)) == AgeState(Marks([Mark(1, 1000)], 1000), [1000])
  {
    assert [] + [Mark(1, 1000)] == [Mark(1, 1000)];
  }

  lemma SecondUnmarked()
    ensures AgeStep(AgeState(Marks([Mark(1, 1000)], 1000), [1000]), 1280, Published(1001))
         == AgeState(Marks([Mark(1, 1000)], 1000), [1000, 1001])
  {
    assert Interval(1280) == 10;
  }

  lemma OneMark(m: Mark, cutoff: nat)
    requires m.time < cutoff
    ensures OldestKept([m], cutoff) == m.index + 1
  {
    assert [m][..0] == [];
  }
}
