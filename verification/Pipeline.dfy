/**
 The read-process-write stage: a worker is delivered a batch of inputs, runs a
 handler on each in order and publishes what it returns with an idempotency
 key derived from the input and the input's acknowledgement riding along
 (src/client.c and packages/node/src/client.js against src/server.c).

 Workers may crash, replies may be lost, publishes may be retried and batches
 redelivered to other workers while an old one is still running.
 */
module Pipeline {
  import opened Options
  import opened Dedup
  import opened Names
  import opened Decimal
  import opened Publishing
  import opened Receipts
  import opened Words

  // ---- the derived key ------------------------------------------------------

  /** "<consumer>.<subject>.<index>" */
  function PipeKey(consumer: string, subject: string, index: nat): string {
    consumer + "." + subject + "." + Dec(index)
  }

  /** snprintf into a buffer of 129 bytes keeps the first 128. */
  function Truncated(s: string): string {
    if |s| > ID_MAX then s[..ID_MAX] else s
  }

  function LastDot(s: string): int {
    if s == "" then -1 else if s[|s| - 1] == '.' then |s| - 1 else LastDot(s[..|s| - 1])
  }

  lemma {:induction false} LastDotBeforeDigits(head: string, digits: string)
    requires forall i | 0 <= i < |digits| :: digits[i] != '.'
    ensures LastDot(head + "." + digits) == |head|
  {
    if digits != "" {
      LastDotBeforeDigits(head, digits[..|digits| - 1]);
      var s := head + "." + digits;
      assert s[..|s| - 1] == head + "." + digits[..|digits| - 1];
    }
  }

  /** Two keys are equal exactly when the dotted names and the indexes are. */
  lemma PipeKeyExact(c: string, s: string, i: nat, d: string, t: string, j: nat)
    ensures PipeKey(c, s, i) == PipeKey(d, t, j) <==> c + "." + s == d + "." + t && i == j
  {
    var a, b := c + "." + s, d + "." + t;
    assert PipeKey(c, s, i) == a + "." + Dec(i) && PipeKey(d, t, j) == b + "." + Dec(j);
    LastDotBeforeDigits(a, Dec(i));
    LastDotBeforeDigits(b, Dec(j));
    if PipeKey(c, s, i) == PipeKey(d, t, j) {
      assert a == (a + "." + Dec(i))[..|a|] && Dec(i) == (a + "." + Dec(i))[|a| + 1..];
      assert b == (b + "." + Dec(j))[..|b|] && Dec(j) == (b + "." + Dec(j))[|b| + 1..];
      DecInjective(i, j);
    }
  }

  /** For one consumer the key tells every input of every subject apart. */
  lemma PipeKeyInjective(c: string, s: string, i: nat, t: string, j: nat)
    requires PipeKey(c, s, i) == PipeKey(c, t, j)
    ensures s == t && i == j
  {
    PipeKeyExact(c, s, i, c, t, j);
    assert s == (c + "." + s)[|c| + 1..] && t == (c + "." + t)[|c| + 1..];
  }

  /** Two differently named stages can share a key, because names may contain dots. */
  lemma PipeKeySharedAcrossStages(i: nat)
    ensures NameValid("a") && NameValid("b.c") && NameValid("a.b") && NameValid("c")
    ensures PipeKey("a", "b.c", i) == PipeKey("a.b", "c", i)
  {
    assert "a" + "." + "b.c" == "a.b" + "." + "c";
    PipeKeyExact("a", "b.c", i, "a.b", "c", i);
  }

  /** The names' part of a key. */
  function KeyHead(c: string, s: string): string { c + "." + s + "." }

  /** The keys a C stage derives for inputs 0 to `n` are all different. */
  ghost predicate KeysApart(c: string, s: string, n: nat) {
    forall i, j | 0 <= i < j <= n :: Truncated(PipeKey(c, s, i)) != Truncated(PipeKey(c, s, j))
  }

  /**
   Exactly when the C client's keys still tell the inputs up to `n` apart: when
   the key of `n` fits in 128 bytes.  One byte more, and the key of `n` is that of
   the number its kept digits spell; with no digit kept all keys are one.
   */
  lemma TruncatedKeysExact(c: string, s: string, n: nat)
    requires n >= 1
    ensures KeysApart(c, s, n) <==> |c| + |s| + 2 + |Dec(n)| <= ID_MAX
  {
    var head := KeyHead(c, s);
    if |head| + |Dec(n)| <= ID_MAX {
      forall i, j | 0 <= i < j <= n ensures Truncated(PipeKey(c, s, i)) != Truncated(PipeKey(c, s, j)) {
        LongerIsLarger(i, n);
        LongerIsLarger(j, n);
        if PipeKey(c, s, i) == PipeKey(c, s, j) { PipeKeyInjective(c, s, i, s, j); }
      }
    } else if |head| >= ID_MAX {
      PipeKeyTruncates(c, s, 0, 1);
    } else {
      var m := DigitsKept(n, ID_MAX - |head|);
      var whole := head + Dec(n);
      assert PipeKey(c, s, n) == whole && PipeKey(c, s, m) == head + Dec(m);
      assert whole[..ID_MAX] == head + Dec(n)[..ID_MAX - |head|];
      assert Truncated(PipeKey(c, s, m)) == Truncated(PipeKey(c, s, n));
    }
  }

  /** Past 128 bytes of names the C client's key no longer depends on the index. */
  lemma PipeKeyTruncates(c: string, s: string, i: nat, j: nat)
    requires |c| + |s| + 2 >= ID_MAX
    ensures Truncated(PipeKey(c, s, i)) == Truncated(PipeKey(c, s, j))
  {
    var head := KeyHead(c, s);
    assert PipeKey(c, s, i) == head + Dec(i) && PipeKey(c, s, j) == head + Dec(j);
    assert (head + Dec(i))[..ID_MAX] == head[..ID_MAX] == (head + Dec(j))[..ID_MAX];
  }

  /** Cut or not, a key is made of bytes an id may hold. */
  lemma TruncatedKeyValid(c: string, s: string, i: nat)
    requires NameValid(c) && NameValid(s)
    ensures IdValid(Truncated(PipeKey(c, s, i)))
  {
    var head := c + "." + s + ".";
    var k := PipeKey(c, s, i);
    assert k == head + Dec(i);
    forall n | 0 <= n < |k| ensures k[n] != '/' && k[n] as int >= 0x20 && k[n] as int != 0x7f {
      if n < |c| {
        assert k[n] == c[n];
      } else if |c| < n < |c| + 1 + |s| {
        assert k[n] == s[n - |c| - 1];
      } else if n >= |head| {
        assert IsDigit(Dec(i)[n - |head|]);
      }
    }
  }

  lemma PipeKeyValid(c: string, s: string, i: nat)
    requires NameValid(c) && NameValid(s) && |PipeKey(c, s, i)| <= ID_MAX
    ensures IdValid(PipeKey(c, s, i))
  {
    TruncatedKeyValid(c, s, i);
  }

  // ---- the stage ------------------------------------------------------------

  /** Names one stage: who it is, what it reads, where it writes. */
  datatype Config = Config(consumer: string, from: string, to: string)

  /** A worker holding the batch first..last, about to handle input `at`. */
  datatype Worker = Worker(first: nat, at: nat, last: nat)

  /**
   The broker, where its input log begins, the workers, and what has happened:
   `start` is where the stage's receipt stood at first; `out` lists the inputs
   whose output was appended, in the order of the appends; `dropped` those some
   handler run dropped; `skipped` those the receipt jumped over after a trim;
   `used` when each input's key was last published.
   */
  datatype Stage = Stage(
    b: Broker, base: nat, clock: nat, workers: map<nat, Worker>, start: nat,
    out: seq<nat>, dropped: set<nat>, skipped: set<nat>, used: map<nat, nat>, at: map<nat, nat>)

  datatype Action =
    /** The input log loses everything up to `base`. */
    | Trim(base: nat)
    /** The broker finds the receipt below the log and moves it to where the log begins. */
    | Jump
    /** The broker delivers a batch starting after the receipt. */
    | Deliver(w: nat, last: nat)
    /** The handler returned nothing for the worker's next input. */
    | Drop(w: nat)
    /** The handler's output is published; the reply may be lost. */
    | Emit(w: nat, now: nat, body: Entry, replied: bool)
    /** The worker answers its delivery with how far it got. */
    | Settle(w: nat)
    | Crash(w: nat)
    /** Any other client's publish. */
    | Other(r: Request)

  /** from + 1 to last. */
  function Between(from: nat, last: nat): (r: set<nat>)
    ensures forall i :: i in r <==> from < i <= last
  {
    if last <= from then {} else Between(from, last - 1) + {last}
  }

  function ReceiptKey(c: Config): string { JoinKey(c.from, c.consumer) }

  function Receipt(s: Stage, c: Config): nat {
    if ReceiptKey(c) in s.b.receipts then s.b.receipts[ReceiptKey(c)] else 0
  }

  function OutKey(c: Config, i: nat): Key { JoinKey(c.to, PipeKey(c.consumer, c.from, i)) }

  /** The broker takes the key of input `i` as an id. */
  predicate KeyFits(c: Config, i: nat) { |PipeKey(c.consumer, c.from, i)| <= ID_MAX }

  function EmitRequest(c: Config, i: nat, now: nat, body: Entry): Request {
    Request(now, c.to, body, Some(PipeKey(c.consumer, c.from, i)), Some(Ack(c.from, c.consumer, i)))
  }

  /** Whether an action can happen, under the assumptions of the guarantee. */
  predicate Enabled(s: Stage, c: Config, a: Action) {
    match a
    case Trim(base) => s.base <= base
    case Jump => Receipt(s, c) < s.base
    case Deliver(w, last) => s.base <= Receipt(s, c) < last
    case Drop(w) => w in s.workers && s.workers[w].at <= s.workers[w].last
    case Emit(w, now, body, replied) =>
      && w in s.workers && s.workers[w].at <= s.workers[w].last
      && s.clock <= now
      // a retry that counts on the key comes within one dedup window of the attempt before it
      && (s.workers[w].at in s.used && KeyFits(c, s.workers[w].at) ==> now <= s.used[s.workers[w].at] + s.b.dd.window)
    case Settle(w) => w in s.workers
    case Crash(w) => w in s.workers
    case Other(r) =>
      && s.clock <= r.now && '/' !in r.subject
      && (r.subject == c.to && r.id.Some? ==> !IsStageKey(c, r.id.value))
      && (r.ack.Some? ==> JoinKey(r.ack.value.subject, r.ack.value.consumer) != ReceiptKey(c))
  }

  /** An id that is one of this stage's derived keys. */
  predicate IsStageKey(c: Config, id: string) {
    c.consumer + "." + c.from + "." <= id
  }

  function Step(s: Stage, c: Config, a: Action): Stage
    requires Enabled(s, c, a)
  {
    match a
    case Trim(base) => s.(base := base)
    case Jump =>
      s.(b := s.b.(receipts := CursorSet(s.b.receipts, ReceiptKey(c), s.base)),
         skipped := s.skipped + Between(Receipt(s, c), s.base))
    case Deliver(w, last) =>
      var first := Receipt(s, c) + 1;
      s.(workers := s.workers[w := Worker(first, first, last)])
    case Drop(w) =>
      var k := s.workers[w];
      s.(dropped := s.dropped + {k.at}, workers := s.workers[w := k.(at := k.at + 1)])
    case Emit(w, now, body, replied) =>
      var k := s.workers[w];
      var r := EmitRequest(c, k.at, now, body);
      var (b, reply) := Publish(s.b, r);
      var ok := reply.Accepted?;
      s.(b := b, clock := now,
         out := if ok && !reply.duplicate then s.out + [k.at] else s.out,
         at := if ok && !reply.duplicate then s.at[k.at := reply.index] else s.at,
         used := s.used[k.at := now],
         workers := if ok && replied then s.workers[w := k.(at := k.at + 1)] else s.workers)
    case Settle(w) =>
      var k := s.workers[w];
      var s1 := s.(workers := s.workers - {w});
      // the worker reports at - 1; below `first` the broker takes it as a refusal
      if k.at > k.first
      then s1.(b := s.b.(receipts := CursorSet(s.b.receipts, ReceiptKey(c), k.at - 1)))
      else s1
    case Crash(w) => s.(workers := s.workers - {w})
    case Other(r) => s.(b := Publish(s.b, r).0, clock := r.now)
  }

  // ---- the guarantee ---------------------------------------------------------

  /** Input `j` needs no more work: its output exists, a handler dropped it, or it was trimmed away first. */
  predicate Handled(s: Stage, j: nat) { j in s.out || j in s.dropped || j in s.skipped }

  ghost predicate HandledBelow(s: Stage, n: nat) {
    forall j: nat | s.start < j < n :: Handled(s, j)
  }

  /** No input whose key fits stands twice in the output. */
  ghost predicate NoRepeats(out: seq<nat>, c: Config) {
    forall a, b | 0 <= a < b < |out| && KeyFits(c, out[a]) :: out[a] != out[b]
  }

  ghost predicate NamesOk(c: Config) {
    NameValid(c.consumer) && NameValid(c.from) && NameValid(c.to)
  }

  ghost predicate Remembered(s: Stage, c: Config, j: nat) {
    && j in s.used && j in s.at && s.used[j] <= s.clock
    && Safe(s.b.dd, OutKey(c, j), s.at[j], s.used[j], s.clock)
  }

  ghost predicate Findable(dd: Index, k: Key) { k in dd.cur || k in dd.prev }

  /** Of the inputs still to come, the dedup index knows only those this stage has appended. */
  ghost predicate OnlyOurs(s: Stage, c: Config) {
    forall j: nat | s.start < j && Findable(s.b.dd, OutKey(c, j)) :: j in s.out
  }

  ghost predicate Inv(s: Stage, c: Config) {
    && OnlyOurs(s, c)
    && s.b.dd.rotated <= s.clock && 0 < s.b.dd.window
    && NoRepeats(s.out, c)
    && s.start <= Receipt(s, c) && HandledBelow(s, Receipt(s, c) + 1)
    && (forall i | i in s.skipped :: i <= s.base)
    && (forall w | w in s.workers :: s.start < s.workers[w].first <= s.workers[w].at && HandledBelow(s, s.workers[w].at))
    && (forall j | j in s.used :: j in s.out)
    && (forall j | j in s.out && KeyFits(c, j) :: Remembered(s, c, j))
  }

  /** Everything handled stays handled. */
  ghost predicate Extends(s: Stage, s': Stage) {
    s'.start == s.start && forall j: nat | Handled(s, j) :: Handled(s', j)
  }

  lemma HandledBelowExtends(s: Stage, s': Stage, n: nat)
    requires HandledBelow(s, n) && Extends(s, s')
    ensures HandledBelow(s', n)
  {
  }

  lemma OutKeyDistinct(c: Config, i: nat, j: nat)
    requires NamesOk(c) && i != j
    ensures OutKey(c, i) != OutKey(c, j)
  {
    if OutKey(c, i) == OutKey(c, j) {
      NameHasNoSlash(c.to);
      JoinKeyInjective(c.to, PipeKey(c.consumer, c.from, i), c.to, PipeKey(c.consumer, c.from, j));
      PipeKeyInjective(c.consumer, c.from, i, c.from, j);
      assert false;
    }
  }

  lemma OtherKeyDistinct(s: Stage, c: Config, r: Request, j: nat)
    requires NamesOk(c) && Enabled(s, c, Other(r)) && r.id.Some?
    ensures JoinKey(r.subject, r.id.value) != OutKey(c, j)
  {
    var head := c.consumer + "." + c.from + ".";
    assert PipeKey(c.consumer, c.from, j) == head + Dec(j);
    assert IsStageKey(c, PipeKey(c.consumer, c.from, j));
    if JoinKey(r.subject, r.id.value) == OutKey(c, j) {
      NameHasNoSlash(c.to);
      JoinKeyInjective(r.subject, r.id.value, c.to, PipeKey(c.consumer, c.from, j));
      assert false;
    }
  }

  lemma LookupIsLocal(dd: Index, now: nat, asked: Key, k: Key, index: nat)
    ensures Findable(Lookup(dd, now, asked).0, k) ==> Findable(dd, k)
    ensures asked != k && Findable(Record(Lookup(dd, now, asked).0, asked, index), k) ==> Findable(dd, k)
  {
  }

  /** A publish makes no key but its own findable, and touches no receipt but the one it names. */
  lemma PublishIsLocal(b: Broker, r: Request, k: Key, receipt: string)
    requires r.id.Some? ==> JoinKey(r.subject, r.id.value) != k
    requires r.ack.Some? ==> JoinKey(r.ack.value.subject, r.ack.value.consumer) != receipt
    ensures Findable(Publish(b, r).0.dd, k) ==> Findable(b.dd, k)
    ensures receipt in Publish(b, r).0.receipts <==> receipt in b.receipts
    ensures receipt in b.receipts ==> Publish(b, r).0.receipts[receipt] == b.receipts[receipt]
  {
    PublishedIndex(b, r);
    if r.id.Some? { LookupIsLocal(b.dd, r.now, JoinKey(r.subject, r.id.value), k, |LogOf(b, r.subject)| + 1); }
    PublishedReceipts(b, r, receipt);
    hide *;
  }

  lemma PublishedReceipts(b: Broker, r: Request, receipt: string)
    requires r.ack.Some? ==> JoinKey(r.ack.value.subject, r.ack.value.consumer) != receipt
    ensures receipt in Publish(b, r).0.receipts <==> receipt in b.receipts
    ensures receipt in b.receipts ==> Publish(b, r).0.receipts[receipt] == b.receipts[receipt]
  {
    hide IdValid, NameValid, JoinKey, Lookup, Record;
  }

  lemma OtherRemembers(s: Stage, c: Config, r: Request, j: nat)
    requires NamesOk(c) && Inv(s, c) && Enabled(s, c, Other(r))
    ensures j in s.out && KeyFits(c, j) ==> Remembered(Step(s, c, Other(r)), c, j)
    ensures s.start < j && Findable(Publish(s.b, r).0.dd, OutKey(c, j)) ==> j in s.out
    ensures Receipt(Step(s, c, Other(r)), c) == Receipt(s, c)
  {
    if r.id.Some? { OtherKeyDistinct(s, c, r, j); }
    PublishIsLocal(s.b, r, OutKey(c, j), ReceiptKey(c));
    if j in s.out && KeyFits(c, j) {
      assert Remembered(s, c, j);
      OtherStoreKeepsSafe(s.b, r, OutKey(c, j), s.at[j], s.used[j], s.clock);
    }
  }

  lemma OtherStep(s: Stage, c: Config, r: Request)
    requires NamesOk(c) && Inv(s, c) && Enabled(s, c, Other(r))
    ensures Inv(Step(s, c, Other(r)), c)
  {
    var s' := Step(s, c, Other(r));
    forall j: nat
      ensures j in s.out && KeyFits(c, j) ==> Remembered(s', c, j)
      ensures s'.start < j && Findable(s'.b.dd, OutKey(c, j)) ==> j in s'.out
    {
      OtherRemembers(s, c, r, j);
    }
    OtherRemembers(s, c, r, 0);
    RotatedAfter(s.b, r, s.clock);
    HandledBelowExtends(s, s', Receipt(s, c) + 1);
    forall v | v in s'.workers ensures HandledBelow(s', s'.workers[v].at) {
      HandledBelowExtends(s, s', s.workers[v].at);
    }
  }

  lemma RotatedAfter(b: Broker, r: Request, clock: nat)
    requires b.dd.rotated <= clock <= r.now
    ensures Publish(b, r).0.dd.rotated <= r.now && Publish(b, r).0.dd.window == b.dd.window
  {
    PublishedIndex(b, r);
    if r.id.Some? {
      LookupRotates(b.dd, r.now, JoinKey(r.subject, r.id.value), |LogOf(b, r.subject)| + 1);
    }
    hide *;
  }

  /** What an emit does to the broker, in each of its two cases. */
  lemma EmitStores(s: Stage, c: Config, i: nat, now: nat, body: Entry)
    requires NamesOk(c) && Inv(s, c) && s.clock <= now && s.start < i
    requires i in s.used && KeyFits(c, i) ==> now <= s.used[i] + s.b.dd.window
    ensures
      var (b, reply) := Publish(s.b, EmitRequest(c, i, now, body));
      && reply.Accepted?
      && b.receipts == CursorSet(s.b.receipts, ReceiptKey(c), i)
      && b.dd.rotated <= now && b.dd.window == s.b.dd.window
      && (reply.duplicate <==> i in s.out && KeyFits(c, i))
      && (reply.duplicate ==> reply.index == s.at[i] && b.logs == s.b.logs)
      && (!reply.duplicate ==> b.logs == s.b.logs[c.to := LogOf(s.b, c.to) + [body]])
      && (KeyFits(c, i) ==> Safe(b.dd, OutKey(c, i), reply.index, now, now))
      && (forall k: Key | Findable(b.dd, k) :: k == OutKey(c, i) || Findable(s.b.dd, k))
  {
    var r := EmitRequest(c, i, now, body);
    if !KeyFits(c, i) {
      LongIdIsNone(s.b, r);
    } else if i in s.out {
      PipeKeyValid(c.consumer, c.from, i);
      assert Remembered(s, c, i);
      SameStoreIsDuplicate(s.b, r, s.at[i], s.used[i], s.clock);
    } else {
      PipeKeyValid(c.consumer, c.from, i);
      assert !Findable(s.b.dd, OutKey(c, i));
      FreshStoreIsSafe(s.b, r);
    }
  }

  lemma EmitRemembers(s: Stage, c: Config, a: Action)
    requires NamesOk(c) && Inv(s, c) && a.Emit? && Enabled(s, c, a)
    ensures var s' := Step(s, c, a); OnlyOurs(s', c) && forall j | j in s'.out && KeyFits(c, j) :: Remembered(s', c, j)
  {
    var s' := Step(s, c, a);
    var i := s.workers[a.w].at;
    EmitStores(s, c, i, a.now, a.body);
    forall j | j in s'.out && KeyFits(c, j) ensures Remembered(s', c, j) {
      if j != i {
        assert Remembered(s, c, j);
        OutKeyDistinct(c, i, j);
        OtherStoreKeepsSafe(s.b, EmitRequest(c, i, a.now, a.body), OutKey(c, j), s.at[j], s.used[j], s.clock);
      }
    }
    forall j: nat | s'.start < j && Findable(s'.b.dd, OutKey(c, j)) ensures j in s'.out {
      if j != i { OutKeyDistinct(c, i, j); }
    }
  }

  lemma EmitStep(s: Stage, c: Config, a: Action)
    requires NamesOk(c) && Inv(s, c) && a.Emit? && Enabled(s, c, a)
    ensures Inv(Step(s, c, a), c)
  {
    hide Publish, PipeKey, NameValid;
    var s' := Step(s, c, a);
    var i := s.workers[a.w].at;
    EmitStores(s, c, i, a.now, a.body);
    EmitRemembers(s, c, a);
    assert Extends(s, s');
    HandledBelowExtends(s, s', Receipt(s, c) + 1);
    forall w | w in s'.workers ensures HandledBelow(s', s'.workers[w].at) {
      HandledBelowExtends(s, s', s.workers[w].at);
    }
    HandledBelowExtends(s, s', i);
    assert i in s'.out;
    assert Receipt(s', c) == Receipt(s, c) || Receipt(s', c) == i;
  }

  lemma SettleStep(s: Stage, c: Config, w: nat)
    requires Inv(s, c) && Enabled(s, c, Settle(w))
    ensures Inv(Step(s, c, Settle(w)), c)
  {
    var s' := Step(s, c, Settle(w));
    var k := s.workers[w];
    forall j | j in s'.out && KeyFits(c, j) ensures Remembered(s', c, j) { assert Remembered(s, c, j); }
    HandledBelowExtends(s, s', k.at);
    HandledBelowExtends(s, s', Receipt(s, c) + 1);
    forall v | v in s'.workers ensures HandledBelow(s', s'.workers[v].at) {
      HandledBelowExtends(s, s', s.workers[v].at);
    }
    assert Receipt(s', c) == Receipt(s, c) || Receipt(s', c) == k.at - 1;
  }

  /** The jump over a trimmed stretch: it is skipped, and the receipt stands at the base. */
  lemma JumpStep(s: Stage, c: Config)
    requires Inv(s, c) && Enabled(s, c, Jump)
    ensures Inv(Step(s, c, Jump), c)
    ensures Receipt(Step(s, c, Jump), c) == s.base && Step(s, c, Jump).b.logs == s.b.logs
    ensures forall i | Receipt(s, c) < i <= s.base :: i in Step(s, c, Jump).skipped
  {
    var s' := Step(s, c, Jump);
    assert Extends(s, s');
    forall j | j in s'.out && KeyFits(c, j) ensures Remembered(s', c, j) { assert Remembered(s, c, j); }
    HandledBelowExtends(s, s', Receipt(s, c) + 1);
    forall v | v in s'.workers ensures HandledBelow(s', s'.workers[v].at) {
      HandledBelowExtends(s, s', s.workers[v].at);
    }
  }

  lemma LocalStep(s: Stage, c: Config, a: Action)
    requires Inv(s, c) && Enabled(s, c, a) && (a.Trim? || a.Deliver? || a.Drop? || a.Crash?)
    ensures Inv(Step(s, c, a), c)
  {
    var s' := Step(s, c, a);
    assert Extends(s, s');
    forall j | j in s'.out && KeyFits(c, j) ensures Remembered(s', c, j) { assert Remembered(s, c, j); }
    HandledBelowExtends(s, s', Receipt(s, c) + 1);
    forall v | v in s'.workers ensures HandledBelow(s', s'.workers[v].at) {
      if v in s.workers { HandledBelowExtends(s, s', s.workers[v].at); }
    }
  }

  // ---- over every run ----------------------------------------------------------

  function Run(s: Stage, c: Config, actions: seq<Action>): Option<Stage> {
    if actions == [] then Some(s)
    else
      var before := Run(s, c, actions[..|actions| - 1]);
      var a := actions[|actions| - 1];
      if before.Some? && Enabled(before.value, c, a) then Some(Step(before.value, c, a)) else None
  }

  /** A stage that has not started, on a broker that may hold anything else. */
  ghost predicate Fresh(s: Stage, c: Config) {
    && s.workers == map[] && s.out == [] && s.dropped == {} && s.skipped == {} && s.used == map[]
    && Receipt(s, c) == s.start
    && s.b.dd.rotated <= s.clock && 0 < s.b.dd.window
    && OnlyOurs(s, c)
  }

  lemma {:induction false} RunKeepsStart(s: Stage, c: Config, actions: seq<Action>)
    requires Run(s, c, actions).Some?
    ensures Run(s, c, actions).value.start == s.start
  {
    if actions != [] { RunKeepsStart(s, c, actions[..|actions| - 1]); }
  }

  lemma {:induction false} RunInv(s: Stage, c: Config, actions: seq<Action>)
    requires NamesOk(c) && Fresh(s, c) && Run(s, c, actions).Some?
    ensures Inv(Run(s, c, actions).value, c)
  {
    if actions != [] {
      var init, a := actions[..|actions| - 1], actions[|actions| - 1];
      RunInv(s, c, init);
      var t := Run(s, c, init).value;
      match a
      case Emit(_, _, _, _) => EmitStep(t, c, a);
      case Settle(w) => SettleStep(t, c, w);
      case Jump => JumpStep(t, c);
      case Other(r) => OtherStep(t, c, r);
      case _ => LocalStep(t, c, a);
    }
  }

  /**
   Effectively once.  In every run, whatever crashes, is retried or redelivered,
   no input whose key fits has two outputs, and every input from where the stage
   started up to the receipt has its output, was dropped by its handler, or was
   trimmed away before the receipt reached it.
   */
  lemma EffectivelyOnce(s: Stage, c: Config, actions: seq<Action>, i: nat)
    requires NamesOk(c) && Fresh(s, c) && Run(s, c, actions).Some?
    ensures
      var t := Run(s, c, actions).value;
      && NoRepeats(t.out, c)
      && (s.start < i <= Receipt(t, c) ==> i in t.out || i in t.dropped || (i in t.skipped && i <= t.base))
  {
    RunInv(s, c, actions);
    var t := Run(s, c, actions).value;
    RunKeepsStart(s, c, actions);
    if s.start < i <= Receipt(t, c) { assert Handled(t, i); }
  }

  function AppendedBy(s: Stage, s': Stage, c: Config): int { |LogOf(s'.b, c.to)| - |LogOf(s.b, c.to)| }

  /** The account is of the real log: the output subject grows exactly when `out` does. */
  lemma OutIsTheLog(s: Stage, c: Config, actions: seq<Action>, a: Action)
    requires NamesOk(c) && Fresh(s, c) && Run(s, c, actions).Some? && Enabled(Run(s, c, actions).value, c, a)
    requires a.Other? ==> a.r.subject != c.to
    ensures
      var t := Run(s, c, actions).value;
      AppendedBy(t, Step(t, c, a), c) == |Step(t, c, a).out| - |t.out|
  {
    hide Inv, NameValid, Fresh;
    RunInv(s, c, actions);
    var t := Run(s, c, actions).value;
    if a.Emit? { EmitStores(t, c, t.workers[a.w].at, a.now, a.body); }
  }

  // ---- keys that do not fit -------------------------------------------------------

  /** At any point of any run, publishing the output of an input that has one appends nothing if and only if its key fits. */
  lemma RetryCollapsesExactly(s: Stage, c: Config, actions: seq<Action>, a: Action)
    requires NamesOk(c) && Fresh(s, c) && Run(s, c, actions).Some? && Enabled(Run(s, c, actions).value, c, a)
    requires a.Emit? && Run(s, c, actions).value.workers[a.w].at in Run(s, c, actions).value.out
    ensures
      var t := Run(s, c, actions).value;
      var t', i := Step(t, c, a), t.workers[a.w].at;
      && (t'.b.logs == t.b.logs <==> KeyFits(c, i))
      && t'.out == if KeyFits(c, i) then t.out else t.out + [i]
  {
    hide Inv, NameValid, Fresh;
    RunInv(s, c, actions);
    var t := Run(s, c, actions).value;
    var i := t.workers[a.w].at;
    InvStarts(t, c, a.w);
    EmitStores(t, c, i, a.now, a.body);
    var logs := t.b.logs[c.to := LogOf(t.b, c.to) + [a.body]];
    assert logs[c.to] != LogOf(t.b, c.to);
  }

  lemma InvStarts(s: Stage, c: Config, w: nat)
    requires Inv(s, c) && w in s.workers
    ensures s.start < s.workers[w].at && s.b.dd.rotated <= s.clock
  {
  }

  /** A key past 128 bytes is sent whole and read as none: one lost reply, and the output stands twice. */
  lemma LongKeyRepeats(s: Stage, c: Config, body: Entry, now: nat)
    requires NamesOk(c) && Fresh(s, c) && s.base <= s.start && s.clock <= now && !KeyFits(c, s.start + 1)
    ensures
      var i := s.start + 1;
      var t := Run(s, c, [Deliver(0, i), Emit(0, now, body, false), Emit(0, now, body, true)]);
      && t.Some? && t.value.out == [i, i]
      && LogOf(t.value.b, c.to) == LogOf(s.b, c.to) + [body] + [body]
  {
    var i, d, e1, e2 := s.start + 1, Deliver(0, s.start + 1), Emit(0, now, body, false), Emit(0, now, body, true);
    var s1 := Step(s, c, d);
    Delivered(s, c, i);
    RunOneMore(s, c, [], d);
    LongEmit(s1, c, now, body, false);
    var s2 := Step(s1, c, e1);
    LongEmit(s2, c, now, body, true);
    hide *;
    RunOneMore(s, c, [d], e1);
    RunOneMore(s, c, [d, e1], e2);
    assert [] + [d] == [d] && [d] + [e1] == [d, e1] && [d, e1] + [e2] == [d, e1, e2];
    assert [] + [i] + [i] == [i, i];
  }

  lemma Delivered(s: Stage, c: Config, i: nat)
    requires NamesOk(c) && Fresh(s, c) && s.base <= s.start && i == s.start + 1
    ensures Run(s, c, []) == Some(s) && Enabled(s, c, Deliver(0, i))
    ensures
      var t := Step(s, c, Deliver(0, i));
      0 in t.workers && t.workers[0] == Worker(i, i, i) && t.b == s.b && t.clock == s.clock && t.out == []
  {
    hide OnlyOurs, NamesOk;
  }

  /** Publishing under a key that does not fit: one more output, whatever was there. */
  lemma LongEmit(t: Stage, c: Config, now: nat, body: Entry, replied: bool)
    requires NamesOk(c) && 0 in t.workers && 0 < t.workers[0].at <= t.workers[0].last && t.clock <= now && !KeyFits(c, t.workers[0].at)
    ensures
      var a := Emit(0, now, body, replied);
      && Enabled(t, c, a)
      && var t' := Step(t, c, a);
         && t'.out == t.out + [t.workers[0].at] && t'.clock == now
         && LogOf(t'.b, c.to) == LogOf(t.b, c.to) + [body]
         && (!replied ==> t'.workers == t.workers)
  {
    var i := t.workers[0].at;
    hide NamesOk, KeyFits, PipeKey, Publish;
    LongIdIsNone(t.b, EmitRequest(c, i, now, body));
    EmitAccepted(t.b, c, i, now, body);
    LongKeyIs(c, i);
  }

  lemma LongKeyIs(c: Config, i: nat)
    ensures KeyFits(c, i) <==> |PipeKey(c.consumer, c.from, i)| <= ID_MAX
  {
  }

  lemma EmitAccepted(b: Broker, c: Config, i: nat, now: nat, body: Entry)
    requires NamesOk(c) && i > 0
    ensures !KeyFits(c, i) ==> Publish(b, EmitRequest(c, i, now, body)).1.Accepted?
  {
  }

  /** The C client's request: its key cut to 128 bytes. */
  function CutRequest(c: Config, i: nat, now: nat, body: Entry): Request {
    EmitRequest(c, i, now, body).(id := Some(Truncated(PipeKey(c.consumer, c.from, i))))
  }

  /** Two inputs whose cut keys are the same: the second one's output is taken for a copy and lost, though its input is acknowledged. */
  lemma CutKeyLosesOutput(b: Broker, c: Config, i: nat, j: nat, now: nat, later: nat, body: Entry, other: Entry)
    requires NamesOk(c) && 0 < i < j && Truncated(PipeKey(c.consumer, c.from, i)) == Truncated(PipeKey(c.consumer, c.from, j))
    requires 0 < b.dd.window && b.dd.rotated <= now <= later <= now + b.dd.window
    requires Lookup(b.dd, now, JoinKey(c.to, Truncated(PipeKey(c.consumer, c.from, i)))).1.None?
    ensures
      var b1 := Publish(b, CutRequest(c, i, now, body)).0;
      var (b2, reply) := Publish(b1, CutRequest(c, j, later, other));
      && reply.Accepted? && reply.duplicate && reply.acked && b2.logs == b1.logs
      && ReceiptKey(c) in b2.receipts && b2.receipts[ReceiptKey(c)] >= j
  {
    var r, r' := CutRequest(c, i, now, body), CutRequest(c, j, later, other);
    TruncatedKeyValid(c.consumer, c.from, i);
    var b1 := Publish(b, r).0;
    hide NameValid, PipeKey, Truncated;
    FreshStoreIsSafe(b, r);
    SameStoreIsDuplicate(b1, r', |LogOf(b, c.to)| + 1, now, now);
  }

  // ---- a batch nothing goes wrong with ----------------------------------------------------

  lemma {:induction false} RunInTurn(s: Stage, c: Config, a: seq<Action>, b: seq<Action>)
    requires Run(s, c, a).Some?
    ensures Run(s, c, a + b) == Run(Run(s, c, a).value, c, b)
  {
    if b == [] {
      assert a + b == a;
    } else {
      var n := |b| - 1;
      RunInTurn(s, c, a, b[..n]);
      assert (a + b)[..|a + b| - 1] == a + b[..n] && (a + b)[|a + b| - 1] == b[n];
    }
  }

  /** What a handler makes of each input: an output, or nothing. */
  function Handlings(w: nat, now: nat, bodies: seq<Option<Entry>>): seq<Action> {
    if bodies == [] then []
    else
      var body := bodies[|bodies| - 1];
      Handlings(w, now, bodies[..|bodies| - 1]) + [if body.Some? then Emit(w, now, body.value, true) else Drop(w)]
  }

  function Outputs(bodies: seq<Option<Entry>>): seq<Entry> {
    if bodies == [] then []
    else Outputs(bodies[..|bodies| - 1]) + if bodies[|bodies| - 1].Some? then [bodies[|bodies| - 1].value] else []
  }

  /** Worker `w` has handled `bodies`, the inputs from `first` on. */
  ghost predicate HandledSoFar(d: Stage, t: Stage, c: Config, w: nat, now: nat, bodies: seq<Option<Entry>>) {
    && Inv(t, c) && w in d.workers && w in t.workers && t.start == d.start && t.clock <= now
    && t.workers == d.workers[w := d.workers[w].(at := d.workers[w].at + |bodies|)]
    && LogOf(t.b, c.to) == LogOf(d.b, c.to) + Outputs(bodies)
    && Receipt(t, c) < d.workers[w].at + |bodies|
    && (forall i | i in t.out :: i < d.workers[w].at + |bodies|)
  }

  lemma {:induction false} HandlingsGoThrough(d: Stage, c: Config, w: nat, now: nat, bodies: seq<Option<Entry>>)
    requires NamesOk(c) && Inv(d, c) && w in d.workers && d.clock <= now
    requires d.workers[w].at + |bodies| <= d.workers[w].last + 1 && Receipt(d, c) < d.workers[w].at
    requires forall i | i in d.out :: i < d.workers[w].at
    ensures
      var t := Run(d, c, Handlings(w, now, bodies));
      t.Some? && HandledSoFar(d, t.value, c, w, now, bodies)
  {
    if bodies == [] {
      NothingHandled(d, c, w, now);
    } else {
      hide *;
      var init, body := bodies[..|bodies| - 1], bodies[|bodies| - 1];
      HandlingsGoThrough(d, c, w, now, init);
      OneMoreHandled(d, c, w, now, init, body);
      assert bodies == init + [body];
    }
  }

  lemma OneMoreHandled(d: Stage, c: Config, w: nat, now: nat, init: seq<Option<Entry>>, body: Option<Entry>)
    requires NamesOk(c) && w in d.workers && d.workers[w].at + |init| <= d.workers[w].last
    requires var t := Run(d, c, Handlings(w, now, init)); t.Some? && HandledSoFar(d, t.value, c, w, now, init)
    ensures
      var t := Run(d, c, Handlings(w, now, init + [body]));
      t.Some? && HandledSoFar(d, t.value, c, w, now, init + [body])
  {
    hide *;
    var t := Run(d, c, Handlings(w, now, init)).value;
    var a := if body.Some? then Emit(w, now, body.value, true) else Drop(w);
    HandlesOne(d, t, c, w, now, init, body);
    RunOneMore(d, c, Handlings(w, now, init), a);
    HandlingsLast(w, now, init + [body]);
    assert (init + [body])[..|init|] == init;
  }

  lemma HandlingsLast(w: nat, now: nat, bodies: seq<Option<Entry>>)
    requires bodies != []
    ensures
      var init, body := bodies[..|bodies| - 1], bodies[|bodies| - 1];
      Handlings(w, now, bodies) == Handlings(w, now, init) + [if body.Some? then Emit(w, now, body.value, true) else Drop(w)]
  {
  }

  lemma RunOneMore(s: Stage, c: Config, actions: seq<Action>, a: Action)
    requires Run(s, c, actions).Some? && Enabled(Run(s, c, actions).value, c, a)
    ensures Run(s, c, actions + [a]) == Some(Step(Run(s, c, actions).value, c, a))
  {
    assert (actions + [a])[..|actions|] == actions;
  }

  lemma HandlesOne(d: Stage, t: Stage, c: Config, w: nat, now: nat, init: seq<Option<Entry>>, body: Option<Entry>)
    requires NamesOk(c) && HandledSoFar(d, t, c, w, now, init) && d.workers[w].at + |init| <= d.workers[w].last
    ensures
      var a := if body.Some? then Emit(w, now, body.value, true) else Drop(w);
      Enabled(t, c, a) && HandledSoFar(d, Step(t, c, a), c, w, now, init + [body])
  {
    hide HandledSoFar, Step, Enabled;
    if body.Some? { EmitsOne(d, t, c, w, now, init, body.value); } else { DropsOne(d, t, c, w, now, init); }
  }

  lemma NothingHandled(d: Stage, c: Config, w: nat, now: nat)
    requires Inv(d, c) && w in d.workers && d.clock <= now && Receipt(d, c) < d.workers[w].at
    requires forall i | i in d.out :: i < d.workers[w].at
    ensures HandledSoFar(d, d, c, w, now, [])
  {
    assert LogOf(d.b, c.to) + [] == LogOf(d.b, c.to);
    assert d.workers[w].(at := d.workers[w].at + 0) == d.workers[w];
  }

  lemma OutputsAppend(init: seq<Option<Entry>>, body: Option<Entry>)
    ensures Outputs(init + [body]) == Outputs(init) + if body.Some? then [body.value] else []
  {
    assert (init + [body])[..|init|] == init;
  }

  lemma UsedAreOut(t: Stage, c: Config, i: nat)
    requires Inv(t, c) && i !in t.out
    ensures i !in t.used
  {
  }

  lemma EmitsOne(d: Stage, t: Stage, c: Config, w: nat, now: nat, init: seq<Option<Entry>>, body: Entry)
    requires NamesOk(c) && HandledSoFar(d, t, c, w, now, init) && d.workers[w].at + |init| <= d.workers[w].last
    ensures
      var a := Emit(w, now, body, true);
      Enabled(t, c, a) && HandledSoFar(d, Step(t, c, a), c, w, now, init + [Some(body)])
  {
    var a, i := Emit(w, now, body, true), t.workers[w].at;
    OutputsAppend(init, Some(body));
    EmitGoesOn(d, t, c, w, now, init);
    EmitDoes(t, c, w, now, body);
    EmitStep(t, c, a);
    hide Inv, Outputs, NamesOk, Step, Enabled, Receipt, LogOf;
    assert LogOf(t.b, c.to) + [body] == LogOf(d.b, c.to) + (Outputs(init) + [body]);
  }

  lemma EmitGoesOn(d: Stage, t: Stage, c: Config, w: nat, now: nat, init: seq<Option<Entry>>)
    requires HandledSoFar(d, t, c, w, now, init) && d.workers[w].at + |init| <= d.workers[w].last
    ensures w in t.workers && t.workers[w].at == d.workers[w].at + |init| <= t.workers[w].last && t.clock <= now
    ensures Inv(t, c) && t.workers[w].at !in t.out
  {
    hide Inv;
  }

  /** The first publish of an input's output, answered: appended, acknowledged, and the worker goes on. */
  lemma EmitDoes(t: Stage, c: Config, w: nat, now: nat, body: Entry)
    requires NamesOk(c) && Inv(t, c) && w in t.workers && t.workers[w].at <= t.workers[w].last && t.clock <= now
    requires t.workers[w].at !in t.out
    ensures
      var a, i := Emit(w, now, body, true), t.workers[w].at;
      && Enabled(t, c, a)
      && var s' := Step(t, c, a);
         && s'.start == t.start && s'.clock == now && s'.out == t.out + [i]
         && s'.workers == t.workers[w := t.workers[w].(at := i + 1)]
         && LogOf(s'.b, c.to) == LogOf(t.b, c.to) + [body] && Receipt(s', c) <= Max(Receipt(t, c), i)
  {
    var a, i := Emit(w, now, body, true), t.workers[w].at;
    hide Inv, Publish, NameValid, PipeKey, KeyFits, Safe, Findable;
    UsedAreOut(t, c, i);
    InvStarts(t, c, w);
    EmitStores(t, c, i, now, body);
  }

  lemma DropsOne(d: Stage, t: Stage, c: Config, w: nat, now: nat, init: seq<Option<Entry>>)
    requires HandledSoFar(d, t, c, w, now, init) && d.workers[w].at + |init| <= d.workers[w].last
    ensures Enabled(t, c, Drop(w)) && HandledSoFar(d, Step(t, c, Drop(w)), c, w, now, init + [None])
  {
    OutputsAppend(init, None);
    hide Inv, Outputs;
    LocalStep(t, c, Drop(w));
    assert Outputs(init) + [] == Outputs(init);
  }

  /**
   A batch nothing goes wrong with: delivered from just after the receipt, handled
   in order and answered for.  The output subject has gained exactly what the
   handler returned, in order, and the receipt stands at the end of the batch.
   */
  lemma BatchGoesThrough(s: Stage, c: Config, w: nat, now: nat, bodies: seq<Option<Entry>>)
    requires NamesOk(c) && Inv(s, c) && s.clock <= now && s.base <= Receipt(s, c) && bodies != []
    requires forall i | i in s.out :: i <= Receipt(s, c)
    ensures
      var last := Receipt(s, c) + |bodies|;
      var t := Run(s, c, [Deliver(w, last)] + Handlings(w, now, bodies) + [Settle(w)]);
      && t.Some? && LogOf(t.value.b, c.to) == LogOf(s.b, c.to) + Outputs(bodies)
      && Receipt(t.value, c) == last && w !in t.value.workers
  {
    var last := Receipt(s, c) + |bodies|;
    var d, hs := Deliver(w, last), Handlings(w, now, bodies);
    hide *;
    BatchStarts(s, c, w, last);
    var s1 := Step(s, c, d);
    HandlingsGoThrough(s1, c, w, now, bodies);
    var t := Run(s1, c, hs).value;
    BatchSettles(s1, t, c, w, now, bodies);
    RunThrough(s, c, d, hs, Settle(w));
  }

  lemma RunThrough(s: Stage, c: Config, first: Action, actions: seq<Action>, last: Action)
    requires Run(s, c, []) == Some(s) && Enabled(s, c, first) && Run(Step(s, c, first), c, actions).Some?
    requires Enabled(Run(Step(s, c, first), c, actions).value, c, last)
    ensures Run(s, c, [first] + actions + [last]) == Some(Step(Run(Step(s, c, first), c, actions).value, c, last))
  {
    hide *;
    RunOneMore(s, c, [], first);
    assert [] + [first] == [first];
    RunInTurn(s, c, [first], actions);
    RunOneMore(s, c, [first] + actions, last);
  }

  lemma BatchStarts(s: Stage, c: Config, w: nat, last: nat)
    requires Inv(s, c) && s.base <= Receipt(s, c) < last && forall i | i in s.out :: i <= Receipt(s, c)
    ensures Run(s, c, []) == Some(s) && Enabled(s, c, Deliver(w, last))
    ensures
      var s1 := Step(s, c, Deliver(w, last));
      && Inv(s1, c) && w in s1.workers && s1.workers[w] == Worker(Receipt(s, c) + 1, Receipt(s, c) + 1, last)
      && s1.clock == s.clock && Receipt(s1, c) == Receipt(s, c) && (forall i | i in s1.out :: i < s1.workers[w].at)
      && LogOf(s1.b, c.to) == LogOf(s.b, c.to)
  {
    LocalStep(s, c, Deliver(w, last));
    hide Inv;
  }

  lemma BatchSettles(d: Stage, t: Stage, c: Config, w: nat, now: nat, bodies: seq<Option<Entry>>)
    requires HandledSoFar(d, t, c, w, now, bodies) && bodies != [] && d.workers[w].at == d.workers[w].first
    ensures Enabled(t, c, Settle(w))
    ensures
      var t' := Step(t, c, Settle(w));
      && Receipt(t', c) == d.workers[w].at + |bodies| - 1 && w !in t'.workers
      && LogOf(t'.b, c.to) == LogOf(d.b, c.to) + Outputs(bodies)
  {
    hide Inv, Outputs;
  }

  /** What a key looks like. */
  lemma KeyExample()
    ensures PipeKey("c", "a.b", 1207) == "c.a.b.1207"
  {
    assert Dec(1207) == "1207" by {
      assert Dec(12) == "12" by { assert Dec(1) == "1"; }
      assert Dec(120) == "120";
    }
  }
}
