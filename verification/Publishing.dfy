/**
 The publish handler of src/server.c: dedup lookup, append, record, and the
 acknowledgement of an input riding along, in that order.
 */
module Publishing {
  import opened Options
  import opened Dedup
  import opened Names
  import opened Receipts
  import opened Words

  const ID_MAX: nat := 128

  type Payload = seq<nat>

  /** An entry of a subject's log: its type byte and its bytes. */
  datatype Entry = Entry(kind: nat, body: Payload)

  datatype Ack = Ack(subject: string, consumer: string, index: nat)

  datatype Request = Request(now: nat, subject: string, entry: Entry, id: Option<string>, ack: Option<Ack>)

  datatype Reply = Accepted(index: nat, duplicate: bool, acked: bool) | BadRequest

  /** Logs start at index 1, so a log's length is its last index. */
  datatype Broker = Broker(dd: Index, logs: map<string, seq<Entry>>, receipts: map<string, nat>)

  /** bjm_dedup_id_valid. */
  predicate IdValid(id: string) {
    0 < |id| <= ID_MAX && forall i | 0 <= i < |id| :: id[i] != '/' && id[i] as int >= 0x20 && id[i] as int != 0x7f
  }

  function LogOf(b: Broker, subject: string): seq<Entry> {
    if subject in b.logs then b.logs[subject] else []
  }

  function Append(b: Broker, subject: string, entry: Entry): Broker {
    b.(logs := b.logs[subject := LogOf(b, subject) + [entry]])
  }

  /** Lookup, append, record: the part that decides the index. */
  function Store(b: Broker, r: Request): (Broker, nat, bool) {
    if r.id.None? then
      var b1 := Append(b, r.subject, r.entry);
      (b1, |b1.logs[r.subject]|, false)
    else
      var key := JoinKey(r.subject, r.id.value);
      var (dd, found) := Lookup(b.dd, r.now, key);
      if found.Some? then (b.(dd := dd), found.value, true)
      else
        var b1 := Append(b.(dd := dd), r.subject, r.entry);
        var index := |b1.logs[r.subject]|;
        (b1.(dd := Record(dd, key, index)), index, false)
  }

  /** query_get: a value too long for its buffer reads as if it were not there. */
  function QueryGet(value: Option<string>, max: nat): Option<string> {
    if value.Some? && |value.value| <= max then value else None
  }

  predicate AckFits(a: Ack) { |a.subject| <= NAME_MAX && |a.consumer| <= NAME_MAX }

  /** A request as the handler reads it. */
  function AsRead(r: Request): Request {
    r.(id := QueryGet(r.id, ID_MAX), ack := if r.ack.Some? && AckFits(r.ack.value) then r.ack else None)
  }

  predicate WantsAck(r: Request) { r.ack.Some? && r.ack.value.index > 0 }

  predicate AckValid(a: Ack) { NameValid(a.subject) && NameValid(a.consumer) }

  function Publish(b: Broker, request: Request): (Broker, Reply) {
    var r := AsRead(request);
    if r.id.Some? && !IdValid(r.id.value) then (b, BadRequest)
    else
      var (b1, index, duplicate) := Store(b, r);
      if !WantsAck(r) then (b1, Accepted(index, duplicate, false))
      else
        var a := r.ack.value;
        // The message is in by now: a bad acknowledgement does not undo it.
        if !AckValid(a) then (b1, BadRequest)
        else (b1.(receipts := CursorSet(b1.receipts, JoinKey(a.subject, a.consumer), a.index)),
              Accepted(index, duplicate, true))
  }

  /** The handler's effects, one after the other. */
  class Server {
    const dedup: DedupIndex
    var logs: map<string, seq<Entry>>
    var receipts: map<string, nat>

    ghost predicate Valid()
      reads this, dedup
    {
      dedup.Valid()
    }

    function State(): Broker
      requires Valid()
      reads this, dedup, dedup.dd
    {
      Broker(dedup.State(), logs, receipts)
    }

    constructor (now: nat, window: nat)
      ensures Valid() && fresh(dedup) && fresh(dedup.dd)
      ensures State() == Broker(Index(map[], map[], now, if window != 0 then window else 120000), map[], map[])
    {
      dedup := new DedupIndex(now, window);
      logs, receipts := map[], map[];
    }

    method AppendEntry(subject: string, entry: Entry) returns (index: nat)
      requires Valid()
      modifies this`logs
      ensures Valid() && State() == Append(old(State()), subject, entry)
      ensures index == |logs[subject]|
    {
      var was := if subject in logs then logs[subject] else [];
      logs := logs[subject := was + [entry]];
      index := |was| + 1;
    }

    method HandlePublish(request: Request) returns (reply: Reply)
      requires Valid()
      modifies this`logs, this`receipts, dedup`gen, dedup`rotatedMs, dedup.dd
      ensures Valid() && (State(), reply) == Publish(old(State()), request)
    {
      var r := AsRead(request);
      if r.id.Some? && !IdValid(r.id.value) { return BadRequest; }
      ghost var b := State();
      var found := None;
      if r.id.Some? { found := dedup.LookupId(r.now, JoinKey(r.subject, r.id.value)); }
      var index, duplicate := 0, found.Some?;
      if found.Some? {
        index := found.value;
      } else {
        index := AppendEntry(r.subject, r.entry);
        if r.id.Some? { dedup.RecordId(JoinKey(r.subject, r.id.value), index); }
      }
      assert (State(), index, duplicate) == Store(b, r);
      if !WantsAck(r) { return Accepted(index, duplicate, false); }
      var a := r.ack.value;
      if !AckValid(a) { return BadRequest; }
      var key := JoinKey(a.subject, a.consumer);
      if !(key in receipts && a.index <= receipts[key]) { receipts := receipts[key := a.index]; }
      return Accepted(index, duplicate, true);
    }
  }

  /** An id past 128 bytes is no id: the message is appended, known or not, and nothing is remembered. */
  lemma LongIdIsNone(b: Broker, r: Request)
    requires r.id.Some? && |r.id.value| > ID_MAX
    ensures Publish(b, r) == Publish(b, r.(id := None))
    ensures
      var (b', reply) := Publish(b, r);
      && b'.logs == b.logs[r.subject := LogOf(b, r.subject) + [r.entry]] && b'.dd == b.dd
      && (reply.Accepted? ==> !reply.duplicate && reply.index == |LogOf(b, r.subject)| + 1)
  {
    hide NameValid;
    assert AsRead(r) == AsRead(r.(id := None));
  }

  // ---- idempotent publishing ---------------------------------------------------

  /** Findable until a window after `t`, as seen from a clock that has reached `clock`. */
  ghost predicate Safe(dd: Index, k: Key, i: nat, t: nat, clock: nat) {
    clock <= t + dd.window ==> Live(dd, k, i, t)
  }

  lemma {:induction false} OtherStoreKeepsSafe(b: Broker, r: Request, k: Key, i: nat, t: nat, clock: nat)
    requires b.dd.rotated <= clock && t <= clock <= r.now && Safe(b.dd, k, i, t, clock)
    requires r.id.Some? ==> JoinKey(r.subject, r.id.value) != k
    ensures Safe(Publish(b, r).0.dd, k, i, t, r.now)
    ensures Publish(b, r).0.dd.window == b.dd.window && Publish(b, r).0.dd.rotated <= r.now
  {
    PublishedIndex(b, r);
    if r.id.Some? {
      var key, index := JoinKey(r.subject, r.id.value), |LogOf(b, r.subject)| + 1;
      LookupRotates(b.dd, r.now, key, index);
      if r.now <= t + b.dd.window {
        LookupKeepsLive(b.dd, r.now, key, k, i, t);
        RecordKeepsLive(Lookup(b.dd, r.now, key).0, key, index, k, i, t);
      }
    }
    hide Publish, Lookup, Record, Live;
  }

  lemma LookupRotates(dd: Index, now: nat, asked: Key, index: nat)
    ensures Record(Lookup(dd, now, asked).0, asked, index).window == Lookup(dd, now, asked).0.window == dd.window
    ensures dd.rotated <= now ==> Lookup(dd, now, asked).0.rotated <= now
    ensures Record(Lookup(dd, now, asked).0, asked, index).rotated == Lookup(dd, now, asked).0.rotated
  {
  }

  /** The dedup index after a publish: as it was, or looked up in, or with a record added. */
  lemma PublishedIndex(b: Broker, r: Request)
    ensures
      var dd := Publish(b, r).0.dd;
      || dd == b.dd
      || (r.id.Some? && var key := JoinKey(r.subject, r.id.value);
          || dd == Lookup(b.dd, r.now, key).0
          || dd == Record(Lookup(b.dd, r.now, key).0, key, |LogOf(b, r.subject)| + 1))
  {
    hide IdValid, NameValid, JoinKey, Lookup, Record, CursorSet;
  }

  lemma SameStoreIsDuplicate(b: Broker, r: Request, i: nat, t: nat, clock: nat)
    requires r.id.Some? && IdValid(r.id.value) && b.dd.rotated <= clock && t <= clock <= r.now <= t + b.dd.window
    requires Safe(b.dd, JoinKey(r.subject, r.id.value), i, t, clock)
    ensures
      var (b', index, duplicate) := Store(b, r);
      && duplicate && index == i && b'.logs == b.logs
      && Safe(b'.dd, JoinKey(r.subject, r.id.value), i, r.now, r.now)
      && b'.dd.window == b.dd.window && b'.dd.rotated <= r.now
  {
    LookupKeepsLive(b.dd, r.now, JoinKey(r.subject, r.id.value), JoinKey(r.subject, r.id.value), i, t);
  }

  lemma FreshStoreIsSafe(b: Broker, r: Request)
    requires r.id.Some? && b.dd.rotated <= r.now && 0 < b.dd.window
    requires Lookup(b.dd, r.now, JoinKey(r.subject, r.id.value)).1.None?
    ensures
      var (b', index, duplicate) := Store(b, r);
      && !duplicate && index == |LogOf(b, r.subject)| + 1
      && b'.logs == b.logs[r.subject := LogOf(b, r.subject) + [r.entry]]
      && Safe(b'.dd, JoinKey(r.subject, r.id.value), index, r.now, r.now)
      && b'.dd.window == b.dd.window && b'.dd.rotated <= r.now
  {
    RecordIsLive(b.dd, r.now, JoinKey(r.subject, r.id.value), |LogOf(b, r.subject)| + 1);
  }

  function Publishes(b: Broker, rs: seq<Request>): Broker {
    if rs == [] then b else Publish(Publishes(b, rs[..|rs| - 1]), rs[|rs| - 1]).0
  }

  predicate Same(r: Request, subject: string, id: string) { r.subject == subject && r.id == Some(id) }

  /** When (subject, id) was last published in `rs`, whose first request is one. */
  function LastUse(rs: seq<Request>, subject: string, id: string): nat
    requires rs != []
  {
    if |rs| == 1 || Same(rs[|rs| - 1], subject, id) then rs[|rs| - 1].now
    else LastUse(rs[..|rs| - 1], subject, id)
  }

  ghost predicate InOrder(rs: seq<Request>) {
    forall a, b | 0 <= a < b < |rs| :: rs[a].now <= rs[b].now
  }

  /** Every repeat comes within one window of the use before it. */
  ghost predicate Punctual(rs: seq<Request>, subject: string, id: string, window: nat) {
    forall n | 1 <= n < |rs| && Same(rs[n], subject, id) :: rs[n].now <= LastUse(rs[..n], subject, id) + window
  }

  ghost predicate SubjectsPlain(rs: seq<Request>) {
    forall n | 0 <= n < |rs| :: '/' !in rs[n].subject
  }

  /** A run that opens with an unknown (subject, id) and repeats it punctually. */
  ghost predicate Repeats(b: Broker, rs: seq<Request>, id: string) {
    && rs != [] && Same(rs[0], rs[0].subject, id) && IdValid(id)
    && SubjectsPlain(rs) && InOrder(rs) && Punctual(rs, rs[0].subject, id, b.dd.window)
    && b.dd.rotated <= rs[0].now && 0 < b.dd.window
    && Lookup(b.dd, rs[0].now, JoinKey(rs[0].subject, id)).1.None?
  }

  lemma PrefixRepeats(b: Broker, rs: seq<Request>, id: string, n: nat)
    requires Repeats(b, rs, id) && 0 < n <= |rs|
    ensures Repeats(b, rs[..n], id)
  {
    var init := rs[..n];
    assert forall m | 0 <= m < n :: init[m] == rs[m] && init[..m] == rs[..m];
  }

  /** At `clock`, the broker still knows (subject, id) as index `i`, last used at `t`. */
  ghost predicate Knows(b: Broker, key: Key, i: nat, t: nat, clock: nat, window: nat) {
    t <= clock && b.dd.window == window && b.dd.rotated <= clock && Safe(b.dd, key, i, t, clock)
  }

  lemma KnowsStep(b: Broker, r: Request, subject: string, id: string, i: nat, t: nat, clock: nat, window: nat)
    requires Knows(b, JoinKey(subject, id), i, t, clock, window) && clock <= r.now
    requires IdValid(id) && '/' !in subject && '/' !in r.subject
    requires Same(r, subject, id) ==> r.now <= t + window
    ensures Knows(Publish(b, r).0, JoinKey(subject, id), i, if Same(r, subject, id) then r.now else t, r.now, window)
  {
    if Same(r, subject, id) {
      SameStoreIsDuplicate(b, r, i, t, clock);
    } else {
      if r.id.Some? && JoinKey(r.subject, r.id.value) == JoinKey(subject, id) {
        JoinKeyInjective(r.subject, r.id.value, subject, id);
        assert false;
      }
      OtherStoreKeepsSafe(b, r, JoinKey(subject, id), i, t, clock);
    }
  }

  lemma {:induction false} PublishesRemember(b: Broker, rs: seq<Request>, id: string)
    requires Repeats(b, rs, id)
    ensures Knows(Publishes(b, rs), JoinKey(rs[0].subject, id), |LogOf(b, rs[0].subject)| + 1,
                  LastUse(rs, rs[0].subject, id), rs[|rs| - 1].now, b.dd.window)
  {
    var subject, r, init := rs[0].subject, rs[|rs| - 1], rs[..|rs| - 1];
    if |rs| == 1 {
      assert Publishes(b, init) == b;
      FreshStoreIsSafe(b, r);
    } else {
      PrefixRepeats(b, rs, id, |init|);
      PublishesRemember(b, init, id);
      assert init[|init| - 1].now <= r.now;
      KnowsStep(Publishes(b, init), r, subject, id, |LogOf(b, subject)| + 1,
                LastUse(init, subject, id), init[|init| - 1].now, b.dd.window);
    }
  }

  // ---- what a publish answers -------------------------------------------------------

  /** An acknowledgement the handler acts on: an index, and names that fit. */
  predicate Acks(r: Request) {
    r.ack.Some? && r.ack.value.index > 0 && |r.ack.value.subject| <= 128 && |r.ack.value.consumer| <= 128
  }

  predicate AckNamesValid(r: Request) {
    Acks(r) ==> NameValid(r.ack.value.subject) && NameValid(r.ack.value.consumer)
  }

  /** What a publish does besides its message: a valid acknowledgement moves that receipt forward, to its index at least, and nothing else. */
  ghost predicate ReceiptsMoved(b: Broker, b': Broker, r: Request) {
    if Acks(r) && AckNamesValid(r) then
      var key := r.ack.value.subject + "/" + r.ack.value.consumer;
      && key in b'.receipts
      && b'.receipts[key] == (if key in b.receipts then Max(b.receipts[key], r.ack.value.index) else r.ack.value.index)
      && forall other | other != key :: (other in b'.receipts <==> other in b.receipts)
                                        && (other in b.receipts ==> b'.receipts[other] == b.receipts[other])
    else b'.receipts == b.receipts
  }

  /** The reply to a publish that stored its message at `index`, or found it there. */
  predicate Answers(reply: Reply, r: Request, index: nat, duplicate: bool) {
    if AckNamesValid(r) then reply == Accepted(index, duplicate, Acks(r)) else reply == BadRequest
  }

  /** A publish without an id, or with one too long to be read: appended, and answered with where it stands. */
  lemma PlainPublish(b: Broker, r: Request)
    requires r.id.Some? ==> |r.id.value| > 128
    ensures
      var (b', reply) := Publish(b, r);
      && b'.logs == b.logs[r.subject := LogOf(b, r.subject) + [r.entry]] && b'.dd == b.dd && ReceiptsMoved(b, b', r)
      && Answers(reply, r, |LogOf(b, r.subject)| + 1, false)
  {
    hide NameValid;
    KeyShape(r);
  }

  lemma KeyShape(r: Request)
    ensures r.ack.Some? ==> JoinKey(r.ack.value.subject, r.ack.value.consumer) == r.ack.value.subject + "/" + r.ack.value.consumer
  {
  }

  /** An id that reads but is not valid: refused, with nothing done. */
  lemma BadIdRefused(b: Broker, r: Request)
    requires r.id.Some? && |r.id.value| <= 128
    requires r.id.value == "" || exists c | c in r.id.value :: c == '/' || c as int < 32 || c as int == 127
    ensures Publish(b, r) == (b, BadRequest)
  {
    if r.id.value != "" {
      var c :| c in r.id.value && (c == '/' || c as int < 32 || c as int == 127);
      var i :| 0 <= i < |r.id.value| && r.id.value[i] == c;
    }
  }

  /** A publish under a valid id, whichever way the lookup goes. */
  lemma IdPublish(b: Broker, r: Request)
    requires r.id.Some? && 0 < |r.id.value| <= 128
    requires forall i | 0 <= i < |r.id.value| :: r.id.value[i] != '/' && r.id.value[i] as int >= 32 && r.id.value[i] as int != 127
    ensures
      var (b', reply) := Publish(b, r);
      var (s, index, duplicate) := Store(b, r);
      && b'.logs == s.logs && b'.dd == s.dd && ReceiptsMoved(b, b', r) && Answers(reply, r, index, duplicate)
  {
    hide NameValid;
    KeyShape(r);
  }

  /**
   Repeating a publish is harmless.  However the repeats are interleaved with
   other traffic, as long as each comes within a window of the one before it,
   every one of them is answered with the index of the first, says it is a
   duplicate and appends nothing; the first one appends its message and says it
   is none.  An acknowledgement riding along is acted on each time.
   */
  lemma IdempotentPublish(b: Broker, rs: seq<Request>, id: string, n: nat)
    requires Repeats(b, rs, id)
    requires n < |rs| && Same(rs[n], rs[0].subject, id)
    ensures
      var before := Publishes(b, rs[..n]);
      var (b', reply) := Publish(before, rs[n]);
      && Answers(reply, rs[n], |LogOf(b, rs[0].subject)| + 1, n > 0)
      && b'.logs == (if n > 0 then before.logs else b.logs[rs[0].subject := LogOf(b, rs[0].subject) + [rs[0].entry]])
      && ReceiptsMoved(before, b', rs[n])
  {
    IdPublish(Publishes(b, rs[..n]), rs[n]);
    hide Answers, ReceiptsMoved, NameValid;
    if n == 0 {
      assert rs[..0] == [];
      FreshStoreIsSafe(b, rs[0]);
    } else {
      var init := rs[..n];
      PrefixRepeats(b, rs, id, n);
      PublishesRemember(b, init, id);
      assert init[n - 1].now <= rs[n].now;
      SameStoreIsDuplicate(Publishes(b, init), rs[n], |LogOf(b, rs[0].subject)| + 1,
                           LastUse(init, rs[0].subject, id), init[n - 1].now);
    }
  }
}
