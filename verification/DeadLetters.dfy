/**
 Dead letters: the envelope a job leaves in its subject's dead-letter channel
 when it has used up its attempts, and what brings it back.
 */
module DeadLetters {
  import opened Options
  import opened Words
  import opened Queue
  import opened Names
  import opened Binjson
  import opened Visiting
  import PushModel

  const PLAIN: nat := 0x01
  const KEY_CAP: nat := 16

  datatype Entry = Entry(kind: nat, data: Bytes)

  /** The log holds base + 1, base + 2, ... */
  datatype Log = Log(base: nat, entries: seq<Entry>)

  type Logs = map<string, Log>

  function LogOf(logs: Logs, name: string): Log {
    if name in logs then logs[name] else Log(0, [])
  }

  function LastIndex(l: Log): nat { l.base + |l.entries| }

  function EntryAt(logs: Logs, name: string, index: nat): Option<Entry> {
    var l := LogOf(logs, name);
    if l.base < index <= LastIndex(l) then Some(l.entries[index - l.base - 1]) else None
  }

  /** bjm_publish */
  function Append(logs: Logs, name: string, e: Entry): Logs {
    var l := LogOf(logs, name);
    logs[name := l.(entries := l.entries + [e])]
  }

  // ---- the envelope ------------------------------------------------------------------

  datatype Slot = Subject | Group | Index | Attempts | FailedMs | Kind | Payload

  function KeyOf(slot: Slot): Bytes {
    match slot
    case Subject => Text("subject")
    case Group => Text("group")
    case Index => Text("index")
    case Attempts => Text("attempts")
    case FailedMs => Text("failed_ms")
    case Kind => Text("type")
    case Payload => Text("payload")
  }

  /** What is written about one job. */
  datatype Death = Death(subject: string, group: string, lease: Lease, now: nat, entry: Entry)

  function Parts(d: Death): seq<Field> {
    [Field(KeyOf(Subject), Str(Text(d.subject))),
     Field(KeyOf(Group), Str(Text(d.group))),
     Field(KeyOf(Index), Int(d.lease.index)),
     Field(KeyOf(Attempts), Int(d.lease.attempts)),
     Field(KeyOf(FailedMs), Int(d.now)),
     Field(KeyOf(Kind), Int(d.entry.kind)),
     Field(KeyOf(Payload), Binary(d.entry.data))]
  }

  function Envelope(d: Death): Value { Object(Parts(d)) }

  /** The envelope's bytes besides subject, group and message: its key lengths, keys, type bytes and numbers. */
  const OVERHEAD: nat := 124

  /** The builder can make this envelope: its numbers are signed 64-bit and its size is 32-bit. */
  predicate Writable(d: Death) {
    && d.lease.index < I63 && d.lease.attempts < I63 && d.now < I63 && d.entry.kind < I63
    && 4 + OVERHEAD + |d.subject| + |d.group| + |d.entry.data| < U32
  }

  /** One part: its key is short, and its size is known. */
  lemma PartSize(slot: Slot, v: Value)
    requires v.Int? || v.Str? || v.Binary?
    requires v.Int? ==> 0 <= v.i < I63
    requires (v.Str? ==> |v.text| < U32) && (v.Binary? ==> |v.blob| < U32)
    ensures var f := Field(KeyOf(slot), v);
            Shaped(v) && Fits(v) && |f.key| < KEY_CAP
            && |OneField(f)| == |f.key| + (if v.Int? then 13 else if v.Str? then 9 + |v.text| else 9 + |v.blob|)
  {
    assert LeafShaped(v);
  }

  lemma FieldsSize(fs: seq<Field>, k: nat)
    requires k < |fs| && Shaped(fs[k].value) && Fits(fs[k].value) && |fs[k].key| < U32 && FitFields(fs[k + 1..])
    ensures FitFields(fs[k..]) && |FieldBytes(fs[k..])| == |OneField(fs[k])| + |FieldBytes(fs[k + 1..])|
  {
    assert fs[k..][0] == fs[k] && fs[k..][1..] == fs[k + 1..];
    assert fs[k..] == [fs[k]] + fs[k + 1..];
  }

  lemma KeyLengths()
    ensures |KeyOf(Subject)| == |KeyOf(Payload)| == 7 && |KeyOf(Group)| == |KeyOf(Index)| == 5
    ensures |KeyOf(Attempts)| == 8 && |KeyOf(FailedMs)| == 9 && |KeyOf(Kind)| == 4
  {
  }

  /** Within those bounds the envelope is one the format can hold. */
  lemma WritableFits(d: Death)
    requires Writable(d)
    ensures Shaped(Envelope(d)) && Fits(Envelope(d))
    ensures |FieldBytes(Parts(d))| == OVERHEAD + |d.subject| + |d.group| + |d.entry.data|
  {
    PartSizes(d);
    var fs := Parts(d);
    hide Parts, Envelope, PartGood;
    SevenFit(fs);
    assert Envelope(d) == Object(fs) by { EnvelopeIs(d); }
    ObjectFits(fs);
  }

  lemma EnvelopeIs(d: Death)
    ensures Envelope(d) == Object(Parts(d)) && |Parts(d)| == 7
  {
  }

  /** A part the format can hold. */
  ghost predicate PartGood(f: Field) {
    Shaped(f.value) && Fits(f.value) && |f.key| < U32
  }

  lemma PartSizes(d: Death)
    requires Writable(d)
    ensures
      var fs := Parts(d);
      && |fs| == 7 && (forall k | 0 <= k < 7 :: PartGood(fs[k]))
      && |OneField(fs[0])| == 16 + |d.subject| && |OneField(fs[1])| == 14 + |d.group| && |OneField(fs[2])| == 18
      && |OneField(fs[3])| == 21 && |OneField(fs[4])| == 22 && |OneField(fs[5])| == 17 && |OneField(fs[6])| == 16 + |d.entry.data|
  {
    hide OneField, Fits, Shaped, KeyOf, Text;
    var fs := Parts(d);
    KeyLengths();
    PartSize(Subject, fs[0].value);
    PartSize(Group, fs[1].value);
    PartSize(Index, fs[2].value);
    PartSize(Attempts, fs[3].value);
    PartSize(FailedMs, fs[4].value);
    PartSize(Kind, fs[5].value);
    PartSize(Payload, fs[6].value);
  }

  lemma SevenFit(fs: seq<Field>)
    requires |fs| == 7 && forall k | 0 <= k < 7 :: PartGood(fs[k])
    ensures FitFields(fs)
    ensures |FieldBytes(fs)|
         == |OneField(fs[0])| + |OneField(fs[1])| + |OneField(fs[2])| + |OneField(fs[3])| + |OneField(fs[4])| + |OneField(fs[5])| + |OneField(fs[6])|
  {
    hide OneField, FieldBytes, Fits, Shaped, FitFields;
    NoBytes(fs[7..]);
    FieldsSize(fs, 6);
    FieldsSize(fs, 5);
    FieldsSize(fs, 4);
    FieldsSize(fs, 3);
    FieldsSize(fs, 2);
    FieldsSize(fs, 1);
    FieldsSize(fs, 0);
    assert fs[0..] == fs;
  }

  lemma NoBytes(fs: seq<Field>)
    requires fs == []
    ensures FitFields(fs) && FieldBytes(fs) == []
  {
  }

  lemma ObjectFits(fs: seq<Field>)
    requires FitFields(fs) && |fs| < U32 && 4 + |FieldBytes(fs)| < U32
    ensures Shaped(Object(fs)) && Fits(Object(fs))
  {
  }

  function Letter(d: Death): Entry
    requires Writable(d)
  {
    WritableFits(d);
    Entry(PLAIN, Encoding(Envelope(d)))
  }

  // ---- burying -----------------------------------------------------------------------

  /** One job that ran out of attempts: its envelope, if its entry is still there. */
  function BuryOne(logs: Logs, subject: string, group: string, lease: Lease, now: nat): Logs {
    var channel := DeadName(subject);
    var entry := EntryAt(logs, subject, lease.index);
    if channel.None? || entry.None? then logs
    else
      var d := Death(subject, group, lease, now, entry.value);
      if Writable(d) then Append(logs, channel.value, Letter(d)) else logs
  }

  /** The end of a take: every job that died in it, in order. */
  function BuryAll(logs: Logs, subject: string, group: string, dying: seq<Lease>, now: nat): Logs {
    if dying == [] then logs
    else BuryOne(BuryAll(logs, subject, group, dying[..|dying| - 1], now), subject, group, dying[|dying| - 1], now)
  }

  /** The dead-letter loop of bjm_take. */
  method PublishDead(logs: Logs, subject: string, group: string, dying: seq<Lease>, now: nat) returns (logs': Logs)
    ensures logs' == BuryAll(logs, subject, group, dying, now)
  {
    logs' := logs;
    var channel := DeadName(subject);
    if channel.None? {
      NoChannel(logs, subject, group, dying, now);
      return;
    }
    for i := 0 to |dying|
      invariant logs' == BuryAll(logs, subject, group, dying[..i], now)
    {
      assert dying[..i + 1][..i] == dying[..i];
      var entry := EntryAt(logs', subject, dying[i].index);
      if entry.Some? {
        var d := Death(subject, group, dying[i], now, entry.value);
        if Writable(d) { logs' := Append(logs', channel.value, Letter(d)); }
      }
    }
    assert dying[..|dying|] == dying;
  }

  lemma {:induction false} NoChannel(logs: Logs, subject: string, group: string, dying: seq<Lease>, now: nat)
    requires DeadName(subject).None?
    ensures BuryAll(logs, subject, group, dying, now) == logs
  {
    if dying != [] { NoChannel(logs, subject, group, dying[..|dying| - 1], now); }
  }

  // ---- one envelope each --------------------------------------------------------------

  /** The envelopes these deaths call for, told without running anything. */
  function Letters(logs: Logs, subject: string, group: string, dying: seq<Lease>, now: nat): (r: seq<Entry>)
    ensures |r| <= |dying|
  {
    if dying == [] then []
    else
      var lease := dying[|dying| - 1];
      var entry := EntryAt(logs, subject, lease.index);
      Letters(logs, subject, group, dying[..|dying| - 1], now) +
      if entry.None? || !Writable(Death(subject, group, lease, now, entry.value)) then []
      else [Letter(Death(subject, group, lease, now, entry.value))]
  }

  lemma ChannelApart(subject: string)
    requires DeadName(subject).Some?
    ensures DeadName(subject).value != subject
  {
  }

  /** Burying appends exactly those envelopes to the channel, in order, and touches nothing else. */
  lemma {:induction false} OneLetterEach(logs: Logs, subject: string, group: string, dying: seq<Lease>, now: nat)
    requires DeadName(subject).Some?
    ensures
      var channel, logs' := DeadName(subject).value, BuryAll(logs, subject, group, dying, now);
      && (forall name: string | name != channel :: LogOf(logs', name) == LogOf(logs, name))
      && LogOf(logs', channel).base == LogOf(logs, channel).base
      && LogOf(logs', channel).entries == LogOf(logs, channel).entries + Letters(logs, subject, group, dying, now)
  {
    hide DeadName, Writable, Letter;
    if dying != [] {
      var init := dying[..|dying| - 1];
      OneLetterEach(logs, subject, group, init, now);
      ChannelApart(subject);
      var mid := BuryAll(logs, subject, group, init, now);
      assert EntryAt(mid, subject, dying[|dying| - 1].index) == EntryAt(logs, subject, dying[|dying| - 1].index);
    }
  }

  /** When every envelope can be built there are as many as jobs that died and are still in the log. */
  lemma {:induction false} LettersCounted(logs: Logs, subject: string, group: string, dying: seq<Lease>, now: nat)
    requires forall e | e in dying && EntryAt(logs, subject, e.index).Some? ::
               Writable(Death(subject, group, e, now, EntryAt(logs, subject, e.index).value))
    ensures
      var l := LogOf(logs, subject);
      |Letters(logs, subject, group, dying, now)| == PushModel.CountLive(PushModel.Range(l.base, LastIndex(l)), dying)
  {
    if dying != [] {
      LettersCounted(logs, subject, group, dying[..|dying| - 1], now);
      assert dying[|dying| - 1] in dying;
    }
  }

  /** Every death still in the log has its envelope among them. */
  lemma {:induction false} LetterOf(logs: Logs, subject: string, group: string, dying: seq<Lease>, now: nat, k: nat) returns (at: nat)
    requires k < |dying| && EntryAt(logs, subject, dying[k].index).Some?
    requires Writable(Death(subject, group, dying[k], now, EntryAt(logs, subject, dying[k].index).value))
    ensures at < |Letters(logs, subject, group, dying, now)|
    ensures Letters(logs, subject, group, dying, now)[at]
         == Letter(Death(subject, group, dying[k], now, EntryAt(logs, subject, dying[k].index).value))
  {
    hide Writable, Letter, EntryAt;
    var init := dying[..|dying| - 1];
    if k == |dying| - 1 {
      at := |Letters(logs, subject, group, init, now)|;
    } else {
      at := LetterOf(logs, subject, group, init, now, k);
    }
  }

  // ---- what an envelope says -----------------------------------------------------------

  /** Read as an object, the entry has these seven fields and no others. */
  ghost predicate SaysOf(e: Entry, subject: string, group: string, lease: Lease, now: nat, entry: Entry) {
    var r := RawAt(e.data, 0);
    && e.kind == 1 && r.Good? && r.end == |e.data| && r.value.Object? && |r.value.fields| == 7
    && FieldOf(r.value.fields, Text("subject")) == Some(Str(Text(subject)))
    && FieldOf(r.value.fields, Text("group")) == Some(Str(Text(group)))
    && FieldOf(r.value.fields, Text("index")) == Some(Int(lease.index))
    && FieldOf(r.value.fields, Text("attempts")) == Some(Int(lease.attempts))
    && FieldOf(r.value.fields, Text("failed_ms")) == Some(Int(now))
    && FieldOf(r.value.fields, Text("type")) == Some(Int(entry.kind))
    && FieldOf(r.value.fields, Text("payload")) == Some(Binary(entry.data))
  }

  lemma FieldsFound(d: Death)
    ensures
      var fs := Parts(d);
      && FieldOf(fs, KeyOf(Subject)) == Some(fs[0].value) && FieldOf(fs, KeyOf(Group)) == Some(fs[1].value)
      && FieldOf(fs, KeyOf(Index)) == Some(fs[2].value) && FieldOf(fs, KeyOf(Attempts)) == Some(fs[3].value)
      && FieldOf(fs, KeyOf(FailedMs)) == Some(fs[4].value) && FieldOf(fs, KeyOf(Kind)) == Some(fs[5].value)
      && FieldOf(fs, KeyOf(Payload)) == Some(fs[6].value)
  {
    hide KeyOf;
    KeysApart();
    var fs := Parts(d);
    FieldAtPlace(fs, 0);
    FieldAtPlace(fs, 1);
    FieldAtPlace(fs, 2);
    FieldAtPlace(fs, 3);
    FieldAtPlace(fs, 4);
    FieldAtPlace(fs, 5);
    FieldAtPlace(fs, 6);
  }

  lemma LetterReads(d: Death)
    requires Writable(d)
    ensures Letter(d).kind == 1 && RawAt(Letter(d).data, 0) == Good(Envelope(d), |Letter(d).data|)
  {
    hide Parts;
    WritableFits(d);
    var data := Letter(d).data;
    assert data[0..0 + |data|] == data;
    DecodeInvertsEncode(data, 0, Envelope(d));
  }

  lemma LetterSays(d: Death)
    requires Writable(d)
    ensures SaysOf(Letter(d), d.subject, d.group, d.lease, d.now, d.entry)
  {
    hide FieldOf, Text, RawAt, Letter, Writable;
    LetterReads(d);
    FieldsFound(d);
  }

  /**
   What a take that buries a job leaves in the channel, read back: for each job
   that died and is still in the log, and whose envelope the format can hold, an
   entry naming its subject, group, index, attempts, time of death, type and bytes.
   */
  lemma LetterTells(logs: Logs, subject: string, group: string, dying: seq<Lease>, now: nat, k: nat) returns (at: nat)
    requires DeadName(subject).Some? && k < |dying| && EntryAt(logs, subject, dying[k].index).Some?
    requires
      var entry := EntryAt(logs, subject, dying[k].index).value;
      && dying[k].index < I63 && dying[k].attempts < I63 && now < I63 && entry.kind < I63
      && 128 + |subject| + |group| + |entry.data| < U32
    ensures
      var channel, logs' := DeadName(subject).value, BuryAll(logs, subject, group, dying, now);
      && LastIndex(LogOf(logs, channel)) < at && EntryAt(logs', channel, at).Some?
      && SaysOf(EntryAt(logs', channel, at).value, subject, group, dying[k], now, EntryAt(logs, subject, dying[k].index).value)
  {
    hide BuryAll, Letters, Letter, DeadName, SaysOf;
    var channel := DeadName(subject).value;
    OneLetterEach(logs, subject, group, dying, now);
    var i := LetterOf(logs, subject, group, dying, now, k);
    at := LastIndex(LogOf(logs, channel)) + 1 + i;
    LetterSays(Death(subject, group, dying[k], now, EntryAt(logs, subject, dying[k].index).value));
  }

  // ---- bringing it back -----------------------------------------------------------------

  /** What is pulled out of an envelope. */
  datatype Pulled = Pulled(key: Bytes, subject: Bytes, payload: Option<Bytes>, kind: nat)

  const NOTHING: Pulled := Pulled([], [], None, PLAIN)

  function CutText(text: Bytes): Bytes {
    if |text| > NAME_MAX then text[..NAME_MAX] else text
  }

  function On(p: Pulled, v: Visit): Pulled {
    match v
    case OnKey(k) => p.(key := CutKey(k, KEY_CAP))
    case OnString(text) => if p.key == KeyOf(Subject) then p.(subject := CutText(text)) else p
    case OnInt(i) => if p.key == KeyOf(Kind) && i >= 0 then p.(kind := AsDouble(i)) else p
    case OnBinary(blob) => if p.key == KeyOf(Payload) && p.payload.None? then p.(payload := Some(blob)) else p
    case _ => p
  }

  method PullAll(vs: seq<Visit>) returns (p: Pulled)
    ensures p == Fed(On, NOTHING, vs)
  {
    p := NOTHING;
    var i := 0;
    while i < |vs|
      invariant i <= |vs| && Fed(On, p, vs[i..]) == Fed(On, NOTHING, vs)
    {
      assert vs[i..][1..] == vs[i + 1..];
      p := On(p, vs[i]);
      i := i + 1;
    }
  }

  /** bjm_requeue: the logs after it and the new index, or nothing done. */
  function Requeued(logs: Logs, subject: string, at: nat): Option<(Logs, nat)> {
    var channel := DeadName(subject);
    if channel.None? then None
    else
      var record := EntryAt(logs, channel.value, at);
      if record.None? then None
      else
        var r := RawAt(record.value.data, 0);
        if r.Bad? then None
        else
          var p := Fed(On, NOTHING, Visits(r.value));
          if p.payload.None? || !NameValid(FromText(p.subject)) then None
          else
            var name := FromText(p.subject);
            Some((Append(logs, name, Entry(p.kind, p.payload.value)), LastIndex(LogOf(logs, name)) + 1))
  }

  method Requeue(logs: Logs, subject: string, at: nat) returns (r: Option<(Logs, nat)>)
    ensures r == Requeued(logs, subject, at)
  {
    var channel := DeadName(subject);
    if channel.None? { return None; }
    var record := EntryAt(logs, channel.value, at);
    if record.None? { return None; }
    var read := RawAt(record.value.data, 0);
    if read.Bad? { return None; }
    var p := PullAll(Visits(read.value));
    if p.payload.None? { return None; }
    var name := FromText(p.subject);
    if !NameValid(name) { return None; }
    return Some((Append(logs, name, Entry(p.kind, p.payload.value)), LastIndex(LogOf(logs, name)) + 1));
  }

  lemma KeysApart()
    ensures forall a: Slot, b: Slot | KeyOf(a) == KeyOf(b) :: a == b
    ensures forall a: Slot :: |KeyOf(a)| < KEY_CAP
  {
    forall a: Slot, b: Slot | KeyOf(a) == KeyOf(b) ensures a == b {
      assert |KeyOf(a)| == |KeyOf(b)|;
      assert KeyOf(Subject)[0] == 115 && KeyOf(Payload)[0] == 112;
      assert KeyOf(Group)[0] == 103 && KeyOf(Index)[0] == 105;
    }
  }

  predicate IsLeaf(v: Value) { v.Int? || v.Str? || v.Binary? }

  /** One part of an envelope: its key, then its value. */
  lemma PartArrives(p: Pulled, f: Field, rest: seq<Field>)
    requires IsLeaf(f.value)
    ensures Fed(On, p, FieldVisits([f] + rest)) == Fed(On, On(On(p, OnKey(f.key)), Visits(f.value)[0]), FieldVisits(rest))
  {
    hide On, KeyOf;
    var fs := [f] + rest;
    assert fs[0] == f && fs[1..] == rest;
    assert OneVisits(f) == [OnKey(f.key), Visits(f.value)[0]];
    TwoInTurn(On, p, OnKey(f.key), Visits(f.value)[0], FieldVisits(rest));
  }

  /** A part that is neither subject, type nor payload leaves no trace but its key. */
  lemma PartIgnored(p: Pulled, slot: Slot, v: Value)
    requires slot == Group || slot == Index || slot == Attempts || slot == FailedMs
    requires IsLeaf(v)
    ensures On(On(p, OnKey(KeyOf(slot))), Visits(v)[0]) == p.(key := KeyOf(slot))
  {
    KeysApart();
  }

  lemma PartKept(p: Pulled, d: Death)
    requires NameValid(d.subject) && d.entry.kind < DOUBLE_EXACT
    ensures On(On(p, OnKey(KeyOf(Subject))), Visits(Str(Text(d.subject)))[0]) == p.(key := KeyOf(Subject), subject := Text(d.subject))
    ensures On(On(p, OnKey(KeyOf(Kind))), Visits(Int(d.entry.kind))[0]) == p.(key := KeyOf(Kind), kind := d.entry.kind)
    ensures p.payload.None? ==>
              On(On(p, OnKey(KeyOf(Payload))), Visits(Binary(d.entry.data))[0])
              == p.(key := KeyOf(Payload), payload := Some(d.entry.data))
  {
    KeysApart();
    DoubleKeepsExactly(d.entry.kind);
  }

  lemma PartsArrive(d: Death)
    requires NameValid(d.subject) && d.entry.kind < DOUBLE_EXACT
    ensures Fed(On, NOTHING, FieldVisits(Parts(d)))
         == Pulled(KeyOf(Payload), Text(d.subject), Some(d.entry.data), d.entry.kind)
  {
    hide On, KeyOf, FieldVisits;
    var fs := Parts(d);
    var p0 := NOTHING.(key := KeyOf(Subject), subject := Text(d.subject));
    var p1, p2, p3, p4 := p0.(key := KeyOf(Group)), p0.(key := KeyOf(Index)), p0.(key := KeyOf(Attempts)), p0.(key := KeyOf(FailedMs));
    var p5 := p4.(key := KeyOf(Kind), kind := d.entry.kind);
    var p6 := p5.(key := KeyOf(Payload), payload := Some(d.entry.data));
    PartKept(NOTHING, d);
    PartKept(p4, d);
    PartKept(p5, d);
    PartIgnored(p0, Group, fs[1].value);
    PartIgnored(p1, Index, fs[2].value);
    PartIgnored(p2, Attempts, fs[3].value);
    PartIgnored(p3, FailedMs, fs[4].value);
    Following(fs, 0);
    Following(fs, 1);
    Following(fs, 2);
    Following(fs, 3);
    Following(fs, 4);
    Following(fs, 5);
    Following(fs, 6);
    PartArrives(NOTHING, fs[0], fs[1..]);
    PartArrives(p0, fs[1], fs[2..]);
    PartArrives(p1, fs[2], fs[3..]);
    PartArrives(p2, fs[3], fs[4..]);
    PartArrives(p3, fs[4], fs[5..]);
    PartArrives(p4, fs[5], fs[6..]);
    PartArrives(p5, fs[6], fs[7..]);
    NoVisits(fs[7..]);
  }

  lemma NoVisits(fs: seq<Field>)
    requires fs == []
    ensures FieldVisits(fs) == []
  {
  }

  lemma Following(fs: seq<Field>, k: nat)
    requires k < |fs|
    ensures fs[k..] == [fs[k]] + fs[k + 1..] && (k == 0 ==> fs[k..] == fs)
  {
  }

  lemma NameIsText(name: string)
    requires NameValid(name)
    ensures FromText(Text(name)) == name
  {
    forall c | c in name ensures c as int < 256 {
      var i :| 0 <= i < |name| && name[i] == c;
    }
    TextRoundTrip(name);
  }

  lemma BracesKeep()
    ensures forall p: Pulled :: On(p, ObjectBegin) == p && On(p, ObjectEnd) == p
  {
  }

  lemma EnvelopeArrives(d: Death)
    requires NameValid(d.subject) && d.entry.kind < DOUBLE_EXACT
    ensures Fed(On, NOTHING, Visits(Envelope(d))) == Pulled(KeyOf(Payload), Text(d.subject), Some(d.entry.data), d.entry.kind)
  {
    hide On, KeyOf, Fed, FieldVisits, Parts;
    BracesKeep();
    BracesIgnored(On, NOTHING, FieldVisits(Parts(d)));
    PartsArrive(d);
  }

  /** Reading an envelope gives back the job's subject, entry type and bytes. */
  lemma EnvelopeReads(d: Death)
    requires Writable(d) && NameValid(d.subject) && d.entry.kind < DOUBLE_EXACT
    ensures
      var r := RawAt(Letter(d).data, 0);
      && r.Good?
      && Fed(On, NOTHING, Visits(r.value)) == Pulled(KeyOf(Payload), Text(d.subject), Some(d.entry.data), d.entry.kind)
  {
    hide On, KeyOf, Fed, FieldVisits, Parts;
    WritableFits(d);
    var data := Letter(d).data;
    assert data[0..0 + |data|] == data;
    DecodeInvertsEncode(data, 0, Envelope(d));
    EnvelopeArrives(d);
  }

  /**
   Requeueing undoes burying.  Wherever in the dead-letter channel an envelope
   sits, whatever else happened since, requeueing it appends the identical
   entry to the subject it came from, at a new index, and changes nothing else.
   */
  lemma RequeueRestores(logs: Logs, d: Death, at: nat)
    requires NameValid(d.subject) && Writable(d) && d.entry.kind < DOUBLE_EXACT
    requires DeadName(d.subject).Some?
    requires EntryAt(logs, DeadName(d.subject).value, at) == Some(Letter(d))
    ensures
      var index := LastIndex(LogOf(logs, d.subject)) + 1;
      && Requeued(logs, d.subject, at) == Some((Append(logs, d.subject, d.entry), index))
      && EntryAt(Append(logs, d.subject, d.entry), d.subject, index) == Some(d.entry)
  {
    hide Fed, Visits, RawAt, Encoding, Envelope, NameValid, DeadName, KeyOf, Writable;
    EnvelopeReads(d);
    NameIsText(d.subject);
    AppendedLast(logs, d.subject, d.entry);
  }

  lemma AppendedLast(logs: Logs, name: string, e: Entry)
    ensures EntryAt(Append(logs, name, e), name, LastIndex(LogOf(logs, name)) + 1) == Some(e)
  {
  }

  /**
   The whole way: a take buries a job, and requeueing its envelope puts the
   same bytes and type back behind everything the subject holds.
   */
  lemma DeadLetterRoundTrip(logs: Logs, subject: string, group: string, dying: seq<Lease>, now: nat, k: nat)
    returns (at: nat)
    requires NameValid(subject) && DeadName(subject).Some? && k < |dying|
    requires EntryAt(logs, subject, dying[k].index).Some?
    requires var entry := EntryAt(logs, subject, dying[k].index).value;
             entry.kind < DOUBLE_EXACT && Writable(Death(subject, group, dying[k], now, entry))
    ensures
      var entry := EntryAt(logs, subject, dying[k].index).value;
      var logs' := BuryAll(logs, subject, group, dying, now);
      && at > LastIndex(LogOf(logs, DeadName(subject).value))
      && Requeued(logs', subject, at)
         == Some((Append(logs', subject, entry), LastIndex(LogOf(logs, subject)) + 1))
  {
    hide BuryAll, Letters, Letter, Requeued, Writable, DeadName, NameValid, Append;
    var channel := DeadName(subject).value;
    OneLetterEach(logs, subject, group, dying, now);
    ChannelApart(subject);
    var i := LetterOf(logs, subject, group, dying, now, k);
    at := LastIndex(LogOf(logs, channel)) + 1 + i;
    RequeueRestores(BuryAll(logs, subject, group, dying, now),
                    Death(subject, group, dying[k], now, EntryAt(logs, subject, dying[k].index).value), at);
  }

  // ---- envelopes written by anybody ------------------------------------------------------------

  /** A record in the channel that says where a message goes and what it is, and no more. */
  function Note(name: string, data: Bytes): Value {
    Object([Field(Text("subject"), Str(Text(name))), Field(Text("payload"), Binary(data))])
  }

  lemma NoteArrives(name: string, data: Bytes)
    requires |name| <= NAME_MAX
    ensures
      var p := Fed(On, NOTHING, Visits(Note(name, data)));
      p.subject == Text(name) && p.payload == Some(data) && p.kind == 1
  {
    hide FieldVisits, Fed;
    var f, g := Field(KeyOf(Subject), Str(Text(name))), Field(KeyOf(Payload), Binary(data));
    BracesKeep();
    BracesIgnored(On, NOTHING, FieldVisits([f] + [g]));
    PartArrives(NOTHING, f, [g]);
    assert [g] + [] == [g] && Note(name, data) == Object([f] + [g]);
    PartArrives(On(On(NOTHING, OnKey(f.key)), Visits(f.value)[0]), g, []);
    NoMoreVisits(On(On(On(On(NOTHING, OnKey(f.key)), Visits(f.value)[0]), OnKey(g.key)), Visits(g.value)[0]));
    KeysApart();
  }

  lemma NoMoreVisits(p: Pulled)
    ensures Fed(On, p, FieldVisits([])) == p
  {
  }

  /**
   Requeueing goes by the envelope, not by the channel it was found in: to the
   subject it names, as a plain message where it names no type.  A name that is no
   subject's is refused.
   */
  lemma RequeueFollowsNote(logs: Logs, asked: string, at: nat, name: string, data: Bytes)
    requires DeadName(asked).Some? && EntryAt(logs, DeadName(asked).value, at).Some? && |name| <= NAME_MAX
    requires
      var e := EntryAt(logs, DeadName(asked).value, at).value;
      RawAt(e.data, 0).Good? && RawAt(e.data, 0).value == Note(name, data)
    requires forall c | c in name :: c as int < 256
    ensures
      Requeued(logs, asked, at)
      == if NameValid(name) then Some((Append(logs, name, Entry(1, data)), LastIndex(LogOf(logs, name)) + 1)) else None
  {
    hide Fed, Visits, RawAt, DeadName, NameValid, Note;
    NoteArrives(name, data);
    TextRoundTrip(name);
  }

  /** Nothing is requeued from a subject without a channel, from an index the channel does not hold, or from bytes that are no record. */
  lemma RequeueRefuses(logs: Logs, subject: string, at: nat)
    requires
      || DeadName(subject).None?
      || EntryAt(logs, DeadName(subject).value, at).None?
      || RawAt(EntryAt(logs, DeadName(subject).value, at).value.data, 0).Bad?
      || RawAt(EntryAt(logs, DeadName(subject).value, at).value.data, 0).value.Str?
    ensures Requeued(logs, subject, at).None?
  {
    hide DeadName, RawAt;
    assert forall text :: Fed(On, NOTHING, [OnString(text)]) == On(NOTHING, OnString(text)) by {
      forall text ensures Fed(On, NOTHING, [OnString(text)]) == On(NOTHING, OnString(text)) { assert [OnString(text)][1..] == []; }
    }
  }
}
