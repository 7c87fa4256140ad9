/** A queue group's record on its way to storage and back (queue_store, queue_load). */
module QueueRecord {
  import opened Options
  import opened Queue
  import opened Binjson
  import opened Visiting

  const KEY_CAP: nat := 32

  // ---- storing ---------------------------------------------------------------------

  /** The table as the flat array it is: index, expiry, attempts, index, ... */
  function Flat(fl: seq<Lease>): (r: seq<nat>)
    ensures |r| == 3 * |fl|
  {
    if fl == [] then [] else [fl[0].index, fl[0].expires, fl[0].attempts] + Flat(fl[1..])
  }

  function Triples(xs: seq<nat>): (r: seq<Lease>)
    ensures |r| == |xs| / 3
    decreases |xs|
  {
    if |xs| < 3 then [] else [Lease(xs[0], xs[1], xs[2])] + Triples(xs[3..])
  }

  function Ints(xs: seq<nat>): (r: seq<Value>)
    ensures |r| == |xs|
    ensures forall v | v in r :: v.Int?
  {
    if xs == [] then [] else [Int(xs[0])] + Ints(xs[1..])
  }

  /** The keys of a stored record. */
  datatype Slot = Next | LeaseMs | MaxAttempts | DeadTotal | BackoffMs | MaxBackoffMs | Inflight | DeadList

  function KeyOf(slot: Slot): Bytes {
    match slot
    case Next => Text("next")
    case LeaseMs => Text("lease_ms")
    case MaxAttempts => Text("max_attempts")
    case DeadTotal => Text("dead_total")
    case BackoffMs => Text("backoff_ms")
    case MaxBackoffMs => Text("max_backoff_ms")
    case Inflight => Text("inflight")
    case DeadList => Text("dead")
  }

  function Scalars(q: QRec): seq<Field> {
    [Field(KeyOf(Next), Int(q.next)),
     Field(KeyOf(LeaseMs), Int(q.leaseMs)),
     Field(KeyOf(MaxAttempts), Int(q.maxAttempts)),
     Field(KeyOf(DeadTotal), Int(q.deadTotal)),
     Field(KeyOf(BackoffMs), Int(q.backoffMs)),
     Field(KeyOf(MaxBackoffMs), Int(q.maxBackoffMs))]
  }

  function Arrays(q: QRec): seq<Field> {
    [Field(KeyOf(Inflight), Array(Ints(Flat(q.fl)))), Field(KeyOf(DeadList), Array(Ints(q.dead)))]
  }

  function Stored(q: QRec): Value {
    Object(Scalars(q) + Arrays(q))
  }

  // ---- loading ---------------------------------------------------------------------

  /** The record being filled in; `inArray` is 1 inside the lease table, 2 inside the dead list. */
  datatype Loading = Loading(
    key: Bytes, inArray: nat, fl: seq<nat>, dead: seq<nat>,
    next: nat, leaseMs: nat, maxAttempts: nat, deadTotal: nat, backoffMs: nat, maxBackoffMs: nat)

  const EMPTY: Loading := Loading([], 0, [], [], 0, 0, 0, 0, 0, 0)

  function OnKeyOf(s: Loading, key: Bytes): Loading {
    var k := CutKey(key, KEY_CAP);
    s.(key := k, inArray := if k == KeyOf(Inflight) then 1 else if k == KeyOf(DeadList) then 2 else 0)
  }

  function OnIntOf(s: Loading, i: int): Loading {
    var v := if i < 0 then 0 else AsDouble(i);
    if s.inArray == 1 then
      if |s.fl| < INFLIGHT_MAX * 3 then s.(fl := s.fl + [v]) else s
    else if s.inArray == 2 then
      if |s.dead| < DEAD_MAX then s.(dead := s.dead + [v]) else s
    else if s.key == KeyOf(Next) then s.(next := v)
    else if s.key == KeyOf(LeaseMs) then s.(leaseMs := v)
    else if s.key == KeyOf(MaxAttempts) then s.(maxAttempts := v)
    else if s.key == KeyOf(DeadTotal) then s.(deadTotal := v)
    else if s.key == KeyOf(BackoffMs) then s.(backoffMs := v)
    else if s.key == KeyOf(MaxBackoffMs) then s.(maxBackoffMs := v)
    else s
  }

  function On(s: Loading, v: Visit): Loading {
    match v
    case OnKey(k) => OnKeyOf(s, k)
    case OnInt(i) => OnIntOf(s, i)
    case ArrayEnd => s.(inArray := 0)
    case _ => s
  }

  /** Whole triples only. */
  function Filled(s: Loading): QRec {
    QRec(s.next, s.leaseMs, s.maxAttempts, s.backoffMs, s.maxBackoffMs,
         Triples(s.fl[..|s.fl| - |s.fl| % 3]), s.deadTotal, s.dead)
  }

  function Load(d: Bytes): Option<QRec> {
    var r := RawAt(d, 0);
    if r.Bad? then None else Some(Filled(Fed(On, EMPTY, Visits(r.value))))
  }

  /** The loader's own form: a fixed table and counters, filled in by callbacks. */
  class Loader {
    var key: Bytes
    var inArray: nat
    const fl: array<nat>
    var nfl: nat
    const dead: array<nat>
    var ndead: nat
    var next: nat
    var leaseMs: nat
    var maxAttempts: nat
    var deadTotal: nat
    var backoffMs: nat
    var maxBackoffMs: nat

    ghost predicate Valid()
      reads this
    {
      fl.Length == INFLIGHT_MAX * 3 && nfl <= fl.Length && dead.Length == DEAD_MAX && ndead <= DEAD_MAX && fl != dead
    }

    function State(): Loading
      requires Valid()
      reads this, fl, dead
    {
      Loading(key, inArray, fl[..nfl], dead[..ndead], next, leaseMs, maxAttempts, deadTotal, backoffMs, maxBackoffMs)
    }

    constructor ()
      ensures Valid() && fresh(fl) && fresh(dead) && State() == EMPTY
    {
      key, inArray, nfl, ndead := [], 0, 0, 0;
      next, leaseMs, maxAttempts, deadTotal, backoffMs, maxBackoffMs := 0, 0, 0, 0, 0, 0;
      fl := new nat[INFLIGHT_MAX * 3](_ => 0);
      dead := new nat[DEAD_MAX](_ => 0);
    }

    method Int(i: int)
      requires Valid()
      modifies this, fl, dead
      ensures Valid() && State() == OnIntOf(old(State()), i)
    {
      var v := if i < 0 then 0 else AsDouble(i);
      if inArray == 1 {
        if nfl < fl.Length {
          ghost var was := fl[..nfl];
          fl[nfl] := v;
          nfl := nfl + 1;
          assert fl[..nfl] == was + [v];
        }
      } else if inArray == 2 {
        if ndead < DEAD_MAX {
          ghost var was := dead[..ndead];
          dead[ndead] := v;
          ndead := ndead + 1;
          assert dead[..ndead] == was + [v];
        }
      } else if key == KeyOf(Next) { next := v; }
      else if key == KeyOf(LeaseMs) { leaseMs := v; }
      else if key == KeyOf(MaxAttempts) { maxAttempts := v; }
      else if key == KeyOf(DeadTotal) { deadTotal := v; }
      else if key == KeyOf(BackoffMs) { backoffMs := v; }
      else if key == KeyOf(MaxBackoffMs) { maxBackoffMs := v; }
    }

    method Visited(v: Visit)
      requires Valid()
      modifies this, fl, dead
      ensures Valid() && State() == On(old(State()), v)
    {
      match v
      case OnKey(k) =>
        key := CutKey(k, KEY_CAP);
        inArray := if key == KeyOf(Inflight) then 1 else if key == KeyOf(DeadList) then 2 else 0;
      case OnInt(i) => Int(i);
      case ArrayEnd => inArray := 0;
      case _ =>
    }

    /** Everything the decoder reports, then the cut to whole triples. */
    method Feed(vs: seq<Visit>)
      requires Valid()
      modifies this, fl, dead
      ensures Valid()
      ensures var s := Fed(On, old(State()), vs); State() == s.(fl := s.fl[..|s.fl| - |s.fl| % 3])
    {
      var i := 0;
      while i < |vs|
        invariant i <= |vs| && Valid()
        invariant Fed(On, State(), vs[i..]) == Fed(On, old(State()), vs)
      {
        assert vs[i..][1..] == vs[i + 1..];
        Visited(vs[i]);
        i := i + 1;
      }
      assert vs[i..] == [];
      ghost var s := fl[..nfl];
      nfl := nfl - nfl % 3;
      assert fl[..nfl] == s[..nfl];
    }
  }

  /** queue_load of a record that is there. */
  method LoadRecord(d: Bytes) returns (q: Option<QRec>)
    ensures q == Load(d)
  {
    hide Fed, RawAt, Triples, Visits;
    var r := RawAt(d, 0);
    if r.Bad? { return None; }
    var l := new Loader();
    l.Feed(Visits(r.value));
    ghost var s := Fed(On, EMPTY, Visits(r.value));
    assert l.fl[..l.nfl][..l.nfl] == l.fl[..l.nfl];
    q := Some(Filled(l.State()));
  }

  // ---- the round trip ----------------------------------------------------------------

  lemma KeysApart()
    ensures forall a: Slot, b: Slot | KeyOf(a) == KeyOf(b) :: a == b
    ensures forall a: Slot :: |KeyOf(a)| < KEY_CAP
  {
    forall a: Slot, b: Slot | KeyOf(a) == KeyOf(b) ensures a == b {
      assert |KeyOf(a)| == |KeyOf(b)|;
      assert KeyOf(Next)[0] == 110 && KeyOf(DeadList)[0] == 100;
      assert KeyOf(LeaseMs)[0] == 108 && KeyOf(Inflight)[0] == 105;
      assert KeyOf(DeadTotal)[0] == 100 && KeyOf(BackoffMs)[0] == 98;
    }
  }

  /** The lease table as it is stored: three numbers a lease. */
  ghost predicate StoresLeases(v: Value, fl: seq<Lease>) {
    && v.Array? && |v.items| == 3 * |fl|
    && forall k | 0 <= k < |fl| ::
         v.items[3 * k] == Int(fl[k].index) && v.items[3 * k + 1] == Int(fl[k].expires) && v.items[3 * k + 2] == Int(fl[k].attempts)
  }

  ghost predicate StoresNumbers(v: Value, xs: seq<nat>) {
    v.Array? && |v.items| == |xs| && forall k | 0 <= k < |xs| :: v.items[k] == Int(xs[k])
  }

  /** What a stored record says, key by key. */
  lemma RecordSays(q: QRec)
    ensures
      var v := Stored(q);
      && v.Object? && |v.fields| == 8
      && FieldOf(v.fields, Text("next")) == Some(Int(q.next))
      && FieldOf(v.fields, Text("lease_ms")) == Some(Int(q.leaseMs))
      && FieldOf(v.fields, Text("max_attempts")) == Some(Int(q.maxAttempts))
      && FieldOf(v.fields, Text("dead_total")) == Some(Int(q.deadTotal))
      && FieldOf(v.fields, Text("backoff_ms")) == Some(Int(q.backoffMs))
      && FieldOf(v.fields, Text("max_backoff_ms")) == Some(Int(q.maxBackoffMs))
      && (var fl := FieldOf(v.fields, Text("inflight")); fl.Some? && StoresLeases(fl.value, q.fl))
      && (var dead := FieldOf(v.fields, Text("dead")); dead.Some? && StoresNumbers(dead.value, q.dead))
  {
    KeysApart();
    var fs := Stored(q).fields;
    FieldsInOrder(q, fs);
    hide FieldOf, Text, StoresLeases, StoresNumbers;
    FlatStores(q.fl);
    IntsStore(q.dead);
  }

  lemma FieldsInOrder(q: QRec, fs: seq<Field>)
    requires Stored(q) == Object(fs)
    ensures |fs| == 8
    ensures FieldOf(fs, KeyOf(Next)) == Some(fs[0].value) && FieldOf(fs, KeyOf(LeaseMs)) == Some(fs[1].value)
    ensures FieldOf(fs, KeyOf(MaxAttempts)) == Some(fs[2].value) && FieldOf(fs, KeyOf(DeadTotal)) == Some(fs[3].value)
    ensures FieldOf(fs, KeyOf(BackoffMs)) == Some(fs[4].value) && FieldOf(fs, KeyOf(MaxBackoffMs)) == Some(fs[5].value)
    ensures FieldOf(fs, KeyOf(Inflight)) == Some(fs[6].value) && FieldOf(fs, KeyOf(DeadList)) == Some(fs[7].value)
  {
    hide KeyOf, FieldOf, Scalars, Arrays;
    var slots := [Next, LeaseMs, MaxAttempts, DeadTotal, BackoffMs, MaxBackoffMs, Inflight, DeadList];
    SlotKeys(q);
    SlotsFound(fs, slots);
    assert slots[0] == Next && slots[1] == LeaseMs && slots[2] == MaxAttempts && slots[3] == DeadTotal;
    assert slots[4] == BackoffMs && slots[5] == MaxBackoffMs && slots[6] == Inflight && slots[7] == DeadList;
  }

  lemma SlotKeys(q: QRec)
    ensures
      var fs, slots := Stored(q).fields, [Next, LeaseMs, MaxAttempts, DeadTotal, BackoffMs, MaxBackoffMs, Inflight, DeadList];
      && |fs| == |slots| && (forall i | 0 <= i < |fs| :: fs[i].key == KeyOf(slots[i]))
      && forall i, j | 0 <= i < j < |slots| :: slots[i] != slots[j]
  {
    hide KeyOf;
  }

  lemma SlotsFound(fs: seq<Field>, slots: seq<Slot>)
    requires |fs| == |slots| && forall i | 0 <= i < |fs| :: fs[i].key == KeyOf(slots[i])
    requires forall i, j | 0 <= i < j < |slots| :: slots[i] != slots[j]
    ensures forall k | 0 <= k < |fs| :: FieldOf(fs, KeyOf(slots[k])) == Some(fs[k].value)
  {
    hide KeyOf, FieldOf;
    KeysApart();
    forall k | 0 <= k < |fs| ensures FieldOf(fs, KeyOf(slots[k])) == Some(fs[k].value) { FieldAtPlace(fs, k); }
  }

  lemma {:induction false} IntsStore(xs: seq<nat>)
    ensures StoresNumbers(Array(Ints(xs)), xs)
  {
    if xs != [] { IntsStore(xs[1..]); }
  }

  lemma {:induction false} FlatStores(fl: seq<Lease>)
    ensures StoresLeases(Array(Ints(Flat(fl))), fl)
  {
    IntsStore(Flat(fl));
    FlatPlaces(fl);
  }

  lemma {:induction false} FlatPlaces(fl: seq<Lease>)
    ensures forall k | 0 <= k < |fl| ::
              Flat(fl)[3 * k] == fl[k].index && Flat(fl)[3 * k + 1] == fl[k].expires && Flat(fl)[3 * k + 2] == fl[k].attempts
  {
    if fl != [] {
      FlatPlaces(fl[1..]);
      var head := [fl[0].index, fl[0].expires, fl[0].attempts];
      forall k | 0 < k < |fl|
        ensures Flat(fl)[3 * k] == fl[k].index && Flat(fl)[3 * k + 1] == fl[k].expires && Flat(fl)[3 * k + 2] == fl[k].attempts
      {
        assert Flat(fl)[3 * k] == Flat(fl[1..])[3 * (k - 1)];
      }
    }
  }

  function Doubles(xs: seq<nat>): (r: seq<nat>)
    ensures |r| == |xs|
    ensures forall i | 0 <= i < |xs| :: r[i] == AsDouble(xs[i])
  {
    if xs == [] then [] else [AsDouble(xs[0])] + Doubles(xs[1..])
  }

  lemma LeaseArrives(s: Loading, n: nat)
    requires s.inArray == 1 && |s.fl| < INFLIGHT_MAX * 3
    ensures OnIntOf(s, n) == s.(fl := s.fl + [AsDouble(n)])
  {
  }

  lemma DeathArrives(s: Loading, n: nat)
    requires s.inArray == 2 && |s.dead| < DEAD_MAX
    ensures OnIntOf(s, n) == s.(dead := s.dead + [AsDouble(n)])
  {
  }

  lemma DoublesFirst(before: seq<nat>, xs: seq<nat>)
    requires xs != []
    ensures before + Doubles(xs) == before + [AsDouble(xs[0])] + Doubles(xs[1..])
  {
    assert Doubles(xs) == [AsDouble(xs[0])] + Doubles(xs[1..]);
  }

  lemma {:induction false} LeasesArrive(s: Loading, xs: seq<nat>)
    requires s.inArray == 1 && |s.fl| + |xs| <= INFLIGHT_MAX * 3
    ensures Fed(On, s, ItemVisits(Ints(xs))) == s.(fl := s.fl + Doubles(xs))
    decreases |xs|
  {
    hide OnIntOf, KeyOf, AsDouble;
    if xs == [] {
      assert s.fl + Doubles(xs) == s.fl;
    } else {
      FirstInt(s, xs);
      LeaseArrives(s, xs[0]);
      LeasesArrive(s.(fl := s.fl + [AsDouble(xs[0])]), xs[1..]);
      DoublesFirst(s.fl, xs);
    }
  }

  lemma {:induction false} DeathsArrive(s: Loading, xs: seq<nat>)
    requires s.inArray == 2 && |s.dead| + |xs| <= DEAD_MAX
    ensures Fed(On, s, ItemVisits(Ints(xs))) == s.(dead := s.dead + Doubles(xs))
    decreases |xs|
  {
    hide OnIntOf, KeyOf, AsDouble;
    if xs == [] {
      assert s.dead + Doubles(xs) == s.dead;
    } else {
      FirstInt(s, xs);
      DeathArrives(s, xs[0]);
      DeathsArrive(s.(dead := s.dead + [AsDouble(xs[0])]), xs[1..]);
      DoublesFirst(s.dead, xs);
    }
  }

  lemma FirstInt(s: Loading, xs: seq<nat>)
    requires xs != []
    ensures Fed(On, s, ItemVisits(Ints(xs))) == Fed(On, OnIntOf(s, xs[0]), ItemVisits(Ints(xs[1..])))
  {
    var vs := Ints(xs);
    assert vs[0] == Int(xs[0]) && vs[1..] == Ints(xs[1..]);
    assert ItemVisits(vs) == [OnInt(xs[0])] + ItemVisits(Ints(xs[1..]));
    assert ([OnInt(xs[0])] + ItemVisits(Ints(xs[1..])))[1..] == ItemVisits(Ints(xs[1..]));
  }

  /** One scalar field of the record. */
  function SetSlot(s: Loading, slot: Slot, v: nat): Loading {
    match slot
    case Next => s.(next := v)
    case LeaseMs => s.(leaseMs := v)
    case MaxAttempts => s.(maxAttempts := v)
    case DeadTotal => s.(deadTotal := v)
    case BackoffMs => s.(backoffMs := v)
    case MaxBackoffMs => s.(maxBackoffMs := v)
    case _ => s
  }

  lemma SlotSet(s: Loading, slot: Slot, n: nat)
    requires slot != Inflight && slot != DeadList
    ensures On(On(s, OnKey(KeyOf(slot))), OnInt(n)) == SetSlot(s.(key := KeyOf(slot), inArray := 0), slot, AsDouble(n))
  {
    hide AsDouble;
    KeysApart();
    assert On(s, OnKey(KeyOf(slot))) == s.(key := KeyOf(slot), inArray := 0);
  }

  lemma ScalarArrives(s: Loading, slot: Slot, n: nat, rest: seq<Visit>)
    requires slot != Inflight && slot != DeadList
    ensures
      Fed(On, s, OneVisits(Field(KeyOf(slot), Int(n))) + rest)
      == Fed(On, SetSlot(s.(key := KeyOf(slot), inArray := 0), slot, AsDouble(n)), rest)
  {
    hide On, KeyOf, AsDouble, SetSlot;
    var k := KeyOf(slot);
    assert OneVisits(Field(k, Int(n))) == [OnKey(k), OnInt(n)];
    TwoInTurn(On, s, OnKey(k), OnInt(n), rest);
    SlotSet(s, slot, n);
  }

  lemma ArrayArrives(s: Loading, slot: Slot, xs: seq<nat>, rest: seq<Visit>)
    requires slot == Inflight ==> s.fl == [] && |xs| <= INFLIGHT_MAX * 3
    requires slot == DeadList ==> s.dead == [] && |xs| <= DEAD_MAX
    requires slot == Inflight || slot == DeadList
    ensures
      var t := s.(key := KeyOf(slot), inArray := 0);
      Fed(On, s, OneVisits(Field(KeyOf(slot), Array(Ints(xs)))) + rest)
      == Fed(On, if slot == Inflight then t.(fl := Doubles(xs)) else t.(dead := Doubles(xs)), rest)
  {
    KeysApart();
    var k, items := KeyOf(slot), ItemVisits(Ints(xs));
    var s1 := s.(key := k, inArray := if slot == Inflight then 1 else 2);
    assert On(s, OnKey(k)) == s1;
    if slot == Inflight { LeasesArrive(s1, xs); } else { DeathsArrive(s1, xs); }
    OpenClose(s, k, items, rest);
    assert [] + Doubles(xs) == Doubles(xs);
  }

  /** A key, an array opened, its items, the array closed. */
  lemma OpenClose(s: Loading, k: Bytes, items: seq<Visit>, rest: seq<Visit>)
    ensures
      Fed(On, s, ([OnKey(k)] + ([ArrayBegin] + (items + [ArrayEnd]))) + rest)
      == Fed(On, Fed(On, On(s, OnKey(k)), items).(inArray := 0), rest)
  {
    var s1 := On(s, OnKey(k));
    var vs := [OnKey(k)] + ([ArrayBegin] + (items + [ArrayEnd]));
    FedInTurn(On, s, vs, rest);
    assert vs[1..] == [ArrayBegin] + (items + [ArrayEnd]);
    assert vs[1..][1..] == items + [ArrayEnd];
    assert On(s1, ArrayBegin) == s1;
    FedInTurn(On, s1, items, [ArrayEnd]);
    assert [ArrayEnd][1..] == [];
  }

  /** What a record becomes: every number through a double. */
  function ThroughDoubles(q: QRec): QRec {
    QRec(AsDouble(q.next), AsDouble(q.leaseMs), AsDouble(q.maxAttempts), AsDouble(q.backoffMs), AsDouble(q.maxBackoffMs),
         Triples(Doubles(Flat(q.fl))), AsDouble(q.deadTotal), Doubles(q.dead))
  }

  /** The fields after position `k` of a record. */
  lemma FieldsFollow(fields: seq<Field>, k: nat)
    requires k < |fields|
    ensures FieldVisits(fields[k..]) == OneVisits(fields[k]) + FieldVisits(fields[k + 1..])
  {
    assert fields[k..][0] == fields[k] && fields[k..][1..] == fields[k + 1..];
  }

  lemma ScalarsArrive(q: QRec, rest: seq<Field>)
    ensures
      Fed(On, EMPTY, FieldVisits(Scalars(q) + rest))
      == Fed(On, Loading(KeyOf(MaxBackoffMs), 0, [], [], AsDouble(q.next), AsDouble(q.leaseMs), AsDouble(q.maxAttempts),
                       AsDouble(q.deadTotal), AsDouble(q.backoffMs), AsDouble(q.maxBackoffMs)), FieldVisits(rest))
  {
    hide Fed, AsDouble, On, OnKeyOf, OnIntOf, FieldVisits, OneVisits, KeyOf;
    var fs := Scalars(q) + rest;
    assert fs[0..] == fs && fs[6..] == rest;
    FieldsFollow(fs, 0);
    FieldsFollow(fs, 1);
    FieldsFollow(fs, 2);
    FieldsFollow(fs, 3);
    FieldsFollow(fs, 4);
    FieldsFollow(fs, 5);
    var s1 := EMPTY.(key := KeyOf(Next), next := AsDouble(q.next));
    var s2 := s1.(key := KeyOf(LeaseMs), leaseMs := AsDouble(q.leaseMs));
    var s3 := s2.(key := KeyOf(MaxAttempts), maxAttempts := AsDouble(q.maxAttempts));
    var s4 := s3.(key := KeyOf(DeadTotal), deadTotal := AsDouble(q.deadTotal));
    var s5 := s4.(key := KeyOf(BackoffMs), backoffMs := AsDouble(q.backoffMs));
    ScalarArrives(EMPTY, Next, q.next, FieldVisits(fs[1..]));
    ScalarArrives(s1, LeaseMs, q.leaseMs, FieldVisits(fs[2..]));
    ScalarArrives(s2, MaxAttempts, q.maxAttempts, FieldVisits(fs[3..]));
    ScalarArrives(s3, DeadTotal, q.deadTotal, FieldVisits(fs[4..]));
    ScalarArrives(s4, BackoffMs, q.backoffMs, FieldVisits(fs[5..]));
    ScalarArrives(s5, MaxBackoffMs, q.maxBackoffMs, FieldVisits(fs[6..]));
  }

  lemma ArraysArrive(s: Loading, q: QRec)
    requires s.fl == [] && s.dead == [] && |q.fl| <= INFLIGHT_MAX && |q.dead| <= DEAD_MAX
    ensures
      Fed(On, s, FieldVisits(Arrays(q)))
      == s.(key := KeyOf(DeadList), inArray := 0, fl := Doubles(Flat(q.fl)), dead := Doubles(q.dead))
  {
    var fs := Arrays(q);
    assert fs[0..] == fs;
    FieldsFollow(fs, 0);
    FieldsFollow(fs, 1);
    assert fs[2..] == [];
    ArrayArrives(s, Inflight, Flat(q.fl), FieldVisits(fs[1..]));
    ArrayArrives(s.(key := KeyOf(Inflight), inArray := 0, fl := Doubles(Flat(q.fl))), DeadList, q.dead, []);
  }

  lemma LoadsAs(q: QRec)
    requires |q.fl| <= INFLIGHT_MAX && |q.dead| <= DEAD_MAX
    ensures Filled(Fed(On, EMPTY, Visits(Stored(q)))) == ThroughDoubles(q)
  {
    hide Fed, KeyOf, AsDouble, Triples, Flat, Doubles, FieldVisits;
    var fs := Scalars(q) + Arrays(q);
    var s := Loading(KeyOf(MaxBackoffMs), 0, [], [], AsDouble(q.next), AsDouble(q.leaseMs), AsDouble(q.maxAttempts),
                     AsDouble(q.deadTotal), AsDouble(q.backoffMs), AsDouble(q.maxBackoffMs));
    ScalarsArrive(q, Arrays(q));
    ArraysArrive(s, q);
    BracesIgnored(On, EMPTY, FieldVisits(fs));
    assert Visits(Stored(q)) == [ObjectBegin] + (FieldVisits(fs) + [ObjectEnd]);
    var e := Fed(On, EMPTY, FieldVisits(fs));
    assert e.fl[..|e.fl| - |e.fl| % 3] == e.fl;
  }

  // ---- when nothing is lost ---------------------------------------------------------------

  ghost predicate AllExact(xs: seq<nat>) {
    forall i | 0 <= i < |xs| :: Exact(xs[i])
  }

  ghost predicate RecordExact(q: QRec) {
    && Exact(q.next) && Exact(q.leaseMs) && Exact(q.maxAttempts) && Exact(q.deadTotal)
    && Exact(q.backoffMs) && Exact(q.maxBackoffMs)
    && AllExact(Flat(q.fl)) && AllExact(q.dead)
  }

  lemma DoublesKeepExactly(xs: seq<nat>)
    ensures Doubles(xs) == xs <==> AllExact(xs)
  {
    forall i | 0 <= i < |xs| ensures Doubles(xs)[i] == xs[i] <==> Exact(xs[i]) { DoubleKeepsExactly(xs[i]); }
  }

  lemma {:induction false} TriplesOfFlat(fl: seq<Lease>)
    ensures Triples(Flat(fl)) == fl
  {
    if fl != [] {
      assert Flat(fl)[3..] == Flat(fl[1..]);
      TriplesOfFlat(fl[1..]);
    }
  }

  lemma {:induction false} FlatOfTriples(xs: seq<nat>)
    requires |xs| % 3 == 0
    ensures Flat(Triples(xs)) == xs
    decreases |xs|
  {
    if |xs| >= 3 {
      FlatOfTriples(xs[3..]);
      assert Triples(xs)[1..] == Triples(xs[3..]);
      assert xs == [xs[0], xs[1], xs[2]] + xs[3..];
    }
  }

  lemma ThroughDoublesExactly(q: QRec)
    ensures ThroughDoubles(q) == q <==> RecordExact(q)
  {
    DoubleKeepsExactly(q.next);
    DoubleKeepsExactly(q.leaseMs);
    DoubleKeepsExactly(q.maxAttempts);
    DoubleKeepsExactly(q.deadTotal);
    DoubleKeepsExactly(q.backoffMs);
    DoubleKeepsExactly(q.maxBackoffMs);
    DoublesKeepExactly(Flat(q.fl));
    DoublesKeepExactly(q.dead);
    TriplesOfFlat(q.fl);
    FlatOfTriples(Doubles(Flat(q.fl)));
  }

  /** Numbers a signed 64-bit field holds. */
  ghost predicate Storable(q: QRec) {
    && |q.fl| <= INFLIGHT_MAX && |q.dead| <= DEAD_MAX
    && q.next < I63 && q.leaseMs < I63 && q.maxAttempts < I63 && q.deadTotal < I63 && q.backoffMs < I63 && q.maxBackoffMs < I63
    && (forall x | x in Flat(q.fl) :: x < I63) && (forall x | x in q.dead :: x < I63)
  }

  lemma {:induction false} IntsEncode(xs: seq<nat>)
    requires forall x | x in xs :: x < I63
    ensures FitItems(Ints(xs)) && |ItemBytes(Ints(xs))| == 9 * |xs|
    decreases |xs|
  {
    if xs != [] {
      assert xs[0] in xs;
      assert forall x | x in xs[1..] :: x in xs;
      IntsEncode(xs[1..]);
      assert Ints(xs)[1..] == Ints(xs[1..]);
      assert LeafShaped(Int(xs[0]));
      assert |Encoding(Int(xs[0]))| == 9;
    }
  }

  lemma IntField(slot: Slot, n: nat)
    requires n < I63
    ensures var f := Field(KeyOf(slot), Int(n));
            Shaped(f.value) && Fits(f.value) && |f.key| < KEY_CAP && |OneField(f)| == 13 + |f.key|
  {
    KeysApart();
    assert LeafShaped(Int(n));
  }

  lemma ArrayField(slot: Slot, xs: seq<nat>)
    requires (forall x | x in xs :: x < I63) && |xs| <= INFLIGHT_MAX * 3
    ensures var f := Field(KeyOf(slot), Array(Ints(xs)));
            Shaped(f.value) && Fits(f.value) && |f.key| < KEY_CAP && |OneField(f)| == 13 + |f.key| + 9 * |xs|
  {
    KeysApart();
    IntsEncode(xs);
  }

  /** A whole record is a few kilobytes: it always fits. */
  lemma {:induction false} FieldsFit(fields: seq<Field>)
    requires forall f | f in fields :: Shaped(f.value) && Fits(f.value) && |f.key| < KEY_CAP && |OneField(f)| <= 8000
    ensures FitFields(fields) && |FieldBytes(fields)| <= 8000 * |fields|
  {
    if fields != [] {
      assert fields[0] in fields;
      FieldsFit(fields[1..]);
    }
  }

  lemma StoredFits(q: QRec)
    requires Storable(q)
    ensures Shaped(Stored(q)) && Fits(Stored(q))
  {
    ScalarsGood(q);
    ArraysGood(q);
    hide Scalars, Arrays, FieldGood;
    assert forall f | f in Scalars(q) + Arrays(q) :: FieldGood(f);
    AllGood(Scalars(q) + Arrays(q));
    assert Stored(q) == Object(Scalars(q) + Arrays(q));
  }

  ghost predicate FieldGood(f: Field) {
    Shaped(f.value) && Fits(f.value) && |f.key| < KEY_CAP && |OneField(f)| <= 8000
  }

  lemma ScalarsGood(q: QRec)
    requires Storable(q)
    ensures |Scalars(q)| == 6 && forall f | f in Scalars(q) :: FieldGood(f)
  {
    hide OneField, KeyOf;
    IntField(Next, q.next);
    IntField(LeaseMs, q.leaseMs);
    IntField(MaxAttempts, q.maxAttempts);
    IntField(DeadTotal, q.deadTotal);
    IntField(BackoffMs, q.backoffMs);
    IntField(MaxBackoffMs, q.maxBackoffMs);
  }

  lemma ArraysGood(q: QRec)
    requires Storable(q)
    ensures |Arrays(q)| == 2 && forall f | f in Arrays(q) :: FieldGood(f)
  {
    hide OneField, KeyOf, Ints;
    FlatSmall(q);
    hide Flat;
    ArrayField(Inflight, Flat(q.fl));
    ArrayField(DeadList, q.dead);
  }

  lemma FlatSmall(q: QRec)
    requires Storable(q)
    ensures (forall x | x in Flat(q.fl) :: x < I63) && |Flat(q.fl)| <= INFLIGHT_MAX * 3
    ensures (forall x | x in q.dead :: x < I63) && |q.dead| <= INFLIGHT_MAX * 3
  {
  }

  lemma AllGood(fields: seq<Field>)
    requires |fields| == 8 && forall f | f in fields :: FieldGood(f)
    ensures Shaped(Object(fields)) && Fits(Object(fields))
  {
    FieldsFit(fields);
    hide OneField;
  }

  /**
   A queue record survives a store and a load unchanged exactly when all its
   numbers survive a double; below 2^53 they do.
   */
  lemma RecordSurvivesExactly(q: QRec)
    requires Storable(q)
    ensures Shaped(Stored(q))
    ensures Load(Encoding(Stored(q))) == Some(q) <==> RecordExact(q)
    ensures Load(Encoding(Stored(q))) == Some(ThroughDoubles(q))
  {
    StoredFits(q);
    var d := Encoding(Stored(q));
    assert d[0..0 + |d|] == d;
    DecodeInvertsEncode(d, 0, Stored(q));
    LoadsAs(q);
    ThroughDoublesExactly(q);
  }
}
