/**
 The codec as binjson.py runs it: an encoder that appends to a growing buffer
 and back-patches container sizes, and a recursive decoder that fills lists and
 dictionaries in loops.  Each is proved to compute the functions of `Binjson`.
 */
module BinjsonCodec {
  import opened Options
  import opened Words
  import opened Binjson

  // ---- what is sent for a Python value ----------------------------------------------

  /** The eight bytes struct.pack gives for a float; which ones is Python's affair. */
  type Eight = b: Bytes | |b| == 8 witness [0, 0, 0, 0, 0, 0, 0, 0]

  predicate SafeInt(i: int) { -MAX_SAFE_INT <= i <= MAX_SAFE_INT }

  /** A value Python can hold: integers of any size, everything else as wide as its type. */
  predicate Native(v: Value)
    decreases v
  {
    match v
    case Int(_) => true
    case Array(items) => forall x | x in items :: Native(x)
    case Object(fields) => forall f | f in fields :: Native(f.value)
    case _ => LeafShaped(v)
  }

  /** Integers past the safe range travel as floats. */
  function Sent(v: Value, pack: int -> Eight): (s: Value)
    requires Native(v)
    ensures Shaped(s) && (IsContainer(s) <==> IsContainer(v))
    decreases v, 1
  {
    match v
    case Int(i) => if SafeInt(i) then v else Float(pack(i))
    case Array(items) => Array(SentItems(items, pack))
    case Object(fields) => Object(SentFields(fields, pack))
    case _ => v
  }

  function SentItems(items: seq<Value>, pack: int -> Eight): (s: seq<Value>)
    requires forall x | x in items :: Native(x)
    ensures |s| == |items| && forall x | x in s :: Shaped(x)
    ensures forall i | 0 <= i < |items| :: s[i] == Sent(items[i], pack)
    decreases items, 0
  {
    if items == [] then [] else [Sent(items[0], pack)] + SentItems(items[1..], pack)
  }

  function SentFields(fields: seq<Field>, pack: int -> Eight): (s: seq<Field>)
    requires forall f | f in fields :: Native(f.value)
    ensures |s| == |fields| && forall f | f in s :: Shaped(f.value)
    ensures forall i | 0 <= i < |fields| :: s[i] == Field(fields[i].key, Sent(fields[i].value, pack))
    decreases fields, 0
  {
    if fields == [] then [] else [Field(fields[0].key, Sent(fields[0].value, pack))] + SentFields(fields[1..], pack)
  }

  /** All integers within the range a double holds exactly. */
  predicate AllSafe(v: Value)
    decreases v
  {
    match v
    case Int(i) => SafeInt(i)
    case Array(items) => forall x | x in items :: AllSafe(x)
    case Object(fields) => forall f | f in fields :: AllSafe(f.value)
    case _ => true
  }

  /** A value is sent as itself exactly when all its integers are safe. */
  lemma {:induction false} SentUnchangedExactly(v: Value, pack: int -> Eight)
    requires Native(v)
    ensures Sent(v, pack) == v <==> AllSafe(v)
    decreases v
  {
    match v
    case Array(items) =>
      forall i | 0 <= i < |items| ensures Sent(items[i], pack) == items[i] <==> AllSafe(items[i]) {
        SentUnchangedExactly(items[i], pack);
      }
      var s := SentItems(items, pack);
      if AllSafe(v) { assert s == items; }
      if s == items { assert forall i | 0 <= i < |items| :: s[i] == items[i]; }
    case Object(fields) =>
      forall i | 0 <= i < |fields| ensures Sent(fields[i].value, pack) == fields[i].value <==> AllSafe(fields[i].value) {
        SentUnchangedExactly(fields[i].value, pack);
      }
      var s := SentFields(fields, pack);
      if AllSafe(v) { assert s == fields; }
      if s == fields { assert forall i | 0 <= i < |fields| :: s[i] == fields[i]; }
    case _ =>
  }

  // ---- encoding --------------------------------------------------------------------

  /** Python's bytearray. */
  class ByteArray {
    var data: Bytes

    constructor ()
      ensures data == []
    {
      data := [];
    }

    method Extend(b: Bytes)
      modifies this
      ensures data == old(data) + b
    {
      data := data + b;
    }

    /** struct.pack_into("<I"): overwrite four bytes in place. */
    method PackInto(at: nat, n: nat)
      requires at + 4 <= |data|
      modifies this
      ensures data == old(data)[..at] + LE(n, 4) + old(data)[at + 4..]
    {
      data := data[..at] + LE(n, 4) + data[at + 4..];
    }
  }

  /** A 32-bit length, or struct.error. */
  method PackLength(n: nat, out: ByteArray) returns (ok: bool)
    modifies out
    ensures ok <==> n < U32
    ensures ok ==> out.data == old(out.data) + LE(n, 4)
  {
    ok := n < U32;
    if ok { out.Extend(LE(n, 4)); }
  }

  lemma Assoc(a: Bytes, b: Bytes, c: Bytes)
    ensures (a + b) + c == a + (b + c)
  {
  }

  /** A 32-bit length and that many bytes. */
  method PackPrefixed(raw: Bytes, out: ByteArray) returns (ok: bool)
    modifies out
    ensures ok <==> |raw| < U32
    ensures ok ==> out.data == old(out.data) + KeyBytes(raw)
  {
    ok := PackLength(|raw|, out);
    if ok { out.Extend(raw); }
    Assoc(old(out.data), LE(|raw|, 4), raw);
  }

  method EncodePrefixed(kind: Byte, raw: Bytes, out: ByteArray) returns (ok: bool)
    modifies out
    ensures ok <==> |raw| < U32
    ensures ok ==> out.data == old(out.data) + ([kind] + KeyBytes(raw))
  {
    out.Extend([kind]);
    ok := PackPrefixed(raw, out);
    Assoc(old(out.data), [kind], KeyBytes(raw));
  }

  method EncodeLeaf(v: Value, pack: int -> Eight, out: ByteArray) returns (ok: bool)
    requires !IsContainer(v) && Native(v)
    modifies out
    ensures ok <==> LeafFits(Sent(v, pack))
    ensures ok ==> out.data == old(out.data) + LeafBytes(Sent(v, pack))
  {
    if v.Int? && !SafeInt(v.i) {
      out.Extend([FLOAT]);
      out.Extend(pack(v.i));
      ok := true;
      Assoc(old(out.data), [FLOAT], pack(v.i));
    } else if v.Str? {
      ok := EncodePrefixed(STRING, v.text, out);
    } else if v.Binary? {
      ok := EncodePrefixed(BINARY, v.blob, out);
    } else {
      out.Extend(LeafBytes(v));
      ok := true;
    }
  }

  /** The back patch: a frame written with a hole, filled once the content is there. */
  lemma Patched(was: Bytes, kind: Byte, count: nat, content: Bytes, before: Bytes)
    requires before == was + [kind] + [0, 0, 0, 0] + LE(count, 4) + content
    ensures
      var at := |was| + 1;
      before[..at] + LE(4 + |content|, 4) + before[at + 4..] == was + Container(kind, count, content)
      && |before| - (at + 4) == 4 + |content|
  {
    var at := |was| + 1;
    assert before[..at] == was + [kind];
    assert before[at + 4..] == LE(count, 4) + content;
  }

  /** Bytes appended for the first items or fields, and one more. */
  lemma {:induction false} ItemBytesAppend(items: seq<Value>, v: Value)
    requires Shaped(v) && forall x | x in items :: Shaped(x)
    ensures (forall x | x in items + [v] :: Shaped(x)) && ItemBytes(items + [v]) == ItemBytes(items) + Encoding(v)
    decreases |items|
  {
    hide Binjson.Encoding, Binjson.Shaped, Binjson.OneField;
    if items == [] {
      assert [] + [v] == [v] && [v][1..] == [];
    } else {
      ItemBytesAppend(items[1..], v);
      assert (items + [v])[1..] == items[1..] + [v];
    }
  }

  lemma {:induction false} FieldBytesAppend(fields: seq<Field>, f: Field)
    requires Shaped(f.value) && forall x | x in fields :: Shaped(x.value)
    ensures (forall x | x in fields + [f] :: Shaped(x.value)) && FieldBytes(fields + [f]) == FieldBytes(fields) + OneField(f)
    decreases |fields|
  {
    hide Binjson.Encoding, Binjson.Shaped, Binjson.OneField;
    if fields == [] {
      assert [] + [f] == [f] && [f][1..] == [];
    } else {
      FieldBytesAppend(fields[1..], f);
      assert (fields + [f])[1..] == fields[1..] + [f];
    }
  }

  lemma NextItem(was: Bytes, sent: seq<Value>, i: nat)
    requires i < |sent| && (forall x | x in sent :: Shaped(x)) && FitItems(sent[..i]) && Fits(sent[i])
    ensures FitItems(sent[..i + 1]) && was + ItemBytes(sent[..i]) + Encoding(sent[i]) == was + ItemBytes(sent[..i + 1])
  {
    assert sent[..i + 1] == sent[..i] + [sent[i]];
    ItemBytesAppend(sent[..i], sent[i]);
    Assoc(was, ItemBytes(sent[..i]), Encoding(sent[i]));
  }

  lemma NextField(was: Bytes, sent: seq<Field>, i: nat)
    requires i < |sent| && (forall f | f in sent :: Shaped(f.value))
    requires FitFields(sent[..i]) && Fits(sent[i].value) && |sent[i].key| < U32
    ensures FitFields(sent[..i + 1]) && was + FieldBytes(sent[..i]) + OneField(sent[i]) == was + FieldBytes(sent[..i + 1])
  {
    assert sent[..i + 1] == sent[..i] + [sent[i]];
    FieldBytesAppend(sent[..i], sent[i]);
    Assoc(was, FieldBytes(sent[..i]), OneField(sent[i]));
  }

  lemma OneUnfitItem(sent: seq<Value>, i: nat)
    requires i < |sent| && forall x | x in sent :: Shaped(x)
    ensures FitItems(sent) ==> Fits(sent[i])
  {
    assert sent[i] in sent;
  }

  lemma OneUnfit(sent: seq<Field>, i: nat)
    requires i < |sent| && forall f | f in sent :: Shaped(f.value)
    ensures FitFields(sent) ==> Fits(sent[i].value) && |sent[i].key| < U32
  {
    assert sent[i] in sent;
  }

  lemma NothingYet(was: Bytes, items: seq<Value>, fields: seq<Field>)
    ensures FitItems(items[..0]) && was + ItemBytes(items[..0]) == was
    ensures FitFields(fields[..0]) && was + FieldBytes(fields[..0]) == was
  {
  }

  /** _encode_into: append one value.  Fails, as struct does, when a length does not fit. */
  method EncodeInto(v: Value, pack: int -> Eight, out: ByteArray) returns (ok: bool)
    requires Native(v)
    modifies out
    ensures ok <==> Fits(Sent(v, pack))
    ensures ok ==> out.data == old(out.data) + Encoding(Sent(v, pack))
    decreases v, 2
  {
    match v {
      case Array(items) => ok := EncodeItems(items, pack, out);
      case Object(fields) => ok := EncodeFields(fields, pack, out);
      case _ => ok := EncodeLeaf(v, pack, out);
    }
  }

  method OpenContainer(kind: Byte, count: nat, out: ByteArray) returns (ok: bool)
    modifies out
    ensures ok <==> count < U32
    ensures ok ==> out.data == old(out.data) + [kind] + [0, 0, 0, 0] + LE(count, 4)
  {
    out.Extend([kind]);
    out.Extend([0, 0, 0, 0]);
    ok := PackLength(count, out);
  }

  method CloseContainer(sizeAt: nat, out: ByteArray) returns (ok: bool)
    requires sizeAt + 4 <= |out.data|
    modifies out
    ensures ok <==> |old(out.data)| - (sizeAt + 4) < U32
    ensures ok ==> out.data == old(out.data)[..sizeAt] + LE(|old(out.data)| - (sizeAt + 4), 4) + old(out.data)[sizeAt + 4..]
  {
    var size := |out.data| - (sizeAt + 4);
    ok := size < U32;
    if ok { out.PackInto(sizeAt, size); }
  }

  /** The loop over a list's items. */
  method AppendItems(items: seq<Value>, pack: int -> Eight, out: ByteArray) returns (ok: bool)
    requires Native(Array(items))
    modifies out
    ensures ok <==> FitItems(SentItems(items, pack))
    ensures ok ==> out.data == old(out.data) + ItemBytes(SentItems(items, pack))
    decreases items, 0
  {
    ghost var was := out.data;
    ghost var sent := SentItems(items, pack);
    assert forall x | x in items :: Native(x);
    hide *;
    ok := true;
    NothingYet(was, sent, []);
    for i := 0 to |items|
      invariant FitItems(sent[..i])
      invariant out.data == was + ItemBytes(sent[..i])
    {
      assert sent[i] == Sent(items[i], pack);
      ok := EncodeInto(items[i], pack, out);
      OneUnfitItem(sent, i);
      if !ok { return; }
      NextItem(was, sent, i);
    }
    ok := true;
    assert sent[..|items|] == sent;
  }

  /** _encode_container for a list. */
  method EncodeItems(items: seq<Value>, pack: int -> Eight, out: ByteArray) returns (ok: bool)
    requires Native(Array(items))
    modifies out
    ensures ok <==> Fits(Array(SentItems(items, pack)))
    ensures ok ==> out.data == old(out.data) + Encoding(Array(SentItems(items, pack)))
    decreases items, 1
  {
    hide Binjson.ItemBytes, Binjson.FieldBytes, Sent;
    var sizeAt := |out.data| + 1;
    ok := OpenContainer(ARRAY, |items|, out);
    if !ok { return; }
    ok := AppendItems(items, pack, out);
    if !ok { return; }
    Patched(old(out.data), ARRAY, |items|, ItemBytes(SentItems(items, pack)), out.data);
    ok := CloseContainer(sizeAt, out);
  }

  method EncodeField(f: Field, pack: int -> Eight, out: ByteArray) returns (ok: bool)
    requires Native(f.value)
    modifies out
    ensures ok <==> |f.key| < U32 && Fits(Sent(f.value, pack))
    ensures ok ==> out.data == old(out.data) + OneField(Field(f.key, Sent(f.value, pack)))
    decreases f, 1
  {
    ok := PackPrefixed(f.key, out);
    if !ok { return; }
    ok := EncodeInto(f.value, pack, out);
    Assoc(old(out.data), KeyBytes(f.key), Encoding(Sent(f.value, pack)));
  }

  /** The loop over a dict's items. */
  method AppendFields(fields: seq<Field>, pack: int -> Eight, out: ByteArray) returns (ok: bool)
    requires Native(Object(fields))
    modifies out
    ensures ok <==> FitFields(SentFields(fields, pack))
    ensures ok ==> out.data == old(out.data) + FieldBytes(SentFields(fields, pack))
    decreases fields, 0
  {
    ghost var was := out.data;
    ghost var sent := SentFields(fields, pack);
    assert forall x | x in fields :: Native(x.value);
    hide *;
    ok := true;
    NothingYet(was, [], sent);
    for i := 0 to |fields|
      invariant FitFields(sent[..i])
      invariant out.data == was + FieldBytes(sent[..i])
    {
      assert sent[i] == Field(fields[i].key, Sent(fields[i].value, pack));
      ok := EncodeField(fields[i], pack, out);
      OneUnfit(sent, i);
      if !ok { return; }
      NextField(was, sent, i);
    }
    ok := true;
    assert sent[..|fields|] == sent;
  }

  /** _encode_container for a dict. */
  method EncodeFields(fields: seq<Field>, pack: int -> Eight, out: ByteArray) returns (ok: bool)
    requires Native(Object(fields))
    modifies out
    ensures ok <==> Fits(Object(SentFields(fields, pack)))
    ensures ok ==> out.data == old(out.data) + Encoding(Object(SentFields(fields, pack)))
    decreases fields, 1
  {
    hide Binjson.ItemBytes, Binjson.FieldBytes, Sent;
    var sizeAt := |out.data| + 1;
    ok := OpenContainer(OBJECT, |fields|, out);
    if !ok { return; }
    ok := AppendFields(fields, pack, out);
    if !ok { return; }
    Patched(old(out.data), OBJECT, |fields|, FieldBytes(SentFields(fields, pack)), out.data);
    ok := CloseContainer(sizeAt, out);
  }

  /** encode: the whole encoding of one value, or an error. */
  method Encode(v: Value, pack: int -> Eight) returns (r: Option<Bytes>)
    requires Native(v)
    ensures r == if Fits(Sent(v, pack)) then Some(Encoding(Sent(v, pack))) else None
  {
    var out := new ByteArray();
    var ok := EncodeInto(v, pack, out);
    r := if ok then Some(out.data) else None;
    assert ok ==> [] + Encoding(Sent(v, pack)) == Encoding(Sent(v, pack));
  }

  // ---- decoding --------------------------------------------------------------------

  /** obj[key] = value: a new key goes last, a repeated one keeps its place. */
  function Put(obj: seq<Field>, f: Field): seq<Field> {
    if obj == [] then [f]
    else if obj[0].key == f.key then [f] + obj[1..]
    else [obj[0]] + Put(obj[1..], f)
  }

  /** The dictionary a run of pairs builds. */
  function DictOf(pairs: seq<Field>): seq<Field> {
    if pairs == [] then [] else Put(DictOf(pairs[..|pairs| - 1]), pairs[|pairs| - 1])
  }

  /** The Python value of what was read: objects become dictionaries, innermost first. */
  function Collapse(v: Value): Value
    decreases v, 1
  {
    match v
    case Array(items) => Array(CollapseItems(items))
    case Object(fields) => Object(DictOf(CollapseFields(fields)))
    case _ => v
  }

  function CollapseItems(items: seq<Value>): (r: seq<Value>)
    ensures |r| == |items|
    decreases items, 0
  {
    if items == [] then [] else [Collapse(items[0])] + CollapseItems(items[1..])
  }

  function CollapseFields(fields: seq<Field>): (r: seq<Field>)
    ensures |r| == |fields|
    decreases fields, 0
  {
    if fields == [] then []
    else [Field(fields[0].key, Collapse(fields[0].value))] + CollapseFields(fields[1..])
  }

  lemma {:induction false} CollapseItemsAppend(items: seq<Value>, v: Value)
    ensures CollapseItems(items + [v]) == CollapseItems(items) + [Collapse(v)]
    decreases |items|
  {
    if items == [] {
      assert [] + [v] == [v] && [v][1..] == [];
    } else {
      CollapseItemsAppend(items[1..], v);
      assert (items + [v])[1..] == items[1..] + [v];
    }
  }

  lemma {:induction false} CollapseFieldsAppend(fields: seq<Field>, f: Field)
    ensures CollapseFields(fields + [f]) == CollapseFields(fields) + [Field(f.key, Collapse(f.value))]
    decreases |fields|
  {
    if fields == [] {
      assert [] + [f] == [f] && [f][1..] == [];
    } else {
      CollapseFieldsAppend(fields[1..], f);
      assert (fields + [f])[1..] == fields[1..] + [f];
    }
  }

  /** What decoding at `o` must return. */
  function Decoded(d: Bytes, o: nat): Read<Value>
    requires o <= |d|
  {
    var r := RawAt(d, o);
    if r.Bad? then Bad else Good(Collapse(r.value), r.end)
  }

  /** The items read so far, followed by what is left to read. */
  function Resume(done: seq<Value>, rest: Read<seq<Value>>): Read<seq<Value>> {
    if rest.Bad? then Bad else Good(done + rest.value, rest.end)
  }

  function ResumeFields(done: seq<Field>, rest: Read<seq<Field>>): Read<seq<Field>> {
    if rest.Bad? then Bad else Good(done + rest.value, rest.end)
  }

  lemma ResumeStep(d: Bytes, done: seq<Value>, o: nat, left: nat)
    requires o <= |d| && left > 0
    ensures Resume(done, ItemsAt(d, o, left)) ==
            var first := RawAt(d, o);
            if first.Bad? then Bad else Resume(done + [first.value], ItemsAt(d, first.end, left - 1))
  {
    var first := RawAt(d, o);
    if first.Good? {
      var rest := ItemsAt(d, first.end, left - 1);
      if rest.Good? { assert done + ([first.value] + rest.value) == done + [first.value] + rest.value; }
    }
  }

  lemma ResumeFieldsStep(d: Bytes, done: seq<Field>, o: nat, left: nat)
    requires o <= |d| && left > 0
    ensures ResumeFields(done, FieldsAt(d, o, left)) ==
            var first := FieldAt(d, o);
            if first.Bad? then Bad else ResumeFields(done + [first.value], FieldsAt(d, first.end, left - 1))
  {
    var first := FieldAt(d, o);
    if first.Good? {
      var rest := FieldsAt(d, first.end, left - 1);
      if rest.Good? { assert done + ([first.value] + rest.value) == done + [first.value] + rest.value; }
    }
  }

  lemma ResumeNothing(items: Read<seq<Value>>, fields: Read<seq<Field>>)
    ensures Resume([], items) == items && ResumeFields([], fields) == fields
  {
    if items.Good? { assert [] + items.value == items.value; }
    if fields.Good? { assert [] + fields.value == fields.value; }
  }

  /** The list loop of _decode_at. */
  method DecodeItems(d: Bytes, start: nat, count: nat) returns (r: Read<seq<Value>>)
    requires start <= |d|
    ensures
      var raw := ItemsAt(d, start, count);
      r == if raw.Bad? then Bad else Good(CollapseItems(raw.value), raw.end)
    decreases |d| - start, 1
  {
    ResumeNothing(ItemsAt(d, start, count), Bad);
    var items: seq<Value> := [];
    ghost var done: seq<Value> := [];
    var offset := start;
    for n := 0 to count
      invariant start <= offset <= |d|
      invariant items == CollapseItems(done)
      invariant Resume(done, ItemsAt(d, offset, count - n)) == Resume([], ItemsAt(d, start, count))
    {
      var item := DecodeAt(d, offset);
      ResumeStep(d, done, offset, count - n);
      if item.Bad? { return Bad; }
      ghost var raw := RawAt(d, offset).value;
      CollapseItemsAppend(done, raw);
      done := done + [raw];
      items := items + [item.value];
      offset := item.end;
    }
    assert done + [] == done;
    r := Good(items, offset);
  }

  /** The dictionary loop of _decode_at. */
  method DecodeFields(d: Bytes, start: nat, count: nat) returns (r: Read<seq<Field>>)
    requires start <= |d|
    ensures
      var raw := FieldsAt(d, start, count);
      r == if raw.Bad? then Bad else Good(DictOf(CollapseFields(raw.value)), raw.end)
    decreases |d| - start, 1
  {
    ResumeNothing(Bad, FieldsAt(d, start, count));
    var obj: seq<Field> := [];
    ghost var done: seq<Field> := [];
    var offset := start;
    for n := 0 to count
      invariant start <= offset <= |d|
      invariant obj == DictOf(CollapseFields(done))
      invariant ResumeFields(done, FieldsAt(d, offset, count - n)) == ResumeFields([], FieldsAt(d, start, count))
    {
      ResumeFieldsStep(d, done, offset, count - n);
      var key := PrefixedAt(d, offset);
      if key.Bad? { return Bad; }
      var value := DecodeAt(d, key.end);
      if value.Bad? { return Bad; }
      ghost var raw := FieldAt(d, offset).value;
      var f := Field(key.value, value.value);
      CollapseFieldsAppend(done, raw);
      DictGrows(CollapseFields(done), f);
      done := done + [raw];
      obj := Put(obj, f);
      offset := value.end;
    }
    assert done + [] == done;
    r := Good(obj, offset);
  }

  lemma DictGrows(pairs: seq<Field>, f: Field)
    ensures DictOf(pairs + [f]) == Put(DictOf(pairs), f)
  {
    assert (pairs + [f])[..|pairs|] == pairs;
  }

  /** _decode_at: one value and where it ends. */
  method DecodeAt(d: Bytes, o: nat) returns (r: Read<Value>)
    requires o <= |d|
    ensures r == Decoded(d, o)
    decreases |d| - o, 0
  {
    if o == |d| { return Bad; }
    if d[o] != ARRAY && d[o] != OBJECT { return LeafAt(d, o); }
    var size := U32At(d, o + 1);
    if size.None? || o + 5 + size.value > |d| { return Bad; }
    var count := U32At(d, o + 5);
    if count.None? { return Bad; }
    var end := o + 5 + size.value;
    if d[o] == ARRAY {
      var items := DecodeItems(d, o + 9, count.value);
      if items.Bad? || items.end != end { return Bad; }
      return Good(Array(items.value), end);
    }
    var fields := DecodeFields(d, o + 9, count.value);
    if fields.Bad? || fields.end != end { return Bad; }
    return Good(Object(fields.value), end);
  }

  /** decode: exactly one value, no trailing bytes. */
  method Decode(d: Bytes) returns (r: Option<Value>)
    ensures r.Some? <==> RawAt(d, 0).Good? && RawAt(d, 0).end == |d|
    ensures r.Some? ==> r.value == Collapse(RawAt(d, 0).value)
  {
    var v := DecodeAt(d, 0);
    r := if v.Good? && v.end == |d| then Some(v.value) else None;
  }

  // ---- the round trip through the code ------------------------------------------------

  /** No dictionary anywhere in `v` repeats a key, as Python's cannot. */
  ghost predicate Dictionaries(v: Value)
    decreases v
  {
    match v
    case Array(items) => forall x | x in items :: Dictionaries(x)
    case Object(fields) => KeysDistinct(fields) && forall f | f in fields :: Dictionaries(f.value)
    case _ => true
  }

  ghost predicate KeysDistinct(fields: seq<Field>) {
    forall a, b | 0 <= a < b < |fields| :: fields[a].key != fields[b].key
  }

  lemma {:induction false} PutNew(obj: seq<Field>, f: Field)
    requires forall x | x in obj :: x.key != f.key
    ensures Put(obj, f) == obj + [f]
  {
    if obj != [] { PutNew(obj[1..], f); }
  }

  lemma {:induction false} DictOfDistinct(fields: seq<Field>)
    requires KeysDistinct(fields)
    ensures DictOf(fields) == fields
  {
    if fields != [] {
      var init, f := fields[..|fields| - 1], fields[|fields| - 1];
      DictOfDistinct(init);
      PutNew(init, f);
      assert fields == init + [f];
    }
  }

  lemma {:induction false} CollapseDictionaries(v: Value)
    requires Dictionaries(v)
    ensures Collapse(v) == v
    decreases v, 1
  {
    match v
    case Array(items) => CollapseAllItems(items);
    case Object(fields) =>
      CollapseAllFields(fields);
      DictOfDistinct(fields);
    case _ =>
  }

  lemma {:induction false} CollapseAllItems(items: seq<Value>)
    requires forall x | x in items :: Dictionaries(x)
    ensures CollapseItems(items) == items
    decreases items, 0
  {
    if items != [] {
      CollapseDictionaries(items[0]);
      CollapseAllItems(items[1..]);
      assert items == [items[0]] + items[1..];
    }
  }

  lemma {:induction false} CollapseAllFields(fields: seq<Field>)
    requires forall f | f in fields :: Dictionaries(f.value)
    ensures CollapseFields(fields) == fields
    decreases fields, 0
  {
    if fields != [] {
      CollapseDictionaries(fields[0].value);
      CollapseAllFields(fields[1..]);
      assert fields == [fields[0]] + fields[1..];
    }
  }

  lemma {:induction false} SentDictionaries(v: Value, pack: int -> Eight)
    requires Native(v) && Dictionaries(v)
    ensures Dictionaries(Sent(v, pack))
    decreases v
  {
    match v
    case Array(items) =>
      forall x | x in SentItems(items, pack) ensures Dictionaries(x) {
        var i :| 0 <= i < |items| && SentItems(items, pack)[i] == x;
        SentDictionaries(items[i], pack);
      }
    case Object(fields) =>
      forall f | f in SentFields(fields, pack) ensures Dictionaries(f.value) {
        var i :| 0 <= i < |fields| && SentFields(fields, pack)[i] == f;
        SentDictionaries(fields[i].value, pack);
      }
    case _ =>
  }

  /**
   decode(encode(v)) through the back-patching encoder and the looping decoder:
   the value with its unsafe integers turned into floats, so `v` itself exactly
   when all its integers are safe.
   */
  method RoundTrip(v: Value, pack: int -> Eight) returns (r: Option<Value>)
    requires Native(v) && Dictionaries(v)
    ensures r == if Fits(Sent(v, pack)) then Some(Sent(v, pack)) else None
    ensures r.Some? ==> (r.value == v <==> AllSafe(v))
  {
    var s := Sent(v, pack);
    SentUnchangedExactly(v, pack);
    var bytes := Encode(v, pack);
    if bytes.None? { return None; }
    assert StandsAt(bytes.value, 0, Encoding(s)) by { assert bytes.value[0..0 + |bytes.value|] == bytes.value; }
    DecodeInvertsEncode(bytes.value, 0, s);
    SentDictionaries(v, pack);
    CollapseDictionaries(s);
    r := Decode(bytes.value);
  }
}
