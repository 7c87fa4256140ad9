/**
 The binjson codec of packages/python/sukkal/binjson.py: its format as
 functions on byte sequences, and what makes it a codec.

 Text is kept as its bytes; FLOAT and DATE fields are opaque eight bytes and a
 64-bit integer.  `RawAt` reads a value with every field pair it finds; the
 decoder's dictionaries are those pairs collapsed (`Collapse`).
 */
module Binjson {
  import opened Options
  import opened Words

  type Byte = b: int | 0 <= b < 256
  type Bytes = seq<Byte>

  const NULL: Byte := 0x00
  const FALSE: Byte := 0x01
  const TRUE: Byte := 0x02
  const INT: Byte := 0x03
  const FLOAT: Byte := 0x04
  const STRING: Byte := 0x05
  const OID: Byte := 0x06
  const DATE: Byte := 0x07
  const POINTER_AT: Byte := 0x08
  const BINARY: Byte := 0x09
  const ARRAY: Byte := 0x10
  const OBJECT: Byte := 0x11

  const I63: int := 0x8000_0000_0000_0000
  const MAX_SAFE_INT: int := 0x1F_FFFF_FFFF_FFFF

  datatype Value =
    | Null
    | Bool(b: bool)
    | Int(i: int)
    | Float(bits: Bytes)
    | Str(text: Bytes)
    | Oid(id: Bytes)
    | Date(ms: int)
    | Pointer(offset: int)
    | Binary(blob: Bytes)
    | Array(items: seq<Value>)
    | Object(fields: seq<Field>)

  datatype Field = Field(key: Bytes, value: Value)

  // ---- little-endian scalars ---------------------------------------------------

  function LE(n: nat, width: nat): (r: Bytes)
    ensures |r| == width
  {
    if width == 0 then [] else [n % 256] + LE(n / 256, width - 1)
  }

  function UnLE(b: Bytes): nat {
    if b == [] then 0 else b[0] + 256 * UnLE(b[1..])
  }

  function Pow256(k: nat): nat { if k == 0 then 1 else 256 * Pow256(k - 1) }

  lemma {:induction false} LERoundTrip(n: nat, width: nat)
    requires n < Pow256(width)
    ensures UnLE(LE(n, width)) == n
  {
    if width > 0 {
      LERoundTrip(n / 256, width - 1);
      assert LE(n, width)[1..] == LE(n / 256, width - 1);
    }
  }

  lemma {:induction false} UnLERoundTrip(b: Bytes)
    ensures UnLE(b) < Pow256(|b|) && LE(UnLE(b), |b|) == b
  {
    if b != [] {
      UnLERoundTrip(b[1..]);
      assert UnLE(b) % 256 == b[0] && UnLE(b) / 256 == UnLE(b[1..]);
    }
  }

  lemma WidthBounds()
    ensures Pow256(4) == U32 && Pow256(8) == U64
  {
    assert Pow256(2) == 65536;
    assert Pow256(6) == 65536 * 65536 * 65536;
  }

  /** Two's complement in 64 bits. */
  function Unsigned(i: int): int { if i < 0 then i + U64 else i }

  function Signed(n: nat): int { if n >= I63 then n - U64 else n }

  // ---- the encoding --------------------------------------------------------------

  predicate IsContainer(v: Value) { v.Array? || v.Object? }

  /** A value that holds no other value. */
  function LeafBytes(v: Value): (r: Bytes)
    requires !IsContainer(v) && LeafShaped(v)
    ensures |r| >= 1
  {
    match v
    case Null => [NULL]
    case Bool(b) => [if b then TRUE else FALSE]
    case Int(i) => [INT] + LE(Unsigned(i), 8)
    case Float(bits) => [FLOAT] + bits
    case Str(text) => [STRING] + KeyBytes(text)
    case Oid(id) => [OID] + id
    case Date(ms) => [DATE] + LE(Unsigned(ms), 8)
    case Pointer(offset) => [POINTER_AT] + LE(offset, 8)
    case Binary(blob) => [BINARY] + KeyBytes(blob)
  }

  function Encoding(v: Value): (r: Bytes)
    requires Shaped(v)
    ensures |r| >= 1
    decreases v, 1
  {
    match v
    case Array(items) => Container(ARRAY, |items|, ItemBytes(items))
    case Object(fields) => Container(OBJECT, |fields|, FieldBytes(fields))
    case _ => LeafBytes(v)
  }

  /** Type byte, content size, element count, content. */
  function Container(kind: Byte, count: nat, content: Bytes): Bytes {
    [kind] + (LE(4 + |content|, 4) + (LE(count, 4) + content))
  }

  function ItemBytes(items: seq<Value>): Bytes
    requires forall v | v in items :: Shaped(v)
    decreases items, 0
  {
    if items == [] then [] else Encoding(items[0]) + ItemBytes(items[1..])
  }

  function FieldBytes(fields: seq<Field>): Bytes
    requires forall f | f in fields :: Shaped(f.value)
    decreases fields, 0
  {
    if fields == [] then [] else OneField(fields[0]) + FieldBytes(fields[1..])
  }

  function OneField(f: Field): Bytes
    requires Shaped(f.value)
    decreases f, 0
  {
    KeyBytes(f.key) + Encoding(f.value)
  }

  /** Length-prefixed bytes: all of a key, and all but the type byte of text or a blob. */
  function KeyBytes(key: Bytes): Bytes { LE(|key|, 4) + key }

  /** What the Python types guarantee of a value: fixed widths and ranges. */
  predicate LeafShaped(v: Value) {
    match v
    case Int(i) => -I63 <= i < I63
    case Float(bits) => |bits| == 8
    case Oid(id) => |id| == 12
    case Date(ms) => -I63 <= ms < I63
    case Pointer(offset) => 0 <= offset < U64
    case _ => true
  }

  predicate Shaped(v: Value)
    decreases v
  {
    match v
    case Array(items) => forall x | x in items :: Shaped(x)
    case Object(fields) => forall f | f in fields :: Shaped(f.value)
    case _ => LeafShaped(v)
  }

  predicate LeafFits(v: Value) {
    (v.Str? ==> |v.text| < U32) && (v.Binary? ==> |v.blob| < U32)
  }

  /** Every length fits its 32-bit field. */
  predicate Fits(v: Value)
    requires Shaped(v)
    decreases v
  {
    match v
    case Array(items) =>
      && |items| < U32 && 4 + |ItemBytes(items)| < U32
      && forall x | x in items :: Fits(x)
    case Object(fields) =>
      && |fields| < U32 && 4 + |FieldBytes(fields)| < U32
      && forall f | f in fields :: |f.key| < U32 && Fits(f.value)
    case _ => LeafFits(v)
  }

  // ---- reading ----------------------------------------------------------------------

  function U32At(d: Bytes, o: nat): Option<nat> {
    if o + 4 > |d| then None else Some(UnLE(d[o..o + 4]))
  }

  datatype Read<+T> = Bad | Good(value: T, end: nat)

  /** A value of any other kind than the two containers. */
  function LeafAt(d: Bytes, o: nat): (r: Read<Value>)
    requires o < |d|
    ensures r.Good? ==> o < r.end <= |d| && !IsContainer(r.value)
  {
    var kind := d[o];
    if kind == NULL then Good(Null, o + 1)
    else if kind == TRUE then Good(Bool(true), o + 1)
    else if kind == FALSE then Good(Bool(false), o + 1)
    else if kind == INT || kind == FLOAT || kind == DATE || kind == POINTER_AT then
      if o + 9 > |d| then Bad else Good(Scalar(kind, d[o + 1..o + 9]), o + 9)
    else if kind == OID then
      if o + 13 > |d| then Bad else Good(Oid(d[o + 1..o + 13]), o + 13)
    else if kind == STRING || kind == BINARY then
      var raw := PrefixedAt(d, o + 1);
      if raw.Bad? then Bad else Good(if kind == STRING then Str(raw.value) else Binary(raw.value), raw.end)
    else Bad
  }

  /** A 32-bit length and that many bytes. */
  function PrefixedAt(d: Bytes, o: nat): (r: Read<Bytes>)
    ensures r.Good? ==> o < r.end <= |d|
  {
    var n := U32At(d, o);
    if n.None? || o + 4 + n.value > |d| then Bad else Good(d[o + 4..o + 4 + n.value], o + 4 + n.value)
  }

  function RawAt(d: Bytes, o: nat): (r: Read<Value>)
    requires o <= |d|
    ensures r.Good? ==> o < r.end <= |d|
    decreases |d| - o, 0
  {
    if o == |d| then Bad
    else if d[o] == ARRAY || d[o] == OBJECT then
      var size := U32At(d, o + 1);
      if size.None? || o + 5 + size.value > |d| then Bad
      else
        var count := U32At(d, o + 5);
        if count.None? then Bad
        else if d[o] == ARRAY then
          var r := ItemsAt(d, o + 9, count.value);
          if r.Bad? || r.end != o + 5 + size.value then Bad else Good(Array(r.value), r.end)
        else
          var r := FieldsAt(d, o + 9, count.value);
          if r.Bad? || r.end != o + 5 + size.value then Bad else Good(Object(r.value), r.end)
    else LeafAt(d, o)
  }

  /** The eight-byte scalars. */
  function Scalar(kind: Byte, b: Bytes): Value {
    if kind == INT then Int(Signed(UnLE(b)))
    else if kind == FLOAT then Float(b)
    else if kind == DATE then Date(Signed(UnLE(b)))
    else Pointer(UnLE(b))
  }

  function ItemsAt(d: Bytes, o: nat, count: nat): (r: Read<seq<Value>>)
    requires o <= |d|
    ensures r.Good? ==> o <= r.end <= |d|
    decreases |d| - o, 1
  {
    if count == 0 then Good([], o)
    else
      var first := RawAt(d, o);
      if first.Bad? then Bad
      else
        var rest := ItemsAt(d, first.end, count - 1);
        if rest.Bad? then Bad else Good([first.value] + rest.value, rest.end)
  }

  function FieldAt(d: Bytes, o: nat): (r: Read<Field>)
    requires o <= |d|
    ensures r.Good? ==> o < r.end <= |d|
    decreases |d| - o, 1
  {
    var key := PrefixedAt(d, o);
    if key.Bad? then Bad
    else
      var v := RawAt(d, key.end);
      if v.Bad? then Bad else Good(Field(key.value, v.value), v.end)
  }

  function FieldsAt(d: Bytes, o: nat, count: nat): (r: Read<seq<Field>>)
    requires o <= |d|
    ensures r.Good? ==> o <= r.end <= |d|
    decreases |d| - o, 2
  {
    if count == 0 then Good([], o)
    else
      var first := FieldAt(d, o);
      if first.Bad? then Bad
      else
        var rest := FieldsAt(d, first.end, count - 1);
        if rest.Bad? then Bad else Good([first.value] + rest.value, rest.end)
  }

  /** value_size: the on-wire size of a value, without decoding it. */
  function ValueSize(d: Bytes, o: nat): Option<nat> {
    if o + 1 > |d| then None
    else
      var kind := d[o];
      if kind == NULL || kind == TRUE || kind == FALSE then Some(1)
      else if kind == INT || kind == FLOAT || kind == DATE || kind == POINTER_AT then Some(9)
      else if kind == OID then Some(13)
      else if kind == STRING || kind == BINARY || kind == ARRAY || kind == OBJECT then
        var n := U32At(d, o + 1);
        if n.None? then None else Some(5 + n.value)
      else None
  }

  /** Whatever decodes consumes exactly the size it announces. */
  lemma DecodeConsumesItsSize(d: Bytes, o: nat)
    requires o <= |d| && RawAt(d, o).Good?
    ensures ValueSize(d, o) == Some(RawAt(d, o).end - o)
  {
  }

  // ---- decode inverts encode ------------------------------------------------------------

  ghost predicate StandsAt(d: Bytes, o: nat, b: Bytes) {
    o + |b| <= |d| && d[o..o + |b|] == b
  }

  lemma StandsSplit(d: Bytes, o: nat, a: Bytes, b: Bytes)
    requires StandsAt(d, o, a + b)
    ensures StandsAt(d, o, a) && StandsAt(d, o + |a|, b)
  {
    assert (a + b)[..|a|] == a && (a + b)[|a|..] == b;
  }

  lemma U32Stands(d: Bytes, o: nat, n: nat)
    requires StandsAt(d, o, LE(n, 4)) && n < U32
    ensures U32At(d, o) == Some(n)
  {
    WidthBounds();
    LERoundTrip(n, 4);
  }

  lemma ScalarStands(d: Bytes, o: nat, v: Value)
    requires LeafShaped(v) && (v.Int? || v.Float? || v.Date? || v.Pointer?) && StandsAt(d, o, LeafBytes(v))
    ensures LeafAt(d, o) == Good(v, o + 9)
  {
    var e := LeafBytes(v);
    assert d[o] == d[o..o + |e|][0] == e[0];
    assert d[o + 1..o + 9] == d[o..o + 9][1..];
    WidthBounds();
    if v.Int? { LERoundTrip(Unsigned(v.i), 8); }
    if v.Date? { LERoundTrip(Unsigned(v.ms), 8); }
    if v.Pointer? { LERoundTrip(v.offset, 8); }
  }

  lemma PrefixedStands(d: Bytes, o: nat, raw: Bytes)
    requires |raw| < U32 && StandsAt(d, o, KeyBytes(raw))
    ensures PrefixedAt(d, o) == Good(raw, o + |KeyBytes(raw)|)
  {
    StandsSplit(d, o, LE(|raw|, 4), raw);
    U32Stands(d, o, |raw|);
  }

  /** Reading where a leaf's bytes stand gives the leaf back. */
  lemma LeafStands(d: Bytes, o: nat, v: Value)
    requires !IsContainer(v) && LeafShaped(v) && LeafFits(v) && StandsAt(d, o, LeafBytes(v))
    ensures o < |d| && d[o] != ARRAY && d[o] != OBJECT
    ensures LeafAt(d, o) == Good(v, o + |LeafBytes(v)|)
  {
    var e := LeafBytes(v);
    assert d[o] == d[o..o + |e|][0] == e[0];
    if v.Str? || v.Binary? {
      var raw := if v.Str? then v.text else v.blob;
      StandsSplit(d, o, [e[0]], KeyBytes(raw));
      PrefixedStands(d, o + 1, raw);
    } else if v.Oid? {
      assert d[o + 1..o + 13] == d[o..o + 13][1..];
    } else if !v.Null? && !v.Bool? {
      ScalarStands(d, o, v);
    }
  }

  /** A container's frame, with its content where it should be. */
  lemma FrameStands(d: Bytes, o: nat, kind: Byte, count: nat, content: Bytes)
    requires StandsAt(d, o, Container(kind, count, content)) && count < U32 && 4 + |content| < U32
    ensures
      && o + 9 + |content| <= |d| && d[o] == kind
      && U32At(d, o + 1) == Some(4 + |content|) && U32At(d, o + 5) == Some(count)
      && StandsAt(d, o + 9, content)
  {
    var size, n := LE(4 + |content|, 4), LE(count, 4);
    StandsSplit(d, o, [kind], size + (n + content));
    StandsSplit(d, o + 1, size, n + content);
    StandsSplit(d, o + 5, n, content);
    U32Stands(d, o + 1, 4 + |content|);
    U32Stands(d, o + 5, count);
    assert d[o] == d[o..o + 1][0];
  }

  lemma ArrayStands(d: Bytes, o: nat, items: seq<Value>)
    requires Shaped(Array(items)) && Fits(Array(items)) && StandsAt(d, o, Encoding(Array(items)))
    ensures o + 9 <= |d| && StandsAt(d, o + 9, ItemBytes(items))
    ensures ItemsAt(d, o + 9, |items|) == Good(items, o + 9 + |ItemBytes(items)|) ==>
              RawAt(d, o) == Good(Array(items), o + |Encoding(Array(items))|)
  {
    FrameStands(d, o, ARRAY, |items|, ItemBytes(items));
  }

  lemma ObjectStands(d: Bytes, o: nat, fields: seq<Field>)
    requires Shaped(Object(fields)) && Fits(Object(fields)) && StandsAt(d, o, Encoding(Object(fields)))
    ensures o + 9 <= |d| && StandsAt(d, o + 9, FieldBytes(fields))
    ensures FieldsAt(d, o + 9, |fields|) == Good(fields, o + 9 + |FieldBytes(fields)|) ==>
              RawAt(d, o) == Good(Object(fields), o + |Encoding(Object(fields))|)
  {
    FrameStands(d, o, OBJECT, |fields|, FieldBytes(fields));
  }

  /** Decoding where an encoding stands gives the value back and stops behind it. */
  lemma {:induction false} DecodeInvertsEncode(d: Bytes, o: nat, v: Value)
    requires Shaped(v) && Fits(v) && StandsAt(d, o, Encoding(v))
    ensures RawAt(d, o) == Good(v, o + |Encoding(v)|)
    decreases v, 1
  {
    match v
    case Array(items) =>
      ArrayStands(d, o, items);
      ItemsInvert(d, o + 9, items);
    case Object(fields) =>
      ObjectStands(d, o, fields);
      FieldsInvert(d, o + 9, fields);
    case _ => LeafStands(d, o, v);
  }

  ghost predicate FitItems(items: seq<Value>) {
    forall v | v in items :: Shaped(v) && Fits(v)
  }

  ghost predicate FitFields(fields: seq<Field>) {
    forall f | f in fields :: Shaped(f.value) && Fits(f.value) && |f.key| < U32
  }

  lemma ItemBytesSplit(d: Bytes, o: nat, vs: seq<Value>)
    requires vs != [] && FitItems(vs) && StandsAt(d, o, ItemBytes(vs))
    ensures FitItems(vs[1..]) && Fits(vs[0])
    ensures StandsAt(d, o, Encoding(vs[0])) && StandsAt(d, o + |Encoding(vs[0])|, ItemBytes(vs[1..]))
    ensures |ItemBytes(vs)| == |Encoding(vs[0])| + |ItemBytes(vs[1..])|
  {
    FitTail(vs);
    StandsSplit(d, o, Encoding(vs[0]), ItemBytes(vs[1..]));
  }

  lemma FitTail(vs: seq<Value>)
    requires vs != [] && FitItems(vs)
    ensures Shaped(vs[0]) && Fits(vs[0]) && FitItems(vs[1..])
  {
  }

  lemma ItemsStep(d: Bytes, o: nat, next: nat, items: seq<Value>, end: nat)
    requires o <= next <= |d| && items != []
    requires RawAt(d, o) == Good(items[0], next) && ItemsAt(d, next, |items| - 1) == Good(items[1..], end)
    ensures ItemsAt(d, o, |items|) == Good(items, end)
  {
    assert items == [items[0]] + items[1..];
  }

  lemma {:induction false} ItemsInvert(d: Bytes, o: nat, items: seq<Value>)
    requires FitItems(items) && StandsAt(d, o, ItemBytes(items))
    ensures ItemsAt(d, o, |items|) == Good(items, o + |ItemBytes(items)|)
    decreases items, 0
  {
    if items != [] {
      ItemBytesSplit(d, o, items);
      var next := o + |Encoding(items[0])|;
      DecodeInvertsEncode(d, o, items[0]);
      ItemsInvert(d, next, items[1..]);
      ItemsStep(d, o, next, items, o + |ItemBytes(items)|);
    }
  }

  lemma {:induction false} FieldInvert(d: Bytes, o: nat, f: Field)
    requires Shaped(f.value) && Fits(f.value) && |f.key| < U32 && StandsAt(d, o, OneField(f))
    ensures FieldAt(d, o) == Good(f, o + |OneField(f)|)
    decreases f, 0
  {
    StandsSplit(d, o, KeyBytes(f.key), Encoding(f.value));
    PrefixedStands(d, o, f.key);
    DecodeInvertsEncode(d, o + |KeyBytes(f.key)|, f.value);
  }

  lemma FieldBytesSplit(d: Bytes, o: nat, fields: seq<Field>)
    requires fields != [] && FitFields(fields) && StandsAt(d, o, FieldBytes(fields))
    ensures Shaped(fields[0].value) && Fits(fields[0].value) && |fields[0].key| < U32 && FitFields(fields[1..])
    ensures StandsAt(d, o, OneField(fields[0])) && StandsAt(d, o + |OneField(fields[0])|, FieldBytes(fields[1..]))
    ensures |FieldBytes(fields)| == |OneField(fields[0])| + |FieldBytes(fields[1..])|
  {
    FieldBytesParts(fields);
    hide OneField, FieldBytes, FitFields, Fits;
    StandsSplit(d, o, OneField(fields[0]), FieldBytes(fields[1..]));
  }

  lemma FieldBytesParts(fields: seq<Field>)
    requires fields != [] && FitFields(fields)
    ensures Shaped(fields[0].value) && Fits(fields[0].value) && |fields[0].key| < U32 && FitFields(fields[1..])
    ensures FieldBytes(fields) == OneField(fields[0]) + FieldBytes(fields[1..])
  {
  }

  lemma {:induction false} FieldsInvert(d: Bytes, o: nat, fields: seq<Field>)
    requires FitFields(fields) && StandsAt(d, o, FieldBytes(fields))
    ensures FieldsAt(d, o, |fields|) == Good(fields, o + |FieldBytes(fields)|)
    decreases fields, 0
  {
    if fields != [] {
      FieldBytesSplit(d, o, fields);
      hide OneField, FieldBytes, FieldsAt, FieldAt, FitFields, Fits;
      var next := o + |OneField(fields[0])|;
      FieldInvert(d, o, fields[0]);
      FieldsInvert(d, next, fields[1..]);
      FieldsStep(d, o, next, fields, o + |FieldBytes(fields)|);
    }
  }

  lemma FieldsStep(d: Bytes, o: nat, next: nat, fields: seq<Field>, end: nat)
    requires o <= next <= |d| && fields != []
    requires FieldAt(d, o) == Good(fields[0], next) && FieldsAt(d, next, |fields| - 1) == Good(fields[1..], end)
    ensures FieldsAt(d, o, |fields|) == Good(fields, end)
  {
    assert fields == [fields[0]] + fields[1..];
  }

  // ---- encode inverts decode ------------------------------------------------------------

  lemma U32Written(d: Bytes, o: nat)
    requires U32At(d, o).Some?
    ensures U32At(d, o).value < U32 && LE(U32At(d, o).value, 4) == d[o..o + 4]
  {
    UnLERoundTrip(d[o..o + 4]);
    WidthBounds();
  }

  lemma ScalarWritten(kind: Byte, b: Bytes)
    requires |b| == 8 && (kind == INT || kind == FLOAT || kind == DATE || kind == POINTER_AT)
    ensures LeafShaped(Scalar(kind, b)) && LeafBytes(Scalar(kind, b)) == [kind] + b
  {
    UnLERoundTrip(b);
    WidthBounds();
    assert Unsigned(Signed(UnLE(b))) == UnLE(b);
  }

  lemma Pieces(d: Bytes, a: nat, b: nat, c: nat)
    requires a <= b <= c <= |d|
    ensures d[a..b] + d[b..c] == d[a..c]
  {
  }

  lemma PrefixedWritten(d: Bytes, o: nat)
    requires PrefixedAt(d, o).Good?
    ensures var r := PrefixedAt(d, o); |r.value| < U32 && KeyBytes(r.value) == d[o..r.end]
  {
    U32Written(d, o);
    Pieces(d, o, o + 4, PrefixedAt(d, o).end);
  }

  lemma FrameWritten(d: Bytes, o: nat, end: nat, count: nat)
    requires o + 9 <= end <= |d|
    requires U32At(d, o + 1) == Some(end - o - 5) && U32At(d, o + 5) == Some(count)
    ensures Container(d[o], count, d[o + 9..end]) == d[o..end] && count < U32 && end - o - 5 < U32
  {
    U32Written(d, o + 1);
    U32Written(d, o + 5);
    assert [d[o]] == d[o..o + 1];
    Pieces(d, o + 5, o + 9, end);
    Pieces(d, o + 1, o + 5, end);
    Pieces(d, o, o + 1, end);
  }

  lemma ArrayWritten(d: Bytes, o: nat, items: seq<Value>, end: nat)
    requires o < |d| && RawAt(d, o) == Good(Array(items), end) && d[o] == ARRAY
    requires FitItems(items) && ItemBytes(items) == d[o + 9..end] && U32At(d, o + 5) == Some(|items|)
    ensures Shaped(Array(items)) && Fits(Array(items)) && Encoding(Array(items)) == d[o..end]
  {
    FrameWritten(d, o, end, |items|);
  }

  lemma ObjectWritten(d: Bytes, o: nat, fields: seq<Field>, end: nat)
    requires o < |d| && RawAt(d, o) == Good(Object(fields), end) && d[o] == OBJECT
    requires FitFields(fields) && FieldBytes(fields) == d[o + 9..end] && U32At(d, o + 5) == Some(|fields|)
    ensures Shaped(Object(fields)) && Fits(Object(fields)) && Encoding(Object(fields)) == d[o..end]
  {
    FrameWritten(d, o, end, |fields|);
  }

  lemma LeafWritten(d: Bytes, o: nat)
    requires o < |d| && LeafAt(d, o).Good?
    ensures var r := LeafAt(d, o); LeafShaped(r.value) && LeafFits(r.value) && LeafBytes(r.value) == d[o..r.end]
  {
    var kind := d[o];
    assert [kind] == d[o..o + 1];
    Pieces(d, o, o + 1, LeafAt(d, o).end);
    if kind == STRING || kind == BINARY {
      PrefixedWritten(d, o + 1);
    } else if kind == INT || kind == FLOAT || kind == DATE || kind == POINTER_AT {
      ScalarWritten(kind, d[o + 1..o + 9]);
    }
  }

  /** Every byte string the decoder accepts is the one encoding of what it reads. */
  lemma {:induction false} EncodeInvertsDecode(d: Bytes, o: nat)
    requires o <= |d| && RawAt(d, o).Good?
    ensures var r := RawAt(d, o);
            Shaped(r.value) && Fits(r.value) && Encoding(r.value) == d[o..r.end]
    decreases |d| - o, 0
  {
    if d[o] == ARRAY {
      ItemsWritten(d, o + 9, U32At(d, o + 5).value);
      ArrayWritten(d, o, RawAt(d, o).value.items, RawAt(d, o).end);
    } else if d[o] == OBJECT {
      FieldsWritten(d, o + 9, U32At(d, o + 5).value);
      ObjectWritten(d, o, RawAt(d, o).value.fields, RawAt(d, o).end);
    } else {
      LeafWritten(d, o);
    }
  }

  lemma {:induction false} ItemsWritten(d: Bytes, o: nat, count: nat)
    requires o <= |d| && ItemsAt(d, o, count).Good?
    ensures var r := ItemsAt(d, o, count);
            FitItems(r.value) && |r.value| == count && ItemBytes(r.value) == d[o..r.end]
    decreases |d| - o, 1
  {
    if count > 0 {
      var first := RawAt(d, o);
      EncodeInvertsDecode(d, o);
      ItemsWritten(d, first.end, count - 1);
      var rest := ItemsAt(d, first.end, count - 1);
      assert ([first.value] + rest.value)[1..] == rest.value;
      Pieces(d, o, first.end, rest.end);
    }
  }

  lemma {:induction false} FieldWritten(d: Bytes, o: nat)
    requires o <= |d| && FieldAt(d, o).Good?
    ensures var r := FieldAt(d, o);
            && Shaped(r.value.value) && Fits(r.value.value) && |r.value.key| < U32
            && OneField(r.value) == d[o..r.end]
    decreases |d| - o, 1
  {
    var key := PrefixedAt(d, o);
    PrefixedWritten(d, o);
    EncodeInvertsDecode(d, key.end);
    Pieces(d, o, key.end, FieldAt(d, o).end);
  }

  lemma {:induction false} FieldsWritten(d: Bytes, o: nat, count: nat)
    requires o <= |d| && FieldsAt(d, o, count).Good?
    ensures var r := FieldsAt(d, o, count);
            FitFields(r.value) && |r.value| == count && FieldBytes(r.value) == d[o..r.end]
    decreases |d| - o, 2
  {
    if count > 0 {
      var first := FieldAt(d, o);
      FieldWritten(d, o);
      FieldsWritten(d, first.end, count - 1);
      var rest := FieldsAt(d, first.end, count - 1);
      assert ([first.value] + rest.value)[1..] == rest.value;
      Pieces(d, o, first.end, rest.end);
    }
  }

  // ---- consequences ------------------------------------------------------------------------

  /** No encoding is a prefix of another. */
  lemma PrefixFree(v: Value, w: Value)
    requires Shaped(v) && Fits(v) && Shaped(w) && Fits(w) && Encoding(v) <= Encoding(w)
    ensures v == w
  {
    var d := Encoding(w);
    assert d[0..0 + |Encoding(v)|] == Encoding(v);
    assert d[0..0 + |d|] == d;
    DecodeInvertsEncode(d, 0, v);
    DecodeInvertsEncode(d, 0, w);
  }

  /** decode_stream: every value in a run of concatenated encodings. */
  function StreamFrom(d: Bytes, o: nat): Read<seq<Value>>
    requires o <= |d|
    decreases |d| - o
  {
    if o == |d| then Good([], o)
    else
      var first := RawAt(d, o);
      if first.Bad? then Bad
      else
        var rest := StreamFrom(d, first.end);
        if rest.Bad? then Bad else Good([first.value] + rest.value, rest.end)
  }

  /** A stream of encodings reads back as the values, however many there are. */
  lemma {:induction false} StreamRoundTrip(d: Bytes, o: nat, vs: seq<Value>)
    requires FitItems(vs) && o <= |d| && d[o..] == ItemBytes(vs)
    ensures StreamFrom(d, o) == Good(vs, |d|)
    decreases |vs|
  {
    if vs != [] {
      var next := o + |Encoding(vs[0])|;
      assert StandsAt(d, o, ItemBytes(vs));
      ItemBytesSplit(d, o, vs);
      assert d[next..] == ItemBytes(vs[1..]);
      DecodeInvertsEncode(d, o, vs[0]);
      StreamRoundTrip(d, next, vs[1..]);
      StreamStep(d, o, next, vs);
    }
  }

  lemma StreamStep(d: Bytes, o: nat, next: nat, vs: seq<Value>)
    requires o < next <= |d| && vs != []
    requires RawAt(d, o) == Good(vs[0], next) && StreamFrom(d, next) == Good(vs[1..], |d|)
    ensures StreamFrom(d, o) == Good(vs, |d|)
  {
    assert vs == [vs[0]] + vs[1..];
  }
}
