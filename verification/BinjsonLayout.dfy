/** The bytes of the binjson format, byte for byte. */
module BinjsonLayout {
  import opened Options
  import opened Words
  import opened Binjson
  import opened BinjsonCodec
  import opened Visiting

  /** 32 bits, lowest byte first. */
  function Four(n: nat): Bytes {
    [n % 256, n / 0x100 % 256, n / 0x1_0000 % 256, n / 0x100_0000 % 256]
  }

  /** 64 bits, lowest byte first; a negative number in two's complement. */
  function Eight64(i: int): Bytes {
    var n := if i < 0 then i + 0x1_0000_0000_0000_0000 else i;
    [n % 256, n / 0x100 % 256, n / 0x1_0000 % 256, n / 0x100_0000 % 256,
     n / 0x1_0000_0000 % 256, n / 0x100_0000_0000 % 256, n / 0x1_0000_0000_0000 % 256, n / 0x100_0000_0000_0000 % 256]
  }

  lemma LEStep(n: nat, width: nat)
    requires width > 0
    ensures LE(n, width) == [n % 256] + LE(n / 256, width - 1)
  {
  }

  lemma FourIsLE(n: nat)
    ensures LE(n, 4) == Four(n)
  {
    Twice(n);
    Thrice(n);
    var a := n / 256;
    var b := a / 256;
    var c := b / 256;
    LEStep(n, 4);
    LEStep(a, 3);
    LEStep(b, 2);
    LEStep(c, 1);
    assert LE(c / 256, 0) == [];
    assert n / 0x100 == a && n / 0x1_0000 == b && n / 0x100_0000 == c;
    hide LE;
  }

  lemma Twice(n: nat)
    ensures n / 256 / 256 == n / 0x1_0000
  {
  }

  lemma Thrice(n: nat)
    ensures n / 256 / 256 / 256 == n / 0x100_0000
  {
    Twice(n);
    assert n / 0x1_0000 / 256 == n / 0x100_0000;
  }

  lemma EightIsLE(n: nat)
    requires n < U64
    ensures LE(n, 8) == Eight64(n)
  {
    FourIsLE(n);
    FourIsLE(n / 0x1_0000_0000);
    LESplits(n);
    Quotients(n);
  }

  lemma Quotients(n: nat)
    ensures n / 0x1_0000_0000 / 0x100 == n / 0x100_0000_0000
    ensures n / 0x1_0000_0000 / 0x1_0000 == n / 0x1_0000_0000_0000
    ensures n / 0x1_0000_0000 / 0x100_0000 == n / 0x100_0000_0000_0000
  {
  }

  lemma LESplits(n: nat)
    ensures LE(n, 8) == LE(n, 4) + LE(n / 0x1_0000_0000, 4)
  {
    var a := n / 256;
    var b := a / 256;
    var c := b / 256;
    var d := c / 256;
    LEStep(n, 8);
    LEStep(a, 7);
    LEStep(b, 6);
    LEStep(c, 5);
    LEStep(n, 4);
    LEStep(a, 3);
    LEStep(b, 2);
    LEStep(c, 1);
    assert LE(d, 0) == [];
    assert d == n / 0x1_0000_0000;
  }

  /** A value that holds no other: its type byte, and what follows it. */
  lemma LeafLayout(v: Value)
    requires Shaped(v) && Fits(v)
    ensures v.Null? ==> Encoding(v) == [0x00]
    ensures v.Bool? ==> Encoding(v) == [if v.b then 0x02 else 0x01]
    ensures v.Int? ==> Encoding(v) == [0x03] + Eight64(v.i)
    ensures v.Float? ==> Encoding(v) == [0x04] + v.bits
    ensures v.Str? ==> Encoding(v) == [0x05] + (Four(|v.text|) + v.text)
    ensures v.Oid? ==> Encoding(v) == [0x06] + v.id
    ensures v.Date? ==> Encoding(v) == [0x07] + Eight64(v.ms)
    ensures v.Pointer? ==> Encoding(v) == [0x08] + Eight64(v.offset)
    ensures v.Binary? ==> Encoding(v) == [0x09] + (Four(|v.blob|) + v.blob)
  {
    if v.Int? { EightIsLE(Unsigned(v.i)); }
    if v.Date? { EightIsLE(Unsigned(v.ms)); }
    if v.Pointer? { EightIsLE(v.offset); }
    if v.Str? { FourIsLE(|v.text|); }
    if v.Binary? { FourIsLE(|v.blob|); }
  }

  /** `content` is these pieces, one after the other. */
  predicate Joins(content: Bytes, pieces: seq<Bytes>) {
    if pieces == [] then content == []
    else |pieces[0]| <= |content| && content[..|pieces[0]|] == pieces[0] && Joins(content[|pieces[0]|..], pieces[1..])
  }

  lemma {:induction false} ItemsJoin(items: seq<Value>)
    requires forall v | v in items :: Shaped(v)
    ensures Joins(ItemBytes(items), seq(|items|, i requires 0 <= i < |items| => Encoding(items[i])))
    decreases |items|
  {
    var pieces := seq(|items|, i requires 0 <= i < |items| => Encoding(items[i]));
    if items != [] {
      ItemsJoin(items[1..]);
      assert pieces[1..] == seq(|items| - 1, i requires 0 <= i < |items| - 1 => Encoding(items[1..][i]));
      assert ItemBytes(items)[..|pieces[0]|] == pieces[0] && ItemBytes(items)[|pieces[0]|..] == ItemBytes(items[1..]);
    }
  }

  /** A field: the length of its key, the key, the value. */
  function FieldLayout(f: Field): Bytes
    requires Shaped(f.value)
  {
    Four(|f.key|) + f.key + Encoding(f.value)
  }

  lemma {:induction false} FieldsJoin(fields: seq<Field>)
    requires forall f | f in fields :: Shaped(f.value)
    ensures Joins(FieldBytes(fields), seq(|fields|, i requires 0 <= i < |fields| => FieldLayout(fields[i])))
    decreases |fields|
  {
    var pieces := seq(|fields|, i requires 0 <= i < |fields| => FieldLayout(fields[i]));
    if fields != [] {
      FieldsJoin(fields[1..]);
      FourIsLE(|fields[0].key|);
      assert pieces[1..] == seq(|fields| - 1, i requires 0 <= i < |fields| - 1 => FieldLayout(fields[1..][i]));
      assert OneField(fields[0]) == pieces[0];
      assert FieldBytes(fields)[..|pieces[0]|] == pieces[0] && FieldBytes(fields)[|pieces[0]|..] == FieldBytes(fields[1..]);
    }
  }

  /** A list or a dictionary: its type byte, the size of what follows, how many there are, and then each of them in order. */
  lemma ContainerLayout(v: Value) returns (content: Bytes)
    requires Shaped(v) && Fits(v) && (v.Array? || v.Object?)
    ensures v.Array? ==>
              Encoding(v) == [0x10] + (Four(4 + |content|) + (Four(|v.items|) + content))
              && Joins(content, seq(|v.items|, i requires 0 <= i < |v.items| => Encoding(v.items[i])))
    ensures v.Object? ==>
              Encoding(v) == [0x11] + (Four(4 + |content|) + (Four(|v.fields|) + content))
              && Joins(content, seq(|v.fields|, i requires 0 <= i < |v.fields| => FieldLayout(v.fields[i])))
  {
    if v.Array? {
      content := ItemBytes(v.items);
      ItemsJoin(v.items);
      FourIsLE(|v.items|);
    } else {
      content := FieldBytes(v.fields);
      FieldsJoin(v.fields);
      FourIsLE(|v.fields|);
    }
    FourIsLE(4 + |content|);
  }

  /** Integers go as INT within 2^53 - 1 of zero, and as the double they are beyond. */
  lemma IntegersSent(i: int, pack: int -> Eight)
    ensures
      Encoding(Sent(Int(i), pack))
      == if -9007199254740991 <= i <= 9007199254740991 then [0x03] + Eight64(i) else [0x04] + pack(i)
  {
    LeafLayout(Sent(Int(i), pack));
  }

  /** The value of the last pair with this key. */
  function LastOf(pairs: seq<Field>, key: Bytes): Option<Value> {
    if pairs == [] then None
    else if pairs[|pairs| - 1].key == key then Some(pairs[|pairs| - 1].value)
    else LastOf(pairs[..|pairs| - 1], key)
  }

  ghost predicate KeysOnce(obj: seq<Field>) {
    forall i, j | 0 <= i < j < |obj| :: obj[i].key != obj[j].key
  }

  lemma {:induction false} PutFinds(obj: seq<Field>, f: Field, key: Bytes)
    ensures FieldOf(Put(obj, f), key) == if key == f.key then Some(f.value) else FieldOf(obj, key)
  {
    if obj != [] { PutFinds(obj[1..], f, key); }
  }

  /** Putting a pair in keeps the keys in their places, and adds at most its own. */
  lemma {:induction false} PutKeys(obj: seq<Field>, f: Field)
    ensures |obj| <= |Put(obj, f)| <= |obj| + 1
    ensures forall i | 0 <= i < |obj| :: Put(obj, f)[i].key == obj[i].key
    ensures |Put(obj, f)| > |obj| ==> Put(obj, f)[|obj|] == f && forall i | 0 <= i < |obj| :: obj[i].key != f.key
  {
    if obj != [] && obj[0].key != f.key { PutKeys(obj[1..], f); }
  }

  lemma PutOnce(obj: seq<Field>, f: Field)
    requires KeysOnce(obj)
    ensures KeysOnce(Put(obj, f))
  {
    PutKeys(obj, f);
    hide Put;
  }

  lemma {:induction false} DictOnce(pairs: seq<Field>)
    ensures KeysOnce(DictOf(pairs))
  {
    hide KeysOnce, Put;
    if pairs == [] {
      NoKeys();
    } else {
      DictOnce(pairs[..|pairs| - 1]);
      PutOnce(DictOf(pairs[..|pairs| - 1]), pairs[|pairs| - 1]);
    }
  }

  lemma NoKeys()
    ensures KeysOnce([])
  {
  }

  /** A dictionary read from pairs holds each key once, with the value that came last. */
  lemma {:induction false} LaterPairsWin(pairs: seq<Field>, key: Bytes)
    ensures FieldOf(DictOf(pairs), key) == LastOf(pairs, key)
    ensures KeysOnce(DictOf(pairs))
  {
    DictOnce(pairs);
    hide KeysOnce, Put;
    if pairs != [] {
      LaterPairsWin(pairs[..|pairs| - 1], key);
      PutFinds(DictOf(pairs[..|pairs| - 1]), pairs[|pairs| - 1], key);
    }
  }
}
