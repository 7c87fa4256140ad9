/**
 Reading stored records back: the event-driven decoder hands a record's parts
 to callbacks one by one, and every integer as a double.
 */
module Visiting {
  import opened Options
  import opened Binjson

  // ---- events ------------------------------------------------------------------

  datatype Visit =
    | OnKey(key: Bytes)
    | OnInt(i: int)
    | OnString(text: Bytes)
    | OnBinary(blob: Bytes)
    | ArrayBegin | ArrayEnd | ObjectBegin | ObjectEnd
    | OnOther

  /** The callbacks a value makes, in order. */
  function Visits(v: Value): seq<Visit>
    decreases v, 1
  {
    match v
    case Int(i) => [OnInt(i)]
    case Str(text) => [OnString(text)]
    case Binary(blob) => [OnBinary(blob)]
    case Array(items) => [ArrayBegin] + (ItemVisits(items) + [ArrayEnd])
    case Object(fields) => [ObjectBegin] + (FieldVisits(fields) + [ObjectEnd])
    case _ => [OnOther]
  }

  function ItemVisits(items: seq<Value>): seq<Visit>
    decreases items, 0
  {
    if items == [] then [] else Visits(items[0]) + ItemVisits(items[1..])
  }

  function FieldVisits(fields: seq<Field>): seq<Visit>
    decreases fields, 0
  {
    if fields == [] then [] else OneVisits(fields[0]) + FieldVisits(fields[1..])
  }

  function OneVisits(f: Field): seq<Visit>
    decreases f, 0
  {
    [OnKey(f.key)] + Visits(f.value)
  }

  /** A key copied into a buffer of `cap` bytes, the last of them for the terminator. */
  function CutKey(key: Bytes, cap: nat): Bytes
    requires cap > 0
  {
    if |key| >= cap then key[..cap - 1] else key
  }

  // ---- a visitor fed with events ---------------------------------------------------

  /** A visitor's state after all the events, one by one. */
  function Fed<S>(on: (S, Visit) -> S, s: S, vs: seq<Visit>): S
    decreases |vs|
  {
    if vs == [] then s else Fed(on, on(s, vs[0]), vs[1..])
  }

  lemma {:induction false} FedInTurn<S>(on: (S, Visit) -> S, s: S, a: seq<Visit>, b: seq<Visit>)
    ensures Fed(on, s, a + b) == Fed(on, Fed(on, s, a), b)
    decreases |a|
  {
    if a == [] {
      assert a + b == b;
    } else {
      assert (a + b)[1..] == a[1..] + b;
      FedInTurn(on, on(s, a[0]), a[1..], b);
    }
  }

  lemma TwoInTurn<S>(on: (S, Visit) -> S, s: S, a: Visit, b: Visit, rest: seq<Visit>)
    ensures Fed(on, s, [a, b] + rest) == Fed(on, on(on(s, a), b), rest)
  {
    assert ([a, b] + rest)[1..] == [b] + rest && ([b] + rest)[1..] == rest;
  }

  /** To a visitor that has no use for them, the braces around a record change nothing. */
  lemma BracesIgnored<S>(on: (S, Visit) -> S, s: S, inner: seq<Visit>)
    requires forall t :: on(t, ObjectBegin) == t && on(t, ObjectEnd) == t
    ensures Fed(on, s, [ObjectBegin] + (inner + [ObjectEnd])) == Fed(on, s, inner)
  {
    assert ([ObjectBegin] + (inner + [ObjectEnd]))[1..] == inner + [ObjectEnd];
    FedInTurn(on, s, inner, [ObjectEnd]);
    assert [ObjectEnd][1..] == [];
  }

  // ---- looking a field up -----------------------------------------------------------

  /** The value under a key, the first if there are several. */
  function FieldOf(fields: seq<Field>, key: Bytes): Option<Value> {
    if fields == [] then None
    else if fields[0].key == key then Some(fields[0].value)
    else FieldOf(fields[1..], key)
  }

  lemma {:induction false} FieldAtPlace(fs: seq<Field>, k: nat)
    requires k < |fs| && forall j | 0 <= j < k :: fs[j].key != fs[k].key
    ensures FieldOf(fs, fs[k].key) == Some(fs[k].value)
  {
    if k > 0 { FieldAtPlace(fs[1..], k - 1); }
  }

  // ---- integers that come back through a double -------------------------------------

  const DOUBLE_EXACT: nat := 0x20_0000_0000_0000

  /** The distance between neighbouring doubles around `n`. */
  function Scale(n: nat): (s: nat)
    ensures s > 0
  {
    if n < DOUBLE_EXACT then 1 else 2 * Scale(n / 2)
  }

  /** `n` as a double: rounded to a multiple of its scale, ties to even. */
  function AsDouble(n: nat): nat {
    RoundTo(n, Scale(n))
  }

  /** How often `s` goes into what `n` rounds to. */
  function RoundedQuotient(n: nat, s: nat): nat
    requires s > 0
  {
    var q, r := n / s, n % s;
    if 2 * r > s || (2 * r == s && q % 2 == 1) then q + 1 else q
  }

  function RoundTo(n: nat, s: nat): nat
    requires s > 0
  {
    RoundedQuotient(n, s) * s
  }

  predicate Exact(n: nat) { n % Scale(n) == 0 }

  lemma RoundKeeps(n: nat, s: nat)
    requires s > 0
    ensures RoundTo(n, s) == n <==> n % s == 0
  {
    var q, r := n / s, n % s;
    assert n == q * s + r && (q + 1) * s == q * s + s;
  }

  /** An integer survives the double exactly when it is a multiple of its scale; all below 2^53 do. */
  lemma DoubleKeepsExactly(n: nat)
    ensures AsDouble(n) == n <==> Exact(n)
    ensures n < DOUBLE_EXACT ==> AsDouble(n) == n
  {
    RoundKeeps(n, Scale(n));
  }

  function Apart(a: nat, b: nat): nat { if a < b then b - a else a - b }

  /** What comes back is the nearest integer a double can be at that size, the even one of two as near. */
  lemma DoubleIsNearest(n: nat, m: nat)
    requires m % Scale(n) == 0
    ensures AsDouble(n) % Scale(n) == 0 && Apart(AsDouble(n), n) <= Apart(m, n)
    ensures Apart(AsDouble(n), n) == Apart(m, n) && m != AsDouble(n) ==> AsDouble(n) / Scale(n) % 2 == 0
  {
    RoundIsNearest(n, m, Scale(n));
  }

  lemma RoundIsNearest(n: nat, m: nat, s: nat)
    requires s > 0 && m % s == 0
    ensures RoundTo(n, s) % s == 0 && Apart(RoundTo(n, s), n) <= Apart(m, n)
    ensures Apart(RoundTo(n, s), n) == Apart(m, n) && m != RoundTo(n, s) ==> RoundTo(n, s) / s % 2 == 0
  {
    var q, r, k := n / s, n % s, m / s;
    var p := RoundedQuotient(n, s);
    Quotient(n, s);
    Quotient(m, s);
    Multiples(p, s);
    Nearest(n, q, r, s, k, p);
  }

  lemma Nearest(n: nat, q: nat, r: nat, s: nat, k: nat, p: nat)
    requires n == q * s + r && r < s && p == if 2 * r > s || (2 * r == s && q % 2 == 1) then q + 1 else q
    ensures Apart(p * s, n) <= Apart(k * s, n)
    ensures Apart(p * s, n) == Apart(k * s, n) && k * s != p * s ==> p % 2 == 0
  {
    Away(k, q, s);
    Away(p, q, s);
    Nearer(n, q * s, r, s, k * s, k, q);
  }

  lemma Quotient(n: nat, s: nat)
    requires s > 0
    ensures n == (n / s) * s + n % s
  {
  }

  /** Of two neighbours the nearer is nearest. */
  lemma Nearer(n: nat, low: nat, r: nat, s: nat, m: nat, k: nat, q: nat)
    requires n == low + r && r < s
    requires (k == q ==> m == low) && (k < q ==> m + s <= low) && (k == q + 1 ==> m == low + s) && (k > q + 1 ==> m >= low + 2 * s)
    ensures
      var up := 2 * r > s || (2 * r == s && q % 2 == 1);
      var d := if up then low + s else low;
      && Apart(d, n) <= Apart(m, n)
      && (Apart(d, n) == Apart(m, n) && m != d ==> (if up then q + 1 else q) % 2 == 0)
  {
  }

  lemma Away(k: nat, q: nat, s: nat)
    ensures (k == q ==> k * s == q * s) && (k < q ==> k * s + s <= q * s)
    ensures (k == q + 1 ==> k * s == q * s + s) && (k > q + 1 ==> k * s >= q * s + 2 * s)
  {
    assert (q + 1) * s == q * s + s && (q + 2) * s == q * s + 2 * s && (k + 1) * s == k * s + s;
    if k < q { Grows(k + 1, q, s); }
    if k > q + 1 { Grows(q + 2, k, s); }
  }

  lemma Multiples(q: nat, s: nat)
    requires s > 0
    ensures (q * s) % s == 0 && (q * s) / s == q
  {
    assert q * s == q * s + 0;
    Divides(q * s, q, s);
  }

  lemma Divides(x: nat, q: nat, s: nat)
    requires s > 0 && x == q * s
    ensures x / s == q && x % s == 0
  {
    if x / s < q { Grows(x / s + 1, q, s); }
    if x / s > q { Grows(q + 1, x / s, s); }
  }

  lemma Grows(a: int, b: int, s: nat)
    requires a <= b
    ensures a * s <= b * s
  {
  }

  /** Below 2^53 doubles hold every integer; beyond, 53 bits of it. */
  lemma {:induction false} ScaleKeepsBits(n: nat)
    ensures n < 0x20_0000_0000_0000 ==> Scale(n) == 1
    ensures n >= 0x20_0000_0000_0000 ==> 0x10_0000_0000_0000 * Scale(n) <= n < 0x20_0000_0000_0000 * Scale(n) && Scale(n) == 2 * Scale(n / 2)
  {
    if n >= 0x20_0000_0000_0000 { ScaleKeepsBits(n / 2); }
  }

  /** The first integer that does not. */
  lemma FirstLost()
    ensures AsDouble(DOUBLE_EXACT + 1) == DOUBLE_EXACT
  {
    assert Scale(DOUBLE_EXACT + 1) == 2 * Scale(DOUBLE_EXACT / 2);
  }

  // ---- text ------------------------------------------------------------------------

  function CharByte(c: char): Byte { c as int % 256 }

  function Text(s: string): (b: Bytes)
    ensures |b| == |s|
  {
    seq(|s|, i requires 0 <= i < |s| => CharByte(s[i]))
  }

  function FromText(b: Bytes): (s: string)
    ensures |s| == |b|
  {
    seq(|b|, i requires 0 <= i < |b| => b[i] as char)
  }

  lemma TextRoundTrip(s: string)
    requires forall c | c in s :: c as int < 256
    ensures FromText(Text(s)) == s
  {
    forall i | 0 <= i < |s| ensures FromText(Text(s))[i] == s[i] { assert s[i] in s; }
  }
}
