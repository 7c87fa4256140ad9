/**
 The two-generation dedup index of src/store.c: writes go to the current
 generation, lookups check both and copy a hit forward, and rotation happens
 lazily, when somebody asks.
 */
module Dedup {
  import opened Options
  import opened Words

  const WINDOW_DEFAULT_MS: nat := 120000

  type Key = string

  datatype Index = Index(cur: map<Key, nat>, prev: map<Key, nat>, rotated: nat, window: nat)

  /** Unsigned 64-bit subtraction. */
  function Elapsed(now: nat, since: nat): int {
    if now >= since then now - since else now - since + U64
  }

  function Rotate(s: Index, now: nat): Index {
    var elapsed := Elapsed(now, s.rotated);
    if elapsed < s.window then s
    else if elapsed >= 2 * s.window then Index(map[], map[], now, s.window)
    else Index(map[], s.cur, now, s.window)
  }

  function Lookup(s: Index, now: nat, k: Key): (Index, Option<nat>) {
    var r := Rotate(s, now);
    if k in r.cur then (r, Some(r.cur[k]))
    else if k in r.prev then (r.(cur := r.cur[k := r.prev[k]]), Some(r.prev[k]))
    else (r, None)
  }

  function Record(s: Index, k: Key, i: nat): Index {
    s.(cur := s.cur[k := i])
  }

  // ---- the index as the store edits it ------------------------------------

  class DedupIndex {
    const dd: array<map<Key, nat>>
    var gen: nat
    var rotatedMs: nat
    var windowMs: nat

    ghost predicate Valid()
      reads this
    {
      dd.Length == 2 && gen < 2
    }

    /** 0 means "not set", which is the default window. */
    function Window(): nat
      reads this
    {
      if windowMs != 0 then windowMs else WINDOW_DEFAULT_MS
    }

    function State(): Index
      requires Valid()
      reads this, dd
    {
      Index(dd[gen], dd[1 - gen], rotatedMs, Window())
    }

    constructor (now: nat, window: nat)
      ensures Valid() && fresh(dd)
      ensures State() == Index(map[], map[], now, if window != 0 then window else 120000)
    {
      dd := new map<Key, nat>[2](_ => map[]);
      gen, rotatedMs, windowMs := 0, now, window;
    }

    method RotateIndex(now: nat)
      requires Valid()
      modifies this`gen, this`rotatedMs, dd
      ensures Valid() && State() == Rotate(old(State()), now)
    {
      var elapsed := Elapsed(now, rotatedMs);
      if elapsed < Window() { return; }
      if elapsed >= 2 * Window() {
        dd[0] := map[];
        dd[1] := map[];
        gen := 0;
      } else {
        var older := 1 - gen;
        dd[older] := map[];
        gen := older;
      }
      rotatedMs := now;
    }

    method LookupId(now: nat, k: Key) returns (found: Option<nat>)
      requires Valid()
      modifies this`gen, this`rotatedMs, dd
      ensures Valid() && (State(), found) == Lookup(old(State()), now, k)
    {
      RotateIndex(now);
      found := None;
      var i := 0;
      while i < 2 && found.None?
        invariant Valid() && i <= 2
        invariant found.None? ==>
          State() == Rotate(old(State()), now) && (i >= 1 ==> k !in dd[gen]) && (i == 2 ==> k !in dd[1 - gen])
        invariant found.Some? ==> (State(), found) == Lookup(old(State()), now, k)
        decreases 2 - i
      {
        var t := if i == 0 then gen else 1 - gen;
        if k in dd[t] {
          found := Some(dd[t][k]);
          if i == 1 { dd[gen] := dd[gen][k := dd[t][k]]; }
        }
        i := i + 1;
      }
    }

    method RecordId(k: Key, index: nat)
      requires Valid()
      modifies dd
      ensures Valid() && State() == Record(old(State()), k, index)
    {
      dd[gen] := dd[gen][k := index];
    }
  }

  // ---- how long an id is remembered ---------------------------------------

  /** `k` was last recorded or hit at `t`, for index `i`, and is still safe to ask for. */
  ghost predicate Live(s: Index, k: Key, i: nat, t: nat) {
    if k in s.cur then s.cur[k] == i && t < s.rotated + s.window
    else k in s.prev && s.prev[k] == i && t < s.rotated
  }

  /** Anybody's lookup within one window of that moment keeps it findable. */
  lemma LookupKeepsLive(s: Index, now: nat, asked: Key, k: Key, i: nat, t: nat)
    requires Live(s, k, i, t) && s.rotated <= now && t <= now <= t + s.window
    ensures var (s', r) := Lookup(s, now, asked);
            && Live(s', k, i, t)
            && (asked == k ==> r == Some(i) && Live(s', k, i, now))
  {
  }

  lemma RecordKeepsLive(s: Index, other: Key, j: nat, k: Key, i: nat, t: nat)
    requires Live(s, k, i, t) && other != k
    ensures Live(Record(s, other, j), k, i, t)
  {
  }

  /** A lookup that missed leaves the index so that a record then lasts a full window. */
  lemma RecordIsLive(s: Index, now: nat, k: Key, i: nat)
    requires s.rotated <= now && 0 < s.window
    ensures Live(Record(Lookup(s, now, k).0, k, i), k, i, now)
  {
  }

  // ---- and how long at most -----------------------------------------------

  /** Somebody asking for a key at a time, and recording an index for it on a miss. */
  datatype Ask = Ask(now: nat, key: Key, record: Option<nat>)

  function AskStep(s: Index, a: Ask): Index {
    var (s1, found) := Lookup(s, a.now, a.key);
    if found.None? && a.record.Some? then Record(s1, a.key, a.record.value) else s1
  }

  function Asks(s: Index, asks: seq<Ask>): Index {
    if asks == [] then s else AskStep(Asks(s, asks[..|asks| - 1]), asks[|asks| - 1])
  }

  ghost predicate Ordered(from: nat, asks: seq<Ask>) {
    && (forall a | 0 <= a < |asks| :: from <= asks[a].now)
    && (forall a, b | 0 <= a < b < |asks| :: asks[a].now <= asks[b].now)
  }

  ghost predicate NoneFor(asks: seq<Ask>, k: Key) {
    forall a | 0 <= a < |asks| :: asks[a].key != k
  }

  /** Where one id is, judged from the times of the asks alone. */
  datatype Place = Current | Demoted(at: nat) | Gone

  /**
   In the current generation until somebody asks a window after it took over
   (`r`); demoted by that ask, unless it comes two windows late; gone once
   anybody asks a window after the demotion.
   */
  function Moved(p: Place, r: nat, w: nat, now: nat): Place {
    match p
    case Current => if now < r + w then Current else if now < r + 2 * w then Demoted(now) else Gone
    case Demoted(f) => if now < f + w then p else Gone
    case Gone => Gone
  }

  function PlaceAfter(r: nat, w: nat, asks: seq<Ask>): Place {
    if asks == [] then Current else Moved(PlaceAfter(r, w, asks[..|asks| - 1]), r, w, asks[|asks| - 1].now)
  }

  /** The index agrees with that account of `k`. */
  ghost predicate Tracks(s: Index, k: Key, i: nat, r: nat, w: nat, p: Place) {
    && s.window == w
    && (p.Current? ==> k in s.cur && s.cur[k] == i && s.rotated == r)
    && (p.Demoted? ==> k !in s.cur && k in s.prev && s.prev[k] == i && s.rotated == p.at)
    && (p.Gone? ==> k !in s.cur && k !in s.prev)
  }

  lemma AskTracks(s: Index, k: Key, i: nat, r: nat, w: nat, p: Place, a: Ask)
    requires 0 < w && Tracks(s, k, i, r, w, p) && s.rotated <= a.now
    ensures a.key != k ==> Tracks(AskStep(s, a), k, i, r, w, Moved(p, r, w, a.now))
    ensures Lookup(s, a.now, k).1 == if Moved(p, r, w, a.now).Gone? then None else Some(i)
    ensures AskStep(s, a).rotated <= a.now
  {
  }

  lemma {:induction false} AsksTrack(s: Index, k: Key, asks: seq<Ask>)
    requires k in s.cur && 0 < s.window
    requires Ordered(s.rotated, asks) && NoneFor(asks, k)
    ensures Tracks(Asks(s, asks), k, s.cur[k], s.rotated, s.window, PlaceAfter(s.rotated, s.window, asks))
    ensures asks != [] ==> Asks(s, asks).rotated <= asks[|asks| - 1].now
  {
    if asks != [] {
      var init, a := asks[..|asks| - 1], asks[|asks| - 1];
      AsksTrack(s, k, init);
      if init != [] { assert init[|init| - 1] == asks[|asks| - 2]; }
      AskTracks(Asks(s, init), k, s.cur[k], s.rotated, s.window, PlaceAfter(s.rotated, s.window, init), a);
    }
  }

  /** At least a window: whatever is asked and recorded meanwhile, the id is still found with its index. */
  lemma {:induction false} AsksKeepLive(s: Index, k: Key, i: nat, t: nat, asks: seq<Ask>)
    requires Live(s, k, i, t) && s.rotated <= t && Ordered(t, asks)
    requires asks != [] ==> asks[|asks| - 1].now <= t + s.window
    ensures Live(Asks(s, asks), k, i, t) && Asks(s, asks).window == s.window
    ensures Asks(s, asks).rotated <= if asks == [] then t else asks[|asks| - 1].now
  {
    if asks != [] {
      var init, a := asks[..|asks| - 1], asks[|asks| - 1];
      if init != [] { assert init[|init| - 1] == asks[|asks| - 2] && asks[|asks| - 2].now <= a.now; }
      AsksKeepLive(s, k, i, t, init);
      var s1 := Asks(s, init);
      LookupKeepsLive(s1, a.now, a.key, k, i, t);
      var (s2, found) := Lookup(s1, a.now, a.key);
      if a.key != k && a.record.Some? { RecordKeepsLive(s2, a.key, a.record.value, k, i, t); }
    }
  }

  lemma RememberedForAWindow(s: Index, k: Key, i: nat, t: nat, asks: seq<Ask>, now: nat)
    requires Live(s, k, i, t) && s.rotated <= t && Ordered(t, asks)
    requires t <= now <= t + s.window && (asks != [] ==> asks[|asks| - 1].now <= now)
    ensures Lookup(Asks(s, asks), now, k).1 == Some(i)
  {
    AsksKeepLive(s, k, i, t, asks);
    LookupKeepsLive(Asks(s, asks), now, k, k, i, t);
  }

  /** A clock set back makes the 64-bit difference huge: everything is forgotten at the next lookup. */
  lemma BackwardClockForgets(s: Index, now: nat, k: Key)
    requires now < s.rotated && s.rotated + 2 * s.window <= now + 0x1_0000_0000_0000_0000
    ensures Lookup(s, now, k) == (Index(map[], map[], now, s.window), None)
  {
  }

  /**
   How long an id nobody mentions again stays findable, with its index: exactly
   as long as `PlaceAfter` says of the times at which anything was asked.
   */
  lemma ForgottenExactly(s: Index, k: Key, asks: seq<Ask>, now: nat)
    requires k in s.cur && 0 < s.window
    requires Ordered(s.rotated, asks + [Ask(now, k, None)]) && NoneFor(asks, k)
    ensures Lookup(Asks(s, asks), now, k).1 ==
            if Moved(PlaceAfter(s.rotated, s.window, asks), s.rotated, s.window, now).Gone? then None else Some(s.cur[k])
  {
    var all := asks + [Ask(now, k, None)];
    assert Ordered(s.rotated, asks) by {
      forall a, b | 0 <= a < b < |asks| ensures asks[a].now <= asks[b].now { assert all[a] == asks[a] && all[b] == asks[b]; }
      forall a | 0 <= a < |asks| ensures s.rotated <= asks[a].now { assert all[a] == asks[a]; }
    }
    AsksTrack(s, k, asks);
    assert all[|asks|].now == now;
    if asks != [] { assert all[|asks| - 1] == asks[|asks| - 1]; }
    AskTracks(Asks(s, asks), k, s.cur[k], s.rotated, s.window, PlaceAfter(s.rotated, s.window, asks), all[|asks|]);
  }

  lemma {:induction false} DemotedInTime(r: nat, w: nat, asks: seq<Ask>)
    ensures PlaceAfter(r, w, asks).Demoted? ==> PlaceAfter(r, w, asks).at < r + 2 * w
  {
    if asks != [] { DemotedInTime(r, w, asks[..|asks| - 1]); }
  }

  /** Touched at `t` and never again, an id is gone by three windows later. */
  lemma ForgottenByThreeWindows(s: Index, k: Key, asks: seq<Ask>, t: nat, now: nat)
    requires k in s.cur && 0 < s.window && s.rotated <= t
    requires Ordered(t, asks + [Ask(now, k, None)]) && NoneFor(asks, k)
    requires now >= t + 3 * s.window
    ensures Lookup(Asks(s, asks), now, k).1.None?
  {
    ForgottenExactly(s, k, asks, now);
    DemotedInTime(s.rotated, s.window, asks);
  }

  /** One more moment after a run of asks. */
  lemma OrderedThen(from: nat, asks: seq<Ask>, k: Key, now: nat)
    requires Ordered(from, asks) && from <= now && (asks != [] ==> asks[|asks| - 1].now <= now)
    ensures Ordered(from, asks + [Ask(now, k, None)])
  {
    var all := asks + [Ask(now, k, None)];
    forall a | 0 <= a < |all| ensures from <= all[a].now {
      if a < |asks| { assert all[a] == asks[a]; }
    }
    forall a, b | 0 <= a < b < |all| ensures all[a].now <= all[b].now {
      assert all[a] == asks[a];
      if b < |asks| { assert all[b] == asks[b]; } else { assert asks[a].now <= asks[|asks| - 1].now; }
    }
  }

  /** The moments after a run at which the id is still found. */
  predicate StillFound(s: Index, k: Key, asks: seq<Ask>, now: nat) {
    (asks != [] ==> asks[|asks| - 1].now <= now) && Lookup(Asks(s, asks), now, k).1.Some?
  }

  /**
   The documented bound of two windows, and exactly when it holds.  After any run
   of asks for other keys, an id touched at `t` stays inside two windows for
   every later moment if and only if it has not been demoted by an ask that came
   more than one window after `t`.
   "At most twice" is read as a half-open bound, as the code's own comparisons
   are: found before `t + 2 * window`, gone from that moment on.
   */
  lemma DocumentedBound(s: Index, k: Key, asks: seq<Ask>, t: nat)
    requires k in s.cur && 0 < s.window && s.rotated <= t < s.rotated + s.window
    requires Ordered(t, asks) && NoneFor(asks, k)
    ensures
      var p := PlaceAfter(s.rotated, s.window, asks);
      (forall now: nat | t <= now && StillFound(s, k, asks, now) :: now < t + 2 * s.window)
      <==> (p.Demoted? ==> p.at <= t + s.window)
  {
    var r, w := s.rotated, s.window;
    var p := PlaceAfter(r, w, asks);
    forall now: nat | t <= now && (asks != [] ==> asks[|asks| - 1].now <= now)
      ensures Lookup(Asks(s, asks), now, k).1.Some? <==> !Moved(p, r, w, now).Gone?
    {
      OrderedThen(t, asks, k, now);
      assert Ordered(r, asks + [Ask(now, k, None)]);
      ForgottenExactly(s, k, asks, now);
    }
    DemotedLater(r, w, asks);
    if p.Demoted? && p.at > t + w {
      assert StillFound(s, k, asks, p.at + w - 1);
    }
  }

  /** A demotion was by some ask, and the asks since came within a window of it. */
  lemma {:induction false} DemotedLater(r: nat, w: nat, asks: seq<Ask>)
    requires 0 < w
    ensures PlaceAfter(r, w, asks).Demoted? ==> asks != [] && asks[|asks| - 1].now < PlaceAfter(r, w, asks).at + w
  {
    if asks != [] { DemotedLater(r, w, asks[..|asks| - 1]); }
  }

  /** A run in which an id is still found almost three windows after its last use. */
  lemma OutlivesTwoWindows(w: nat, r: nat, k: Key, other: Key, i: nat)
    requires 3 <= w && k != other
    ensures
      var s := Index(map[k := i], map[], r, w);
      var later := r + 3 * w - 2;
      && later > r + 2 * w
      && Lookup(Lookup(s, r + 2 * w - 1, other).0, later, k).1 == Some(i)
  {
  }
}
