/**
 Trimming a subject without destroying what is still owed (src/store.c:
 bjm_consumer_stats, bjm_queue_floor, bjm_trim), over every run of publishes,
 acknowledgements, queue operations and unforced trims.

 The receipt and group trees hold every subject's keys; a subject's own are
 picked out by the range scan of `Names`.
 */
module Trimming {
  import opened Options
  import opened Words
  import opened Queue
  import opened Names
  import opened Receipts

  datatype Cursor = Cursor(key: string, acked: nat)

  datatype Group = Group(key: string, rec: QRec)

  /** One subject's log, and the two trees it shares with all the others. */
  datatype Subject = Subject(base: nat, last: nat, cursors: seq<Cursor>, groups: seq<Group>)

  // ---- what is owed ------------------------------------------------------------

  function Lower(bound: Option<nat>, x: nat): Option<nat> {
    if bound.None? || x < bound.value then Some(x) else bound
  }

  /** The lowest receipt among `subject`'s consumers. */
  function MinAcked(cursors: seq<Cursor>, subject: string): Option<nat> {
    if cursors == [] then None
    else
      var c, rest := cursors[|cursors| - 1], MinAcked(cursors[..|cursors| - 1], subject);
      if InRange(subject, c.key) then Lower(rest, c.acked) else rest
  }

  function FloorOf(q: QRec): nat {
    if Owed(q) > 0 then Owed(q) - 1 else 0
  }

  function QueueFloor(groups: seq<Group>, subject: string): Option<nat> {
    if groups == [] then None
    else
      var g, rest := groups[|groups| - 1], QueueFloor(groups[..|groups| - 1], subject);
      if InRange(subject, g.key) then Lower(rest, FloorOf(g.rec)) else rest
  }

  /** The two range scans, one tree after the other. */
  method ConsumerStats(cursors: seq<Cursor>, subject: string) returns (min: Option<nat>)
    ensures min == MinAcked(cursors, subject)
  {
    min := None;
    for i := 0 to |cursors|
      invariant min == MinAcked(cursors[..i], subject)
    {
      assert cursors[..i + 1][..i] == cursors[..i];
      if InRange(subject, cursors[i].key) {
        if min.None? || cursors[i].acked < min.value { min := Some(cursors[i].acked); }
      }
    }
    assert cursors[..|cursors|] == cursors;
  }

  method QueueFloorScan(groups: seq<Group>, subject: string) returns (floor: Option<nat>)
    ensures floor == QueueFloor(groups, subject)
  {
    floor := None;
    for i := 0 to |groups|
      invariant floor == QueueFloor(groups[..i], subject)
    {
      assert groups[..i + 1][..i] == groups[..i];
      if InRange(subject, groups[i].key) {
        var f := FloorOf(groups[i].rec);
        if floor.None? || f < floor.value { floor := Some(f); }
      }
    }
    assert groups[..|groups|] == groups;
  }

  lemma {:induction false} MinAckedIsMin(cursors: seq<Cursor>, subject: string)
    ensures
      var m := MinAcked(cursors, subject);
      && (forall c | c in cursors && InRange(subject, c.key) :: m.Some? && m.value <= c.acked)
      && (m.Some? ==> exists c | c in cursors :: InRange(subject, c.key) && c.acked == m.value)
  {
    if cursors != [] {
      MinAckedIsMin(cursors[..|cursors| - 1], subject);
      assert cursors == cursors[..|cursors| - 1] + [cursors[|cursors| - 1]];
    }
  }

  lemma {:induction false} QueueFloorIsMin(groups: seq<Group>, subject: string)
    ensures
      var m := QueueFloor(groups, subject);
      && (forall g | g in groups && InRange(subject, g.key) :: m.Some? && m.value <= FloorOf(g.rec))
      && (m.Some? ==> exists g | g in groups :: InRange(subject, g.key) && FloorOf(g.rec) == m.value)
  {
    if groups != [] {
      QueueFloorIsMin(groups[..|groups| - 1], subject);
      assert groups == groups[..|groups| - 1] + [groups[|groups| - 1]];
    }
  }

  // ---- the trim ------------------------------------------------------------------

  function Clamp(x: nat, bound: Option<nat>): nat {
    if bound.Some? && x > bound.value then bound.value else x
  }

  /** Where bjm_trim puts the base: messages below `before` go, unless somebody is owed them. */
  function TrimBase(s: Subject, subject: string, before: nat, force: bool): nat {
    var wanted := Min(if before > 0 then before - 1 else 0, s.last) as nat;
    if force then wanted
    else Clamp(Clamp(wanted, MinAcked(s.cursors, subject)), QueueFloor(s.groups, subject))
  }

  function Trim(s: Subject, subject: string, before: nat, force: bool): Subject {
    var newBase := TrimBase(s, subject, before, force);
    if newBase <= s.base then s else s.(base := newBase)
  }

  /** bjm_trim's arithmetic; the atomic replace either happens or the log stays as it was. */
  method TrimSubject(s: Subject, subject: string, before: nat, force: bool, adopted: bool)
    returns (ok: bool, s': Subject, removed: nat)
    ensures ok ==> s' == Trim(s, subject, before, force) && removed == s'.base - s.base
    ensures !ok ==> s' == s && removed == 0
    ensures ok && force && s.base <= s.last ==>
              removed == if before > s.last then s.last - s.base else if before > s.base then before - 1 - s.base else 0
    ensures ok <==> adopted || Trim(s, subject, before, force).base == s.base
  {
    var newBase := if before > 0 then before - 1 else 0;
    if newBase > s.last { newBase := s.last; }
    if !force {
      var acked := ConsumerStats(s.cursors, subject);
      var floor := QueueFloorScan(s.groups, subject);
      var protect := acked;
      if floor.Some? && (protect.None? || floor.value < protect.value) { protect := floor; }
      if protect.Some? && newBase > protect.value { newBase := protect.value; }
    }
    if newBase <= s.base { return true, s, 0; }
    if !adopted { return false, s, 0; }
    return true, s.(base := newBase), newBase - s.base;
  }

  /** Exactly what an unforced trim may remove: nothing above any receipt, nothing any group still owes. */
  lemma TrimRespectsOwed(s: Subject, subject: string, before: nat)
    ensures
      var s' := Trim(s, subject, before, false);
      && s.base <= s'.base
      && (forall c | c in s.cursors && InRange(subject, c.key) :: s'.base <= Max(s.base, c.acked))
      && (forall g | g in s.groups && InRange(subject, g.key) :: s'.base <= Max(s.base, FloorOf(g.rec)))
  {
    MinAckedIsMin(s.cursors, subject);
    QueueFloorIsMin(s.groups, subject);
  }

  /** And it removes everything else that was asked for: what every consumer has acknowledged and no group has leased or still to hand out. */
  lemma TrimIsMaximal(s: Subject, subject: string, before: nat, target: nat)
    requires s.base < target <= s.last && target < before
    requires forall c | c in s.cursors && InRange(subject, c.key) :: target <= c.acked
    requires forall g | g in s.groups && InRange(subject, g.key) ::
               target < g.rec.next && forall e | e in g.rec.fl :: target < e.index
    ensures target <= Trim(s, subject, before, false).base
  {
    MinAckedIsMin(s.cursors, subject);
    QueueFloorIsMin(s.groups, subject);
    forall g | g in s.groups && InRange(subject, g.key) ensures target <= FloorOf(g.rec) {
      if Owed(g.rec) != g.rec.next { var e :| e in g.rec.fl && e.index == Owed(g.rec); }
    }
  }

  /** A forced trim removes all that was asked for, whoever is owed it. */
  lemma ForcedTrimIsMaximal(s: Subject, subject: string, before: nat, target: nat)
    requires s.base < target <= s.last && target < before
    ensures target <= Trim(s, subject, before, true).base
  {
  }

  /** Forced or not, nothing goes that was not asked for, and what goes goes from the old end: the rest stays as it is. */
  lemma TrimWithinAsked(s: Subject, subject: string, before: nat, force: bool)
    ensures
      var s' := Trim(s, subject, before, force);
      && s' == s.(base := s'.base) && s.base <= s'.base
      && (s'.base != s.base ==> s'.base < before && s'.base <= s.last)
  {
    MinAckedIsMin(s.cursors, subject);
    QueueFloorIsMin(s.groups, subject);
  }

  /** So a forced trim removes exactly the messages below `before` that there are. */
  lemma ForcedTrimIsExact(s: Subject, subject: string, before: nat)
    requires s.base <= s.last
    ensures
      var s' := Trim(s, subject, before, true);
      s' == s.(base := if before > s.last then s.last else if before > s.base then before - 1 else s.base)
  {
    var target := if before > s.last then s.last else if before > s.base then before - 1 else s.base;
    if s.base < target { ForcedTrimIsMaximal(s, subject, before, target); }
    TrimWithinAsked(s, subject, before, true);
  }

  /** Other subjects' receipts and groups have no say. */
  lemma TrimIgnoresOthers(s: Subject, subject: string, other: string, name: string, acked: nat, before: nat, force: bool)
    requires '/' !in subject && '/' !in other && other != subject
    ensures
      var more := s.(cursors := s.cursors + [Cursor(JoinKey(other, name), acked)]);
      Trim(more, subject, before, force).base == Trim(s, subject, before, force).base
  {
    RangeExact(subject, other, name);
    var cursors := s.cursors + [Cursor(JoinKey(other, name), acked)];
    assert cursors[..|s.cursors|] == s.cursors;
  }

  // ---- what a group owes never moves down -------------------------------------------

  ghost predicate OwesFrom(q: QRec, n: nat) {
    n <= q.next && forall e | e in q.fl :: n <= e.index
  }

  lemma OwedIsExact(q: QRec, n: nat)
    ensures OwesFrom(q, n) <==> n <= Owed(q)
  {
    if OwesFrom(q, n) && Owed(q) != q.next {
      var e :| e in q.fl && e.index == Owed(q);
    }
  }

  lemma SwapRemoveOwes(q: QRec, k: nat, n: nat)
    requires k < |q.fl| && OwesFrom(q, n)
    ensures forall e | e in SwapRemove(q.fl, k) :: n <= e.index
  {
  }

  lemma {:induction false} ScanOwes(t: Taking, k: nat, max: nat, now: nat, lease: nat, n: nat)
    requires OwesFrom(t.q, n)
    ensures OwesFrom(ScanFrom(t, k, max, now, lease).q, n)
    decreases |t.q.fl| - k
  {
    if k >= |t.q.fl| || |t.chosen| >= max {
    } else if t.q.fl[k].expires > now {
      ScanOwes(t, k + 1, max, now, lease, n);
    } else if Exhausted(t.q, t.q.fl[k]) {
      SwapRemoveOwes(t.q, k, n);
      ScanOwes(Bury(t, k), k, max, now, lease, n);
    } else {
      ScanOwes(Regrant(t, k, now, lease), k + 1, max, now, lease, n);
    }
  }

  lemma {:induction false} FreshOwes(t: Taking, max: nat, now: nat, lease: nat, last: nat, n: nat)
    requires OwesFrom(t.q, n)
    ensures OwesFrom(FreshFrom(t, max, now, lease, last).q, n)
    decreases max - |t.chosen|
  {
    if MayGrantFresh(t, max, lease, last) {
      FreshOwes(GrantFresh(t, now, lease), max, now, lease, last, n);
    }
  }

  lemma ApplyOwes(q: QRec, op: Op, n: nat)
    requires OwesFrom(q, n)
    ensures OwesFrom(Apply(q, op).0, n)
  {
    match op
    case OpTake(max, lease, now, last) =>
      var t, ms := StartTake(q, lease), EffectiveLease(q, lease);
      ScanOwes(t, 0, ClampMax(max), now, ms, n);
      FreshOwes(ScanFrom(t, 0, ClampMax(max), now, ms), ClampMax(max), now, ms, last, n);
    case OpDone(index) =>
      var k := Find(q.fl, index);
      if k < |q.fl| { SwapRemoveOwes(q, k, n); }
    case OpFail(_, _, _) =>
    case OpConfig(_, _, _, _) =>
  }

  // ---- runs --------------------------------------------------------------------------

  datatype Step =
    | Publish
    | AckTo(key: string, index: nat)
    | Forget(key: string)
    /** A queue operation on a group of any subject; a group starts when first stored. */
    | QueueOp(key: string, op: Op)
    | DropGroup(key: string)
    /** An unforced trim, by request or by a policy that respects consumers. */
    | TrimTo(before: nat)

  function SetCursor(cursors: seq<Cursor>, key: string, index: nat): seq<Cursor> {
    if cursors == [] then [Cursor(key, index)]
    else if cursors[0].key == key then
      (if index <= cursors[0].acked then cursors else [Cursor(key, index)] + cursors[1..])
    else [cursors[0]] + SetCursor(cursors[1..], key, index)
  }

  /** The receipts by key; the first entry of a key is the one the tree holds. */
  function AsMap(cursors: seq<Cursor>): map<string, nat> {
    if cursors == [] then map[] else AsMap(cursors[1..])[cursors[0].key := cursors[0].acked]
  }

  /** Setting a receipt here is what it is everywhere else. */
  lemma {:induction false} SetCursorIsCursorSet(cursors: seq<Cursor>, key: string, index: nat)
    requires forall i, j | 0 <= i < j < |cursors| :: cursors[i].key != cursors[j].key
    ensures AsMap(SetCursor(cursors, key, index)) == CursorSet(AsMap(cursors), key, index)
  {
    if cursors != [] {
      if cursors[0].key == key {
        KeysOf(cursors[1..], key);
      } else {
        SetCursorIsCursorSet(cursors[1..], key, index);
      }
    }
  }

  lemma {:induction false} KeysOf(cursors: seq<Cursor>, key: string)
    ensures key in AsMap(cursors) <==> exists c | c in cursors :: c.key == key
  {
    if cursors != [] {
      KeysOf(cursors[1..], key);
      assert cursors == [cursors[0]] + cursors[1..];
    }
  }

  function DropCursor(cursors: seq<Cursor>, key: string): seq<Cursor> {
    if cursors == [] then []
    else if cursors[0].key == key then cursors[1..]
    else [cursors[0]] + DropCursor(cursors[1..], key)
  }

  function UpdateGroup(groups: seq<Group>, key: string, op: Op, blank: QRec): seq<Group> {
    if groups == [] then [Group(key, Apply(blank, op).0)]
    else if groups[0].key == key then [Group(key, Apply(groups[0].rec, op).0)] + groups[1..]
    else [groups[0]] + UpdateGroup(groups[1..], key, op, blank)
  }

  function RemoveGroup(groups: seq<Group>, key: string): seq<Group> {
    if groups == [] then []
    else if groups[0].key == key then groups[1..]
    else [groups[0]] + RemoveGroup(groups[1..], key)
  }

  function Next(s: Subject, subject: string, step: Step): Subject {
    match step
    case Publish => s.(last := s.last + 1)
    case AckTo(key, index) => s.(cursors := SetCursor(s.cursors, key, index))
    case Forget(key) => s.(cursors := DropCursor(s.cursors, key))
    case QueueOp(key, op) => s.(groups := UpdateGroup(s.groups, key, op, FreshRec(s.base + 1)))
    case DropGroup(key) => s.(groups := RemoveGroup(s.groups, key))
    case TrimTo(before) => Trim(s, subject, before, false)
  }

  function Steps(s: Subject, subject: string, steps: seq<Step>): Subject {
    if steps == [] then s else Next(Steps(s, subject, steps[..|steps| - 1]), subject, steps[|steps| - 1])
  }

  /** No group of this subject owes anything at or below the base. */
  ghost predicate NothingLost(s: Subject, subject: string) {
    forall g | g in s.groups && InRange(subject, g.key) :: OwesFrom(g.rec, s.base + 1)
  }

  ghost predicate AllOwe(groups: seq<Group>, subject: string, n: nat) {
    forall g | g in groups && InRange(subject, g.key) :: OwesFrom(g.rec, n)
  }

  lemma {:induction false} UpdateOwes(groups: seq<Group>, key: string, op: Op, blank: QRec, subject: string, n: nat)
    requires AllOwe(groups, subject, n) && OwesFrom(blank, n)
    ensures AllOwe(UpdateGroup(groups, key, op, blank), subject, n)
  {
    if groups == [] {
      ApplyOwes(blank, op, n);
    } else {
      assert groups[0] in groups;
      if groups[0].key == key {
        if InRange(subject, key) { ApplyOwes(groups[0].rec, op, n); }
      } else {
        UpdateOwes(groups[1..], key, op, blank, subject, n);
      }
    }
  }

  lemma {:induction false} RemoveOwes(groups: seq<Group>, key: string, subject: string, n: nat)
    requires AllOwe(groups, subject, n)
    ensures AllOwe(RemoveGroup(groups, key), subject, n)
  {
    if groups != [] && groups[0].key != key {
      assert groups[0] in groups;
      RemoveOwes(groups[1..], key, subject, n);
    }
  }

  lemma TrimKeeps(s: Subject, subject: string, before: nat)
    requires NothingLost(s, subject)
    ensures NothingLost(Trim(s, subject, before, false), subject)
  {
    TrimRespectsOwed(s, subject, before);
    forall g | g in s.groups && InRange(subject, g.key) ensures OwesFrom(g.rec, Trim(s, subject, before, false).base + 1) {
      OwedIsExact(g.rec, s.base + 1);
      OwedIsExact(g.rec, Trim(s, subject, before, false).base + 1);
    }
  }

  /**
   In every run without a forced trim, every job in flight and every job not yet
   handed out, of every group of the subject, is still in the log's live range.
   */
  lemma {:induction false} OwedJobsSurvive(s: Subject, subject: string, steps: seq<Step>)
    requires NothingLost(s, subject)
    ensures NothingLost(Steps(s, subject, steps), subject)
  {
    if steps != [] {
      var init, step := steps[..|steps| - 1], steps[|steps| - 1];
      OwedJobsSurvive(s, subject, init);
      var t := Steps(s, subject, init);
      match step
      case QueueOp(key, op) => UpdateOwes(t.groups, key, op, FreshRec(t.base + 1), subject, t.base + 1);
      case DropGroup(key) => RemoveOwes(t.groups, key, subject, t.base + 1);
      case TrimTo(before) => TrimKeeps(t, subject, before);
      case _ =>
    }
  }

  /**
   And a live message above some consumer's receipt survives each of those
   trims: no step but that consumer's own acknowledgement lets it go.
   */
  lemma UnreadMessagesSurvive(s: Subject, subject: string, steps: seq<Step>, before: nat, consumer: string, index: nat)
    requires '/' !in subject
    requires
      var t := Steps(s, subject, steps);
      t.base < index <= t.last && exists c | c in t.cursors :: c.key == JoinKey(subject, consumer) && c.acked < index
    ensures var t' := Next(Steps(s, subject, steps), subject, TrimTo(before)); t'.base < index <= t'.last
  {
    var t := Steps(s, subject, steps);
    RangeExact(subject, subject, consumer);
    TrimRespectsOwed(t, subject, before);
  }
}
