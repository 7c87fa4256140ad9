/**
 Names, keys and patterns: the token scanner and validators of src/store.c,
 the JavaScript validator they have to agree with, and the key ranges that
 retention and purging use as exact filters.
 */
module Names {
  import opened Options
  const NAME_MAX: nat := 128

  predicate NameChar(c: char) {
    'a' <= c <= 'z' || 'A' <= c <= 'Z' || '0' <= c <= '9' || c == '_' || c == '-'
  }

  /** name_valid: subjects, consumers and groups alike. */
  predicate NameValid(s: string) {
    && 0 < |s| <= NAME_MAX
    && s[0] != '.' && s[|s| - 1] != '.'
    && (forall i | 0 <= i < |s| :: NameChar(s[i]) || s[i] == '.')
    && (forall i | 0 <= i < |s| - 1 :: !(s[i] == '.' && s[i + 1] == '.'))
  }

  lemma NameHasNoSlash(s: string)
    requires NameValid(s)
    ensures '/' !in s && s != ""
  {
  }

  // ---- dead-letter channels ---------------------------------------------------

  const DEAD_SUFFIX: string := ".dead"

  predicate IsDeadName(name: string) {
    |name| >= |DEAD_SUFFIX| && name[|name| - |DEAD_SUFFIX|..] == DEAD_SUFFIX
  }

  /** dead_subject_of: none for a dead-letter channel itself or a name that would not be valid. */
  function DeadName(name: string): Option<string> {
    if IsDeadName(name) || !NameValid(name + DEAD_SUFFIX) then None else Some(name + DEAD_SUFFIX)
  }

  lemma DeadIsDead(name: string)
    requires DeadName(name).Some?
    ensures IsDeadName(DeadName(name).value) && DeadName(DeadName(name).value).None?
  {
  }

  // ---- tokens --------------------------------------------------------------

  /** The first '.' at or after `p`, or the end. */
  function DotFrom(s: string, p: nat): (d: nat)
    requires p <= |s|
    ensures p <= d <= |s|
    ensures d < |s| ==> s[d] == '.'
    ensures forall i | p <= i < d :: s[i] != '.'
    decreases |s| - p
  {
    if p == |s| || s[p] == '.' then p else DotFrom(s, p + 1)
  }

  /** Where next_token leaves its pointer. */
  function AfterToken(s: string, p: nat): (n: nat)
    requires p < |s|
    ensures p < n <= |s|
  {
    if DotFrom(s, p) < |s| then DotFrom(s, p) + 1 else |s|
  }

  function TokenAt(s: string, p: nat): string
    requires p < |s|
  {
    s[p..DotFrom(s, p)]
  }

  /** Every token next_token yields from `p` on. */
  function Tokens(s: string, p: nat): seq<string>
    requires p <= |s|
    decreases |s| - p
  {
    if p == |s| then [] else [TokenAt(s, p)] + Tokens(s, AfterToken(s, p))
  }

  /** JavaScript's s.split('.'), from `p` on. */
  function Split(s: string, p: nat): seq<string>
    requires p <= |s|
    decreases |s| - p
  {
    var d := DotFrom(s, p);
    if d == |s| then [s[p..]] else [s[p..d]] + Split(s, d + 1)
  }

  predicate TrailingDot(s: string) { s != "" && s[|s| - 1] == '.' }

  /** The scanner never sees the empty token after a trailing dot. */
  lemma {:induction false} SplitTokens(s: string, p: nat)
    requires p <= |s|
    ensures Split(s, p) == Tokens(s, p) + if p == |s| || TrailingDot(s) then [""] else []
    decreases |s| - p
  {
    if p < |s| {
      var d := DotFrom(s, p);
      if d < |s| {
        SplitTokens(s, d + 1);
        var tail := if d + 1 == |s| || TrailingDot(s) then [""] else [];
        assert d + 1 == |s| ==> TrailingDot(s);
        assert [s[p..d]] + (Tokens(s, d + 1) + tail) == ([s[p..d]] + Tokens(s, d + 1)) + tail;
      } else {
        assert s[p..d] == s[p..];
        assert s[|s| - 1] != '.';
        assert Tokens(s, |s|) == [];
      }
    } else {
      assert s[p..] == "";
    }
  }

  lemma {:induction false} DotFromPrefix(s: string, p: nat)
    requires TrailingDot(s) && p < |s|
    ensures DotFrom(s, p) == DotFrom(s[..|s| - 1], p)
    decreases |s| - p
  {
    if p < |s| - 1 && s[p] != '.' { DotFromPrefix(s, p + 1); }
  }

  lemma SameToken(s: string, p: nat, d: nat)
    requires s != "" && p <= d <= |s| - 1
    ensures s[p..d] == s[..|s| - 1][p..d] && (d == |s| - 1 ==> s[p..d] == s[..|s| - 1][p..])
  {
  }

  lemma TokensStep(s: string, p: nat, d: nat)
    requires p < |s| && d == DotFrom(s, p)
    ensures Tokens(s, p) == [s[p..d]] + if d < |s| then Tokens(s, d + 1) else []
    ensures Tokens(s, |s|) == []
  {
    hide DotFrom;
    if d == |s| { assert Tokens(s, |s|) == []; }
  }

  lemma SplitStep(s: string, p: nat, d: nat)
    requires p <= |s| && d == DotFrom(s, p)
    ensures Split(s, p) == if d == |s| then [s[p..]] else [s[p..d]] + Split(s, d + 1)
  {
    hide DotFrom;
  }

  /** With a trailing dot, the scanner reads what JavaScript reads without it. */
  lemma {:induction false} TokensDropDot(s: string, p: nat)
    requires TrailingDot(s) && p < |s|
    ensures Tokens(s, p) == Split(s[..|s| - 1], p)
    decreases |s| - p
  {
    var u, d := s[..|s| - 1], DotFrom(s, p);
    DotFromPrefix(s, p);
    TokensStep(s, p, d);
    SplitStep(u, p, d);
    SameToken(s, p, d);
    hide DotFrom, Tokens, Split;
    if d < |u| { TokensDropDot(s, d + 1); }
  }

  // ---- matching --------------------------------------------------------------

  predicate TokenFits(p: string, t: string) { p == "*" || p == t }

  /** The recursive relation: '*' is one token, '>' this one and everything after. */
  predicate TokensMatch(ps: seq<string>, ts: seq<string>) {
    if ps == [] then ts == []
    else if ps[0] == ">" then ts != []
    else ts != [] && TokenFits(ps[0], ts[0]) && TokensMatch(ps[1..], ts[1..])
  }

  predicate RestOnlyLast(ps: seq<string>) {
    forall i | 0 <= i < |ps| - 1 :: ps[i] != ">"
  }

  /** What a pattern means, position by position. */
  predicate Means(ps: seq<string>, ts: seq<string>) {
    if ps != [] && ps[|ps| - 1] == ">" then
      |ts| >= |ps| && forall i | 0 <= i < |ps| - 1 :: ps[i] == "*" || ps[i] == ts[i]
    else
      |ts| == |ps| && forall i | 0 <= i < |ps| :: ps[i] == "*" || ps[i] == ts[i]
  }

  lemma {:induction false} MatchMeaning(ps: seq<string>, ts: seq<string>)
    requires RestOnlyLast(ps)
    ensures TokensMatch(ps, ts) <==> Means(ps, ts)
  {
    if ps == [] {
    } else if ps[0] == ">" {
      assert |ps| == 1;
    } else if ts != [] {
      var ps', ts' := ps[1..], ts[1..];
      MatchMeaning(ps', ts');
      assert ps' != [] ==> ps'[|ps'| - 1] == ps[|ps| - 1];
      assert forall i | 0 <= i < |ps'| :: ps'[i] == ps[i + 1];
      assert forall i | 0 <= i < |ts'| :: ts'[i] == ts[i + 1];
      if Means(ps, ts) {
        assert ps[|ps| - 1] == ">" ==> |ps| >= 2;
        assert TokenFits(ps[0], ts[0]);
      }
      if TokenFits(ps[0], ts[0]) && Means(ps', ts') {
        forall i | 0 <= i < |ps| && (i < |ps| - 1 || ps[|ps| - 1] != ">") ensures TokenFits(ps[i], ts[i]) {
          if i > 0 { assert TokenFits(ps'[i - 1], ts'[i - 1]); }
        }
      }
      if Means(ps, ts) {
        forall i | 0 <= i < |ps'| && (i < |ps'| - 1 || ps'[|ps'| - 1] != ">") ensures TokenFits(ps'[i], ts'[i]) {
          assert TokenFits(ps[i + 1], ts[i + 1]);
        }
      }
    }
  }

  /** bjm_pattern_match: two pointers advanced token by token. */
  method PatternMatch(pattern: string, subject: string) returns (ok: bool)
    ensures ok <==> TokensMatch(Tokens(pattern, 0), Tokens(subject, 0))
  {
    var p: nat, s: nat := 0, 0;
    while p < |pattern|
      invariant p <= |pattern| && s <= |subject|
      invariant TokensMatch(Tokens(pattern, 0), Tokens(subject, 0)) <==>
                TokensMatch(Tokens(pattern, p), Tokens(subject, s))
      decreases |pattern| - p
    {
      var pt := TokenAt(pattern, p);
      assert Tokens(pattern, p)[1..] == Tokens(pattern, AfterToken(pattern, p));
      p := AfterToken(pattern, p);
      if pt == ">" { return s < |subject|; }
      if s == |subject| { return false; }
      var st := TokenAt(subject, s);
      assert Tokens(subject, s)[1..] == Tokens(subject, AfterToken(subject, s));
      s := AfterToken(subject, s);
      if pt != "*" && pt != st { return false; }
    }
    return s == |subject|;
  }

  // ---- the two validators ------------------------------------------------------

  predicate PlainToken(t: string) {
    t != "" && forall i | 0 <= i < |t| :: NameChar(t[i])
  }

  /** A token of a pattern; '>' may only be the last one. */
  predicate TokenOk(t: string, last: bool) {
    if t == ">" then last else t == "*" || PlainToken(t)
  }

  predicate TokensOk(ts: seq<string>) {
    forall i | 0 <= i < |ts| :: TokenOk(ts[i], i == |ts| - 1)
  }

  /** isValidPattern of packages/node/src/protocol.js. */
  predicate JsPatternValid(s: string) {
    0 < |s| <= NAME_MAX && TokensOk(Split(s, 0))
  }

  lemma TokensOkStep(t: string, rest: seq<string>)
    ensures TokensOk([t] + rest) <==> TokenOk(t, rest == []) && TokensOk(rest)
  {
    var ts := [t] + rest;
    assert forall i | 0 <= i < |rest| :: rest[i] == ts[i + 1];
    if TokensOk(ts) {
      assert TokenOk(ts[0], 0 == |ts| - 1);
      forall i | 0 <= i < |rest| ensures TokenOk(rest[i], i == |rest| - 1) { assert TokenOk(ts[i + 1], i + 1 == |ts| - 1); }
    }
  }

  /** bjm_pattern_valid: the scanning loop of src/store.c. */
  method PatternValid(s: string) returns (ok: bool)
    ensures ok <==> 0 < |s| <= NAME_MAX && TokensOk(Tokens(s, 0))
  {
    if |s| == 0 || |s| > NAME_MAX { return false; }
    var p := 0;
    while p < |s|
      invariant p <= |s|
      invariant TokensOk(Tokens(s, 0)) <==> TokensOk(Tokens(s, p))
      decreases |s| - p
    {
      var tok := TokenAt(s, p);
      TokensOkStep(tok, Tokens(s, AfterToken(s, p)));
      p := AfterToken(s, p);
      if |tok| == 0 { return false; }
      if tok == ">" { return p == |s|; }
      if tok != "*" {
        for i := 0 to |tok|
          invariant forall j | 0 <= j < i :: NameChar(tok[j])
        {
          if !NameChar(tok[i]) { return false; }
        }
      }
    }
    return true;
  }

  /**
   The two validators agree except that the C one also accepts one trailing
   dot after a pattern JavaScript accepts.
   */
  lemma ValidatorsAgree(s: string)
    requires 0 < |s| <= NAME_MAX
    ensures TokensOk(Tokens(s, 0)) <==>
              JsPatternValid(s) || (TrailingDot(s) && JsPatternValid(s[..|s| - 1]))
  {
    SplitTokens(s, 0);
    if TrailingDot(s) {
      TokensDropDot(s, 0);
      var ts := Split(s, 0);
      assert ts[|ts| - 1] == "" && !TokenOk("", true);
      if |s| == 1 { assert Split(s[..0], 0) == [""]; assert !TokenOk(Split(s[..0], 0)[0], true); }
    } else {
      assert Split(s, 0) == Tokens(s, 0);
    }
  }

  lemma ValidHasNoTrailingDot(s: string)
    requires JsPatternValid(s)
    ensures !TrailingDot(s)
  {
    SplitTokens(s, 0);
    var ts := Split(s, 0);
    assert TokenOk(ts[|ts| - 1], true);
  }

  /** bjm_pattern_is, isPattern */
  predicate HasWildcard(s: string) { '*' in s || '>' in s }

  /** isValidTarget: a pattern or a subject, by whether there is a wildcard in it. */
  predicate TargetValid(s: string) {
    if HasWildcard(s) then JsPatternValid(s) else NameValid(s)
  }

  /** What a name's characters must be from `p` on. */
  ghost predicate NameFrom(s: string, p: nat) {
    && p < |s| && s[p] != '.' && s[|s| - 1] != '.'
    && (forall i | p <= i < |s| :: NameChar(s[i]) || s[i] == '.')
    && (forall i | p <= i < |s| - 1 :: !(s[i] == '.' && s[i + 1] == '.'))
  }

  lemma {:induction false} PlainFrom(s: string, p: nat)
    requires !HasWildcard(s) && p <= |s|
    ensures TokensOk(Split(s, p)) <==> NameFrom(s, p)
    decreases |s| - p
  {
    var d := DotFrom(s, p);
    var t := s[p..d];
    assert forall i | 0 <= i < |t| :: t[i] == s[p + i] && s[p + i] in s;
    assert t != "" ==> t[0] != '>' && t[0] != '*';
    if d == |s| {
      assert s[p..] == t;
      assert Split(s, p) == [t];
      var ok := TokensOk([t]);
      assert ok ==> TokenOk([t][0], true);
      PlainChars(s, p, d);
    } else {
      PlainFrom(s, d + 1);
      TokensOkStep(t, Split(s, d + 1));
      PlainChars(s, p, d);
    }
  }

  lemma PlainChars(s: string, p: nat, d: nat)
    requires p <= d <= |s| && forall i | p <= i < d :: s[i] != '.'
    ensures PlainToken(s[p..d]) <==> p < d && forall i | p <= i < d :: NameChar(s[i])
  {
    var t := s[p..d];
    if PlainToken(t) {
      forall i | p <= i < d ensures NameChar(s[i]) { assert t[i - p] == s[i]; }
    }
  }

  /** Without a wildcard a pattern is a name, so a target is valid exactly when it is a valid pattern. */
  lemma TargetsArePatterns(s: string)
    ensures TargetValid(s) <==> JsPatternValid(s)
  {
    if !HasWildcard(s) { PlainFrom(s, 0); }
  }

  /** A word: letters, digits, '_' and '-', at least one. */
  predicate Word(t: string) {
    t != "" && forall c | c in t :: 'a' <= c <= 'z' || 'A' <= c <= 'Z' || '0' <= c <= '9' || c == '_' || c == '-'
  }

  lemma PlainIsWord(t: string)
    ensures PlainToken(t) <==> Word(t)
  {
    forall c | c in t ensures exists i :: 0 <= i < |t| && t[i] == c {
    }
    assert forall i | 0 <= i < |t| :: t[i] in t;
  }

  /** Said token by token: a pattern is up to 128 bytes of words and '*', with '>' allowed at the end. */
  lemma PatternsByToken(s: string)
    ensures
      JsPatternValid(s) <==>
        && 0 < |s| <= 128
        && forall i | 0 <= i < |Split(s, 0)| ::
             Split(s, 0)[i] == "*" || Word(Split(s, 0)[i]) || (Split(s, 0)[i] == ">" && i == |Split(s, 0)| - 1)
  {
    TokensAreWords(Split(s, 0));
  }

  lemma TokensAreWords(ts: seq<string>)
    ensures TokensOk(ts) <==> forall i | 0 <= i < |ts| :: ts[i] == "*" || Word(ts[i]) || (ts[i] == ">" && i == |ts| - 1)
  {
    forall i | 0 <= i < |ts|
      ensures TokenOk(ts[i], i == |ts| - 1) <==> ts[i] == "*" || Word(ts[i]) || (ts[i] == ">" && i == |ts| - 1)
    {
      TokenIsWord(ts[i], i == |ts| - 1);
    }
    hide TokenOk, Word;
  }

  lemma TokenIsWord(t: string, last: bool)
    ensures TokenOk(t, last) <==> t == "*" || Word(t) || (t == ">" && last)
  {
    PlainIsWord(t);
    assert !Word(">") by { assert ">"[0] == '>' && '>' in ">"; }
  }

  /** And a name is up to 128 bytes of words. */
  lemma NamesByToken(s: string)
    ensures NameValid(s) <==> 0 < |s| <= 128 && forall t | t in Split(s, 0) :: Word(t)
  {
    var ts := Split(s, 0);
    TargetsArePatterns(s);
    PatternsByToken(s);
    assert forall i | 0 <= i < |ts| :: ts[i] in ts;
    if HasWildcard(s) {
      var c :| c in s && (c == '*' || c == '>');
      var i :| 0 <= i < |s| && s[i] == c;
      assert !NameChar(c);
      var k := TokenOfChar(s, 0, i);
      assert !Word(ts[k]);
    } else {
      forall i | 0 <= i < |ts| ensures ts[i] != "*" && ts[i] != ">" { NoWildToken(s, i); }
    }
  }

  /** Every character but the dots stands in some token ... */
  lemma {:induction false} TokenOfChar(s: string, p: nat, i: nat) returns (k: nat)
    requires p <= i < |s| && s[i] != '.'
    ensures k < |Split(s, p)| && s[i] in Split(s, p)[k]
    decreases |s| - p
  {
    var d := DotFrom(s, p);
    SplitStep(s, p, d);
    hide Split, DotFrom;
    if i < d {
      k := 0;
      assert s[p..d][i - p] == s[i];
      assert d == |s| ==> s[p..] == s[p..d];
    } else {
      var r := TokenOfChar(s, d + 1, i);
      k := r + 1;
    }
  }

  /** ... and a token holds nothing else. */
  lemma {:induction false} TokenWithin(s: string, p: nat, k: nat)
    requires p <= |s| && k < |Split(s, p)|
    ensures forall c | c in Split(s, p)[k] :: c in s
    decreases |s| - p
  {
    var d := DotFrom(s, p);
    SplitStep(s, p, d);
    hide Split, DotFrom;
    if k > 0 { TokenWithin(s, d + 1, k - 1); }
  }

  lemma NoWildToken(s: string, k: nat)
    requires !HasWildcard(s) && k < |Split(s, 0)|
    ensures Split(s, 0)[k] != "*" && Split(s, 0)[k] != ">"
  {
    TokenWithin(s, 0, k);
    hide Split;
    assert '*' in "*" by { assert "*"[0] == '*'; }
    assert '>' in ">" by { assert ">"[0] == '>'; }
  }

  /** For a pattern both sides accept, the scanner decides the declarative meaning. */
  lemma MatcherMeaning(pattern: string, subject: string)
    requires JsPatternValid(pattern) && NameValid(subject)
    ensures TokensMatch(Tokens(pattern, 0), Tokens(subject, 0)) <==> Means(Split(pattern, 0), Split(subject, 0))
  {
    SplitTokens(pattern, 0);
    SplitTokens(subject, 0);
    var ps := Split(pattern, 0);
    ValidHasNoTrailingDot(pattern);
    assert Tokens(pattern, 0) == ps && Tokens(subject, 0) == Split(subject, 0);
    assert RestOnlyLast(ps) by {
      forall i | 0 <= i < |ps| - 1 ensures ps[i] != ">" { assert TokenOk(ps[i], i == |ps| - 1); }
    }
    MatchMeaning(ps, Split(subject, 0));
  }

  // ---- keys --------------------------------------------------------------------

  /** "<subject>/<name>": the shape of receipt, group and dedup keys. */
  function JoinKey(subject: string, name: string): string { subject + "/" + name }

  /** Byte-wise order of the tree's keys. */
  predicate LexLe(a: string, b: string) {
    a == "" || (b != "" && (a[0] < b[0] || (a[0] == b[0] && LexLe(a[1..], b[1..]))))
  }

  /** The scan "<subject>/" to "<subject>0". */
  predicate InRange(subject: string, key: string) {
    LexLe(subject + "/", key) && LexLe(key, subject + "0")
  }

  lemma {:induction false} RangeIsPrefix(subject: string, key: string)
    ensures InRange(subject, key) <==> (subject + "/" <= key || key == subject + "0")
  {
    if subject == "" {
      assert subject + "/" == "/" && subject + "0" == "0";
      if key != "" {
        assert LexLe("/", key) <==> '/' < key[0] || '/' == key[0] by { assert "/"[1..] == ""; }
        assert LexLe(key, "0") <==> key[0] < '0' || (key[0] == '0' && key[1..] == "") by { assert "0"[1..] == ""; }
        assert key == [key[0]] + key[1..];
      }
    } else if key != "" {
      var s', k' := subject[1..], key[1..];
      RangeIsPrefix(s', k');
      assert (subject + "/")[1..] == s' + "/" && (subject + "0")[1..] == s' + "0";
      assert subject + "/" == [subject[0]] + (s' + "/") && subject + "0" == [subject[0]] + (s' + "0");
      assert key == [key[0]] + k';
    }
  }

  function FirstSlash(k: string): (n: nat)
    ensures n <= |k|
  {
    if k == "" || k[0] == '/' then 0 else 1 + FirstSlash(k[1..])
  }

  lemma {:induction false} FirstSlashOfKey(t: string, c: string)
    requires '/' !in t
    ensures FirstSlash(JoinKey(t, c)) == |t|
  {
    if t != "" {
      FirstSlashOfKey(t[1..], c);
      assert JoinKey(t, c)[1..] == JoinKey(t[1..], c);
    }
  }

  lemma KeyPrefix(s: string, t: string, c: string)
    requires '/' !in s && '/' !in t
    ensures s + "/" <= JoinKey(t, c) <==> s == t
  {
    var k := JoinKey(t, c);
    FirstSlashOfKey(t, c);
    if s + "/" <= k {
      assert k == JoinKey(s, k[|s| + 1..]);
      FirstSlashOfKey(s, k[|s| + 1..]);
      assert k[..|s|] == s && k[..|t|] == t;
    }
    assert k == (t + "/") + c;
  }

  /** A subject's range holds exactly that subject's keys. */
  lemma RangeExact(s: string, t: string, c: string)
    requires '/' !in s && '/' !in t
    ensures InRange(s, JoinKey(t, c)) <==> s == t
  {
    RangeIsPrefix(s, JoinKey(t, c));
    KeyPrefix(s, t, c);
    assert JoinKey(t, c)[|t|] == '/';
    assert '/' in JoinKey(t, c);
    assert '/' !in s + "0";
  }

  lemma JoinKeyInjective(s: string, c: string, t: string, d: string)
    requires '/' !in s && '/' !in t && JoinKey(s, c) == JoinKey(t, d)
    ensures s == t && c == d
  {
    assert JoinKey(s, c) == (s + "/") + c;
    KeyPrefix(s, t, d);
    assert JoinKey(s, c)[|s| + 1..] == c;
  }

  /** The purge scan's test: the key ends in "/<consumer>" after a non-empty subject. */
  predicate SuffixHit(key: string, consumer: string) {
    && |key| > |consumer| + 1
    && key[|key| - |consumer| - 1] == '/'
    && key[|key| - |consumer|..] == consumer
  }

  function LastSlash(k: string): int {
    if k == "" then -1 else if k[|k| - 1] == '/' then |k| - 1 else LastSlash(k[..|k| - 1])
  }

  lemma {:induction false} LastSlashOfKey(t: string, d: string)
    requires '/' !in d
    ensures LastSlash(JoinKey(t, d)) == |t|
  {
    if d != "" {
      LastSlashOfKey(t, d[..|d| - 1]);
      assert JoinKey(t, d)[..|JoinKey(t, d)| - 1] == JoinKey(t, d[..|d| - 1]);
    }
  }

  /** Purging by suffix finds exactly one consumer's keys. */
  lemma SuffixExact(t: string, d: string, consumer: string)
    requires t != "" && '/' !in d && '/' !in consumer
    ensures SuffixHit(JoinKey(t, d), consumer) <==> d == consumer
  {
    var k := JoinKey(t, d);
    assert k[|t|] == '/' && k[|t| + 1..] == d;
    LastSlashOfKey(t, d);
    if SuffixHit(k, consumer) {
      var at := |k| - |consumer| - 1;
      assert k == JoinKey(k[..at], consumer);
      LastSlashOfKey(k[..at], consumer);
    }
  }
}
