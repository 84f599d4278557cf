/** The keys of the rate limiter (src/api/rate_limit.py:68-83): which requests share one, and exactly which
    configurations let requests under different rules share one.

    The client's address is an arbitrary string. HTTP methods are tokens and contain no colon (section
    5.6.2 of RFC 9110). */
module RateKeys {
  import opened Prelude
  import opened RateLimit

  /** One entry of `path_rules`. */
  datatype PathRule = PathRule(httpMethod: string, path: string, rule: Rule)

  datatype Request = Request(ip: string, httpMethod: string, path: string)

  /** str.upper on ASCII. */
  function Upper(s: string): string {
    seq(|s|, i requires 0 <= i < |s| => if 'a' <= s[i] <= 'z' then s[i] - 'a' + 'A' else s[i])
  }

  /** The first matching rule; None is the default rule. */
  function RuleFor(rules: seq<PathRule>, httpMethod: string, path: string): Option<Rule> {
    if rules == [] then None
    else if Upper(httpMethod) == Upper(rules[0].httpMethod) && path == rules[0].path then Some(rules[0].rule)
    else RuleFor(rules[1..], httpMethod, path)
  }

  function RuleOf(rules: seq<PathRule>, default: Rule, q: Request): Rule {
    RuleFor(rules, q.httpMethod, q.path).GetOr(default)
  }

  function Key(rules: seq<PathRule>, q: Request): string {
    if RuleFor(rules, q.httpMethod, q.path).Some? then q.ip + ":" + q.httpMethod + ":" + q.path else q.ip + ":default"
  }

  /** A possible request whose key is this. */
  predicate On(rules: seq<PathRule>, q: Request, key: string) {
    ':' !in q.httpMethod && Key(rules, q) == key
  }

  /** The rules that meet on this key are pairwise the same, in the given sense. */
  ghost predicate Meet(rules: seq<PathRule>, default: Rule, key: string, same: (Rule, Rule) -> bool) {
    forall q, r :: On(rules, q, key) && On(rules, r, key) ==> same(RuleOf(rules, default, q), RuleOf(rules, default, r))
  }

  /** The path reads like the end of a default key. */
  predicate EndsAsDefault(path: string) {
    path == "default" || EndsWith(path, ":default")
  }

  /** The path is, or has after a colon, a method and path that this entry matches. */
  predicate Embeds(path: string, entry: PathRule) {
    var m, n := |entry.httpMethod|, |entry.httpMethod| + 1 + |entry.path|;
    && |path| >= n
    && (|path| == n || path[|path| - n - 1] == ':')
    && Upper(path[|path| - n..][..m]) == Upper(entry.httpMethod)
    && path[|path| - n..][m..] == ":" + entry.path
  }

  function RuleAt(rules: seq<PathRule>, default: Rule, i: nat): Rule
    requires i < |rules|
  {
    RuleFor(rules, rules[i].httpMethod, rules[i].path).GetOr(default)
  }

  predicate ClearAt(rules: seq<PathRule>, default: Rule, same: (Rule, Rule) -> bool, i: nat)
    requires i < |rules|
  {
    && (EndsAsDefault(rules[i].path) ==> same(RuleAt(rules, default, i), default))
    && forall j :: 0 <= j < |rules| && ':' !in rules[j].httpMethod && Embeds(rules[i].path, rules[j]) ==>
         same(RuleAt(rules, default, i), RuleAt(rules, default, j))
  }

  /** What can be read off the configuration: whenever the path of an entry reads like the end of the key of
      another entry, or of the default key, the rules of the two are the same. */
  predicate Clear(rules: seq<PathRule>, default: Rule, same: (Rule, Rule) -> bool) {
    forall i :: 0 <= i < |rules| && ':' !in rules[i].httpMethod ==> ClearAt(rules, default, same, i)
  }

  ghost predicate ReflexiveSymmetric(same: (Rule, Rule) -> bool) {
    && (forall r :: same(r, r))
    && (forall r, s :: same(r, s) ==> same(s, r))
  }

  lemma UpperColon(s: string, t: string)
    requires Upper(s) == Upper(t)
    ensures |s| == |t| && (':' in s <==> ':' in t)
  {
    assert |Upper(s)| == |s| && |Upper(t)| == |t|;
    forall i | 0 <= i < |s| ensures s[i] == ':' <==> t[i] == ':' {
      assert Upper(s)[i] == Upper(t)[i];
    }
  }

  /** A request that matches any entry has the rule of the first it matches. */
  lemma {:induction false} MatchedBy(rules: seq<PathRule>, m: string, path: string) returns (i: nat)
    requires RuleFor(rules, m, path).Some?
    ensures i < |rules| && Upper(m) == Upper(rules[i].httpMethod) && path == rules[i].path
  {
    if Upper(m) == Upper(rules[0].httpMethod) && path == rules[0].path {
      i := 0;
    } else {
      var k := MatchedBy(rules[1..], m, path);
      i := k + 1;
    }
  }

  /** The same letter, or a small letter and its capital. */
  predicate SameLetter(a: char, b: char) {
    a == b || ('a' <= a <= 'z' && b == a - 'a' + 'A') || ('a' <= b <= 'z' && a == b - 'a' + 'A')
  }

  predicate SameButCase(s: string, t: string) {
    |s| == |t| && forall i :: 0 <= i < |s| ==> SameLetter(s[i], t[i])
  }

  lemma UpperIgnoresCase(s: string, t: string)
    ensures Upper(s) == Upper(t) <==> SameButCase(s, t)
  {
    assert |Upper(s)| == |s| && |Upper(t)| == |t|;
    if |s| == |t| {
      forall i | 0 <= i < |s| ensures Upper(s)[i] == Upper(t)[i] <==> SameLetter(s[i], t[i]) {
      }
    }
  }

  predicate Matches(entry: PathRule, m: string, path: string) {
    SameButCase(m, entry.httpMethod) && path == entry.path
  }

  /** The rule of a request is that of the first entry with its path and, but for case, its method. */
  lemma {:induction false} RuleIsFirst(rules: seq<PathRule>, m: string, path: string, rule: Rule)
    ensures RuleFor(rules, m, path) == Some(rule) <==>
            exists i :: 0 <= i < |rules| && Matches(rules[i], m, path) && rules[i].rule == rule
                        && forall j :: 0 <= j < i ==> !Matches(rules[j], m, path)
    ensures RuleFor(rules, m, path) == None <==> forall i :: 0 <= i < |rules| ==> !Matches(rules[i], m, path)
  {
    if rules != [] {
      UpperIgnoresCase(m, rules[0].httpMethod);
      RuleIsFirst(rules[1..], m, path, rule);
      assert forall i :: 0 < i < |rules| ==> rules[i] == rules[1..][i - 1];
      if i :| 0 <= i < |rules| - 1 && Matches(rules[1..][i], m, path) && rules[1..][i].rule == rule
               && forall j :: 0 <= j < i ==> !Matches(rules[1..][j], m, path) {
        assert rules[i + 1].rule == rule;
        assert !Matches(rules[0], m, path) ==> forall j :: 0 <= j < i + 1 ==> !Matches(rules[j], m, path);
      }
    }
  }

  lemma {:induction false} SameUpperSameRule(rules: seq<PathRule>, m: string, n: string, path: string)
    requires Upper(m) == Upper(n)
    ensures RuleFor(rules, m, path) == RuleFor(rules, n, path)
  {
    if rules != [] {
      SameUpperSameRule(rules[1..], m, n, path);
    }
  }

  lemma {:induction false} EntryMatches(rules: seq<PathRule>, i: nat)
    requires i < |rules|
    ensures RuleFor(rules, rules[i].httpMethod, rules[i].path).Some?
  {
    if i > 0 {
      EntryMatches(rules[1..], i - 1);
    }
  }

  /** Of two ways to cut a string, the longer tail contains the shorter. */
  lemma LongerTail(a: string, b: string, c: string, d: string)
    requires a + b == c + d && |b| >= |d|
    ensures b == b[..|b| - |d|] + d && a + b[..|b| - |d|] == c
  {
    var s := a + b;
    assert b == s[|a|..] && d == s[|c|..];
    assert b[|b| - |d|..] == d;
    assert a + b[..|b| - |d|] == s[..|c|];
    assert c == s[..|c|];
  }

  lemma TailBegins(a: string, b: string, c: string, d: string)
    requires a + b == c + d && |b| >= |d| > 0
    ensures b[|b| - |d|] == d[0]
  {
    assert (a + b)[|a| + |b| - |d|] == b[|b| - |d|];
    assert (c + d)[|c|] == d[0];
  }

  /** A string splits in one way only at its last colon. */
  lemma LastColon(a: string, b: string, c: string, d: string)
    requires a + ":" + b == c + ":" + d && ':' !in b && ':' !in d
    ensures a == c && b == d
  {
    var s := a + ":" + b;
    assert s == a + ([':'] + b) && s == c + ([':'] + d);
    assert s[|a|] == ':' && s[|c|] == ':';
    assert forall i :: |a| < i < |s| ==> s[i] == b[i - |a| - 1];
    assert forall i :: |c| < i < |s| ==> s[i] == d[i - |c| - 1];
    assert a == s[..|a|] && c == s[..|c|];
    assert b == s[|a| + 1..] && d == s[|c| + 1..];
  }

  lemma {:induction false} CutAtLastColon(s: string) returns (front: string, back: string)
    requires ':' in s
    ensures s == front + ":" + back && ':' !in back
  {
    var n := |s| - 1;
    if s[n] == ':' {
      front, back := s[..n], "";
    } else {
      var f, b := CutAtLastColon(s[..n]);
      front, back := f, b + [s[n]];
      assert s == s[..n] + [s[n]];
    }
  }

  /** Reading `Embeds` as a decomposition, one way ... */
  lemma EmbedsWhole(m: string, entry: PathRule)
    requires Upper(m) == Upper(entry.httpMethod)
    ensures Embeds(m + ":" + entry.path, entry)
  {
    UpperColon(m, entry.httpMethod);
    var p := m + ":" + entry.path;
    assert p[0..] == p && p[..|m|] == m && p[|m|..] == ":" + entry.path;
  }

  lemma EmbedsTail(front: string, m: string, entry: PathRule)
    requires Upper(m) == Upper(entry.httpMethod)
    ensures Embeds(front + ":" + (m + ":" + entry.path), entry)
  {
    UpperColon(m, entry.httpMethod);
    var t := m + ":" + entry.path;
    var p := front + ":" + t;
    assert p[|p| - |t|..] == t && p[|p| - |t| - 1] == ':';
    assert t[..|m|] == m && t[|m|..] == ":" + entry.path;
  }

  /** ... and the other: `front` is None if there is nothing before. */
  lemma EmbedsSplits(path: string, entry: PathRule) returns (front: Option<string>, m: string)
    requires Embeds(path, entry)
    ensures Upper(m) == Upper(entry.httpMethod)
    ensures path == match front
                    case None => m + ":" + entry.path
                    case Some(f) => f + ":" + (m + ":" + entry.path)
  {
    var k, n := |entry.httpMethod|, |entry.httpMethod| + 1 + |entry.path|;
    var t := path[|path| - n..];
    m := t[..k];
    assert t == m + (":" + entry.path);
    if |path| == n {
      front := None;
      assert path == t;
    } else {
      var f := path[..|path| - n - 1];
      front := Some(f);
      assert path == f + ":" + t;
    }
  }

  lemma DefaultTail(front: string)
    ensures EndsAsDefault(front + ":default")
  {
    var p := front + ":default";
    assert p[|p| - 8..] == ":default";
  }

  /** Two matched requests with one key and paths of different length: what the longer path has before the
      shorter one ends in the method of the other request. */
  lemma LongerPath(q: Request, r: Request) returns (front: string)
    requires |q.path| > |r.path|
    requires q.ip + ":" + q.httpMethod + ":" + q.path == r.ip + ":" + r.httpMethod + ":" + r.path
    ensures q.path == front + ":" + r.path
    ensures q.ip + ":" + q.httpMethod + ":" + front == r.ip + ":" + r.httpMethod
  {
    var a, c := q.ip + ":" + q.httpMethod, r.ip + ":" + r.httpMethod;
    var b, d := ":" + q.path, ":" + r.path;
    assert a + b == q.ip + ":" + q.httpMethod + ":" + q.path;
    assert c + d == r.ip + ":" + r.httpMethod + ":" + r.path;
    LongerTail(a, b, c, d);
    front := q.path[..|q.path| - |r.path| - 1];
    assert b[..|b| - |d|] == ":" + front;
    assert b == (":" + front) + d;
    assert q.path == b[1..] == front + d;
    assert a + ":" + front == a + (":" + front);
  }

  /** So it embeds the entry of the other request. */
  lemma LongerEmbeds(q: Request, r: Request, entry: PathRule)
    requires ':' !in r.httpMethod && |q.path| > |r.path|
    requires q.ip + ":" + q.httpMethod + ":" + q.path == r.ip + ":" + r.httpMethod + ":" + r.path
    requires Upper(r.httpMethod) == Upper(entry.httpMethod) && r.path == entry.path
    ensures Embeds(q.path, entry)
  {
    var a := q.ip + ":" + q.httpMethod;
    var x := LongerPath(q, r);
    if ':' in x {
      var f, b := CutAtLastColon(x);
      assert (a + ":" + f) + ":" + b == a + ":" + x;
      LastColon(a + ":" + f, b, r.ip, r.httpMethod);
      EmbedsTail(f, b, entry);
      assert q.path == f + ":" + (b + ":" + entry.path);
    } else {
      LastColon(a, x, r.ip, r.httpMethod);
      EmbedsWhole(x, entry);
    }
  }

  lemma SameLengthSame(q: Request, r: Request)
    requires ':' !in q.httpMethod && ':' !in r.httpMethod && |q.path| == |r.path|
    requires q.ip + ":" + q.httpMethod + ":" + q.path == r.ip + ":" + r.httpMethod + ":" + r.path
    ensures q == r
  {
    var a, c := q.ip + ":" + q.httpMethod, r.ip + ":" + r.httpMethod;
    assert a + (":" + q.path) == q.ip + ":" + q.httpMethod + ":" + q.path;
    assert c + (":" + r.path) == r.ip + ":" + r.httpMethod + ":" + r.path;
    LongerTail(a, ":" + q.path, c, ":" + r.path);
    assert (":" + q.path)[..0] == "" && a + "" == a;
    assert q.path == (":" + q.path)[1..] && r.path == (":" + r.path)[1..];
    LastColon(q.ip, q.httpMethod, r.ip, r.httpMethod);
  }

  /** A matched request shares a default key only if its path reads like the end of one. */
  lemma MeetsDefault(q: Request, ip: string)
    requires q.ip + ":" + q.httpMethod + ":" + q.path == ip + ":default"
    ensures EndsAsDefault(q.path)
  {
    var a, b, d := q.ip + ":" + q.httpMethod, ":" + q.path, ":default";
    assert a + b == q.ip + ":" + q.httpMethod + ":" + q.path;
    assert forall i :: 1 <= i < |d| ==> d[i] != ':';
    if |b| < |d| {
      TailBegins(ip, d, a, b);
      assert false;
    }
    LongerTail(a, b, ip, d);
    assert q.path == b[1..];
    if |b| > |d| {
      var x := q.path[..|q.path| - |d|];
      assert q.path == x + d;
      DefaultTail(x);
    }
  }

  lemma ClearMeets(rules: seq<PathRule>, default: Rule, same: (Rule, Rule) -> bool, q: Request, r: Request, key: string)
    requires ReflexiveSymmetric(same) && Clear(rules, default, same)
    requires On(rules, q, key) && On(rules, r, key)
    requires RuleFor(rules, q.httpMethod, q.path).Some?
    requires RuleFor(rules, r.httpMethod, r.path).Some? ==> |q.path| >= |r.path|
    ensures same(RuleOf(rules, default, q), RuleOf(rules, default, r))
  {
    var i := MatchedBy(rules, q.httpMethod, q.path);
    UpperColon(q.httpMethod, rules[i].httpMethod);
    SameUpperSameRule(rules, q.httpMethod, rules[i].httpMethod, q.path);
    assert ClearAt(rules, default, same, i);
    if RuleFor(rules, r.httpMethod, r.path).None? {
      MeetsDefault(q, r.ip);
    } else if |q.path| == |r.path| {
      SameLengthSame(q, r);
    } else {
      var j := MatchedBy(rules, r.httpMethod, r.path);
      UpperColon(r.httpMethod, rules[j].httpMethod);
      SameUpperSameRule(rules, r.httpMethod, rules[j].httpMethod, r.path);
      LongerEmbeds(q, r, rules[j]);
    }
  }

  lemma ClearSuffices(rules: seq<PathRule>, default: Rule, same: (Rule, Rule) -> bool, key: string)
    requires ReflexiveSymmetric(same) && Clear(rules, default, same)
    ensures Meet(rules, default, key, same)
  {
    forall q, r | On(rules, q, key) && On(rules, r, key)
      ensures same(RuleOf(rules, default, q), RuleOf(rules, default, r))
    {
      var s, t := RuleFor(rules, q.httpMethod, q.path), RuleFor(rules, r.httpMethod, r.path);
      if s.Some? && (t.Some? ==> |q.path| >= |r.path|) {
        ClearMeets(rules, default, same, q, r, key);
      } else if t.Some? {
        ClearMeets(rules, default, same, r, q, key);
      }
    }
  }

  function Longest(rules: seq<PathRule>): nat {
    if rules == [] then 0 else Max(|rules[0].path|, Longest(rules[1..]))
  }

  /** A path longer than every configured one matches nothing. */
  lemma {:induction false} LongPathUnmatched(rules: seq<PathRule>, m: string, path: string)
    requires |path| > Longest(rules)
    ensures RuleFor(rules, m, path).None?
  {
    if rules != [] {
      LongPathUnmatched(rules[1..], m, path);
    }
  }

  function Unmatched(rules: seq<PathRule>, ip: string): Request {
    Request(ip, "GET", seq(Longest(rules) + 1, _ => '/'))
  }

  /** Where the configuration is not clear, two requests share a key: an address absorbs the front of the path. */
  lemma DefaultShared(rules: seq<PathRule>, default: Rule, i: nat) returns (q: Request, r: Request)
    requires i < |rules| && ':' !in rules[i].httpMethod && EndsAsDefault(rules[i].path)
    ensures On(rules, q, Key(rules, r)) && On(rules, r, Key(rules, r))
    ensures RuleOf(rules, default, q) == RuleAt(rules, default, i) && RuleOf(rules, default, r) == default
  {
    var p := rules[i].path;
    q := Request("", rules[i].httpMethod, p);
    EntryMatches(rules, i);
    var head := "" + ":" + rules[i].httpMethod;
    var ip := if p == "default" then head else head + ":" + p[..|p| - 8];
    r := Unmatched(rules, ip);
    LongPathUnmatched(rules, r.httpMethod, r.path);
    if p != "default" {
      assert p == p[..|p| - 8] + ":default";
    }
    assert Key(rules, q) == head + ":" + p;
    assert head + ":" + p == ip + ":default";
  }

  lemma Absorbs(head: string, front: Option<string>, tail: string, path: string, ip: string)
    requires path == match front case None => tail case Some(f) => f + ":" + tail
    requires ip == match front case None => head case Some(f) => head + ":" + f
    ensures head + ":" + path == ip + ":" + tail
  {
    match front
    case None =>
    case Some(f) => assert head + ":" + (f + ":" + tail) == head + ":" + f + ":" + tail;
  }

  lemma EntriesShared(rules: seq<PathRule>, default: Rule, i: nat, j: nat) returns (q: Request, r: Request)
    requires i < |rules| && j < |rules| && ':' !in rules[i].httpMethod && ':' !in rules[j].httpMethod
    requires Embeds(rules[i].path, rules[j])
    ensures On(rules, q, Key(rules, r)) && On(rules, r, Key(rules, r))
    ensures RuleOf(rules, default, q) == RuleAt(rules, default, i)
    ensures RuleOf(rules, default, r) == RuleAt(rules, default, j)
  {
    var front, m := EmbedsSplits(rules[i].path, rules[j]);
    q := Request("", rules[i].httpMethod, rules[i].path);
    EntryMatches(rules, i);
    EntryMatches(rules, j);
    var head := "" + ":" + rules[i].httpMethod;
    var ip := match front case None => head case Some(f) => head + ":" + f;
    r := Request(ip, m, rules[j].path);
    UpperColon(m, rules[j].httpMethod);
    SameUpperSameRule(rules, m, rules[j].httpMethod, rules[j].path);
    Absorbs(head, front, m + ":" + rules[j].path, rules[i].path, ip);
    assert ip + ":" + m + ":" + rules[j].path == ip + ":" + (m + ":" + rules[j].path);
  }

  /** Main result: which configurations keep rules apart. On every key the rules that meet are the same, in
      any given sense of it, if and only if the configuration is clear in that sense. */
  lemma MeetExactly(rules: seq<PathRule>, default: Rule, same: (Rule, Rule) -> bool)
    requires ReflexiveSymmetric(same)
    ensures (forall key :: Meet(rules, default, key, same)) <==> Clear(rules, default, same)
  {
    if Clear(rules, default, same) {
      forall key ensures Meet(rules, default, key, same) {
        ClearSuffices(rules, default, same, key);
      }
    } else {
      var i :| 0 <= i < |rules| && ':' !in rules[i].httpMethod && !ClearAt(rules, default, same, i);
      if EndsAsDefault(rules[i].path) && !same(RuleAt(rules, default, i), default) {
        var q, r := DefaultShared(rules, default, i);
        assert !Meet(rules, default, Key(rules, r), same);
      } else {
        var j :| 0 <= j < |rules| && ':' !in rules[j].httpMethod && Embeds(rules[i].path, rules[j])
                 && !same(RuleAt(rules, default, i), RuleAt(rules, default, j));
        var q, r := EntriesShared(rules, default, i, j);
        assert !Meet(rules, default, Key(rules, r), same);
      }
    }
  }

  const EQUAL: (Rule, Rule) -> bool := (r, s) => r == s

  /** A key has one rule, for every key, if and only if the configuration is clear. */
  lemma OneRulePerKey(rules: seq<PathRule>, default: Rule)
    ensures (forall q, r :: On(rules, q, Key(rules, r)) && ':' !in r.httpMethod ==>
                              RuleOf(rules, default, q) == RuleOf(rules, default, r))
            <==> Clear(rules, default, EQUAL)
  {
    MeetExactly(rules, default, EQUAL);
    if forall q, r :: On(rules, q, Key(rules, r)) && ':' !in r.httpMethod ==>
                        RuleOf(rules, default, q) == RuleOf(rules, default, r)
    {
      forall key ensures Meet(rules, default, key, EQUAL) {
      }
    } else {
      var q, r :| On(rules, q, Key(rules, r)) && ':' !in r.httpMethod
                  && RuleOf(rules, default, q) != RuleOf(rules, default, r);
      assert On(rules, r, Key(rules, r));
      assert !Meet(rules, default, Key(rules, r), EQUAL);
    }
  }

  lemma DefaultHasColon(path: string)
    ensures EndsWith(path, ":default") ==> ':' in path
  {
    if EndsWith(path, ":default") {
      assert path[|path| - 8] == path[|path| - 8..][0] == ':';
    }
  }

  lemma EmbeddingHasColon(path: string, entry: PathRule)
    ensures Embeds(path, entry) ==> ':' in path
  {
    if Embeds(path, entry) {
      var n := |entry.httpMethod| + 1 + |entry.path|;
      assert path[|path| - n..][|entry.httpMethod|..][0] == ':';
      assert path[|path| - n + |entry.httpMethod|] == ':';
    }
  }

  /** In particular, paths without a colon are harmless, except for the word that marks the default key. */
  lemma ColonFreeIsClear(rules: seq<PathRule>, default: Rule, same: (Rule, Rule) -> bool)
    requires forall i :: 0 <= i < |rules| ==> ':' !in rules[i].path && rules[i].path != "default"
    ensures Clear(rules, default, same)
  {
    forall i, j | 0 <= i < |rules| && 0 <= j < |rules|
      ensures EndsAsDefault(rules[i].path) ==> rules[i].path == "default" || ':' in rules[i].path
      ensures Embeds(rules[i].path, rules[j]) ==> ':' in rules[i].path
    {
      DefaultHasColon(rules[i].path);
      EmbeddingHasColon(rules[i].path, rules[j]);
    }
  }

  /** The word is not: a rule for the path "default" shares a key with the default rule. */
  lemma DefaultPathCollides(rule: Rule)
    ensures var rules := [PathRule("GET", "default", rule)];
            && Key(rules, Request("1", "GET", "default")) == Key(rules, Request("1:GET", "GET", "/other"))
            && RuleFor(rules, "GET", "default") != RuleFor(rules, "GET", "/other")
  {
    var rules := [PathRule("GET", "default", rule)];
    assert RuleFor(rules[1..], "GET", "/other") == None;
    assert "1" + ":" + "GET" + ":" + "default" == "1:GET" + ":default";
  }
}
