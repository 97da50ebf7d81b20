/**
 * Persona edges: the rules of a persona as anchored patterns, tried in order by a
 * server that stops at the first that matches.
 */
module PersonaEdges {
  import opened Texts

  datatype Methods = All | Only(allowed: set<string>)

  datatype Rule = Rule(prefix: string, exact: bool, methods: Methods)

  const ALL_METHODS: set<string> := {"GET", "POST", "PUT", "PATCH", "DELETE"}

  function Tokens(prefix: string): seq<string> {
    SplitOn(prefix, '/')
  }

  predicate Wild(token: string) {
    token != "" && token[0] == ':'
  }

  // --- what a pattern matches --------------------------------------------------------------

  /** A segment that a token stands for: itself, or for a parameter any segment that is not empty. */
  predicate Fits(segment: string, token: string) {
    if Wild(token) then segment != "" && Without(segment, '/') else segment == token
  }

  predicate FitAll(segments: seq<string>, tokens: seq<string>) {
    |segments| == |tokens| && forall i :: 0 <= i < |tokens| ==> Fits(segments[i], tokens[i])
  }

  /** A way to fill the body in: after it the url ends, or goes on with a slash if the rule is not exact. */
  predicate FilledIn(r: Rule, url: string, segments: seq<string>, rest: string) {
    && FitAll(segments, Tokens(r.prefix))
    && (url == "/api/v1" + Join(segments, '/') || (!r.exact && url == "/api/v1" + (Join(segments, '/') + "/" + rest)))
  }

  /** `^/api/v1` body `$`, or `^/api/v1` body `(/|$)`. */
  ghost predicate Matches(r: Rule, url: string) {
    exists segments: seq<string>, rest: string :: FilledIn(r, url, segments, rest)
  }

  /** The same, segment by segment. */
  predicate MatchesSegments(r: Rule, url: string) {
    && |url| >= 7 && url[..7] == "/api/v1"
    && var u, t := SplitOn(url[7..], '/'), Tokens(r.prefix);
    && (if r.exact then |u| == |t| else |u| >= |t|)
    && forall i :: 0 <= i < |t| ==> Fits(u[i], t[i])
  }

  lemma {:induction false} TokensPlain(s: string, c: char)
    ensures forall i :: 0 <= i < |SplitOn(s, c)| ==> Without(SplitOn(s, c)[i], c)
  {
    if s != "" { TokensPlain(s[1..], c); }
  }

  lemma {:induction false} SplitJoinRest(parts: seq<string>, rest: string, c: char)
    requires parts != [] && forall i :: 0 <= i < |parts| ==> Without(parts[i], c)
    ensures SplitOn(Join(parts, c) + [c] + rest, c) == parts + SplitOn(rest, c)
  {
    hide Join, SplitOn, Without;
    JoinStep(parts, c);
    if |parts| == 1 {
      SplitFirst(parts[0], rest, c);
      assert [parts[0]] == parts;
    } else {
      var more := Join(parts[1..], c) + [c] + rest;
      SplitJoinRest(parts[1..], rest, c);
      SplitFirst(parts[0], more, c);
      assert Join(parts, c) + [c] + rest == parts[0] + [c] + more;
      assert [parts[0]] + (parts[1..] + SplitOn(rest, c)) == parts + SplitOn(rest, c);
    }
  }

  lemma {:induction false} JoinSplit(s: string, c: char)
    ensures Join(SplitOn(s, c), c) == s
  {
    if s != "" { JoinSplit(s[1..], c); }
  }

  lemma {:induction false} JoinTaken(parts: seq<string>, n: nat, c: char)
    requires 0 < n < |parts|
    ensures Join(parts, c) == Join(parts[..n], c) + [c] + Join(parts[n..], c)
  {
    if n == 1 {
      assert parts[..1] == [parts[0]];
    } else {
      JoinTaken(parts[1..], n - 1, c);
      assert parts[1..][..n - 1] == parts[1..n] == parts[..n][1..];
      assert parts[1..][n - 1..] == parts[n..];
      assert parts[0] + [c] + (Join(parts[1..n], c) + [c] + Join(parts[n..], c))
        == (parts[0] + [c] + Join(parts[1..n], c)) + [c] + Join(parts[n..], c);
    }
  }

  /** A pattern matches a url exactly when its tokens fit the url's segments. */
  lemma {:induction false} MatchesIff(r: Rule, url: string)
    ensures Matches(r, url) <==> MatchesSegments(r, url)
  {
    if Matches(r, url) {
      var segments, rest :| FilledIn(r, url, segments, rest);
      FittingSegments(r, url, segments, rest);
    }
    if MatchesSegments(r, url) { SegmentsMatch(r, url); }
  }

  lemma {:induction false} AfterApi(url: string, path: string)
    requires url == "/api/v1" + path
    ensures |url| >= 7 && url[..7] == "/api/v1" && url[7..] == path
  {
  }

  lemma {:induction false} FitsArePlain(segments: seq<string>, tokens: seq<string>)
    requires FitAll(segments, tokens) && forall i :: 0 <= i < |tokens| ==> Without(tokens[i], '/')
    ensures forall i :: 0 <= i < |segments| ==> Without(segments[i], '/')
  {
  }

  lemma {:induction false} FittingSegments(r: Rule, url: string, segments: seq<string>, rest: string)
    requires FilledIn(r, url, segments, rest)
    ensures MatchesSegments(r, url)
  {
    hide SplitOn, Join, Without, Fits;
    TokensPlain(r.prefix, '/');
    FitsArePlain(segments, Tokens(r.prefix));
    if url == "/api/v1" + Join(segments, '/') {
      AfterApi(url, Join(segments, '/'));
      SplitJoin(segments, '/');
    } else {
      AfterApi(url, Join(segments, '/') + "/" + rest);
      SplitJoinRest(segments, rest, '/');
    }
  }

  lemma {:induction false} SegmentsMatch(r: Rule, url: string)
    requires MatchesSegments(r, url)
    ensures Matches(r, url)
  {
    var t, u := Tokens(r.prefix), SplitOn(url[7..], '/');
    JoinSplit(url[7..], '/');
    assert url == "/api/v1" + url[7..];
    hide SplitOn, Join;
    if |u| == |t| {
      assert FilledIn(r, url, u, "");
    } else {
      JoinTaken(u, |t|, '/');
      var rest := Join(u[|t|..], '/');
      assert FilledIn(r, url, u[..|t|], rest);
    }
  }

  // --- containment of what is matched --------------------------------------------------------

  ghost predicate Inside(a: Rule, b: Rule) {
    forall url: string :: Matches(a, url) ==> Matches(b, url)
  }

  ghost predicate StrictlyInside(a: Rule, b: Rule) {
    Inside(a, b) && !Inside(b, a)
  }

  /** The segment-wise relation: `a` is at least as deep, and where they overlap at least as specific. */
  predicate Under(a: Rule, b: Rule) {
    var s, t := Tokens(a.prefix), Tokens(b.prefix);
    && |t| <= |s| && (b.exact ==> a.exact && |s| == |t|)
    && forall i :: 0 <= i < |t| ==> if Wild(t[i]) then s[i] != "" else s[i] == t[i]
  }

  /** A segment longer than any of these tokens. */
  function Strange(tokens: seq<string>): string {
    if tokens == [] then "x" else Strange(tokens[..|tokens| - 1]) + tokens[|tokens| - 1]
  }

  lemma {:induction false} StrangeIsNone(tokens: seq<string>)
    requires forall i :: 0 <= i < |tokens| ==> Without(tokens[i], '/')
    ensures Strange(tokens) != "" && Without(Strange(tokens), '/')
    ensures forall i :: 0 <= i < |tokens| ==> |tokens[i]| < |Strange(tokens)|
  {
    if tokens != [] { StrangeIsNone(tokens[..|tokens| - 1]); }
  }

  /** A url of a rule, with every parameter filled in by `x`. */
  function Sample(tokens: seq<string>, x: string): seq<string> {
    seq(|tokens|, i requires 0 <= i < |tokens| => if Wild(tokens[i]) then x else tokens[i])
  }

  lemma {:induction false} SampleSplits(segments: seq<string>)
    requires segments != [] && forall i :: 0 <= i < |segments| ==> Without(segments[i], '/')
    ensures var url := "/api/v1" + Join(segments, '/'); url[..7] == "/api/v1" && SplitOn(url[7..], '/') == segments
  {
    SplitJoin(segments, '/');
    var url := "/api/v1" + Join(segments, '/');
    assert url[7..] == Join(segments, '/');
  }

  lemma {:induction false} SampleMatches(r: Rule, x: string)
    requires x != "" && Without(x, '/')
    ensures
      var s := Sample(Tokens(r.prefix), x);
      s != [] && (forall i :: 0 <= i < |s| ==> Without(s[i], '/')) && FitAll(s, Tokens(r.prefix))
  {
    TokensPlain(r.prefix, '/');
  }

  /** If everything one rule matches is matched by another, the first lies under the second. */
  lemma {:induction false} InsideIsUnder(a: Rule, b: Rule)
    requires Inside(a, b)
    ensures Under(a, b)
  {
    var s, t := Tokens(a.prefix), Tokens(b.prefix);
    TokensPlain(b.prefix, '/');
    StrangeIsNone(t);
    var x := Strange(t);
    SampleMatches(a, x);
    var sample := Sample(s, x);
    hide SplitOn, Join, Strange, Without, Matches;
    SampleInside(a, b, sample, "");
    if b.exact {
      SampleInside(a, b, sample, "z");
    }
  }

  /**
   * Any url of `a` that is given by its segments, and for a rule that is not exact one longer url,
   * is matched by `b`.
   */
  lemma {:induction false} SampleInside(a: Rule, b: Rule, segments: seq<string>, more: string)
    requires Inside(a, b) && segments != [] && FitAll(segments, Tokens(a.prefix)) && Without(more, '/')
    requires forall i :: 0 <= i < |segments| ==> Without(segments[i], '/')
    ensures
      var u, t := if a.exact || more == "" then segments else segments + [more], Tokens(b.prefix);
      && (if b.exact then |u| == |t| else |u| >= |t|)
      && forall i :: 0 <= i < |t| ==> Fits(u[i], t[i])
  {
    var u := if a.exact || more == "" then segments else segments + [more];
    var url := "/api/v1" + Join(u, '/');
    SampleSplits(u);
    assert MatchesSegments(a, url) by { hide Join; }
    MatchesIff(a, url);
    MatchesIff(b, url);
  }

  /** And conversely: what lies under a rule matches nothing that the rule does not. */
  lemma {:induction false} UnderIsInside(a: Rule, b: Rule)
    requires Under(a, b)
    ensures Inside(a, b)
  {
    TokensPlain(a.prefix, '/');
    forall url: string | Matches(a, url) ensures Matches(b, url) {
      MatchesIff(a, url);
      MatchesIff(b, url);
      hide Matches, Tokens;
      assert MatchesSegments(b, url);
    }
  }

  // --- the order of emission -------------------------------------------------------------------

  /** Segments that are not empty. */
  function Depth(tokens: seq<string>): nat {
    if tokens == [] then 0 else Depth(tokens[..|tokens| - 1]) + if tokens[|tokens| - 1] != "" then 1 else 0
  }

  function Params(tokens: seq<string>): nat {
    if tokens == [] then 0 else Params(tokens[..|tokens| - 1]) + if Wild(tokens[|tokens| - 1]) then 1 else 0
  }

  /** Deepest first, then fewest parameters, then exact, then the longest text. */
  function Compare(a: Rule, b: Rule): int {
    var s, t := Tokens(a.prefix), Tokens(b.prefix);
    if Depth(t) != Depth(s) then Depth(t) - Depth(s)
    else if Params(s) != Params(t) then Params(s) - Params(t)
    else if a.exact != b.exact then if a.exact then -1 else 1
    else |b.prefix| - |a.prefix|
  }

  lemma {:induction false} SameDepth(s: seq<string>, t: seq<string>)
    requires |s| == |t| && forall i :: 0 <= i < |s| ==> (s[i] == "" <==> t[i] == "")
    ensures Depth(s) == Depth(t)
  {
    if s != [] {
      var n := |s| - 1;
      assert forall i :: 0 <= i < n ==> s[..n][i] == s[i] && t[..n][i] == t[i];
      SameDepth(s[..n], t[..n]);
    }
  }

  predicate EmptyFrom(tokens: seq<string>, n: nat) {
    forall i :: n <= i < |tokens| ==> tokens[i] == ""
  }

  /** Further tokens add depth unless they are all empty, and then they add no parameter either. */
  lemma {:induction false} BeyondThese(tokens: seq<string>, n: nat)
    requires n <= |tokens|
    ensures Depth(tokens) >= Depth(tokens[..n])
    ensures Depth(tokens) == Depth(tokens[..n]) <==> EmptyFrom(tokens, n)
    ensures EmptyFrom(tokens, n) ==> Params(tokens) == Params(tokens[..n])
    decreases |tokens|
  {
    if n == |tokens| {
      assert tokens[..n] == tokens;
    } else {
      var init := tokens[..|tokens| - 1];
      assert forall i :: 0 <= i < |init| ==> init[i] == tokens[i];
      assert init[..n] == tokens[..n];
      BeyondThese(init, n);
    }
  }

  /** Fewer parameters, and as many exactly if they are the same ones. */
  lemma {:induction false} FewerParams(s: seq<string>, t: seq<string>)
    requires |s| == |t| && forall i :: 0 <= i < |s| && Wild(s[i]) ==> Wild(t[i])
    ensures Params(s) <= Params(t)
    ensures Params(s) == Params(t) <==> forall i :: 0 <= i < |s| ==> Wild(s[i]) == Wild(t[i])
  {
    if s != [] {
      var n := |s| - 1;
      assert forall i :: 0 <= i < n ==> s[..n][i] == s[i] && t[..n][i] == t[i];
      FewerParams(s[..n], t[..n]);
      if Params(s) == Params(t) {
        forall i | 0 <= i < |s| ensures Wild(s[i]) == Wild(t[i]) {
          if i < n { assert Wild(s[..n][i]) == Wild(t[..n][i]); }
        }
      }
    }
  }

  /**
   * The narrower prefix is the wider one with nothing but empty segments after it, up to
   * the names of parameters, neither rule is exact, and its text is no longer.
   */
  predicate EmptyTail(a: Rule, b: Rule) {
    var s, t := Tokens(a.prefix), Tokens(b.prefix);
    && |t| < |s| && EmptyFrom(s, |t|)
    && (forall i :: 0 <= i < |t| ==> Wild(s[i]) == Wild(t[i]))
    && !a.exact && !b.exact && |a.prefix| <= |b.prefix|
  }

  /** A rule comes before one that strictly contains it exactly when it has no such empty tail. */
  lemma {:induction false} NarrowerFirstIff(a: Rule, b: Rule)
    requires StrictlyInside(a, b)
    ensures Compare(a, b) < 0 <==> !EmptyTail(a, b)
    ensures Compare(a, b) < 0 <==> Compare(b, a) > 0
  {
    InsideIsUnder(a, b);
    if SameShape(a, b) && a.exact == b.exact { SameShapeIsInside(a, b); }
    hide Inside;
    UnderCompares(a, b);
  }

  predicate SameShape(a: Rule, b: Rule) {
    var s, t := Tokens(a.prefix), Tokens(b.prefix);
    |s| == |t| && forall i :: 0 <= i < |t| ==> Wild(s[i]) == Wild(t[i])
  }

  lemma {:induction false} SameShapeIsInside(a: Rule, b: Rule)
    requires Under(a, b) && SameShape(a, b) && a.exact == b.exact
    ensures Inside(b, a)
  {
    UnderIsInside(b, a);
  }

  lemma {:induction false} UnderCompares(a: Rule, b: Rule)
    requires Under(a, b) && !(SameShape(a, b) && a.exact == b.exact)
    ensures Compare(a, b) < 0 <==> !EmptyTail(a, b)
    ensures Compare(a, b) < 0 <==> Compare(b, a) > 0
  {
    var s, t := Tokens(a.prefix), Tokens(b.prefix);
    var common := s[..|t|];
    BeyondThese(s, |t|);
    SameDepth(common, t);
    FewerParams(common, t);
    hide Depth, Params, Tokens;
    assert s[..|s|] == s;
    assert forall i :: 0 <= i < |t| ==> common[i] == s[i];
  }

  /** What the sort produces: the same rules, none before one that should precede it. */
  predicate Emitted(out: seq<Rule>, rules: seq<Rule>) {
    multiset(out) == multiset(rules) && Ordered(out)
  }

  predicate Ordered(rules: seq<Rule>) {
    forall i, j :: 0 <= i < j < |rules| ==> Compare(rules[i], rules[j]) <= 0
  }

  // --- the decision -----------------------------------------------------------------------------

  /** Textual cover, on patterns. */
  predicate Covers(r: Rule, pattern: string) {
    pattern == r.prefix || (!r.exact && r.prefix + "/" <= pattern)
  }

  /** A rule covers its own prefix and, unless it is exact, whatever goes on below it. */
  lemma {:induction false} CoversBelow(r: Rule, below: string)
    ensures Covers(r, r.prefix) && (Covers(r, r.prefix + "/" + below) <==> !r.exact)
  {
    var pattern := r.prefix + "/" + below;
    assert r.prefix + "/" <= pattern;
  }

  predicate Permits(r: Rule, m: string) {
    r.methods.All? || m in r.methods.allowed
  }

  predicate Allows(rules: seq<Rule>, m: string, pattern: string) {
    exists i :: 0 <= i < |rules| && Covers(rules[i], pattern) && Permits(rules[i], m)
  }

  /** The method list of a block: what the model grants at its prefix, and the preflight. */
  predicate InBlock(rules: seq<Rule>, r: Rule, m: string) {
    m == "OPTIONS" || (m in ALL_METHODS && Allows(rules, m, r.prefix))
  }

  /** First matching pattern wins, then its method list decides. */
  method EdgeDecision(rules: seq<Rule>, emitted: seq<Rule>, m: string, url: string) returns (allow: bool, at: nat)
    ensures at <= |emitted|
    ensures forall i :: 0 <= i < at ==> !MatchesSegments(emitted[i], url)
    ensures at < |emitted| ==> MatchesSegments(emitted[at], url) && allow == InBlock(rules, emitted[at], m)
    ensures at == |emitted| ==> !allow
  {
    at := 0;
    while at < |emitted|
      invariant at <= |emitted|
      invariant forall i :: 0 <= i < at ==> !MatchesSegments(emitted[i], url)
    {
      if MatchesSegments(emitted[at], url) {
        allow := InBlock(rules, emitted[at], m);
        return;
      }
      at := at + 1;
    }
    allow := false;
  }

  /** The rule that decides: the first that matches. */
  ghost predicate Decides(emitted: seq<Rule>, at: nat, url: string) {
    at < |emitted| && Matches(emitted[at], url) && forall i :: 0 <= i < at ==> !Matches(emitted[i], url)
  }

  /**
   * No narrow rule is shadowed, in whatever order the sort emits: unless some rule inside
   * another is that other with an empty tail, the deciding rule never strictly contains
   * another that matches.
   */
  lemma {:induction false} NoNarrowRuleShadowed(rules: seq<Rule>, emitted: seq<Rule>, at: nat, url: string, other: Rule)
    requires Emitted(emitted, rules)
    requires forall a, b :: a in rules && b in rules && StrictlyInside(a, b) ==> !EmptyTail(a, b)
    requires Decides(emitted, at, url) && other in rules && Matches(other, url)
    ensures !StrictlyInside(other, emitted[at])
  {
    hide Matches, Compare, EmptyTail, StrictlyInside;
    assert other in multiset(emitted) && emitted[at] in multiset(rules);
    var i :| 0 <= i < |emitted| && emitted[i] == other;
    assert i >= at;
    if StrictlyInside(other, emitted[at]) {
      NarrowerFirstIff(other, emitted[at]);
      NotInsideItself(other);
    }
  }

  lemma {:induction false} NotInsideItself(r: Rule)
    ensures !StrictlyInside(r, r)
  {
  }

  /**
   * And with an empty tail it is: the sort may put the wider rule first, and it then decides all
   * that the narrower matches.
   */
  lemma {:induction false} EmptyTailShadows(a: Rule, b: Rule, url: string)
    requires StrictlyInside(a, b) && EmptyTail(a, b) && Matches(a, url)
    ensures Emitted([b, a], [a, b]) && Decides([b, a], 0, url) && StrictlyInside(a, [b, a][0])
  {
    NarrowerFirstIff(a, b);
    hide Compare, Matches, EmptyTail;
    assert multiset([b, a]) == multiset([a, b]);
  }

  /** Prefixes that do not end in a slash have no empty tail, whatever segments are empty inside them. */
  lemma {:induction false} EmptyTailEndsInSlash(a: Rule, b: Rule)
    requires EmptyTail(a, b)
    ensures a.prefix != "" && a.prefix[|a.prefix| - 1] == '/'
  {
    var s := Tokens(a.prefix);
    var n := |s| - 1;
    JoinSplit(a.prefix, '/');
    JoinTaken(s, n, '/');
    assert s[n..] == [""];
    hide SplitOn;
    assert a.prefix == Join(s[..n], '/') + ['/'] + "";
  }

  const NARROW := Rule("/:x/", false, All)
  const WIDE := Rule("/:yyyyyyyy", false, All)

  lemma {:induction false} TheirTokens()
    ensures Tokens(NARROW.prefix) == ["", ":x", ""] && Tokens(WIDE.prefix) == ["", ":yyyyyyyy"]
  {
    hide SplitOn;
    SplitFirst("", ":x/", '/');
    SplitFirst(":x", "", '/');
    SplitFirst("", "", '/');
    SplitFirst("", ":yyyyyyyy", '/');
    SplitFirst(":yyyyyyyy", "", '/');
    assert "/:x/" == "" + ['/'] + ":x/" && "/:yyyyyyyy" == "" + ['/'] + ":yyyyyyyy" && ":x/" == ":x" + ['/'] + "";
    assert SplitOn(":x/", '/') == [":x", ""];
  }

  /** A pair of prefixes of the API's own form in which it happens. */
  lemma {:induction false} EmptySegmentIsShadowed()
    ensures StrictlyInside(NARROW, WIDE) && EmptyTail(NARROW, WIDE)
  {
    TheirTokens();
    hide Tokens, Depth, Params, Inside;
    UnderIsInside(NARROW, WIDE);
    if Inside(WIDE, NARROW) { InsideIsUnder(WIDE, NARROW); }
  }

  // --- what the edge lets through -----------------------------------------------------------------

  /** A character before the parts of a text: the first part grows, or a new one is begun. */
  function Grow(ch: char, c: char, parts: seq<string>): seq<string>
    requires parts != []
  {
    if ch == c then [""] + parts else [[ch] + parts[0]] + parts[1..]
  }

  lemma {:induction false} SplitStep(s: string, c: char)
    requires s != ""
    ensures SplitOn(s, c) == Grow(s[0], c, SplitOn(s[1..], c))
    ensures SplitOn("", c) == [""]
  {
  }

  lemma {:induction false} GrowConcat(ch: char, c: char, u: seq<string>, v: seq<string>)
    requires u != []
    ensures Grow(ch, c, u + v) == Grow(ch, c, u) + v
  {
  }

  lemma {:induction false} SplitConcat(s: string, rest: string, c: char)
    ensures SplitOn(s + [c] + rest, c) == SplitOn(s, c) + SplitOn(rest, c)
  {
    hide SplitOn;
    var all := s + [c] + rest;
    SplitStep(all, c);
    if s == "" {
      assert all[1..] == rest;
    } else {
      SplitConcat(s[1..], rest, c);
      SplitStep(s, c);
      assert all[1..] == s[1..] + [c] + rest;
      GrowConcat(s[0], c, SplitOn(s[1..], c), SplitOn(rest, c));
      hide Grow;
    }
  }

  /** An exact rule beside one with the same prefix that is not. */
  predicate ExactTwin(p: Rule, r: Rule) {
    p.exact && !r.exact && p.prefix == r.prefix
  }

  /** A rule that covers another's prefix matches what the other does, unless it is its exact twin. */
  lemma {:induction false} CoverMatches(p: Rule, r: Rule)
    requires Covers(p, r.prefix) && !ExactTwin(p, r)
    ensures Inside(r, p)
  {
    if p.prefix != r.prefix {
      var rest := r.prefix[|p.prefix| + 1..];
      assert r.prefix == p.prefix + ['/'] + rest;
      SplitConcat(p.prefix, rest, '/');
    }
    hide SplitOn;
    UnderIsInside(r, p);
  }

  /** An exact rule's twin goes on where the exact rule stops. */
  lemma {:induction false} TwinGoesOn(p: Rule, r: Rule, url: string)
    requires ExactTwin(p, r) && Matches(r, url)
    ensures |url| >= 7
    ensures Matches(p, url) <==> |SplitOn(url[7..], '/')| == |Tokens(r.prefix)|
    ensures |SplitOn(url[7..], '/')| >= |Tokens(r.prefix)|
  {
    MatchesIff(p, url);
    MatchesIff(r, url);
    hide Matches, SplitOn;
  }

  /** The rules that lend a block its methods. */
  predicate Lends(rules: seq<Rule>, p: Rule, r: Rule, m: string) {
    p in rules && Covers(p, r.prefix) && Permits(p, m)
  }

  /**
   * When the edge lets a request through that is not a preflight, some rule lends the
   * method; and none that does matches the url exactly when each of them is an exact twin
   * of the deciding rule and the url goes on below it.
   */
  lemma {:induction false} EdgeExceedsIff(rules: seq<Rule>, emitted: seq<Rule>, at: nat, m: string, url: string)
    requires Emitted(emitted, rules) && Decides(emitted, at, url)
    requires InBlock(rules, emitted[at], m) && m != "OPTIONS"
    ensures exists p :: Lends(rules, p, emitted[at], m)
    ensures |url| >= 7
    ensures (forall p :: Lends(rules, p, emitted[at], m) ==> !Matches(p, url)) <==>
      (forall p :: Lends(rules, p, emitted[at], m) ==> ExactTwin(p, emitted[at]))
      && |SplitOn(url[7..], '/')| > |Tokens(emitted[at].prefix)|
  {
    var r := emitted[at];
    hide Matches, Ordered, Covers, ExactTwin, Tokens, Permits;
    var i :| 0 <= i < |rules| && Covers(rules[i], r.prefix) && Permits(rules[i], m);
    assert Lends(rules, rules[i], r, m);
    forall p | Lends(rules, p, r, m)
      ensures if ExactTwin(p, r) then (Matches(p, url) <==> |SplitOn(url[7..], '/')| == |Tokens(r.prefix)|)
        else Matches(p, url)
    {
      if ExactTwin(p, r) { TwinGoesOn(p, r, url); } else { CoverMatches(p, r); InsideMatches(r, p, url); }
    }
    assert |url| >= 7 && |SplitOn(url[7..], '/')| >= |Tokens(r.prefix)| by { MatchingIsLong(r, url); }
  }

  lemma {:induction false} InsideMatches(a: Rule, b: Rule, url: string)
    requires Inside(a, b) && Matches(a, url)
    ensures Matches(b, url)
  {
  }

  lemma {:induction false} MatchingIsLong(r: Rule, url: string)
    requires Matches(r, url)
    ensures |url| >= 7 && |SplitOn(url[7..], '/')| >= |Tokens(r.prefix)|
  {
    MatchesIff(r, url);
  }

  const BELOW := "/api/v1/a/b"
  const COLLECTION := Rule("/a", true, Only({"POST"}))
  const TREE := Rule("/a", false, Only({"GET"}))

  lemma {:induction false} BelowSplits()
    ensures Tokens("/a") == ["", "a"] && BELOW[..7] == "/api/v1" && SplitOn(BELOW[7..], '/') == ["", "a", "b"]
  {
    hide SplitOn;
    SplitFirst("", "a", '/');
    SplitFirst("a", "b", '/');
    SplitFirst("", "a/b", '/');
    SplitFirst("b", "", '/');
    AfterApi(BELOW, "/a/b");
    assert "/a" == "" + ['/'] + "a" && "/a/b" == "" + ['/'] + "a/b" && "a/b" == "a" + ['/'] + "b";
  }

  /** Such twins do open a path: here a method granted on a collection alone is let through below it. */
  lemma {:induction false} ExactTwinLeaks()
    ensures
      var rules := [COLLECTION, TREE];
      && Emitted(rules, rules) && Decides(rules, 1, BELOW) && InBlock(rules, TREE, "POST")
      && !Matches(COLLECTION, BELOW) && !Permits(TREE, "POST")
  {
    BelowSplits();
    hide SplitOn, Matches, Depth, Params;
    MatchesIff(COLLECTION, BELOW);
    MatchesIff(TREE, BELOW);
    assert Fits("", "") && Fits("a", "a");
    var rules := [COLLECTION, TREE];
    assert Covers(rules[0], TREE.prefix) && Permits(rules[0], "POST");
  }

  // --- such an order exists -----------------------------------------------------------------------

  /** Inserting after everything that may stand before it: one step of a stable sort. */
  function Insert(sorted: seq<Rule>, r: Rule): seq<Rule> {
    if sorted == [] || Compare(sorted[|sorted| - 1], r) <= 0 then sorted + [r]
    else Insert(sorted[..|sorted| - 1], r) + [sorted[|sorted| - 1]]
  }

  function Sort(rules: seq<Rule>): seq<Rule> {
    if rules == [] then [] else Insert(Sort(rules[..|rules| - 1]), rules[|rules| - 1])
  }

  lemma {:induction false} CompareTransitive(a: Rule, b: Rule, c: Rule)
    ensures Compare(a, b) <= 0 && Compare(b, c) <= 0 ==> Compare(a, c) <= 0
    ensures Compare(a, b) > 0 ==> Compare(b, a) < 0
  {
  }

  lemma {:induction false} InsertKeepsAll(sorted: seq<Rule>, r: Rule)
    ensures multiset(Insert(sorted, r)) == multiset(sorted) + multiset{r}
  {
    hide Compare;
    if sorted != [] {
      InsertKeepsAll(sorted[..|sorted| - 1], r);
      assert sorted == sorted[..|sorted| - 1] + [sorted[|sorted| - 1]];
    }
  }

  /** One more rule at the end, when none before it should come after. */
  lemma {:induction false} OrderedAppend(rules: seq<Rule>, r: Rule)
    requires Ordered(rules) && forall x :: x in multiset(rules) ==> Compare(x, r) <= 0
    ensures Ordered(rules + [r])
  {
  }

  lemma {:induction false} InsertEmits(sorted: seq<Rule>, r: Rule)
    requires Ordered(sorted)
    ensures Ordered(Insert(sorted, r))
  {
    hide Compare;
    if sorted != [] {
      var init, last := sorted[..|sorted| - 1], sorted[|sorted| - 1];
      if Compare(last, r) <= 0 {
        forall x | x in multiset(sorted) ensures Compare(x, r) <= 0 {
          var i :| 0 <= i < |sorted| && sorted[i] == x;
          CompareTransitive(x, last, r);
        }
        OrderedAppend(sorted, r);
      } else {
        InsertEmits(init, r);
        InsertKeepsAll(init, r);
        CompareTransitive(last, r, last);
        forall x | x in multiset(Insert(init, r)) ensures Compare(x, last) <= 0 {
          if x != r { var i :| 0 <= i < |init| && init[i] == x; }
        }
        OrderedAppend(Insert(init, r), last);
      }
    }
  }

  lemma {:induction false} SortEmits(rules: seq<Rule>)
    ensures Emitted(Sort(rules), rules)
  {
    if rules != [] {
      var init := rules[..|rules| - 1];
      assert rules == init + [rules[|rules| - 1]];
      SortEmits(init);
      hide Ordered, Compare;
      InsertEmits(Sort(init), rules[|rules| - 1]);
      InsertKeepsAll(Sort(init), rules[|rules| - 1]);
    }
  }
}
