/**
 * The delivery guard: IPv6 literals as bytes, and the verdict on an address.
 * `number` is JavaScript's `Number` restricted to integers, and `isIP` the
 * platform's test of a literal; both are parameters.
 */
module UrlGuard {
  import opened AddressBlocks
  import opened Amounts
  import opened Texts
  import opened Wrappers

  // --- parsing ---------------------------------------------------------------------------

  predicate IsOctet(n: Option<int>) {
    n.Some? && 0 <= n.value <= 255
  }

  /** A trailing dotted quad becomes two groups. */
  function RewriteQuad(s: string, number: string -> Option<int>): Option<string> {
    if Without(s, '.') then Some(s) else
      var at := AfterLastColon(s);
      var q := SplitOn(s[at..], '.');
      if |q| != 4 || !IsOctet(number(q[0])) || !IsOctet(number(q[1])) || !IsOctet(number(q[2]))
        || !IsOctet(number(q[3])) then None
      else Some(s[..at] + HexText(number(q[0]).value * 256 + number(q[1]).value)
                + ":" + HexText(number(q[2]).value * 256 + number(q[3]).value))
  }

  function Groups(s: string): seq<string> {
    if s == "" then [] else SplitOn(s, ':')
  }

  predicate AreGroups(groups: seq<string>) {
    forall i :: 0 <= i < |groups| ==> IsGroup(groups[i])
  }

  function Octets(groups: seq<string>): (bytes: seq<int>)
    requires AreGroups(groups)
    ensures |bytes| == 2 * |groups|
  {
    if groups == [] then [] else
      var v := HexValue(groups[|groups| - 1]);
      Octets(groups[..|groups| - 1]) + [v / 256, v % 256]
  }

  function Zeros(n: nat): seq<int> {
    seq(n, _ => 0)
  }

  /** The group parser, on text without a zone or a dotted tail. */
  function ParseGroups(s: string): (bytes: Option<seq<int>>)
    ensures bytes.Some? ==> |bytes.value| == 16
  {
    var halves := SplitPairs(s);
    if |halves| > 2 then None else
      var head := Groups(halves[0]);
      var tail := if |halves| == 2 then Groups(halves[1]) else [];
      if (|halves| == 1 && |head| != 8) || |head| + |tail| > 8 || !AreGroups(head) || !AreGroups(tail) then None
      else Some(Octets(head) + Zeros(16 - 2 * |head| - 2 * |tail|) + Octets(tail))
  }

  function Parse(addr: string, number: string -> Option<int>): (bytes: Option<seq<int>>)
    ensures bytes.Some? ==> |bytes.value| == 16
  {
    var s := RewriteQuad(Lower(Before(addr, '%')), number);
    if s.None? then None else ParseGroups(s.value)
  }

  lemma {:induction false} OctetsStep(groups: seq<string>, i: nat)
    requires i < |groups| && AreGroups(groups[..i]) && IsGroup(groups[i])
    ensures AreGroups(groups[..i + 1])
    ensures Octets(groups[..i + 1]) == Octets(groups[..i]) + [HexValue(groups[i]) / 256, HexValue(groups[i]) % 256]
  {
    hide HexValue, IsGroup;
    assert groups[..i + 1][..i] == groups[..i];
  }

  /** Writes groups into the buffer from `at`, until one is not a group. */
  method Put(out: array<int>, groups: seq<string>, at: nat) returns (ok: bool)
    requires at + 2 * |groups| <= out.Length
    modifies out
    ensures ok <==> AreGroups(groups)
    ensures ok ==> out[..] == old(out[..at]) + Octets(groups) + old(out[at + 2 * |groups|..])
  {
    hide HexValue, Octets;
    NoOctets();
    for i := 0 to |groups|
      invariant AreGroups(groups[..i])
      invariant out[..at] == old(out[..at])
      invariant out[at..at + 2 * i] == Octets(groups[..i])
      invariant out[at + 2 * i..] == old(out[at + 2 * i..])
    {
      var g := groups[i];
      if !IsGroup(g) { return false; }
      GroupFits(g);
      OctetsStep(groups, i);
      var n := HexValue(g);
      ghost var done := out[at..at + 2 * i];
      out[at + i * 2] := n / 256;
      out[at + i * 2 + 1] := n % 256;
      assert out[at..at + 2 * (i + 1)] == done + [n / 256, n % 256];
    }
    assert groups[..|groups|] == groups;
    assert out[..] == out[..at] + out[at..at + 2 * |groups|] + out[at + 2 * |groups|..];
    ok := true;
  }

  lemma {:induction false} NoOctets()
    ensures AreGroups([]) && Octets([]) == []
  {
  }

  /** Both ends written into a buffer of zeros. */
  lemma {:induction false} Assembled(head: seq<string>, tail: seq<string>, before: seq<int>)
    requires AreGroups(head) && AreGroups(tail) && |head| + |tail| <= 8
    requires before == Zeros(16)[..0] + Octets(head) + Zeros(16)[2 * |head|..]
    ensures |before| == 16
    ensures before[..16 - 2 * |tail|] + Octets(tail) + before[16..]
      == Octets(head) + Zeros(16 - 2 * |head| - 2 * |tail|) + Octets(tail)
    ensures tail == [] ==> before == Octets(head) + Zeros(16 - 2 * |head|) + Octets(tail)
  {
    hide AreGroups;
    assert before[..16 - 2 * |tail|] == Octets(head) + Zeros(16 - 2 * |head| - 2 * |tail|);
    if tail == [] { NoOctets(); }
  }

  lemma {:induction false} ParseGroupsIs(s: string)
    ensures
      var halves := SplitPairs(s);
      |halves| > 2 ==> ParseGroups(s) == None
    ensures
      var halves := SplitPairs(s);
      |halves| <= 2 ==>
        var head, tail := Groups(halves[0]), if |halves| == 2 then Groups(halves[1]) else [];
        if (|halves| == 1 && |head| != 8) || |head| + |tail| > 8 || !AreGroups(head) || !AreGroups(tail)
        then ParseGroups(s) == None
        else ParseGroups(s) == Some(Octets(head) + Zeros(16 - 2 * |head| - 2 * |tail|) + Octets(tail))
  {
    hide AreGroups, Octets, SplitPairs, Groups;
  }

  lemma {:induction false} ParseIs(addr: string, number: string -> Option<int>)
    ensures
      var s := RewriteQuad(Lower(Before(addr, '%')), number);
      Parse(addr, number) == if s.None? then None else ParseGroups(s.value)
  {
  }

  method IPv6ToBytes(addr: string, number: string -> Option<int>) returns (bytes: Option<seq<int>>)
    ensures bytes == Parse(addr, number)
  {
    ParseIs(addr, number);
    hide RewriteQuad, SplitPairs, Groups, AreGroups, Octets, Lower, Before, ParseGroups, Parse;
    var s := RewriteQuad(Lower(Before(addr, '%')), number);
    if s.None? { return None; }
    ParseGroupsIs(s.value);
    var halves := SplitPairs(s.value);
    if |halves| > 2 { return None; }
    var head := Groups(halves[0]);
    var tail := if |halves| == 2 then Some(Groups(halves[1])) else None;
    if tail.None? && |head| != 8 { return None; }
    if |head| + (if tail.Some? then |tail.value| else 0) > 8 { return None; }
    var out := new int[16](_ => 0);
    assert out[..] == Zeros(16);
    hide Zeros;
    var ok := Put(out, head, 0);
    if !ok { return None; }
    ghost var before := out[..];
    if tail.Some? {
      ok := Put(out, tail.value, 16 - |tail.value| * 2);
      if !ok { return None; }
    }
    NoOctets();
    Assembled(head, if tail.Some? then tail.value else [], before);
    assert out[..] == if tail.Some? then before[..16 - 2 * |tail.value|] + Octets(tail.value) + before[16..]
      else before;
    bytes := Some(out[..]);
  }

  // --- the text forms of an address (section 2.2 of RFC 4291) ----------------------------------

  datatype Quad = Quad(a: string, b: string, c: string, d: string)

  /**
   * Groups before `::`, groups after it if it is there, a dotted tail if there is one,
   * and a zone. Groups may have leading zeros and either case.
   */
  datatype Form = Form(head: seq<string>, tail: Option<seq<string>>, quad: Option<Quad>, zone: Option<string>)

  predicate IsOctetText(s: string) {
    IsDecimal(s) && Value(10, s) <= 255
  }

  predicate LegalQuad(q: Quad) {
    IsOctetText(q.a) && IsOctetText(q.b) && IsOctetText(q.c) && IsOctetText(q.d)
  }

  function LowerAll(groups: seq<string>): seq<string> {
    seq(|groups|, i requires 0 <= i < |groups| => Lower(groups[i]))
  }

  function QuadSize(q: Option<Quad>): nat {
    if q.Some? then 2 else 0
  }

  predicate Legal(f: Form) {
    && AreGroups(LowerAll(f.head)) && (f.tail.Some? ==> AreGroups(LowerAll(f.tail.value)))
    && (f.quad.Some? ==> LegalQuad(f.quad.value))
    && (if f.tail.Some? then |f.head| + |f.tail.value| + QuadSize(f.quad) <= 8 else |f.head| + QuadSize(f.quad) == 8)
  }

  function QuadText(q: Quad): string {
    Join([q.a, q.b, q.c, q.d], '.')
  }

  function Section(head: seq<string>, tail: Option<seq<string>>): string {
    Join(head, ':') + if tail.Some? then "::" + Join(tail.value, ':') else ""
  }

  /** What a dotted tail is put after. */
  function Lead(head: seq<string>, tail: Option<seq<string>>): string {
    Section(head, tail) + if (if tail.Some? then tail.value else head) == [] then "" else ":"
  }

  function Body(f: Form): string {
    if f.quad.Some? then Lead(f.head, f.tail) + QuadText(f.quad.value) else Section(f.head, f.tail)
  }

  function Text(f: Form): string {
    if f.zone.Some? then Body(f) + ['%'] + f.zone.value else Body(f)
  }

  function QuadBytes(q: Option<Quad>): seq<int>
    requires q.Some? ==> LegalQuad(q.value)
  {
    if q.Some? then [Value(10, q.value.a), Value(10, q.value.b), Value(10, q.value.c),
      Value(10, q.value.d)] else []
  }

  /** The address a form denotes: its groups, with zeros where `::` stands. */
  function Denotes(f: Form): (bytes: seq<int>)
    requires Legal(f)
    ensures |bytes| == 16
  {
    var head := Octets(LowerAll(f.head));
    match f.tail
    case None => head + QuadBytes(f.quad)
    case Some(groups) =>
      var tail := Octets(LowerAll(groups)) + QuadBytes(f.quad);
      head + Zeros(16 - |head| - |tail|) + tail
  }

  /** `Number` reads plain decimal digits as their value. */
  ghost predicate ReadsDecimals(number: string -> Option<int>) {
    forall s: string :: IsDecimal(s) ==> number(s) == Some(Value(10, s))
  }

  lemma {:induction false} LowerConcat(a: string, b: string)
    ensures Lower(a + b) == Lower(a) + Lower(b)
  {
  }

  lemma {:induction false} LowerJoin(parts: seq<string>, c: char)
    requires LowerChar(c) == c
    ensures Lower(Join(parts, c)) == Join(LowerAll(parts), c)
  {
    if |parts| == 1 {
      assert LowerAll(parts)[0] == Lower(parts[0]);
    } else if |parts| > 1 {
      LowerJoin(parts[1..], c);
      assert LowerAll(parts)[1..] == LowerAll(parts[1..]);
      LowerConcat(parts[0] + [c], Join(parts[1..], c));
      LowerConcat(parts[0], [c]);
      assert Lower([c]) == [c];
    }
  }

  /** Joining with an allowed separator adds no character that the parts do not have. */
  lemma {:induction false} JoinWithout(parts: seq<string>, c: char, x: char)
    requires c != x && forall i :: 0 <= i < |parts| ==> Without(parts[i], x)
    ensures Without(Join(parts, c), x)
  {
    if |parts| > 1 { JoinWithout(parts[1..], c, x); }
  }

  lemma {:induction false} JoinAppend(parts: seq<string>, x: string, c: char)
    requires parts != []
    ensures Join(parts + [x], c) == Join(parts, c) + [c] + x
  {
    if |parts| == 1 {
      assert (parts + [x])[1..] == [x];
    } else {
      JoinAppend(parts[1..], x, c);
      assert (parts + [x])[1..] == parts[1..] + [x];
    }
  }

  lemma {:induction false} OctetsAppend(groups: seq<string>, more: seq<string>)
    requires AreGroups(groups) && AreGroups(more)
    ensures AreGroups(groups + more) && Octets(groups + more) == Octets(groups) + Octets(more)
  {
    if more == [] {
      assert groups + more == groups;
    } else {
      assert (groups + more)[..|groups + more| - 1] == groups + more[..|more| - 1];
      OctetsAppend(groups, more[..|more| - 1]);
    }
  }

  lemma {:induction false} GroupsOfJoin(groups: seq<string>)
    requires AreGroups(groups)
    ensures Groups(Join(groups, ':')) == groups && NoPair(Join(groups, ':'))
    ensures Join(groups, ':') != "" ==> Join(groups, ':')[|Join(groups, ':')| - 1] != ':'
  {
    JoinNoPair(groups);
    if groups != [] { SplitJoin(groups, ':'); }
  }

  /** The group parser reads any section of groups. */
  lemma {:induction false} ParsesSection(head: seq<string>, tail: Option<seq<string>>)
    requires AreGroups(head) && (tail.Some? ==> AreGroups(tail.value))
    requires if tail.Some? then |head| + |tail.value| <= 8 else |head| == 8
    ensures ParseGroups(Section(head, tail))
      == Some(Octets(head) + if tail.Some? then Zeros(16 - 2 * |head| - 2 * |tail.value|) + Octets(tail.value) else [])
  {
    hide IsGroup, AreGroups, Octets, Join, NoPair, SplitPairs, Groups;
    var h := Join(head, ':');
    GroupsOfJoin(head);
    if tail.Some? {
      GroupsOfJoin(tail.value);
      PairsFirst(h, Join(tail.value, ':'));
      PairsNone(Join(tail.value, ':'));
      assert Section(head, tail) == h + "::" + Join(tail.value, ':');
      var zeros := Zeros(16 - 2 * |head| - 2 * |tail.value|);
      assert Octets(head) + zeros + Octets(tail.value) == Octets(head) + (zeros + Octets(tail.value));
    } else {
      PairsNone(h);
      assert Section(head, tail) == h;
      NoOctets();
      assert Octets(head) + Zeros(16 - 2 * |head|) + Octets([]) == Octets(head) + [];
    }
  }

  /** Groups on both sides of at most one `::`, and eight of them or fewer for it to stand for. */
  predicate IsSection(s: string, head: seq<string>, tail: Option<seq<string>>) {
    && AreGroups(head) && (tail.Some? ==> AreGroups(tail.value)) && s == Section(head, tail)
    && (if tail.Some? then |head| + |tail.value| <= 8 else |head| == 8)
  }

  lemma {:induction false} GroupsJoin(s: string)
    ensures Join(Groups(s), ':') == s
  {
    JoinSplit(s, ':');
  }

  /** And it reads nothing else. */
  lemma {:induction false} ParsesOnlySections(s: string)
    ensures ParseGroups(s).Some? <==> exists head, tail :: IsSection(s, head, tail)
  {
    hide AreGroups, Octets, Join, SplitPairs, Groups;
    if ParseGroups(s).Some? {
      var halves := SplitPairs(s);
      JoinPairs(s);
      GroupsJoin(halves[0]);
      if |halves| == 2 {
        GroupsJoin(halves[1]);
        assert IsSection(s, Groups(halves[0]), Some(Groups(halves[1])));
      } else {
        assert halves[0] + "" == halves[0];
        assert IsSection(s, Groups(halves[0]), None);
      }
    }
    if head, tail :| IsSection(s, head, tail) { ParsesSection(head, tail); }
  }

  /** An address without a dotted tail is parsed exactly when what is before its zone, in lower case, is such text. */
  lemma {:induction false} ParsedIff(addr: string, number: string -> Option<int>)
    requires Without(Lower(Before(addr, '%')), '.')
    ensures Parse(addr, number).Some? <==> exists head, tail :: IsSection(Lower(Before(addr, '%')), head, tail)
  {
    ParsesOnlySections(Lower(Before(addr, '%')));
    hide ParseGroups, IsSection, Lower, Before;
  }

  lemma {:induction false} GapIsZero(f: Form, i: nat)
    requires Legal(f) && f.tail.Some?
    requires 2 * |f.head| <= i < 16 - 2 * |f.tail.value| - 2 * QuadSize(f.quad)
    ensures Denotes(f)[i] == 0
  {
    hide AreGroups, Octets, LegalQuad, Value;
  }

  lemma {:induction false} JoinedDots(parts: seq<string>)
    requires |parts| >= 2 && forall i :: 0 <= i < |parts| ==> IsDecimal(parts[i])
    ensures var t := Join(parts, '.'); SplitOn(t, '.') == parts && Without(t, ':') && !Without(t, '.')
  {
    forall i | 0 <= i < |parts| ensures Without(parts[i], '.') && Without(parts[i], ':') { DigitsStayLow(parts[i]); }
    JoinWithout(parts, '.', ':');
    SplitJoin(parts, '.');
    assert Join(parts, '.')[|parts[0]|] == '.';
  }

  /** A dotted tail in decimal is taken exactly if it has four parts, of at most 255 each. */
  lemma {:induction false} DottedTailIff(lead: string, parts: seq<string>, number: string -> Option<int>)
    requires (lead == "" || lead[|lead| - 1] == ':') && ReadsDecimals(number)
    requires |parts| >= 2 && forall i :: 0 <= i < |parts| ==> IsDecimal(parts[i])
    ensures RewriteQuad(lead + Join(parts, '.'), number).Some? <==>
      |parts| == 4 && forall i :: 0 <= i < 4 ==> Value(10, parts[i]) <= 255
  {
    var t := Join(parts, '.');
    JoinedDots(parts);
    LastColonBefore(lead, t);
    DotInside(lead, t);
    assert (lead + t)[|lead|..] == t;
    assert forall i :: 0 <= i < |parts| ==> number(parts[i]) == Some(Value(10, parts[i]));
    hide *;
    RewritesIff(lead + t, |lead|, parts, number);
    forall i | 0 <= i < |parts| ensures IsOctet(number(parts[i])) <==> Value(10, parts[i]) <= 255 {
      OctetIff(Value(10, parts[i]));
    }
  }

  lemma {:induction false} OctetIff(n: nat)
    ensures IsOctet(Some(n)) <==> n <= 255
  {
  }

  lemma {:induction false} RewritesIff(s: string, at: nat, parts: seq<string>, number: string -> Option<int>)
    requires !Without(s, '.') && AfterLastColon(s) == at && SplitOn(s[at..], '.') == parts
    ensures RewriteQuad(s, number).Some? <==>
      |parts| == 4 && forall i :: 0 <= i < 4 ==> IsOctet(number(parts[i]))
  {
    hide Without, AfterLastColon, SplitOn, HexText, IsOctet;
  }

  // --- spelling does not matter -------------------------------------------------------------

  function LowerForm(f: Form): Form {
    Form(LowerAll(f.head), if f.tail.Some? then Some(LowerAll(f.tail.value)) else None, f.quad, None)
  }

  lemma {:induction false} DigitsStayLow(s: string)
    requires IsDecimal(s)
    ensures Lower(s) == s && Without(s, '.') && Without(s, ':') && Without(s, '%')
  {
  }

  lemma {:induction false} QuadStaysLow(q: Quad)
    requires LegalQuad(q)
    ensures Lower(QuadText(q)) == QuadText(q) && Without(QuadText(q), ':') && Without(QuadText(q), '%')
    ensures SplitOn(QuadText(q), '.') == [q.a, q.b, q.c, q.d] && !Without(QuadText(q), '.')
  {
    var parts := [q.a, q.b, q.c, q.d];
    DigitsStayLow(q.a);
    DigitsStayLow(q.b);
    DigitsStayLow(q.c);
    DigitsStayLow(q.d);
    LowerJoin(parts, '.');
    assert LowerAll(parts) == parts;
    JoinWithout(parts, '.', ':');
    JoinWithout(parts, '.', '%');
    SplitJoin(parts, '.');
    assert Join(parts, '.') == q.a + ['.'] + Join(parts[1..], '.');
    assert QuadText(q)[|q.a|] == '.';
  }

  lemma {:induction false} LowerSection(head: seq<string>, tail: Option<seq<string>>)
    ensures Lower(Section(head, tail))
      == Section(LowerAll(head), if tail.Some? then Some(LowerAll(tail.value)) else None)
  {
    LowerJoin(head, ':');
    if tail.Some? {
      LowerJoin(tail.value, ':');
      LowerConcat(Join(head, ':'), "::" + Join(tail.value, ':'));
      LowerConcat("::", Join(tail.value, ':'));
      assert Lower("::") == "::";
    } else {
      LowerConcat(Join(head, ':'), "");
    }
  }

  lemma {:induction false} LowerBody(f: Form)
    requires Legal(f)
    ensures Lower(Body(f)) == Body(LowerForm(f))
  {
    LowerSection(f.head, f.tail);
    if f.quad.Some? {
      QuadStaysLow(f.quad.value);
      LowerConcat(Lead(f.head, f.tail), QuadText(f.quad.value));
      LowerConcat(Section(f.head, f.tail), ":");
      LowerConcat(Section(f.head, f.tail), "");
      assert Lower(":") == ":" && Lower("") == "";
    }
  }

  /** Text whose lower case has neither of these has none itself. */
  lemma {:induction false} LowerWithout(s: string, x: char)
    requires (x == '%' || x == '.') && Without(Lower(s), x)
    ensures Without(s, x)
  {
    forall i | 0 <= i < |s| ensures s[i] != x { assert Lower(s)[i] != x; }
  }

  lemma {:induction false} GroupsWithout(groups: seq<string>, x: char)
    requires AreGroups(groups) && (x == '%' || x == '.')
    ensures Without(Join(groups, ':'), x)
  {
    JoinWithout(groups, ':', x);
  }

  lemma {:induction false} SectionWithout(head: seq<string>, tail: Option<seq<string>>, x: char)
    requires AreGroups(head) && (tail.Some? ==> AreGroups(tail.value)) && (x == '%' || x == '.')
    ensures Without(Section(head, tail), x) && Without(Lead(head, tail), x)
  {
    GroupsWithout(head, x);
    if tail.Some? { GroupsWithout(tail.value, x); }
  }

  lemma {:induction false} BodyWithoutZone(f: Form)
    requires Legal(f)
    ensures Without(Body(f), '%')
  {
    LowerBody(f);
    var g := LowerForm(f);
    SectionWithout(g.head, g.tail, '%');
    if g.quad.Some? { QuadStaysLow(g.quad.value); }
    LowerWithout(Body(f), '%');
  }

  function QuadGroups(q: Quad): seq<string>
    requires LegalQuad(q)
  {
    [HexText(Value(10, q.a) * 256 + Value(10, q.b)), HexText(Value(10, q.c) * 256 + Value(10, q.d))]
  }

  lemma {:induction false} OctetPair(a: nat, b: nat)
    requires a <= 255 && b <= 255
    ensures (a * 256 + b) / 256 == a && (a * 256 + b) % 256 == b && a * 256 + b < 65536
  {
  }

  lemma {:induction false} OctetsOfTwo(g: string, h: string)
    requires IsGroup(g) && IsGroup(h)
    ensures AreGroups([g, h])
    ensures Octets([g, h]) == [HexValue(g) / 256, HexValue(g) % 256, HexValue(h) / 256, HexValue(h) % 256]
  {
  }

  lemma {:induction false} QuadGroupsAre(q: Quad)
    requires LegalQuad(q)
    ensures AreGroups(QuadGroups(q)) && Octets(QuadGroups(q)) == QuadBytes(Some(q))
  {
    var a, b, c, d := Value(10, q.a), Value(10, q.b), Value(10, q.c), Value(10, q.d);
    hide IsGroup, HexText, HexValue, Value, Octets, AreGroups, IsDecimal;
    OctetPair(a, b);
    OctetPair(c, d);
    GroupOfOctets(a * 256 + b);
    GroupOfOctets(c * 256 + d);
    OctetsOfTwo(HexText(a * 256 + b), HexText(c * 256 + d));
  }

  lemma {:induction false} JoinTwo(parts: seq<string>, x: string, y: string)
    ensures Join(parts + [x, y], ':') == Join(parts, ':') + (if parts == [] then "" else ":") + x + ":" + y
  {
    assert parts + [x, y] == (parts + [x]) + [y];
    JoinAppend(parts + [x], y, ':');
    if parts == [] { assert [] + [x] == [x]; } else { JoinAppend(parts, x, ':'); }
  }

  lemma {:induction false} Regroup(a: string, t: string, sep: string, x: string, y: string)
    ensures a + ("::" + t) + sep + x + ":" + y == a + ("::" + (t + sep + x + ":" + y))
  {
  }

  /** Two more groups after a lead make a longer section. */
  lemma {:induction false} LeadTakesGroups(head: seq<string>, tail: Option<seq<string>>, x: string, y: string)
    requires tail.Some? || head != []
    ensures
      Lead(head, tail) + x + ":" + y
        == if tail.Some? then Section(head, Some(tail.value + [x, y])) else Section(head + [x, y], None)
  {
    hide Join;
    if tail.Some? {
      JoinTwo(tail.value, x, y);
      Regroup(Join(head, ':'), Join(tail.value, ':'), if tail.value == [] then "" else ":", x, y);
    } else {
      JoinTwo(head, x, y);
      assert Section(head, None) == Join(head, ':');
    }
  }

  lemma {:induction false} RewriteIs(s: string, at: nat, q: Quad, number: string -> Option<int>)
    requires !Without(s, '.') && at == AfterLastColon(s) && at <= |s| && SplitOn(s[at..], '.') == [q.a, q.b, q.c, q.d]
    requires IsOctet(number(q.a)) && IsOctet(number(q.b)) && IsOctet(number(q.c)) && IsOctet(number(q.d))
    ensures RewriteQuad(s, number)
      == Some(s[..at] + HexText(number(q.a).value * 256 + number(q.b).value) + ":"
        + HexText(number(q.c).value * 256 + number(q.d).value))
  {
  }

  lemma {:induction false} QuadReads(q: Quad, number: string -> Option<int>)
    requires LegalQuad(q) && ReadsDecimals(number)
    ensures IsOctet(number(q.a)) && IsOctet(number(q.b)) && IsOctet(number(q.c)) && IsOctet(number(q.d))
    ensures QuadGroups(q)
      == [HexText(number(q.a).value * 256 + number(q.b).value), HexText(number(q.c).value * 256 + number(q.d).value)]
  {
  }

  lemma {:induction false} RewritesQuad(head: seq<string>, tail: Option<seq<string>>, q: Quad,
      number: string -> Option<int>)
    requires AreGroups(head) && (tail.Some? ==> AreGroups(tail.value)) && LegalQuad(q) && ReadsDecimals(number)
    requires tail.Some? || head != []
    ensures
      var s := RewriteQuad(Lead(head, tail) + QuadText(q), number);
      var gs := QuadGroups(q);
      s == Some(if tail.Some? then Section(head, Some(tail.value + gs)) else Section(head + gs, None))
  {
    hide *;
    var lead, t, gs := Lead(head, tail), QuadText(q), QuadGroups(q);
    QuadStaysLow(q);
    QuadReads(q, number);
    LeadEndsInColon(head, tail);
    LastColonBefore(lead, t);
    assert (lead + t)[|lead|..] == t && (lead + t)[..|lead|] == lead;
    DotInside(lead, t);
    RewriteIs(lead + t, |lead|, q, number);
    LeadTakesGroups(head, tail, gs[0], gs[1]);
    assert gs == [gs[0], gs[1]];
  }

  lemma {:induction false} DotInside(lead: string, t: string)
    requires !Without(t, '.')
    ensures !Without(lead + t, '.')
  {
    var i :| 0 <= i < |t| && t[i] == '.';
    assert (lead + t)[|lead| + i] == '.';
  }

  lemma {:induction false} LeadEndsInColon(head: seq<string>, tail: Option<seq<string>>)
    requires tail.Some? || head != []
    ensures Lead(head, tail) == "" || Lead(head, tail)[|Lead(head, tail)| - 1] == ':'
  {
  }

  lemma {:induction false} ParsesQuadBody(head: seq<string>, tail: Option<seq<string>>, q: Quad,
      number: string -> Option<int>)
    requires AreGroups(head) && (tail.Some? ==> AreGroups(tail.value)) && LegalQuad(q) && ReadsDecimals(number)
    requires if tail.Some? then |head| + |tail.value| <= 6 else |head| == 6
    ensures
      var s := RewriteQuad(Lead(head, tail) + QuadText(q), number);
      s.Some? && ParseGroups(s.value) == Some(Octets(head) +
        if tail.Some? then Zeros(12 - 2 * |head| - 2 * |tail.value|) + (Octets(tail.value) + QuadBytes(Some(q)))
          else QuadBytes(Some(q)))
  {
    hide *;
    var gs := QuadGroups(q);
    RewritesQuad(head, tail, q, number);
    QuadGroupsAre(q);
    assert |gs| == 2 by { TwoGroups(q); }
    if tail.Some? {
      OctetsAppend(tail.value, gs);
      ParsesSection(head, Some(tail.value + gs));
    } else {
      OctetsAppend(head, gs);
      ParsesSection(head + gs, None);
      assert Octets(head) + QuadBytes(Some(q)) + [] == Octets(head) + QuadBytes(Some(q));
    }
  }

  lemma {:induction false} TwoGroups(q: Quad)
    requires LegalQuad(q)
    ensures |QuadGroups(q)| == 2
  {
  }

  lemma {:induction false} ParsesPlainBody(head: seq<string>, tail: Option<seq<string>>, number: string -> Option<int>)
    requires AreGroups(head) && (tail.Some? ==> AreGroups(tail.value))
    requires if tail.Some? then |head| + |tail.value| <= 8 else |head| == 8
    ensures
      var s := RewriteQuad(Section(head, tail), number);
      s.Some? && ParseGroups(s.value) == Some(Octets(head) +
        if tail.Some? then Zeros(16 - 2 * |head| - 2 * |tail.value|) + (Octets(tail.value) + []) else [])
  {
    hide ParseGroups, Section, AreGroups, Octets;
    SectionWithout(head, tail, '.');
    ParsesSection(head, tail);
    if tail.Some? { assert Octets(tail.value) + [] == Octets(tail.value); }
  }

  lemma {:induction false} ZoneDropped(f: Form)
    requires Legal(f)
    ensures Lower(Before(Text(f), '%')) == Body(LowerForm(f))
  {
    BodyWithoutZone(f);
    BeforeStops(Body(f), if f.zone.Some? then f.zone.value else "", '%');
    LowerBody(f);
  }

  lemma {:induction false} ParseVia(addr: string, body: string, number: string -> Option<int>)
    requires Lower(Before(addr, '%')) == body && RewriteQuad(body, number).Some?
    ensures Parse(addr, number) == ParseGroups(RewriteQuad(body, number).value)
  {
  }

  lemma {:induction false} DenotesIs(f: Form)
    requires Legal(f)
    ensures
      var g := LowerForm(f);
      var quad := QuadBytes(f.quad);
      && AreGroups(g.head) && (g.tail.Some? ==> AreGroups(g.tail.value))
      && |g.head| == |f.head| && g.tail.Some? == f.tail.Some? && (g.tail.Some? ==> |g.tail.value| == |f.tail.value|)
      && |quad| == 2 * QuadSize(f.quad) && (f.quad.None? ==> quad == [])
      && Denotes(f) == Octets(g.head) +
           if g.tail.Some? then Zeros(16 - 2 * |g.head| - 2 * |g.tail.value| - |quad|) + (Octets(g.tail.value) + quad)
             else quad
  {
  }

  lemma {:induction false} BodyIs(f: Form)
    ensures
      var g := LowerForm(f);
      Body(g) == if f.quad.Some? then Lead(g.head, g.tail) + QuadText(f.quad.value) else Section(g.head, g.tail)
    ensures Legal(f) ==>
      (f.quad.Some? ==> LegalQuad(f.quad.value))
      && (if f.tail.Some? then |f.head| + |f.tail.value| + QuadSize(f.quad) <= 8 else |f.head| + QuadSize(f.quad) == 8)
    ensures QuadSize(f.quad) == if f.quad.Some? then 2 else 0
  {
  }

  /**
   * Every legal text form of an address, with leading zeros, either case, `::` at any
   * place, a dotted tail or a zone, parses to the bytes it denotes.
   */
  lemma {:induction false} ParsesEveryForm(f: Form, number: string -> Option<int>)
    requires Legal(f) && ReadsDecimals(number)
    ensures Parse(Text(f), number) == Some(Denotes(f))
  {
    hide *;
    var g := LowerForm(f);
    ZoneDropped(f);
    DenotesIs(f);
    BodyIs(f);
    if f.quad.Some? {
      ParsesQuadBody(g.head, g.tail, f.quad.value, number);
    } else {
      ParsesPlainBody(g.head, g.tail, number);
    }
    ParseVia(Text(f), Body(g), number);
  }

  // --- the verdict ----------------------------------------------------------------------------

  function V4Reason(a: int, b: int): Option<string> {
    if a == 0 then Some("unspecified network")
    else if a == 127 then Some("loopback")
    else if a == 10 then Some("private 10/8")
    else if a == 172 && 16 <= b <= 31 then Some("private 172.16/12")
    else if a == 192 && b == 168 then Some("private 192.168/16")
    else if a == 169 && b == 254 then Some("link-local / cloud metadata")
    else if a == 100 && 64 <= b <= 127 then Some("carrier-grade NAT 100.64/10")
    else if a >= 224 then Some("multicast or reserved")
    else None
  }

  /** Four octets in decimal, as an IPv4 literal is written. */
  function DottedQuad(o: seq<int>): string
    requires |o| == 4 && AreOctets(o)
  {
    Join([Written(10, o[0]), Written(10, o[1]), Written(10, o[2]), Written(10, o[3])], '.')
  }

  predicate AllZero(b: seq<int>) {
    forall i :: 0 <= i < |b| ==> b[i] == 0
  }

  predicate Mapped(b: seq<int>)
    requires |b| == 16
  {
    AllZero(b[..10]) && b[10] == 0xff && b[11] == 0xff
  }

  predicate Compatible(b: seq<int>)
    requires |b| == 16
  {
    AllZero(b[..10]) && b[10] == 0 && b[11] == 0
  }

  predicate Nat64(b: seq<int>)
    requires |b| == 16
  {
    b[0] == 0x00 && b[1] == 0x64 && b[2] == 0xff && b[3] == 0x9b && AllZero(b[4..12])
  }

  /** The ranges of IPv6 itself; masks are written as remainders. */
  function V6Reason(b: seq<int>): Option<string>
    requires |b| == 16
  {
    if AllZero(b) then Some("unspecified address")
    else if AllZero(b[..15]) && b[15] == 1 then Some("IPv6 loopback")
    else if b[0] == 0xff then Some("IPv6 multicast")
    else if b[0] - b[0] % 2 == 0xfc then Some("IPv6 unique-local")
    else if b[0] == 0xfe && b[1] - b[1] % 64 == 0x80 then Some("IPv6 link-local")
    else None
  }

  predicate Loopback(reason: Option<string>) {
    reason == Some("loopback") || reason == Some("IPv6 loopback")
  }

  /** The platform takes four dotted octets for an IPv4 literal. */
  ghost predicate KnowsQuads(isIP: string -> int) {
    forall o: seq<int> :: |o| == 4 && AreOctets(o) ==> isIP(DottedQuad(o)) == 4
  }

  function BlockedV4(ip: string, number: string -> Option<int>): Option<string> {
    var q := SplitOn(ip, '.');
    if |q| >= 2 && number(q[0]).Some? && number(q[1]).Some? then V4Reason(number(q[0]).value, number(q[1]).value)
      else None
  }

  /** IPv6 ranges first; any wrapper of an IPv4 address is judged on that address. */
  function Verdict(b: seq<int>): Option<string>
    requires |b| == 16
  {
    if V6Reason(b).Some? then V6Reason(b)
    else if Mapped(b) || Compatible(b) || Nat64(b) then V4Reason(b[12], b[13])
    else None
  }

  function ReasonOf(ip: string, isIP: string -> int, number: string -> Option<int>): Option<string> {
    if isIP(ip) == 6 then
      if Parse(ip, number).None? then Some("unparseable IPv6 address") else Verdict(Parse(ip, number).value)
    else if isIP(ip) != 4 then Some("not an IP address")
    else BlockedV4(ip, number)
  }

  lemma {:induction false} OctetsInRange(groups: seq<string>)
    requires AreGroups(groups)
    ensures AreOctets(Octets(groups))
  {
    if groups != [] {
      OctetsInRange(groups[..|groups| - 1]);
      GroupFits(groups[|groups| - 1]);
      hide IsGroup, HexValue;
    }
  }

  lemma {:induction false} ParsedOctets(ip: string, number: string -> Option<int>)
    ensures Parse(ip, number).Some? ==> AreOctets(Parse(ip, number).value)
  {
    var s := RewriteQuad(Lower(Before(ip, '%')), number);
    hide RewriteQuad, Lower, Before, Groups, Octets, SplitPairs, AreGroups;
    if s.Some? && ParseGroups(s.value).Some? {
      var halves := SplitPairs(s.value);
      OctetsInRange(Groups(halves[0]));
      if |halves| == 2 { OctetsInRange(Groups(halves[1])); } else { NoOctets(); }
    }
  }

  lemma {:induction false} OctetText(n: nat, number: string -> Option<int>)
    requires ReadsDecimals(number)
    ensures number(Written(10, n)) == Some(n) && Without(Written(10, n), '.')
  {
    WrittenReads(10, n);
    DigitsStayLow(Written(10, n));
    hide Written, Value, Lower, Without;
  }

  lemma {:induction false} QuadOf(o: seq<int>, parts: seq<string>)
    requires |o| == 4 && AreOctets(o)
    requires parts == [Written(10, o[0]), Written(10, o[1]), Written(10, o[2]), Written(10, o[3])]
    ensures DottedQuad(o) == Join(parts, '.')
  {
    hide Written, Join;
  }

  lemma {:induction false} FirstTwo(ip: string, q: seq<string>, number: string -> Option<int>)
    requires SplitOn(ip, '.') == q && |q| == 4 && number(q[0]).Some? && number(q[1]).Some?
    ensures BlockedV4(ip, number) == V4Reason(number(q[0]).value, number(q[1]).value)
  {
    hide V4Reason;
  }

  /** Written out and read back, four octets get their own verdict. */
  lemma {:induction false} EmbeddedReason(o: seq<int>, number: string -> Option<int>)
    requires |o| == 4 && AreOctets(o) && ReadsDecimals(number)
    ensures BlockedV4(DottedQuad(o), number) == V4Reason(o[0], o[1])
  {
    var parts := [Written(10, o[0]), Written(10, o[1]), Written(10, o[2]), Written(10, o[3])];
    OctetText(o[0], number);
    OctetText(o[1], number);
    OctetText(o[2], number);
    OctetText(o[3], number);
    hide *;
    assert forall i :: 0 <= i < |parts| ==> Without(parts[i], '.');
    SplitJoin(parts, '.');
    QuadOf(o, parts);
    FirstTwo(DottedQuad(o), parts, number);
  }

  // --- the verdict by the tables of blocks ---------------------------------------------------------

  /** What no delivery may reach: a listed block, or a wrapper of an address in one. */
  predicate Blocked(b: seq<int>) {
    if |b| == 4 then Listed(b, V4_BLOCKS)
    else |b| == 16 && (Listed(b, V6_BLOCKS) || (Listed(b, V6_WRAPPERS) && Listed(b[12..], V4_BLOCKS)))
  }

  const LOOPBACK_V4: Block := Block([127, 0, 0, 0], 8, "loopback")

  /** The machine itself: 127.0.0.0/8, wrapped or not, and `::1`. */
  predicate ThisMachine(b: seq<int>) {
    if |b| == 4 then Inside(b, LOOPBACK_V4)
    else |b| == 16 && (Number(b) == 1 || (Listed(b, V6_WRAPPERS) && Inside(b[12..], LOOPBACK_V4)))
  }

  /** For every four octets, the reason is that of the block they lie in, if they lie in one. */
  lemma {:induction false} V4ByTable(o: seq<int>)
    requires |o| == 4 && AreOctets(o)
    ensures
      var r := V4Reason(o[0], o[1]);
      && (r.None? <==> !Listed(o, V4_BLOCKS)) && (r.Some? ==> ListedAs(o, V4_BLOCKS, r.value))
      && (Loopback(r) <==> Inside(o, LOOPBACK_V4))
  {
    V4Inside(o);
    LoopbackIs127(o[0], o[1]);
    assert V4_BLOCKS[3] == LOOPBACK_V4;
    if V4Reason(o[0], o[1]).Some? { V4Found(o); }
    hide V4Reason, Inside, ListedAs, AreOctets, Loopback;
    if Listed(o, V4_BLOCKS) {
      var i :| 0 <= i < |V4_BLOCKS| && Inside(o, V4_BLOCKS[i]);
      V4Named(o, i);
      V4Hit(o, i);
    }
  }

  lemma {:induction false} V4Found(o: seq<int>)
    requires |o| == 4 && AreOctets(o) && V4Reason(o[0], o[1]).Some?
    ensures Listed(o, V4_BLOCKS)
  {
    V4Inside(o);
    hide Inside;
    assert Inside(o, V4_BLOCKS[0]) || Inside(o, V4_BLOCKS[1]) || Inside(o, V4_BLOCKS[2]) || Inside(o, V4_BLOCKS[3])
      || Inside(o, V4_BLOCKS[4]) || Inside(o, V4_BLOCKS[5]) || Inside(o, V4_BLOCKS[6]) || Inside(o, V4_BLOCKS[7]);
  }

  lemma {:induction false} V4Named(o: seq<int>, i: nat)
    requires |o| == 4 && AreOctets(o) && i < |V4_BLOCKS| && Inside(o, V4_BLOCKS[i])
    ensures V4Reason(o[0], o[1]) == Some(V4_BLOCKS[i].reason)
  {
    V4Inside(o);
    hide Inside;
  }

  lemma {:induction false} LoopbackIs127(a: int, b: int)
    ensures Loopback(V4Reason(a, b)) <==> a == 127
  {
  }

  lemma {:induction false} V4Apart(o: seq<int>, i: nat, j: nat)
    requires |o| == 4 && AreOctets(o) && j < i < |V4_BLOCKS| && Inside(o, V4_BLOCKS[i])
    ensures !Inside(o, V4_BLOCKS[j])
  {
    V4Inside(o);
    hide Inside, AreOctets;
  }

  lemma {:induction false} V4Hit(o: seq<int>, i: nat)
    requires |o| == 4 && AreOctets(o) && i < |V4_BLOCKS| && Inside(o, V4_BLOCKS[i])
    ensures Listed(o, V4_BLOCKS) && ListedAs(o, V4_BLOCKS, V4_BLOCKS[i].reason)
  {
    forall j | 0 <= j < i ensures !Inside(o, V4_BLOCKS[j]) { V4Apart(o, i, j); }
    hide Inside;
  }

  /** For every sixteen octets, the same of the blocks of IPv6 itself. */
  lemma {:induction false} V6ByTable(b: seq<int>)
    requires |b| == 16 && AreOctets(b)
    ensures
      var r := V6Reason(b);
      && (r.None? <==> !Listed(b, V6_BLOCKS)) && (r.Some? ==> ListedAs(b, V6_BLOCKS, r.value))
      && (Loopback(r) <==> Number(b) == 1)
  {
    LoopbackIsOne(b);
    AllZeroIs(b);
    LoopbackIsV6(b);
    V6Listed(b);
    hide *;
  }

  lemma {:induction false} V6Listed(b: seq<int>)
    requires |b| == 16 && AreOctets(b)
    ensures
      var r := V6Reason(b);
      (r.None? <==> !Listed(b, V6_BLOCKS)) && (r.Some? ==> ListedAs(b, V6_BLOCKS, r.value))
  {
    if V6Reason(b).Some? { V6Found(b); }
    hide V6Reason, Inside, ListedAs, AreOctets;
    if Listed(b, V6_BLOCKS) {
      var i :| 0 <= i < |V6_BLOCKS| && Inside(b, V6_BLOCKS[i]);
      V6Named(b, i);
      V6Hit(b, i);
    }
  }

  lemma {:induction false} V6Found(b: seq<int>)
    requires |b| == 16 && AreOctets(b) && V6Reason(b).Some?
    ensures Listed(b, V6_BLOCKS)
  {
    V6Inside(b);
    AllZeroIs(b);
    hide Inside, Number, AllZero, Padded;
    assert Inside(b, V6_BLOCKS[0]) || Inside(b, V6_BLOCKS[1]) || Inside(b, V6_BLOCKS[2]) || Inside(b, V6_BLOCKS[3])
      || Inside(b, V6_BLOCKS[4]);
  }

  lemma {:induction false} V6Named(b: seq<int>, i: nat)
    requires |b| == 16 && AreOctets(b) && i < |V6_BLOCKS| && Inside(b, V6_BLOCKS[i])
    ensures V6Reason(b) == Some(V6_BLOCKS[i].reason)
  {
    V6Inside(b);
    AllZeroIs(b);
    Unmasked(b);
    assert AllZero(b) ==> b[15] == 0 && b[0] == 0;
    assert AllZero(b[..15]) ==> b[0] == b[..15][0] == 0;
    hide Inside, AllZero, Padded, AreOctets, V6Reason;
    if i == 0 { } else if i == 1 { } else if i == 2 { } else if i == 3 { } else { }
  }

  /** The masks as ranges. */
  lemma {:induction false} Unmasked(b: seq<int>)
    requires |b| == 16
    ensures V6Reason(b) ==
      if AllZero(b) then Some("unspecified address")
      else if AllZero(b[..15]) && b[15] == 1 then Some("IPv6 loopback")
      else if b[0] == 0xff then Some("IPv6 multicast")
      else if b[0] == 0xfc || b[0] == 0xfd then Some("IPv6 unique-local")
      else if b[0] == 0xfe && 0x80 <= b[1] <= 0xbf then Some("IPv6 link-local")
      else None
  {
    hide AllZero;
  }

  lemma {:induction false} AllZeroIs(b: seq<int>)
    requires |b| == 16
    ensures AllZero(b) <==> b == Padded([])
    ensures AllZero(b[..15]) <==> b[..15] == Padded([])[..15]
  {
  }

  lemma {:induction false} LoopbackIsV6(b: seq<int>)
    requires |b| == 16
    ensures Loopback(V6Reason(b)) <==> AllZero(b[..15]) && b[15] == 1
  {
    assert AllZero(b) ==> b[15] == 0;
    hide AllZero;
  }

  lemma {:induction false} V6Hit(b: seq<int>, i: nat)
    requires |b| == 16 && AreOctets(b) && i < |V6_BLOCKS| && Inside(b, V6_BLOCKS[i])
    ensures Listed(b, V6_BLOCKS) && ListedAs(b, V6_BLOCKS, V6_BLOCKS[i].reason)
  {
    V6Inside(b);
    hide Inside;
    assert b == Padded([]) ==> b[15] == 0 && b[0] == 0;
    assert b[..15] == Padded([])[..15] ==> b[0] == b[..15][0] == 0;
    assert forall j :: 0 <= j < i ==> !Inside(b, V6_BLOCKS[j]);
  }

  lemma {:induction false} LoopbackIsOne(b: seq<int>)
    requires |b| == 16 && AreOctets(b)
    ensures Number(b) == 1 <==> b[..15] == Padded([])[..15] && b[15] == 1
  {
    var zeros := Padded([])[..15];
    ZeroNumber(zeros);
    NumberInjective(b[..15], zeros);
    hide Number;
    assert Number(b) == 256 * Number(b[..15]) + b[15] by { OneMore(b); }
    NumberFits(b[..15]);
  }

  lemma {:induction false} OneMore(b: seq<int>)
    requires b != []
    ensures Number(b) == 256 * Number(b[..|b| - 1]) + b[|b| - 1]
  {
  }

  lemma {:induction false} ZeroNumber(b: seq<int>)
    requires AllZero(b)
    ensures Number(b) == 0
  {
    if b != [] { ZeroNumber(b[..|b| - 1]); }
  }

  lemma {:induction false} NumberFits(b: seq<int>)
    requires AreOctets(b)
    ensures Number(b) >= 0
  {
    if b != [] { NumberFits(b[..|b| - 1]); }
  }

  lemma {:induction false} MappedIs(b: seq<int>)
    requires |b| == 16
    ensures b[..12] == V6_WRAPPERS[0].base[..12] <==> Mapped(b)
  {
    TenAndTwo(b);
    assert V6_WRAPPERS[0].base[..12] == [0, 0, 0, 0, 0, 0, 0, 0, 0, 0, 0xff, 0xff];
  }

  lemma {:induction false} CompatibleIs(b: seq<int>)
    requires |b| == 16
    ensures b[..12] == V6_WRAPPERS[1].base[..12] <==> Compatible(b)
  {
    TenAndTwo(b);
    assert V6_WRAPPERS[1].base[..12] == [0, 0, 0, 0, 0, 0, 0, 0, 0, 0, 0, 0];
  }

  lemma {:induction false} Nat64Is(b: seq<int>)
    requires |b| == 16
    ensures b[..12] == V6_WRAPPERS[2].base[..12] <==> Nat64(b)
  {
    var twelve := b[..12];
    assert b[4..12] == twelve[4..] && forall i :: 0 <= i < 4 ==> b[i] == twelve[i];
    assert V6_WRAPPERS[2].base[..12] == [0x00, 0x64, 0xff, 0x9b, 0, 0, 0, 0, 0, 0, 0, 0];
  }

  lemma {:induction false} TenAndTwo(b: seq<int>)
    requires |b| == 16
    ensures b[..12][..10] == b[..10] && b[..12][10] == b[10] && b[..12][11] == b[11]
  {
  }

  lemma {:induction false} WrappedByTable(b: seq<int>)
    requires |b| == 16 && AreOctets(b)
    ensures Mapped(b) || Compatible(b) || Nat64(b) <==> Listed(b, V6_WRAPPERS)
  {
    WrapperInside(b, 0);
    WrapperInside(b, 1);
    WrapperInside(b, 2);
    MappedIs(b);
    CompatibleIs(b);
    Nat64Is(b);
    hide Inside, Mapped, Compatible, Nat64;
  }

  lemma {:induction false} VerdictIs(b: seq<int>)
    requires |b| == 16
    ensures Verdict(b) == if V6Reason(b).Some? then V6Reason(b)
      else if Mapped(b) || Compatible(b) || Nat64(b) then V4Reason(b[12..][0], b[12..][1]) else None
  {
    hide V6Reason, V4Reason, Mapped, Compatible, Nat64;
  }

  lemma {:induction false} LoopbackNone()
    ensures !Loopback(None)
  {
  }

  /** The verdict on sixteen octets, by the tables alone. */
  lemma {:induction false} VerdictByTable(b: seq<int>)
    requires |b| == 16 && AreOctets(b)
    ensures (Verdict(b).None? <==> !Blocked(b)) && (Loopback(Verdict(b)) <==> ThisMachine(b))
    ensures Listed(b, V6_BLOCKS) ==> Verdict(b).Some? && ListedAs(b, V6_BLOCKS, Verdict(b).value)
    ensures Verdict(b).Some? && !Listed(b, V6_BLOCKS) ==> ListedAs(b[12..], V4_BLOCKS, Verdict(b).value)
  {
    V6ByTable(b);
    V4ByTable(b[12..]);
    WrappedByTable(b);
    VerdictIs(b);
    LoopbackNone();
    hide V6Reason, V4Reason, Mapped, Compatible, Nat64, Listed, ListedAs, Inside, Number, Verdict, Loopback;
  }

  /** The octets of a literal: those of a dotted quad, or those a legal form denotes. */
  ghost predicate IsAddress(ip: string, isIP: string -> int, b: seq<int>) {
    || (isIP(ip) == 4 && |b| == 4 && AreOctets(b) && ip == DottedQuad(b))
    || (isIP(ip) == 6 && exists f :: Legal(f) && Text(f) == ip && Denotes(f) == b)
  }

  /** The platform takes nothing but dotted quads and legal forms for literals. */
  ghost predicate OnlyLiterals(isIP: string -> int) {
    forall ip :: isIP(ip) == 4 || isIP(ip) == 6 ==> exists b :: IsAddress(ip, isIP, b)
  }

  /** Of every literal, the verdict is what the tables say of its octets. */
  lemma {:induction false} ReasonByTable(ip: string, isIP: string -> int, number: string -> Option<int>, b: seq<int>)
    requires ReadsDecimals(number) && IsAddress(ip, isIP, b)
    ensures ReasonOf(ip, isIP, number).None? <==> !Blocked(b)
    ensures Loopback(ReasonOf(ip, isIP, number)) <==> ThisMachine(b)
  {
    hide Blocked, ThisMachine, Loopback, Verdict, V4Reason, Legal, Denotes, Text, Parse, ReadsDecimals, BlockedV4;
    if isIP(ip) == 4 {
      EmbeddedReason(b, number);
      QuadByTable(b);
    } else {
      var f :| Legal(f) && Text(f) == ip && Denotes(f) == b;
      ParsesEveryForm(f, number);
      ParsedOctets(ip, number);
      VerdictByTable(b);
    }
  }

  lemma {:induction false} QuadByTable(o: seq<int>)
    requires |o| == 4 && AreOctets(o)
    ensures V4Reason(o[0], o[1]).None? <==> !Blocked(o)
    ensures Loopback(V4Reason(o[0], o[1])) <==> ThisMachine(o)
  {
    V4ByTable(o);
    hide V4Reason, Inside, Loopback, Listed, ListedAs;
  }

  lemma {:induction false} ReasonsByTable(ip: string, isIP: string -> int, number: string -> Option<int>)
    requires ReadsDecimals(number)
    ensures forall b :: IsAddress(ip, isIP, b) ==>
      && (ReasonOf(ip, isIP, number).None? <==> !Blocked(b))
      && (Loopback(ReasonOf(ip, isIP, number)) <==> ThisMachine(b))
  {
    hide *;
    forall b | IsAddress(ip, isIP, b)
      ensures (ReasonOf(ip, isIP, number).None? <==> !Blocked(b))
        && (Loopback(ReasonOf(ip, isIP, number)) <==> ThisMachine(b))
    {
      ReasonByTable(ip, isIP, number, b);
    }
  }

  lemma {:induction false} QuadsAreFour(o: seq<int>, isIP: string -> int)
    requires |o| == 4 && AreOctets(o) && KnowsQuads(isIP)
    ensures isIP(DottedQuad(o)) == 4
  {
  }

  predicate Reachable(reason: Option<string>, allowLoopback: bool) {
    reason.None? || (allowLoopback && Loopback(reason))
  }

  /** An address that the tables let through, or that is the machine itself where that is allowed. */
  ghost predicate MayReach(ip: string, isIP: string -> int, allowLoopback: bool) {
    exists b :: IsAddress(ip, isIP, b) && (!Blocked(b) || (allowLoopback && ThisMachine(b)))
  }

  ghost predicate StaysHere(ip: string, isIP: string -> int) {
    exists b :: IsAddress(ip, isIP, b) && ThisMachine(b)
  }

  lemma {:induction false} ReachableByTable(ip: string, isIP: string -> int, number: string -> Option<int>,
      allowLoopback: bool)
    requires ReadsDecimals(number) && OnlyLiterals(isIP)
    ensures Reachable(ReasonOf(ip, isIP, number), allowLoopback) <==> MayReach(ip, isIP, allowLoopback)
    ensures Loopback(ReasonOf(ip, isIP, number)) <==> StaysHere(ip, isIP)
  {
    ReasonsByTable(ip, isIP, number);
    if isIP(ip) == 4 || isIP(ip) == 6 {
      hide ReasonOf, Loopback, Blocked, ThisMachine, IsAddress, ReadsDecimals;
    } else {
      hide Parse, Blocked, ThisMachine, BlockedV4, DottedQuad, Denotes, Text, Legal, Verdict;
    }
  }

  predicate AllReachable(addrs: seq<string>, allowLoopback: bool, isIP: string -> int, number: string -> Option<int>) {
    forall i :: 0 <= i < |addrs| ==> Reachable(ReasonOf(addrs[i], isIP, number), allowLoopback)
  }

  predicate AllLoopback(addrs: seq<string>, isIP: string -> int, number: string -> Option<int>) {
    forall i :: 0 <= i < |addrs| ==> Loopback(ReasonOf(addrs[i], isIP, number))
  }

  ghost predicate AllMayReach(addrs: seq<string>, isIP: string -> int, allowLoopback: bool) {
    forall i :: 0 <= i < |addrs| ==> MayReach(addrs[i], isIP, allowLoopback)
  }

  ghost predicate AllStayHere(addrs: seq<string>, isIP: string -> int) {
    forall i :: 0 <= i < |addrs| ==> StaysHere(addrs[i], isIP)
  }

  lemma {:induction false} AllByTable(addrs: seq<string>, allowLoopback: bool, isIP: string -> int,
      number: string -> Option<int>)
    requires ReadsDecimals(number)
    ensures OnlyLiterals(isIP) ==>
      && (AllReachable(addrs, allowLoopback, isIP, number) <==> AllMayReach(addrs, isIP, allowLoopback))
      && (AllLoopback(addrs, isIP, number) <==> AllStayHere(addrs, isIP))
  {
    hide ReadsDecimals, OnlyLiterals, ReasonOf, MayReach, StaysHere, Reachable, Loopback;
    if OnlyLiterals(isIP) {
      forall i | 0 <= i < |addrs|
        ensures Reachable(ReasonOf(addrs[i], isIP, number), allowLoopback) <==> MayReach(addrs[i], isIP, allowLoopback)
        ensures Loopback(ReasonOf(addrs[i], isIP, number)) <==> StaysHere(addrs[i], isIP)
      {
        ReachableByTable(addrs[i], isIP, number, allowLoopback);
      }
    }
  }

  lemma {:induction false} ReachableIs(reason: Option<string>, allowLoopback: bool)
    ensures Reachable(reason, allowLoopback) <==> reason.None? || (allowLoopback && Loopback(reason))
  {
  }

  /** 10.0.0.5 is refused, and 11.0.0.5 is not. */
  lemma {:induction false} TenIsPrivate()
    ensures Blocked([10, 0, 0, 5]) && !Blocked([11, 0, 0, 5])
  {
    V4ByTable([10, 0, 0, 5]);
    V4ByTable([11, 0, 0, 5]);
    hide Inside;
  }

  method BlockedReason(ip: string, isIP: string -> int, number: string -> Option<int>) returns (reason: Option<string>)
    requires KnowsQuads(isIP) && ReadsDecimals(number)
    ensures reason == ReasonOf(ip, isIP, number)
    ensures forall b :: IsAddress(ip, isIP, b) ==>
      (reason.None? <==> !Blocked(b)) && (Loopback(reason) <==> ThisMachine(b))
    ensures isIP(ip) != 4 && isIP(ip) != 6 ==> reason == Some("not an IP address")
    ensures isIP(ip) == 6 && Parse(ip, number).None? ==> reason == Some("unparseable IPv6 address")
    decreases if isIP(ip) == 6 then 1 else 0
  {
    ReasonsByTable(ip, isIP, number);
    hide Blocked, ThisMachine, IsAddress, Loopback, KnowsQuads, ReadsDecimals;
    var v := isIP(ip);
    if v == 6 {
      var bytes := IPv6ToBytes(ip, number);
      if bytes.None? { return Some("unparseable IPv6 address"); }
      var b := bytes.value;
      ParsedOctets(ip, number);
      QuadsAreFour(b[12..], isIP);
      hide Parse, V6Reason, V4Reason, Mapped, Compatible, Nat64, BlockedV4, DottedQuad;
      if V6Reason(b).Some? { return V6Reason(b); }
      if Mapped(b) || Compatible(b) || Nat64(b) {
        EmbeddedReason(b[12..], number);
        reason := BlockedReason(DottedQuad(b[12..]), isIP, number);
        return;
      }
      return None;
    }
    if v != 4 { return Some("not an IP address"); }
    reason := BlockedV4(ip, number);
  }

  /** Two spellings of one address get one verdict: that of its bytes. */
  lemma {:induction false} SpellingDoesNotMatter(f: Form, isIP: string -> int, number: string -> Option<int>)
    requires Legal(f) && ReadsDecimals(number) && isIP(Text(f)) == 6
    ensures ReasonOf(Text(f), isIP, number) == Verdict(Denotes(f))
  {
    ParsesEveryForm(f, number);
  }

  /** A mapped or translated address is judged as the IPv4 address in it. */
  lemma {:induction false} WrappedIsEmbedded(b: seq<int>, number: string -> Option<int>)
    requires |b| == 16 && AreOctets(b) && ReadsDecimals(number)
    requires Mapped(b) || Nat64(b)
    ensures Verdict(b) == BlockedV4(DottedQuad(b[12..]), number)
  {
    EmbeddedReason(b[12..], number);
    if Mapped(b) {
      assert b[..10][0] == 0 && b[..15][10] == b[10];
    } else {
      assert b[..15][1] == b[1];
    }
    hide V4Reason, BlockedV4;
  }

  // --- the whole check --------------------------------------------------------------------------

  datatype Url = Url(hasCredentials: bool, scheme: string, host: string)

  datatype Refusal = CredentialsInUrl | UnsupportedScheme | Unresolved | NotRoutable(ip: string) | Plaintext

  /** `resolved` is the resolver's answer for the host, or None if it failed; a literal is not resolved. */
  method CheckUrl(u: Url, resolved: Option<seq<string>>, allowLoopback: bool, isIP: string -> int,
      number: string -> Option<int>)
      returns (r: Result<(), Refusal>)
    requires KnowsQuads(isIP) && ReadsDecimals(number)
    ensures
      var addrs := if isIP(u.host) != 0 then [u.host] else if resolved.Some? then resolved.value else [];
      r.Success? <==>
        && !u.hasCredentials && (u.scheme == "https:" || u.scheme == "http:") && addrs != []
        && AllReachable(addrs, allowLoopback, isIP, number)
        && (u.scheme == "http:" ==> allowLoopback && AllLoopback(addrs, isIP, number))
    ensures
      var addrs := if isIP(u.host) != 0 then [u.host] else if resolved.Some? then resolved.value else [];
      OnlyLiterals(isIP) ==>
        (r.Success? <==>
          && !u.hasCredentials && (u.scheme == "https:" || u.scheme == "http:") && addrs != []
          && AllMayReach(addrs, isIP, allowLoopback)
          && (u.scheme == "http:" ==> allowLoopback && AllStayHere(addrs, isIP)))
    ensures r == Failure(CredentialsInUrl) <==> u.hasCredentials
    ensures r == Failure(UnsupportedScheme) <==> !u.hasCredentials && u.scheme != "https:" && u.scheme != "http:"
    ensures r == Failure(Unresolved) <==>
      && !u.hasCredentials && (u.scheme == "https:" || u.scheme == "http:")
      && isIP(u.host) == 0 && (resolved.None? || resolved.value == [])
    ensures
      var addrs := if isIP(u.host) != 0 then [u.host] else if resolved.Some? then resolved.value else [];
      r.Failure? && r.error.NotRoutable? <==>
        && !u.hasCredentials && (u.scheme == "https:" || u.scheme == "http:")
        && !AllReachable(addrs, allowLoopback, isIP, number)
    ensures r.Failure? && r.error.NotRoutable? ==>
      (if isIP(u.host) != 0 then r.error.ip == u.host else resolved.Some? && r.error.ip in resolved.value)
      && !Reachable(ReasonOf(r.error.ip, isIP, number), allowLoopback)
  {
    hide ReasonOf, Loopback, ReadsDecimals, KnowsQuads, OnlyLiterals, AllMayReach, AllStayHere, Reachable, IsAddress,
      Blocked, ThisMachine;
    AllByTable(if isIP(u.host) != 0 then [u.host] else if resolved.Some? then resolved.value else [],
      allowLoopback, isIP, number);
    if u.hasCredentials { return Failure(CredentialsInUrl); }
    if u.scheme != "https:" && u.scheme != "http:" { return Failure(UnsupportedScheme); }
    var addrs := [u.host];
    if isIP(u.host) == 0 {
      if resolved.None? { return Failure(Unresolved); }
      addrs := resolved.value;
    }
    if addrs == [] { return Failure(Unresolved); }
    var allLoopback := true;
    for i := 0 to |addrs|
      invariant forall j :: 0 <= j < i ==> Reachable(ReasonOf(addrs[j], isIP, number), allowLoopback)
      invariant allLoopback <==> forall j :: 0 <= j < i ==> Loopback(ReasonOf(addrs[j], isIP, number))
    {
      var bad := BlockedReason(addrs[i], isIP, number);
      ReachableIs(bad, allowLoopback);
      if bad.Some? && !(allowLoopback && Loopback(bad)) { return Failure(NotRoutable(addrs[i])); }
      if !Loopback(bad) { allLoopback := false; }
    }
    if u.scheme == "http:" && !(allowLoopback && allLoopback) { return Failure(Plaintext); }
    r := Success(());
  }
}
