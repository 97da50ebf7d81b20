/**
 * Text operations: splitting, joining, lower case and hexadecimal.
 */
module Texts {

  predicate IsHex(c: char) {
    '0' <= c <= '9' || 'a' <= c <= 'f'
  }

  function LowerChar(c: char): char {
    if 'A' <= c <= 'Z' then ((c as int) + 32) as char else c
  }

  function Lower(s: string): string {
    seq(|s|, i requires 0 <= i < |s| => LowerChar(s[i]))
  }

  /** Everything before the first `c`. */
  function Before(s: string, c: char): string {
    if s == "" || s[0] == c then "" else [s[0]] + Before(s[1..], c)
  }

  /** `s.split(c)` */
  function SplitOn(s: string, c: char): (parts: seq<string>)
    ensures |parts| >= 1
  {
    if s == "" then [""]
    else
      var rest := SplitOn(s[1..], c);
      if s[0] == c then [""] + rest else [[s[0]] + rest[0]] + rest[1..]
  }

  /** `s.split("::")` */
  function SplitPairs(s: string): (parts: seq<string>)
    ensures |parts| >= 1
  {
    if s == "" then [""]
    else if |s| >= 2 && s[0] == ':' && s[1] == ':' then [""] + SplitPairs(s[2..])
    else
      var rest := SplitPairs(s[1..]);
      [[s[0]] + rest[0]] + rest[1..]
  }

  /** One past the last colon, or zero. */
  function AfterLastColon(s: string): (i: nat)
    ensures i <= |s|
  {
    if s == "" then 0 else if s[|s| - 1] == ':' then |s| else AfterLastColon(s[..|s| - 1])
  }

  function Join(parts: seq<string>, c: char): string {
    if parts == [] then "" else if |parts| == 1 then parts[0] else parts[0] + [c] + Join(parts[1..], c)
  }

  predicate Without(s: string, c: char) {
    forall i :: 0 <= i < |s| ==> s[i] != c
  }

  predicate NoPair(s: string) {
    forall i :: 0 <= i < |s| - 1 ==> !(s[i] == ':' && s[i + 1] == ':')
  }

  lemma {:induction false} SplitFirst(g: string, rest: string, c: char)
    requires Without(g, c)
    ensures SplitOn(g, c) == [g]
    ensures SplitOn(g + [c] + rest, c) == [g] + SplitOn(rest, c)
  {
    if g == "" {
      assert "" + [c] + rest == [c] + rest;
      assert ([c] + rest)[1..] == rest;
    } else {
      SplitFirst(g[1..], rest, c);
      assert (g + [c] + rest)[1..] == g[1..] + [c] + rest;
      assert [g[0]] + g[1..] == g;
    }
  }

  lemma {:induction false} JoinStep(parts: seq<string>, c: char)
    requires parts != []
    ensures Join(parts, c) == if |parts| == 1 then parts[0] else parts[0] + [c] + Join(parts[1..], c)
  {
  }

  lemma {:induction false} SplitJoin(parts: seq<string>, c: char)
    requires parts != [] && forall i :: 0 <= i < |parts| ==> Without(parts[i], c)
    ensures SplitOn(Join(parts, c), c) == parts
  {
    hide SplitOn, Without, Join;
    JoinStep(parts, c);
    if |parts| == 1 {
      SplitFirst(parts[0], "", c);
      assert parts == [parts[0]];
    } else {
      SplitJoin(parts[1..], c);
      SplitFirst(parts[0], Join(parts[1..], c), c);
      assert parts == [parts[0]] + parts[1..];
    }
  }

  lemma {:induction false} SplitStep(s: string, c: char)
    ensures SplitOn(s, c) ==
      if s == "" then [""]
      else if s[0] == c then [""] + SplitOn(s[1..], c)
      else [[s[0]] + SplitOn(s[1..], c)[0]] + SplitOn(s[1..], c)[1..]
    ensures Join([""], c) == ""
  {
  }

  /** Splitting loses nothing. */
  lemma {:induction false} JoinSplit(s: string, c: char)
    ensures Join(SplitOn(s, c), c) == s
  {
    hide SplitOn, Join;
    SplitStep(s, c);
    if s != "" {
      var rest := SplitOn(s[1..], c);
      JoinSplit(s[1..], c);
      if s[0] == c {
        JoinStep([""] + rest, c);
        assert ([""] + rest)[1..] == rest;
        assert Join([""] + rest, c) == "" + [c] + Join(rest, c);
      } else {
        var parts := [[s[0]] + rest[0]] + rest[1..];
        assert parts[1..] == rest[1..];
        JoinStep(rest, c);
        JoinStep(parts, c);
        if |rest| > 1 {
          assert [s[0]] + rest[0] + [c] + Join(rest[1..], c) == [s[0]] + (rest[0] + [c] + Join(rest[1..], c));
        }
        assert [s[0]] + s[1..] == s;
      }
    }
  }

  lemma {:induction false} JoinPairs(s: string)
    ensures |SplitPairs(s)| == 1 ==> s == SplitPairs(s)[0]
    ensures |SplitPairs(s)| == 2 ==> s == SplitPairs(s)[0] + "::" + SplitPairs(s)[1]
  {
    hide SplitPairs;
    PairsStep(s);
    if s == "" {
    } else if |s| >= 2 && s[0] == ':' && s[1] == ':' {
      JoinPairs(s[2..]);
      assert s == "" + "::" + s[2..];
    } else {
      JoinPairs(s[1..]);
      assert s == [s[0]] + s[1..];
      var rest := SplitPairs(s[1..]);
      if |rest| == 2 { assert [s[0]] + (rest[0] + "::" + rest[1]) == ([s[0]] + rest[0]) + "::" + rest[1]; }
    }
  }

  lemma {:induction false} PairsStep(s: string)
    ensures SplitPairs(s) ==
      if s == "" then [""]
      else if |s| >= 2 && s[0] == ':' && s[1] == ':' then [""] + SplitPairs(s[2..])
      else [[s[0]] + SplitPairs(s[1..])[0]] + SplitPairs(s[1..])[1..]
  {
  }

  lemma {:induction false} PairsNone(s: string)
    requires NoPair(s)
    ensures SplitPairs(s) == [s]
  {
    if s != "" {
      forall i | 0 <= i < |s[1..]| - 1 ensures !(s[1..][i] == ':' && s[1..][i + 1] == ':') {
        assert !(s[i + 1] == ':' && s[i + 2] == ':');
      }
      PairsNone(s[1..]);
      assert !(|s| >= 2 && s[0] == ':' && s[0 + 1] == ':');
      assert [s[0]] + s[1..] == s;
    }
  }

  lemma {:induction false} PairsFirst(h: string, rest: string)
    requires NoPair(h) && (h != "" ==> h[|h| - 1] != ':')
    ensures SplitPairs(h + "::" + rest) == [h] + SplitPairs(rest)
  {
    var s := h + "::" + rest;
    if h == "" {
      assert s[2..] == rest;
    } else {
      var t := h[1..];
      forall i | 0 <= i < |t| - 1 ensures !(t[i] == ':' && t[i + 1] == ':') {
        assert !(h[i + 1] == ':' && h[i + 2] == ':');
      }
      PairsFirst(t, rest);
      assert s[1..] == t + "::" + rest;
      if |h| >= 2 { assert !(h[0] == ':' && h[0 + 1] == ':'); assert s[1] == h[1]; }
      assert [h[0]] + t == h;
    }
  }

  /** Groups joined by colons: no two colons meet, and none stands at either end. */
  lemma {:induction false} JoinNoPair(parts: seq<string>)
    requires forall i :: 0 <= i < |parts| ==> parts[i] != "" && Without(parts[i], ':')
    ensures NoPair(Join(parts, ':'))
    ensures parts != [] ==>
      Join(parts, ':') != "" && Join(parts, ':')[0] != ':' && Join(parts, ':')[|Join(parts, ':')| - 1] != ':'
  {
    if |parts| > 1 {
      JoinNoPair(parts[1..]);
      var g, r, s := parts[0], Join(parts[1..], ':'), Join(parts, ':');
      assert s == g + ":" + r;
      forall i | 0 <= i < |s| - 1 ensures !(s[i] == ':' && s[i + 1] == ':') {
        if i < |g| { assert s[i] == g[i]; } else if i == |g| { assert s[i + 1] == r[0]; }
        else { assert s[i] == r[i - |g| - 1] && s[i + 1] == r[i - |g| - 1 + 1]; }
      }
    }
  }

  lemma {:induction false} LastColonBefore(s: string, t: string)
    requires (s == "" || s[|s| - 1] == ':') && Without(t, ':')
    ensures AfterLastColon(s + t) == |s|
  {
    if t == "" {
      assert s + t == s;
    } else {
      assert (s + t)[..|s + t| - 1] == s + t[..|t| - 1];
      LastColonBefore(s, t[..|t| - 1]);
    }
  }

  lemma {:induction false} BeforeStops(s: string, rest: string, c: char)
    requires Without(s, c)
    ensures Before(s, c) == s
    ensures Before(s + [c] + rest, c) == s
  {
    if s == "" {
    } else {
      BeforeStops(s[1..], rest, c);
      assert (s + [c] + rest)[1..] == s[1..] + [c] + rest;
      assert [s[0]] + s[1..] == s;
    }
  }

  // --- hexadecimal ----------------------------------------------------------------------

  function HexDigit(c: char): (d: nat)
    requires IsHex(c)
    ensures d < 16
  {
    if c <= '9' then (c - '0') as int else (c - 'a') as int + 10
  }

  function HexChar(d: nat): (c: char)
    requires d < 16
    ensures IsHex(c) && HexDigit(c) == d
  {
    if d < 10 then ('0' as int + d) as char else ('a' as int + d - 10) as char
  }

  /** One to four lower-case hexadecimal digits. */
  predicate IsGroup(g: string) {
    1 <= |g| <= 4 && forall i :: 0 <= i < |g| ==> IsHex(g[i])
  }

  function HexValue(g: string): nat
    requires forall i :: 0 <= i < |g| ==> IsHex(g[i])
  {
    if g == "" then 0 else 16 * HexValue(g[..|g| - 1]) + HexDigit(g[|g| - 1])
  }

  /** `n.toString(16)` */
  function HexText(n: nat): string {
    if n < 16 then [HexChar(n)] else HexText(n / 16) + [HexChar(n % 16)]
  }

  lemma {:induction false} HexTextReads(n: nat, digits: nat, limit: nat)
    requires digits >= 1 && n < limit && limit == Pow16(digits)
    ensures 1 <= |HexText(n)| <= digits
    ensures forall i :: 0 <= i < |HexText(n)| ==> IsHex(HexText(n)[i])
    ensures HexValue(HexText(n)) == n
  {
    if n >= 16 {
      HexTextReads(n / 16, digits - 1, Pow16(digits - 1));
      assert HexText(n)[..|HexText(n)| - 1] == HexText(n / 16);
    } else {
      assert HexText(n)[..0] == "";
    }
  }

  function Pow16(k: nat): nat {
    if k == 0 then 1 else 16 * Pow16(k - 1)
  }

  lemma {:induction false} GroupBound(g: string)
    requires forall i :: 0 <= i < |g| ==> IsHex(g[i])
    ensures HexValue(g) < Pow16(|g|)
  {
    if g != "" { GroupBound(g[..|g| - 1]); }
  }

  /** Two octets written as one group. */
  lemma {:induction false} GroupOfOctets(n: nat)
    requires n < 65536
    ensures IsGroup(HexText(n)) && HexValue(HexText(n)) == n
  {
    assert Pow16(4) == 65536 by { assert Pow16(1) == 16 && Pow16(2) == 256 && Pow16(3) == 4096; }
    HexTextReads(n, 4, 65536);
  }

  lemma {:induction false} GroupFits(g: string)
    requires IsGroup(g)
    ensures HexValue(g) < 65536
  {
    GroupBound(g);
    assert Pow16(1) == 16 && Pow16(2) == 256 && Pow16(3) == 4096 && Pow16(4) == 65536;
  }
}
