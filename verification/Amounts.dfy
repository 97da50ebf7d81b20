/**
 * The three readings of an amount written as text: JavaScript's `BigInt(text)`
 * (the live ledger), the decimal test of the audit folds, and Go's
 * `big.Int.SetString(text, 10)` (the chaincode).
 */
module Amounts {
  import opened Wrappers

  function DigitOf(c: char): (d: nat)
    ensures d <= 36
  {
    if '0' <= c <= '9' then (c - '0') as int
    else if 'a' <= c <= 'z' then (c - 'a') as int + 10
    else if 'A' <= c <= 'Z' then (c - 'A') as int + 10
    else 36
  }

  predicate DigitsIn(base: nat, s: string) {
    s != "" && forall i :: 0 <= i < |s| ==> DigitOf(s[i]) < base
  }

  function Value(base: nat, s: string): nat {
    if s == "" then 0 else Value(base, s[..|s| - 1]) * base + DigitOf(s[|s| - 1])
  }

  /** `/^\d+$/` */
  predicate IsDecimal(s: string) {
    DigitsIn(10, s)
  }

  /** White space and line terminators that `BigInt` trims. */
  predicate IsSpace(c: char) {
    c in {'\t', '\n', '\r', ' ', '\U{0B}', '\U{0C}', '\U{A0}', '\U{FEFF}', '\U{1680}', '\U{2028}', '\U{2029}',
      '\U{202F}', '\U{205F}', '\U{3000}'}
    || '\U{2000}' <= c <= '\U{200A}'
  }

  function TrimLeft(s: string): string {
    if s != "" && IsSpace(s[0]) then TrimLeft(s[1..]) else s
  }

  function TrimRight(s: string): string {
    if s != "" && IsSpace(s[|s| - 1]) then TrimRight(s[..|s| - 1]) else s
  }

  /** An optional sign and decimal digits: Go's base-10 grammar, and part of JavaScript's. */
  function Signed(s: string): Option<int> {
    if IsDecimal(s) then Some(Value(10, s))
    else if s != "" && s[0] == '+' && IsDecimal(s[1..]) then Some(Value(10, s[1..]))
    else if s != "" && s[0] == '-' && IsDecimal(s[1..]) then Some(0 - Value(10, s[1..]) as int)
    else None
  }

  function Prefixed(s: string): Option<int> {
    if |s| <= 2 || s[0] != '0' then None
    else
      var base :=
        match s[1]
        case 'x' => 16 case 'X' => 16 case 'o' => 8 case 'O' => 8 case 'b' => 2 case 'B' => 2 case _ => 0;
      if DigitsIn(base, s[2..]) then Some(Value(base, s[2..])) else None
  }

  /** `BigInt(text)`; None where it throws a SyntaxError. */
  function JsBigInt(text: string): Option<int> {
    var s := TrimRight(TrimLeft(text));
    if s == "" then Some(0)
    else if Signed(s).Some? then Signed(s)
    else Prefixed(s)
  }

  /** The units that an amount stands for on the live ledger. */
  function Units(amount: string): int {
    var n := JsBigInt(amount);
    if n.Some? then n.value else 0
  }

  /** `new(big.Int).SetString(text, 10)` */
  function GoBigInt(text: string): Option<int> {
    Signed(text)
  }

  /** `amountOf`: an absent or non-decimal amount folds as zero. */
  function AmountOf(field: Option<string>): (n: int)
    ensures n >= 0
  {
    if field.Some? && IsDecimal(field.value) then Value(10, field.value) else 0
  }

  /** Whatever Go accepts, JavaScript accepts with the same value. */
  lemma {:induction false} GoReadsLessThanJs(text: string)
    requires GoBigInt(text).Some?
    ensures JsBigInt(text) == GoBigInt(text)
  {
  }

  /** Among amounts the live ledger accepts, the folds read the same value exactly for plain decimals. */
  lemma {:induction false} FoldReadsAmountIff(text: string)
    requires JsBigInt(text).Some? && JsBigInt(text).value > 0
    ensures AmountOf(Some(text)) == JsBigInt(text).value <==> IsDecimal(text)
  {
  }

  /** "0x10" and " 7" are amounts to JavaScript and not to the folds or to Go. */
  lemma {:induction false} NonDecimalAmounts()
    ensures JsBigInt("0x10") == Some(16) && AmountOf(Some("0x10")) == 0 && GoBigInt("0x10") == None
    ensures JsBigInt(" 7") == Some(7) && AmountOf(Some(" 7")) == 0 && GoBigInt(" 7") == None
  {
    var h := "0x10";
    assert TrimLeft(h) == h && TrimRight(h) == h;
    assert h[1..] == "x10" && !IsDecimal(h) by { assert DigitOf(h[1]) == 33; }
    assert h[2..] == "10" && "10"[..1] == "1" && "1"[..0] == "";
    assert Value(16, "1") == 1 && Value(16, "10") == 16;
    assert DigitsIn(16, h[2..]);
    var w := " 7";
    assert w[1..] == "7" && TrimLeft(w) == TrimLeft("7") == "7" && TrimRight("7") == "7";
    assert "7"[..0] == "" && Value(10, "7") == 7 && IsDecimal("7");
    assert DigitOf(w[0]) == 36;
  }

  // --- what the text of a number reads as ------------------------------------------------------

  function DigitChar(d: nat): (c: char)
    requires d < 16
    ensures DigitOf(c) == d
  {
    if d < 10 then ('0' as int + d) as char else ('a' as int + d - 10) as char
  }

  /** A number written out by repeated division, in a base up to sixteen. */
  function Written(base: nat, n: nat): (s: string)
    requires 2 <= base <= 16
    ensures s != ""
  {
    if n < base then [DigitChar(n)] else Written(base, n / base) + [DigitChar(n % base)]
  }

  lemma {:induction false} WrittenReads(base: nat, n: nat)
    requires 2 <= base <= 16
    ensures DigitsIn(base, Written(base, n)) && Value(base, Written(base, n)) == n
  {
    if n < base {
      assert Written(base, n)[..0] == "";
    } else {
      WrittenReads(base, n / base);
      var s := Written(base, n);
      assert s[..|s| - 1] == Written(base, n / base);
      DivideAgain(n, base);
    }
  }

  lemma {:induction false} DivideAgain(n: nat, d: nat)
    requires d > 0
    ensures n / d * d + n % d == n
  {
  }

  function ZeroDigits(k: nat): string {
    seq(k, _ => '0')
  }

  lemma {:induction false} LeadingZeros(base: nat, k: nat, s: string)
    requires 2 <= base && DigitsIn(base, s)
    ensures DigitsIn(base, ZeroDigits(k) + s) && Value(base, ZeroDigits(k) + s) == Value(base, s)
  {
    var z := ZeroDigits(k) + s;
    if |s| > 1 {
      LeadingZeros(base, k, s[..|s| - 1]);
      assert z[..|z| - 1] == ZeroDigits(k) + s[..|s| - 1];
    } else {
      ZerosAreNothing(base, k);
      assert z[..|z| - 1] == ZeroDigits(k) && s[..0] == "";
    }
  }

  lemma {:induction false} ZerosAreNothing(base: nat, k: nat)
    ensures Value(base, ZeroDigits(k)) == 0
  {
    if k > 0 {
      ZerosAreNothing(base, k - 1);
      assert ZeroDigits(k)[..k - 1] == ZeroDigits(k - 1);
    }
  }

  /** Digits are not white space, so that nothing is trimmed between spaces. */
  lemma {:induction false} TrimsTo(left: string, s: string, right: string)
    requires s != "" && !IsSpace(s[0]) && !IsSpace(s[|s| - 1])
    requires forall i :: 0 <= i < |left| ==> IsSpace(left[i])
    requires forall i :: 0 <= i < |right| ==> IsSpace(right[i])
    ensures TrimRight(TrimLeft(left + s + right)) == s
    decreases |left| + |right|
  {
    var all := left + s + right;
    hide IsSpace;
    if left != [] {
      assert all[1..] == left[1..] + s + right && all[0] == left[0];
      TrimsTo(left[1..], s, right);
    } else {
      assert all == s + right && all[0] == s[0] && TrimLeft(all) == all;
      TrimsRight(s, right);
    }
  }

  lemma {:induction false} TrimsRight(s: string, right: string)
    requires s != "" && !IsSpace(s[|s| - 1]) && forall i :: 0 <= i < |right| ==> IsSpace(right[i])
    ensures TrimRight(s + right) == s
  {
    hide IsSpace;
    if right == [] {
      assert s + right == s;
    } else {
      var all := s + right;
      assert all[..|all| - 1] == s + right[..|right| - 1] && all[|all| - 1] == right[|right| - 1];
      TrimsRight(s, right[..|right| - 1]);
    }
  }

  lemma {:induction false} DigitIsNoSpace(base: nat, c: char)
    requires base <= 16 && DigitOf(c) < base
    ensures !IsSpace(c) && c != '+' && c != '-'
  {
  }

  /** `n` in decimal, with `zeros` before it. */
  function InDecimal(zeros: nat, n: nat): (s: string)
    ensures s != ""
  {
    ZeroDigits(zeros) + Written(10, n)
  }

  predicate Blank(s: string) {
    forall i :: 0 <= i < |s| ==> IsSpace(s[i])
  }

  lemma {:induction false} SignedReads(text: string)
    requires IsDecimal(text)
    ensures
      var n: int := Value(10, text);
      Signed(text) == Some(n) && Signed("+" + text) == Some(n) && Signed("-" + text) == Some(-n)
  {
    hide Value;
    assert ("+" + text)[1..] == text && ("-" + text)[1..] == text;
    assert DigitOf(("+" + text)[0]) == 36 && DigitOf(("-" + text)[0]) == 36;
  }

  /** JavaScript's reading of a text by what is left of it between the spaces. */
  lemma {:induction false} JsReads(text: string, core: string)
    requires core != "" && TrimRight(TrimLeft(text)) == core
    ensures JsBigInt(text) == if Signed(core).Some? then Signed(core) else Prefixed(core)
  {
    hide TrimLeft, TrimRight, Signed, Prefixed;
  }

  lemma {:induction false} EndsInDigits(base: nat, text: string)
    requires base <= 16 && DigitsIn(base, text)
    ensures text != "" && !IsSpace(text[0]) && !IsSpace(text[|text| - 1])
  {
    DigitIsNoSpace(base, text[0]);
    DigitIsNoSpace(base, text[|text| - 1]);
  }

  /**
   * A number written in decimal, with any leading zeros, is read as that number by all
   * three: by JavaScript among spaces too, and by both languages under a sign.
   */
  lemma {:induction false} DecimalIsRead(zeros: nat, n: nat, left: string, right: string)
    requires Blank(left) && Blank(right)
    ensures
      var text, m: int := InDecimal(zeros, n), n;
      && IsDecimal(text) && AmountOf(Some(text)) == n
      && GoBigInt(text) == Some(m) && GoBigInt("+" + text) == Some(m) && GoBigInt("-" + text) == Some(-m)
      && JsBigInt(left + text + right) == Some(m) && JsBigInt(text) == Some(m)
      && JsBigInt("+" + text) == Some(m) && JsBigInt("-" + text) == Some(-m)
  {
    hide *;
    var text := InDecimal(zeros, n);
    InDecimalIs(zeros, n);
    JsReadsPlain(left, text, right);
    JsReadsBare(text);
    JsReadsSigned(text);
    FoldsRead(text);
    SignedReads(text);
    GoReads(text);
  }

  lemma {:induction false} JsReadsBare(text: string)
    requires IsDecimal(text)
    ensures JsBigInt(text) == Signed(text)
  {
    assert "" + text + "" == text && Blank("");
    hide *;
    JsReadsPlain("", text, "");
  }

  lemma {:induction false} InDecimalIs(zeros: nat, n: nat)
    ensures IsDecimal(InDecimal(zeros, n)) && Value(10, InDecimal(zeros, n)) == n
  {
    WrittenReads(10, n);
    LeadingZeros(10, zeros, Written(10, n));
    hide Written, ZeroDigits, Value, DigitsIn;
  }

  lemma {:induction false} FoldsRead(text: string)
    requires IsDecimal(text)
    ensures AmountOf(Some(text)) == Value(10, text)
  {
    hide IsDecimal, Value;
  }

  lemma {:induction false} GoReads(text: string)
    ensures GoBigInt(text) == Signed(text) && GoBigInt("+" + text) == Signed("+" + text)
    ensures GoBigInt("-" + text) == Signed("-" + text)
  {
    hide Signed;
  }

  lemma {:induction false} JsReadsPlain(left: string, text: string, right: string)
    requires Blank(left) && Blank(right) && IsDecimal(text)
    ensures JsBigInt(left + text + right) == Signed(text)
  {
    EndsInDigits(10, text);
    SignedReads(text);
    TrimsTo(left, text, right);
    hide *;
    JsReads(left + text + right, text);
  }

  lemma {:induction false} JsReadsSigned(text: string)
    requires IsDecimal(text)
    ensures JsBigInt("+" + text) == Signed("+" + text) && JsBigInt("-" + text) == Signed("-" + text)
  {
    EndsInDigits(10, text);
    SignsTrim(text);
    SignedReads(text);
    hide *;
    JsReads("+" + text, "+" + text);
    JsReads("-" + text, "-" + text);
  }

  lemma {:induction false} SignsTrim(text: string)
    requires text != "" && !IsSpace(text[|text| - 1])
    ensures TrimRight(TrimLeft("+" + text)) == "+" + text && TrimRight(TrimLeft("-" + text)) == "-" + text
  {
    assert !IsSpace('+') && !IsSpace('-');
    TrimsTo("", "+" + text, "");
    TrimsTo("", "-" + text, "");
    assert "" + ("+" + text) + "" == "+" + text && "" + ("-" + text) + "" == "-" + text;
  }

  /** The letters JavaScript takes for a base, in lower case or as capitals. */
  function BaseLetter(base: nat, capital: bool): char
    requires base in {2, 8, 16}
  {
    if base == 16 then (if capital then 'X' else 'x')
    else if base == 8 then (if capital then 'O' else 'o')
    else if capital then 'B' else 'b'
  }

  /** A number written in hexadecimal, octal or binary is read as that number by JavaScript and as nothing elsewhere. */
  lemma {:induction false} PrefixedIsRead(base: nat, capital: bool, zeros: nat, n: nat)
    requires base in {2, 8, 16}
    ensures
      var text := ['0', BaseLetter(base, capital)] + (ZeroDigits(zeros) + Written(base, n));
      JsBigInt(text) == Some(n) && AmountOf(Some(text)) == 0 && GoBigInt(text) == None
  {
    var digits := ZeroDigits(zeros) + Written(base, n);
    var text := ['0', BaseLetter(base, capital)] + digits;
    WrittenReads(base, n);
    LeadingZeros(base, zeros, Written(base, n));
    EndsInDigits(base, digits);
    hide Written, ZeroDigits, Value, IsSpace, TrimLeft, TrimRight, Signed, JsBigInt;
    assert text[|text| - 1] == digits[|digits| - 1] && text[0] == '0';
    DigitIsNoSpace(10, '0');
    TrimsTo("", text, "");
    assert "" + text + "" == text;
    BehindItsPrefix(base, capital, digits);
    JsReads(text, text);
  }

  lemma {:induction false} BehindItsPrefix(base: nat, capital: bool, digits: string)
    requires base in {2, 8, 16} && DigitsIn(base, digits)
    ensures
      var text := ['0', BaseLetter(base, capital)] + digits;
      Signed(text) == None && Prefixed(text) == Some(Value(base, digits)) && !IsDecimal(text)
  {
    hide Value;
    var text := ['0', BaseLetter(base, capital)] + digits;
    assert text[2..] == digits;
    assert DigitOf(text[1]) >= 10;
    assert text[1..][0] == text[1];
  }

  /** The white space that is trimmed, by code point. */
  lemma {:induction false} SpacesAre(c: char)
    ensures IsSpace(c) <==>
      var n := c as int;
      n in {9, 10, 11, 12, 13, 32, 160, 5760, 8232, 8233, 8239, 8287, 12288, 65279} || 8192 <= n <= 8202
  {
  }

  /** Text with nothing in it is zero to JavaScript, and nothing elsewhere. */
  lemma {:induction false} BlankIsZero(text: string)
    requires Blank(text)
    ensures JsBigInt(text) == Some(0) && AmountOf(Some(text)) == 0 && GoBigInt(text) == None
  {
    if text == "" {
      hide *;
      EmptyIsZero();
    } else {
      BlankIsZero(text[1..]);
      assert TrimLeft(text) == TrimLeft(text[1..]);
      assert IsSpace(text[0]);
      DigitIsNoSpace10(text[0]);
      hide TrimLeft, TrimRight, Value, IsSpace, Prefixed;
    }
  }

  lemma {:induction false} DigitIsNoSpace10(c: char)
    requires IsSpace(c)
    ensures DigitOf(c) >= 10 && c != '+' && c != '-'
  {
  }

  lemma {:induction false} EmptyIsZero()
    ensures JsBigInt("") == Some(0) && AmountOf(Some("")) == 0 && GoBigInt("") == None
  {
  }

  /** Capital digits are worth what small ones are. */
  lemma {:induction false} CapitalsReadAlike(base: nat, s: string, t: string)
    requires |s| == |t| && forall i :: 0 <= i < |s| ==>
      s[i] == t[i] || ('a' <= s[i] <= 'z' && t[i] as int == s[i] as int - 32)
    ensures Value(base, s) == Value(base, t) && (DigitsIn(base, s) <==> DigitsIn(base, t))
  {
    assert forall i :: 0 <= i < |s| ==> DigitOf(s[i]) == DigitOf(t[i]);
    SameDigits(base, s, t);
  }

  lemma {:induction false} SameDigits(base: nat, s: string, t: string)
    requires |s| == |t| && forall i :: 0 <= i < |s| ==> DigitOf(s[i]) == DigitOf(t[i])
    ensures Value(base, s) == Value(base, t)
  {
    if s != "" { SameDigits(base, s[..|s| - 1], t[..|t| - 1]); }
  }

  /** "12" is twelve, and "0xff" two hundred and fifty-five. */
  lemma {:induction false} TwelveAndFf()
    ensures InDecimal(0, 12) == "12" && ['0', BaseLetter(16, false)] + Written(16, 255) == "0xff"
    ensures JsBigInt("12") == Some(12) && JsBigInt("0xff") == Some(255)
  {
    assert Written(10, 12) == Written(10, 1) + ['2'] && Written(10, 1) == ['1'];
    assert Written(16, 255) == Written(16, 15) + ['f'] && Written(16, 15) == ['f'];
    DecimalIsRead(0, 12, "", "");
    PrefixedIsRead(16, false, 0, 255);
    assert ZeroDigits(0) + Written(16, 255) == Written(16, 255);
    hide Written, JsBigInt;
  }
}
