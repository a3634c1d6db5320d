/** Hexadecimal text: plain digits, and what `int(text, 16)` makes of any text. */
module HexText {
  import opened Wire

  function Digit(c: char): Option<nat> {
    if '0' <= c <= '9' then Some(c as int - '0' as int)
    else if 'a' <= c <= 'f' then Some(c as int - 'a' as int + 10)
    else if 'A' <= c <= 'F' then Some(c as int - 'A' as int + 10)
    else None
  }

  predicate IsHex(s: string) {
    forall i :: 0 <= i < |s| ==> Digit(s[i]).Some?
  }

  function Value(s: string): nat
    requires IsHex(s)
  {
    if s == "" then 0 else 16 * Value(s[..|s| - 1]) + Digit(s[|s| - 1]).value
  }

  /** The zeros of the scripts that have decimal digits of their own, as of Unicode 11. */
  const ZEROS := [
    0x0660, 0x06F0, 0x07C0, 0x0966, 0x09E6, 0x0A66, 0x0AE6, 0x0B66, 0x0BE6, 0x0C66,
    0x0CE6, 0x0D66, 0x0DE6, 0x0E50, 0x0ED0, 0x0F20, 0x1040, 0x1090, 0x17E0, 0x1810,
    0x1946, 0x19D0, 0x1A80, 0x1A90, 0x1B50, 0x1BB0, 0x1C40, 0x1C50, 0xA620, 0xA8D0,
    0xA900, 0xA9D0, 0xA9F0, 0xAA50, 0xABF0, 0xFF10, 0x104A0, 0x10D30, 0x11066, 0x110F0,
    0x11136, 0x111D0, 0x112F0, 0x11450, 0x114D0, 0x11650, 0x116C0, 0x11730, 0x118E0, 0x11C50,
    0x11D50, 0x11DA0, 0x16A60, 0x16B50, 0x1D7CE, 0x1D7D8, 0x1D7E2, 0x1D7EC, 0x1D7F6, 0x1E950]

  /** The blanks outside ASCII. */
  const BLANKS := [
    0x85, 0xA0, 0x1680, 0x2000, 0x2001, 0x2002, 0x2003, 0x2004, 0x2005, 0x2006, 0x2007, 0x2008, 0x2009, 0x200A,
    0x2028, 0x2029, 0x202F, 0x205F, 0x3000]

  function DigitFrom(zeros: seq<int>, n: int): Option<int> {
    if zeros == [] then None
    else if zeros[0] <= n < zeros[0] + 10 then Some(n - zeros[0])
    else DigitFrom(zeros[1..], n)
  }

  /** What `int` takes a character for: every script's digits are digits, every blank is a
      blank, and anything else outside ASCII is no part of a number. */
  function Taken(c: char): char {
    if (c as int) < 127 then c
    else if c as int in BLANKS then ' '
    else
      match DigitFrom(ZEROS, c as int)
      case Some(d) => if 0 <= d < 10 then '0' + d as char else '?'
      case None => '?'
  }

  function TakenText(s: string): (t: string)
    ensures |t| == |s| && forall i :: 0 <= i < |s| ==> t[i] == Taken(s[i])
  {
    if s == "" then "" else [Taken(s[0])] + TakenText(s[1..])
  }

  lemma TakenAsIs(s: string)
    requires forall i :: 0 <= i < |s| ==> (s[i] as int) < 127
    ensures TakenText(s) == s
  {
  }

  /** What may stand around a number: tab to carriage return, and blank. */
  predicate IsSpace(c: char) {
    c == ' ' || '\t' <= c <= '\r'
  }

  function Stripped(s: string): string {
    if s == "" then ""
    else if IsSpace(s[0]) then Stripped(s[1..])
    else if IsSpace(s[|s| - 1]) then Stripped(s[..|s| - 1])
    else s
  }

  /** The digits, with single underscores only between them. */
  function Plain(s: string): Option<string>
    decreases |s|
  {
    if s == "" || Digit(s[0]).None? then None
    else if |s| == 1 then Some(s)
    else
      match Plain(if s[1] == '_' then s[2..] else s[1..])
      case Some(rest) => Some([s[0]] + rest)
      case None => None
  }

  /** After the sign: 0x, which may be missing and may have an underscore, and the digits. */
  function Digits(s: string): string {
    if |s| < 2 || s[0] != '0' || (s[1] != 'x' && s[1] != 'X') then s
    else if |s| > 2 && s[2] == '_' then s[3..] else s[2..]
  }

  lemma {:induction false} PlainIsHex(s: string)
    ensures Plain(s).Some? ==> IsHex(Plain(s).value) && Plain(s).value != ""
    decreases |s|
  {
    if s != "" && Digit(s[0]).Some? && |s| > 1 {
      PlainIsHex(if s[1] == '_' then s[2..] else s[1..]);
    }
  }

  function Magnitude(s: string): Option<nat> {
    PlainIsHex(Digits(s));
    match Plain(Digits(s))
    case Some(d) => Some(Value(d))
    case None => None
  }

  function WithSign(m: Option<nat>, negative: bool): Option<int> {
    if m.None? then None
    else
      var v: int := m.value;
      Some(if negative then -v else v)
  }

  /** `int(text, 16)`, None where it raises. */
  function ParseHex(text: string): Option<int> {
    var s := Stripped(TakenText(text));
    if s != "" && (s[0] == '+' || s[0] == '-') then WithSign(Magnitude(s[1..]), s[0] == '-')
    else WithSign(Magnitude(s), false)
  }

  lemma {:induction false} LeadingZero(s: string)
    requires s != "" && IsHex(s) && s[0] == '0'
    ensures Value(s) == Value(s[1..])
  {
    if |s| == 1 {
      assert s[..0] == "" && s[1..] == "";
    } else {
      LeadingZero(s[..|s| - 1]);
      assert s[1..][..|s| - 2] == s[..|s| - 1][1..];
    }
  }

  lemma NotHexChars(c: char)
    requires Digit(c).Some?
    ensures !IsSpace(c) && c != '+' && c != '-' && c != '_' && c != 'x' && c != 'X' && (c as int) < 127
  {
  }

  lemma {:induction false} PlainOfHex(s: string)
    requires s != "" && IsHex(s)
    ensures Plain(s) == Some(s)
  {
    if |s| > 1 {
      NotHexChars(s[1]);
      PlainOfHex(s[1..]);
      assert s == [s[0]] + s[1..];
    }
  }

  lemma MagnitudeOfHex(s: string)
    requires s != "" && IsHex(s)
    ensures Magnitude(s) == Some(Value(s)) && Magnitude("0x" + s) == Some(Value(s))
  {
    PlainOfHex(s);
    if |s| > 1 {
      NotHexChars(s[1]);
    }
    NotHexChars(s[0]);
    assert ("0x" + s)[2..] == s && ("0x" + s)[2] == s[0];
  }

  lemma StrippedIs(s: string)
    requires s != "" && !IsSpace(s[0]) && !IsSpace(s[|s| - 1])
    ensures Stripped(s) == s
  {
  }

  lemma HexIsTaken(s: string)
    requires IsHex(s)
    ensures forall i :: 0 <= i < |s| ==> (s[i] as int) < 127
    ensures TakenText(s) == s
  {
    TakenAsIs(s);
  }

  /** Plain digits read as their value; */
  lemma HexReads(s: string)
    requires s != "" && IsHex(s)
    ensures ParseHex(s) == Some(Value(s))
  {
    NotHexChars(s[0]);
    NotHexChars(s[|s| - 1]);
    HexIsTaken(s);
    StrippedIs(s);
    MagnitudeOfHex(s);
  }

  lemma SignIsRead(t: string, sign: char)
    requires t != "" && !IsSpace(t[0]) && !IsSpace(t[|t| - 1]) && t[0] != '+' && t[0] != '-'
    requires (sign == '+' || sign == '-') && forall i :: 0 <= i < |t| ==> (t[i] as int) < 127
    ensures ParseHex(t) == WithSign(Magnitude(t), false)
    ensures ParseHex([sign] + t) == WithSign(Magnitude(t), sign == '-')
  {
    TakenAsIs(t);
    TakenAsIs([sign] + t);
    StrippedIs(t);
    StrippedIs([sign] + t);
    assert ([sign] + t)[1..] == t;
  }

  lemma SignIs(m: Option<nat>, v: nat, negative: bool)
    requires m == Some(v)
    ensures WithSign(m, negative) == Some(if negative then 0 - v else v)
  {
  }

  lemma SignedText(s: string, sign: char)
    requires s != "" && IsHex(s) && (sign == '+' || sign == '-')
    ensures ParseHex([sign] + s) == WithSign(Magnitude(s), sign == '-')
  {
    NotHexChars(s[0]);
    NotHexChars(s[|s| - 1]);
    HexIsTaken(s);
    SignIsRead(s, sign);
  }

  /** and so they do with a sign, or 0x, in front, or both. */
  lemma SignedReads(s: string, sign: char)
    requires s != "" && IsHex(s) && (sign == '+' || sign == '-')
    ensures sign == '+' ==> ParseHex([sign] + s) == Some(Value(s))
    ensures sign == '-' ==> ParseHex([sign] + s) == Some(0 - Value(s))
  {
    SignedText(s, sign);
    SignedMagnitude(s, s, sign == '-');
  }

  lemma SignedMagnitude(s: string, t: string, negative: bool)
    requires s != "" && IsHex(s) && (t == s || t == "0x" + s)
    ensures WithSign(Magnitude(t), negative) == Some(if negative then 0 - Value(s) else Value(s))
  {
    MagnitudeOfHex(s);
    SignIs(Magnitude(t), Value(s), negative);
  }

  lemma MarkedText(s: string, sign: char)
    requires s != "" && IsHex(s) && (sign == '+' || sign == '-')
    ensures ParseHex("0x" + s) == WithSign(Magnitude("0x" + s), false)
    ensures ParseHex([sign] + ("0x" + s)) == WithSign(Magnitude("0x" + s), sign == '-')
  {
    MarkedFits(s);
    SignIsRead("0x" + s, sign);
  }

  lemma MarkedReads(s: string, sign: char)
    requires s != "" && IsHex(s) && (sign == '+' || sign == '-')
    ensures ParseHex("0x" + s) == Some(Value(s))
    ensures sign == '+' ==> ParseHex([sign] + ("0x" + s)) == Some(Value(s))
    ensures sign == '-' ==> ParseHex([sign] + ("0x" + s)) == Some(0 - Value(s))
  {
    MarkedText(s, sign);
    SignedMagnitude(s, "0x" + s, false);
    SignedMagnitude(s, "0x" + s, sign == '-');
  }

  lemma MarkedFits(s: string)
    requires s != "" && IsHex(s)
    ensures var t := "0x" + s; t[0] == '0' && !IsSpace(t[|t| - 1]) && forall i :: 0 <= i < |t| ==> (t[i] as int) < 127
  {
    NotHexChars(s[|s| - 1]);
    HexIsTaken(s);
  }

  /** A plus sign in the place of a leading zero changes nothing. */
  lemma PlusForZero(s: string)
    requires |s| >= 2 && IsHex(s) && s[0] == '0'
    ensures ParseHex(s[0 := '+']) == ParseHex(s) == Some(Value(s))
  {
    LeadingZero(s);
    HexReads(s);
    SignedReads(s[1..], '+');
    assert s[0 := '+'] == ['+'] + s[1..];
  }

  /** Blanks around a text change nothing. */
  lemma BlanksAround(t: string, c: char)
    requires IsSpace(Taken(c))
    ensures ParseHex([c] + t) == ParseHex(t) && ParseHex(t + [c]) == ParseHex(t)
  {
    assert TakenText([c] + t) == [Taken(c)] + TakenText(t);
    assert TakenText(t + [c]) == TakenText(t) + [Taken(c)];
    assert ([Taken(c)] + TakenText(t))[1..] == TakenText(t);
    BlankBehind(TakenText(t), Taken(c));
  }

  lemma {:induction false} BlankBehind(t: string, c: char)
    requires IsSpace(c)
    ensures Stripped(t + [c]) == Stripped(t)
  {
    if t == "" {
      assert (t + [c])[1..] == t;
    } else if IsSpace(t[0]) {
      assert (t + [c])[1..] == t[1..] + [c];
      BlankBehind(t[1..], c);
    } else {
      assert (t + [c])[..|t|] == t;
    }
  }

  /** Blanks are tab to carriage return, and the blank. */
  lemma BlanksAre(c: char)
    ensures IsSpace(c) <==> c as int in [9, 10, 11, 12, 13, 32]
  {
  }

  // ---- The digits themselves, and underscores between them ------------------------------

  const LOWER := "0123456789abcdef"
  const UPPER := "0123456789ABCDEF"

  /** The value of a digit is its place in the row of digits, in either case. */
  lemma DigitIs(c: char, d: nat)
    requires d < 16
    ensures Digit(c) == Some(d) <==> c == LOWER[d] || c == UPPER[d]
    ensures Digit(c).Some? ==> Digit(c).value < 16
  {
  }

  /** One digit more: sixteen times the value and the digit. */
  lemma ValueMore(s: string, c: char, d: nat)
    requires IsHex(s) && d < 16 && (c == LOWER[d] || c == UPPER[d])
    ensures Value("") == 0 && IsHex(s + [c]) && Value(s + [c]) == 16 * Value(s) + d
  {
    DigitIs(c, d);
    var t := s + [c];
    assert t[..|t| - 1] == s && t[|t| - 1] == c;
    assert forall i :: 0 <= i < |t| ==> t[i] == if i < |s| then s[i] else c;
  }

  /** Digits at both ends, and in between digits and underscores that stand alone. */
  predicate Spaced(s: string) {
    s != "" && Digit(s[0]).Some? && Digit(s[|s| - 1]).Some? && forall i :: 0 < i < |s| - 1 ==> Inside(s, i)
  }

  predicate Inside(s: string, i: nat)
    requires i < |s| - 1
  {
    Digit(s[i]).Some? || (s[i] == '_' && s[i + 1] != '_')
  }

  function Bare(s: string): string {
    if s == "" then "" else (if s[0] == '_' then "" else [s[0]]) + Bare(s[1..])
  }

  /** Which texts are digits to `int`, and which digits they are. */
  lemma {:induction false} PlainIff(s: string)
    ensures Plain(s).Some? <==> Spaced(s)
    ensures Plain(s).Some? ==> Plain(s).value == Bare(s)
    decreases |s|
  {
    if s == "" || Digit(s[0]).None? {
    } else if |s| == 1 {
      assert Bare(s[1..]) == "";
    } else {
      var rest := if s[1] == '_' then s[2..] else s[1..];
      PlainIff(rest);
      NotHexChars(s[0]);
      SpacedRest(s);
      assert s[1..][1..] == s[2..];
    }
  }

  lemma SpacedRest(s: string)
    requires |s| >= 2 && Digit(s[0]).Some?
    ensures Spaced(s) <==> Spaced(if s[1] == '_' then s[2..] else s[1..])
  {
    var k := if s[1] == '_' then 2 else 1;
    var r := s[k..];
    assert forall i :: 0 <= i < |r| - 1 ==> (Inside(r, i) <==> Inside(s, i + k));
    if Spaced(s) {
      assert |s| > 2 ==> Inside(s, 1);
      assert |s| > 3 ==> Inside(s, 2);
    } else if Spaced(r) {
      forall i | 0 < i < |s| - 1 ensures Inside(s, i) {
        assert i > k ==> Inside(r, i - k);
      }
    }
  }

  predicate Ordinary(c: char) {
    !IsSpace(c) && c != '+' && c != '-' && c != 'x' && c != 'X' && (c as int) < 127
  }

  lemma OrdinaryReads(s: string)
    requires forall i :: 0 <= i < |s| ==> Ordinary(s[i])
    ensures ParseHex(s) == WithSign(Magnitude(s), false) && Digits(s) == s
  {
    if s == "" {
      TakenAsIs(s);
    } else {
      assert Ordinary(s[0]) && Ordinary(s[|s| - 1]);
      SignIsRead(s, '+');
    }
  }

  lemma PlainReads(s: string)
    requires ParseHex(s) == WithSign(Magnitude(s), false) && Digits(s) == s
    ensures Plain(s).Some? ==> IsHex(Plain(s).value) && ParseHex(s) == Some(Value(Plain(s).value))
    ensures Plain(s).None? ==> ParseHex(s) == None
  {
    PlainIsHex(s);
  }

  predicate Underscored(s: string) {
    forall i :: 0 <= i < |s| ==> s[i] == '_' || Digit(s[i]).Some?
  }

  lemma UnderscoredIsOrdinary(s: string)
    requires Underscored(s)
    ensures ParseHex(s) == WithSign(Magnitude(s), false) && Digits(s) == s
  {
    forall i | 0 <= i < |s| ensures Ordinary(s[i]) {
      if s[i] != '_' {
        NotHexChars(s[i]);
      }
    }
    OrdinaryReads(s);
  }

  /** A text of digits and underscores reads exactly if every underscore stands alone between
      digits, and then as if it had none. */
  lemma UnderscoresRead(s: string)
    requires Underscored(s)
    ensures Spaced(s) ==> IsHex(Bare(s)) && ParseHex(s) == Some(Value(Bare(s)))
    ensures !Spaced(s) ==> ParseHex(s) == None
  {
    UnderscoredIsOrdinary(s);
    PlainReads(s);
    PlainIff(s);
  }

  /** The digits of other scripts are digits: each script's ten lie behind its zero. */
  lemma {:induction false} DigitsBehind(zeros: seq<int>, i: nat, d: nat)
    requires i < |zeros| && d < 10 && forall j :: 0 <= j < i ==> zeros[j] + 10 <= zeros[i]
    ensures DigitFrom(zeros, zeros[i] + d) == Some(d)
    decreases i
  {
    if i > 0 {
      DigitsBehind(zeros[1..], i - 1, d);
    }
  }
}
