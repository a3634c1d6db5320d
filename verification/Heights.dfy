/** Heights as the status messages carry them: decimal text, compared as text. */
module Heights {
  import opened Wire
  import opened HexText

  function DigitChar(d: int): char
    requires 0 <= d < 10
  {
    '0' + d as char
  }

  function Dec(n: nat): string {
    if n < 10 then [DigitChar(n)] else Dec(n / 10) + [DigitChar(n % 10)]
  }

  predicate IsDec(s: string) {
    forall i :: 0 <= i < |s| ==> '0' <= s[i] <= '9'
  }

  function DecValue(s: string): nat
    requires IsDec(s)
  {
    if s == "" then 0 else 10 * DecValue(s[..|s| - 1]) + (s[|s| - 1] as int - '0' as int)
  }

  /** `int(text)`, None where it raises. */
  function ParseDec(text: string): Option<int> {
    var s := Stripped(TakenText(text));
    if s != "" && (s[0] == '+' || s[0] == '-') then WithSign(DecMagnitude(s[1..]), s[0] == '-')
    else WithSign(DecMagnitude(s), false)
  }

  function DecMagnitude(s: string): Option<nat> {
    match Plain(s)
    case Some(d) => if IsDec(d) then Some(DecValue(d)) else None
    case None => None
  }

  lemma {:induction false} DecIsDec(n: nat)
    ensures Dec(n) != "" && IsDec(Dec(n)) && DecValue(Dec(n)) == n
  {
    if n < 10 {
      assert Dec(n)[..0] == "";
      assert DecValue(Dec(n)[..0]) == 0;
    } else {
      DecIsDec(n / 10);
      assert Dec(n)[..|Dec(n)| - 1] == Dec(n / 10);
    }
  }

  lemma DecIsHex(s: string)
    requires IsDec(s)
    ensures IsHex(s)
  {
  }

  lemma DecIsPlain(s: string)
    requires s != "" && IsDec(s)
    ensures !IsSpace(s[0]) && !IsSpace(s[|s| - 1]) && s[0] != '+' && s[0] != '-' && TakenText(s) == s
    ensures DecMagnitude(s) == Some(DecValue(s))
  {
    DecIsHex(s);
    HexIsTaken(s);
    NotHexChars(s[0]);
    NotHexChars(s[|s| - 1]);
    PlainOfHex(s);
  }

  /** Decimal digits read as their value; */
  lemma DecReads(s: string)
    requires s != "" && IsDec(s)
    ensures ParseDec(s) == Some(DecValue(s))
  {
    DecIsPlain(s);
    StrippedIs(s);
  }

  /** and so they do with a sign. */
  lemma SignedDecReads(s: string, sign: char)
    requires s != "" && IsDec(s) && (sign == '+' || sign == '-')
    ensures ParseDec([sign] + s) == Some(if sign == '-' then 0 - DecValue(s) else DecValue(s))
  {
    DecIsPlain(s);
    SignedDecText(s, sign);
    SignIs(DecMagnitude(s), DecValue(s), sign == '-');
  }

  lemma SignedDecText(s: string, sign: char)
    requires s != "" && !IsSpace(s[|s| - 1]) && TakenText(s) == s && (sign == '+' || sign == '-')
    ensures ParseDec([sign] + s) == WithSign(DecMagnitude(s), sign == '-')
  {
    var t := [sign] + s;
    assert t[1..] == s && TakenText(t) == t;
    StrippedIs(t);
  }

  /** A height is read back as it was written. */
  lemma ReadsBack(n: nat)
    ensures ParseDec(Dec(n)) == Some(n)
  {
    DecIsDec(n);
    DecReads(Dec(n));
  }

  /** `a < b` on strings. */
  predicate TextLess(a: string, b: string) {
    b != "" && (a == "" || a[0] < b[0] || (a[0] == b[0] && TextLess(a[1..], b[1..])))
  }

  function Pow10(k: nat): (p: nat)
    ensures p > 0
  {
    if k == 0 then 1 else 10 * Pow10(k - 1)
  }

  /** Adding one character to each of two texts of one length. */
  lemma {:induction false} LessLast(a: string, b: string, c: char, d: char)
    requires |a| == |b|
    ensures TextLess(a + [c], b + [d]) <==> TextLess(a, b) || (a == b && c < d)
  {
    if a == "" {
      assert a + [c] == [c] && b + [d] == [d];
    } else {
      assert (a + [c])[1..] == a[1..] + [c] && (b + [d])[1..] == b[1..] + [d];
      LessLast(a[1..], b[1..], c, d);
      assert a == b <==> a[0] == b[0] && a[1..] == b[1..] by {
        assert a == [a[0]] + a[1..] && b == [b[0]] + b[1..];
      }
    }
  }

  /** Among numbers of one length the texts are ordered as the numbers are. */
  lemma {:induction false} SameLength(a: nat, b: nat)
    requires |Dec(a)| == |Dec(b)|
    ensures Dec(a) == Dec(b) <==> a == b
    ensures TextLess(Dec(a), Dec(b)) <==> a < b
  {
    if a < 10 {
      assert Dec(b)[0] == DigitChar(b % 10);
    } else {
      SameLength(a / 10, b / 10);
      LessLast(Dec(a / 10), Dec(b / 10), DigitChar(a % 10), DigitChar(b % 10));
      assert Dec(a) == Dec(b) <==> Dec(a / 10) == Dec(b / 10) && a % 10 == b % 10 by {
        assert Dec(a)[..|Dec(a)| - 1] == Dec(a / 10) && Dec(b)[..|Dec(b)| - 1] == Dec(b / 10);
      }
    }
  }

  lemma {:induction false} DecSome(n: nat)
    ensures |Dec(n)| >= 1 && (n >= 10 ==> |Dec(n)| >= 2)
  {
    if n >= 10 {
      DecSome(n / 10);
    }
  }

  lemma {:induction false} DecLength(a: nat, b: nat)
    requires a <= b
    ensures |Dec(a)| <= |Dec(b)|
  {
    if b >= 10 {
      if a >= 10 {
        DecLength(a / 10, b / 10);
      }
    }
  }

  /** A number's text without its last k digits is the text of the number without them. */
  lemma {:induction false} DecPrefix(n: nat, k: nat)
    requires k < |Dec(n)|
    ensures n / Pow10(k) >= 0 && Dec(n)[..|Dec(n)| - k] == Dec(n / Pow10(k))
  {
    if k == 0 {
      assert Dec(n)[..|Dec(n)|] == Dec(n);
    } else {
      assert n >= 10;
      DecPrefix(n / 10, k - 1);
      DivTwice(n, Pow10(k - 1));
      assert Dec(n)[..|Dec(n)| - k] == Dec(n / 10)[..|Dec(n / 10)| - (k - 1)];
    }
  }

  lemma DivTwice(n: nat, p: nat)
    requires p > 0
    ensures n / 10 / p == n / (10 * p)
  {
    var q := n / 10 / p;
    var r := n / 10 - q * p;
    var s := n - n / 10 * 10;
    assert n == q * (10 * p) + (r * 10 + s) by {
      assert (q * p + r) * 10 == q * (10 * p) + r * 10;
    }
    assert 0 <= r * 10 + s < 10 * p;
    DivUnique(n, 10 * p, q, r * 10 + s);
  }

  lemma AtLeastOnce(x: int, d: int)
    requires x >= 1 && d > 0
    ensures x * d >= d
  {
    assert x * d == (x - 1) * d + d;
    assert (x - 1) * d >= 0;
  }

  lemma AtMostOnce(x: int, d: int)
    requires x <= -1 && d > 0
    ensures x * d <= -d
  {
    assert x * d == (x + 1) * d - d;
    assert (x + 1) * d <= 0;
  }

  lemma DivUnique(n: nat, d: nat, q: nat, r: nat)
    requires d > 0 && r < d && n == q * d + r
    ensures n / d == q
  {
    var x := n / d - q;
    var y := r - n % d;
    assert x * d == y by {
      assert n == n / d * d + n % d;
      assert x * d == n / d * d - q * d;
    }
    if x >= 1 {
      AtLeastOnce(x, d);
    } else if x <= -1 {
      AtMostOnce(x, d);
    }
  }

  lemma {:induction false} LessOnPrefix(a: string, b: string)
    requires |a| < |b|
    ensures TextLess(a, b) <==> a == b[..|a|] || TextLess(a, b[..|a|])
    ensures TextLess(b, a) <==> TextLess(b[..|a|], a)
  {
    if a != "" {
      LessOnPrefix(a[1..], b[1..]);
      assert b[..|a|][1..] == b[1..][..|a[1..]|];
      assert a == [a[0]] + a[1..] && b[..|a|] == [b[0]] + b[..|a|][1..];
    }
  }

  /** The order of two numbers' texts, given the higher one's leading digits. */
  lemma OrderByLead(a: nat, b: nat, lead: nat)
    requires |Dec(a)| <= |Dec(b)| && Dec(b)[..|Dec(a)|] == Dec(lead)
    requires |Dec(a)| == |Dec(b)| ==> a < b
    ensures TextLess(Dec(a), Dec(b)) <==> a <= lead
    ensures TextLess(Dec(b), Dec(a)) <==> !TextLess(Dec(a), Dec(b))
  {
    SameLength(a, lead);
    SameLength(lead, a);
    if |Dec(a)| < |Dec(b)| {
      LessOnPrefix(Dec(a), Dec(b));
    } else {
      assert Dec(b)[..|Dec(b)|] == Dec(b);
    }
  }

  /** The text of the lower height is the smaller text exactly when the lower height is not
      above the leading digits of the higher one. With as many digits in both it always is. */
  lemma TextOrder(a: nat, b: nat)
    requires a < b
    ensures |Dec(a)| <= |Dec(b)|
    ensures TextLess(Dec(a), Dec(b)) <==> a <= b / Pow10(|Dec(b)| - |Dec(a)|)
    ensures TextLess(Dec(b), Dec(a)) <==> !TextLess(Dec(a), Dec(b))
  {
    DecLength(a, b);
    DecSome(a);
    var k := |Dec(b)| - |Dec(a)|;
    DecPrefix(b, k);
    OrderByLead(a, b, b / Pow10(k));
  }

  /** A node at height 9 takes a node at height 10 to be behind. */
  lemma NineAndTen()
    ensures TextLess(Dec(10), Dec(9)) && !TextLess(Dec(9), Dec(10))
  {
    assert Dec(10) == "10" && Dec(9) == "9";
  }
}
