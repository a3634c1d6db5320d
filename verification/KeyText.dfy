/** crypto.py: the uncompressed public key as text, and back. A coordinate takes `n`
    bytes; for the curve the program uses n is 32. */
module KeyText {
  import opened Wire
  import opened HexText

  type Byte = x: int | 0 <= x < 256

  datatype Parsed = Point(x: int, y: int) | WrongLength(length: int) | NotHex

  function LowerDigit(d: int): char
    requires 0 <= d < 16
  {
    if d < 10 then '0' + d as char else 'a' + (d - 10) as char
  }

  predicate IsLowerHex(s: string) {
    forall i :: 0 <= i < |s| ==> Digit(s[i]).Some? && !('A' <= s[i] <= 'F')
  }

  function Pow256(n: nat): nat {
    if n == 0 then 1 else 256 * Pow256(n - 1)
  }

  /** The last n bytes of a number, most significant first. */
  function ToBytes(x: nat, n: nat): (bs: seq<Byte>)
    ensures |bs| == n
  {
    if n == 0 then [] else ToBytes(x / 256, n - 1) + [x % 256]
  }

  /** binascii.hexlify: two lower-case digits a byte. */
  function Hexlify(bs: seq<Byte>): (s: string)
    ensures |s| == 2 * |bs|
  {
    if bs == [] then ""
    else Hexlify(bs[..|bs| - 1]) + [LowerDigit(bs[|bs| - 1] / 16), LowerDigit(bs[|bs| - 1] % 16)]
  }

  /** priv2pub, from the coordinates of the key on. */
  function PubText(x: nat, y: nat, n: nat): string {
    "04" + Hexlify(ToBytes(x, n) + ToBytes(y, n))
  }

  /** pub2vkey: the first two characters are dropped unread, the rest is cut in half. */
  function Pub2Vkey(pub: string, n: nat): Parsed {
    var key := if |pub| <= 2 then "" else pub[2..];
    var l := |key|;
    if l != 4 * n then WrongLength(l)
    else
      match (ParseHex(key[..l / 2]), ParseHex(key[l / 2..]))
      case (Some(x), Some(y)) => Point(x, y)
      case _ => NotHex
  }

  /** The length handling at the start of pub2addr. */
  function Prefixed(key: string, n: nat): string {
    if |key| == 4 * n then "04" + key else key
  }

  // ---- One coordinate ---------------------------------------------------------------

  lemma LowerDigitBack(d: int)
    requires 0 <= d < 16
    ensures Digit(LowerDigit(d)) == Some(d) && !('A' <= LowerDigit(d) <= 'F')
  {
  }

  lemma DigitBack(c: char)
    requires Digit(c).Some? && !('A' <= c <= 'F')
    ensures Digit(c).value < 16 && LowerDigit(Digit(c).value) == c
  {
  }

  lemma {:induction false} HexlifyIsHex(bs: seq<Byte>)
    ensures IsLowerHex(Hexlify(bs)) && IsHex(Hexlify(bs))
  {
    if bs != [] {
      HexlifyIsHex(bs[..|bs| - 1]);
      LowerDigitBack(bs[|bs| - 1] / 16);
      LowerDigitBack(bs[|bs| - 1] % 16);
    }
  }

  lemma {:induction false} HexlifyAppend(a: seq<Byte>, b: seq<Byte>)
    ensures Hexlify(a + b) == Hexlify(a) + Hexlify(b)
  {
    if b == [] {
      assert a + b == a;
    } else {
      assert (a + b)[..|a + b| - 1] == a + b[..|b| - 1];
      HexlifyAppend(a, b[..|b| - 1]);
    }
  }

  /** Two digits more are one byte more. */
  lemma ValueOfTwo(s: string, c: char, d: char)
    requires IsHex(s) && Digit(c).Some? && Digit(d).Some?
    ensures IsHex(s + [c, d]) && Value(s + [c, d]) == 256 * Value(s) + 16 * Digit(c).value + Digit(d).value
  {
    var t := s + [c, d];
    assert t[..|t| - 1] == s + [c];
    assert (s + [c])[..|s + [c]| - 1] == s;
    assert forall i :: 0 <= i < |t| ==> t[i] == if i < |s| then s[i] else if i == |s| then c else d;
  }

  lemma {:induction false} FieldBack(x: nat, n: nat)
    requires x < Pow256(n)
    ensures IsHex(Hexlify(ToBytes(x, n))) && Value(Hexlify(ToBytes(x, n))) == x
  {
    var bs := ToBytes(x, n);
    HexlifyIsHex(bs);
    if n > 0 {
      FieldBack(x / 256, n - 1);
      var b := x % 256;
      assert bs[..n - 1] == ToBytes(x / 256, n - 1);
      LowerDigitBack(b / 16);
      LowerDigitBack(b % 16);
      ValueOfTwo(Hexlify(bs[..n - 1]), LowerDigit(b / 16), LowerDigit(b % 16));
    }
  }

  /** Every lower-case field of 2n digits is the field of the number it reads as. */
  lemma {:induction false} FieldIsOwn(s: string, n: nat)
    requires |s| == 2 * n && IsLowerHex(s)
    ensures IsHex(s) && Value(s) < Pow256(n) && Hexlify(ToBytes(Value(s), n)) == s
  {
    if n > 0 {
      var head, c, d := s[..2 * n - 2], s[2 * n - 2], s[2 * n - 1];
      assert s == head + [c, d];
      FieldIsOwn(head, n - 1);
      DigitBack(c);
      DigitBack(d);
      ValueOfTwo(head, c, d);
      var low := 16 * Digit(c).value + Digit(d).value;
      assert low < 256 && low / 16 == Digit(c).value && low % 16 == Digit(d).value;
      assert Value(s) / 256 == Value(head) && Value(s) % 256 == low;
      var bs := ToBytes(Value(s), n);
      assert bs[..n - 1] == ToBytes(Value(head), n - 1);
    }
  }

  // ---- The key --------------------------------------------------------------------------

  lemma PubHalves(x: nat, y: nat, n: nat)
    ensures
      var pub := PubText(x, y, n);
      && |pub| == 2 + 4 * n
      && pub[2..2 + 2 * n] == Hexlify(ToBytes(x, n)) && pub[2 + 2 * n..] == Hexlify(ToBytes(y, n))
  {
    HexlifyAppend(ToBytes(x, n), ToBytes(y, n));
    Halves(Hexlify(ToBytes(x, n)), Hexlify(ToBytes(y, n)));
  }

  lemma Halves(a: string, b: string)
    ensures var s := "04" + (a + b); s[2..2 + |a|] == a && s[2 + |a|..] == b
  {
  }

  lemma PubIsFields(x: nat, y: nat, n: nat)
    ensures
      var pub := PubText(x, y, n);
      |pub| == 2 + 4 * n && IsHex(pub) && IsHex(pub[2..2 + 2 * n]) && IsHex(pub[2 + 2 * n..])
  {
    HexlifyIsHex(ToBytes(x, n) + ToBytes(y, n));
  }

  /** What pub2vkey reads out of a key of the right length: the two halves of the rest, as
      `int` reads them. */
  lemma ReadsFields(pub: string, n: nat)
    requires n > 0 && |pub| == 2 + 4 * n
    ensures
      var a, b := ParseHex(pub[2..2 + 2 * n]), ParseHex(pub[2 + 2 * n..]);
      Pub2Vkey(pub, n) == if a.Some? && b.Some? then Point(a.value, b.value) else NotHex
  {
    var key := pub[2..];
    assert key[..2 * n] == pub[2..2 + 2 * n];
    assert key[2 * n..] == pub[2 + 2 * n..];
    assert |key| / 2 == 2 * n;
  }

  /** Plain digits read as their value. */
  lemma ReadsPlain(pub: string, n: nat)
    requires n > 0 && |pub| == 2 + 4 * n
    ensures
      var a, b := pub[2..2 + 2 * n], pub[2 + 2 * n..];
      IsHex(a) && IsHex(b) ==> Pub2Vkey(pub, n) == Point(Value(a), Value(b))
  {
    var a, b := pub[2..2 + 2 * n], pub[2 + 2 * n..];
    ReadsFields(pub, n);
    if IsHex(a) && IsHex(b) {
      HexReads(a);
      HexReads(b);
    }
  }

  /** Section 2.3.3 and 2.3.4 of SEC 1, uncompressed form: writing and reading back. */
  lemma PubRoundTrip(x: nat, y: nat, n: nat)
    requires n > 0 && x < Pow256(n) && y < Pow256(n)
    ensures |PubText(x, y, n)| == 2 + 4 * n && Pub2Vkey(PubText(x, y, n), n) == Point(x, y)
  {
    var pub := PubText(x, y, n);
    PubHalves(x, y, n);
    FieldBack(x, n);
    FieldBack(y, n);
    ReadsPlain(pub, n);
  }

  lemma PrefixDecides(pub: string)
    requires |pub| >= 2
    ensures "04" + pub[2..] == pub <==> pub[..2] == "04"
  {
    assert pub == pub[..2] + pub[2..];
    assert ("04" + pub[2..])[..2] == "04";
  }

  lemma WriteBack(a: string, b: string, n: nat)
    requires |a| == |b| == 2 * n && IsLowerHex(a) && IsLowerHex(b)
    ensures IsHex(a) && IsHex(b) && Value(a) < Pow256(n) && Value(b) < Pow256(n)
    ensures PubText(Value(a), Value(b), n) == "04" + (a + b)
  {
    FieldIsOwn(a, n);
    FieldIsOwn(b, n);
    HexlifyAppend(ToBytes(Value(a), n), ToBytes(Value(b), n));
  }

  /** Reading and writing back: a lower-case key of the right length always reads, and is
      written back as it was exactly if it carried the prefix that reading ignores. */
  lemma ReadThenWrite(pub: string, n: nat)
    requires n > 0 && |pub| == 2 + 4 * n && IsLowerHex(pub)
    ensures
      var r := Pub2Vkey(pub, n);
      && r.Point? && 0 <= r.x < Pow256(n) && 0 <= r.y < Pow256(n)
      && PubText(r.x, r.y, n) == "04" + pub[2..]
      && (PubText(r.x, r.y, n) == pub <==> pub[..2] == "04")
  {
    ReadsPlain(pub, n);
    Rewritten(pub, n);
  }

  lemma Rewritten(pub: string, n: nat)
    requires |pub| == 2 + 4 * n && IsLowerHex(pub)
    ensures
      var a, b := pub[2..2 + 2 * n], pub[2 + 2 * n..];
      && IsHex(a) && IsHex(b) && Value(a) < Pow256(n) && Value(b) < Pow256(n)
      && PubText(Value(a), Value(b), n) == "04" + pub[2..]
      && ("04" + pub[2..] == pub <==> pub[..2] == "04")
  {
    var a, b := pub[2..2 + 2 * n], pub[2 + 2 * n..];
    assert IsLowerHex(a) && IsLowerHex(b);
    WriteBack(a, b, n);
    assert pub[2..] == a + b;
    PrefixDecides(pub);
  }

  lemma LowerJoin(a: string, b: string)
    requires IsLowerHex(a) && IsLowerHex(b)
    ensures IsLowerHex(a + b)
  {
  }

  lemma WrittenIsLower(x: nat, y: nat, n: nat)
    ensures PubText(x, y, n)[..2] == "04" && IsLowerHex(PubText(x, y, n)[2..])
  {
    HexlifyIsHex(ToBytes(x, n) + ToBytes(y, n));
    assert PubText(x, y, n)[2..] == Hexlify(ToBytes(x, n) + ToBytes(y, n));
  }

  /** Of all the texts that read as a key, exactly the one a node writes is written back
      unchanged: the prefix "04" and lower-case digits. */
  lemma WrittenBackIff(pub: string, n: nat)
    requires n > 0 && Pub2Vkey(pub, n).Point?
    requires 0 <= Pub2Vkey(pub, n).x < Pow256(n) && 0 <= Pub2Vkey(pub, n).y < Pow256(n)
    ensures PubText(Pub2Vkey(pub, n).x, Pub2Vkey(pub, n).y, n) == pub <==> pub[..2] == "04" && IsLowerHex(pub[2..])
  {
    var r := Pub2Vkey(pub, n);
    WrittenIsLower(r.x, r.y, n);
    if pub[..2] == "04" && IsLowerHex(pub[2..]) {
      LowerJoin(pub[..2], pub[2..]);
      assert pub == pub[..2] + pub[2..];
      ReadThenWrite(pub, n);
    }
  }

  /** A key of any other length is refused. */
  lemma ReadsOnlyFullLength(pub: string, n: nat)
    requires n > 0
    ensures Pub2Vkey(pub, n).WrongLength? <==> |pub| != 2 + 4 * n
  {
  }

  /** pub2addr hashes the same text for a key with and without its prefix. */
  lemma PrefixIsOptional(x: nat, y: nat, n: nat)
    requires n > 0
    ensures
      var pub := PubText(x, y, n);
      Prefixed(pub, n) == pub && Prefixed(pub[2..], n) == pub
  {
    var pub := PubText(x, y, n);
    assert pub == "04" + pub[2..];
  }
}
