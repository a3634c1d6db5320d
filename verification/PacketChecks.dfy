/** Packet.verify: the three ways it can end, and which of them refuses a packet. */
module PacketChecks {
  import opened Wire
  import opened HexText
  import KeyText

  /** The fields verify looks at. A missing one is empty; a node record may lack its ID. */
  datatype Signed = Signed(ctrl: string, node: Option<Option<string>>, pubkey: string, signature: string, data: string)

  /** verify returns None, or False, or raises. Its callers only look for an exception. */
  datatype Verdict = Passed | Failed | Raised

  predicate Complete(p: Signed) {
    p.ctrl != "" && p.node.Some? && p.pubkey != "" && p.signature != "" && p.data != ""
  }

  /** `answers`: the library part of verifydata returns, with whatever answer, which nobody
      reads. `address`: what the library makes of the key's bytes. */
  function Verify(p: Signed, n: nat, answers: bool, address: string -> string): Verdict {
    Checked(p, KeyText.Pub2Vkey(p.pubkey, n).Point?, answers, KeyText.Prefixed(p.pubkey, n), address)
  }

  /** `known`: the key is that of a point. `key`: the text that is hashed. */
  function Checked(p: Signed, known: bool, answers: bool, key: string, address: string -> string): Verdict {
    if !Complete(p) then Failed
    else if !known || !answers then Failed
    else if !IsHex(key) then Raised  // unhexlify
    else match p.node.value
      case None => Raised            // KeyError
      case Some(id) => if address(key) == id then Passed else Failed
  }

  lemma CheckedIs(p: Signed, known: bool, answers: bool, key: string, address: string -> string)
    ensures
      var whole := p.ctrl != "" && p.pubkey != "" && p.signature != "" && p.data != "" && known && answers;
      var v := Checked(p, known, answers, key, address);
      && (v.Raised? <==> whole && p.node.Some? && (!IsHex(key) || p.node.value.None?))
      && (v.Passed? <==> whole && IsHex(key) && p.node == Some(Some(address(key))))
  {
  }

  /** A key that reads is hashed as it is. */
  lemma HashedAsIs(pub: string, n: nat)
    requires n > 0 && KeyText.Pub2Vkey(pub, n).Point?
    ensures KeyText.Prefixed(pub, n) == pub
  {
    KeyText.ReadsOnlyFullLength(pub, n);
  }

  /** A packet is refused exactly when it is complete, its key reads and the library answers,
      but the key is not hexadecimal digits throughout or the record has no ID. In particular
      a wrong signature, a wrong ID or a missing field does not refuse it. */
  lemma RefusedIff(p: Signed, n: nat, answers: bool, address: string -> string)
    requires n > 0
    ensures Verify(p, n, answers, address).Raised? <==>
            && p.ctrl != "" && p.node.Some? && p.pubkey != "" && p.signature != "" && p.data != ""
            && KeyText.Pub2Vkey(p.pubkey, n).Point? && answers && (!IsHex(p.pubkey) || p.node.value.None?)
  {
    var known := KeyText.Pub2Vkey(p.pubkey, n).Point?;
    if known {
      HashedAsIs(p.pubkey, n);
    }
    CheckedIs(p, known, answers, KeyText.Prefixed(p.pubkey, n), address);
  }

  /** It passes exactly when nothing is missing, the key is digits throughout and reads, the
      library answers, and the ID is the address of the key. */
  lemma PassedIff(p: Signed, n: nat, answers: bool, address: string -> string)
    requires n > 0
    ensures Verify(p, n, answers, address).Passed? <==>
            && p.ctrl != "" && p.pubkey != "" && p.signature != "" && p.data != "" && answers
            && KeyText.Pub2Vkey(p.pubkey, n).Point? && IsHex(p.pubkey) && p.node == Some(Some(address(p.pubkey)))
  {
    var known := KeyText.Pub2Vkey(p.pubkey, n).Point?;
    if known {
      HashedAsIs(p.pubkey, n);
    }
    CheckedIs(p, known, answers, KeyText.Prefixed(p.pubkey, n), address);
  }

  /** Two texts of one key, one of them refused: where the first digit of the key is a zero,
      a plus sign reads the same. */
  lemma SameKeyRefused(p: Signed, x: nat, y: nat, n: nat, address: string -> string)
    requires n > 0 && x < KeyText.Pow256(n) && y < KeyText.Pow256(n)
    requires KeyText.PubText(x, y, n)[2] == '0'
    requires Complete(p) && p.pubkey == KeyText.PubText(x, y, n)[2 := '+']
    ensures KeyText.Pub2Vkey(p.pubkey, n) == KeyText.Pub2Vkey(KeyText.PubText(x, y, n), n)
    ensures Verify(p, n, true, address).Raised?
  {
    var pub := KeyText.PubText(x, y, n);
    KeyText.PubIsFields(x, y, n);
    KeyText.ReadsFields(pub, n);
    KeyText.ReadsFields(p.pubkey, n);
    var a, b := pub[2..2 + 2 * n], pub[2 + 2 * n..];
    PlusForZero(a);
    HexReads(b);
    assert p.pubkey[2..2 + 2 * n] == a[0 := '+'] && p.pubkey[2 + 2 * n..] == b;
    assert Digit(p.pubkey[2]).None?;
    RefusedIff(p, n, true, address);
  }

  /** A packet as send_worker makes it passes: its key is the text of a point, its ID that
      key's address. */
  lemma OwnPasses(p: Signed, x: nat, y: nat, n: nat, address: string -> string)
    requires n > 0 && x < KeyText.Pow256(n) && y < KeyText.Pow256(n)
    requires Complete(p) && p.pubkey == KeyText.PubText(x, y, n) && p.node == Some(Some(address(p.pubkey)))
    ensures Verify(p, n, true, address) == Passed
  {
    KeyText.PubRoundTrip(x, y, n);
    KeyText.PubIsFields(x, y, n);
    PassedIff(p, n, true, address);
  }
}
