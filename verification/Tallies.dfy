/** consensusMgr: the tally of votes a node keeps for the blocks it has published. */
module Tallies {
  import opened Lists
  import opened Wire
  import opened HexText

  datatype Hash = Hex(text: string) | Num(value: int)

  /** One entry of `temp`; B is how the block is held. */
  datatype Entry<B> = Entry(block: B, voters: seq<string>, agreed: bool)

  /** A vote as it arrives: who sent the message and which hash it signs. The signature is
      checked, but a failure only prints. */
  datatype Ballot = Ballot(nodeID: string, hash: Hash)

  predicate Counts<B>(e: Entry<B>, nodeID: string) {
    nodeID !in e.voters && !e.agreed
  }

  predicate Seals<B>(e: Entry<B>, nodeID: string, threshold: int) {
    Counts(e, nodeID) && |e.voters| + 1 >= threshold
  }

  function Counted<B>(e: Entry<B>, nodeID: string, threshold: int): Entry<B> {
    if Counts(e, nodeID) then e.(voters := e.voters + [nodeID], agreed := |e.voters| + 1 >= threshold) else e
  }

  /** vote, on the whole of `temp`: a hash that was not published is not in it. */
  function Voted<B>(temp: map<Hash, Entry<B>>, v: Ballot, threshold: int): map<Hash, Entry<B>> {
    if v.hash in temp then temp[v.hash := Counted(temp[v.hash], v.nodeID, threshold)] else temp
  }

  function VotedAll<B>(temp: map<Hash, Entry<B>>, vs: seq<Ballot>, threshold: int): map<Hash, Entry<B>> {
    if vs == [] then temp else VotedAll(Voted(temp, vs[0], threshold), vs[1..], threshold)
  }

  /** The hash a sealed block is stored under: `int(hash, 16)`, which raises on a hash that
      it does not read or that is a number already. */
  function SealedHash(h: Hash): Option<int> {
    match h
    case Hex(text) => ParseHex(text)
    case Num(_) => None
  }

  // ---- The specification: distinct voters in order of arrival ----------------------------

  /** The hash is a text that `int` reads; */
  predicate Readable(h: Hash) {
    h.Hex? && ParseHex(h.text).Some?
  }

  /** the other one is the number it means, which for plain digits is their value. */
  predicate HoldsNumber(h: Hash, number: Hash) {
    && h.Hex? && number.Num? && ParseHex(h.text) == Some(number.value)
    && (h.text != "" && IsHex(h.text) ==> number.value == Value(h.text))
  }

  lemma SealedHashIs(h: Hash)
    ensures SealedHash(h).Some? <==> Readable(h)
    ensures SealedHash(h).Some? ==> HoldsNumber(h, Num(SealedHash(h).value))
    ensures h.Hex? && h.text != "" && IsHex(h.text) ==> SealedHash(h) == Some(Value(h.text))
  {
    if h.Hex? && h.text != "" && IsHex(h.text) {
      HexReads(h.text);
    }
  }

  /** Each voter where it first occurs. */
  function Firsts(ids: seq<string>): seq<string> {
    if ids == [] then []
    else
      var before := Firsts(ids[..|ids| - 1]);
      var id := ids[|ids| - 1];
      if id in before then before else before + [id]
  }

  /** The voters that named hash `h`, in order. */
  function VotersFor(vs: seq<Ballot>, h: Hash): seq<string> {
    if vs == [] then [] else (if vs[0].hash == h then [vs[0].nodeID] else []) + VotersFor(vs[1..], h)
  }

  /** At least one vote is needed however low the threshold is set. */
  function Needed(threshold: int): nat
    ensures Needed(threshold) >= 1
  {
    if threshold <= 1 then 1 else threshold
  }

  function Min(a: nat, b: nat): nat {
    if a < b then a else b
  }

  function CountedAll<B>(e: Entry<B>, ids: seq<string>, threshold: int): Entry<B>
    decreases |ids|
  {
    if ids == [] then e else CountedAll(Counted(e, ids[0], threshold), ids[1..], threshold)
  }

  lemma {:induction false} FirstsAreTheVoters(ids: seq<string>)
    ensures forall id :: id in Firsts(ids) <==> id in ids
    ensures forall i, j :: 0 <= i < j < |Firsts(ids)| ==> Firsts(ids)[i] != Firsts(ids)[j]
  {
    if ids != [] {
      var front := ids[..|ids| - 1];
      FirstsAreTheVoters(front);
      assert ids == front + [ids[|ids| - 1]];
    }
  }

  lemma {:induction false} CountedAllLast<B>(e: Entry<B>, ids: seq<string>, id: string, threshold: int)
    ensures CountedAll(e, ids + [id], threshold) == Counted(CountedAll(e, ids, threshold), id, threshold)
    decreases |ids|
  {
    if ids == [] {
      assert [id] == [] + [id] && [id][1..] == [];
    } else {
      assert (ids + [id])[1..] == ids[1..] + [id];
      CountedAllLast(Counted(e, ids[0], threshold), ids[1..], id, threshold);
    }
  }

  /** The tally is the specification: the voters are the first distinct ones, up to the
      number needed, and agreement is having that many. */
  lemma {:induction false} TallyIsFirstVoters<B>(b: B, ids: seq<string>, threshold: int)
    ensures
      var e := CountedAll(Entry(b, [], false), ids, threshold);
      var d := Firsts(ids);
      && e.block == b
      && e.voters == d[..Min(Needed(threshold), |d|)]
      && (e.agreed <==> |d| >= Needed(threshold))
  {
    if ids != [] {
      var front, id := ids[..|ids| - 1], ids[|ids| - 1];
      TallyIsFirstVoters(b, front, threshold);
      CountedAllLast(Entry(b, [], false), front, id, threshold);
      assert ids == front + [id];
      var d := Firsts(front);
      if |d| < Needed(threshold) {
        assert d[..|d|] == d;
        assert (d + [id])[..|d| + 1] == d + [id];
      } else {
        assert (d + [id])[..Needed(threshold)] == d[..Needed(threshold)];
      }
    }
  }

  lemma {:induction false} FirstsSize(ids: seq<string>)
    ensures |Firsts(ids)| == |set id | id in ids|
  {
    if ids != [] {
      var front, id := ids[..|ids| - 1], ids[|ids| - 1];
      FirstsSize(front);
      FirstsAreTheVoters(front);
      assert ids == front + [id];
      var a := set x | x in front;
      assert (set x | x in ids) == a + {id};
      if id in front {
        assert a + {id} == a;
      }
    } else {
      assert (set id | id in ids) == {};
    }
  }

  /** Neither the order nor the repetition of votes decides agreement: two runs whose
      votes come from the same nodes agree together, and so does any larger one. */
  lemma AgreementIgnoresOrder<B>(b: B, xs: seq<string>, ys: seq<string>, threshold: int)
    requires forall id | id in xs :: id in ys
    ensures CountedAll(Entry(b, [], false), xs, threshold).agreed ==> CountedAll(Entry(b, [], false), ys, threshold).agreed
    ensures (forall id | id in ys :: id in xs) ==>
              (CountedAll(Entry(b, [], false), xs, threshold).agreed <==> CountedAll(Entry(b, [], false), ys, threshold).agreed)
  {
    TallyIsFirstVoters(b, xs, threshold);
    TallyIsFirstVoters(b, ys, threshold);
    FirstsSize(xs);
    FirstsSize(ys);
    var sx, sy := set id | id in xs, set id | id in ys;
    assert sx <= sy;
    assert |sy - sx| == |sy| - |sx|;
    if forall id | id in ys :: id in xs {
      assert sx == sy;
    }
  }

  /** Votes for different hashes do not meet: each entry ends as if only the votes that
      name it had been cast, and a hash that was not published gets no entry. */
  lemma {:induction false} EntriesAreIndependent<B>(temp: map<Hash, Entry<B>>, vs: seq<Ballot>, threshold: int, h: Hash)
    ensures VotedAll(temp, vs, threshold).Keys == temp.Keys
    ensures h in temp ==> VotedAll(temp, vs, threshold)[h] == CountedAll(temp[h], VotersFor(vs, h), threshold)
  {
    if vs != [] {
      EntriesAreIndependent(Voted(temp, vs[0], threshold), vs[1..], threshold, h);
      if h in temp {
        var ids := VotersFor(vs, h);
        if vs[0].hash == h {
          assert ids[0] == vs[0].nodeID && ids[1..] == VotersFor(vs[1..], h);
        } else {
          assert ids == VotersFor(vs[1..], h) && Voted(temp, vs[0], threshold)[h] == temp[h];
        }
      }
    }
  }

  lemma {:induction false} VotedAllLast<B>(temp: map<Hash, Entry<B>>, vs: seq<Ballot>, v: Ballot, threshold: int)
    ensures VotedAll(temp, vs + [v], threshold) == Voted(VotedAll(temp, vs, threshold), v, threshold)
  {
    if vs == [] {
      assert [v] == [] + [v] && [v][1..] == [];
    } else {
      assert (vs + [v])[1..] == vs[1..] + [v];
      VotedAllLast(Voted(temp, vs[0], threshold), vs[1..], v, threshold);
    }
  }

  // ---- The object ---------------------------------------------------------------------

  lemma VotedMore<B>(temp: map<Hash, Entry<B>>, vs: seq<Ballot>, k: nat, threshold: int)
    requires k < |vs|
    ensures VotedAll(temp, vs[..k + 1], threshold) == Voted(VotedAll(temp, vs[..k], threshold), vs[k], threshold)
  {
    assert vs[..k + 1] == vs[..k] + [vs[k]];
    VotedAllLast(temp, vs[..k], vs[k], threshold);
  }

  /** The block's dictionary. Whoever published it holds the same object. */
  class BlockRecord {
    const content: string
    var hash: Hash

    constructor (hash: Hash, content: string)
      ensures this.hash == hash && this.content == content
    {
      this.hash, this.content := hash, content;
    }
  }

  /** A block as serialised text or a database row: what it held at that moment. */
  datatype Block = Block(hash: Hash, content: string)

  datatype Note = Proposed(block: Block) | Sealed(block: Block)

  /** How often a list of notes announces the sealing of a hash. */
  function Times(notes: seq<Note>, h: Hash): nat {
    if notes == [] then 0
    else (if notes[|notes| - 1].Sealed? && notes[|notes| - 1].block.hash == h then 1 else 0) + Times(notes[..|notes| - 1], h)
  }

  /** What is stored for what is announced. */
  function StoredForm(notes: seq<Note>): seq<Block> {
    if notes == [] then []
    else
      var b := notes[|notes| - 1].block;
      StoredForm(notes[..|notes| - 1]) +
      match SealedHash(b.hash) case Some(n) => [Block(Num(n), b.content)] case None => []
  }

  predicate Storable(notes: seq<Note>) {
    forall n | n in notes :: SealedHash(n.block.hash).Some?
  }

  lemma {:induction false} StoredFormMore(notes: seq<Note>, more: seq<Note>)
    ensures StoredForm(notes + more) == StoredForm(notes) + StoredForm(more)
  {
    if more == [] {
      assert notes + more == notes;
    } else {
      assert (notes + more)[..|notes + more| - 1] == notes + more[..|more| - 1];
      StoredFormMore(notes, more[..|more| - 1]);
    }
  }

  lemma StorableMore(notes: seq<Note>, more: seq<Note>)
    ensures Storable(notes + more) <==> Storable(notes) && Storable(more)
  {
    assert forall n | n in notes + more :: n in notes || n in more;
    assert forall n | n in notes || n in more :: n in notes + more;
  }

  /** One more announcement, after some. */
  lemma OneMoreTold(broadcasts: seq<Note>, stored: seq<Block>, notes: seq<Note>, says: seq<Note>)
    ensures broadcasts + (notes + says) == broadcasts + notes + says
    ensures stored + StoredForm(notes + says) == stored + StoredForm(notes) + StoredForm(says)
    ensures Storable(notes + says) <==> Storable(notes) && Storable(says)
  {
    StoredFormMore(notes, says);
    StorableMore(notes, says);
    Regroup(broadcasts, notes, says);
    Regroup(stored, StoredForm(notes), StoredForm(says));
  }

  lemma StorableIff(notes: seq<Note>)
    ensures Storable(notes) <==> forall n | n in notes :: Readable(n.block.hash)
  {
    forall n | n in notes ensures SealedHash(n.block.hash).Some? <==> Readable(n.block.hash) {
      SealedHashIs(n.block.hash);
    }
  }

  /** What is stored is what was announced, one for one and in order, but for the hash, which
      is the number it means. */
  predicate Stands(notes: seq<Note>, rows: seq<Block>) {
    && |rows| <= |notes|
    && forall i :: 0 <= i < |rows| ==> HoldsNumber(notes[i].block.hash, rows[i].hash) && rows[i].content == notes[i].block.content
  }

  /** An announcement whose hash cannot be read is the last, and stored no more. */
  predicate Accounts(notes: seq<Note>, rows: seq<Block>, failed: bool) {
    && Stands(notes, rows) && |rows| == |notes| - (if failed then 1 else 0)
    && (failed <==> exists n | n in notes :: !Readable(n.block.hash))
  }

  lemma AccountsMore(notes: seq<Note>, says: seq<Note>)
    requires Accounts(notes, StoredForm(notes), false) && |says| <= 1
    ensures Accounts(notes + says, StoredForm(notes + says), !Storable(says))
  {
    StoredFormMore(notes, says);
    StandsMore(notes, StoredForm(notes), says);
    StorableMore(notes, says);
    StorableIff(notes);
    StorableIff(notes + says);
  }

  lemma StandsMore(notes: seq<Note>, rows: seq<Block>, says: seq<Note>)
    requires Stands(notes, rows) && |rows| == |notes| && |says| <= 1
    ensures Stands(notes + says, rows + StoredForm(says))
    ensures |StoredForm(says)| == if Storable(says) then |says| else 0
  {
    if says != [] {
      SealedHashIs(says[0].block.hash);
      assert says[..0] == [] && says == [says[0]];
      assert says[0] in says;
    }
  }

  /** What a vote makes the node announce. */
  function Says(temp: map<Hash, Entry<BlockRecord>>, v: Ballot, threshold: int): seq<Note> {
    if v.hash in temp && Seals(temp[v.hash], v.nodeID, threshold)
    then [Sealed(Block(v.hash, temp[v.hash].block.content))] else []
  }

  /** The notes announce, once each and as published, the entries that became agreed. */
  ghost predicate Tells(notes: seq<Note>, before: map<Hash, Entry<BlockRecord>>, after: map<Hash, Entry<BlockRecord>>) {
    && after.Keys == before.Keys
    && (forall h | h in before :: after[h].block == before[h].block && (before[h].agreed ==> after[h].agreed))
    && (forall h | h in before :: Times(notes, h) == if after[h].agreed && !before[h].agreed then 1 else 0)
    && (forall n | n in notes :: n.Sealed? && n.block.hash in before && n.block.content == before[n.block.hash].block.content)
  }

  lemma TellsMore(notes: seq<Note>, before: map<Hash, Entry<BlockRecord>>, after: map<Hash, Entry<BlockRecord>>, v: Ballot, threshold: int)
    requires Tells(notes, before, after)
    ensures Tells(notes + Says(after, v, threshold), before, Voted(after, v, threshold))
  {
    var more := notes + Says(after, v, threshold);
    if Says(after, v, threshold) == [] {
      assert more == notes;
    } else {
      assert more[..|more| - 1] == notes;
    }
  }

  class ConsensusMgr {
    const threshold: int
    var temp: map<Hash, Entry<BlockRecord>>
    var broadcasts: seq<Note>
    var stored: seq<Block>
    var failed: bool      // an exception has ended the greenlet

    constructor (threshold: int)
      ensures this.threshold == threshold && temp == map[] && broadcasts == [] && stored == [] && !failed
    {
      this.threshold, temp, broadcasts, stored, failed := threshold, map[], [], [], false;
    }

    ghost function Snapshot(r: BlockRecord): Block
      reads r
    {
      Block(r.hash, r.content)
    }

    /** publishBlock. Publishing a hash again starts its tally afresh. */
    method PublishBlock(r: BlockRecord)
      modifies this`temp, this`broadcasts
      ensures temp == old(temp)[r.hash := Entry(r, [], false)]
      ensures broadcasts == old(broadcasts) + [Proposed(Snapshot(r))]
    {
      temp := temp[r.hash := Entry(r, [], false)];
      broadcasts := broadcasts + [Proposed(Block(r.hash, r.content))];
    }

    /** vote. The sealed block is broadcast before its record is changed in place. */
    method Vote(v: Ballot)
      modifies this`temp, this`broadcasts, this`stored, this`failed
      modifies if v.hash in temp then {temp[v.hash].block} else {}
      ensures temp == Voted(old(temp), v, threshold)
      ensures
        if v.hash in old(temp) && Seals(old(temp)[v.hash], v.nodeID, threshold) then
          var r := old(temp)[v.hash].block;
          && broadcasts == old(broadcasts) + [Sealed(old(Snapshot(r)))]
          && (if Readable(old(r.hash)) then
                && HoldsNumber(old(r.hash), r.hash) && failed == old(failed)
                && stored == old(stored) + [Block(r.hash, r.content)]
              else r.hash == old(r.hash) && stored == old(stored) && failed)
        else
          && broadcasts == old(broadcasts) && stored == old(stored) && failed == old(failed)
          && (v.hash in old(temp) ==> old(temp)[v.hash].block.hash == old(temp[v.hash].block.hash))
    {
      if v.hash in temp {
        var e := temp[v.hash];
        if v.nodeID !in e.voters && !e.agreed {
          var voters := e.voters + [v.nodeID];
          temp := temp[v.hash := e.(voters := voters)];
          if |voters| >= threshold {
            temp := temp[v.hash := e.(voters := voters, agreed := true)];
            broadcasts := broadcasts + [Sealed(Block(e.block.hash, e.block.content))];
            SealedHashIs(e.block.hash);
            match SealedHash(e.block.hash) {
              case Some(n) =>
                e.block.hash := Num(n);
                stored := stored + [Block(e.block.hash, e.block.content)];
              case None =>
                failed := true;
            }
          }
        }
      }
    }

    /** Every record that is not sealed still has the hash it was published under, and no
        record is published under two: nobody but `vote` changes a block. */
    ghost predicate Unmeddled()
      reads this`temp, set h | h in temp :: temp[h].block
    {
      && (forall h | h in temp && !temp[h].agreed :: temp[h].block.hash == h)
      && (forall g, h | g in temp && h in temp && g != h :: temp[g].block != temp[h].block)
    }

    ghost function Records(): set<BlockRecord>
      reads this`temp
    {
      set h | h in temp :: temp[h].block
    }

    /** A vote, when nobody meddles with the records. */
    method VoteCleanly(v: Ballot)
      requires Unmeddled()
      modifies this`temp, this`broadcasts, this`stored, this`failed, Records()
      ensures temp == Voted(old(temp), v, threshold) && Unmeddled() && Records() == old(Records())
      ensures
        var says := Says(old(temp), v, threshold);
        && broadcasts == old(broadcasts) + says && stored == old(stored) + StoredForm(says)
        && failed == (old(failed) || !Storable(says))
    {
      ghost var none: seq<Note> := [];
      assert v.hash in temp ==> [Sealed(Block(v.hash, temp[v.hash].block.content))][..0] == none;
      assert v.hash in temp ==> temp[v.hash].block in Records();
      Vote(v);
      forall h | h in temp ensures temp[h].block == old(temp)[h].block {
      }
    }

    /** One vote more, after what has been announced since `before`. */
    method CountOne(v: Ballot, ghost notes: seq<Note>, ghost before: map<Hash, Entry<BlockRecord>>)
      requires !failed && Unmeddled() && Tells(notes, before, temp) && Accounts(notes, StoredForm(notes), false)
      modifies this`temp, this`broadcasts, this`stored, this`failed, Records()
      ensures temp == Voted(old(temp), v, threshold) && Unmeddled() && Records() == old(Records())
      ensures
        var says := Says(old(temp), v, threshold);
        && broadcasts == old(broadcasts) + says && stored == old(stored) + StoredForm(says)
        && Tells(notes + says, before, temp) && Accounts(notes + says, StoredForm(notes + says), failed)
    {
      AccountsMore(notes, Says(temp, v, threshold));
      TellsMore(notes, before, temp, v, threshold);
      VoteCleanly(v);
    }

    /** The loop of `run` over the queue of votes, until one raises. However the votes come,
        each open entry is announced exactly once if it became agreed and never otherwise,
        with the hash it was published under, and is stored as announced but for the hash,
        which becomes the number its text means. It stops on a hash that is no such text. */
    method CountVotes(queue: seq<Ballot>) returns (k: nat)
      requires !failed && Unmeddled()
      modifies this`temp, this`broadcasts, this`stored, this`failed, Records()
      ensures k <= |queue| && (!failed ==> k == |queue|)
      ensures temp == VotedAll(old(temp), queue[..k], threshold) && Unmeddled()
      ensures old(broadcasts) <= broadcasts && old(stored) <= stored
      ensures
        var notes, rows := broadcasts[|old(broadcasts)|..], stored[|old(stored)|..];
        Tells(notes, old(temp), temp) && Accounts(notes, rows, failed)
    {
      k := 0;
      ghost var before, told, kept := temp, broadcasts, stored;
      ghost var notes: seq<Note> := [];
      while k < |queue| && !failed
        invariant k <= |queue|
        invariant temp == VotedAll(before, queue[..k], threshold) && Unmeddled() && Records() == old(Records())
        invariant broadcasts == told + notes && stored == kept + StoredForm(notes)
        invariant Tells(notes, before, temp) && Accounts(notes, StoredForm(notes), failed)
      {
        ghost var says := Says(temp, queue[k], threshold);
        VotedMore(before, queue, k, threshold);
        OneMoreTold(told, kept, notes, says);
        CountOne(queue[k], notes, before);
        notes := notes + says;
        k := k + 1;
      }
      Behind(told, notes);
      Behind(kept, StoredForm(notes));
    }
  }
}
