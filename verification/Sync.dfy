/** Block sync: what statusMgr and dbMgr send to a node that is behind, and what that node
    makes of it. */
module Sync {
  import opened Lists
  import opened Wire
  import opened Tallies
  import opened Heights

  /** A block: its height, its hash, as text while it travels and as a number when it is
      stored, and its transactions. An empty transaction is skipped. */
  datatype Blk = Blk(number: nat, hash: Hash, txs: seq<Option<string>>)

  // ---- The messages of a range: dbMgr.run and statusMgr.run ------------------------------

  /** `res[i:j]`: an end past the list is the end of the list. */
  function Slice(res: seq<Blk>, i: nat, j: nat): seq<Blk> {
    if i >= |res| || j <= i then [] else if j > |res| then res[i..] else res[i..j]
  }

  /** The messages of a range from `index` on. The two branches of the source are the wrong
      way round: only the last message is cut to maxBlock, where there is nothing to cut. */
  function Messages(res: seq<Blk>, index: nat, maxBlock: nat): seq<seq<Blk>>
    requires maxBlock >= 1
    decreases |res| - index
  {
    if index >= |res| then []
    else
      [if index + maxBlock < |res| then Slice(res, index, |res|) else Slice(res, index, index + maxBlock)]
      + Messages(res, index + maxBlock, maxBlock)
  }

  /** The messages the loop was meant to send. */
  function Chunks(res: seq<Blk>, index: nat, maxBlock: nat): seq<seq<Blk>>
    requires maxBlock >= 1
    decreases |res| - index
  {
    if index >= |res| then [] else [Slice(res, index, index + maxBlock)] + Chunks(res, index + maxBlock, maxBlock)
  }

  function Flatten(ms: seq<seq<Blk>>): seq<Blk> {
    if ms == [] then [] else ms[0] + Flatten(ms[1..])
  }

  /** How far n steps of maxBlock go. */
  function IndexAfter(maxBlock: int, n: nat): int {
    if n == 0 then 0 else IndexAfter(maxBlock, n - 1) + maxBlock
  }

  predicate Distinct(s: seq<Blk>) {
    forall a, b :: 0 <= a < b < |s| ==> s[a] != s[b]
  }

  /** The whole rest of the range, again and again. */
  function Suffixes(res: seq<Blk>, index: nat, maxBlock: nat): seq<seq<Blk>>
    requires maxBlock >= 1
    decreases |res| - index
  {
    if index >= |res| then [] else [res[index..]] + Suffixes(res, index + maxBlock, maxBlock)
  }

  /** Every message is the whole rest of the range from where the loop stands. */
  lemma {:induction false} MessagesAreSuffixes(res: seq<Blk>, index: nat, maxBlock: nat)
    requires maxBlock >= 1
    ensures Messages(res, index, maxBlock) == Suffixes(res, index, maxBlock)
    decreases |res| - index
  {
    if index < |res| {
      MessagesAreSuffixes(res, index + maxBlock, maxBlock);
      SliceToEnd(res, index, |res|);
      SliceToEnd(res, index, index + maxBlock);
    }
  }

  lemma SliceToEnd(res: seq<Blk>, i: nat, j: nat)
    requires i < |res|
    ensures j >= |res| ==> Slice(res, i, j) == res[i..]
  {
    assert res[i..|res|] == res[i..];
  }

  lemma {:induction false} FlattenSize(res: seq<Blk>, index: nat, maxBlock: nat)
    requires maxBlock >= 1 && index < |res|
    ensures |Flatten(Messages(res, index, maxBlock))| >= |res| - index
    ensures index + maxBlock < |res| ==> |Flatten(Messages(res, index, maxBlock))| > |res| - index
    decreases |res| - index
  {
    var ms := Messages(res, index, maxBlock);
    assert ms[1..] == Messages(res, index + maxBlock, maxBlock);
    if index + maxBlock < |res| {
      FlattenSize(res, index + maxBlock, maxBlock);
    }
  }

  /** The messages make up the range exactly when it fits into one of them. */
  lemma RangeArrivesIffItFits(res: seq<Blk>, maxBlock: nat)
    requires maxBlock >= 1
    ensures Flatten(Messages(res, 0, maxBlock)) == res <==> |res| <= maxBlock
  {
    if 0 < |res| <= maxBlock {
      var ms := Messages(res, 0, maxBlock);
      assert ms[1..] == Messages(res, maxBlock, maxBlock) == [];
      assert Flatten(ms) == ms[0] + [];
    } else if |res| > maxBlock {
      FlattenSize(res, 0, maxBlock);
    }
  }

  lemma DivStep(x: nat, m: nat)
    requires m >= 1 && x >= m
    ensures x / m == (x - m) / m + 1
  {
    var q, r := (x - m) / m, (x - m) % m;
    assert x - m == q * m + r;
    assert (q + 1) * m == q * m + m;
    DivUnique(x, m, q + 1, r);
  }

  lemma {:induction false} OnceInSuffix(res: seq<Blk>, i: nat, j: nat)
    requires i <= |res| && j < |res|
    requires Distinct(res)
    ensures multiset(res[i..])[res[j]] == if j >= i then 1 else 0
    decreases |res| - i
  {
    if i < |res| {
      OnceInSuffix(res, i + 1, j);
      assert res[i..] == [res[i]] + res[i + 1..];
    }
  }

  function Turns(x: nat, m: nat): nat
    requires m >= 1
  {
    if x < m then 0 else Turns(x - m, m) + 1
  }

  lemma {:induction false} TurnsIsQuotient(x: nat, m: nat)
    requires m >= 1
    ensures Turns(x, m) == x / m
  {
    if x < m {
      DivUnique(x, m, 0, x);
    } else {
      TurnsIsQuotient(x - m, m);
      DivStep(x, m);
    }
  }

  /** How often a block is in some messages. */
  function Times(ms: seq<seq<Blk>>, x: Blk): nat {
    if ms == [] then 0 else multiset(ms[0])[x] + Times(ms[1..], x)
  }

  lemma {:induction false} TimesIsCount(ms: seq<seq<Blk>>, x: Blk)
    ensures Times(ms, x) == multiset(Flatten(ms))[x]
  {
    if ms != [] {
      TimesIsCount(ms[1..], x);
    }
  }

  lemma {:induction false} ArrivalsByTurns(res: seq<Blk>, index: nat, maxBlock: nat, j: nat)
    requires maxBlock >= 1 && j < |res| && Distinct(res)
    ensures Times(Suffixes(res, index, maxBlock), res[j]) == if j < index then 0 else Turns(j - index, maxBlock) + 1
    decreases |res| - index
  {
    if index < |res| {
      var rest := Suffixes(res, index + maxBlock, maxBlock);
      assert ([res[index..]] + rest)[1..] == rest;
      OnceInSuffix(res, index, j);
      ArrivalsByTurns(res, index + maxBlock, maxBlock, j);
    }
  }

  /** How often each block arrives: one time more for every maxBlock blocks before it. */
  lemma Arrivals(res: seq<Blk>, maxBlock: nat, j: nat)
    requires maxBlock >= 1 && j < |res| && Distinct(res)
    ensures multiset(Flatten(Messages(res, 0, maxBlock)))[res[j]] == j / maxBlock + 1
  {
    TimesIsCount(Messages(res, 0, maxBlock), res[j]);
    MessagesAreSuffixes(res, 0, maxBlock);
    ArrivalsByTurns(res, 0, maxBlock, j);
    TurnsIsQuotient(j, maxBlock);
  }

  /** The loop as it was meant: non-empty messages within the limit, as many as needed,
      that make up the range. */
  lemma {:induction false} ChunksAreTheRange(res: seq<Blk>, index: nat, maxBlock: nat)
    requires maxBlock >= 1 && index <= |res|
    ensures
      var cs := Chunks(res, index, maxBlock);
      && Flatten(cs) == res[index..]
      && (forall k :: 0 <= k < |cs| ==> 0 < |cs[k]| <= maxBlock)
      && |cs| == (|res| - index + maxBlock - 1) / maxBlock
    decreases |res| - index
  {
    var cs := Chunks(res, index, maxBlock);
    if index >= |res| {
      DivUnique(maxBlock - 1, maxBlock, 0, maxBlock - 1);
    } else if index + maxBlock <= |res| {
      ChunksAreTheRange(res, index + maxBlock, maxBlock);
      assert cs[1..] == Chunks(res, index + maxBlock, maxBlock);
      assert res[index..] == cs[0] + res[index + maxBlock..];
      DivStep(|res| - index + maxBlock - 1, maxBlock);
    } else {
      assert cs == [res[index..]] && Flatten(cs) == res[index..] + Flatten(cs[1..]);
      DivStep(|res| - index + maxBlock - 1, maxBlock);
      DivUnique(|res| - index - 1, maxBlock, 0, |res| - index - 1);
    }
  }

  lemma {:induction false} IndexIsProduct(maxBlock: int, n: nat)
    ensures IndexAfter(maxBlock, n) == n * maxBlock
  {
    if n > 0 {
      IndexIsProduct(maxBlock, n - 1);
      assert n * maxBlock == (n - 1) * maxBlock + maxBlock;
    }
  }

  /** The loop ends exactly if there is nothing to send or maxBlock, which comes from the
      other node, is positive. */
  lemma LoopEndsIff(length: int, maxBlock: int)
    ensures (exists n: nat :: IndexAfter(maxBlock, n) >= length) <==> length <= 0 || maxBlock >= 1
  {
    if length <= 0 {
      assert IndexAfter(maxBlock, 0) >= length;
    } else if maxBlock >= 1 {
      IndexIsProduct(maxBlock, length);
      assert length * maxBlock >= length by {
        assert length * maxBlock == length * (maxBlock - 1) + length;
      }
      assert IndexAfter(maxBlock, length) >= length;
    } else {
      forall n: nat ensures IndexAfter(maxBlock, n) < length {
        IndexIsProduct(maxBlock, n);
        assert n * maxBlock <= 0;
      }
    }
  }

  /** The sending loop itself. */
  method SendRange(res: seq<Blk>, maxBlock: int) returns (sent: seq<seq<Blk>>)
    requires maxBlock >= 1 || res == []
    ensures sent == if maxBlock >= 1 then Messages(res, 0, maxBlock) else []
  {
    sent := [];
    var index, length := 0, |res|;
    while index < length
      invariant 0 <= index
      invariant maxBlock >= 1 ==> Messages(res, 0, maxBlock) == sent + Messages(res, index, maxBlock)
      invariant maxBlock < 1 ==> sent == []
    {
      var result;
      if index + maxBlock < length {
        result := Slice(res, index, length);
      } else {
        result := Slice(res, index, index + maxBlock);
      }
      index := index + maxBlock;
      Regroup(sent, [result], Messages(res, index, maxBlock));
      sent := sent + [result];
    }
  }

  // ---- What the receiver does with a message: dbMgr.updateBlkTrans and method 04 ---------

  /** The receiver's database, as the log of calls made to it, and its own height. */
  datatype Ledger = Ledger(
    rows: seq<Blk>,                      // createBlock
    applied: seq<string>,                // updateBalanceAndNonce
    recorded: seq<seq<Option<string>>>,  // createTransaction
    height: string,
    failed: bool)                        // an exception has ended the greenlet

  function Present(txs: seq<Option<string>>): seq<string> {
    if txs == [] then [] else (if txs[0].Some? then [txs[0].value] else []) + Present(txs[1..])
  }

  lemma {:induction false} PresentMore(txs: seq<Option<string>>, tx: Option<string>)
    ensures Present(txs + [tx]) == Present(txs) + if tx.Some? then [tx.value] else []
  {
    var last := if tx.Some? then [tx.value] else [];
    if txs == [] {
      assert txs + [tx] == [tx];
      assert Present([tx][1..]) == [];
    } else {
      var first := if txs[0].Some? then [txs[0].value] else [];
      assert (txs + [tx])[1..] == txs[1..] + [tx];
      PresentMore(txs[1..], tx);
      Regroup(first, Present(txs[1..]), last);
    }
  }

  /** The transactions that are not empty, each once and in order; number i of them was at
      position at[i]. */
  lemma {:induction false} PresentIs(txs: seq<Option<string>>) returns (at: seq<nat>)
    ensures |at| == |Present(txs)|
    ensures forall i :: 0 <= i < |at| ==> at[i] < |txs| && txs[at[i]] == Some(Present(txs)[i])
    ensures forall i, j :: 0 <= i < j < |at| ==> at[i] < at[j]
    ensures forall p: nat :: p < |txs| && txs[p].Some? ==> p in at
  {
    if txs == [] {
      at := [];
    } else {
      var last := |txs| - 1;
      var front := PresentIs(txs[..last]);
      PresentMore(txs[..last], txs[last]);
      assert txs[..last] + [txs[last]] == txs;
      assert forall i :: 0 <= i < |front| ==> front[i] in front;
      at := front + if txs[last].Some? then [last] else [];
    }
  }

  /** The row of a block: its height and transactions, and the number that its hash means. */
  predicate IsRowOf(row: Blk, b: Blk) {
    row.number == b.number && row.txs == b.txs && HoldsNumber(b.hash, row.hash)
  }

  /** The ledger with one block's transactions. */
  function Entered(l: Ledger, b: Blk): Ledger {
    l.(applied := l.applied + Present(b.txs), recorded := l.recorded + [b.txs])
  }

  /** The transactions of each block in turn, up to one whose hash does not read as a number. */
  function TxsApplied(l: Ledger, bs: seq<Blk>): Ledger
    decreases |bs|
  {
    if bs == [] then l
    else
      var l1 := Entered(l, bs[0]);
      if SealedHash(bs[0].hash).None? then l1.(failed := true) else TxsApplied(l1, bs[1..])
  }

  /** A block as createBlock gets it. */
  function RowOf(b: Blk): Blk {
    if SealedHash(b.hash).Some? then b.(hash := Num(SealedHash(b.hash).value)) else b
  }

  function RowsOf(bs: seq<Blk>): seq<Blk> {
    if bs == [] then [] else [RowOf(bs[0])] + RowsOf(bs[1..])
  }

  predicate Hexed(bs: seq<Blk>) {
    forall b | b in bs :: SealedHash(b.hash).Some?
  }

  lemma HexedMore(bs: seq<Blk>, b: Blk)
    ensures Hexed(bs + [b]) <==> Hexed(bs) && SealedHash(b.hash).Some?
  {
    assert b in bs + [b];
    assert forall x | x in bs :: x in bs + [b];
  }

  lemma NotHexed(bs: seq<Blk>, i: nat)
    requires i < |bs| && SealedHash(bs[i].hash).None?
    ensures !Hexed(bs)
  {
    assert bs[i] in bs;
  }

  /** updateBlkTrans: the blocks are created together, after all their transactions. */
  function Updated(l: Ledger, bs: seq<Blk>): Ledger {
    var l1 := TxsApplied(l, bs);
    if Hexed(bs) then l1.(rows := l.rows + RowsOf(bs)) else l1
  }

  lemma {:induction false} RowsAre(bs: seq<Blk>)
    requires Hexed(bs)
    ensures |RowsOf(bs)| == |bs| && forall i :: 0 <= i < |bs| ==> IsRowOf(RowsOf(bs)[i], bs[i])
  {
    if bs != [] {
      assert bs[0] in bs;
      SealedHashIs(bs[0].hash);
      RowsAre(bs[1..]);
    }
  }

  lemma HexedIs(bs: seq<Blk>)
    ensures Hexed(bs) <==> forall b | b in bs :: Readable(b.hash)
  {
    forall b | b in bs ensures SealedHash(b.hash).Some? <==> Readable(b.hash) {
      SealedHashIs(b.hash);
    }
  }

  lemma {:induction false} ListsAre(bs: seq<Blk>)
    ensures |ListsOf(bs)| == |bs| && forall i :: 0 <= i < |bs| ==> ListsOf(bs)[i] == bs[i].txs
  {
    if bs != [] {
      ListsAre(bs[1..]);
    }
  }

  /** The blocks have been created behind the rows that were there. */
  predicate Created(had: seq<Blk>, bs: seq<Blk>, rows: seq<Blk>) {
    && |rows| == |had| + |bs| && had <= rows
    && forall i :: 0 <= i < |bs| ==> IsRowOf(rows[|had| + i], bs[i])
  }

  lemma RowsCreated(had: seq<Blk>, bs: seq<Blk>)
    requires Hexed(bs)
    ensures Created(had, bs, had + RowsOf(bs))
  {
    RowsAre(bs);
    var news := RowsOf(bs);
    assert forall i :: 0 <= i < |bs| ==> (had + news)[|had| + i] == news[i];
  }

  lemma UpdatedWhole(l: Ledger, bs: seq<Blk>)
    requires Hexed(bs)
    ensures
      var u := Updated(l, bs);
      && u == l.(rows := u.rows, applied := l.applied + TxsOf(bs), recorded := l.recorded + ListsOf(bs))
      && Created(l.rows, bs, u.rows)
  {
    TxsAppliedIs(l, bs);
    RowsCreated(l.rows, bs);
  }

  lemma UpdatedPart(l: Ledger, bs: seq<Blk>) returns (k: nat)
    requires !Hexed(bs)
    ensures k < |bs| && Hexed(bs[..k]) && !Readable(bs[k].hash)
    ensures
      var u := Updated(l, bs);
      u == l.(applied := l.applied + TxsOf(bs[..k]) + Present(bs[k].txs),
              recorded := l.recorded + ListsOf(bs[..k]) + [bs[k].txs], failed := true)
  {
    k := FirstUnreadable(bs);
    assert bs == bs[..k] + ([bs[k]] + bs[k + 1..]);
    Unreadable(l, bs[..k], bs[k], bs[k + 1..]);
  }

  /** What updateBlkTrans comes to, block by block: with readable hashes every block is
      created, under the number its hash means, after all their transactions; with one that is
      not, no block is created. */
  lemma UpdatedIs(l: Ledger, bs: seq<Blk>)
    requires !l.failed
    ensures
      var u := Updated(l, bs);
      && u.height == l.height && (u.failed <==> exists b | b in bs :: !Readable(b.hash))
      && (u.failed ==> u.rows == l.rows)
      && (!u.failed ==>
            && u.applied == l.applied + TxsOf(bs) && u.recorded == l.recorded + ListsOf(bs)
            && Created(l.rows, bs, u.rows))
  {
    HexedIs(bs);
    if Hexed(bs) {
      UpdatedWhole(l, bs);
    } else {
      var k := UpdatedPart(l, bs);
      assert bs[k] in bs;
    }
  }

  predicate Legible(b: Blk) {
    Readable(b.hash)
  }

  lemma {:induction false} FirstFrom(bs: seq<Blk>, ok: Blk -> bool, n: nat) returns (k: nat)
    requires forall i :: 0 <= i < n && i < |bs| ==> ok(bs[i])
    requires exists i :: n <= i < |bs| && !ok(bs[i])
    ensures k < |bs| && !ok(bs[k]) && forall i :: 0 <= i < k ==> ok(bs[i])
    decreases |bs| - n
  {
    if ok(bs[n]) {
      k := FirstFrom(bs, ok, n + 1);
    } else {
      k := n;
    }
  }

  lemma FirstUnreadable(bs: seq<Blk>) returns (k: nat)
    requires !Hexed(bs)
    ensures k < |bs| && Hexed(bs[..k]) && !Readable(bs[k].hash)
  {
    HexedIs(bs);
    var b :| b in bs && !Legible(b);
    k := FirstFrom(bs, Legible, 0);
    assert forall x | x in bs[..k] :: Legible(x);
    HexedIs(bs[..k]);
  }

  lemma {:induction false} TxsAppliedBoth(l: Ledger, a: seq<Blk>, b: seq<Blk>)
    requires Hexed(a)
    ensures TxsApplied(l, a + b) == TxsApplied(TxsApplied(l, a), b)
    decreases |a|
  {
    if a == [] {
      assert a + b == b;
    } else {
      assert a[0] in a;
      assert (a + b)[1..] == a[1..] + b;
      TxsAppliedBoth(Entered(l, a[0]), a[1..], b);
    }
  }

  /** Transactions are applied and recorded up to the first block whose hash does not read,
      its own included. */
  lemma Unreadable(l: Ledger, a: seq<Blk>, b: Blk, rest: seq<Blk>)
    requires Hexed(a) && !Readable(b.hash)
    ensures TxsApplied(l, a + ([b] + rest)) ==
            l.(applied := l.applied + TxsOf(a) + Present(b.txs), recorded := l.recorded + ListsOf(a) + [b.txs], failed := true)
  {
    TxsAppliedBoth(l, a, [b] + rest);
    TxsAppliedIs(l, a);
    SealedHashIs(b.hash);
  }

  /** Method 04: the last block is taken for the newest; without one that raises. */
  function Returned(l: Ledger, bs: seq<Blk>): Ledger {
    var l1 := Updated(l, bs);
    if l1.failed then l1
    else if bs == [] then l1.(failed := true)
    else l1.(height := Dec(bs[|bs| - 1].number))
  }

  /** The first of the blocks from i on, and the others. */
  lemma OneBlock(l: Ledger, bs: seq<Blk>, i: nat)
    requires i < |bs|
    ensures TxsApplied(l, bs[i..]) ==
            if SealedHash(bs[i].hash).None? then Entered(l, bs[i]).(failed := true) else TxsApplied(Entered(l, bs[i]), bs[i + 1..])
    ensures RowsOf(bs[i..]) == [RowOf(bs[i])] + RowsOf(bs[i + 1..])
    ensures bs[..i + 1] == bs[..i] + [bs[i]]
  {
    assert bs[i..][1..] == bs[i + 1..];
  }

  /** updateBlkTrans before block i: the ledger so far, and the rows it is going to create. */
  predicate Midway(before: Ledger, l: Ledger, bs: seq<Blk>, i: nat, made: seq<Blk>) {
    && i <= |bs| && l == before.(applied := l.applied, recorded := l.recorded)
    && TxsApplied(before, bs) == TxsApplied(l, bs[i..])
    && Hexed(bs[..i]) && RowsOf(bs) == made + RowsOf(bs[i..])
  }

  lemma MidwayStarts(before: Ledger, bs: seq<Blk>)
    ensures Midway(before, before, bs, 0, [])
  {
    assert bs[0..] == bs && [] + RowsOf(bs) == RowsOf(bs);
  }

  lemma MidwayMore(before: Ledger, l: Ledger, bs: seq<Blk>, i: nat, made: seq<Blk>, n: int)
    requires Midway(before, l, bs, i, made) && i < |bs| && SealedHash(bs[i].hash) == Some(n)
    ensures Midway(before, Entered(l, bs[i]), bs, i + 1, made + [bs[i].(hash := Num(n))])
  {
    OneBlock(l, bs, i);
    HexedMore(bs[..i], bs[i]);
    Regroup(made, [RowOf(bs[i])], RowsOf(bs[i + 1..]));
  }

  lemma MidwayFails(before: Ledger, l: Ledger, bs: seq<Blk>, i: nat, made: seq<Blk>)
    requires Midway(before, l, bs, i, made) && i < |bs| && SealedHash(bs[i].hash).None?
    ensures Updated(before, bs) == Entered(l, bs[i]).(failed := true)
  {
    OneBlock(l, bs, i);
    NotHexed(bs, i);
  }

  lemma MidwayEnds(before: Ledger, l: Ledger, bs: seq<Blk>, made: seq<Blk>)
    requires Midway(before, l, bs, |bs|, made)
    ensures Updated(before, bs) == l.(rows := l.rows + made)
  {
    assert bs[..|bs|] == bs && bs[|bs|..] == [];
    assert made + [] == made;
  }

  class DbMgr {
    var rows: seq<Blk>
    var applied: seq<string>
    var recorded: seq<seq<Option<string>>>
    var height: string
    var failed: bool

    constructor ()
      ensures Abs() == Ledger([], [], [], "0", false)
    {
      rows, applied, recorded, height, failed := [], [], [], "0", false;
    }

    ghost function Abs(): Ledger
      reads this
    {
      Ledger(rows, applied, recorded, height, failed)
    }

    method ApplyAll(txs: seq<Option<string>>)
      modifies this`applied
      ensures applied == old(applied) + Present(txs)
    {
      var i := 0;
      while i < |txs|
        invariant 0 <= i <= |txs|
        invariant old(applied) + Present(txs) == applied + Present(txs[i..])
      {
        assert txs[i..][1..] == txs[i + 1..];
        if txs[i].Some? {
          applied := applied + [txs[i].value];
        }
        i := i + 1;
      }
    }

    method UpdateBlkTrans(blockData: seq<Blk>)
      requires !failed
      modifies this`applied, this`recorded, this`rows, this`failed
      ensures Abs() == Updated(old(Abs()), blockData)
      ensures failed <==> exists b | b in blockData :: !Readable(b.hash)
      ensures failed ==> rows == old(rows)
      ensures !failed ==> Created(old(rows), blockData, rows)
    {
      var i := 0;
      var made := [];
      ghost var before := Abs();
      MidwayStarts(before, blockData);
      while i < |blockData|
        invariant 0 <= i <= |blockData| && !failed && Midway(before, Abs(), blockData, i, made)
      {
        var b := blockData[i];
        ghost var l := Abs();
        ApplyAll(b.txs);
        recorded := recorded + [b.txs];
        assert Abs() == Entered(l, b);
        match SealedHash(b.hash) {
          case None =>
            failed := true;
            MidwayFails(before, l, blockData, i, made);
            UpdatedIs(before, blockData);
            return;
          case Some(n) =>
            MidwayMore(before, l, blockData, i, made, n);
            made := made + [b.(hash := Num(n))];
        }
        i := i + 1;
      }
      MidwayEnds(before, Abs(), blockData, made);
      rows := rows + made;
      UpdatedIs(before, blockData);
    }

    /** Method 04. */
    method ReturnBlock(blocks: seq<Blk>)
      requires !failed
      modifies this
      ensures Abs() == Returned(old(Abs()), blocks)
    {
      UpdateBlkTrans(blocks);
      if failed {
      } else if blocks == [] {
        failed := true;
      } else {
        height := Dec(blocks[|blocks| - 1].number);
      }
    }
  }

  // ---- One exchange -----------------------------------------------------------------------

  /** What statusMgr does with another node's status: ask for a range, send one, or nothing.
      Stuck: it raises, asks the database for what it does not have, or never ends. */
  datatype Reaction = Ask(from: string, to: string, maxBlock: int) | Push(blocks: seq<seq<Blk>>) | Nothing | Stuck

  datatype Status = Status(genesis: string, height: string, maxBlock: int)

  /** A node's own chain: the block of height i is at position i - 1. */
  predicate IsChain(chain: seq<Blk>) {
    Hexed(chain) && forall i :: 0 <= i < |chain| ==> chain[i].number == i + 1
  }

  /** The messages for the blocks above `from` up to `to`. */
  function RangeMessages(chain: seq<Blk>, from: int, to: int, maxBlock: int): Option<seq<seq<Blk>>> {
    if from >= to then Some([])
    else if from < 0 || to > |chain| || maxBlock < 1 then None
    else Some(Messages(chain[from..to], 0, maxBlock))
  }

  /** Method 03, and the same for a status: both ends of the range are read out of texts. */
  function Answer(chain: seq<Blk>, from: string, to: string, maxBlock: int): Option<seq<seq<Blk>>> {
    match (ParseDec(from), ParseDec(to))
    case (Some(f), Some(t)) => RangeMessages(chain, f, t, maxBlock)
    case _ => None
  }

  /** statusMgr.run on another node's status, for a node with this status and chain. */
  function OnStatus(mine: Status, chain: seq<Blk>, theirs: Status): Reaction {
    if theirs.genesis != mine.genesis then Nothing
    else if TextLess(mine.height, theirs.height) then Ask(mine.height, theirs.height, mine.maxBlock)
    else if TextLess(theirs.height, mine.height) then
      match Answer(chain, theirs.height, mine.height, theirs.maxBlock)
      case Some(ms) => Push(ms)
      case None => Stuck
    else Nothing
  }

  function ReturnedAll(l: Ledger, ms: seq<seq<Blk>>): Ledger
    decreases |ms|
  {
    if ms == [] then l
    else if l.failed then l
    else ReturnedAll(Returned(l, ms[0]), ms[1..])
  }

  /** All transactions of some blocks, in order. */
  function TxsOf(bs: seq<Blk>): seq<string> {
    if bs == [] then [] else Present(bs[0].txs) + TxsOf(bs[1..])
  }

  function ListsOf(bs: seq<Blk>): seq<seq<Option<string>>> {
    if bs == [] then [] else [bs[0].txs] + ListsOf(bs[1..])
  }

  lemma {:induction false} TxsAppliedIs(l: Ledger, bs: seq<Blk>)
    requires Hexed(bs)
    ensures TxsApplied(l, bs) == l.(applied := l.applied + TxsOf(bs), recorded := l.recorded + ListsOf(bs))
    decreases |bs|
  {
    if bs == [] {
      assert l.applied + [] == l.applied && l.recorded + [] == l.recorded;
    } else {
      assert bs[0] in bs;
      TxsAppliedIs(Entered(l, bs[0]), bs[1..]);
      Regroup(l.applied, Present(bs[0].txs), TxsOf(bs[1..]));
      Regroup(l.recorded, [bs[0].txs], ListsOf(bs[1..]));
    }
  }

  lemma {:induction false} TxsOfBoth(a: seq<Blk>, b: seq<Blk>)
    ensures TxsOf(a + b) == TxsOf(a) + TxsOf(b)
  {
    if a == [] {
      assert a + b == b;
    } else {
      assert (a + b)[1..] == a[1..] + b;
      TxsOfBoth(a[1..], b);
      Regroup(Present(a[0].txs), TxsOf(a[1..]), TxsOf(b));
    }
  }

  lemma TxsOfOne(b: Blk)
    ensures TxsOf([b]) == Present(b.txs)
  {
    var none: seq<Blk> := [];
    assert [b][1..] == none && Present(b.txs) + [] == Present(b.txs);
  }

  lemma {:induction false} ListsOfBoth(a: seq<Blk>, b: seq<Blk>)
    ensures ListsOf(a + b) == ListsOf(a) + ListsOf(b)
  {
    if a == [] {
      assert a + b == b;
    } else {
      assert (a + b)[1..] == a[1..] + b;
      ListsOfBoth(a[1..], b);
      Regroup([a[0].txs], ListsOf(a[1..]), ListsOf(b));
    }
  }

  lemma {:induction false} RowsOfBoth(a: seq<Blk>, b: seq<Blk>)
    ensures RowsOf(a + b) == RowsOf(a) + RowsOf(b)
  {
    if a == [] {
      assert a + b == b;
    } else {
      assert (a + b)[1..] == a[1..] + b;
      RowsOfBoth(a[1..], b);
      Regroup([RowOf(a[0])], RowsOf(a[1..]), RowsOf(b));
    }
  }

  /** A ledger that has taken in some blocks. */
  function Grown(l: Ledger, bs: seq<Blk>, height: string): Ledger {
    Ledger(l.rows + RowsOf(bs), l.applied + TxsOf(bs), l.recorded + ListsOf(bs), height, l.failed)
  }

  lemma ReturnedIs(l: Ledger, bs: seq<Blk>)
    requires !l.failed && bs != [] && Hexed(bs)
    ensures Returned(l, bs) == Grown(l, bs, Dec(bs[|bs| - 1].number))
  {
    TxsAppliedIs(l, bs);
  }

  lemma GrownTwice(l: Ledger, a: seq<Blk>, b: seq<Blk>, g: string, h: string)
    ensures Grown(Grown(l, a, g), b, h) == Grown(l, a + b, h)
  {
    TxsOfBoth(a, b);
    ListsOfBoth(a, b);
    RowsOfBoth(a, b);
    Regroup(l.rows, RowsOf(a), RowsOf(b));
    Regroup(l.applied, TxsOf(a), TxsOf(b));
    Regroup(l.recorded, ListsOf(a), ListsOf(b));
  }

  predicate Usable(m: seq<Blk>) {
    m != [] && Hexed(m)
  }

  predicate All(ms: seq<seq<Blk>>, ok: seq<Blk> -> bool) {
    ms == [] || (ok(ms[0]) && All(ms[1..], ok))
  }

  /** The height some messages leave behind. */
  function Top(ms: seq<seq<Blk>>): nat {
    if ms == [] then 0
    else if |ms| > 1 then Top(ms[1..])
    else if ms[0] == [] then 0 else ms[0][|ms[0]| - 1].number
  }

  /** Handling some messages is handling their blocks as one list. */
  lemma {:induction false} AllReturned(l: Ledger, ms: seq<seq<Blk>>)
    requires !l.failed && ms != [] && All(ms, Usable)
    ensures ReturnedAll(l, ms) == Grown(l, Flatten(ms), Dec(Top(ms)))
    decreases |ms|
  {
    var l1 := Returned(l, ms[0]);
    ReturnedIs(l, ms[0]);
    if ms[1..] == [] {
      assert Flatten(ms) == ms[0] + [] == ms[0];
      assert ReturnedAll(l1, []) == l1;
    } else {
      AllReturned(l1, ms[1..]);
      GrownTwice(l, ms[0], Flatten(ms[1..]), l1.height, Dec(Top(ms)));
    }
  }

  /** One more message in front, which may be the only one. */
  lemma AllMore(first: seq<Blk>, rest: seq<seq<Blk>>, ok: seq<Blk> -> bool)
    requires ok(first) && first != [] && All(rest, ok)
    ensures All([first] + rest, ok)
    ensures Top([first] + rest) == if rest == [] then first[|first| - 1].number else Top(rest)
  {
    assert ([first] + rest)[1..] == rest;
  }

  lemma {:induction false} SuffixesAll(res: seq<Blk>, index: nat, maxBlock: nat, ok: seq<Blk> -> bool)
    requires maxBlock >= 1 && index < |res|
    requires forall i: nat :: i < |res| ==> ok(res[i..])
    ensures
      var ms := Suffixes(res, index, maxBlock);
      ms != [] && All(ms, ok) && Top(ms) == res[|res| - 1].number
    decreases |res| - index
  {
    var rest := Suffixes(res, index + maxBlock, maxBlock);
    if index + maxBlock < |res| {
      SuffixesAll(res, index + maxBlock, maxBlock, ok);
    }
    AllMore(res[index..], rest, ok);
  }

  lemma {:induction false} ChunksAll(res: seq<Blk>, index: nat, maxBlock: nat, ok: seq<Blk> -> bool)
    requires maxBlock >= 1 && index < |res|
    requires forall i: nat, j: nat :: i < |res| && i < j ==> ok(Slice(res, i, j))
    ensures
      var ms := Chunks(res, index, maxBlock);
      ms != [] && All(ms, ok) && Top(ms) == res[|res| - 1].number
    decreases |res| - index
  {
    var rest := Chunks(res, index + maxBlock, maxBlock);
    if index + maxBlock < |res| {
      ChunksAll(res, index + maxBlock, maxBlock, ok);
    }
    SliceEnds(res, index, index + maxBlock);
    AllMore(Slice(res, index, index + maxBlock), rest, ok);
  }

  lemma SliceEnds(res: seq<Blk>, i: nat, j: nat)
    requires i < |res| && i < j
    ensures var s := Slice(res, i, j); s != [] && (j >= |res| ==> s[|s| - 1] == res[|res| - 1])
  {
  }

  lemma SlicesUsable(res: seq<Blk>)
    requires Hexed(res)
    ensures forall i: nat :: i < |res| ==> Usable(res[i..])
    ensures forall i: nat, j: nat :: i < |res| && i < j ==> Usable(Slice(res, i, j))
  {
    forall i: nat | i < |res| ensures Usable(res[i..]) {
      assert forall b | b in res[i..] :: b in res;
    }
    forall i: nat, j: nat | i < |res| && i < j ensures Usable(Slice(res, i, j)) {
      assert forall b | b in Slice(res, i, j) :: b in res;
    }
  }

  // ---- Catching up ----------------------------------------------------------------------

  /** The ledger of a node that has taken in exactly these blocks, once each. */
  function LedgerOf(chain: seq<Blk>): Ledger {
    Ledger(RowsOf(chain), TxsOf(chain), ListsOf(chain), Dec(|chain|), false)
  }

  /** The ledger of a chain, read off block by block. */
  lemma LedgerIs(chain: seq<Blk>)
    requires Hexed(chain)
    ensures
      var l := LedgerOf(chain);
      && |l.rows| == |l.recorded| == |chain| && l.applied == TxsOf(chain) && l.height == Dec(|chain|) && !l.failed
      && forall i :: 0 <= i < |chain| ==> IsRowOf(l.rows[i], chain[i]) && l.recorded[i] == chain[i].txs
  {
    RowsAre(chain);
    ListsAre(chain);
  }

  lemma {:induction false} RowsCount(bs: seq<Blk>)
    ensures |RowsOf(bs)| == |bs|
  {
    if bs != [] {
      RowsCount(bs[1..]);
    }
  }

  /** Taking in more blocks than the chain of a ledger has. */
  lemma GrownChain(chain: seq<Blk>, bs: seq<Blk>, h: string)
    ensures Grown(LedgerOf(chain), bs, h) == LedgerOf(chain + bs).(height := h)
  {
    TxsOfBoth(chain, bs);
    ListsOfBoth(chain, bs);
    RowsOfBoth(chain, bs);
  }

  /** The missing blocks bring a ledger level; any other number of blocks does not. */
  lemma CaughtUp(chain: seq<Blk>, a: nat)
    requires a <= |chain|
    ensures Grown(LedgerOf(chain[..a]), chain[a..], Dec(|chain|)) == LedgerOf(chain)
  {
    Split(chain, a);
    Joined(chain, chain[..a], chain[a..]);
  }

  lemma Joined(chain: seq<Blk>, had: seq<Blk>, lacked: seq<Blk>)
    requires chain == had + lacked
    ensures Grown(LedgerOf(had), lacked, Dec(|chain|)) == LedgerOf(chain)
  {
    GrownChain(had, lacked, Dec(|chain|));
  }

  lemma ShortOrLong(chain: seq<Blk>, a: nat, bs: seq<Blk>)
    requires a <= |chain| && |bs| != |chain| - a
    ensures Grown(LedgerOf(chain[..a]), bs, Dec(|chain|)) != LedgerOf(chain)
  {
    GrownChain(chain[..a], bs, Dec(|chain|));
    RowsCount(chain[..a] + bs);
    RowsCount(chain);
  }

  /** What the messages of a range do to a ledger, and how many blocks they hold. */
  lemma RangeReturned(l: Ledger, res: seq<Blk>, maxBlock: nat)
    requires !l.failed && maxBlock >= 1 && res != [] && Hexed(res)
    ensures
      var bs := Flatten(Messages(res, 0, maxBlock));
      && ReturnedAll(l, Messages(res, 0, maxBlock)) == Grown(l, bs, Dec(res[|res| - 1].number))
      && (bs == res <==> |res| <= maxBlock)
      && (|bs| == |res| ==> |res| <= maxBlock)
  {
    MessagesAreSuffixes(res, 0, maxBlock);
    SlicesUsable(res);
    SuffixesAll(res, 0, maxBlock, Usable);
    AllReturned(l, Messages(res, 0, maxBlock));
    RangeArrivesIffItFits(res, maxBlock);
    FlattenSize(res, 0, maxBlock);
  }

  lemma ChainRest(chain: seq<Blk>, a: nat)
    requires IsChain(chain) && a < |chain|
    ensures Hexed(chain[a..]) && chain[a..|chain|] == chain[a..]
    ensures |chain[a..]| == |chain| - a && chain[a..][|chain| - a - 1].number == |chain|
  {
  }

  lemma RangeGrows(l: Ledger, chain: seq<Blk>, a: nat, maxBlock: nat)
    requires !l.failed && IsChain(chain) && a < |chain| && maxBlock >= 1
    ensures
      var bs := Flatten(Messages(chain[a..], 0, maxBlock));
      && ReturnedAll(l, Messages(chain[a..], 0, maxBlock)) == Grown(l, bs, Dec(|chain|))
      && (bs == chain[a..] <==> |chain| - a <= maxBlock)
      && (|bs| == |chain| - a ==> |chain| - a <= maxBlock)
  {
    ChainRest(chain, a);
    RangeReturned(l, chain[a..], maxBlock);
  }

  /** The range a provider answers with brings the receiver level exactly when it fits into
      one message; its height is level in any case. */
  lemma RangeBringsLevel(chain: seq<Blk>, a: nat, maxBlock: nat)
    requires IsChain(chain) && a < |chain| && maxBlock >= 1
    ensures
      var l := ReturnedAll(LedgerOf(chain[..a]), Messages(chain[a..], 0, maxBlock));
      && (l == LedgerOf(chain) <==> |chain| - a <= maxBlock)
      && l.height == Dec(|chain|) && !l.failed
  {
    RangeGrows(LedgerOf(chain[..a]), chain, a, maxBlock);
    var bs := Flatten(Messages(chain[a..], 0, maxBlock));
    if |chain| - a <= maxBlock {
      CaughtUp(chain, a);
    } else {
      ShortOrLong(chain, a, bs);
    }
  }

  /** The loop as it was meant brings the receiver level for every maxBlock. */
  lemma ChunksBringLevel(chain: seq<Blk>, a: nat, maxBlock: nat)
    requires IsChain(chain) && a < |chain| && maxBlock >= 1
    ensures ReturnedAll(LedgerOf(chain[..a]), Chunks(chain[a..], 0, maxBlock)) == LedgerOf(chain)
  {
    var res := chain[a..];
    ChainRest(chain, a);
    SlicesUsable(res);
    ChunksAll(res, 0, maxBlock, Usable);
    AllReturned(LedgerOf(chain[..a]), Chunks(res, 0, maxBlock));
    ChunksAreTheRange(res, 0, maxBlock);
    CaughtUp(chain, a);
  }

  /** The two nodes of an exchange: the provider with its chain, and a lower node with the
      first a blocks of it. */
  datatype Pair = Pair(chain: seq<Blk>, a: nat, low: Status, high: Status)

  predicate IsPair(x: Pair) {
    && IsChain(x.chain) && x.a < |x.chain| && x.low.maxBlock >= 1
    && x.low.height == Dec(x.a) && x.high.height == Dec(|x.chain|)
  }

  /** What the lower node receives when the two exchange their statuses: by the provider's
      own reaction, or by its answer to what the lower node asks. */
  function Received(x: Pair, pushed: bool): seq<seq<Blk>>
    requires x.a < |x.chain|
  {
    if pushed then
      match OnStatus(x.high, x.chain, x.low)
      case Push(ms) => ms
      case _ => []
    else
      match OnStatus(x.low, x.chain[..x.a], x.high)
      case Ask(from, to, maxBlock) =>
        (match Answer(x.chain, from, to, maxBlock)
         case Some(ms) => ms
         case None => [])
      case _ => []
  }

  /** A lower node's height as text is seen to be lower. */
  ghost predicate Told(a: nat, b: nat)
    requires a < b
  {
    DecLength(a, b);
    a <= b / Pow10(|Dec(b)| - |Dec(a)|)
  }

  /** The two nodes have one genesis, and the lower one is seen to be lower. */
  ghost predicate InTouch(x: Pair)
    requires x.a < |x.chain|
  {
    x.low.genesis == x.high.genesis && Told(x.a, |x.chain|)
  }

  lemma RestIs(chain: seq<Blk>, a: nat, maxBlock: int)
    requires a < |chain| && maxBlock >= 1
    ensures RangeMessages(chain, a, |chain|, maxBlock) == Some(Messages(chain[a..], 0, maxBlock))
  {
    assert chain[a..|chain|] == chain[a..];
  }

  lemma AnswerReads(chain: seq<Blk>, from: string, to: string, f: int, t: int, maxBlock: int)
    requires ParseDec(from) == Some(f) && ParseDec(to) == Some(t)
    ensures Answer(chain, from, to, maxBlock) == RangeMessages(chain, f, t, maxBlock)
  {
  }

  lemma AnswerIs(chain: seq<Blk>, a: nat, maxBlock: int)
    requires a < |chain| && maxBlock >= 1
    ensures Answer(chain, Dec(a), Dec(|chain|), maxBlock) == Some(Messages(chain[a..], 0, maxBlock))
  {
    ReadsBack(a);
    ReadsBack(|chain|);
    AnswerReads(chain, Dec(a), Dec(|chain|), a, |chain|, maxBlock);
    RestIs(chain, a, maxBlock);
  }

  /** By the order of the heights' texts, whatever they read as. */
  lemma ReceivedIf(x: Pair, pushed: bool, ms: seq<seq<Blk>>)
    requires x.a < |x.chain| && Answer(x.chain, x.low.height, x.high.height, x.low.maxBlock) == Some(ms)
    requires TextLess(x.high.height, x.low.height) <==> !TextLess(x.low.height, x.high.height)
    ensures Received(x, pushed) ==
            if x.low.genesis == x.high.genesis && TextLess(x.low.height, x.high.height) then ms else []
  {
  }

  lemma AnswerOf(x: Pair)
    requires IsPair(x)
    ensures Answer(x.chain, x.low.height, x.high.height, x.low.maxBlock) == Some(Messages(x.chain[x.a..], 0, x.low.maxBlock))
  {
    AnswerIs(x.chain, x.a, x.low.maxBlock);
  }

  lemma TextsOf(x: Pair)
    requires IsPair(x)
    ensures TextLess(x.low.height, x.high.height) <==> Told(x.a, |x.chain|)
    ensures TextLess(x.high.height, x.low.height) <==> !Told(x.a, |x.chain|)
  {
    TextOrder(x.a, |x.chain|);
  }

  lemma ReceivedIs(x: Pair, pushed: bool)
    requires IsPair(x)
    ensures Received(x, pushed) == if InTouch(x) then Messages(x.chain[x.a..], 0, x.low.maxBlock) else []
  {
    TextsOf(x);
    AnswerOf(x);
    ReceivedIf(x, pushed, Messages(x.chain[x.a..], 0, x.low.maxBlock));
  }

  lemma ShortOfChain(chain: seq<Blk>, a: nat)
    requires a < |chain|
    ensures LedgerOf(chain[..a]) != LedgerOf(chain)
  {
    RowsCount(chain[..a]);
    RowsCount(chain);
  }

  /** One exchange, either way: a node of height a whose chain is a prefix of the provider's
      ends level with it, every block and transaction taken once and in order, exactly when
      they have one genesis, its height's text is below the provider's and the gap fits into
      one message. With another genesis nothing happens. */
  lemma ExchangeBringsLevel(x: Pair, pushed: bool)
    requires IsPair(x)
    ensures
      var l := ReturnedAll(LedgerOf(x.chain[..x.a]), Received(x, pushed));
      && (l == LedgerOf(x.chain) <==> InTouch(x) && |x.chain| - x.a <= x.low.maxBlock)
      && l.height == Dec(if InTouch(x) then |x.chain| else x.a)
      && (x.low.genesis != x.high.genesis ==> l == LedgerOf(x.chain[..x.a]))
  {
    ReceivedIs(x, pushed);
    if InTouch(x) {
      RangeBringsLevel(x.chain, x.a, x.low.maxBlock);
    } else {
      ShortOfChain(x.chain, x.a);
    }
  }
}
