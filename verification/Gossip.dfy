/** The relay of broadcast blocks (method 01) and transactions (method 02): every node
    handles what it gets and sends it on to all peers but the one it came from. */
module Gossip {
  import opened Wire
  import opened HexText
  import opened Tallies

  type NodeID = string

  // ---- One handler ------------------------------------------------------------------

  /** The handlers print one field and use another: `block` and `blocks`, `transaction` and
      `transactions`. A missing one is a KeyError, which ends the handler's greenlet. */
  datatype Request =
    | BlockRequest(block: Option<string>, blocks: Option<Block>)
    | TxRequest(transaction: Option<string>, transactions: Option<string>)

  datatype Row = BlockRow(block: Block) | TxRow(tx: string)

  datatype Outcome = Crash | Relay(row: Row, next: Request)

  /** What a handler stores and sends on. The block's hash is turned into a number in the
      very request that is sent on, and a number is not turned into a number again. */
  function Handle(m: Request): Outcome {
    match m
    case BlockRequest(Some(_), Some(b)) =>
      (match SealedHash(b.hash)
       case Some(n) => Relay(BlockRow(Block(Num(n), b.content)), m.(blocks := Some(Block(Num(n), b.content))))
       case None => Crash)
    case TxRequest(Some(_), Some(tx)) => Relay(TxRow(tx), m)
    case _ => Crash
  }

  // ---- The network --------------------------------------------------------------------

  /** A tree of peers, seen from the node a broadcast starts at. */
  datatype Tree = Tree(root: NodeID, parent: map<NodeID, NodeID>, depth: map<NodeID, nat>)

  predicate IsTree(t: Tree) {
    && t.root !in t.parent && t.depth.Keys == t.parent.Keys + {t.root} && t.depth[t.root] == 0
    && forall v | v in t.parent :: t.parent[v] in t.depth && t.depth[v] == t.depth[t.parent[v]] + 1
  }

  function Children(t: Tree, v: NodeID): set<NodeID> {
    set w | w in t.parent && t.parent[w] == v
  }

  function Peers(t: Tree, v: NodeID): set<NodeID> {
    Children(t, v) + if v in t.parent then {t.parent[v]} else {}
  }

  datatype Copy = Copy(from: NodeID, to: NodeID, msg: Request)

  datatype Flood = Flood(
    inFlight: multiset<Copy>,
    handled: seq<NodeID>,        // in the order of delivery
    rows: seq<(NodeID, Row)>,
    dead: set<NodeID>)

  function Copies(from: NodeID, to: set<NodeID>, m: Request): set<Copy> {
    set w | w in to :: Copy(from, w, m)
  }

  function Start(t: Tree, m: Request): Flood {
    Flood(multiset(Copies(t.root, Peers(t, t.root), m)), [], [], {})
  }

  predicate CanDeliver(f: Flood, c: Copy) {
    c in f.inFlight && c.to !in f.dead
  }

  function Delivered(t: Tree, f: Flood, c: Copy): Flood {
    var f1 := f.(inFlight := f.inFlight - multiset{c}, handled := f.handled + [c.to]);
    match Handle(c.msg)
    case Crash => f1.(dead := f.dead + {c.to})
    case Relay(row, next) =>
      f1.(rows := f.rows + [(c.to, row)],
          inFlight := f1.inFlight + multiset(Copies(c.to, Peers(t, c.to) - {c.from}, next)))
  }

  predicate CanFlood(t: Tree, f: Flood, cs: seq<Copy>)
    decreases |cs|
  {
    cs == [] || (CanDeliver(f, cs[0]) && CanFlood(t, Delivered(t, f, cs[0]), cs[1..]))
  }

  function Flooded(t: Tree, f: Flood, cs: seq<Copy>): Flood
    requires CanFlood(t, f, cs)
    decreases |cs|
  {
    if cs == [] then f else Flooded(t, Delivered(t, f, cs[0]), cs[1..])
  }

  // ---- What reaches whom ------------------------------------------------------------

  /** The request as it arrives at distance d from the origin, if it gets that far. */
  function Carried(m: Request, d: nat): Option<Request>
    requires d >= 1
  {
    if d == 1 then Some(m)
    else
      match Carried(m, d - 1)
      case None => None
      case Some(x) => if Handle(x).Relay? then Some(Handle(x).next) else None
  }

  predicate Reached(t: Tree, m: Request, v: NodeID)
    requires IsTree(t) && v in t.parent
  {
    Carried(m, t.depth[v]).Some?
  }

  function Arriving(t: Tree, m: Request, v: NodeID): Request
    requires IsTree(t) && v in t.parent && Reached(t, m, v)
  {
    Carried(m, t.depth[v]).value
  }

  /** A node not yet served whose parent is done. */
  predicate IsDue(t: Tree, m: Request, handled: seq<NodeID>, v: NodeID)
    requires IsTree(t) && v in t.parent
  {
    v !in handled && Reached(t, m, v) && (t.parent[v] == t.root || t.parent[v] in handled)
  }

  function CopyFor(t: Tree, m: Request, v: NodeID): Copy
    requires IsTree(t) && v in t.parent && Reached(t, m, v)
  {
    Copy(t.parent[v], v, Arriving(t, m, v))
  }

  /** The copies that are due. */
  function Due(t: Tree, m: Request, handled: seq<NodeID>): set<Copy>
    requires IsTree(t)
  {
    set v | v in t.parent && IsDue(t, m, handled, v) :: CopyFor(t, m, v)
  }

  function RowsOf(t: Tree, m: Request, handled: seq<NodeID>): seq<(NodeID, Row)>
    requires IsTree(t) && forall v | v in handled :: v in t.parent && Reached(t, m, v)
  {
    if handled == [] then []
    else
      var v := handled[|handled| - 1];
      RowsOf(t, m, handled[..|handled| - 1]) +
      match Handle(Arriving(t, m, v)) case Relay(row, _) => [(v, row)] case Crash => []
  }

  function DeadOf(t: Tree, m: Request, handled: seq<NodeID>): set<NodeID>
    requires IsTree(t) && forall v | v in handled :: v in t.parent && Reached(t, m, v)
  {
    set v | v in handled && Handle(Arriving(t, m, v)).Crash?
  }

  /** Copies go from served nodes into unserved subtrees, one into each. */
  predicate Inv(t: Tree, m: Request, f: Flood)
    requires IsTree(t)
  {
    && (forall v | v in f.handled :: v in t.parent && Reached(t, m, v))
    && (forall v | v in f.handled :: t.parent[v] == t.root || t.parent[v] in f.handled)
    && (forall i, j :: 0 <= i < j < |f.handled| ==> f.handled[i] != f.handled[j])
    && f.inFlight == multiset(Due(t, m, f.handled))
    && f.rows == RowsOf(t, m, f.handled)
    && f.dead == DeadOf(t, m, f.handled)
  }

  lemma StartInv(t: Tree, m: Request)
    requires IsTree(t)
    ensures Inv(t, m, Start(t, m))
  {
    assert Copies(t.root, Peers(t, t.root), m) == Due(t, m, []);
  }

  /** Replacing one element of a set by others not in it, counted. */
  lemma Replaced<T>(a: set<T>, c: T, b: set<T>)
    requires c in a && a !! b
    ensures multiset(a) - multiset{c} + multiset(b) == multiset((a - {c}) + b)
  {
  }

  /** What serving v sends on. */
  function Onward(t: Tree, m: Request, v: NodeID): set<Copy>
    requires IsTree(t) && v in t.parent && Reached(t, m, v)
  {
    match Handle(Arriving(t, m, v)) case Relay(_, next) => Copies(v, Children(t, v), next) case Crash => {}
  }

  lemma ChildArrives(t: Tree, m: Request, v: NodeID, w: NodeID)
    requires IsTree(t) && v in t.parent && Reached(t, m, v) && w in Children(t, v)
    ensures w != v
    ensures Reached(t, m, w) <==> Handle(Arriving(t, m, v)).Relay?
    ensures Reached(t, m, w) ==> Arriving(t, m, w) == Handle(Arriving(t, m, v)).next
  {
    ChildIsDeeper(t, v, w);
    CarriedFurther(m, t.depth[v], t.depth[w], Handle(Arriving(t, m, v)));
  }

  lemma ChildIsDeeper(t: Tree, v: NodeID, w: NodeID)
    requires IsTree(t) && v in t.parent && w in Children(t, v)
    ensures w != v && t.depth[v] >= 1 && t.depth[w] == t.depth[v] + 1
  {
  }

  lemma CarriedFurther(m: Request, d: nat, more: nat, o: Outcome)
    requires d >= 1 && more == d + 1 && Carried(m, d).Some? && o == Handle(Carried(m, d).value)
    ensures Carried(m, more) == if o.Relay? then Some(o.next) else None
  {
    CarriedOn(m, d);
  }

  lemma CarriedOn(m: Request, d: nat)
    requires d >= 1 && Carried(m, d).Some?
    ensures
      var o := Handle(Carried(m, d).value);
      Carried(m, d + 1) == match o case Relay(_, next) => Some(next) case Crash => None
  {
  }

  /** After v is served, v is no longer due and its children are. */
  lemma DueNodes(t: Tree, m: Request, handled: seq<NodeID>, v: NodeID, w: NodeID)
    requires IsTree(t) && v in t.parent && IsDue(t, m, handled, v) && w in t.parent
    requires forall x | x in handled :: x in t.parent && (t.parent[x] == t.root || t.parent[x] in handled)
    ensures IsDue(t, m, handled + [v], w) <==>
            (IsDue(t, m, handled, w) && w != v) || (w in Children(t, v) && Reached(t, m, w))
    ensures w in Children(t, v) ==> !IsDue(t, m, handled, w)
  {
    if w in Children(t, v) {
      ChildArrives(t, m, v, w);
    }
  }

  lemma DueAfter(t: Tree, m: Request, handled: seq<NodeID>, v: NodeID)
    requires IsTree(t) && v in t.parent && IsDue(t, m, handled, v)
    requires forall x | x in handled :: x in t.parent && (t.parent[x] == t.root || t.parent[x] in handled)
    ensures CopyFor(t, m, v) in Due(t, m, handled) && Due(t, m, handled) !! Onward(t, m, v)
    ensures Due(t, m, handled + [v]) == (Due(t, m, handled) - {CopyFor(t, m, v)}) + Onward(t, m, v)
  {
    forall w | w in t.parent
      ensures IsDue(t, m, handled + [v], w) <==>
              (IsDue(t, m, handled, w) && w != v) || (w in Children(t, v) && Reached(t, m, w))
      ensures w in Children(t, v) ==> !IsDue(t, m, handled, w)
    {
      DueNodes(t, m, handled, v, w);
    }
    forall w | w in Children(t, v)
      ensures Reached(t, m, w) <==> Handle(Arriving(t, m, v)).Relay?
      ensures Reached(t, m, w) ==> CopyFor(t, m, w) in Onward(t, m, v)
    {
      ChildArrives(t, m, v, w);
    }
    forall c | c in Onward(t, m, v)
      ensures c.to in Children(t, v) && Reached(t, m, c.to) && c == CopyFor(t, m, c.to)
    {
      ChildArrives(t, m, v, c.to);
    }
  }

  lemma PeersButParent(t: Tree, v: NodeID)
    requires IsTree(t) && v in t.parent
    ensures Peers(t, v) - {t.parent[v]} == Children(t, v)
  {
    forall w | w in Children(t, v) ensures w != t.parent[v] {
      assert t.depth[w] == t.depth[v] + 1 && t.depth[v] == t.depth[t.parent[v]] + 1;
    }
  }

  /** What a delivery does to the copies in flight. */
  lemma InFlightAfter(t: Tree, m: Request, f: Flood, v: NodeID)
    requires IsTree(t) && v in t.parent && IsDue(t, m, f.handled, v)
    requires forall x | x in f.handled :: x in t.parent && (t.parent[x] == t.root || t.parent[x] in f.handled)
    requires f.inFlight == multiset(Due(t, m, f.handled))
    ensures Delivered(t, f, CopyFor(t, m, v)).inFlight == multiset(Due(t, m, f.handled + [v]))
  {
    var c := CopyFor(t, m, v);
    DueAfter(t, m, f.handled, v);
    PeersButParent(t, v);
    Replaced(Due(t, m, f.handled), c, Onward(t, m, v));
    assert Handle(c.msg).Crash? ==> f.inFlight - multiset{c} == f.inFlight - multiset{c} + multiset(Onward(t, m, v));
  }

  lemma RowsAfter(t: Tree, m: Request, handled: seq<NodeID>, v: NodeID)
    requires IsTree(t) && forall x | x in handled + [v] :: x in t.parent && Reached(t, m, x)
    ensures RowsOf(t, m, handled + [v]) ==
            RowsOf(t, m, handled) + match Handle(Arriving(t, m, v)) case Relay(row, _) => [(v, row)] case Crash => []
  {
    assert (handled + [v])[..|handled|] == handled;
  }

  lemma DeadAfter(t: Tree, m: Request, handled: seq<NodeID>, v: NodeID)
    requires IsTree(t) && forall x | x in handled + [v] :: x in t.parent && Reached(t, m, x)
    requires v in t.parent && forall x | x in handled :: x in t.parent && Reached(t, m, x)
    ensures DeadOf(t, m, handled + [v]) == DeadOf(t, m, handled) + if Handle(Arriving(t, m, v)).Crash? then {v} else {}
  {
  }

  lemma DeliveredShape(t: Tree, f: Flood, c: Copy)
    ensures
      var g := Delivered(t, f, c);
      && g.handled == f.handled + [c.to]
      && g.rows == f.rows + (match Handle(c.msg) case Relay(row, _) => [(c.to, row)] case Crash => [])
      && g.dead == f.dead + if Handle(c.msg).Crash? then {c.to} else {}
  {
  }

  lemma DeliverInv(t: Tree, m: Request, f: Flood, c: Copy)
    requires IsTree(t) && Inv(t, m, f) && CanDeliver(f, c)
    ensures Inv(t, m, Delivered(t, f, c)) && c.to !in f.handled && c.to in t.parent
  {
    assert c in Due(t, m, f.handled);
    var v := c.to;
    assert c == CopyFor(t, m, v);
    InFlightAfter(t, m, f, v);
    DeliveredShape(t, f, c);
    var now := f.handled + [v];
    assert forall x | x in now :: x in t.parent && Reached(t, m, x);
    RowsAfter(t, m, f.handled, v);
    DeadAfter(t, m, f.handled, v);
  }

  lemma {:induction false} FloodInv(t: Tree, m: Request, f: Flood, cs: seq<Copy>)
    requires IsTree(t) && Inv(t, m, f) && CanFlood(t, f, cs)
    ensures Inv(t, m, Flooded(t, f, cs)) && |Flooded(t, f, cs).handled| == |f.handled| + |cs|
    decreases |cs|
  {
    if cs != [] {
      DeliverInv(t, m, f, cs[0]);
      FloodInv(t, m, Delivered(t, f, cs[0]), cs[1..]);
    }
  }

  // ---- Every run ----------------------------------------------------------------------

  lemma {:induction false} SizeOfDistinct(s: seq<NodeID>, all: set<NodeID>)
    requires forall i, j :: 0 <= i < j < |s| ==> s[i] != s[j]
    requires forall v | v in s :: v in all
    ensures |s| <= |all|
  {
    if s != [] {
      var v := s[|s| - 1];
      var front := s[..|s| - 1];
      assert forall w | w in front :: w in all - {v};
      SizeOfDistinct(front, all - {v});
    }
  }

  /** No node is served twice, so a flood ends after at most one delivery per node. */
  lemma FloodTerminates(t: Tree, m: Request, cs: seq<Copy>)
    requires IsTree(t) && CanFlood(t, Start(t, m), cs)
    ensures |cs| <= |t.parent|
    ensures forall i, j :: 0 <= i < j < |Flooded(t, Start(t, m), cs).handled| ==>
              Flooded(t, Start(t, m), cs).handled[i] != Flooded(t, Start(t, m), cs).handled[j]
  {
    StartInv(t, m);
    FloodInv(t, m, Start(t, m), cs);
    SizeOfDistinct(Flooded(t, Start(t, m), cs).handled, t.parent.Keys);
  }

  /** While some node that can be reached is unserved, some copy is due. */
  lemma {:induction false} SomethingDue(t: Tree, m: Request, handled: seq<NodeID>, v: NodeID)
    requires IsTree(t) && v in t.parent && Reached(t, m, v) && v !in handled
    ensures Due(t, m, handled) != {}
    decreases t.depth[v]
  {
    var u := t.parent[v];
    if u != t.root && u !in handled {
      SomethingDue(t, m, handled, u);
    } else {
      assert CopyFor(t, m, v) in Due(t, m, handled);
    }
  }

  lemma DueIsDeliverable(t: Tree, m: Request, f: Flood)
    requires IsTree(t) && Inv(t, m, f) && Due(t, m, f.handled) != {}
    ensures exists c :: CanDeliver(f, c)
  {
    var c :| c in Due(t, m, f.handled);
    assert CanDeliver(f, c);
  }

  /** When a flood can deliver no more, it has served exactly the nodes the request gets
      as far as, each once; those whose handler did not crash have stored its row. */
  lemma FloodReaches(t: Tree, m: Request, cs: seq<Copy>)
    requires IsTree(t) && CanFlood(t, Start(t, m), cs)
    requires forall c :: !CanDeliver(Flooded(t, Start(t, m), cs), c)
    ensures
      var f := Flooded(t, Start(t, m), cs);
      && f.inFlight == multiset{}
      && (forall v :: v in f.handled <==> v in t.parent && Reached(t, m, v))
      && (forall i, j :: 0 <= i < j < |f.handled| ==> f.handled[i] != f.handled[j])
      && f.rows == RowsOf(t, m, f.handled)
      && f.dead == DeadOf(t, m, f.handled)
  {
    StartInv(t, m);
    FloodInv(t, m, Start(t, m), cs);
    var f := Flooded(t, Start(t, m), cs);
    if Due(t, m, f.handled) != {} {
      DueIsDeliverable(t, m, f);
    }
    forall v | v in t.parent && Reached(t, m, v) ensures v in f.handled {
      if v !in f.handled {
        SomethingDue(t, m, f.handled, v);
      }
    }
  }

  // ---- Transactions -----------------------------------------------------------------

  lemma {:induction false} TxCarried(m: Request, d: nat)
    requires m.TxRequest? && Handle(m).Relay? && d >= 1
    ensures Carried(m, d) == Some(m)
  {
    if d > 1 {
      TxCarried(m, d - 1);
    }
  }

  /** These nodes get the request as it is. */
  predicate AllGet(t: Tree, m: Request, handled: seq<NodeID>)
    requires IsTree(t)
  {
    forall v | v in handled :: v in t.parent && Reached(t, m, v) && Arriving(t, m, v) == m
  }

  lemma RowOfRelay(t: Tree, m: Request, front: seq<NodeID>, v: NodeID, row: Row)
    requires IsTree(t) && AllGet(t, m, front + [v]) && Handle(m).Relay? && Handle(m).row == row
    ensures AllGet(t, m, front) && RowsOf(t, m, front + [v]) == RowsOf(t, m, front) + [(v, row)]
  {
    assert forall x | x in front :: x in front + [v];
    assert v in front + [v];
    RowsAfter(t, m, front, v);
  }

  lemma {:induction false} RowsWhenAllRelay(t: Tree, m: Request, handled: seq<NodeID>, row: Row)
    requires IsTree(t) && AllGet(t, m, handled) && Handle(m).Relay? && Handle(m).row == row
    ensures |RowsOf(t, m, handled)| == |handled|
    ensures forall i :: 0 <= i < |handled| ==> RowsOf(t, m, handled)[i] == (handled[i], row)
  {
    if handled != [] {
      var front, v := handled[..|handled| - 1], handled[|handled| - 1];
      assert handled == front + [v];
      RowOfRelay(t, m, front, v, row);
      RowsWhenAllRelay(t, m, front, row);
    }
  }

  /** A transaction with both fields floods any tree, in any order of deliveries: when it
      is over, every node has stored it exactly once and every handler lives. */
  lemma TransactionReachesAllOnce(t: Tree, shown: string, tx: string, cs: seq<Copy>)
    requires IsTree(t)
    requires CanFlood(t, Start(t, TxRequest(Some(shown), Some(tx))), cs)
    requires forall c :: !CanDeliver(Flooded(t, Start(t, TxRequest(Some(shown), Some(tx))), cs), c)
    ensures
      var f := Flooded(t, Start(t, TxRequest(Some(shown), Some(tx))), cs);
      && f.dead == {} && |f.rows| == |f.handled|
      && (forall i :: 0 <= i < |f.rows| ==> f.rows[i] == (f.handled[i], TxRow(tx)))
      && (forall v :: v in f.handled <==> v in t.parent)
      && (forall i, j :: 0 <= i < j < |f.handled| ==> f.handled[i] != f.handled[j])
  {
    var m := TxRequest(Some(shown), Some(tx));
    FloodReaches(t, m, cs);
    forall v | v in t.parent ensures Reached(t, m, v) && Arriving(t, m, v) == m {
      TxCarried(m, t.depth[v]);
    }
    RowsWhenAllRelay(t, m, Flooded(t, Start(t, m), cs).handled, TxRow(tx));
  }

  // ---- Requests that a handler refuses -------------------------------------------------

  lemma {:induction false} NoRowsWhenCrash(t: Tree, m: Request, handled: seq<NodeID>)
    requires IsTree(t) && forall v | v in handled :: v in t.parent && Reached(t, m, v)
    requires forall v | v in handled :: Handle(Arriving(t, m, v)).Crash?
    ensures RowsOf(t, m, handled) == []
  {
    if handled != [] {
      NoRowsWhenCrash(t, m, handled[..|handled| - 1]);
    }
  }

  lemma {:induction false} CrashCarried(m: Request, d: nat)
    requires Handle(m).Crash? && d >= 1
    ensures Carried(m, d) == if d == 1 then Some(m) else None
  {
    if d > 1 {
      CrashCarried(m, d - 1);
    }
  }

  /** What a handler needs of a request: both names of the field, and in a block a hash that
      `int` reads. */
  predicate Answerable(m: Request) {
    match m
    case TxRequest(shown, txs) => shown.Some? && txs.Some?
    case BlockRequest(shown, blocks) => shown.Some? && blocks.Some? && Readable(blocks.value.hash)
  }

  /** What is stored for a request: the transaction as it came; the block with its content and
      the number its hash means. */
  predicate StoredFor(m: Request, row: Row) {
    match m
    case TxRequest(_, Some(tx)) => row == TxRow(tx)
    case BlockRequest(_, Some(b)) => row.BlockRow? && HoldsNumber(b.hash, row.block.hash) && row.block.content == b.content
    case _ => false
  }

  /** What goes on: the transaction as it came, the block as it was stored. */
  lemma HandleIs(m: Request)
    ensures Handle(m).Relay? <==> Answerable(m)
    ensures Answerable(m) ==>
              var o := Handle(m);
              StoredFor(m, o.row) && o.next == if m.TxRequest? then m else BlockRequest(m.block, Some(o.row.block))
  {
    if m.BlockRequest? && m.blocks.Some? {
      SealedHashIs(m.blocks.value.hash);
    }
  }

  /** A request that lacks a field, as the documentation's example transaction does, or whose
      block has an unreadable hash, is stored nowhere and ends the handlers of all the
      origin's peers; any other is stored by these at least. */
  lemma IncompleteRequestKills(t: Tree, m: Request, cs: seq<Copy>)
    requires IsTree(t) && CanFlood(t, Start(t, m), cs)
    requires forall c :: !CanDeliver(Flooded(t, Start(t, m), cs), c)
    ensures
      var f := Flooded(t, Start(t, m), cs);
      && (!Answerable(m) ==> f.rows == [] && f.dead == Children(t, t.root))
      && (Answerable(m) ==> f.dead !! Children(t, t.root)
                            && forall v | v in Children(t, t.root) :: exists r :: (v, r) in f.rows && StoredFor(m, r))
  {
    HandleIs(m);
    FloodReaches(t, m, cs);
    var f := Flooded(t, Start(t, m), cs);
    if Answerable(m) {
      FirstNodes(t, m, f.handled);
    } else {
      CrashNodes(t, m);
      NoRowsWhenCrash(t, m, f.handled);
      CrashDead(t, m, f.handled);
    }
  }

  /** The origin's own peers get the request as it was sent. */
  lemma FirstNodes(t: Tree, m: Request, handled: seq<NodeID>)
    requires IsTree(t) && Handle(m).Relay?
    requires forall v :: v in handled <==> v in t.parent && Reached(t, m, v)
    ensures DeadOf(t, m, handled) !! Children(t, t.root)
    ensures forall v | v in Children(t, t.root) :: exists r :: (v, r) in RowsOf(t, m, handled) && StoredFor(m, r)
  {
    DepthOne(t);
    HandleIs(m);
    RowsAre(t, m, handled);
    forall v | v in Children(t, t.root)
      ensures (exists r :: (v, r) in RowsOf(t, m, handled) && StoredFor(m, r)) && v !in DeadOf(t, m, handled)
    {
      assert t.depth[v] == 1 && Carried(m, 1) == Some(m);
      assert Reached(t, m, v) && Arriving(t, m, v) == m;
      assert (v, Handle(m).row) in RowsOf(t, m, handled);
    }
  }

  /** The origin's transaction is stored by every other node exactly if both fields are there
      or there is no other node. */
  lemma TransactionIff(t: Tree, shown: Option<string>, txs: Option<string>, cs: seq<Copy>)
    requires IsTree(t) && CanFlood(t, Start(t, TxRequest(shown, txs)), cs)
    requires forall c :: !CanDeliver(Flooded(t, Start(t, TxRequest(shown, txs)), cs), c)
    ensures
      var f := Flooded(t, Start(t, TxRequest(shown, txs)), cs);
      (forall v | v in t.parent :: txs.Some? && (v, TxRow(txs.value)) in f.rows)
      <==> t.parent == map[] || (shown.Some? && txs.Some?)
  {
    var m := TxRequest(shown, txs);
    var f := Flooded(t, Start(t, m), cs);
    if shown.Some? && txs.Some? {
      TransactionReachesAllOnce(t, shown.value, txs.value, cs);
      forall v | v in t.parent ensures (v, TxRow(txs.value)) in f.rows {
        var i :| 0 <= i < |f.handled| && f.handled[i] == v;
        assert f.rows[i] == (v, TxRow(txs.value));
      }
    } else {
      IncompleteRequestKills(t, m, cs);
    }
  }

  lemma CrashNodes(t: Tree, m: Request)
    requires IsTree(t) && Handle(m).Crash?
    ensures forall v | v in t.parent :: Reached(t, m, v) <==> v in Children(t, t.root)
    ensures forall v | v in t.parent && Reached(t, m, v) :: Arriving(t, m, v) == m
  {
    forall v | v in t.parent
      ensures Reached(t, m, v) <==> t.depth[v] == 1
      ensures Reached(t, m, v) ==> Arriving(t, m, v) == m
    {
      CrashCarried(m, t.depth[v]);
    }
    DepthOne(t);
  }

  lemma CrashDead(t: Tree, m: Request, handled: seq<NodeID>)
    requires IsTree(t) && Handle(m).Crash?
    requires forall v :: v in handled <==> v in t.parent && Reached(t, m, v)
    ensures DeadOf(t, m, handled) == Children(t, t.root)
  {
    CrashNodes(t, m);
  }

  lemma RootIsTop(t: Tree, u: NodeID)
    requires IsTree(t) && u in t.depth
    ensures t.depth[u] == 0 <==> u == t.root
  {
    if u in t.parent {
      assert t.depth[u] == t.depth[t.parent[u]] + 1;
    }
  }

  lemma DepthOne(t: Tree)
    requires IsTree(t)
    ensures forall v | v in t.parent :: t.depth[v] == 1 <==> v in Children(t, t.root)
  {
    forall v | v in t.parent ensures t.depth[v] == 1 <==> t.parent[v] == t.root {
      RootIsTop(t, t.parent[v]);
    }
  }

  // ---- Blocks -----------------------------------------------------------------------------

  /** A block goes two steps: it is stored at the first, and as it was stored it kills the
      second. */
  lemma {:induction false} BlockCarried(m: Request, d: nat)
    requires m.BlockRequest? && Answerable(m) && d >= 1
    ensures Handle(m).Relay? && Handle(m).row.BlockRow? && StoredFor(m, Handle(m).row)
    ensures
      var sentOn := BlockRequest(m.block, Some(Handle(m).row.block));
      && Carried(m, d) == (if d == 1 then Some(m) else if d == 2 then Some(sentOn) else None)
      && !Answerable(sentOn) && Handle(sentOn).Crash?
  {
    HandleIs(m);
    var sentOn := BlockRequest(m.block, Some(Handle(m).row.block));
    HandleIs(sentOn);
    if d > 1 {
      BlockCarried(m, d - 1);
    }
  }

  /** The rows are those of the handlers that did not crash, */
  lemma {:induction false} RowsAre(t: Tree, m: Request, handled: seq<NodeID>)
    requires IsTree(t) && forall w | w in handled :: w in t.parent && Reached(t, m, w)
    ensures forall v, r :: (v, r) in RowsOf(t, m, handled) <==>
                           v in handled && Handle(Arriving(t, m, v)).Relay? && Handle(Arriving(t, m, v)).row == r
  {
    if handled != [] {
      RowsAre(t, m, handled[..|handled| - 1]);
      assert handled == handled[..|handled| - 1] + [handled[|handled| - 1]];
    }
  }

  lemma RowsWithin(t: Tree, m: Request, handled: seq<NodeID>)
    requires IsTree(t) && forall w | w in handled :: w in t.parent && Reached(t, m, w)
    ensures var rows := RowsOf(t, m, handled); forall i :: 0 <= i < |rows| ==> rows[i].0 in handled
  {
    RowsAre(t, m, handled);
    var rows := RowsOf(t, m, handled);
    forall i | 0 <= i < |rows| ensures rows[i].0 in handled {
      var (v, r) := rows[i];
      assert (v, r) in rows;
    }
  }

  lemma OneMoreNode(rows: seq<(NodeID, Row)>, more: seq<(NodeID, Row)>, front: seq<NodeID>, v: NodeID)
    requires forall i, j :: 0 <= i < j < |rows| ==> rows[i].0 != rows[j].0
    requires (forall i :: 0 <= i < |rows| ==> rows[i].0 in front) && v !in front
    requires |more| <= 1 && (more != [] ==> more[0].0 == v)
    ensures var all := rows + more; forall i, j :: 0 <= i < j < |all| ==> all[i].0 != all[j].0
  {
  }

  /** each once. */
  lemma {:induction false} RowsOnce(t: Tree, m: Request, handled: seq<NodeID>)
    requires IsTree(t) && forall w | w in handled :: w in t.parent && Reached(t, m, w)
    requires forall i, j :: 0 <= i < j < |handled| ==> handled[i] != handled[j]
    ensures
      var rows := RowsOf(t, m, handled);
      forall i, j :: 0 <= i < j < |rows| ==> rows[i].0 != rows[j].0
  {
    if handled != [] {
      var last := |handled| - 1;
      var front, v := handled[..last], handled[last];
      RowsOnce(t, m, front);
      RowsWithin(t, m, front);
      assert handled == front + [v] && v !in front;
      RowsAfter(t, m, front, v);
      var more := match Handle(Arriving(t, m, v)) case Relay(row, _) => [(v, row)] case Crash => [];
      OneMoreNode(RowsOf(t, m, front), more, front, v);
    }
  }

  ghost predicate HasRow(rows: seq<(NodeID, Row)>, v: NodeID) {
    exists r :: (v, r) in rows
  }

  lemma BlockFlood(t: Tree, m: Request, cs: seq<Copy>)
    requires IsTree(t) && m.BlockRequest? && Answerable(m) && CanFlood(t, Start(t, m), cs)
    requires forall c :: !CanDeliver(Flooded(t, Start(t, m), cs), c)
    ensures
      var f := Flooded(t, Start(t, m), cs);
      && (forall v | v in t.parent :: HasRow(f.rows, v) <==> v in Children(t, t.root))
      && (forall v, r :: (v, r) in f.rows ==> StoredFor(m, r))
      && (forall i, j :: 0 <= i < j < |f.rows| ==> f.rows[i].0 != f.rows[j].0)
      && f.dead == (set v | v in t.parent && t.depth[v] == 2)
  {
    FloodReaches(t, m, cs);
    var f := Flooded(t, Start(t, m), cs);
    BlockRows(t, m, f.handled);
    BlockDead(t, m, f.handled);
    RowsOnce(t, m, f.handled);
  }

  /** A broadcast block is stored by the origin's own peers, each once, with its content and
      the number its hash means, and by nobody else; the handlers one step further die of it.
      So it reaches every node exactly if all are peers of the origin. */
  lemma BlockReachesOnlyPeers(t: Tree, shown: string, b: Block, cs: seq<Copy>)
    requires IsTree(t) && Readable(b.hash)
    requires CanFlood(t, Start(t, BlockRequest(Some(shown), Some(b))), cs)
    requires forall c :: !CanDeliver(Flooded(t, Start(t, BlockRequest(Some(shown), Some(b))), cs), c)
    ensures
      var f := Flooded(t, Start(t, BlockRequest(Some(shown), Some(b))), cs);
      && (forall v | v in t.parent :: HasRow(f.rows, v) <==> v in Children(t, t.root))
      && (forall v, r :: (v, r) in f.rows ==> r.BlockRow? && HoldsNumber(b.hash, r.block.hash) && r.block.content == b.content)
      && (forall i, j :: 0 <= i < j < |f.rows| ==> f.rows[i].0 != f.rows[j].0)
      && f.dead == (set v | v in t.parent && t.depth[v] == 2)
      && ((forall v | v in t.parent :: HasRow(f.rows, v)) <==> t.parent.Keys == Children(t, t.root))
  {
    BlockFlood(t, BlockRequest(Some(shown), Some(b)), cs);
    AllChildren(t, Flooded(t, Start(t, BlockRequest(Some(shown), Some(b))), cs).rows);
  }

  lemma AllChildren(t: Tree, rows: seq<(NodeID, Row)>)
    requires IsTree(t) && forall v | v in t.parent :: HasRow(rows, v) <==> v in Children(t, t.root)
    ensures (forall v | v in t.parent :: HasRow(rows, v)) <==> t.parent.Keys == Children(t, t.root)
  {
    assert t.parent.Keys == Children(t, t.root) <==> forall v | v in t.parent :: v in Children(t, t.root);
  }

  lemma BlockRows(t: Tree, m: Request, handled: seq<NodeID>)
    requires IsTree(t) && m.BlockRequest? && Answerable(m)
    requires forall v :: v in handled <==> v in t.parent && Reached(t, m, v)
    ensures forall v | v in t.parent :: HasRow(RowsOf(t, m, handled), v) <==> v in Children(t, t.root)
    ensures forall v, r :: (v, r) in RowsOf(t, m, handled) ==> StoredFor(m, r)
  {
    DepthOne(t);
    BlockNodes(t, m);
    HandleIs(m);
    RowsAre(t, m, handled);
    forall v | v in t.parent ensures HasRow(RowsOf(t, m, handled), v) <==> v in Children(t, t.root) {
      if v in Children(t, t.root) {
        assert (v, Handle(m).row) in RowsOf(t, m, handled);
      }
    }
  }

  lemma BlockNodes(t: Tree, m: Request)
    requires IsTree(t) && m.BlockRequest? && Answerable(m)
    ensures forall v | v in t.parent :: Reached(t, m, v) <==> t.depth[v] <= 2
    ensures forall v | v in t.parent && Reached(t, m, v) ::
              && (Handle(Arriving(t, m, v)).Relay? <==> t.depth[v] == 1)
              && (t.depth[v] == 1 ==> Arriving(t, m, v) == m)
  {
    forall v | v in t.parent
      ensures Reached(t, m, v) <==> t.depth[v] <= 2
      ensures Reached(t, m, v) ==>
                (Handle(Arriving(t, m, v)).Relay? <==> t.depth[v] == 1) && (t.depth[v] == 1 ==> Arriving(t, m, v) == m)
    {
      BlockCarried(m, t.depth[v]);
    }
  }

  lemma BlockDead(t: Tree, m: Request, handled: seq<NodeID>)
    requires IsTree(t) && m.BlockRequest? && Answerable(m)
    requires forall v :: v in handled <==> v in t.parent && Reached(t, m, v)
    ensures DeadOf(t, m, handled) == set v | v in t.parent && t.depth[v] == 2
  {
    BlockNodes(t, m);
  }
}
