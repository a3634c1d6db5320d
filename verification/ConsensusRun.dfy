/** consensusMgr on n nodes at once, over a network that may lose, repeat and reorder:
    no block is sealed twice for one publication, nor without enough signers. */
module ConsensusRun {
  import opened Wire
  import opened HexText
  import opened Tallies

  type NodeID = string

  datatype Msg =
    | Propose(block: Block)   // method 05
    | AskSign(block: Block)   // method 06
    | Signed(hash: Hash)      // method 07
    | Announce(block: Block)  // method 08
    | Want(hash: Hash)        // method 09

  datatype Envelope = Envelope(from: NodeID, to: NodeID, msg: Msg)

  /** What `temp` holds: the block, and which publication put it there. */
  datatype Proposal = Proposal(block: Block, born: nat)

  datatype Node = Node(temp: map<Hash, Entry<Proposal>>, threshold: int, stored: seq<Block>, failed: bool)

  datatype Publication = Publication(node: NodeID, block: Block)

  /** One sealing: the publication it belongs to, what was announced and by whose votes. */
  datatype Seal = Seal(born: nat, node: NodeID, block: Block, voters: seq<NodeID>)

  datatype Net = Net(
    nodes: map<NodeID, Node>,
    sent: set<Envelope>,                    // every envelope ever sent
    received: set<(NodeID, NodeID, Hash)>,  // who received from whom, by 05 or 06, a block with which hash
    published: seq<Publication>,
    seals: seq<Seal>)

  datatype Event =
    | Publish(p: NodeID, block: Block, to: set<NodeID>)
    | Request(p: NodeID, block: Block, one: NodeID)  // any node may ask for a signature
    | Ask(p: NodeID, hash: Hash, one: NodeID)        // or for a block
    | Deliver(env: Envelope, to: set<NodeID>)        // `to`: the receiver's peers, if it broadcasts

  function Start(thresholds: map<NodeID, int>): Net {
    Net(map p | p in thresholds :: Node(map[], thresholds[p], [], false), {}, {}, [], [])
  }

  predicate Enabled(n: Net, ev: Event) {
    match ev
    case Publish(p, _, _) => p in n.nodes
    case Request(p, _, _) => p in n.nodes
    case Ask(p, _, _) => p in n.nodes
    case Deliver(env, _) => env in n.sent && env.to in n.nodes && !n.nodes[env.to].failed
  }

  function Post(n: Net, p: NodeID, to: set<NodeID>, m: Msg): Net {
    n.(sent := n.sent + set q | q in to :: Envelope(p, q, m))
  }

  function Update(n: Net, p: NodeID, node: Node): Net {
    n.(nodes := n.nodes[p := node])
  }

  /** publishBlock. */
  function Published(n: Net, p: NodeID, b: Block, to: set<NodeID>): Net
    requires p in n.nodes
  {
    var node := n.nodes[p];
    var n1 := Update(n, p, node.(temp := node.temp[b.hash := Entry(Proposal(b, |n.published|), [], false)]));
    Post(n1.(published := n.published + [Publication(p, b)]), p, to, Propose(b))
  }

  /** A block that came by 05 or 06 is signed, and its hash returned to the sender. */
  function SignedBlock(n: Net, env: Envelope, b: Block): Net {
    Post(n.(received := n.received + {(env.to, env.from, b.hash)}), env.to, {env.from}, Signed(b.hash))
  }

  /** The node after its entry for `h` was sealed: the record's hash becomes a number and
      the record is stored, unless its hash does not read as a number. */
  function AfterSeal(node: Node, h: Hash): Node
    requires h in node.temp
  {
    var e := node.temp[h];
    match SealedHash(e.block.block.hash)
    case Some(v) =>
      var b := Block(Num(v), e.block.block.content);
      node.(temp := node.temp[h := e.(block := Proposal(b, e.block.born))], stored := node.stored + [b])
    case None => node.(failed := true)
  }

  /** vote. */
  function Counting(n: Net, p: NodeID, voter: NodeID, h: Hash, to: set<NodeID>): Net
    requires p in n.nodes
  {
    var node := n.nodes[p];
    var after := node.(temp := Voted(node.temp, Ballot(voter, h), node.threshold));
    if h in node.temp && Seals(node.temp[h], voter, node.threshold) then
      var e := after.temp[h];
      var n1 := Update(n, p, AfterSeal(after, h));
      Post(n1.(seals := n.seals + [Seal(e.block.born, p, e.block.block, e.voters)]), p, to, Announce(e.block.block))
    else Update(n, p, after)
  }

  /** A request for a block that is not in `temp` raises. */
  function Answering(n: Net, env: Envelope, h: Hash): Net
    requires env.to in n.nodes
  {
    var node := n.nodes[env.to];
    if h in node.temp then Post(n, env.to, {env.from}, Propose(node.temp[h].block.block))
    else Update(n, env.to, node.(failed := true))
  }

  function Next(n: Net, ev: Event): Net
    requires Enabled(n, ev)
  {
    match ev
    case Publish(p, b, to) => Published(n, p, b, to)
    case Request(p, b, q) => Post(n, p, {q}, AskSign(b))
    case Ask(p, h, q) => Post(n, p, {q}, Want(h))
    case Deliver(env, to) =>
      match env.msg
      case Propose(b) => SignedBlock(n, env, b)
      case AskSign(b) => SignedBlock(n, env, b)
      case Signed(h) => Counting(n, env.to, env.from, h, to)
      case Announce(_) => n
      case Want(h) => Answering(n, env, h)
  }

  predicate CanRun(n: Net, evs: seq<Event>)
    decreases |evs|
  {
    evs == [] || (Enabled(n, evs[0]) && CanRun(Next(n, evs[0]), evs[1..]))
  }

  function Run(n: Net, evs: seq<Event>): Net
    requires CanRun(n, evs)
    decreases |evs|
  {
    if evs == [] then n else Run(Next(n, evs[0]), evs[1..])
  }

  // ---- The invariant --------------------------------------------------------------------

  /** v received a block with hash h from p, and answered with a 07. */
  predicate Signer(n: Net, p: NodeID, v: NodeID, h: Hash) {
    Envelope(v, p, Signed(h)) in n.sent && (v, p, h) in n.received
  }

  predicate Signers(n: Net, p: NodeID, vs: seq<NodeID>, h: Hash) {
    && (forall i, j :: 0 <= i < j < |vs| ==> vs[i] != vs[j])
    && (forall v | v in vs :: Signer(n, p, v, h))
  }

  /** Votes are only made by signing. */
  predicate VotesAreSigned(n: Net) {
    forall e | e in n.sent && e.msg.Signed? :: (e.from, e.to, e.msg.hash) in n.received
  }

  predicate EntryOK(n: Net, p: NodeID, h: Hash)
    requires p in n.nodes && h in n.nodes[p].temp
  {
    var e := n.nodes[p].temp[h];
    && e.block.born < |n.published|
    && n.published[e.block.born].node == p && n.published[e.block.born].block.hash == h
    && Signers(n, p, e.voters, h)
    && (!e.agreed ==> e.block.block == n.published[e.block.born].block
                      && forall s | s in n.seals :: s.born != e.block.born)
  }

  predicate SealOK(n: Net, s: Seal) {
    && s.born < |n.published| && n.published[s.born] == Publication(s.node, s.block)
    && s.node in n.nodes && |s.voters| >= Needed(n.nodes[s.node].threshold)
    && Signers(n, s.node, s.voters, s.block.hash)
  }

  /** What the sealings of a node make it store. */
  function Kept(seals: seq<Seal>, p: NodeID): seq<Block> {
    if seals == [] then []
    else
      var s := seals[|seals| - 1];
      Kept(seals[..|seals| - 1], p) +
      if s.node == p && SealedHash(s.block.hash).Some? then [Block(Num(SealedHash(s.block.hash).value), s.block.content)] else []
  }

  predicate Inv(n: Net) {
    && (forall p | p in n.nodes :: n.nodes[p].stored == Kept(n.seals, p))
    && VotesAreSigned(n)
    && (forall p, h | p in n.nodes && h in n.nodes[p].temp :: EntryOK(n, p, h))
    && (forall s | s in n.seals :: SealOK(n, s))
    && (forall i, j :: 0 <= i < j < |n.seals| ==> n.seals[i].born != n.seals[j].born)
    && (forall e | e in n.sent && e.msg.Announce? :: exists s :: s in n.seals && s.node == e.from && s.block == e.msg.block)
  }

  /** What only ever grows keeps signers signers. */
  predicate Grows(n: Net, m: Net) {
    && n.sent <= m.sent && n.received <= m.received && n.published <= m.published
    && n.nodes.Keys == m.nodes.Keys && (forall p | p in n.nodes :: m.nodes[p].threshold == n.nodes[p].threshold)
  }

  lemma SignersGrow(n: Net, m: Net, p: NodeID, vs: seq<NodeID>, h: Hash)
    requires Grows(n, m) && Signers(n, p, vs, h)
    ensures Signers(m, p, vs, h)
  {
    forall v | v in vs ensures Signer(m, p, v, h) {
      assert Signer(n, p, v, h);
    }
  }

  lemma SealGrows(n: Net, m: Net, s: Seal)
    requires Grows(n, m) && SealOK(n, s)
    ensures SealOK(m, s)
  {
    SignersGrow(n, m, s.node, s.voters, s.block.hash);
  }

  lemma EntryGrows(n: Net, m: Net, p: NodeID, h: Hash)
    requires Grows(n, m) && p in n.nodes && h in n.nodes[p].temp && EntryOK(n, p, h)
    requires p in m.nodes && h in m.nodes[p].temp && m.nodes[p].temp[h] == n.nodes[p].temp[h]
    requires forall s | s in m.seals :: s in n.seals || s.born != n.nodes[p].temp[h].block.born
    ensures EntryOK(m, p, h)
  {
    SignersGrow(n, m, p, n.nodes[p].temp[h].voters, h);
  }

  /** A step that changes no entry and seals nothing. */
  lemma QuietInv(n: Net, m: Net)
    requires Inv(n) && Grows(n, m) && m.seals == n.seals && VotesAreSigned(m)
    requires forall p | p in n.nodes :: m.nodes[p].temp == n.nodes[p].temp && m.nodes[p].stored == n.nodes[p].stored
    requires forall e | e in m.sent && e.msg.Announce? :: e in n.sent
    ensures Inv(m)
  {
    forall p, h | p in m.nodes && h in m.nodes[p].temp ensures EntryOK(m, p, h) {
      assert EntryOK(n, p, h);
      EntryGrows(n, m, p, h);
    }
    forall s | s in m.seals ensures SealOK(m, s) {
      SealGrows(n, m, s);
    }
  }

  lemma PublishInv(n: Net, p: NodeID, b: Block, to: set<NodeID>)
    requires Inv(n) && p in n.nodes
    ensures Inv(Published(n, p, b, to))
  {
    var m := Published(n, p, b, to);
    assert Grows(n, m);
    forall q, h | q in m.nodes && h in m.nodes[q].temp ensures EntryOK(m, q, h) {
      if q == p && h == b.hash {
        assert forall s | s in n.seals :: SealOK(n, s);
      } else {
        assert EntryOK(n, q, h);
        EntryGrows(n, m, q, h);
      }
    }
    forall s | s in m.seals ensures SealOK(m, s) {
      SealGrows(n, m, s);
    }
  }

  lemma SignInv(n: Net, env: Envelope, b: Block)
    requires Inv(n)
    ensures Inv(SignedBlock(n, env, b))
  {
    QuietInv(n, SignedBlock(n, env, b));
  }

  /** The new entry's voters are signers too. */
  lemma VoterSigns(n: Net, p: NodeID, voter: NodeID, h: Hash)
    requires Inv(n) && p in n.nodes && h in n.nodes[p].temp && Envelope(voter, p, Signed(h)) in n.sent
    ensures Signers(n, p, Counted(n.nodes[p].temp[h], voter, n.nodes[p].threshold).voters, h)
  {
    assert EntryOK(n, p, h);
    assert Signer(n, p, voter, h);
  }

  lemma CountInv(n: Net, p: NodeID, voter: NodeID, h: Hash, to: set<NodeID>)
    requires Inv(n) && p in n.nodes && Envelope(voter, p, Signed(h)) in n.sent
    ensures Inv(Counting(n, p, voter, h, to))
  {
    var node := n.nodes[p];
    var m := Counting(n, p, voter, h, to);
    if h in node.temp && Seals(node.temp[h], voter, node.threshold) {
      SealInv(n, p, voter, h, to);
    } else if h in node.temp {
      VoterSigns(n, p, voter, h);
      assert Grows(n, m);
      forall q, g | q in m.nodes && g in m.nodes[q].temp ensures EntryOK(m, q, g) {
        assert EntryOK(n, q, g);
        if q == p && g == h {
          SignersGrow(n, m, p, m.nodes[p].temp[h].voters, h);
        } else {
          EntryGrows(n, m, q, g);
        }
      }
      forall s | s in m.seals ensures SealOK(m, s) {
        SealGrows(n, m, s);
      }
    } else {
      assert m.nodes[p] == node && m.nodes == n.nodes;
    }
  }

  /** What a sealing vote changes. */
  lemma SealShape(n: Net, p: NodeID, voter: NodeID, h: Hash, to: set<NodeID>)
    requires p in n.nodes && h in n.nodes[p].temp && Seals(n.nodes[p].temp[h], voter, n.nodes[p].threshold)
    ensures
      var node := n.nodes[p];
      var e := Counted(node.temp[h], voter, node.threshold);
      var m := Counting(n, p, voter, h, to);
      && m.seals == n.seals + [Seal(e.block.born, p, e.block.block, e.voters)]
      && m.published == n.published && m.received == n.received
      && m.sent == n.sent + (set q | q in to :: Envelope(p, q, Announce(e.block.block)))
      && m.nodes.Keys == n.nodes.Keys && (forall q | q in n.nodes && q != p :: m.nodes[q] == n.nodes[q])
      && m.nodes[p].threshold == node.threshold && m.nodes[p].temp.Keys == node.temp.Keys
      && (forall g | g in node.temp && g != h :: m.nodes[p].temp[g] == node.temp[g])
      && m.nodes[p].temp[h].voters == e.voters && m.nodes[p].temp[h].agreed && m.nodes[p].temp[h].block.born == e.block.born
      && m.nodes[p].stored == node.stored + Kept([Seal(e.block.born, p, e.block.block, e.voters)], p)
  {
    var e := Counted(n.nodes[p].temp[h], voter, n.nodes[p].threshold);
    var s := Seal(e.block.born, p, e.block.block, e.voters);
    var none: seq<Seal> := [];
    assert [s][..0] == none;
  }

  lemma SealEntries(n: Net, p: NodeID, voter: NodeID, h: Hash, to: set<NodeID>)
    requires Inv(n) && p in n.nodes && Envelope(voter, p, Signed(h)) in n.sent
    requires h in n.nodes[p].temp && Seals(n.nodes[p].temp[h], voter, n.nodes[p].threshold)
    ensures
      var m := Counting(n, p, voter, h, to);
      && Grows(n, m) && Signers(m, p, m.nodes[p].temp[h].voters, h)
      && forall q, g | q in m.nodes && g in m.nodes[q].temp :: EntryOK(m, q, g)
  {
    var m := Counting(n, p, voter, h, to);
    SealShape(n, p, voter, h, to);
    VoterSigns(n, p, voter, h);
    assert EntryOK(n, p, h) && Grows(n, m);
    SignersGrow(n, m, p, m.nodes[p].temp[h].voters, h);
    forall q, g | q in m.nodes && g in m.nodes[q].temp ensures EntryOK(m, q, g) {
      assert EntryOK(n, q, g);
      if q != p || g != h {
        EntryGrows(n, m, q, g);
      }
    }
  }

  lemma {:induction false} KeptMore(seals: seq<Seal>, s: Seal, p: NodeID)
    ensures Kept(seals + [s], p) == Kept(seals, p) + Kept([s], p)
  {
    var none: seq<Seal> := [];
    assert (seals + [s])[..|seals|] == seals && [s][..0] == none;
  }

  /** One more sealing, of a publication not sealed before, announced and stored. */
  lemma OneMoreSeal(n: Net, m: Net, s: Seal)
    requires Inv(n) && Grows(n, m) && m.seals == n.seals + [s] && SealOK(m, s)
    requires forall t | t in n.seals :: t.born != s.born
    requires forall q | q in n.nodes :: m.nodes[q].stored == n.nodes[q].stored + Kept([s], q)
    requires forall x | x in m.sent && x.msg.Announce? :: x in n.sent || (x.from == s.node && x.msg.block == s.block)
    ensures forall q | q in m.nodes :: m.nodes[q].stored == Kept(m.seals, q)
    ensures forall t | t in m.seals :: SealOK(m, t)
    ensures forall i, j :: 0 <= i < j < |m.seals| ==> m.seals[i].born != m.seals[j].born
    ensures forall x | x in m.sent && x.msg.Announce? :: exists t :: t in m.seals && t.node == x.from && t.block == x.msg.block
  {
    forall t | t in m.seals ensures SealOK(m, t) {
      if t in n.seals {
        SealGrows(n, m, t);
      }
    }
    forall q | q in m.nodes ensures m.nodes[q].stored == Kept(m.seals, q) {
      KeptMore(n.seals, s, q);
    }
    forall x | x in m.sent && x.msg.Announce?
      ensures exists t :: t in m.seals && t.node == x.from && t.block == x.msg.block
    {
      if x in n.sent {
        var t :| t in n.seals && t.node == x.from && t.block == x.msg.block;
        assert t in m.seals;
      } else {
        assert s in m.seals;
      }
    }
  }

  lemma NotMine(s: Seal, q: NodeID)
    requires s.node != q
    ensures Kept([s], q) == []
  {
    var none: seq<Seal> := [];
    assert [s][..0] == none;
  }

  /** The new sealing stands, and the step made no vote of its own. */
  lemma SealStands(n: Net, p: NodeID, voter: NodeID, h: Hash, to: set<NodeID>)
    requires Inv(n) && p in n.nodes && Envelope(voter, p, Signed(h)) in n.sent
    requires h in n.nodes[p].temp && Seals(n.nodes[p].temp[h], voter, n.nodes[p].threshold)
    ensures
      var m := Counting(n, p, voter, h, to);
      && |m.seals| == |n.seals| + 1
      && var s := m.seals[|n.seals|];
      && m.seals == n.seals + [s] && SealOK(m, s)
      && VotesAreSigned(m)
      && (forall t | t in n.seals :: t.born != s.born)
      && (forall x | x in m.sent && x.msg.Announce? :: x in n.sent || (x.from == s.node && x.msg.block == s.block))
  {
    var m := Counting(n, p, voter, h, to);
    SealShape(n, p, voter, h, to);
    SealEntries(n, p, voter, h, to);
    assert EntryOK(n, p, h);
    var s := m.seals[|n.seals|];
    assert SealOK(m, s);
  }

  lemma SealStores(n: Net, p: NodeID, voter: NodeID, h: Hash, to: set<NodeID>)
    requires p in n.nodes && h in n.nodes[p].temp && Seals(n.nodes[p].temp[h], voter, n.nodes[p].threshold)
    ensures
      var m := Counting(n, p, voter, h, to);
      && |m.seals| == |n.seals| + 1
      && forall q | q in n.nodes :: m.nodes[q].stored == n.nodes[q].stored + Kept([m.seals[|n.seals|]], q)
  {
    var m := Counting(n, p, voter, h, to);
    SealShape(n, p, voter, h, to);
    var s := m.seals[|n.seals|];
    forall q | q in n.nodes ensures m.nodes[q].stored == n.nodes[q].stored + Kept([s], q) {
      if q != p {
        NotMine(s, q);
      }
    }
  }

  lemma SealInv(n: Net, p: NodeID, voter: NodeID, h: Hash, to: set<NodeID>)
    requires Inv(n) && p in n.nodes && Envelope(voter, p, Signed(h)) in n.sent
    requires h in n.nodes[p].temp && Seals(n.nodes[p].temp[h], voter, n.nodes[p].threshold)
    ensures Inv(Counting(n, p, voter, h, to))
  {
    var m := Counting(n, p, voter, h, to);
    SealEntries(n, p, voter, h, to);
    SealStands(n, p, voter, h, to);
    SealStores(n, p, voter, h, to);
    OneMoreSeal(n, m, m.seals[|n.seals|]);
  }

  lemma DeliverInv(n: Net, env: Envelope, to: set<NodeID>)
    requires Inv(n) && Enabled(n, Deliver(env, to))
    ensures Inv(Next(n, Deliver(env, to)))
  {
    match env.msg
    case Propose(b) => SignInv(n, env, b);
    case AskSign(b) => SignInv(n, env, b);
    case Signed(h) =>
      assert env == Envelope(env.from, env.to, Signed(h));
      CountInv(n, env.to, env.from, h, to);
    case Announce(_) =>
    case Want(h) => QuietInv(n, Answering(n, env, h));
  }

  lemma StepInv(n: Net, ev: Event)
    requires Inv(n) && Enabled(n, ev)
    ensures Inv(Next(n, ev))
  {
    match ev
    case Publish(p, b, to) => PublishInv(n, p, b, to);
    case Request(_, _, _) => QuietInv(n, Next(n, ev));
    case Ask(_, _, _) => QuietInv(n, Next(n, ev));
    case Deliver(env, to) => DeliverInv(n, env, to);
  }

  lemma {:induction false} RunInv(n: Net, evs: seq<Event>)
    requires Inv(n) && CanRun(n, evs)
    ensures Inv(Run(n, evs))
    decreases |evs|
  {
    if evs != [] {
      StepInv(n, evs[0]);
      RunInv(Next(n, evs[0]), evs[1..]);
    }
  }

  // ---- What it means ------------------------------------------------------------------

  lemma KeptLast(seals: seq<Seal>, p: NodeID)
    requires seals != []
    ensures
      var s, front, all := seals[|seals| - 1], Kept(seals[..|seals| - 1], p), Kept(seals, p);
      if IsDue(s, p) then
        |all| == |front| + 1 && all[..|front|] == front && IsRowOf(all[|front|], s, p)
      else all == front
  {
    SealedHashIs(seals[|seals| - 1].block.hash);
  }

  /** The rows are those of the seals that are due one, once each and in order; row i is that
      of the seal at position at[i]. */
  predicate Matches(rows: seq<Block>, seals: seq<Seal>, at: seq<nat>, of: (Block, Seal) -> bool, due: Seal -> bool) {
    && |at| == |rows|
    && (forall i :: 0 <= i < |at| ==> at[i] < |seals| && of(rows[i], seals[at[i]]))
    && (forall i, j :: 0 <= i < j < |at| ==> at[i] < at[j])
    && (forall k: nat :: k < |seals| && due(seals[k]) ==> k in at)
  }

  lemma MatchesMore(rows: seq<Block>, row: Block, seals: seq<Seal>, at: seq<nat>, s: Seal,
                    of: (Block, Seal) -> bool, due: Seal -> bool)
    requires Matches(rows, seals, at, of, due) && of(row, s)
    ensures Matches(rows + [row], seals + [s], at + [|seals|], of, due)
  {
    assert forall i :: 0 <= i < |at| ==> (seals + [s])[at[i]] == seals[at[i]];
  }

  lemma MatchesStill(rows: seq<Block>, seals: seq<Seal>, at: seq<nat>, s: Seal, of: (Block, Seal) -> bool, due: Seal -> bool)
    requires Matches(rows, seals, at, of, due) && !due(s)
    ensures Matches(rows, seals + [s], at, of, due)
  {
    assert forall i :: 0 <= i < |at| ==> (seals + [s])[at[i]] == seals[at[i]];
  }

  /** A node stores its own seals, if their hash reads as a number. */
  predicate IsDue(s: Seal, p: NodeID) {
    s.node == p && Readable(s.block.hash)
  }

  predicate MatchesKept(seals: seq<Seal>, p: NodeID, at: seq<nat>) {
    Matches(Kept(seals, p), seals, at, (b, s) => IsRowOf(b, s, p), s => IsDue(s, p))
  }

  lemma MatchesNext(front: seq<Seal>, s: Seal, p: NodeID, at: seq<nat>) returns (more: seq<nat>)
    requires MatchesKept(front, p, at)
    ensures MatchesKept(front + [s], p, more)
  {
    var seals := front + [s];
    assert seals[..|front|] == front;
    KeptLast(seals, p);
    var rows := Kept(seals, p);
    if IsDue(s, p) {
      var row := rows[|rows| - 1];
      assert rows == Kept(front, p) + [row];
      MatchesMore(Kept(front, p), row, front, at, s, (b, s) => IsRowOf(b, s, p), s => IsDue(s, p));
      more := at + [|front|];
    } else {
      MatchesStill(Kept(front, p), front, at, s, (b, s) => IsRowOf(b, s, p), s => IsDue(s, p));
      more := at;
    }
  }

  /** What a node stores are the rows of its seals: row i is that of the seal at position
      at[i], and no seal that is due one is missed. */
  lemma {:induction false} KeptIs(seals: seq<Seal>, p: NodeID) returns (at: seq<nat>)
    ensures |at| == |Kept(seals, p)|
    ensures forall i :: 0 <= i < |at| ==> at[i] < |seals| && IsRowOf(Kept(seals, p)[i], seals[at[i]], p)
    ensures forall i, j :: 0 <= i < j < |at| ==> at[i] < at[j]
    ensures forall k: nat :: k < |seals| && IsDue(seals[k], p) ==> k in at
    ensures MatchesKept(seals, p, at)
  {
    if seals == [] {
      at := [];
    } else {
      var last := |seals| - 1;
      at := KeptIs(seals[..last], p);
      at := MatchesNext(seals[..last], seals[last], p, at);
      assert seals[..last] + [seals[last]] == seals;
    }
  }

  /** The row is that of the seal: its content, and the number that its hash means. */
  predicate IsRowOf(row: Block, s: Seal, p: NodeID) {
    s.node == p && HoldsNumber(s.block.hash, row.hash) && row.content == s.block.content
  }

  lemma KeptBothWays(seals: seq<Seal>, p: NodeID)
    ensures forall b | b in Kept(seals, p) :: exists s :: s in seals && IsRowOf(b, s, p)
    ensures forall s | s in seals && IsDue(s, p) :: exists b :: b in Kept(seals, p) && IsRowOf(b, s, p)
  {
    var at := KeptIs(seals, p);
    forall b | b in Kept(seals, p) ensures exists s :: s in seals && IsRowOf(b, s, p) {
      var i :| 0 <= i < |at| && Kept(seals, p)[i] == b;
      assert seals[at[i]] in seals;
    }
    forall s | s in seals && IsDue(s, p) ensures exists b :: b in Kept(seals, p) && IsRowOf(b, s, p) {
      var k: nat :| k < |seals| && seals[k] == s;
      var i :| 0 <= i < |at| && at[i] == k;
      assert Kept(seals, p)[i] in Kept(seals, p);
    }
  }

  /** In every run: a publication is sealed at most once; the sealed block is the published
      one; behind each seal stand at least the threshold of different nodes, each of which
      received a block of that hash from the publisher and returned a 07 for it; and a 08
      is only ever sent by the publisher of a sealed block. What a node stores is its sealed
      blocks, with the hash turned into the number its text means. */
  lemma ConsensusSafety(thresholds: map<NodeID, int>, evs: seq<Event>)
    requires CanRun(Start(thresholds), evs)
    ensures
      var n := Run(Start(thresholds), evs);
      && (forall i, j :: 0 <= i < j < |n.seals| ==> n.seals[i].born != n.seals[j].born)
      && (forall s | s in n.seals ::
            && s.born < |n.published| && n.published[s.born] == Publication(s.node, s.block)
            && s.node in thresholds && |s.voters| >= Needed(thresholds[s.node])
            && Signers(n, s.node, s.voters, s.block.hash))
      && (forall e | e in n.sent && e.msg.Announce? ::
            exists s :: s in n.seals && s.node == e.from && s.block == e.msg.block)
      && (forall p | p in n.nodes :: n.nodes[p].stored == Kept(n.seals, p))
      && (forall p, b | p in n.nodes && b in n.nodes[p].stored :: exists s :: s in n.seals && IsRowOf(b, s, p))
      && (forall s | s in n.seals && Readable(s.block.hash) ::
            s.node in n.nodes && exists b :: b in n.nodes[s.node].stored && IsRowOf(b, s, s.node))
  {
    RunInv(Start(thresholds), evs);
    RunThresholds(Start(thresholds), evs);
    var n := Run(Start(thresholds), evs);
    forall p | p in n.nodes
      ensures forall b | b in n.nodes[p].stored :: exists s :: s in n.seals && IsRowOf(b, s, p)
      ensures forall s | s in n.seals && s.node == p && Readable(s.block.hash) ::
                exists b :: b in n.nodes[p].stored && IsRowOf(b, s, p)
    {
      KeptBothWays(n.seals, p);
    }
  }

  lemma {:induction false} RunThresholds(n: Net, evs: seq<Event>)
    requires CanRun(n, evs)
    ensures Grows(n, Run(n, evs))
    decreases |evs|
  {
    if evs != [] {
      StepGrows(n, evs[0]);
      RunThresholds(Next(n, evs[0]), evs[1..]);
    }
  }

  lemma StepGrows(n: Net, ev: Event)
    requires Enabled(n, ev)
    ensures Grows(n, Next(n, ev))
  {
  }

  // ---- That it happens at all -----------------------------------------------------------

  /** A published block is sent to everyone it is meant for, and its tally starts empty. */
  lemma PublishTells(n: Net, p: NodeID, b: Block, to: set<NodeID>)
    requires p in n.nodes
    ensures
      var m := Next(n, Publish(p, b, to));
      && (forall q | q in to :: Envelope(p, q, Propose(b)) in m.sent) && n.sent <= m.sent
      && b.hash in m.nodes[p].temp && m.nodes[p].temp[b.hash] == Entry(Proposal(b, |n.published|), [], false)
      && m.published == n.published + [Publication(p, b)] && m.seals == n.seals
      && m.nodes.Keys == n.nodes.Keys && (forall q | q in n.nodes :: m.nodes[q].failed == n.nodes[q].failed)
      && m.nodes[p].threshold == n.nodes[p].threshold && m.nodes[p].stored == n.nodes[p].stored
  {
  }

  /** Any node may ask another for a signature, or for a block; its own records stay. */
  lemma RequestTells(n: Net, p: NodeID, b: Block, h: Hash, q: NodeID)
    requires p in n.nodes
    ensures
      && Enabled(n, Request(p, b, q)) && Enabled(n, Ask(p, h, q))
      && Next(n, Request(p, b, q)) == n.(sent := n.sent + {Envelope(p, q, AskSign(b))})
      && Next(n, Ask(p, h, q)) == n.(sent := n.sent + {Envelope(p, q, Want(h))})
  {
    assert (set x | x in {q} :: Envelope(p, x, AskSign(b))) == {Envelope(p, q, AskSign(b))};
    assert (set x | x in {q} :: Envelope(p, x, Want(h))) == {Envelope(p, q, Want(h))};
  }

  /** A node that gets a block, by 05 or 06, returns a 07 for its hash to the sender. */
  lemma DeliveryIsSigned(n: Net, env: Envelope, b: Block, to: set<NodeID>)
    requires Enabled(n, Deliver(env, to)) && (env.msg == Propose(b) || env.msg == AskSign(b))
    ensures
      var m := Next(n, Deliver(env, to));
      && Envelope(env.to, env.from, Signed(b.hash)) in m.sent && (env.to, env.from, b.hash) in m.received
      && m == n.(sent := m.sent, received := m.received) && n.sent <= m.sent
  {
  }

  /** A request for a block is answered by a 05 with it if the block is known; otherwise the
      exception ends the node's greenlet. */
  lemma WantIsAnswered(n: Net, env: Envelope, h: Hash, to: set<NodeID>)
    requires Enabled(n, Deliver(env, to)) && env.msg == Want(h)
    ensures
      var m := Next(n, Deliver(env, to));
      if h in n.nodes[env.to].temp then
        Envelope(env.to, env.from, Propose(n.nodes[env.to].temp[h].block.block)) in m.sent && m.nodes == n.nodes
      else m.nodes[env.to].failed && m.sent == n.sent
  {
  }

  /** Before and after a seal: the block is stored and kept under the number its hash means,
      or the exception ends the node's greenlet and nothing is stored. */
  predicate Settled(node: Node, after: Node, h: Hash, b: Block) {
    if Readable(b.hash) then
      && after.failed == node.failed && after.stored != [] && after.stored[..|after.stored| - 1] == node.stored
      && var row := after.stored[|after.stored| - 1];
      HoldsNumber(b.hash, row.hash) && row.content == b.content && h in after.temp && after.temp[h].block.block == row
    else after.failed && after.stored == node.stored
  }

  lemma SealSettles(node: Node, h: Hash)
    requires h in node.temp
    ensures Settled(node, AfterSeal(node, h), h, node.temp[h].block.block)
  {
    SealedHashIs(node.temp[h].block.block.hash);
  }

  function Asks(p: NodeID, b: Block, vs: seq<NodeID>): seq<Event> {
    if vs == [] then [] else [Deliver(Envelope(p, vs[0], Propose(b)), {})] + Asks(p, b, vs[1..])
  }

  function Votes(p: NodeID, h: Hash, vs: seq<NodeID>, to: set<NodeID>): seq<Event> {
    if vs == [] then [] else [Deliver(Envelope(vs[0], p, Signed(h)), to)] + Votes(p, h, vs[1..], to)
  }

  lemma RunOne(n: Net, ev: Event, evs: seq<Event>)
    requires Enabled(n, ev) && CanRun(Next(n, ev), evs)
    ensures CanRun(n, [ev] + evs) && Run(n, [ev] + evs) == Run(Next(n, ev), evs)
  {
    assert ([ev] + evs)[1..] == evs;
  }

  lemma {:induction false} RunBoth(n: Net, a: seq<Event>, b: seq<Event>)
    requires CanRun(n, a) && CanRun(Run(n, a), b)
    ensures CanRun(n, a + b) && Run(n, a + b) == Run(Run(n, a), b)
    decreases |a|
  {
    if a == [] {
      assert a + b == b;
    } else {
      RunBoth(Next(n, a[0]), a[1..], b);
      assert (a + b)[1..] == a[1..] + b;
    }
  }

  lemma {:induction false} AllSign(n: Net, p: NodeID, b: Block, vs: seq<NodeID>)
    requires forall v | v in vs :: v in n.nodes && !n.nodes[v].failed && Envelope(p, v, Propose(b)) in n.sent
    ensures
      && CanRun(n, Asks(p, b, vs))
      && var m := Run(n, Asks(p, b, vs));
      && m.nodes == n.nodes && m.published == n.published && m.seals == n.seals && n.sent <= m.sent
      && (forall v | v in vs :: Envelope(v, p, Signed(b.hash)) in m.sent)
    decreases |vs|
  {
    if vs != [] {
      var ev := Deliver(Envelope(p, vs[0], Propose(b)), {});
      assert vs[0] in vs;
      DeliveryIsSigned(n, ev.env, b, {});
      AllSign(Next(n, ev), p, b, vs[1..]);
      RunOne(n, ev, Asks(p, b, vs[1..]));
    }
  }

  /** The tally for h stands open after the votes `seen`. */
  predicate Open(n: Net, p: NodeID, h: Hash, b: Block, born: nat, seen: seq<NodeID>) {
    p in n.nodes && !n.nodes[p].failed && h in n.nodes[p].temp && n.nodes[p].temp[h] == Entry(Proposal(b, born), seen, false)
  }

  lemma OneVote(n: Net, p: NodeID, h: Hash, b: Block, born: nat, seen: seq<NodeID>, v: NodeID, to: set<NodeID>)
    requires Open(n, p, h, b, born, seen) && v !in seen && Envelope(v, p, Signed(h)) in n.sent
    ensures
      var m := Next(n, Deliver(Envelope(v, p, Signed(h)), to));
      && n.sent <= m.sent && m.nodes.Keys == n.nodes.Keys && m.nodes[p].threshold == n.nodes[p].threshold
      && if |seen| + 1 >= n.nodes[p].threshold then
           m.seals == n.seals + [Seal(born, p, b, seen + [v])] && forall q | q in to :: Envelope(p, q, Announce(b)) in m.sent
         else Open(m, p, h, b, born, seen + [v]) && m.seals == n.seals && m.nodes[p].stored == n.nodes[p].stored
  {
  }

  lemma LastVote(n: Net, p: NodeID, h: Hash, b: Block, born: nat, seen: seq<NodeID>, v: NodeID, to: set<NodeID>)
    requires Open(n, p, h, b, born, seen) && v !in seen && Envelope(v, p, Signed(h)) in n.sent
    requires |seen| + 1 >= n.nodes[p].threshold
    ensures Settled(n.nodes[p], Next(n, Deliver(Envelope(v, p, Signed(h)), to)).nodes[p], h, b)
  {
    var node := n.nodes[p];
    var after := node.(temp := Voted(node.temp, Ballot(v, h), node.threshold));
    SealSettles(after, h);
    assert after.temp[h].block.block == b;
  }

  lemma {:induction false} VotesSeal(n: Net, p: NodeID, h: Hash, b: Block, born: nat, seen: seq<NodeID>, vs: seq<NodeID>, to: set<NodeID>)
    requires Open(n, p, h, b, born, seen) && vs != [] && |seen| + |vs| == Needed(n.nodes[p].threshold)
    requires forall i, j :: 0 <= i < j < |seen + vs| ==> (seen + vs)[i] != (seen + vs)[j]
    requires forall v | v in vs :: Envelope(v, p, Signed(h)) in n.sent
    ensures
      && CanRun(n, Votes(p, h, vs, to))
      && var m := Run(n, Votes(p, h, vs, to));
      && m.seals == n.seals + [Seal(born, p, b, seen + vs)]
      && p in m.nodes && Settled(n.nodes[p], m.nodes[p], h, b)
      && forall q | q in to :: Envelope(p, q, Announce(b)) in m.sent
    decreases |vs|
  {
    var v, rest := vs[0], vs[1..];
    var ev := Deliver(Envelope(v, p, Signed(h)), to);
    assert v in vs && (seen + vs)[|seen|] == v;
    assert forall i :: 0 <= i < |seen| ==> (seen + vs)[i] == seen[i];
    OneVote(n, p, h, b, born, seen, v, to);
    assert seen + vs == (seen + [v]) + rest;
    if rest == [] {
      assert vs == [v];
      LastVote(n, p, h, b, born, seen, v, to);
    } else {
      VotesSeal(Next(n, ev), p, h, b, born, seen + [v], rest, to);
    }
    RunOne(n, ev, Votes(p, h, rest, to));
  }

  /** From any state a block published to as many living nodes as the threshold needs can be
      sealed: each is asked once, each votes once, the 08 goes to all peers, and the block is
      stored if its hash reads as a number. */
  lemma EnoughSignersSeal(n: Net, p: NodeID, b: Block, vs: seq<NodeID>, to: set<NodeID>)
    requires p in n.nodes && !n.nodes[p].failed && |vs| == Needed(n.nodes[p].threshold)
    requires forall i, j :: 0 <= i < j < |vs| ==> vs[i] != vs[j]
    requires forall v | v in vs :: v in n.nodes && !n.nodes[v].failed
    ensures
      var evs := [Publish(p, b, set v | v in vs)] + (Asks(p, b, vs) + Votes(p, b.hash, vs, to));
      && CanRun(n, evs)
      && var m := Run(n, evs);
      && m.seals == n.seals + [Seal(|n.published|, p, b, vs)]
      && p in m.nodes && Settled(n.nodes[p], m.nodes[p], b.hash, b)
      && forall q | q in to :: Envelope(p, q, Announce(b)) in m.sent
  {
    var who := set v | v in vs;
    var n1 := Next(n, Publish(p, b, who));
    PublishTells(n, p, b, who);
    AllSign(n1, p, b, vs);
    var n2 := Run(n1, Asks(p, b, vs));
    assert [] + vs == vs;
    VotesSeal(n2, p, b.hash, b, |n.published|, [], vs, to);
    RunBoth(n1, Asks(p, b, vs), Votes(p, b.hash, vs, to));
    RunOne(n, Publish(p, b, who), Asks(p, b, vs) + Votes(p, b.hash, vs, to));
  }

  /** In the beginning every node lives, so the first block published can be sealed. */
  lemma FirstBlockSeals(thresholds: map<NodeID, int>, p: NodeID, b: Block, vs: seq<NodeID>, to: set<NodeID>)
    requires p in thresholds && |vs| == Needed(thresholds[p])
    requires forall i, j :: 0 <= i < j < |vs| ==> vs[i] != vs[j]
    requires forall v | v in vs :: v in thresholds
    ensures
      var evs := [Publish(p, b, set v | v in vs)] + (Asks(p, b, vs) + Votes(p, b.hash, vs, to));
      && CanRun(Start(thresholds), evs)
      && Run(Start(thresholds), evs).seals == [Seal(0, p, b, vs)]
  {
    EnoughSignersSeal(Start(thresholds), p, b, vs, to);
  }
}
