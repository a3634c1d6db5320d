/** The objects of a node: Protocol, Peer and PeerManager, whose methods are the loop
    iterations and calls of the source, each proved against the functions of Endpoints
    and PeerTables. */
module UdpNode {
  import opened Wire
  import opened Endpoints
  import opened PacketChecks
  import T = PeerTables

  datatype State = STARTING | STARTED | STOPPING | STOPPED

  datatype Status = Starting | Working | Disconnected(kind: Kind, reason: string)

  /** What a report writes into the status book. */
  function Noted(book: map<string, Status>, id: string, rp: Report): map<string, Status> {
    match rp
    case Checked => book
    case Lost(kind, reason) => book[id := Disconnected(kind, reason)]
    case Arrived(_) => book[id := Working]
  }

  class Protocol {
    const nodeInfo: NodeInfo
    var helloReceived: bool
    var isStopped: bool
    var rQ: seq<Report>
    var sQ: seq<Cmd>

    constructor (nodeInfo: NodeInfo)
      ensures this.nodeInfo == nodeInfo && !helloReceived && !isStopped && rQ == [] && sQ == []
    {
      this.nodeInfo := nodeInfo;
      helloReceived, isStopped, rQ, sQ := false, false, [], [];
    }

    method SendWorker(peer: Peer)
      requires peer.handler == this && sQ != []
      modifies this`sQ, this`helloReceived, peer`vipbox, peer`outbox
      ensures peer.Abs() == AfterSendWorker(old(peer.Abs()))
    {
      var raw := sQ[0];
      sQ := sQ[1..];
      match raw
      case SendHello(text) => SignSend(peer, Packet(nodeInfo, Hello(text)), true);
      case SendConfirm(text) =>
        helloReceived := true;
        SignSend(peer, Packet(nodeInfo, Confirm(text)), true);
      case SendDisconnect(reason) => SignSend(peer, Packet(nodeInfo, Disconnect(reason)), true);
      case SendPing => SignSend(peer, Packet(nodeInfo, Ping), true);
      case SendPong => SignSend(peer, Packet(nodeInfo, Pong), true);
      case SendData(msg) => SignSend(peer, Packet(nodeInfo, Data(msg)), false);
      case UnknownCmd(_) =>
    }

    method SignSend(peer: Peer, packet: Packet, priority: bool)
      modifies peer`vipbox, peer`outbox
      ensures peer.Abs() == if priority then old(peer.Abs()).(vipbox := old(peer.vipbox) + [packet])
                            else old(peer.Abs()).(outbox := old(peer.outbox) + [packet])
    {
      if priority {
        peer.vipbox := peer.vipbox + [packet];
      } else {
        peer.outbox := peer.outbox + [packet];
      }
    }

    /** One iteration, given how the packet's `verify` ended: only an exception counts. */
    method RecvWorker(peer: Peer, verdict: Verdict)
      requires peer.handler == this && peer.inbox != []
      modifies this`sQ, this`rQ, this`helloReceived, peer`inbox
      ensures peer.Abs() == if verdict.Raised? then AfterRefusal(old(peer.Abs())) else AfterRecvWorker(old(peer.Abs()))
    {
      var packet := peer.inbox[0];
      peer.inbox := peer.inbox[1..];
      if verdict.Raised? {
        rQ := rQ + [Lost(BadPeer, "Packet verification failed.")];
      } else {
        Dispatch(packet);
      }
    }

    /** The branches of recv_worker on the control code. */
    method Dispatch(packet: Packet)
      modifies this`sQ, this`rQ, this`helloReceived
      ensures
        var r := React(old(helloReceived), packet);
        helloReceived == r.latched && sQ == old(sQ) + r.cmds && rQ == old(rQ) + r.reports
    {
      match packet.body
      case Hello(_) =>
        if helloReceived {
          rQ := rQ + [Lost(BadPeer, "Duplicate hello from peer!")];
        } else {
          sQ := sQ + [SendConfirm(CONFIRM_TEXT)];
        }
      case Confirm(_) =>
        if !helloReceived {
          helloReceived := true;
          rQ := rQ + [Checked];
        } else {
          rQ := rQ + [Lost(BadPeer, "confirm after handshaked")];
        }
      case Disconnect(reason) => rQ := rQ + [Lost(EndSession, reason)];
      case Ping =>
        if helloReceived {
          sQ := sQ + [SendPong];
          rQ := rQ + [Checked];
        } else {
          rQ := rQ + [Lost(BadPeer, "ping received before confirming connection")];
        }
      case Pong => rQ := rQ + [Checked];
      case Data(msg) =>
        if helloReceived {
          rQ := rQ + [Arrived(Delivery(packet.node.id, msg))];
        } else {
          rQ := rQ + [Lost(BadPeer, "data received before confirming connection")];
        }
      case Unknown(code) => rQ := rQ + [Lost(BadPeer, "Unknown packet control code: " + code)];
    }
  }

  class Peer {
    const manager: PeerManager
    const peerID: string
    const handler: Protocol
    var peerAddr: Addr
    var outbox: seq<Packet>
    var vipbox: seq<Packet>
    var inbox: seq<Packet>
    var isStopped: bool
    var isPinged: bool
    var lastContact: real
    var receiving: bool
    ghost var taken: seq<Delivery>

    constructor (manager: PeerManager, info: NodeInfo, me: NodeInfo, now: real)
      ensures this.manager == manager && peerID == info.id && fresh(handler) && handler.nodeInfo == me
      ensures !isStopped && handler.sQ == []
      ensures this !in manager.peers ==> Abs() == Fresh(me, info.addr, [], now).(listed := false)
    {
      this.manager, peerID, peerAddr := manager, info.id, info.addr;
      handler := new Protocol(me);
      outbox, vipbox, inbox := [], [], [];
      isStopped, isPinged, lastContact, receiving, taken := false, false, now, true, [];
    }

    ghost function Abs(): Endpoint
      reads this, handler, manager`peers
    {
      Endpoint(handler.nodeInfo, peerAddr, handler.sQ, vipbox, outbox, inbox, handler.rQ, handler.helloReceived,
               isStopped, this in manager.peers, receiving, isPinged, lastContact, taken)
    }

    /** Peer.stop up to the killing of the workers, which yields. `due` says whether this
        call is the one that goes on to Unlist. */
    method Stop() returns (due: bool)
      requires this in manager.created
      modifies this`isStopped, handler`isStopped, manager`pending
      ensures due == !old(isStopped) && isStopped
      ensures manager.Table() == T.Flagged(old(manager.Table()), this)
      ensures Abs() == old(Abs()).(stopped := true)
    {
      due := !isStopped;
      ghost var before := manager.Table();
      if !isStopped {
        isStopped := true;
        handler.isStopped := true;
        manager.pending := manager.pending + multiset{this};
      }
      assert manager.Table().stopped == before.stopped + {this};
    }

    /** Peer.stop goes on with killing the loops. */
    method Kill()
      requires isStopped
      modifies this`receiving
      ensures Abs() == Killed(old(Abs()))
    {
      receiving := false;
    }

    /** The rest of Peer.stop. list.remove raises if the peer is not in the list. */
    method Unlist()
      requires this in manager.pending && !receiving
      modifies manager`peers, manager`pending, manager`removed, manager`failures
      ensures manager.Table() == T.Finished(old(manager.Table()), this)
      ensures manager.peers == Remove(old(manager.peers), this)
    {
      manager.RowsHas(manager.peers, this);
      manager.RowsRemove(manager.peers, this);
      ghost var listed := this in manager.peers;
      if !listed {
        RemoveAbsent(manager.peers, this);
        manager.failures := manager.failures + 1;
      } else {
        manager.removed := manager.removed + [this];
      }
      manager.peers := Remove(manager.peers, this);
      manager.pending := manager.pending - multiset{this};
    }

    /** The put that every send_* method is. */
    method Enqueue(c: Cmd)
      modifies handler`sQ
      ensures handler.sQ == old(handler.sQ) + [c]
      ensures Abs() == old(Abs()).(sQ := old(handler.sQ) + [c])
    {
      handler.sQ := handler.sQ + [c];
    }

    method SendPacket(msg: Message)
      modifies handler`sQ
      ensures Abs() == AfterAppSend(old(Abs()), msg) && handler.sQ == old(handler.sQ) + [SendData(msg)]
    {
      Enqueue(SendData(msg));
    }

    /** send_disconnect: it asks for the stop twice, and the second time finds it done. */
    method SendDisconnect(msg: string) returns (due: bool)
      requires this in manager.created
      modifies handler`sQ, handler`isStopped, this`isStopped, manager`statusBook, manager`pending
      ensures due == !old(isStopped) && isStopped
      ensures manager.Table() == T.Flagged(old(manager.Table()), this)
      ensures manager.statusBook == Noted(old(manager.statusBook), peerID, Lost(EndSession, msg))
      ensures Abs() == Halted(old(Abs()), msg)
    {
      Enqueue(Cmd.SendDisconnect(msg));
      manager.Log(peerID, Disconnected(EndSession, msg));
      due := Stop();
      var again := Stop();
    }

    method Report(rp: Wire.Report) returns (due: bool)
      requires this in manager.created
      modifies this`isStopped, this`receiving, this`taken, handler`isStopped
      modifies manager`statusBook, manager`pending, manager`recvQueue
      ensures due == (rp.Lost? && !old(isStopped))
      ensures manager.statusBook == Noted(old(manager.statusBook), peerID, rp)
      ensures manager.statusBook == match rp
                                    case Checked => old(manager.statusBook)
                                    case Lost(kind, reason) => old(manager.statusBook)[peerID := Disconnected(kind, reason)]
                                    case Arrived(_) => old(manager.statusBook)[peerID := Working]
      ensures manager.Table() == if rp.Lost? then T.Flagged(old(manager.Table()), this) else old(manager.Table())
      ensures Abs() == Reported(old(Abs()), rp)
      ensures manager.recvQueue ==
                var qs := old(manager.recvQueue);
                match rp
                case Arrived(item) =>
                  (match item.msg.methodNo
                   case Some(m) =>
                     if 0 <= m < |qs| then qs[m := qs[m] + [item]]
                     else if -|qs| <= m < 0 then qs[|qs| + m := qs[|qs| + m] + [item]]
                     else qs
                   case None => qs)
                case _ => qs
    {
      due := false;
      match rp
      case Checked =>
      case Lost(kind, reason) =>
        manager.Log(peerID, Disconnected(kind, reason));
        due := Stop();
      case Arrived(item) =>
        manager.Log(peerID, Working);
        ghost var before := Abs();
        ParseData(item);
        assert Abs() == Reported(before, rp);
    }

    /** parse_data: an index outside the list only prints; text that is no integer ends
        the greenlet. */
    method ParseData(item: Delivery)
      modifies this`receiving, this`taken, manager`recvQueue
      ensures taken == old(taken) + [item]
      ensures receiving == (old(receiving) && item.msg.methodNo.Some?)
      ensures manager.recvQueue ==
                var qs := old(manager.recvQueue);
                match item.msg.methodNo
                case Some(m) =>
                  if 0 <= m < |qs| then qs[m := qs[m] + [item]]
                  else if -|qs| <= m < 0 then qs[|qs| + m := qs[|qs| + m] + [item]]
                  else qs
                case None => qs
      ensures forall k :: 0 <= k < |manager.recvQueue| ==>
                manager.recvQueue[k] == old(manager.recvQueue)[k] + Routed([item], |manager.recvQueue|, k)
    {
      taken := taken + [item];
      var n := |manager.recvQueue|;
      var none: seq<Delivery> := [];
      assert [item][1..] == none;
      match item.msg.methodNo
      case None => receiving := false;
      case Some(m) =>
        if 0 <= m < n {
          manager.recvQueue := manager.recvQueue[m := manager.recvQueue[m] + [item]];
        } else if m < 0 && 0 <= n + m {
          manager.recvQueue := manager.recvQueue[n + m := manager.recvQueue[n + m] + [item]];
        }
    }

    method RecvLoop() returns (due: bool)
      requires this in manager.created
      requires handler.rQ != []
      modifies this`isStopped, this`receiving, this`taken, handler`isStopped, handler`rQ
      modifies manager`statusBook, manager`pending, manager`recvQueue
      ensures due == (old(handler.rQ)[0].Lost? && !old(isStopped))
      ensures manager.statusBook == Noted(old(manager.statusBook), peerID, old(handler.rQ)[0])
      ensures manager.Table() == if old(handler.rQ)[0].Lost? then T.Flagged(old(manager.Table()), this) else old(manager.Table())
      ensures Abs() == AfterRecvLoop(old(Abs()))
      ensures manager.recvQueue ==
                var qs := old(manager.recvQueue);
                match old(handler.rQ)[0]
                case Arrived(item) =>
                  (match item.msg.methodNo
                   case Some(m) =>
                     if 0 <= m < |qs| then qs[m := qs[m] + [item]]
                     else if -|qs| <= m < 0 then qs[|qs| + m := qs[|qs| + m] + [item]]
                     else qs
                   case None => qs)
                case _ => qs
    {
      var rp := handler.rQ[0];
      handler.rQ := handler.rQ[1..];
      due := Report(rp);
      receiving := receiving && !isStopped;
    }

    /** One datagram in Peer.run, None if it is empty. */
    method Receive(message: Option<Packet>, addr: Addr, now: real)
      modifies this`peerAddr, this`lastContact, this`isPinged, this`inbox
      ensures Abs() == match message
                       case Some(p) => AfterReceive(old(Abs()), p, addr, now)
                       case None => AfterEmpty(old(Abs()), addr)
    {
      peerAddr := addr;
      if message.Some? {
        lastContact := now;
        isPinged := false;
        inbox := inbox + [message.value];
      }
    }

    /** One iteration of send_loop; `sent` goes to peerAddr. */
    method SendLoop(now: real) returns (sent: seq<Packet>, due: bool)
      requires this in manager.created
      requires !isStopped
      modifies this`isStopped, this`isPinged, this`vipbox, this`outbox, handler`sQ, handler`isStopped
      modifies manager`statusBook, manager`pending
      ensures due == isStopped
      ensures var (e, out) := AfterSendLoop(manager.cfg, old(Abs()), now); Abs() == e && sent == out
      ensures manager.Table() == if isStopped then T.Flagged(old(manager.Table()), this) else old(manager.Table())
      ensures manager.statusBook == if isStopped then Noted(old(manager.statusBook), peerID, Lost(EndSession, TIMEOUT_TEXT))
                                    else old(manager.statusBook)
    {
      sent, due := [], false;
      var elapsed := now - lastContact;
      ghost var before := Abs();
      ghost var after := AfterSendLoop(manager.cfg, before, now);
      if elapsed > manager.cfg.timeout {
        assert after == (Halted(before, TIMEOUT_TEXT), []);
        due := SendDisconnect(TIMEOUT_TEXT);
      } else if elapsed > manager.cfg.pingInterval && !isPinged {
        assert after == (before.(pinged := true, sQ := before.sQ + [SendPing]), []);
        PingOnce();
      } else {
        assert after == Drained(before);
        sent := DrainBoxes();
      }
    }

    /** The error branches of send: the report stops the peer, then it is stopped once more. */
    method SendFailed(why: string) returns (due: bool)
      requires this in manager.created
      modifies this`isStopped, this`receiving, this`taken, handler`isStopped
      modifies manager`statusBook, manager`pending, manager`recvQueue
      ensures due == !old(isStopped) && isStopped
      ensures manager.Table() == T.Flagged(old(manager.Table()), this)
      ensures manager.statusBook == Noted(old(manager.statusBook), peerID, Lost(EndSession, why))
      ensures Abs() == Broken(old(Abs())) && manager.recvQueue == old(manager.recvQueue)
    {
      due := Report(Lost(EndSession, why));
      var again := Stop();
    }

    method PingOnce()
      modifies this`isPinged, handler`sQ
      ensures Abs() == old(Abs()).(pinged := true, sQ := old(handler.sQ) + [SendPing])
    {
      isPinged := true;
      Enqueue(SendPing);
    }

    /** The last branch of send_loop. */
    method DrainBoxes() returns (sent: seq<Packet>)
      modifies this`vipbox, this`outbox
      ensures var (e, out) := Drained(old(Abs())); Abs() == e && sent == out
    {
      sent := [];
      if vipbox != [] {
        sent := sent + [vipbox[0]];
        vipbox := vipbox[1..];
      }
      if outbox != [] {
        sent := sent + [outbox[0]];
        outbox := outbox[1..];
      }
      assert old(vipbox) == [] ==> vipbox == old(vipbox)[0..];
      assert old(outbox) == [] ==> outbox == old(outbox)[0..];
    }
  }

  /** list.remove on the peer list. */
  function Remove(peers: seq<Peer>, p: Peer): seq<Peer> {
    if peers == [] then []
    else if peers[0] == p then peers[1..]
    else [peers[0]] + Remove(peers[1..], p)
  }

  lemma {:induction false} RemoveIs(peers: seq<Peer>, i: nat)
    requires i < |peers| && T.Unrepeated(peers)
    ensures Remove(peers, peers[i]) == peers[..i] + peers[i + 1..]
  {
    if i > 0 {
      assert peers[1..][i - 1] == peers[i];
      assert peers[0] != peers[i];
      RemoveIs(peers[1..], i - 1);
      assert peers[..i] == [peers[0]] + peers[1..][..i - 1];
      assert peers[i + 1..] == peers[1..][i..];
    }
  }

  lemma RemoveOthers(peers: seq<Peer>, i: nat)
    requires i < |peers| && T.Unrepeated(peers)
    ensures T.Unrepeated(peers[..i] + peers[i + 1..])
    ensures forall p :: p in peers[..i] + peers[i + 1..] <==> p in peers && p != peers[i]
  {
    forall p | p in peers && p != peers[i] ensures p in peers[..i] + peers[i + 1..] {
      var k :| 0 <= k < |peers| && peers[k] == p;
      assert (peers[..i] + peers[i + 1..])[if k < i then k else k - 1] == p;
    }
  }

  lemma {:induction false} RemoveAbsent(peers: seq<Peer>, p: Peer)
    requires p !in peers
    ensures Remove(peers, p) == peers
  {
    if peers != [] {
      assert peers[0] in peers;
      RemoveAbsent(peers[1..], p);
    }
  }

  /** The peers whose ID is on no list of exceptions, in the order of the peer list. */
  function Eligible(peers: seq<Peer>, excluded: seq<string>): (r: seq<Peer>)
    ensures forall p | p in r :: p in peers && p.peerID !in excluded
    ensures forall p | p in peers && p.peerID !in excluded :: p in r
    ensures T.Unrepeated(peers) ==> T.Unrepeated(r)
  {
    if peers == [] then []
    else
      var rest := Eligible(peers[1..], excluded);
      if peers[0].peerID in excluded then rest else [peers[0]] + rest
  }

  /** The peers of one ID; there may be more than one while one of them is being removed. */
  function Named(peers: seq<Peer>, peerID: string): (r: seq<Peer>)
    ensures forall p | p in r :: p in peers && p.peerID == peerID
    ensures forall p | p in peers && p.peerID == peerID :: p in r
    ensures T.Unrepeated(peers) ==> T.Unrepeated(r)
  {
    if peers == [] then []
    else
      var rest := Named(peers[1..], peerID);
      if peers[0].peerID == peerID then [peers[0]] + rest else rest
  }

  /** This peer has the ID, and no other has. */
  predicate IsSole(peers: seq<Peer>, peerID: string, p: Peer) {
    p in peers && p.peerID == peerID && forall q | q in peers :: q.peerID == peerID ==> q == p
  }

  predicate HasOne(peers: seq<Peer>, peerID: string) {
    exists p | p in peers :: IsSole(peers, peerID, p)
  }

  lemma SoleIsNamed(peers: seq<Peer>, peerID: string, p: Peer)
    requires T.Unrepeated(peers) && IsSole(peers, peerID, p)
    ensures Named(peers, peerID) == [p]
  {
    var found := Named(peers, peerID);
    assert p in found && T.Unrepeated(found);
    forall i | 0 <= i < |found| ensures found[i] == p {
      assert found[i] in found;
    }
    T.SizeOfUnrepeated(found);
    assert (set q | q in found) == {p};
  }

  lemma NamedIsSole(peers: seq<Peer>, peerID: string, p: Peer)
    requires Named(peers, peerID) == [p]
    ensures IsSole(peers, peerID, p)
  {
    assert p in Named(peers, peerID);
  }

  lemma OneNamed(peers: seq<Peer>, peerID: string)
    requires T.Unrepeated(peers)
    ensures |Named(peers, peerID)| == 1 <==> HasOne(peers, peerID)
  {
    var found := Named(peers, peerID);
    if HasOne(peers, peerID) {
      var p :| p in peers && IsSole(peers, peerID, p);
      SoleIsNamed(peers, peerID, p);
    }
    if |found| == 1 {
      assert found == [found[0]];
      NamedIsSole(peers, peerID, found[0]);
    }
  }

  /** A value random.sample may return: as many different peers as asked for, all of them if
      there are fewer or none was asked for. */
  predicate IsSample(sample: seq<Peer>, pool: seq<Peer>, numPeers: nat) {
    && T.Unrepeated(sample) && (forall p | p in sample :: p in pool)
    && |sample| == if numPeers == 0 || numPeers > |pool| then |pool| else numPeers
  }

  /** The peer table with the status book, the queues of commands and the peers whose receive
      loop has not ended. */
  datatype Desk = Desk(table: T.Table<Peer>, book: map<string, Status>, queues: map<Peer, seq<Cmd>>, loops: set<Peer>)

  /** send_disconnect from the manager's stop: one more command and one status entry; the flag,
      the kill and the removal unless the peer is being stopped already. */
  ghost function Cleared(d: Desk, p: Peer): Desk {
    Desk(T.Dropped(d.table, p),
         Noted(d.book, p.peerID, Lost(EndSession, STOPPING_TEXT)),
         if p in d.queues then d.queues[p := d.queues[p] + [SendDisconnect(STOPPING_TEXT)]] else d.queues,
         if p in d.table.stopped then d.loops else d.loops - {p})
  }

  ghost function ClearedAll(d: Desk, ps: seq<Peer>): Desk
    decreases |ps|
  {
    if ps == [] then d else ClearedAll(Cleared(d, ps[0]), ps[1..])
  }

  lemma ClearedFirst(d: Desk, p: Peer, rest: seq<Peer>)
    ensures ClearedAll(d, [p] + rest) == ClearedAll(Cleared(d, p), rest)
  {
    assert ([p] + rest)[1..] == rest;
  }

  lemma {:induction false} ClearedTable(d: Desk, ps: seq<Peer>)
    ensures ClearedAll(d, ps).table == T.DroppedAll(d.table, ps)
    decreases |ps|
  {
    if ps != [] {
      ClearedTable(Cleared(d, ps[0]), ps[1..]);
    }
  }

  /** What clearing different peers comes to: each gets one more disconnect to send, has its
      status noted and is stopped; the receive loops of those not yet being stopped are
      killed; nobody else's queue or loop is touched. */
  lemma {:induction false} ClearedAllIs(d: Desk, ps: seq<Peer>)
    requires T.Unrepeated(ps)
    ensures
      var e := ClearedAll(d, ps);
      && e.queues.Keys == d.queues.Keys
      && (forall p | p in d.queues ::
            e.queues[p] == d.queues[p] + if p in ps then [SendDisconnect(STOPPING_TEXT)] else [])
      && (forall p | p in ps :: p.peerID in e.book && e.book[p.peerID] == Disconnected(EndSession, STOPPING_TEXT))
      && (forall id | id in d.book && (forall p | p in ps :: p.peerID != id) :: id in e.book && e.book[id] == d.book[id])
      && (forall p :: p in e.loops <==> p in d.loops && (p in ps ==> p in d.table.stopped))
      && (forall p :: p in e.table.stopped <==> p in d.table.stopped || p in ps)
    decreases |ps|
  {
    if ps != [] {
      var c := Cleared(d, ps[0]);
      assert forall p :: p in c.table.stopped <==> p in d.table.stopped || p == ps[0];
      assert forall p :: p in ps <==> p == ps[0] || p in ps[1..];
      assert ps[0] !in ps[1..];
      ClearedAllIs(c, ps[1..]);
    }
  }

  datatype Answer = BadState | Unverified | NotHello | AddressMismatch | Met(peer: Peer, refused: Option<string>)

  class PeerManager {
    const me: NodeInfo
    const cfg: Config
    const maxPeers: int
    var peers: seq<Peer>
    var state: State
    var statusBook: map<string, Status>
    var recvQueue: seq<seq<Delivery>>
    ghost var created: set<Peer>
    ghost var pending: multiset<Peer>
    ghost var removed: seq<Peer>
    ghost var failures: nat

    constructor (me: NodeInfo, cfg: Config, maxPeers: int, numQueue: nat)
      ensures Owned() && Table() == T.Empty() && state == STARTING && statusBook == map[]
      ensures recvQueue == seq(numQueue, i => [])
    {
      this.me, this.cfg, this.maxPeers := me, cfg, maxPeers;
      peers, state, statusBook, recvQueue := [], STARTING, map[], seq(numQueue, i => []);
      created, pending, removed, failures := {}, multiset{}, [], 0;
    }

    ghost function Rows(ps: seq<Peer>): seq<T.Row<Peer>> {
      seq(|ps|, i requires 0 <= i < |ps| => T.Row(ps[i], ps[i].peerID))
    }

    ghost function StoppedPeers(): set<Peer>
      reads this`created, created`isStopped
    {
      set p | p in created && p.isStopped
    }

    /** The peers whose receive loop has neither ended nor been killed. */
    ghost function Receivers(): set<Peer>
      reads this`created, created`receiving
    {
      set p | p in created && p.receiving
    }

    ghost function Queues(): map<Peer, seq<Cmd>>
      reads this`created, (set p | p in created :: p.handler)`sQ
    {
      map p | p in created :: p.handler.sQ
    }

    /** All that the manager's stop may change. */
    ghost function Snapshot(): Desk
      reads this`peers, this`created, this`pending, this`removed, this`failures, this`statusBook
      reads created`isStopped, created`receiving, (set p | p in created :: p.handler)`sQ
    {
      Desk(Table(), statusBook, Queues(), Receivers())
    }

    ghost function Table(): T.Table<Peer>
      reads this`peers, this`created, this`pending, this`removed, this`failures, created`isStopped
    {
      T.Table(Rows(peers), created, StoppedPeers(), pending, removed, failures)
    }

    ghost predicate Owned()
      reads this`created
    {
      && (forall p | p in created :: p.manager == this)
      && (forall p, q | p in created && q in created && p != q :: p.handler != q.handler)
    }

    /** Sound books say what the methods below need of the list. */
    lemma ListFacts()
      requires T.Books(Table())
      ensures T.Unrepeated(peers) && forall p | p in peers :: p in created
    {
      forall i, j | 0 <= i < j < |peers| ensures peers[i] != peers[j] {
        assert Table().rows[i].who != Table().rows[j].who;
      }
      forall i | 0 <= i < |peers| ensures peers[i] in created {
        assert Table().rows[i].who in created;
      }
    }

    lemma RowsHas(ps: seq<Peer>, p: Peer)
      ensures p in ps <==> T.Has(Rows(ps), p)
    {
      if i :| 0 <= i < |ps| && ps[i] == p {
        assert Rows(ps)[i].who == p;
      }
    }

    lemma {:induction false} RowsRemove(ps: seq<Peer>, p: Peer)
      ensures Rows(Remove(ps, p)) == T.Without(Rows(ps), p)
    {
      if ps != [] {
        assert Rows(ps)[1..] == Rows(ps[1..]);
        if ps[0] != p {
          RowsRemove(ps[1..], p);
        }
      }
    }

    method Log(peerID: string, status: Status)
      modifies this`statusBook
      ensures statusBook == old(statusBook)[peerID := status]
    {
      statusBook := statusBook[peerID := status];
    }

    method Start()
      modifies this`state
      ensures state == STARTED
    {
      state := STARTED;
    }

    method ApproveConnection(peerID: string) returns (msg: Option<string>)
      ensures msg == T.Disagree(Rows(peers), maxPeers, peerID)
      ensures msg == if exists p | p in peers :: p.peerID == peerID then Some("Duplicate connection.")
                     else if |peers| >= maxPeers then Some("Too many peers.") else None
    {
      msg := None;
      if |peers| >= maxPeers {
        msg := Some(T.TOO_MANY);
      }
      if exists p | p in peers :: p.peerID == peerID {
        msg := Some(T.DUPLICATE);
      }
      assert forall i :: 0 <= i < |peers| ==> Rows(peers)[i].id == peers[i].peerID;
      assert (exists p | p in peers :: p.peerID == peerID) <==> T.HasID(Rows(peers), peerID) by {
        if p :| p in peers && p.peerID == peerID {
          var i :| 0 <= i < |peers| && peers[i] == p;
          assert Rows(peers)[i].id == peerID;
        }
      }
    }

    method CreatePeer(info: NodeInfo, addr: Addr, now: real) returns (peer: Peer)
      requires Owned()
      modifies this`peers, this`created
      ensures fresh(peer) && fresh(peer.handler) && peer.manager == this && peer.peerID == info.id
      ensures peer in created && !peer.isStopped && Owned()
      ensures Table() == T.Listed(old(Table()), peer, info.id) && peers == old(peers) + [peer]
      ensures peer.Abs() == Fresh(NodeInfo(addr, me.id), info.addr, [], now) && peer.handler.sQ == []
    {
      peer := new Peer(this, info, NodeInfo(addr, me.id), now);
      peers := peers + [peer];
      created := created + {peer};
      assert Table() == T.Listed(old(Table()), peer, info.id);
    }

    /** make_connection. A refusal creates no peer. */
    method MakeConnection(info: NodeInfo, addr: Addr, now: real) returns (peer: Peer?)
      requires Owned()
      modifies this`peers, this`created, this`statusBook
      ensures Owned()
      ensures peer == null <==> T.Disagree(old(Table()).rows, maxPeers, info.id).Some?
      ensures peer == null ==> Table() == old(Table()) && statusBook == old(statusBook)
      ensures peers == old(peers) + if peer == null then [] else [peer]
      ensures peer != null ==>
                && fresh(peer) && Table() == T.Connected(old(Table()), maxPeers, peer, info.id)
                && peer.Abs() == Fresh(NodeInfo(addr, me.id), info.addr, [SendHello(HELLO_TEXT)], now)
                && statusBook == old(statusBook)[info.id := Starting]
    {
      peer := null;
      var disagree := ApproveConnection(info.id);
      if disagree.None? {
        var made := CreatePeer(info, addr, now);
        Log(made.peerID, Starting);
        made.Enqueue(SendHello(HELLO_TEXT));
        peer := made;
      }
    }

    /** _new_conn with check_hello: what the server socket does with a datagram. A refused
        peer is made and stopped all the same, and overwrites the status of its ID. */
    method NewConn(data: Packet, verdict: Verdict, address: Addr, addr: Addr, now: real) returns (a: Answer)
      requires Owned()
      modifies this`peers, this`created, this`statusBook, this`pending
      ensures Owned()
      ensures a.BadState? <==> state != STARTED
      ensures a.Unverified? <==> state == STARTED && verdict.Raised?
      ensures a.NotHello? <==> state == STARTED && !verdict.Raised? && !data.body.Hello?
      ensures a.AddressMismatch? <==>
                state == STARTED && !verdict.Raised? && data.body.Hello? && data.node.addr != address
      ensures !a.Met? ==> Table() == old(Table()) && statusBook == old(statusBook)
      ensures peers == old(peers) + if a.Met? then [a.peer] else []
      ensures a.Met? ==>
                && fresh(a.peer) && a.refused == T.Disagree(old(Table()).rows, maxPeers, data.node.id)
                && Table() == T.Greeted(old(Table()), maxPeers, a.peer, data.node.id)
                && a.peer.Abs() == match a.refused
                                   case None => Fresh(NodeInfo(addr, me.id), address, [SendConfirm(CONFIRM_TEXT)], now)
                                   case Some(why) => Halted(Fresh(NodeInfo(addr, me.id), address, [], now), why)
      ensures a.Met? ==> statusBook == old(statusBook)[data.node.id :=
                                         if a.refused.None? then Starting else Disconnected(EndSession, a.refused.value)]
    {
      if state == STARTED {
        if verdict.Raised? {
          return Unverified;
        }
        if !data.body.Hello? {
          return NotHello;
        }
        if data.node.addr != address {
          return AddressMismatch;
        }
        var disagree := ApproveConnection(data.node.id);
        var peer := CreatePeer(data.node, addr, now);
        match disagree {
          case Some(why) =>
            var due := peer.SendDisconnect(why);
          case None =>
            Log(peer.peerID, Starting);
            peer.Enqueue(SendConfirm(CONFIRM_TEXT));
        }
        a := Met(peer, disagree);
      } else {
        a := BadState;
      }
    }

    /** One turn of the loop of stop, send_disconnect taken as one step. */
    method StopAt(i: nat, peer: Peer)
      requires Owned() && i < |peers| && peers[i] == peer && T.Unrepeated(peers) && peer in created
      modifies this`peers, this`statusBook, this`pending, this`removed, this`failures
      modifies peer`isStopped, peer`receiving, peer.handler`sQ, peer.handler`isStopped
      ensures Table() == T.Dropped(old(Table()), peer)
      ensures peers == T.Left(old(peers), i, if old(peer.isStopped) then {peer} else {}) && T.Unrepeated(peers)
      ensures statusBook == Noted(old(statusBook), peer.peerID, Lost(EndSession, STOPPING_TEXT))
      ensures peer.Abs() == Dismissed(old(peer.Abs()))
    {
      ghost var was := peers;
      var due := peer.SendDisconnect(STOPPING_TEXT);
      assert peers == was;
      if due {
        assert peer in pending;
        peer.Kill();
        peer.Unlist();
        RemoveIs(was, i);
        RemoveOthers(was, i);
      }
    }

    /** The same turn, and what it leaves of the whole node. */
    method StopTurn(i: nat, peer: Peer)
      requires Owned() && i < |peers| && peers[i] == peer && T.Unrepeated(peers) && peer in created
      modifies this`peers, this`statusBook, this`pending, this`removed, this`failures
      modifies peer`isStopped, peer`receiving, peer.handler`sQ, peer.handler`isStopped
      ensures Snapshot() == Cleared(old(Snapshot()), peer)
      ensures peers == T.Left(old(peers), i, if old(peer.isStopped) then {peer} else {})
    {
      StopAt(i, peer);
      assert forall p | p in created && p != peer :: p.handler.sQ == old(p.handler.sQ) && p.receiving == old(p.receiving);
      assert Queues() == old(Queues())[peer := old(peer.handler.sQ) + [SendDisconnect(STOPPING_TEXT)]];
      assert Receivers() == old(Receivers()) - if old(peer.isStopped) then {} else {peer};
    }

    /** The loop of stop: its index moves on while the list closes up behind it. */
    method StopPeers()
      requires Owned() && T.Unrepeated(peers) && forall p | p in peers :: p in created
      modifies this`peers, this`statusBook, this`pending, this`removed, this`failures
      modifies created`isStopped, created`receiving
      modifies (set p | p in created :: p.handler)`sQ, (set p | p in created :: p.handler)`isStopped
      ensures Snapshot() == ClearedAll(old(Snapshot()), T.Visited(old(peers), old(StoppedPeers())))
      ensures peers == T.Swept(old(peers), old(StoppedPeers()))
    {
      ghost var ps, desk := peers, Snapshot();
      T.LoopStarts(ps, desk.table);
      var i := 0;
      while i < |peers|
        invariant T.InLoop(ps, desk.table, peers, Table(), i)
        invariant ClearedAll(desk, T.Visited(ps, desk.table.stopped)) == ClearedAll(Snapshot(), T.ToVisit(peers, i, desk.table.stopped))
        decreases |peers| - i
      {
        T.LoopTurns(ps, desk.table, peers, Table(), i);
        T.VisitedTurn(peers, i, desk.table.stopped);
        ClearedFirst(Snapshot(), peers[i], T.ToVisit(T.Left(peers, i, desk.table.stopped), i + 1, desk.table.stopped));
        StopTurn(i, peers[i]);
        i := i + 1;
      }
      T.LoopEnds(ps, desk.table, peers, Table(), i);
    }

    /** What a first stop does. */
    method StopServing()
      requires Owned() && T.Unrepeated(peers) && forall p | p in peers :: p in created
      modifies this`state, this`peers, this`statusBook, this`pending, this`removed, this`failures
      modifies created`isStopped, created`receiving
      modifies (set p | p in created :: p.handler)`sQ, (set p | p in created :: p.handler)`isStopped
      ensures state == STOPPED
      ensures Snapshot() == ClearedAll(old(Snapshot()), T.Visited(old(peers), old(StoppedPeers())))
      ensures peers == T.Swept(old(peers), old(StoppedPeers()))
    {
      state := STOPPING;
      assert Snapshot() == old(Snapshot());
      StopPeers();
      ghost var after := Snapshot();
      state := STOPPED;
      assert Snapshot() == after;
    }

    /** A first stop leaves the list as its loop does, and of everything else what clearing
        the peers it comes to leaves; a second stop changes nothing. */
    method Stop()
      requires Owned() && T.Books(Table())
      modifies this`state, this`peers, this`statusBook, this`pending, this`removed, this`failures
      modifies created`isStopped, created`receiving
      modifies (set p | p in created :: p.handler)`sQ, (set p | p in created :: p.handler)`isStopped
      ensures state == STOPPED && Owned() && T.Books(Table())
      ensures old(state) == STOPPED ==> Snapshot() == old(Snapshot()) && forall p | p in created :: p.Abs() == old(p.Abs())
      ensures old(state) != STOPPED ==>
                && Snapshot() == ClearedAll(old(Snapshot()), T.Visited(old(peers), old(StoppedPeers())))
                && peers == T.Swept(old(peers), old(StoppedPeers()))
    {
      if state != STOPPED {
        ListFacts();
        ghost var visited := T.Visited(peers, StoppedPeers());
        ClearedTable(Snapshot(), visited);
        assert T.Books(T.DroppedAll(Table(), visited)) by {
          T.DroppedAllKeeps(Table(), visited);
        }
        StopServing();
      }
    }

    /** broadcast, given what random.sample returned; a count of zero means everyone. */
    method Broadcast(packet: Message, numPeers: nat, excluded: seq<string>, sample: seq<Peer>)
      requires Owned() && T.Unrepeated(peers) && forall p | p in peers :: p in created
      requires IsSample(sample, Eligible(peers, excluded), numPeers)
      modifies (set p | p in sample :: p.handler)`sQ
      ensures forall p | p in created ::
                p.handler.sQ == old(p.handler.sQ) + if state == STARTED && p in sample then [SendData(packet)] else []
      ensures numPeers == 0 ==> forall p | p in created :: p in sample <==> p in peers && p.peerID !in excluded
    {
      if numPeers == 0 {
        T.SampleIsAll(sample, Eligible(peers, excluded));
      }
      for i := 0 to |sample|
        invariant forall p | p in created ::
            p.handler.sQ == old(p.handler.sQ) + if state == STARTED && p in sample[..i] then [SendData(packet)] else []
      {
        var peer := sample[i];
        assert peer in sample && peer in created;
        assert sample[..i + 1] == sample[..i] + [peer];
        assert peer !in sample[..i];
        if state == STARTED {
          peer.SendPacket(packet);
        }
      }
      assert sample[..|sample|] == sample;
    }

    /** send: only a peer whose ID is in the list once gets the packet. */
    method Send(packet: Message, peerID: string) returns (sent: bool)
      requires Owned() && T.Unrepeated(peers) && forall p | p in peers :: p in created
      modifies (set p | p in peers && p.peerID == peerID :: p.handler)`sQ
      ensures sent <==> state == STARTED && HasOne(peers, peerID)
      ensures forall p | p in created ::
                p.handler.sQ == old(p.handler.sQ) + if sent && p in peers && p.peerID == peerID then [SendData(packet)] else []
    {
      sent := false;
      var found := Named(peers, peerID);
      OneNamed(peers, peerID);
      if state == STARTED && |found| == 1 {
        var peer := found[0];
        assert peer in found;
        assert forall p | p in peers && p.peerID == peerID :: p in found && p == peer;
        peer.SendPacket(packet);
        sent := true;
      }
    }
  }
}
