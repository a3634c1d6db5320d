/** One end of a peer connection: the queues, the handshake latch and the timer of
    a Peer and its Protocol handler, as a value, with one function for each loop
    iteration of its greenlets. The classes of UdpNode are proved against it. */
module Endpoints {
  import opened Lists
  import opened Wire

  datatype Config = Config(timeout: real, pingInterval: real)

  datatype Endpoint = Endpoint(
    me: NodeInfo,
    peerAddr: Addr,
    sQ: seq<Cmd>,
    vipbox: seq<Packet>,
    outbox: seq<Packet>,
    inbox: seq<Packet>,
    rQ: seq<Report>,
    latched: bool,        // hello_received
    stopped: bool,        // is_stopped
    listed: bool,         // still in the manager's peer list
    receiving: bool,      // recv_loop has not ended
    pinged: bool,
    lastContact: real,
    taken: seq<Delivery>  // every data report recv_loop has taken, in order
  )

  function Fresh(me: NodeInfo, peerAddr: Addr, first: seq<Cmd>, now: real): Endpoint {
    Endpoint(me, peerAddr, first, [], [], [], [], false, false, true, true, false, now, [])
  }

  // ---- Protocol.send_worker ------------------------------------------------

  /** The packet a command is turned into; an unknown action only prints. */
  function Encode(c: Cmd, me: NodeInfo): Option<Packet> {
    match c
    case SendHello(t) => Some(Packet(me, Hello(t)))
    case SendConfirm(t) => Some(Packet(me, Confirm(t)))
    case SendDisconnect(r) => Some(Packet(me, Disconnect(r)))
    case SendPing => Some(Packet(me, Ping))
    case SendPong => Some(Packet(me, Pong))
    case SendData(m) => Some(Packet(me, Data(m)))
    case UnknownCmd(_) => None
  }

  function AfterSendWorker(e: Endpoint): Endpoint
    requires e.sQ != []
  {
    var c := e.sQ[0];
    var e1 := e.(sQ := e.sQ[1..], latched := e.latched || c.SendConfirm?);
    match Encode(c, e.me)
    case None => e1
    case Some(p) =>
      if c.SendData? then e1.(outbox := e.outbox + [p]) else e1.(vipbox := e.vipbox + [p])
  }

  // ---- Protocol.recv_worker ------------------------------------------------

  datatype Reaction = Reaction(latched: bool, cmds: seq<Cmd>, reports: seq<Report>)

  const CONFIRM_TEXT := "Successfully received hello."
  const HELLO_TEXT := "Hello, requesting connection."
  const TIMEOUT_TEXT := "Ping pong timeout"
  const STOPPING_TEXT := "Peer stopping."

  function Bad(latched: bool, reason: string): Reaction {
    Reaction(latched, [], [Lost(BadPeer, reason)])
  }

  function React(latched: bool, p: Packet): Reaction {
    match p.body
    case Hello(_) =>
      if latched then Bad(latched, "Duplicate hello from peer!")
      else Reaction(latched, [SendConfirm(CONFIRM_TEXT)], [])
    case Confirm(_) =>
      if latched then Bad(latched, "confirm after handshaked")
      else Reaction(true, [], [Checked])
    case Disconnect(r) => Reaction(latched, [], [Lost(EndSession, r)])
    case Ping =>
      if latched then Reaction(latched, [SendPong], [Checked])
      else Bad(latched, "ping received before confirming connection")
    case Pong => Reaction(latched, [], [Checked])
    case Data(m) =>
      if latched then Reaction(latched, [], [Arrived(Delivery(p.node.id, m))])
      else Bad(latched, "data received before confirming connection")
    case Unknown(code) => Bad(latched, "Unknown packet control code: " + code)
  }

  function AfterRecvWorker(e: Endpoint): Endpoint
    requires e.inbox != []
  {
    var r := React(e.latched, e.inbox[0]);
    e.(inbox := e.inbox[1..], latched := r.latched, sQ := e.sQ + r.cmds, rQ := e.rQ + r.reports)
  }

  /** A datagram whose packet's `verify` raised; nothing else of it is looked at. */
  function AfterRefusal(e: Endpoint): Endpoint
    requires e.inbox != []
  {
    e.(inbox := e.inbox[1..], rQ := e.rQ + [Lost(BadPeer, "Packet verification failed.")])
  }

  // ---- Peer.run, send_loop, recv_loop ----------------------------------------

  /** An empty datagram only re-learns the peer's address. */
  function AfterEmpty(e: Endpoint, source: Addr): Endpoint {
    e.(peerAddr := source)
  }

  /** One datagram taken from the socket; the peer's address is re-learned. */
  function AfterReceive(e: Endpoint, p: Packet, source: Addr, now: real): Endpoint {
    e.(inbox := e.inbox + [p], peerAddr := source, lastContact := now, pinged := false)
  }

  /** At most one packet of each box leaves, the priority one first. */
  function Drained(e: Endpoint): (r: (Endpoint, seq<Packet>)) {
    var vip := if e.vipbox != [] then [e.vipbox[0]] else [];
    var out := if e.outbox != [] then [e.outbox[0]] else [];
    (e.(vipbox := e.vipbox[|vip|..], outbox := e.outbox[|out|..]), vip + out)
  }

  /** send_disconnect: the command is queued, then the first half of `stop`. */
  function Halted(e: Endpoint, reason: string): Endpoint {
    e.(sQ := e.sQ + [SendDisconnect(reason)], stopped := true)
  }

  /** A stop without a word to the other end: after a socket error, or from the death link. */
  function Broken(e: Endpoint): Endpoint {
    e.(stopped := true)
  }

  predicate TimesOut(cfg: Config, e: Endpoint, now: real) {
    now - e.lastContact > cfg.timeout
  }

  predicate PingsNow(cfg: Config, e: Endpoint, now: real) {
    !TimesOut(cfg, e, now) && now - e.lastContact > cfg.pingInterval && !e.pinged
  }

  predicate Drains(cfg: Config, e: Endpoint, now: real) {
    !TimesOut(cfg, e, now) && !PingsNow(cfg, e, now)
  }

  function AfterSendLoop(cfg: Config, e: Endpoint, now: real): (Endpoint, seq<Packet>) {
    if TimesOut(cfg, e, now) then (Halted(e, TIMEOUT_TEXT), [])
    else if PingsNow(cfg, e, now) then (e.(pinged := true, sQ := e.sQ + [SendPing]), [])
    else Drained(e)
  }

  /** Peer.report. A `checked` report changes nothing: it is queued as a bare string, so
      its first element is the letter c and no branch matches it. */
  function Reported(e: Endpoint, rp: Report): Endpoint {
    match rp
    case Checked => e
    case Lost(_, _) => e.(stopped := true)
    case Arrived(d) => e.(taken := e.taken + [d], receiving := e.receiving && d.msg.methodNo.Some?)
  }

  /** One iteration of recv_loop, with the test of the flag that follows it. */
  function AfterRecvLoop(e: Endpoint): Endpoint
    requires e.rQ != []
  {
    var f := Reported(e.(rQ := e.rQ[1..]), e.rQ[0]);
    f.(receiving := f.receiving && !f.stopped)
  }

  function AfterAppSend(e: Endpoint, m: Message): Endpoint {
    e.(sQ := e.sQ + [SendData(m)])
  }

  /** `stop` goes on, after the workers are killed, with killing the loops of the peer. */
  function Killed(e: Endpoint): Endpoint {
    e.(receiving := false)
  }

  /** `stop` ends with taking the peer off the list. */
  function Unlisted(e: Endpoint): Endpoint {
    e.(listed := false)
  }

  /** send_disconnect from the manager's stop, taken as one step: a peer already being
      stopped only gets one more command. */
  function Dismissed(e: Endpoint): Endpoint {
    if e.stopped then Halted(e, STOPPING_TEXT) else Unlisted(Killed(Halted(e, STOPPING_TEXT)))
  }

  // ---- The data inside the queues ------------------------------------------

  function DataPackets(ps: seq<Packet>): seq<Delivery> {
    if ps == [] then []
    else (if ps[0].body.Data? then [Delivery(ps[0].node.id, ps[0].body.msg)] else []) + DataPackets(ps[1..])
  }

  function DataCmds(cs: seq<Cmd>, id: string): seq<Delivery> {
    if cs == [] then []
    else (if cs[0].SendData? then [Delivery(id, cs[0].msg)] else []) + DataCmds(cs[1..], id)
  }

  function DataReports(rs: seq<Report>): seq<Delivery> {
    if rs == [] then []
    else (if rs[0].Arrived? then [rs[0].item] else []) + DataReports(rs[1..])
  }

  lemma {:induction false} DataPacketsAppend(a: seq<Packet>, b: seq<Packet>)
    ensures DataPackets(a + b) == DataPackets(a) + DataPackets(b)
  {
    if a == [] {
      assert a + b == b;
    } else {
      assert (a + b)[1..] == a[1..] + b;
      DataPacketsAppend(a[1..], b);
      Regroup(DataPackets([a[0]]), DataPackets(a[1..]), DataPackets(b));
    }
  }

  lemma {:induction false} DataCmdsAppend(a: seq<Cmd>, b: seq<Cmd>, id: string)
    ensures DataCmds(a + b, id) == DataCmds(a, id) + DataCmds(b, id)
  {
    if a == [] {
      assert a + b == b;
    } else {
      assert (a + b)[1..] == a[1..] + b;
      DataCmdsAppend(a[1..], b, id);
      Regroup(DataCmds([a[0]], id), DataCmds(a[1..], id), DataCmds(b, id));
    }
  }

  lemma {:induction false} DataReportsAppend(a: seq<Report>, b: seq<Report>)
    ensures DataReports(a + b) == DataReports(a) + DataReports(b)
  {
    if a == [] {
      assert a + b == b;
    } else {
      assert (a + b)[1..] == a[1..] + b;
      DataReportsAppend(a[1..], b);
      Regroup(DataReports([a[0]]), DataReports(a[1..]), DataReports(b));
    }
  }

  lemma {:induction false} NoDataPackets(ps: seq<Packet>)
    requires forall p | p in ps :: !p.body.Data?
    ensures DataPackets(ps) == []
  {
    if ps != [] {
      NoDataPackets(ps[1..]);
    }
  }

  // ---- The receive queues of the application, Peer.parse_data -----------------

  /** `recv_queue[m]`: Python counts a negative index from the end. */
  function QueueIndex(m: int, n: nat): (k: Option<nat>)
    ensures k.Some? ==> k.value < n
  {
    if 0 <= m < n then Some(m) else if m < 0 && 0 <= n + m then Some(n + m) else None
  }

  function Routed(ds: seq<Delivery>, n: nat, k: nat): seq<Delivery> {
    if ds == [] then []
    else
      (if ds[0].msg.methodNo.Some? && QueueIndex(ds[0].msg.methodNo.value, n) == Some(k) then [ds[0]] else [])
      + Routed(ds[1..], n, k)
  }

  lemma {:induction false} RoutedAppend(a: seq<Delivery>, b: seq<Delivery>, n: nat, k: nat)
    ensures Routed(a + b, n, k) == Routed(a, n, k) + Routed(b, n, k)
  {
    if a == [] {
      assert a + b == b;
    } else {
      assert (a + b)[1..] == a[1..] + b;
      RoutedAppend(a[1..], b, n, k);
    }
  }

  /** The number a message is dispatched by selects a queue, counted from the front or, below
      zero, from the end. */
  predicate Selects(d: Delivery, n: nat, k: nat) {
    d.msg.methodNo == Some(k) || d.msg.methodNo == Some(k - n)
  }

  /** What joins queue k of n: exactly the items whose number selects it, in their order; item
      i of these was at position at[i]. */
  lemma {:induction false} RoutedIs(ds: seq<Delivery>, n: nat, k: nat) returns (at: seq<nat>)
    requires k < n
    ensures |at| == |Routed(ds, n, k)|
    ensures forall i :: 0 <= i < |at| ==> at[i] < |ds| && Routed(ds, n, k)[i] == ds[at[i]]
    ensures forall i, j :: 0 <= i < j < |at| ==> at[i] < at[j]
    ensures forall p: nat :: p < |ds| ==> (p in at <==> Selects(ds[p], n, k))
  {
    if ds == [] {
      at := [];
    } else {
      var last := |ds| - 1;
      var front := RoutedIs(ds[..last], n, k);
      RoutedAppend(ds[..last], [ds[last]], n, k);
      RoutedOne(ds[last], n, k);
      assert ds[..last] + [ds[last]] == ds;
      assert forall i :: 0 <= i < |front| ==> front[i] in front;
      at := front + if Selects(ds[last], n, k) then [last] else [];
    }
  }

  lemma RoutedOne(d: Delivery, n: nat, k: nat)
    requires k < n
    ensures Routed([d], n, k) == if Selects(d, n, k) then [d] else []
  {
    var none: seq<Delivery> := [];
    assert [d][1..] == none;
  }

  // ---- What an endpoint holds ------------------------------------------------

  /** Data on its way out of an endpoint, oldest first. */
  function Upstream(e: Endpoint): seq<Delivery> {
    DataPackets(e.outbox) + DataCmds(e.sQ, e.me.id)
  }

  /** Data that has reached an endpoint, oldest first. */
  function Downstream(e: Endpoint): seq<Delivery> {
    e.taken + DataReports(e.rQ) + DataPackets(e.inbox)
  }

  /** What the boxes of an honest endpoint hold. */
  predicate Boxed(e: Endpoint) {
    && (forall p | p in e.vipbox :: p.node == e.me && !p.body.Data? && !p.body.Unknown?)
    && (forall p | p in e.outbox :: p.node == e.me && p.body.Data?)
  }

  // ---- What one iteration does, field by field --------------------------------

  lemma FreshIs(me: NodeInfo, peerAddr: Addr, first: seq<Cmd>, now: real)
    ensures
      var e := Fresh(me, peerAddr, first, now);
      && e.me == me && e.peerAddr == peerAddr && e.sQ == first && e.lastContact == now && e.taken == []
      && e.vipbox == e.outbox == e.inbox == [] && e.rQ == []
      && !e.latched && !e.stopped && e.listed && e.receiving && !e.pinged
  {
  }

  /** send_worker: one packet for the command, of its kind and with its content, signed as
      this node; data goes to its own box, a confirm latches. */
  lemma PackedIs(e: Endpoint)
    requires e.sQ != []
    ensures
      AfterSendWorker(e) == e.(
        sQ := e.sQ[1..],
        latched := e.latched || e.sQ[0].SendConfirm?,
        vipbox := e.vipbox + match e.sQ[0]
                             case SendHello(t) => [Packet(e.me, Hello(t))]
                             case SendConfirm(t) => [Packet(e.me, Confirm(t))]
                             case SendDisconnect(r) => [Packet(e.me, Disconnect(r))]
                             case SendPing => [Packet(e.me, Ping)]
                             case SendPong => [Packet(e.me, Pong)]
                             case _ => [],
        outbox := e.outbox + if e.sQ[0].SendData? then [Packet(e.me, Data(e.sQ[0].msg))] else [])
  {
    assert e.vipbox + [] == e.vipbox && e.outbox + [] == e.outbox;
    match e.sQ[0]
    case _ =>
  }

  /** recv_worker: which packets are answered, and with what; */
  lemma AnsweredIs(e: Endpoint)
    requires e.inbox != []
    ensures
      var f := AfterRecvWorker(e);
      && f == e.(inbox := e.inbox[1..], latched := e.latched || e.inbox[0].body.Confirm?, sQ := f.sQ, rQ := f.rQ)
      && f.sQ == e.sQ + match e.inbox[0].body
                        case Hello(_) => if e.latched then [] else [SendConfirm("Successfully received hello.")]
                        case Ping => if e.latched then [SendPong] else []
                        case _ => []
  {
    assert e.sQ + [] == e.sQ;
    match e.inbox[0].body
    case _ =>
  }

  /** and which are reported, and how. */
  lemma ReportedIs(e: Endpoint)
    requires e.inbox != []
    ensures
      AfterRecvWorker(e).rQ == e.rQ + match e.inbox[0].body
        case Hello(_) => if e.latched then [Lost(BadPeer, "Duplicate hello from peer!")] else []
        case Confirm(_) => [if e.latched then Lost(BadPeer, "confirm after handshaked") else Checked]
        case Disconnect(r) => [Lost(EndSession, r)]
        case Ping => [if e.latched then Checked else Lost(BadPeer, "ping received before confirming connection")]
        case Pong => [Checked]
        case Data(m) =>
          [if e.latched then Arrived(Delivery(e.inbox[0].node.id, m))
           else Lost(BadPeer, "data received before confirming connection")]
        case Unknown(code) => [Lost(BadPeer, "Unknown packet control code: " + code)]
  {
    assert e.rQ + [] == e.rQ;
    match e.inbox[0].body
    case _ =>
  }

  /** send_loop: by how long the other end has been silent. */
  lemma LoopedIs(cfg: Config, e: Endpoint, now: real)
    ensures
      var (f, sent) := AfterSendLoop(cfg, e, now);
      var silence := now - e.lastContact;
      if silence > cfg.timeout then
        f == e.(sQ := e.sQ + [SendDisconnect("Ping pong timeout")], stopped := true) && sent == []
      else if silence > cfg.pingInterval && !e.pinged then
        f == e.(sQ := e.sQ + [SendPing], pinged := true) && sent == []
      else
        && f == e.(vipbox := if e.vipbox == [] then [] else e.vipbox[1..], outbox := if e.outbox == [] then [] else e.outbox[1..])
        && sent == (if e.vipbox == [] then [] else [e.vipbox[0]]) + (if e.outbox == [] then [] else [e.outbox[0]])
  {
    assert e.vipbox == [] ==> e.vipbox[0..] == [];
    assert e.outbox == [] ==> e.outbox[0..] == [];
  }

  /** run and recv_loop. */
  lemma HeardIs(e: Endpoint, p: Packet, source: Addr, now: real)
    ensures AfterReceive(e, p, source, now) == e.(inbox := e.inbox + [p], peerAddr := source, lastContact := now, pinged := false)
  {
  }

  lemma TakenIs(e: Endpoint)
    requires e.rQ != []
    ensures
      var f := AfterRecvLoop(e);
      && f == e.(rQ := e.rQ[1..], stopped := e.stopped || e.rQ[0].Lost?, taken := f.taken, receiving := f.receiving)
      && f.taken == e.taken + (if e.rQ[0].Arrived? then [e.rQ[0].item] else [])
      && f.receiving == (e.receiving && !f.stopped && (e.rQ[0].Arrived? ==> e.rQ[0].item.msg.methodNo.Some?))
  {
    assert e.taken + [] == e.taken;
    match e.rQ[0]
    case _ =>
  }

  /** What happens outside the loops: a datagram that is refused or empty, a message accepted,
      and the steps of a stop, one by one and together. */
  lemma ElseIs(e: Endpoint, source: Addr, m: Message, reason: string)
    ensures e.inbox != [] ==>
              AfterRefusal(e) == e.(inbox := e.inbox[1..], rQ := e.rQ + [Lost(BadPeer, "Packet verification failed.")])
    ensures AfterEmpty(e, source) == e.(peerAddr := source)
    ensures AfterAppSend(e, m) == e.(sQ := e.sQ + [SendData(m)])
    ensures Halted(e, reason) == e.(sQ := e.sQ + [SendDisconnect(reason)], stopped := true)
    ensures Broken(e) == e.(stopped := true)
    ensures Killed(e) == e.(receiving := false)
    ensures Unlisted(e) == e.(listed := false)
    ensures Dismissed(e) == e.(sQ := e.sQ + [SendDisconnect("Peer stopping.")], stopped := true,
                               receiving := e.receiving && e.stopped, listed := e.listed && e.stopped)
  {
  }

  // ---- What one iteration does to the data: priority never reorders it ------

  lemma SendWorkerKeepsBoxed(e: Endpoint)
    requires e.sQ != [] && Boxed(e)
    ensures Boxed(AfterSendWorker(e))
  {
    match Encode(e.sQ[0], e.me)
    case None =>
    case Some(p) =>
  }

  lemma SendWorkerKeepsData(e: Endpoint)
    requires e.sQ != []
    ensures var f := AfterSendWorker(e);
            Upstream(f) == Upstream(e) && Downstream(f) == Downstream(e) && f.peerAddr == e.peerAddr
  {
    var f := AfterSendWorker(e);
    var id, rest := e.me.id, e.sQ[1..];
    assert f.sQ == rest && f.me == e.me;
    if e.sQ[0].SendData? {
      var p := Packet(e.me, Data(e.sQ[0].msg));
      var d := [Delivery(id, e.sQ[0].msg)];
      assert f.outbox == e.outbox + [p];
      DataPacketsAppend(e.outbox, [p]);
      assert DataPackets([p]) == d;
      Regroup(DataPackets(e.outbox), d, DataCmds(rest, id));
    } else {
      assert f.outbox == e.outbox;
      assert DataCmds(e.sQ, id) == DataCmds(rest, id);
    }
  }

  /** What a packet turns into when it is handled: its data as a report, never lost. */
  lemma ReactKeepsData(latched: bool, p: Packet, id: string)
    requires p.body.Data? ==> latched
    ensures var r := React(latched, p); DataReports(r.reports) == DataPackets([p]) && DataCmds(r.cmds, id) == []
  {
    var none: seq<Packet> := [];
    assert [p][1..] == none;
  }

  lemma RecvWorkerKeepsData(e: Endpoint)
    requires e.inbox != []
    requires e.inbox[0].body.Data? ==> e.latched
    ensures var f := AfterRecvWorker(e); Upstream(f) == Upstream(e) && Downstream(f) == Downstream(e)
  {
    var r := React(e.latched, e.inbox[0]);
    var f := AfterRecvWorker(e);
    ReactKeepsData(e.latched, e.inbox[0], e.me.id);
    DataReportsAppend(e.rQ, r.reports);
    DataCmdsAppend(e.sQ, r.cmds, e.me.id);
    assert Upstream(f) == Upstream(e);
    assert e.inbox == [e.inbox[0]] + e.inbox[1..];
    DataPacketsAppend([e.inbox[0]], e.inbox[1..]);
    Regroup(e.taken + DataReports(e.rQ), DataReports(r.reports), DataPackets(f.inbox));
    Regroup(e.taken, DataReports(e.rQ), DataReports(r.reports));
  }

  lemma DrainKeepsBoxed(e: Endpoint)
    requires Boxed(e)
    ensures var (f, sent) := Drained(e); Boxed(f) && forall p | p in sent :: p in e.vipbox || p in e.outbox
  {
  }

  lemma DrainMovesData(e: Endpoint)
    requires forall p | p in e.vipbox :: !p.body.Data?
    ensures var (f, sent) := Drained(e);
            && Upstream(e) == DataPackets(sent) + Upstream(f)
            && Downstream(f) == Downstream(e)
            && DataPackets(sent) == DataPackets(e.outbox[..if e.outbox != [] then 1 else 0])
  {
    var (f, sent) := Drained(e);
    var vip := if e.vipbox != [] then [e.vipbox[0]] else [];
    var out := e.outbox[..if e.outbox != [] then 1 else 0];
    assert sent == vip + out;
    DataPacketsAppend(vip, out);
    NoDataPackets(vip);
    assert DataPackets(sent) == DataPackets(out);
    assert e.outbox == out + f.outbox;
    DataPacketsAppend(out, f.outbox);
    Regroup(DataPackets(out), DataPackets(f.outbox), DataCmds(e.sQ, e.me.id));
  }

  lemma SendLoopMovesData(cfg: Config, e: Endpoint, now: real)
    requires Boxed(e)
    ensures var (f, sent) := AfterSendLoop(cfg, e, now);
            && Boxed(f)
            && Upstream(e) == DataPackets(sent) + Upstream(f)
            && Downstream(f) == Downstream(e)
  {
    if TimesOut(cfg, e, now) {
      HaltKeepsData(e, TIMEOUT_TEXT);
    } else if PingsNow(cfg, e, now) {
      DataCmdsAppend(e.sQ, [SendPing], e.me.id);
      assert DataCmds([SendPing], e.me.id) == [];
    } else {
      DrainKeepsBoxed(e);
      DrainMovesData(e);
    }
  }

  lemma ReceiveAddsData(e: Endpoint, p: Packet, source: Addr, now: real)
    ensures var f := AfterReceive(e, p, source, now);
            Upstream(f) == Upstream(e) && Downstream(f) == Downstream(e) + DataPackets([p])
  {
    DataPacketsAppend(e.inbox, [p]);
  }

  lemma RecvLoopKeepsData(e: Endpoint)
    requires e.rQ != []
    ensures var f := AfterRecvLoop(e);
            Upstream(f) == Upstream(e) && Downstream(f) == Downstream(e) && f.peerAddr == e.peerAddr
  {
    match e.rQ[0]
    case Checked =>
    case Lost(_, _) =>
    case Arrived(d) => Regroup(e.taken, [d], DataReports(e.rQ[1..]));
  }

  lemma AppSendAddsData(e: Endpoint, m: Message)
    ensures var f := AfterAppSend(e, m);
            Upstream(f) == Upstream(e) + [Delivery(e.me.id, m)] && Downstream(f) == Downstream(e)
  {
    DataCmdsAppend(e.sQ, [SendData(m)], e.me.id);
    assert DataCmds([SendData(m)], e.me.id) == [Delivery(e.me.id, m)];
  }

  lemma HaltKeepsData(e: Endpoint, reason: string)
    ensures var f := Halted(e, reason); Upstream(f) == Upstream(e) && Downstream(f) == Downstream(e)
  {
    DataCmdsAppend(e.sQ, [SendDisconnect(reason)], e.me.id);
  }
}
