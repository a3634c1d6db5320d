/** A connection between two nodes: the initiating peer, the responding node's
    server socket, the peer that server creates, and the links between them. Every
    loop iteration of every greenlet is one event; the links are ordered queues. */
module Channels {
  import opened Wire
  import opened Endpoints

  /** The addresses of one connection. `initSeen` and `respSeen` are the addresses the
      network shows for the two peers' sockets; `init.addr` is the one the initiator claims. */
  datatype Setup = Setup(cfg: Config, init: NodeInfo, resp: NodeInfo, server: Addr, initSeen: Addr, respSeen: Addr)

  datatype Channel = Channel(
    init: Endpoint,
    resp: Option<Endpoint>,
    admitted: bool,          // approve_connection had no objection
    toServer: seq<Packet>,
    toResp: seq<Packet>,
    toInit: seq<Packet>,
    refused: seq<Packet>,    // datagrams the server socket took without making a peer
    fromInit: seq<Delivery>, // accepted by send_packet at the initiator
    fromResp: seq<Delivery>, // accepted by send_packet at the responder
    confirms: nat,           // confirm packets ever produced
    begun: set<Who>          // whose loops have begun
  )

  datatype Who = Initiator | Responder

  datatype Verdict = NotStarted | Admit | Reject(reason: string)

  datatype Event =
    | Begin(who: Who)
    | AppSend(who: Who, msg: Message)
    | SendWorker(who: Who)
    | RecvWorker(who: Who)
    | SendLoop(who: Who, now: real)
    | Flush(who: Who)
    | Receive(who: Who, now: real)
    | RecvLoop(who: Who)
    | Serve(verdict: Verdict, now: real)
    | Halt(who: Who, reason: string)
    | Break(who: Who)
    | Kill(who: Who)
    | Unlist(who: Who)

  function Start(s: Setup, now: real): Channel {
    Channel(Fresh(s.init, s.server, [SendHello(HELLO_TEXT)], now), None, false, [], [], [], [], [], [], 0, {})
  }

  predicate Present(c: Channel, w: Who) {
    w.Initiator? || c.resp.Some?
  }

  function At(c: Channel, w: Who): Endpoint
    requires Present(c, w)
  {
    if w.Initiator? then c.init else c.resp.value
  }

  function Put(c: Channel, w: Who, e: Endpoint): Channel {
    if w.Initiator? then c.(init := e) else c.(resp := Some(e))
  }

  function Link(c: Channel, w: Who): seq<Packet> {
    if w.Initiator? then c.toInit else c.toResp
  }

  /** Where a datagram goes is decided by the address it is sent to. */
  function Emit(s: Setup, c: Channel, w: Who, target: Addr, ps: seq<Packet>): Channel {
    match w
    case Initiator =>
      if target == s.server then c.(toServer := c.toServer + ps)
      else if target == s.respSeen then c.(toResp := c.toResp + ps)
      else c
    case Responder =>
      if target == s.initSeen then c.(toInit := c.toInit + ps) else c
  }

  /** check_hello: a hello whose claimed address is the one it came from. */
  predicate GoodHello(s: Setup, p: Packet) {
    p.body.Hello? && p.node.addr == s.initSeen
  }

  /** The peer _new_conn creates. A rejected one is stopped on the spot; the rest of its
      stop follows like that of any other. */
  function Created(s: Setup, p: Packet, v: Verdict, now: real): Endpoint
    requires !v.NotStarted?
  {
    match v
    case Admit => Fresh(s.resp, p.node.addr, [SendConfirm(CONFIRM_TEXT)], now)
    case Reject(reason) => Halted(Fresh(s.resp, p.node.addr, [], now), reason)
  }

  /** The loops of a peer have begun: they were scheduled and found its flags clear. They are
      taken to begin together, with the first of them. */
  predicate Runs(c: Channel, w: Who) {
    Present(c, w) && w in c.begun
  }

  /** Whether an event can happen. A loop begins only if the peer's flags are still clear; a
      greenlet that is being killed may still finish
      iterations: the send side runs on, the receive workers until the peer is unlisted,
      the receive loop until it is killed. */
  predicate Enabled(s: Setup, c: Channel, ev: Event) {
    match ev
    case Begin(w) => Present(c, w) && !At(c, w).stopped
    case AppSend(w, _) => Present(c, w) && At(c, w).listed
    case SendWorker(w) => Runs(c, w) && At(c, w).sQ != []
    case RecvWorker(w) => Runs(c, w) && At(c, w).inbox != [] && At(c, w).listed
    case SendLoop(w, _) => Runs(c, w) && !At(c, w).stopped
    case Flush(w) => Runs(c, w) && At(c, w).stopped
    case Receive(w, _) => Runs(c, w) && Link(c, w) != []
    case RecvLoop(w) => Runs(c, w) && At(c, w).rQ != [] && At(c, w).receiving
    case Serve(_, _) => c.toServer != []
    case Halt(w, _) => Present(c, w) && At(c, w).listed
    case Break(w) => Present(c, w) && At(c, w).listed
    case Kill(w) => Present(c, w) && At(c, w).stopped
    case Unlist(w) => Present(c, w) && At(c, w).stopped && At(c, w).listed && !At(c, w).receiving
  }

  function Accepted(c: Channel, w: Who, m: Message): Channel
    requires Present(c, w)
  {
    var e := At(c, w);
    var c1 := Put(c, w, AfterAppSend(e, m));
    if w.Initiator? then c1.(fromInit := c.fromInit + [Delivery(e.me.id, m)])
    else c1.(fromResp := c.fromResp + [Delivery(e.me.id, m)])
  }

  function Packed(c: Channel, w: Who): Channel
    requires Present(c, w) && At(c, w).sQ != []
  {
    var e := At(c, w);
    Put(c, w, AfterSendWorker(e)).(confirms := c.confirms + if e.sQ[0].SendConfirm? then 1 else 0)
  }

  function Looped(s: Setup, c: Channel, w: Who, now: real): Channel
    requires Present(c, w)
  {
    var (e, sent) := AfterSendLoop(s.cfg, At(c, w), now);
    Emit(s, Put(c, w, e), w, e.peerAddr, sent)
  }

  function Flushed(s: Setup, c: Channel, w: Who): Channel
    requires Present(c, w)
  {
    var (e, sent) := Drained(At(c, w));
    Emit(s, Put(c, w, e), w, e.peerAddr, sent)
  }

  function Heard(s: Setup, c: Channel, w: Who, now: real): Channel
    requires Present(c, w) && Link(c, w) != []
  {
    match w
    case Initiator => c.(init := AfterReceive(c.init, c.toInit[0], s.respSeen, now), toInit := c.toInit[1..])
    case Responder =>
      c.(resp := Some(AfterReceive(c.resp.value, c.toResp[0], s.initSeen, now)), toResp := c.toResp[1..])
  }

  function Served(s: Setup, c: Channel, v: Verdict, now: real): Channel
    requires c.toServer != []
  {
    var p := c.toServer[0];
    var c1 := c.(toServer := c.toServer[1..]);
    if v.NotStarted? || !GoodHello(s, p) || c.resp.Some? then c1.(refused := c.refused + [p])
    else c1.(resp := Some(Created(s, p, v, now)), admitted := v.Admit?)
  }

  function Next(s: Setup, c: Channel, ev: Event): Channel
    requires Enabled(s, c, ev)
  {
    match ev
    case Begin(w) => c.(begun := c.begun + {w})
    case AppSend(w, m) => Accepted(c, w, m)
    case SendWorker(w) => Packed(c, w)
    case RecvWorker(w) => Put(c, w, AfterRecvWorker(At(c, w)))
    case SendLoop(w, now) => Looped(s, c, w, now)
    case Flush(w) => Flushed(s, c, w)
    case Receive(w, now) => Heard(s, c, w, now)
    case RecvLoop(w) => Put(c, w, AfterRecvLoop(At(c, w)))
    case Serve(v, now) => Served(s, c, v, now)
    case Halt(w, reason) => Put(c, w, Halted(At(c, w), reason))
    case Break(w) => Put(c, w, Broken(At(c, w)))
    case Kill(w) => Put(c, w, Killed(At(c, w)))
    case Unlist(w) => Put(c, w, Unlisted(At(c, w)))
  }

  predicate CanRun(s: Setup, c: Channel, evs: seq<Event>)
    decreases |evs|
  {
    evs == [] || (Enabled(s, c, evs[0]) && CanRun(s, Next(s, c, evs[0]), evs[1..]))
  }

  function Run(s: Setup, c: Channel, evs: seq<Event>): Channel
    requires CanRun(s, c, evs)
    decreases |evs|
  {
    if evs == [] then c else Run(s, Next(s, c, evs[0]), evs[1..])
  }
}
