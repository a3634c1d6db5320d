/** What becomes of the packets that are not data: every ping that is handled is answered by
    one pong, and what ends a session stops both ends of it. */
module PingPong {
  import opened Wire
  import opened Endpoints
  import opened Channels
  import opened Handshake
  import opened Quiescence

  // ---- Counting -------------------------------------------------------------------

  datatype Mark = PingMark | PongMark | ByeMark

  predicate Bears(k: Mark, p: Packet) {
    match k
    case PingMark => p.body.Ping?
    case PongMark => p.body.Pong?
    case ByeMark => p.body.Disconnect?
  }

  predicate Orders(k: Mark, c: Cmd) {
    match k
    case PingMark => c.SendPing?
    case PongMark => c.SendPong?
    case ByeMark => c.SendDisconnect?
  }

  function Packets(k: Mark, ps: seq<Packet>): nat {
    if ps == [] then 0 else (if Bears(k, ps[0]) then 1 else 0) + Packets(k, ps[1..])
  }

  function Commands(k: Mark, cs: seq<Cmd>): nat {
    if cs == [] then 0 else (if Orders(k, cs[0]) then 1 else 0) + Commands(k, cs[1..])
  }

  lemma {:induction false} PacketsAppend(k: Mark, a: seq<Packet>, b: seq<Packet>)
    ensures Packets(k, a + b) == Packets(k, a) + Packets(k, b)
  {
    if a == [] {
      assert a + b == b;
    } else {
      assert (a + b)[1..] == a[1..] + b;
      PacketsAppend(k, a[1..], b);
    }
  }

  lemma {:induction false} CommandsAppend(k: Mark, a: seq<Cmd>, b: seq<Cmd>)
    ensures Commands(k, a + b) == Commands(k, a) + Commands(k, b)
  {
    if a == [] {
      assert a + b == b;
    } else {
      assert (a + b)[1..] == a[1..] + b;
      CommandsAppend(k, a[1..], b);
    }
  }

  lemma {:induction false} DataBearsNone(k: Mark, ps: seq<Packet>)
    requires forall p | p in ps :: p.body.Data?
    ensures Packets(k, ps) == 0
  {
    if ps != [] {
      DataBearsNone(k, ps[1..]);
    }
  }

  lemma PacketMore(k: Mark, ps: seq<Packet>, p: Packet)
    ensures Packets(k, ps + [p]) == Packets(k, ps) + if Bears(k, p) then 1 else 0
  {
    PacketsAppend(k, ps, [p]);
    assert Packets(k, [p][1..]) == 0;
  }

  lemma CommandMore(k: Mark, cs: seq<Cmd>, c: Cmd)
    ensures Commands(k, cs + [c]) == Commands(k, cs) + if Orders(k, c) then 1 else 0
  {
    CommandsAppend(k, cs, [c]);
    assert Commands(k, [c][1..]) == 0;
  }

  // ---- One end --------------------------------------------------------------------

  /** What an end is still to send. */
  function Held(k: Mark, e: Endpoint): nat {
    Commands(k, e.sQ) + Packets(k, e.vipbox)
  }

  lemma PackHolds(k: Mark, e: Endpoint)
    requires e.sQ != []
    ensures var f := AfterSendWorker(e); Held(k, f) == Held(k, e) && f.inbox == e.inbox && f.peerAddr == e.peerAddr
  {
    PackedIs(e);
    var f := AfterSendWorker(e);
    var more := f.vipbox[|e.vipbox|..];
    assert f.vipbox == e.vipbox + more;
    PacketsAppend(k, e.vipbox, more);
    if more != [] {
      assert Packets(k, more[1..]) == 0;
    }
  }

  /** A handled ping is answered; nothing else makes a ping or a pong. */
  lemma HandleHolds(k: Mark, e: Endpoint)
    requires e.inbox != []
    ensures
      var f := AfterRecvWorker(e);
      && Held(k, f) == Held(k, e) + (if k.PongMark? && e.latched && e.inbox[0].body.Ping? then 1 else 0)
      && Packets(k, f.inbox) + (if Bears(k, e.inbox[0]) then 1 else 0) == Packets(k, e.inbox)
  {
    AnsweredIs(e);
    var f := AfterRecvWorker(e);
    if f.sQ != e.sQ {
      CommandMore(k, e.sQ, f.sQ[|e.sQ|]);
      assert f.sQ == e.sQ + [f.sQ[|e.sQ|]];
    }
  }

  lemma DrainHolds(k: Mark, e: Endpoint)
    requires forall p | p in e.outbox :: p.body.Data?
    ensures
      var (f, sent) := Drained(e);
      Held(k, f) + Packets(k, sent) == Held(k, e) && f.inbox == e.inbox && f.peerAddr == e.peerAddr
  {
    var vip := if e.vipbox != [] then [e.vipbox[0]] else [];
    var out := if e.outbox != [] then [e.outbox[0]] else [];
    PacketsAppend(k, vip, out);
    DataBearsNone(k, out);
    PacketsAppend(k, vip, e.vipbox[|vip|..]);
    assert vip + e.vipbox[|vip|..] == e.vipbox;
  }

  // ---- One connection ------------------------------------------------------------

  function Other(w: Who): Who {
    if w.Initiator? then Responder else Initiator
  }

  function HeldAt(k: Mark, c: Channel, w: Who): nat {
    if Present(c, w) then Held(k, At(c, w)) else 0
  }

  function InboxAt(k: Mark, c: Channel, w: Who): nat {
    if Present(c, w) then Packets(k, At(c, w).inbox) else 0
  }

  /** What the server socket got of it. */
  function AtServer(k: Mark, c: Channel): nat {
    Packets(k, c.toServer) + Packets(k, c.refused)
  }

  /** Everything that one end has made and the other has not handled. */
  function Way(k: Mark, c: Channel, w: Who): nat {
    HeldAt(k, c, w) + Packets(k, Link(c, Other(w))) + InboxAt(k, c, Other(w)) + if w.Initiator? then AtServer(k, c) else 0
  }

  lemma PutWay(k: Mark, c: Channel, v: Who, f: Endpoint, w: Who)
    requires Present(c, v)
    ensures
      var e := At(c, v);
      Way(k, Put(c, v, f), w) ==
      Way(k, c, w) + if v == w then Held(k, f) - Held(k, e) else Packets(k, f.inbox) - Packets(k, e.inbox)
  {
  }

  /** Where an end sends to, if its loops have begun. */
  predicate Aimed(s: Setup, c: Channel, w: Who)
    requires Present(c, w)
  {
    && (w.Initiator? ==> At(c, w).peerAddr == s.server || At(c, w).peerAddr == s.respSeen)
    && (w.Responder? ==> At(c, w).peerAddr == s.initSeen)
    && forall p | p in At(c, w).outbox :: p.body.Data?
  }

  lemma EmitWay(k: Mark, s: Setup, c: Channel, v: Who, ps: seq<Packet>, w: Who)
    requires Present(c, v) && Aimed(s, c, v)
    ensures Way(k, Emit(s, c, v, At(c, v).peerAddr, ps), w) == Way(k, c, w) + if v == w then Packets(k, ps) else 0
  {
    PacketsAppend(k, c.toServer, ps);
    PacketsAppend(k, c.toResp, ps);
    PacketsAppend(k, c.toInit, ps);
  }

  lemma FlushWay(k: Mark, s: Setup, c: Channel, v: Who, w: Who)
    requires Present(c, v) && Aimed(s, c, v)
    ensures Way(k, Flushed(s, c, v), w) == Way(k, c, w)
  {
    var e := At(c, v);
    var (f, sent) := Drained(e);
    DrainHolds(k, e);
    PutWay(k, c, v, f, w);
    EmitWay(k, s, Put(c, v, f), v, sent, w);
  }

  lemma HearWay(k: Mark, s: Setup, c: Channel, v: Who, now: real, w: Who)
    requires Present(c, v) && Link(c, v) != []
    ensures Way(k, Heard(s, c, v, now), w) == Way(k, c, w)
  {
    PacketMore(k, At(c, v).inbox, Link(c, v)[0]);
  }

  // ---- One event --------------------------------------------------------------------

  /** The timer finds a silence that is worth a ping. */
  predicate Pings(s: Setup, c: Channel, ev: Event, w: Who) {
    && ev.SendLoop? && ev.who == w && Present(c, w) && !At(c, w).pinged
    && s.cfg.pingInterval < ev.now - At(c, w).lastContact <= s.cfg.timeout
  }

  /** An end handles a packet of one kind. */
  predicate Handles(k: Mark, c: Channel, ev: Event, w: Who) {
    ev == RecvWorker(w) && Present(c, w) && At(c, w).inbox != [] && Bears(k, At(c, w).inbox[0])
  }

  /** An end is given up, by its own node, or by its timer, or as soon as it is made. */
  predicate Leaves(s: Setup, c: Channel, ev: Event, w: Who) {
    match ev
    case Halt(v, _) => v == w
    case SendLoop(v, now) => v == w && Present(c, w) && now - At(c, w).lastContact > s.cfg.timeout
    case Serve(v, _) => w.Responder? && v.Reject? && c.resp.None? && c.toServer != [] && GoodHello(s, c.toServer[0])
    case _ => false
  }

  predicate Makes(k: Mark, s: Setup, c: Channel, ev: Event, w: Who) {
    match k
    case PingMark => Pings(s, c, ev, w)
    case PongMark => Handles(PingMark, c, ev, w)
    case ByeMark => Leaves(s, c, ev, w)
  }

  lemma RefuseWay(k: Mark, c: Channel, w: Who)
    requires c.toServer != []
    ensures Way(k, c.(toServer := c.toServer[1..], refused := c.refused + [c.toServer[0]]), w) == Way(k, c, w)
  {
    PacketMore(k, c.refused, c.toServer[0]);
  }

  /** A hello makes a responder; no other kind of packet is counted. */
  lemma MeetWay(k: Mark, c: Channel, r: Endpoint, admitted: bool, w: Who)
    requires c.toServer != [] && c.toServer[0].body.Hello? && c.resp.None? && r.inbox == []
    ensures Way(k, c.(toServer := c.toServer[1..], resp := Some(r), admitted := admitted), w) ==
            Way(k, c, w) + if w.Responder? then Held(k, r) else 0
  {
  }

  lemma ServeWay(k: Mark, s: Setup, c: Channel, v: Verdict, now: real, w: Who)
    requires c.toServer != []
    ensures Way(k, Served(s, c, v, now), w) ==
            Way(k, c, w) + if k.ByeMark? && Leaves(s, c, Serve(v, now), w) then 1 else 0
  {
    var p := c.toServer[0];
    if v.NotStarted? || !GoodHello(s, p) || c.resp.Some? {
      RefuseWay(k, c, w);
    } else {
      CreatedHolds(k, s, p, v, now);
      MeetWay(k, c, Created(s, p, v, now), v.Admit?, w);
    }
  }

  lemma CreatedHolds(k: Mark, s: Setup, p: Packet, v: Verdict, now: real)
    requires !v.NotStarted?
    ensures var r := Created(s, p, v, now); r.inbox == [] && Held(k, r) == if k.ByeMark? && v.Reject? then 1 else 0
  {
    var r := Created(s, p, v, now);
    assert r.vipbox == [] && r.sQ == [r.sQ[0]];
    assert Commands(k, r.sQ[1..]) == 0;
  }

  lemma QueueWay(k: Mark, c: Channel, v: Who, f: Endpoint, x: Cmd, w: Who)
    requires Present(c, v)
    requires var e := At(c, v); f.sQ == e.sQ + [x] && f.vipbox == e.vipbox && f.inbox == e.inbox
    ensures Way(k, Put(c, v, f), w) == Way(k, c, w) + if v == w && Orders(k, x) then 1 else 0
  {
    CommandMore(k, At(c, v).sQ, x);
    PutWay(k, c, v, f, w);
  }

  /** What the handshake sees to: who sends is aimed at the other end, and a ping that gets as
      far as being handled finds the latch closed. */
  predicate Ready(s: Setup, c: Channel, ev: Event) {
    match ev
    case SendLoop(w, _) => Present(c, w) && Aimed(s, c, w)
    case Flush(w) => Present(c, w) && Aimed(s, c, w)
    case RecvWorker(w) => Present(c, w) && At(c, w).inbox != [] && (At(c, w).inbox[0].body.Ping? ==> At(c, w).latched)
    case _ => true
  }

  lemma InvReady(s: Setup, c: Channel, ev: Event)
    requires Inv(s, c) && Enabled(s, c, ev)
    ensures Ready(s, c, ev)
  {
    if ev == RecvWorker(Initiator) {
      assert c.resp.Some? && Back(c)[0] == c.init.inbox[0];
    }
  }

  lemma HandleWay(k: Mark, s: Setup, c: Channel, v: Who, w: Who)
    requires Ready(s, c, RecvWorker(v))
    ensures
      Way(k, Put(c, v, AfterRecvWorker(At(c, v))), w) + (if Handles(k, c, RecvWorker(v), Other(w)) then 1 else 0)
      == Way(k, c, w) + if k.PongMark? && Handles(PingMark, c, RecvWorker(v), w) then 1 else 0
  {
    var e := At(c, v);
    HandleHolds(k, e);
    PutWay(k, c, v, AfterRecvWorker(e), w);
  }

  lemma LoopWay(k: Mark, s: Setup, c: Channel, v: Who, now: real, w: Who)
    requires Present(c, v) && Aimed(s, c, v)
    ensures Way(k, Looped(s, c, v, now), w) ==
            Way(k, c, w) + if !k.PongMark? && Makes(k, s, c, SendLoop(v, now), w) then 1 else 0
  {
    LoopCases(s, c, v, now);
    var e := At(c, v);
    if TimesOut(s.cfg, e, now) {
      QueueWay(k, c, v, Halted(e, TIMEOUT_TEXT), SendDisconnect(TIMEOUT_TEXT), w);
    } else if PingsNow(s.cfg, e, now) {
      QueueWay(k, c, v, e.(sQ := e.sQ + [SendPing], pinged := true), SendPing, w);
    } else {
      FlushWay(k, s, c, v, w);
    }
  }

  lemma AcceptWay(k: Mark, c: Channel, v: Who, m: Message, w: Who)
    requires Present(c, v)
    ensures Way(k, Accepted(c, v, m), w) == Way(k, c, w)
  {
    QueueWay(k, c, v, AfterAppSend(At(c, v), m), SendData(m), w);
  }

  lemma PackWay(k: Mark, c: Channel, v: Who, w: Who)
    requires Present(c, v) && At(c, v).sQ != []
    ensures Way(k, Packed(c, v), w) == Way(k, c, w)
  {
    PackHolds(k, At(c, v));
    PutWay(k, c, v, AfterSendWorker(At(c, v)), w);
  }

  lemma TakeWay(k: Mark, c: Channel, v: Who, w: Who)
    requires Present(c, v) && At(c, v).rQ != []
    ensures Way(k, Put(c, v, AfterRecvLoop(At(c, v))), w) == Way(k, c, w)
  {
    TakenIs(At(c, v));
    PutWay(k, c, v, AfterRecvLoop(At(c, v)), w);
  }

  /** No event loses a ping, a pong or a disconnect, or makes one but where it is due. */
  lemma StepWay(k: Mark, s: Setup, c: Channel, ev: Event, w: Who)
    requires Ready(s, c, ev) && Enabled(s, c, ev)
    ensures Way(k, Next(s, c, ev), w) + (if Handles(k, c, ev, Other(w)) then 1 else 0)
            == Way(k, c, w) + if Makes(k, s, c, ev, w) then 1 else 0
  {
    match ev
    case RecvWorker(v) => HandleWay(k, s, c, v, w);
    case SendLoop(v, now) => LoopWay(k, s, c, v, now, w);
    case Serve(v, now) => ServeWay(k, s, c, v, now, w);
    case Halt(v, reason) => QueueWay(k, c, v, Halted(At(c, v), reason), SendDisconnect(reason), w);
    case Begin(_) => EdgeWay(k, s, c, ev, w);
    case Break(_) => EdgeWay(k, s, c, ev, w);
    case Kill(_) => EdgeWay(k, s, c, ev, w);
    case Unlist(_) => EdgeWay(k, s, c, ev, w);
    case _ => QuietWay(k, s, c, ev, w);
  }

  lemma QuietWay(k: Mark, s: Setup, c: Channel, ev: Event, w: Who)
    requires Enabled(s, c, ev) && (ev.AppSend? || ev.SendWorker? || ev.Flush? || ev.Receive? || ev.RecvLoop?)
    requires ev.Flush? ==> Aimed(s, c, ev.who)
    ensures Way(k, Next(s, c, ev), w) == Way(k, c, w)
  {
    match ev
    case AppSend(v, m) => AcceptWay(k, c, v, m, w);
    case SendWorker(v) => PackWay(k, c, v, w);
    case Flush(v) => FlushWay(k, s, c, v, w);
    case Receive(v, now) => HearWay(k, s, c, v, now, w);
    case RecvLoop(v) => TakeWay(k, c, v, w);
  }

  /** The ends of a run: nothing is queued or sent. */
  lemma EdgeWay(k: Mark, s: Setup, c: Channel, ev: Event, w: Who)
    requires Enabled(s, c, ev) && (ev.Begin? || ev.Break? || ev.Kill? || ev.Unlist?)
    ensures Way(k, Next(s, c, ev), w) == Way(k, c, w)
  {
    match ev
    case Begin(_) =>
    case Break(v) => PutWay(k, c, v, Broken(At(c, v)), w);
    case Kill(v) => PutWay(k, c, v, Killed(At(c, v)), w);
    case Unlist(v) => PutWay(k, c, v, Unlisted(At(c, v)), w);
  }

  // ---- Whole runs -------------------------------------------------------------------

  /** How many packets of one kind an end handles in a run. */
  function Handled(k: Mark, s: Setup, c: Channel, evs: seq<Event>, w: Who): nat
    requires CanRun(s, c, evs)
    decreases |evs|
  {
    if evs == [] then 0
    else (if Handles(k, c, evs[0], w) then 1 else 0) + Handled(k, s, Next(s, c, evs[0]), evs[1..], w)
  }

  /** How many it makes: a ping for a silence, a pong for a ping it handles, a disconnect
      when it is given up. */
  function Made(k: Mark, s: Setup, c: Channel, evs: seq<Event>, w: Who): nat
    requires CanRun(s, c, evs)
    decreases |evs|
  {
    if evs == [] then 0
    else (if Makes(k, s, c, evs[0], w) then 1 else 0) + Made(k, s, Next(s, c, evs[0]), evs[1..], w)
  }

  lemma {:induction false} RunWay(k: Mark, s: Setup, c: Channel, evs: seq<Event>, w: Who)
    requires Inv(s, c) && CanRun(s, c, evs)
    ensures Way(k, Run(s, c, evs), w) + Handled(k, s, c, evs, Other(w)) == Way(k, c, w) + Made(k, s, c, evs, w)
    decreases |evs|
  {
    if evs != [] {
      InvReady(s, c, evs[0]);
      StepInv(s, c, evs[0]);
      StepWay(k, s, c, evs[0], w);
      RunWay(k, s, Next(s, c, evs[0]), evs[1..], w);
    }
  }

  lemma {:induction false} PongsAreForPings(s: Setup, c: Channel, evs: seq<Event>, w: Who)
    requires CanRun(s, c, evs)
    ensures Made(PongMark, s, c, evs, w) == Handled(PingMark, s, c, evs, w)
    decreases |evs|
  {
    if evs != [] {
      PongsAreForPings(s, Next(s, c, evs[0]), evs[1..], w);
    }
  }

  /** No pong goes to the server socket: who has heard nothing answers nothing. */
  predicate Mute(s: Setup, c: Channel) {
    AtServer(PongMark, c) == 0 && (c.init.peerAddr == s.server ==> Held(PongMark, c.init) == 0)
  }

  lemma MutePut(s: Setup, c: Channel, w: Who, f: Endpoint)
    requires Mute(s, c) && Present(c, w)
    requires w.Initiator? && f.peerAddr == s.server ==>
               c.init.peerAddr == s.server && Held(PongMark, f) == Held(PongMark, c.init)
    ensures Mute(s, Put(c, w, f))
  {
  }

  lemma MuteQueue(s: Setup, c: Channel, w: Who, f: Endpoint, x: Cmd)
    requires Mute(s, c) && Present(c, w) && !x.SendPong?
    requires var e := At(c, w); f.sQ == e.sQ + [x] && f.vipbox == e.vipbox && f.peerAddr == e.peerAddr
    ensures Mute(s, Put(c, w, f))
  {
    CommandMore(PongMark, At(c, w).sQ, x);
    MutePut(s, c, w, f);
  }

  lemma MuteFlush(s: Setup, c: Channel, w: Who)
    requires s.server != s.respSeen && Mute(s, c) && Present(c, w) && Aimed(s, c, w)
    ensures Mute(s, Flushed(s, c, w))
  {
    var (f, sent) := Drained(At(c, w));
    DrainHolds(PongMark, At(c, w));
    PacketsAppend(PongMark, c.toServer, sent);
  }

  lemma MuteLoop(s: Setup, c: Channel, w: Who, now: real)
    requires s.server != s.respSeen && Mute(s, c) && Present(c, w) && Aimed(s, c, w)
    ensures Mute(s, Looped(s, c, w, now))
  {
    LoopCases(s, c, w, now);
    var e := At(c, w);
    if TimesOut(s.cfg, e, now) {
      MuteQueue(s, c, w, Halted(e, TIMEOUT_TEXT), SendDisconnect(TIMEOUT_TEXT));
    } else if PingsNow(s.cfg, e, now) {
      MuteQueue(s, c, w, e.(sQ := e.sQ + [SendPing], pinged := true), SendPing);
    } else {
      MuteFlush(s, c, w);
    }
  }

  lemma MuteServe(s: Setup, c: Channel, v: Verdict, now: real)
    requires Mute(s, c) && c.toServer != []
    ensures Mute(s, Served(s, c, v, now))
  {
    PacketMore(PongMark, c.refused, c.toServer[0]);
  }

  lemma MuteStep(s: Setup, c: Channel, ev: Event)
    requires s.server != s.respSeen && Ready(s, c, ev) && Mute(s, c) && Enabled(s, c, ev)
    requires ev == RecvWorker(Initiator) ==> c.init.peerAddr != s.server
    ensures Mute(s, Next(s, c, ev))
  {
    match ev
    case Begin(_) =>
    case AppSend(w, m) => MuteQueue(s, c, w, AfterAppSend(At(c, w), m), SendData(m));
    case SendWorker(w) =>
      PackHolds(PongMark, At(c, w));
      MutePut(s, c, w, AfterSendWorker(At(c, w)));
    case RecvWorker(w) =>
      AnsweredIs(At(c, w));
      MutePut(s, c, w, AfterRecvWorker(At(c, w)));
    case SendLoop(w, now) => MuteLoop(s, c, w, now);
    case Flush(w) => MuteFlush(s, c, w);
    case Receive(_, _) =>
    case RecvLoop(w) =>
      TakenIs(At(c, w));
      MutePut(s, c, w, AfterRecvLoop(At(c, w)));
    case Serve(v, now) => MuteServe(s, c, v, now);
    case Halt(w, reason) => MuteQueue(s, c, w, Halted(At(c, w), reason), SendDisconnect(reason));
    case Break(w) => MutePut(s, c, w, Broken(At(c, w)));
    case Kill(w) => MutePut(s, c, w, Killed(At(c, w)));
    case Unlist(w) => MutePut(s, c, w, Unlisted(At(c, w)));
  }

  lemma {:induction false} MuteRun(s: Setup, c: Channel, evs: seq<Event>)
    requires Inv(s, c) && Mute(s, c) && CanRun(s, c, evs)
    ensures Mute(s, Run(s, c, evs))
    decreases |evs|
  {
    if evs != [] {
      InvReady(s, c, evs[0]);
      StepInv(s, c, evs[0]);
      MuteStep(s, c, evs[0]);
      MuteRun(s, Next(s, c, evs[0]), evs[1..]);
    }
  }

  lemma StartWay(k: Mark, s: Setup, now: real, w: Who)
    ensures Way(k, Start(s, now), w) == 0 && Mute(s, Start(s, now))
  {
    assert Commands(k, [SendHello(HELLO_TEXT)][1..]) == 0 && Commands(PongMark, [SendHello(HELLO_TEXT)][1..]) == 0;
  }

  lemma RestWay(k: Mark, c: Channel, w: Who)
    requires AtRest(c)
    ensures Way(k, c, w) == if w.Initiator? then Packets(k, c.refused) else 0
  {
  }

  /** In a reachable connection at rest, every ping one end handled was answered by one pong
      that the other end handled; and every ping a timer sent was handled at the other end,
      except those the server socket took from an initiator that had heard nothing yet. */
  lemma PingsAreAnswered(s: Setup, now: real, evs: seq<Event>, w: Who)
    requires s.server != s.respSeen && CanRun(s, Start(s, now), evs) && AtRest(Run(s, Start(s, now), evs))
    ensures
      var c0 := Start(s, now);
      && Handled(PongMark, s, c0, evs, Other(w)) == Handled(PingMark, s, c0, evs, w)
      && Made(PingMark, s, c0, evs, w) ==
         Handled(PingMark, s, c0, evs, Other(w)) + if w.Initiator? then Packets(PingMark, Run(s, c0, evs).refused) else 0
  {
    var c0 := Start(s, now);
    StartInv(s, now);
    forall k: Mark ensures Way(k, Run(s, c0, evs), w) + Handled(k, s, c0, evs, Other(w)) == Made(k, s, c0, evs, w) {
      StartWay(k, s, now, w);
      RunWay(k, s, c0, evs, w);
    }
    RestWay(PingMark, Run(s, c0, evs), w);
    RestWay(PongMark, Run(s, c0, evs), w);
    PongsAreForPings(s, c0, evs, w);
    StartWay(PongMark, s, now, w);
    MuteRun(s, c0, evs);
  }

  // ---- What stops an end ----------------------------------------------------------

  /** How often the receive loop of an end takes a report. */
  function Takes(evs: seq<Event>, w: Who): nat {
    if evs == [] then 0 else (if evs[0] == RecvLoop(w) then 1 else 0) + Takes(evs[1..], w)
  }

  /** A report that ends the session is in line, or has done its work. */
  predicate Doomed(c: Channel, w: Who, i: nat) {
    Present(c, w) && (At(c, w).stopped || (i < |At(c, w).rQ| && At(c, w).rQ[i].Lost?))
  }

  lemma DoomedPut(c: Channel, w: Who, i: nat, v: Who, f: Endpoint)
    requires Doomed(c, w, i) && Present(c, v)
    requires (At(c, v).stopped ==> f.stopped) && At(c, v).rQ <= f.rQ
    ensures Doomed(Put(c, v, f), w, i)
  {
  }

  lemma DoomedTake(c: Channel, w: Who, i: nat, v: Who)
    requires Doomed(c, w, i) && Present(c, v) && At(c, v).rQ != []
    ensures
      var d := Put(c, v, AfterRecvLoop(At(c, v)));
      && Doomed(d, w, if v == w && i > 0 then i - 1 else i)
      && (At(c, w).stopped || (v == w && i == 0) ==> At(d, w).stopped)
  {
    TakenIs(At(c, v));
  }

  lemma DoomedFlush(s: Setup, c: Channel, w: Who, i: nat, v: Who)
    requires Doomed(c, w, i) && Present(c, v)
    ensures var d := Flushed(s, c, v); Doomed(d, w, i) && (At(c, w).stopped ==> At(d, w).stopped)
  {
    DoomedPut(c, w, i, v, Drained(At(c, v)).0);
  }

  lemma DoomedLoop(s: Setup, c: Channel, w: Who, i: nat, v: Who, now: real)
    requires Doomed(c, w, i) && Present(c, v)
    ensures var d := Looped(s, c, v, now); Doomed(d, w, i) && (At(c, w).stopped ==> At(d, w).stopped)
  {
    LoopCases(s, c, v, now);
    DoomedFlush(s, c, w, i, v);
    DoomedPut(c, w, i, v, AfterSendLoop(s.cfg, At(c, v), now).0);
  }

  lemma DoomedHandle(c: Channel, w: Who, i: nat, v: Who)
    requires Doomed(c, w, i) && Present(c, v) && At(c, v).inbox != []
    ensures var d := Put(c, v, AfterRecvWorker(At(c, v))); Doomed(d, w, i) && (At(c, w).stopped ==> At(d, w).stopped)
  {
    AnsweredIs(At(c, v));
    ReportedIs(At(c, v));
    DoomedPut(c, w, i, v, AfterRecvWorker(At(c, v)));
  }

  lemma DoomedStep(s: Setup, c: Channel, w: Who, i: nat, ev: Event)
    requires Doomed(c, w, i) && Enabled(s, c, ev)
    ensures
      var d := Next(s, c, ev);
      && Doomed(d, w, if ev == RecvLoop(w) && i > 0 then i - 1 else i)
      && (At(c, w).stopped || (ev == RecvLoop(w) && i == 0) ==> At(d, w).stopped)
  {
    match ev
    case SendWorker(v) =>
      PackedIs(At(c, v));
      DoomedPut(c, w, i, v, AfterSendWorker(At(c, v)));
    case RecvWorker(v) => DoomedHandle(c, w, i, v);
    case SendLoop(v, now) => DoomedLoop(s, c, w, i, v, now);
    case Flush(v) => DoomedFlush(s, c, w, i, v);
    case RecvLoop(v) => DoomedTake(c, w, i, v);
    case _ =>
  }

  /** Once the receive loop has come to a report that ends the session, the end is stopped
      and stays so. */
  lemma {:induction false} LossStops(s: Setup, c: Channel, evs: seq<Event>, w: Who, i: nat)
    requires CanRun(s, c, evs) && Doomed(c, w, i)
    requires Takes(evs, w) > i || At(c, w).stopped
    ensures Present(Run(s, c, evs), w) && At(Run(s, c, evs), w).stopped
    decreases |evs|
  {
    if evs != [] {
      DoomedStep(s, c, w, i, evs[0]);
      LossStops(s, Next(s, c, evs[0]), evs[1..], w, if evs[0] == RecvLoop(w) && i > 0 then i - 1 else i);
    }
  }

  /** The packets that end a session: a disconnect, a greeting too many, anything but a
      greeting or a pong before the greeting, and what has no known code. */
  predicate Ends(latched: bool, b: Body) {
    match b
    case Disconnect(_) => true
    case Unknown(_) => true
    case Hello(_) => latched
    case Confirm(_) => latched
    case Ping => !latched
    case Data(_) => !latched
    case Pong => false
  }

  /** Handling such a packet stops the end as soon as its receive loop has taken the reports
      queued by then; nothing is sent for it. */
  lemma RefusalStops(s: Setup, c: Channel, evs: seq<Event>, w: Who)
    requires Enabled(s, c, RecvWorker(w)) && CanRun(s, Next(s, c, RecvWorker(w)), evs)
    requires Ends(At(c, w).latched, At(c, w).inbox[0].body) && Takes(evs, w) > |At(c, w).rQ|
    ensures
      var c1 := Next(s, c, RecvWorker(w));
      At(c1, w).sQ == At(c, w).sQ && Present(Run(s, c1, evs), w) && At(Run(s, c1, evs), w).stopped
  {
    var e := At(c, w);
    AnsweredIs(e);
    ReportedIs(e);
    assert e.sQ + [] == e.sQ;
    assert AfterRecvWorker(e).rQ[|e.rQ|].Lost?;
    LossStops(s, Next(s, c, RecvWorker(w)), evs, w, |e.rQ|);
  }

  lemma {:induction false} DoomedRun(s: Setup, c: Channel, evs: seq<Event>, w: Who, i: nat) returns (j: nat)
    requires CanRun(s, c, evs) && Doomed(c, w, i)
    ensures Doomed(Run(s, c, evs), w, j)
    decreases |evs|
  {
    if evs == [] {
      j := i;
    } else {
      DoomedStep(s, c, w, i, evs[0]);
      j := DoomedRun(s, Next(s, c, evs[0]), evs[1..], w, if evs[0] == RecvLoop(w) && i > 0 then i - 1 else i);
    }
  }

  lemma ByeDooms(s: Setup, c: Channel, w: Who)
    requires Enabled(s, c, RecvWorker(w)) && Handles(ByeMark, c, RecvWorker(w), w)
    ensures Doomed(Next(s, c, RecvWorker(w)), w, |At(c, w).rQ|)
  {
    var e := At(c, w);
    ReportedIs(e);
    assert AfterRecvWorker(e).rQ[|e.rQ|].Lost?;
  }

  /** An end that has handled a disconnect is stopped or is going to be. */
  lemma {:induction false} HandledDooms(s: Setup, c: Channel, evs: seq<Event>, w: Who) returns (i: nat)
    requires CanRun(s, c, evs) && Handled(ByeMark, s, c, evs, w) > 0
    ensures Doomed(Run(s, c, evs), w, i)
    decreases |evs|
  {
    if Handles(ByeMark, c, evs[0], w) {
      ByeDooms(s, c, w);
      i := DoomedRun(s, Next(s, c, evs[0]), evs[1..], w, |At(c, w).rQ|);
    } else {
      i := HandledDooms(s, Next(s, c, evs[0]), evs[1..], w);
    }
  }

  /** Whoever gives the other end up is stopped, and takes the other end along: in a reachable
      connection at rest the disconnect has arrived and done its work, unless the server
      socket took it. */
  lemma FarewellStopsBoth(s: Setup, now: real, evs: seq<Event>, w: Who)
    requires s.server != s.respSeen && CanRun(s, Start(s, now), evs) && AtRest(Run(s, Start(s, now), evs))
    requires Made(ByeMark, s, Start(s, now), evs, w) > 0
    ensures
      var c := Run(s, Start(s, now), evs);
      && Present(c, w) && At(c, w).stopped
      && ((Present(c, Other(w)) && At(c, Other(w)).stopped) || (w.Initiator? && Packets(ByeMark, c.refused) > 0))
  {
    var c0 := Start(s, now);
    StartInv(s, now);
    StartWay(ByeMark, s, now, w);
    RunWay(ByeMark, s, c0, evs, w);
    RestWay(ByeMark, Run(s, c0, evs), w);
    MadeStops(s, c0, evs, w);
    if Handled(ByeMark, s, c0, evs, Other(w)) > 0 {
      var _ := HandledDooms(s, c0, evs, Other(w));
    }
  }

  lemma LeavesStops(s: Setup, c: Channel, ev: Event, w: Who)
    requires Enabled(s, c, ev) && Leaves(s, c, ev, w)
    ensures Present(Next(s, c, ev), w) && At(Next(s, c, ev), w).stopped
  {
    match ev
    case SendLoop(v, now) => LoopCases(s, c, v, now);
    case _ =>
  }

  lemma {:induction false} MadeStops(s: Setup, c: Channel, evs: seq<Event>, w: Who)
    requires CanRun(s, c, evs) && Made(ByeMark, s, c, evs, w) > 0
    ensures Present(Run(s, c, evs), w) && At(Run(s, c, evs), w).stopped
    decreases |evs|
  {
    var d := Next(s, c, evs[0]);
    if Leaves(s, c, evs[0], w) {
      LeavesStops(s, c, evs[0], w);
      LossStops(s, d, evs[1..], w, 0);
    } else {
      MadeStops(s, d, evs[1..], w);
    }
  }

  /** A ping at a latched end is answered, not reported. */
  lemma PingGetsPong(s: Setup, c: Channel, w: Who)
    requires Enabled(s, c, RecvWorker(w)) && At(c, w).latched && At(c, w).inbox[0].body.Ping?
    ensures
      var e, f := At(c, w), At(Next(s, c, RecvWorker(w)), w);
      f.sQ == e.sQ + [SendPong] && f.rQ == e.rQ + [Checked] && f.inbox == e.inbox[1..] && f.latched
  {
    AnsweredIs(At(c, w));
    ReportedIs(At(c, w));
  }
}
