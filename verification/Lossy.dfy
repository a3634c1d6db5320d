/** The same two endpoints over what UDP really promises: a datagram that was sent may
    arrive never, once or often, and in any order. What survives is authenticity. */
module Lossy {
  import opened Wire
  import opened Endpoints
  import opened Channels

  datatype Pair = Pair(
    init: Endpoint, resp: Endpoint,
    sentInit: set<Packet>, sentResp: set<Packet>,              // ever emitted
    fromInit: seq<Delivery>, fromResp: seq<Delivery>)          // ever accepted by send_packet

  datatype Act =
    | Ask(who: Who, msg: Message)
    | Pack(who: Who)
    | Handle(who: Who)
    | Loop(who: Who, now: real)
    | Drain(who: Who)
    | Hear(who: Who, p: Packet, source: Addr, now: real)
    | Take(who: Who)
    | Quit(who: Who, reason: string)
    | Break(who: Who)
    | Kill(who: Who)
    | Drop(who: Who)

  function Opened(init: NodeInfo, resp: NodeInfo, server: Addr, now: real): Pair {
    Pair(Fresh(init, server, [SendHello(HELLO_TEXT)], now), Fresh(resp, init.addr, [SendConfirm(CONFIRM_TEXT)], now), {}, {}, [], [])
  }

  function End(c: Pair, w: Who): Endpoint {
    if w.Initiator? then c.init else c.resp
  }

  function Sent(c: Pair, w: Who): set<Packet> {
    if w.Initiator? then c.sentInit else c.sentResp
  }

  function From(c: Pair, w: Who): seq<Delivery> {
    if w.Initiator? then c.fromInit else c.fromResp
  }

  function Other(w: Who): Who {
    if w.Initiator? then Responder else Initiator
  }

  function With(c: Pair, w: Who, e: Endpoint): Pair {
    if w.Initiator? then c.(init := e) else c.(resp := e)
  }

  function Emitted(c: Pair, w: Who, ps: seq<Packet>): Pair {
    var s := set p | p in ps;
    if w.Initiator? then c.(sentInit := c.sentInit + s) else c.(sentResp := c.sentResp + s)
  }

  function Logged(c: Pair, w: Who, d: Delivery): Pair {
    if w.Initiator? then c.(fromInit := c.fromInit + [d]) else c.(fromResp := c.fromResp + [d])
  }

  predicate Can(c: Pair, a: Act) {
    match a
    case Ask(w, _) => End(c, w).listed
    case Pack(w) => End(c, w).sQ != []
    case Handle(w) => End(c, w).inbox != [] && End(c, w).listed
    case Loop(w, _) => !End(c, w).stopped
    case Drain(w) => true
    case Hear(w, p, _, _) => p in Sent(c, Other(w))
    case Take(w) => End(c, w).rQ != [] && End(c, w).receiving
    case Quit(w, _) => End(c, w).listed
    case Break(w) => End(c, w).listed
    case Kill(w) => End(c, w).stopped
    case Drop(w) => End(c, w).stopped && !End(c, w).receiving
  }

  function Does(cfg: Config, c: Pair, a: Act): Pair
    requires Can(c, a)
  {
    match a
    case Ask(w, m) => Logged(With(c, w, AfterAppSend(End(c, w), m)), w, Delivery(End(c, w).me.id, m))
    case Pack(w) => With(c, w, AfterSendWorker(End(c, w)))
    case Handle(w) => With(c, w, AfterRecvWorker(End(c, w)))
    case Loop(w, now) =>
      var (e, sent) := AfterSendLoop(cfg, End(c, w), now);
      Emitted(With(c, w, e), w, sent)
    case Drain(w) =>
      var (e, sent) := Drained(End(c, w));
      Emitted(With(c, w, e), w, sent)
    case Hear(w, p, source, now) => With(c, w, AfterReceive(End(c, w), p, source, now))
    case Take(w) => With(c, w, AfterRecvLoop(End(c, w)))
    case Quit(w, reason) => With(c, w, Halted(End(c, w), reason))
    case Break(w) => With(c, w, Broken(End(c, w)))
    case Kill(w) => With(c, w, Killed(End(c, w)))
    case Drop(w) => With(c, w, Unlisted(End(c, w)))
  }

  predicate Plays(cfg: Config, c: Pair, acts: seq<Act>)
    decreases |acts|
  {
    acts == [] || (Can(c, acts[0]) && Plays(cfg, Does(cfg, c, acts[0]), acts[1..]))
  }

  function Played(cfg: Config, c: Pair, acts: seq<Act>): Pair
    requires Plays(cfg, c, acts)
    decreases |acts|
  {
    if acts == [] then c else Played(cfg, Does(cfg, c, acts[0]), acts[1..])
  }

  // ---- Authenticity ---------------------------------------------------------------

  predicate Among(ds: seq<Delivery>, all: seq<Delivery>) {
    forall d | d in ds :: d in all
  }

  /** Everything at an end that counts as data of the other end was accepted there. */
  predicate Honest(c: Pair, w: Who) {
    && Boxed(End(c, w))
    && Among(Upstream(End(c, w)), From(c, w))
    && (forall p | p in Sent(c, w) :: Among(DataPackets([p]), From(c, w)))
    && Among(Downstream(End(c, Other(w))), From(c, w))
  }

  /** Nothing counts as delivered data before the latch. */
  predicate Guarded(e: Endpoint) {
    e.taken + DataReports(e.rQ) != [] ==> e.latched
  }

  predicate Sound(c: Pair) {
    Honest(c, Initiator) && Honest(c, Responder) && Guarded(c.init) && Guarded(c.resp)
  }

  lemma {:induction false} AmongPackets(ps: seq<Packet>, all: seq<Delivery>)
    requires Among(DataPackets(ps), all)
    ensures forall p | p in ps :: Among(DataPackets([p]), all)
  {
    if ps != [] {
      AmongPackets(ps[1..], all);
      assert ps == [ps[0]] + ps[1..];
      DataPacketsAppend([ps[0]], ps[1..]);
    }
  }

  /** An end that neither invents outgoing nor incoming data may be put back. */
  lemma WithSound(c: Pair, w: Who, f: Endpoint)
    requires Sound(c) && Boxed(f) && Guarded(f)
    requires Among(Upstream(f), From(c, w)) && Among(Downstream(f), From(c, Other(w)))
    ensures Sound(With(c, w, f))
  {
  }

  lemma EmitSound(c: Pair, w: Who, ps: seq<Packet>)
    requires Sound(c) && Among(DataPackets(ps), From(c, w))
    ensures Sound(Emitted(c, w, ps))
  {
    AmongPackets(ps, From(c, w));
  }

  /** A packet an end refuses: its data, if any, goes no further. */
  lemma RefuseKeeps(e: Endpoint)
    requires e.inbox != [] && e.inbox[0].body.Data? && !e.latched
    ensures
      var f := AfterRecvWorker(e);
      && Upstream(f) == Upstream(e) && (forall d | d in Downstream(f) :: d in Downstream(e))
      && DataReports(f.rQ) == DataReports(e.rQ)
  {
    var r := React(e.latched, e.inbox[0]);
    var f := AfterRecvWorker(e);
    assert r.cmds == [] && DataReports(r.reports) == [];
    assert f.sQ == e.sQ && f.outbox == e.outbox && f.taken == e.taken;
    DataReportsAppend(e.rQ, r.reports);
    assert DataPackets(e.inbox) == DataPackets([e.inbox[0]]) + DataPackets(f.inbox);
  }

  lemma HandleGuarded(e: Endpoint)
    requires e.inbox != [] && Guarded(e) && Boxed(e)
    ensures
      var f := AfterRecvWorker(e);
      Boxed(f) && Guarded(f) && Upstream(f) == Upstream(e) && (forall d | d in Downstream(f) :: d in Downstream(e))
  {
    var r := React(e.latched, e.inbox[0]);
    if e.inbox[0].body.Data? && !e.latched {
      RefuseKeeps(e);
    } else {
      ReactKeepsData(e.latched, e.inbox[0], e.me.id);
      DataReportsAppend(e.rQ, r.reports);
      RecvWorkerKeepsData(e);
    }
  }

  lemma TakeGuarded(e: Endpoint)
    requires e.rQ != [] && Guarded(e) && Boxed(e)
    ensures Guarded(AfterRecvLoop(e)) && Boxed(AfterRecvLoop(e)) && Upstream(AfterRecvLoop(e)) == Upstream(e)
            && Downstream(AfterRecvLoop(e)) == Downstream(e)
  {
    RecvLoopKeepsData(e);
    match e.rQ[0]
    case Checked =>
    case Lost(_, _) =>
    case Arrived(_) =>
  }

  lemma PackGuarded(e: Endpoint)
    requires e.sQ != [] && Guarded(e)
    ensures Guarded(AfterSendWorker(e))
  {
    var f := AfterSendWorker(e);
    assert f.taken == e.taken && f.rQ == e.rQ && (e.latched ==> f.latched) by {
      match Encode(e.sQ[0], e.me)
      case None =>
      case Some(p) =>
    }
  }

  lemma LoopGuarded(cfg: Config, e: Endpoint, now: real)
    requires Guarded(e)
    ensures Guarded(AfterSendLoop(cfg, e, now).0)
  {
    var f := AfterSendLoop(cfg, e, now).0;
    assert f.taken == e.taken && f.rQ == e.rQ && f.latched == e.latched by {
      if TimesOut(cfg, e, now) {
        assert f == Halted(e, TIMEOUT_TEXT);
      } else if PingsNow(cfg, e, now) {
        assert f == e.(pinged := true, sQ := e.sQ + [SendPing]);
      }
    }
  }

  lemma EmptySound(c: Pair, w: Who, d: Delivery)
    requires Sound(c)
    ensures Sound(Logged(c, w, d))
  {
  }

  lemma AskSound(c: Pair, w: Who, m: Message)
    requires Sound(c)
    ensures Sound(Logged(With(c, w, AfterAppSend(End(c, w), m)), w, Delivery(End(c, w).me.id, m)))
  {
    var d := Delivery(End(c, w).me.id, m);
    EmptySound(c, w, d);
    AppSendAddsData(End(c, w), m);
    WithSound(Logged(c, w, d), w, AfterAppSend(End(c, w), m));
  }

  lemma DrainSound(c: Pair, w: Who)
    requires Sound(c)
    ensures var (e, sent) := Drained(End(c, w)); Sound(Emitted(With(c, w, e), w, sent))
  {
    var (e, sent) := Drained(End(c, w));
    DrainKeepsBoxed(End(c, w));
    DrainMovesData(End(c, w));
    WithSound(c, w, e);
    EmitSound(With(c, w, e), w, sent);
  }

  lemma LoopSound(cfg: Config, c: Pair, w: Who, now: real)
    requires Sound(c)
    ensures var (e, sent) := AfterSendLoop(cfg, End(c, w), now); Sound(Emitted(With(c, w, e), w, sent))
  {
    var (e, sent) := AfterSendLoop(cfg, End(c, w), now);
    SendLoopMovesData(cfg, End(c, w), now);
    LoopGuarded(cfg, End(c, w), now);
    WithSound(c, w, e);
    EmitSound(With(c, w, e), w, sent);
  }

  lemma HearSound(c: Pair, w: Who, p: Packet, source: Addr, now: real)
    requires Sound(c) && p in Sent(c, Other(w))
    ensures Sound(With(c, w, AfterReceive(End(c, w), p, source, now)))
  {
    ReceiveAddsData(End(c, w), p, source, now);
    WithSound(c, w, AfterReceive(End(c, w), p, source, now));
  }

  lemma PackSound(c: Pair, w: Who)
    requires Sound(c) && End(c, w).sQ != []
    ensures Sound(With(c, w, AfterSendWorker(End(c, w))))
  {
    SendWorkerKeepsBoxed(End(c, w));
    SendWorkerKeepsData(End(c, w));
    PackGuarded(End(c, w));
    WithSound(c, w, AfterSendWorker(End(c, w)));
  }

  lemma HandleSound(c: Pair, w: Who)
    requires Sound(c) && End(c, w).inbox != []
    ensures Sound(With(c, w, AfterRecvWorker(End(c, w))))
  {
    HandleGuarded(End(c, w));
    WithSound(c, w, AfterRecvWorker(End(c, w)));
  }

  lemma TakeSound(c: Pair, w: Who)
    requires Sound(c) && End(c, w).rQ != []
    ensures Sound(With(c, w, AfterRecvLoop(End(c, w))))
  {
    TakeGuarded(End(c, w));
    WithSound(c, w, AfterRecvLoop(End(c, w)));
  }

  lemma QuitSound(c: Pair, w: Who, reason: string)
    requires Sound(c)
    ensures Sound(With(c, w, Halted(End(c, w), reason)))
  {
    HaltKeepsData(End(c, w), reason);
    WithSound(c, w, Halted(End(c, w), reason));
  }

  lemma StepSound(cfg: Config, c: Pair, a: Act)
    requires Sound(c) && Can(c, a)
    ensures Sound(Does(cfg, c, a))
  {
    match a
    case Ask(w, m) => AskSound(c, w, m);
    case Pack(w) => PackSound(c, w);
    case Handle(w) => HandleSound(c, w);
    case Loop(w, now) => LoopSound(cfg, c, w, now);
    case Drain(w) => DrainSound(c, w);
    case Hear(w, p, source, now) => HearSound(c, w, p, source, now);
    case Take(w) => TakeSound(c, w);
    case Quit(w, reason) => QuitSound(c, w, reason);
    case Break(w) => WithSound(c, w, Broken(End(c, w)));
    case Kill(w) => WithSound(c, w, Killed(End(c, w)));
    case Drop(w) => WithSound(c, w, Unlisted(End(c, w)));
  }

  lemma {:induction false} PlaySound(cfg: Config, c: Pair, acts: seq<Act>)
    requires Sound(c) && Plays(cfg, c, acts)
    ensures Sound(Played(cfg, c, acts))
    decreases |acts|
  {
    if acts != [] {
      StepSound(cfg, c, acts[0]);
      PlaySound(cfg, Does(cfg, c, acts[0]), acts[1..]);
    }
  }

  lemma OpenedSound(init: NodeInfo, resp: NodeInfo, server: Addr, now: real)
    ensures Sound(Opened(init, resp, server, now))
  {
    assert DataCmds([SendHello(HELLO_TEXT)], init.id) == [];
    assert DataCmds([SendConfirm(CONFIRM_TEXT)], resp.id) == [];
  }

  /** Whatever the network loses, repeats or reorders, an end only ever takes messages
      that the other end accepted, under the other end's ID, and only once it is latched. */
  lemma Authentic(cfg: Config, init: NodeInfo, resp: NodeInfo, server: Addr, now: real, acts: seq<Act>)
    requires Plays(cfg, Opened(init, resp, server, now), acts)
    ensures
      var c := Played(cfg, Opened(init, resp, server, now), acts);
      && (forall d | d in c.init.taken :: d in c.fromResp)
      && (forall d | d in c.resp.taken :: d in c.fromInit)
      && (c.init.taken != [] ==> c.init.latched)
      && (c.resp.taken != [] ==> c.resp.latched)
  {
    OpenedSound(init, resp, server, now);
    PlaySound(cfg, Opened(init, resp, server, now), acts);
    var c := Played(cfg, Opened(init, resp, server, now), acts);
    assert Among(Downstream(c.init), c.fromResp) && Among(Downstream(c.resp), c.fromInit);
    assert c.init.taken <= Downstream(c.init) && c.resp.taken <= Downstream(c.resp);
  }

  // ---- After the stop ---------------------------------------------------------------

  /** What one act may do to a receive loop that has ended, and to one whose peer has been
      stopped: it never begins again, and it takes the one item it finds at most. */
  lemma LoopStep(cfg: Config, c: Pair, w: Who, a: Act)
    requires Can(c, a)
    ensures
      var e, f := End(c, w), End(Does(cfg, c, a), w);
      && (f.receiving ==> e.receiving) && (e.stopped ==> f.stopped)
      && (!e.receiving ==> f.taken == e.taken)
      && (e.stopped && a != Take(w) ==> f.taken == e.taken && e.rQ <= f.rQ)
      && (e.stopped && a == Take(w) ==>
            && !f.receiving
            && f.taken == e.taken + if e.rQ[0].Arrived? then [e.rQ[0].item] else [])
  {
    match a
    case Pack(v) => PackKeepsLoop(End(c, v));
    case Take(v) =>
      if v == w {
        TakeStopped(End(c, w));
      }
    case _ =>
  }

  lemma PackKeepsLoop(e: Endpoint)
    requires e.sQ != []
    ensures var f := AfterSendWorker(e);
            f.stopped == e.stopped && f.receiving == e.receiving && f.taken == e.taken && f.rQ == e.rQ && f.listed == e.listed
  {
    match Encode(e.sQ[0], e.me)
    case None =>
    case Some(p) =>
  }

  lemma TakeStopped(e: Endpoint)
    requires e.rQ != []
    ensures
      var f := AfterRecvLoop(e);
      && (e.stopped ==> f.stopped && !f.receiving) && (f.receiving ==> e.receiving) && f.listed == e.listed
      && f.taken == e.taken + if e.rQ[0].Arrived? then [e.rQ[0].item] else []
  {
    match e.rQ[0]
    case Checked =>
    case Lost(_, _) =>
    case Arrived(_) =>
  }

  /** A receive loop that has ended, on its own or killed, takes nothing more. */
  lemma {:induction false} EndedIsSilent(cfg: Config, c: Pair, w: Who, acts: seq<Act>)
    requires Plays(cfg, c, acts) && !End(c, w).receiving
    ensures var d := Played(cfg, c, acts); !End(d, w).receiving && End(d, w).taken == End(c, w).taken
    decreases |acts|
  {
    if acts != [] {
      LoopStep(cfg, c, w, acts[0]);
      EndedIsSilent(cfg, Does(cfg, c, acts[0]), w, acts[1..]);
    }
  }

  /** The order of the steps of `stop`: flag, loops, list. */
  predicate InOrder(e: Endpoint) {
    !e.listed ==> e.stopped && !e.receiving
  }

  lemma OrderStep(cfg: Config, c: Pair, w: Who, a: Act)
    requires Can(c, a) && InOrder(End(c, w))
    ensures InOrder(End(Does(cfg, c, a), w))
    ensures !End(c, w).listed ==> !End(Does(cfg, c, a), w).listed
  {
    match a
    case Pack(v) => PackKeepsLoop(End(c, v));
    case Take(v) => TakeStopped(End(c, v));
    case _ =>
  }

  lemma {:induction false} PlayInOrder(cfg: Config, c: Pair, w: Who, acts: seq<Act>)
    requires Plays(cfg, c, acts) && InOrder(End(c, w))
    ensures InOrder(End(Played(cfg, c, acts), w))
    ensures !End(c, w).listed ==> !End(Played(cfg, c, acts), w).listed
    decreases |acts|
  {
    if acts != [] {
      OrderStep(cfg, c, w, acts[0]);
      PlayInOrder(cfg, Does(cfg, c, acts[0]), w, acts[1..]);
    }
  }

  /** A peer that has left the list in some run never comes back and takes nothing more:
      its receive loop was killed before. */
  lemma GoneIsSilent(cfg: Config, init: NodeInfo, resp: NodeInfo, server: Addr, now: real, acts: seq<Act>, w: Who, more: seq<Act>)
    requires Plays(cfg, Opened(init, resp, server, now), acts)
    requires var c := Played(cfg, Opened(init, resp, server, now), acts); !End(c, w).listed && Plays(cfg, c, more)
    ensures
      var c := Played(cfg, Opened(init, resp, server, now), acts);
      var d := Played(cfg, c, more);
      !End(d, w).listed && End(d, w).taken == End(c, w).taken
  {
    var c := Played(cfg, Opened(init, resp, server, now), acts);
    PlayInOrder(cfg, Opened(init, resp, server, now), w, acts);
    PlayInOrder(cfg, c, w, more);
    EndedIsSilent(cfg, c, w, more);
  }

  /** And a stopped peer can leave the list. */
  lemma StoppedCanGo(cfg: Config, c: Pair, w: Who)
    requires End(c, w).stopped
    ensures
      && Plays(cfg, c, [Act.Kill(w), Drop(w)])
      && End(Played(cfg, c, [Act.Kill(w), Drop(w)]), w) == End(c, w).(receiving := false, listed := false)
  {
    PlayTwo(cfg, c, Act.Kill(w), Drop(w));
  }

  /** Once its flag is set a peer takes at most one item more. */
  lemma {:induction false} StoppedTakesOneMore(cfg: Config, c: Pair, w: Who, acts: seq<Act>)
    requires Plays(cfg, c, acts) && End(c, w).stopped
    ensures
      var before, after := End(c, w), End(Played(cfg, c, acts), w);
      && after.stopped && before.taken <= after.taken
      && |after.taken| <= |before.taken| + if before.receiving then 1 else 0
    decreases |acts|
  {
    if acts != [] {
      LoopStep(cfg, c, w, acts[0]);
      StoppedTakesOneMore(cfg, Does(cfg, c, acts[0]), w, acts[1..]);
    }
  }

  /** The next report of an end, if it has one or has a datagram it will make one of. */
  predicate Foreseen(e: Endpoint) {
    e.rQ != [] || (e.latched && e.inbox != [])
  }

  /** That report will reach the receive loop and is data. A datagram becomes one only while
      the receive workers live. */
  predicate DataNext(e: Endpoint)
    requires Foreseen(e)
  {
    if e.rQ != [] then e.rQ[0].Arrived? else e.listed && e.inbox[0].body.Data?
  }

  /** The receive loop of a stopped peer has ended or will find no data. */
  predicate NoMore(e: Endpoint) {
    e.stopped && (e.receiving ==> Foreseen(e) && !DataNext(e))
  }

  /** A latched end makes exactly one report of a datagram. */
  lemma LatchedReports(e: Endpoint)
    requires e.latched && e.inbox != []
    ensures
      var r := React(true, e.inbox[0]);
      r.latched && |r.reports| == 1 && (r.reports[0].Arrived? <==> e.inbox[0].body.Data?)
  {
    match e.inbox[0].body
    case Hello(_) =>
    case Confirm(_) =>
    case Disconnect(_) =>
    case Ping =>
    case Pong =>
    case Data(_) =>
    case Unknown(_) =>
  }

  /** An act of anyone on what comes next at an end. */
  lemma NextStep(cfg: Config, c: Pair, w: Who, a: Act)
    requires Can(c, a)
    ensures
      var e, f := End(c, w), End(Does(cfg, c, a), w);
      && (e.latched ==> f.latched) && (f.listed ==> e.listed)
      && (a != Handle(w) ==> e.inbox <= f.inbox)
      && (a == Handle(w) ==> e.listed && f == AfterRecvWorker(e))
  {
    match a
    case Pack(v) => PackKeepsInbox(End(c, v));
    case Handle(v) =>
      assert v != w ==> End(Does(cfg, c, a), w) == End(c, w);
    case Take(v) => TakeKeepsInbox(End(c, v));
    case Loop(v, now) => LoopKeepsInbox(cfg, End(c, v), now);
    case _ =>
  }

  lemma LoopKeepsInbox(cfg: Config, e: Endpoint, now: real)
    ensures var f := AfterSendLoop(cfg, e, now).0; f.latched == e.latched && f.inbox == e.inbox && f.listed == e.listed
  {
    if TimesOut(cfg, e, now) {
    } else if PingsNow(cfg, e, now) {
    } else {
      assert AfterSendLoop(cfg, e, now) == Drained(e);
    }
  }

  lemma PackKeepsInbox(e: Endpoint)
    requires e.sQ != []
    ensures var f := AfterSendWorker(e); (e.latched ==> f.latched) && f.inbox == e.inbox && f.listed == e.listed
  {
    match Encode(e.sQ[0], e.me)
    case None =>
    case Some(p) =>
  }

  lemma TakeKeepsInbox(e: Endpoint)
    requires e.rQ != []
    ensures var f := AfterRecvLoop(e); f.latched == e.latched && f.inbox == e.inbox && f.listed == e.listed
  {
    match e.rQ[0]
    case Checked =>
    case Lost(_, _) =>
    case Arrived(_) =>
  }

  lemma NoMoreStep(cfg: Config, c: Pair, w: Who, a: Act)
    requires Can(c, a) && NoMore(End(c, w))
    ensures NoMore(End(Does(cfg, c, a), w)) && End(Does(cfg, c, a), w).taken == End(c, w).taken
  {
    LoopStep(cfg, c, w, a);
    NextStep(cfg, c, w, a);
    var e := End(c, w);
    if a == Handle(w) && e.latched {
      LatchedReports(e);
    }
  }

  lemma {:induction false} NoMoreIsSilent(cfg: Config, c: Pair, w: Who, acts: seq<Act>)
    requires Plays(cfg, c, acts) && NoMore(End(c, w))
    ensures End(Played(cfg, c, acts), w).taken == End(c, w).taken
    decreases |acts|
  {
    if acts != [] {
      NoMoreStep(cfg, c, w, acts[0]);
      NoMoreIsSilent(cfg, Does(cfg, c, acts[0]), w, acts[1..]);
    }
  }

  predicate TakesMore(cfg: Config, c: Pair, w: Who, acts: seq<Act>) {
    Plays(cfg, c, acts) && End(Played(cfg, c, acts), w).taken != End(c, w).taken
  }

  lemma TakeNow(cfg: Config, c: Pair, w: Who)
    requires End(c, w).stopped && End(c, w).receiving && End(c, w).rQ != [] && End(c, w).rQ[0].Arrived?
    ensures TakesMore(cfg, c, w, [Take(w)])
  {
    var none: seq<Act> := [];
    PlayOne(cfg, c, Take(w), none);
    LoopStep(cfg, c, w, Take(w));
    assert [Take(w)] + none == [Take(w)];
  }

  lemma HandleThenTake(cfg: Config, c: Pair, w: Who)
    requires End(c, w).stopped && End(c, w).receiving && End(c, w).rQ == []
    requires End(c, w).latched && End(c, w).inbox != [] && DataNext(End(c, w))
    ensures TakesMore(cfg, c, w, [Handle(w), Take(w)])
  {
    LatchedReports(End(c, w));
    var d := Does(cfg, c, Handle(w));
    NextStep(cfg, c, w, Handle(w));
    LoopStep(cfg, c, w, Handle(w));
    TakeNow(cfg, d, w);
    PlayOne(cfg, c, Handle(w), [Take(w)]);
    assert [Handle(w), Take(w)] == [Handle(w)] + [Take(w)];
  }

  /** When an item does come after the flag: exactly when the loop has not been killed yet and
      the next report is data, be it waiting or still a datagram that the workers will handle
      before they are killed. */
  lemma StoppedTakesIff(cfg: Config, c: Pair, w: Who)
    requires End(c, w).stopped && Foreseen(End(c, w))
    ensures (exists acts :: TakesMore(cfg, c, w, acts)) <==> End(c, w).receiving && DataNext(End(c, w))
  {
    if End(c, w).receiving && DataNext(End(c, w)) {
      if End(c, w).rQ != [] {
        TakeNow(cfg, c, w);
      } else {
        HandleThenTake(cfg, c, w);
      }
    } else {
      forall acts | Plays(cfg, c, acts) ensures End(Played(cfg, c, acts), w).taken == End(c, w).taken {
        NoMoreIsSilent(cfg, c, w, acts);
      }
    }
  }

  // ---- Particular runs --------------------------------------------------------------

  lemma PlayOne(cfg: Config, c: Pair, a: Act, rest: seq<Act>)
    requires Can(c, a) && Plays(cfg, Does(cfg, c, a), rest)
    ensures Plays(cfg, c, [a] + rest) && Played(cfg, c, [a] + rest) == Played(cfg, Does(cfg, c, a), rest)
  {
    assert ([a] + rest)[1..] == rest;
  }

  lemma {:induction false} PlayBoth(cfg: Config, c: Pair, a: seq<Act>, b: seq<Act>)
    requires Plays(cfg, c, a) && Plays(cfg, Played(cfg, c, a), b)
    ensures Plays(cfg, c, a + b) && Played(cfg, c, a + b) == Played(cfg, Played(cfg, c, a), b)
    decreases |a|
  {
    if a == [] {
      assert a + b == b;
    } else {
      PlayBoth(cfg, Does(cfg, c, a[0]), a[1..], b);
      assert (a + b)[1..] == a[1..] + b;
    }
  }

  /** The responder packs its next command and sends what it has. */
  function Says(): seq<Act> {
    [Pack(Responder), Drain(Responder)]
  }

  /** The initiator hears a datagram and handles it. */
  function Hears(p: Packet, source: Addr, now: real): seq<Act> {
    [Hear(Initiator, p, source, now), Handle(Initiator)]
  }

  function Confirmed(resp: NodeInfo): Packet {
    Packet(resp, Confirm(CONFIRM_TEXT))
  }

  lemma Said(e: Endpoint, q: Cmd, p: Packet)
    requires e.sQ == [q] && e.vipbox == [] && e.outbox == [] && Encode(q, e.me) == Some(p)
    ensures Drained(AfterSendWorker(e)) == (e.(sQ := [], latched := e.latched || q.SendConfirm?), [p])
  {
    var f := AfterSendWorker(e);
    assert f.sQ == [] && [p][1..] == e.vipbox;
    if q.SendData? {
      assert f.outbox == [p] && f.vipbox == [];
      assert [] + [p] == [p];
    } else {
      assert f.vipbox == [p] && f.outbox == [];
      assert [p] + [] == [p];
    }
  }

  lemma DrainIs(cfg: Config, c: Pair, e: Endpoint, p: Packet)
    requires Drained(c.resp) == (e, [p])
    ensures Does(cfg, c, Drain(Responder)) == c.(resp := e, sentResp := c.sentResp + {p})
  {
    assert (set x | x in [p]) == {p};
  }

  lemma PlayTwo(cfg: Config, c: Pair, a: Act, b: Act)
    requires Can(c, a) && Can(Does(cfg, c, a), b)
    ensures Plays(cfg, c, [a, b]) && Played(cfg, c, [a, b]) == Does(cfg, Does(cfg, c, a), b)
  {
    var none: seq<Act> := [];
    PlayOne(cfg, Does(cfg, c, a), b, none);
    PlayOne(cfg, c, a, [b]);
    assert [a, b] == [a] + [b];
  }

  lemma PlaySays(cfg: Config, c: Pair, q: Cmd, p: Packet)
    requires c.resp.sQ == [q] && c.resp.vipbox == [] && c.resp.outbox == [] && Encode(q, c.resp.me) == Some(p)
    ensures
      && Plays(cfg, c, Says())
      && Played(cfg, c, Says()) ==
         c.(resp := c.resp.(sQ := [], latched := c.resp.latched || q.SendConfirm?), sentResp := c.sentResp + {p})
  {
    PlayTwo(cfg, c, Pack(Responder), Drain(Responder));
    Said(c.resp, q, p);
    DrainIs(cfg, c.(resp := AfterSendWorker(c.resp)), Drained(AfterSendWorker(c.resp)).0, p);
  }

  function Listened(e: Endpoint, p: Packet, source: Addr, now: real): Endpoint {
    var r := React(e.latched, p);
    e.(peerAddr := source, lastContact := now, pinged := false,
       latched := r.latched, sQ := e.sQ + r.cmds, rQ := e.rQ + r.reports)
  }

  lemma PlayHears(cfg: Config, c: Pair, p: Packet, source: Addr, now: real)
    requires p in c.sentResp && c.init.inbox == [] && c.init.listed
    ensures
      && Plays(cfg, c, Hears(p, source, now))
      && Played(cfg, c, Hears(p, source, now)) == c.(init := Listened(c.init, p, source, now))
  {
    assert [p][1..] == c.init.inbox;
    PlayTwo(cfg, c, Hear(Initiator, p, source, now), Handle(Initiator));
  }

  /** The responder sends its confirm, and then a message in a second datagram. */
  function Speech(m: Message): seq<Act> {
    Says() + ([Ask(Responder, m)] + Says())
  }

  lemma PlaySpeech(cfg: Config, init: NodeInfo, resp: NodeInfo, server: Addr, now: real, m: Message)
    ensures
      var c := Opened(init, resp, server, now);
      && Plays(cfg, c, Speech(m))
      && var d := Played(cfg, c, Speech(m));
      && d.init == c.init && d.sentResp == {Confirmed(resp), Packet(resp, Data(m))}
  {
    var c := Opened(init, resp, server, now);
    PlaySays(cfg, c, SendConfirm(CONFIRM_TEXT), Confirmed(resp));
    var c1 := Played(cfg, c, Says());
    var c2 := Does(cfg, c1, Ask(Responder, m));
    assert c2.resp.sQ == [SendData(m)];
    PlaySays(cfg, c2, SendData(m), Packet(resp, Data(m)));
    PlayOne(cfg, c1, Ask(Responder, m), Says());
    PlayBoth(cfg, c, Says(), [Ask(Responder, m)] + Says());
  }

  predicate Accuses(c: Pair, reason: string) {
    Lost(BadPeer, reason) in c.init.rQ
  }

  // ---- Why the links must be reliable and ordered for more -----------------------------

  /** Loss alone, between honest ends, makes one end accuse the other: the confirm is lost,
      the first message arrives. */
  lemma LossAccuses(cfg: Config, init: NodeInfo, resp: NodeInfo, server: Addr, now: real, m: Message)
    ensures
      var c := Opened(init, resp, server, now);
      var acts := Speech(m) + Hears(Packet(resp, Data(m)), resp.addr, now);
      && Plays(cfg, c, acts) && Accuses(Played(cfg, c, acts), "data received before confirming connection")
  {
    var c := Opened(init, resp, server, now);
    PlaySpeech(cfg, init, resp, server, now, m);
    PlayHears(cfg, Played(cfg, c, Speech(m)), Packet(resp, Data(m)), resp.addr, now);
    PlayBoth(cfg, c, Speech(m), Hears(Packet(resp, Data(m)), resp.addr, now));
  }

  /** Reordering alone does: the message overtakes the confirm, and both arrive. */
  lemma ReorderingAccuses(cfg: Config, init: NodeInfo, resp: NodeInfo, server: Addr, now: real, m: Message)
    ensures
      var c := Opened(init, resp, server, now);
      var acts := (Speech(m) + Hears(Packet(resp, Data(m)), resp.addr, now)) + Hears(Confirmed(resp), resp.addr, now);
      && Plays(cfg, c, acts) && Accuses(Played(cfg, c, acts), "data received before confirming connection")
  {
    var c := Opened(init, resp, server, now);
    var p := Packet(resp, Data(m));
    LossAccuses(cfg, init, resp, server, now, m);
    PlaySpeech(cfg, init, resp, server, now, m);
    PlayHears(cfg, Played(cfg, c, Speech(m)), p, resp.addr, now);
    PlayBoth(cfg, c, Speech(m), Hears(p, resp.addr, now));
    var acts := Speech(m) + Hears(p, resp.addr, now);
    PlayHears(cfg, Played(cfg, c, acts), Confirmed(resp), resp.addr, now);
    PlayBoth(cfg, c, acts, Hears(Confirmed(resp), resp.addr, now));
  }

  /** Repetition alone does: the confirm arrives twice. */
  lemma RepetitionAccuses(cfg: Config, init: NodeInfo, resp: NodeInfo, server: Addr, now: real)
    ensures
      var c := Opened(init, resp, server, now);
      var once := Hears(Confirmed(resp), resp.addr, now);
      && Plays(cfg, c, (Says() + once) + once) && Accuses(Played(cfg, c, (Says() + once) + once), "confirm after handshaked")
  {
    var c := Opened(init, resp, server, now);
    var once := Hears(Confirmed(resp), resp.addr, now);
    PlaySays(cfg, c, SendConfirm(CONFIRM_TEXT), Confirmed(resp));
    var c1 := Played(cfg, c, Says());
    PlayHears(cfg, c1, Confirmed(resp), resp.addr, now);
    PlayBoth(cfg, c, Says(), once);
    PlayHears(cfg, Played(cfg, c, Says() + once), Confirmed(resp), resp.addr, now);
    PlayBoth(cfg, c, Says() + once, once);
  }

  // ---- A message after the stop --------------------------------------------------------

  /** Both datagrams arrive, and the receive loop has taken the report of the first. */
  function Listening(resp: NodeInfo, m: Message, now: real): seq<Act> {
    (Hears(Confirmed(resp), resp.addr, now) + Hears(Packet(resp, Data(m)), resp.addr, now)) + [Take(Initiator)]
  }

  lemma PlayListening(cfg: Config, c: Pair, resp: NodeInfo, m: Message, now: real)
    requires c.sentResp == {Confirmed(resp), Packet(resp, Data(m))}
    requires c.init.inbox == [] && c.init.rQ == [] && c.init.listed && !c.init.latched && c.init.receiving && !c.init.stopped
    ensures
      && Plays(cfg, c, Listening(resp, m, now))
      && var e := Played(cfg, c, Listening(resp, m, now)).init;
      && e.rQ == [Arrived(Delivery(resp.id, m))] && e.receiving && e.listed && e.taken == c.init.taken
  {
    var a, b := Hears(Confirmed(resp), resp.addr, now), Hears(Packet(resp, Data(m)), resp.addr, now);
    PlayHears(cfg, c, Confirmed(resp), resp.addr, now);
    var c1 := Played(cfg, c, a);
    assert c1.init.latched && c1.init.rQ == [Checked] && c1.init.listed;
    PlayHears(cfg, c1, Packet(resp, Data(m)), resp.addr, now);
    PlayBoth(cfg, c, a, b);
    var c2 := Played(cfg, c, a + b);
    assert c2.init.rQ == [Checked, Arrived(Delivery(resp.id, m))] && c2.init.receiving && !c2.init.stopped;
    var none: seq<Act> := [];
    PlayOne(cfg, c2, Take(Initiator), none);
    PlayBoth(cfg, c, a + b, [Take(Initiator)]);
    assert c2.init.rQ[1..] == [Arrived(Delivery(resp.id, m))];
  }

  /** So "no data after the stop" fails, over a perfect network too: the initiator stops the
      peer while a message waits, and its loop takes it before it is killed. */
  lemma StoppedYetTakes(cfg: Config, init: NodeInfo, resp: NodeInfo, server: Addr, now: real, m: Message, reason: string)
    ensures
      var c := Opened(init, resp, server, now);
      var acts := (Speech(m) + Listening(resp, m, now)) + [Quit(Initiator, reason)];
      && Plays(cfg, c, acts)
      && var d := Played(cfg, c, acts);
      && d.init.stopped && d.init.taken == []
      && Plays(cfg, d, [Take(Initiator)])
      && Played(cfg, d, [Take(Initiator)]).init.taken == [Delivery(resp.id, m)]
  {
    var c := Opened(init, resp, server, now);
    PlaySpeech(cfg, init, resp, server, now, m);
    var c1 := Played(cfg, c, Speech(m));
    PlayListening(cfg, c1, resp, m, now);
    PlayBoth(cfg, c, Speech(m), Listening(resp, m, now));
    var c2 := Played(cfg, c, Speech(m) + Listening(resp, m, now));
    var none: seq<Act> := [];
    PlayOne(cfg, c2, Quit(Initiator, reason), none);
    PlayBoth(cfg, c, Speech(m) + Listening(resp, m, now), [Quit(Initiator, reason)]);
    var d := Does(cfg, c2, Quit(Initiator, reason));
    PlayOne(cfg, d, Take(Initiator), none);
    LoopStep(cfg, d, Initiator, Take(Initiator));
  }
}
