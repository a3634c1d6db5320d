/** Without new sends, connections or timer events a connection comes to rest, and at
    rest everything accepted has been delivered. */
module Quiescence {
  import opened Wire
  import opened Endpoints
  import opened Channels
  import opened Handshake
  import opened Fifo

  // ---- The measure ------------------------------------------------------------

  /** A ping still costs a pong and a hello a confirm, so they weigh more. */
  function BodyWeight(b: Body): nat {
    match b
    case Ping => 7
    case Hello(_) => 7
    case _ => 2
  }

  function CmdWeight(c: Cmd): nat {
    match c
    case SendPing => 10
    case SendHello(_) => 10
    case _ => 5
  }

  /** Total weight of packets that are `extra` stages short of being handled. */
  function Load(ps: seq<Packet>, extra: nat): nat {
    if ps == [] then 0 else BodyWeight(ps[0].body) + extra + Load(ps[1..], extra)
  }

  function Queued(cs: seq<Cmd>): nat {
    if cs == [] then 0 else CmdWeight(cs[0]) + Queued(cs[1..])
  }

  function Burden(e: Endpoint): nat {
    Queued(e.sQ) + Load(e.vipbox, 2) + Load(e.outbox, 2) + Load(e.inbox, 0) + |e.rQ|
    + (if e.listed then 1 else 0) + if e.receiving then 1 else 0
  }

  function Rank(c: Channel): nat {
    Burden(c.init) + (if c.resp.Some? then Burden(c.resp.value) else 0)
    + Load(c.toServer, 1) + Load(c.toResp, 1) + Load(c.toInit, 1)
    + (if Initiator in c.begun then 0 else 1) + if Responder in c.begun then 0 else 1
  }

  lemma {:induction false} LoadAppend(a: seq<Packet>, b: seq<Packet>, extra: nat)
    ensures Load(a + b, extra) == Load(a, extra) + Load(b, extra)
  {
    if a == [] {
      assert a + b == b;
    } else {
      assert (a + b)[1..] == a[1..] + b;
      LoadAppend(a[1..], b, extra);
    }
  }

  lemma {:induction false} QueuedAppend(a: seq<Cmd>, b: seq<Cmd>)
    ensures Queued(a + b) == Queued(a) + Queued(b)
  {
    if a == [] {
      assert a + b == b;
    } else {
      assert (a + b)[1..] == a[1..] + b;
      QueuedAppend(a[1..], b);
    }
  }

  // ---- One iteration --------------------------------------------------------------

  lemma OneMore(ps: seq<Packet>, p: Packet, extra: nat)
    ensures Load(ps + [p], extra) == Load(ps, extra) + BodyWeight(p.body) + extra
  {
    LoadAppend(ps, [p], extra);
    assert Load([p], extra) == BodyWeight(p.body) + extra;
  }

  lemma EncodeLightens(c: Cmd, me: NodeInfo)
    ensures Encode(c, me).Some? ==> BodyWeight(Encode(c, me).value.body) + 3 == CmdWeight(c)
  {
  }

  lemma PackLightens(e: Endpoint)
    requires e.sQ != []
    ensures Burden(AfterSendWorker(e)) < Burden(e)
  {
    var f := AfterSendWorker(e);
    assert Queued(e.sQ) == CmdWeight(e.sQ[0]) + Queued(f.sQ);
    EncodeLightens(e.sQ[0], e.me);
    match Encode(e.sQ[0], e.me)
    case None =>
      assert f.vipbox == e.vipbox && f.outbox == e.outbox;
    case Some(p) =>
      if e.sQ[0].SendData? {
        OneMore(e.outbox, p, 2);
        assert f.vipbox == e.vipbox;
      } else {
        OneMore(e.vipbox, p, 2);
        assert f.outbox == e.outbox;
      }
  }

  lemma ReactLightens(latched: bool, p: Packet)
    ensures var r := React(latched, p); Queued(r.cmds) + |r.reports| < BodyWeight(p.body)
  {
    var r := React(latched, p);
    assert r.cmds == [] || (r.cmds == [r.cmds[0]] && Queued(r.cmds) == CmdWeight(r.cmds[0]));
  }

  lemma HandleLightens(e: Endpoint)
    requires e.inbox != []
    ensures Burden(AfterRecvWorker(e)) < Burden(e)
  {
    var r := React(e.latched, e.inbox[0]);
    ReactLightens(e.latched, e.inbox[0]);
    QueuedAppend(e.sQ, r.cmds);
  }

  lemma DrainLightens(e: Endpoint)
    ensures
      var (f, sent) := Drained(e);
      && Burden(f) + Load(sent, 1) + |sent| == Burden(e)
      && (sent == [] <==> e.vipbox == [] && e.outbox == [])
  {
    var (f, sent) := Drained(e);
    var vip := if e.vipbox != [] then [e.vipbox[0]] else [];
    var out := if e.outbox != [] then [e.outbox[0]] else [];
    assert sent == vip + out;
    LoadAppend(vip, out, 1);
    OneBox(e.vipbox);
    OneBox(e.outbox);
  }

  lemma OneBox(ps: seq<Packet>)
    ensures
      var first := if ps != [] then [ps[0]] else [];
      Load(ps[|first|..], 2) + Load(first, 1) + |first| == Load(ps, 2)
  {
    if ps != [] {
      assert Load([ps[0]], 1) == BodyWeight(ps[0].body) + 1;
    }
  }

  // ---- One event --------------------------------------------------------------

  predicate HasMail(e: Endpoint) {
    e.vipbox != [] || e.outbox != []
  }

  /** The events that happen inside the connection: no application call, no timer. */
  predicate Internal(s: Setup, c: Channel, ev: Event) {
    && Enabled(s, c, ev)
    && !ev.AppSend? && !ev.Halt? && !ev.Break?
    && (ev.SendLoop? ==> Drains(s.cfg, At(c, ev.who), ev.now))
  }

  /** Internal events other than a send loop that finds its boxes empty, the killing of a loop
      that has ended, and a second beginning. */
  predicate Works(s: Setup, c: Channel, ev: Event) {
    && Internal(s, c, ev)
    && (ev.SendLoop? || ev.Flush? ==> HasMail(At(c, ev.who)))
    && (ev.Kill? ==> At(c, ev.who).receiving)
    && (ev.Begin? ==> ev.who !in c.begun)
  }

  lemma PutRank(c: Channel, w: Who, f: Endpoint)
    requires Present(c, w)
    ensures Rank(Put(c, w, f)) == Rank(c) - Burden(At(c, w)) + Burden(f)
  {
  }

  lemma EmitRank(s: Setup, c: Channel, w: Who, target: Addr, ps: seq<Packet>)
    ensures Rank(Emit(s, c, w, target, ps)) <= Rank(c) + Load(ps, 1)
  {
    match w
    case Initiator =>
      if target == s.server {
        LoadAppend(c.toServer, ps, 1);
      } else {
        LoadAppend(c.toResp, ps, 1);
      }
    case Responder => LoadAppend(c.toInit, ps, 1);
  }

  lemma FlushRank(s: Setup, c: Channel, w: Who)
    requires Present(c, w)
    ensures Rank(Flushed(s, c, w)) <= Rank(c) - if HasMail(At(c, w)) then 1 else 0
  {
    var (f, sent) := Drained(At(c, w));
    DrainLightens(At(c, w));
    PutRank(c, w, f);
    EmitRank(s, Put(c, w, f), w, f.peerAddr, sent);
  }

  lemma HearRank(s: Setup, c: Channel, w: Who, now: real)
    requires Present(c, w) && Link(c, w) != []
    ensures Rank(Heard(s, c, w, now)) < Rank(c)
  {
    var p := Link(c, w)[0];
    LoadAppend(At(c, w).inbox, [p], 0);
    assert Load([p], 0) == BodyWeight(p.body);
  }

  lemma ServeRank(s: Setup, c: Channel, v: Verdict, now: real)
    requires c.toServer != []
    ensures Rank(Served(s, c, v, now)) < Rank(c)
  {
    var p := c.toServer[0];
    if !v.NotStarted? && GoodHello(s, p) && c.resp.None? {
      var r := Created(s, p, v, now);
      assert r.sQ == [r.sQ[0]] && Queued(r.sQ) == 5;
    }
  }

  /** What always does something. */
  lemma WorkRank(s: Setup, c: Channel, ev: Event)
    requires Enabled(s, c, ev) && (ev.SendWorker? || ev.RecvWorker? || ev.Receive? || ev.RecvLoop? || ev.Serve?)
    ensures Rank(Next(s, c, ev)) < Rank(c)
  {
    match ev
    case SendWorker(w) =>
      PackLightens(At(c, w));
      PutRank(c, w, AfterSendWorker(At(c, w)));
    case RecvWorker(w) =>
      HandleLightens(At(c, w));
      PutRank(c, w, AfterRecvWorker(At(c, w)));
    case Receive(w, now) => HearRank(s, c, w, now);
    case RecvLoop(w) =>
      TakeLightens(At(c, w));
      PutRank(c, w, AfterRecvLoop(At(c, w)));
    case Serve(v, now) => ServeRank(s, c, v, now);
  }

  lemma StepRank(s: Setup, c: Channel, ev: Event)
    requires Internal(s, c, ev)
    ensures Rank(Next(s, c, ev)) <= Rank(c) - if Works(s, c, ev) then 1 else 0
  {
    match ev
    case Begin(_) =>
    case SendLoop(w, now) =>
      LoopCases(s, c, w, now);
      FlushRank(s, c, w);
    case Flush(w) => FlushRank(s, c, w);
    case Kill(w) => PutRank(c, w, Killed(At(c, w)));
    case Unlist(w) => PutRank(c, w, Unlisted(At(c, w)));
    case _ => WorkRank(s, c, ev);
  }

  lemma TakeLightens(e: Endpoint)
    requires e.rQ != []
    ensures Burden(AfterRecvLoop(e)) < Burden(e)
  {
    match e.rQ[0]
    case Checked =>
    case Lost(_, _) =>
    case Arrived(_) =>
  }

  // ---- Whole runs -----------------------------------------------------------------

  predicate AllInternal(s: Setup, c: Channel, evs: seq<Event>)
    decreases |evs|
  {
    evs == [] || (Internal(s, c, evs[0]) && AllInternal(s, Next(s, c, evs[0]), evs[1..]))
  }

  function Labour(s: Setup, c: Channel, evs: seq<Event>): nat
    requires AllInternal(s, c, evs)
    decreases |evs|
  {
    if evs == [] then 0
    else (if Works(s, c, evs[0]) then 1 else 0) + Labour(s, Next(s, c, evs[0]), evs[1..])
  }

  predicate AllWork(s: Setup, c: Channel, evs: seq<Event>)
    decreases |evs|
  {
    evs == [] || (Works(s, c, evs[0]) && AllWork(s, Next(s, c, evs[0]), evs[1..]))
  }

  /** Internal runs from any state, reachable or not, do a bounded amount of work; a run of
      working events is no longer than that. */
  lemma {:induction false} NoStorm(s: Setup, c: Channel, evs: seq<Event>)
    requires AllInternal(s, c, evs)
    ensures CanRun(s, c, evs) && Labour(s, c, evs) + Rank(Run(s, c, evs)) <= Rank(c)
    ensures AllWork(s, c, evs) ==> Labour(s, c, evs) == |evs|
    decreases |evs|
  {
    if evs != [] {
      StepRank(s, c, evs[0]);
      NoStorm(s, Next(s, c, evs[0]), evs[1..]);
    }
  }

  predicate Still(e: Endpoint) {
    e.sQ == [] && e.vipbox == [] && e.outbox == [] && e.inbox == [] && e.rQ == []
  }

  predicate AtRest(c: Channel) {
    && Still(c.init) && (c.resp.Some? ==> Still(c.resp.value))
    && c.toServer == [] && c.toResp == [] && c.toInit == []
  }

  /** Nobody has stopped and no receive loop has died. */
  predicate Alive(c: Channel) {
    && c.init.listed && !c.init.stopped && c.init.receiving
    && (c.resp.Some? ==> c.resp.value.listed && !c.resp.value.stopped && c.resp.value.receiving)
  }

  /** The event takes place at time t, if it looks at the clock. */
  predicate AtTime(ev: Event, t: real) {
    match ev
    case SendLoop(_, now) => now == t
    case Receive(_, now) => now == t
    case Serve(_, now) => now == t
    case _ => true
  }

  /** The timer of an end has something to do at time t. */
  predicate Due(s: Setup, c: Channel, w: Who, t: real) {
    Present(c, w) && !At(c, w).stopped && !Drains(s.cfg, At(c, w), t)
  }

  /** Whatever the time is, a live connection that is not at rest has an event that works
      at that time, unless a timer is due. */
  lemma NoDeadEnd(s: Setup, c: Channel, t: real)
    requires Alive(c) && !AtRest(c)
    requires c.resp.None? ==> c.toResp == []
    ensures Due(s, c, Initiator, t) || Due(s, c, Responder, t) || exists ev :: AtTime(ev, t) && Works(s, c, ev)
  {
    if !Due(s, c, Initiator, t) && !Due(s, c, Responder, t) {
      if !Still(c.init) {
        Busy(s, c, Initiator, t);
      } else if c.resp.Some? && !Still(c.resp.value) {
        Busy(s, c, Responder, t);
      } else if c.toServer != [] {
        assert AtTime(Serve(NotStarted, t), t) && Works(s, c, Serve(NotStarted, t));
      } else if Initiator !in c.begun {
        assert AtTime(Begin(Initiator), t) && Works(s, c, Begin(Initiator));
      } else if c.resp.Some? && Responder !in c.begun {
        assert AtTime(Begin(Responder), t) && Works(s, c, Begin(Responder));
      } else if c.toInit != [] {
        assert AtTime(Receive(Initiator, t), t) && Works(s, c, Receive(Initiator, t));
      } else {
        assert AtTime(Receive(Responder, t), t) && Works(s, c, Receive(Responder, t));
      }
    }
  }

  lemma Busy(s: Setup, c: Channel, w: Who, t: real)
    requires Alive(c) && Present(c, w) && !Still(At(c, w)) && !Due(s, c, w, t)
    ensures exists ev :: AtTime(ev, t) && Works(s, c, ev)
  {
    var e := At(c, w);
    if w !in c.begun {
      assert AtTime(Begin(w), t) && Works(s, c, Begin(w));
    } else if e.sQ != [] {
      assert AtTime(SendWorker(w), t) && Works(s, c, SendWorker(w));
    } else if e.inbox != [] {
      assert AtTime(RecvWorker(w), t) && Works(s, c, RecvWorker(w));
    } else if e.rQ != [] {
      assert AtTime(RecvLoop(w), t) && Works(s, c, RecvLoop(w));
    } else {
      assert AtTime(SendLoop(w, t), t) && Works(s, c, SendLoop(w, t));
    }
  }

  /** The handshake completes: a reachable connection at rest whose responder was admitted
      is latched at both ends. */
  lemma RestIsLatched(s: Setup, now: real, evs: seq<Event>)
    requires s.server != s.respSeen && CanRun(s, Start(s, now), evs)
    ensures
      var c := Run(s, Start(s, now), evs);
      AtRest(c) && c.admitted ==> c.init.latched && c.resp.Some? && c.resp.value.latched
  {
    StartInv(s, now);
    RunInv(s, Start(s, now), evs);
  }

  /** A reachable connection that lives and at some time has neither work nor a timer due
      has delivered, in order, everything the responder accepted, and everything the
      initiator accepted except what it had emitted before it first heard from the
      responder; and if there is a responder, both ends are latched. */
  lemma DeliveredAtRest(s: Setup, now: real, evs: seq<Event>, t: real)
    requires s.server != s.respSeen && CanRun(s, Start(s, now), evs)
    requires
      var c := Run(s, Start(s, now), evs);
      && Alive(c) && !Due(s, c, Initiator, t) && !Due(s, c, Responder, t)
      && !exists ev :: AtTime(ev, t) && Works(s, c, ev)
    ensures
      var c := Run(s, Start(s, now), evs);
      && AtRest(c)
      && c.init.taken == c.fromResp
      && c.fromInit == DataPackets(c.refused) + (if c.resp.Some? then c.resp.value.taken else [])
      && (c.resp.Some? ==> c.init.latched && c.resp.value.latched)
  {
    var c := Run(s, Start(s, now), evs);
    StartInv(s, now);
    RunInv(s, Start(s, now), evs);
    if !AtRest(c) {
      NoDeadEnd(s, c, t);
    }
    NothingQueued(c);
    RestIsLatched(s, now, evs);
    FifoRefinement(s, now, evs);
  }

  lemma NothingQueued(c: Channel)
    requires AtRest(c)
    ensures DataPackets(c.toInit) + (if c.resp.Some? then Upstream(c.resp.value) else []) == []
    ensures Downstream(c.init) == c.init.taken && Upstream(c.init) == []
    ensures Ahead(c) == (if c.resp.Some? then c.resp.value.taken else []) && Wasted(c) == DataPackets(c.refused)
  {
  }
}
