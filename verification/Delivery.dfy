/** What is accepted can be delivered: a connection that nobody has given up comes to rest
    by its own events, without waiting for a timer, and then everything has arrived. */
module Delivery {
  import opened Wire
  import opened Endpoints
  import opened Channels
  import opened Handshake
  import opened Fifo
  import opened Quiescence
  import opened PingPong

  /** Every message is one that recv_loop can dispatch. */
  predicate Numbered(ds: seq<Delivery>) {
    forall d | d in ds :: d.msg.methodNo.Some?
  }

  predicate NoLoss(rs: seq<Report>) {
    forall r | r in rs :: !r.Lost?
  }

  /** An end that is up, with no timer due at time t and nothing in line that would stop it. */
  predicate Well(cfg: Config, e: Endpoint, t: real) {
    e.listed && !e.stopped && e.receiving && NoLoss(e.rQ) && Drains(cfg, e, t)
  }

  predicate Calm(s: Setup, c: Channel, t: real) {
    && Inv(s, c) && Flow(s, c) && c.resp.Some? && c.admitted
    && s.cfg.timeout >= 0.0 && s.cfg.pingInterval >= 0.0
    && Numbered(c.fromInit) && Numbered(c.fromResp)
    && Way(ByeMark, c, Initiator) == 0 && Way(ByeMark, c, Responder) == 0
    && Well(s.cfg, c.init, t) && Well(s.cfg, c.resp.value, t)
  }

  // ---- One end ----------------------------------------------------------------------

  lemma PackWell(cfg: Config, e: Endpoint, t: real)
    requires Well(cfg, e, t) && e.sQ != []
    ensures Well(cfg, AfterSendWorker(e), t)
  {
    PackedIs(e);
  }

  lemma HandleWell(cfg: Config, e: Endpoint, t: real)
    requires Well(cfg, e, t) && e.inbox != [] && !e.inbox[0].body.Disconnect? && NoBad(AfterRecvWorker(e).rQ)
    ensures Well(cfg, AfterRecvWorker(e), t)
  {
    ReportedIs(e);
    AnsweredIs(e);
  }

  lemma TakeWell(cfg: Config, e: Endpoint, t: real)
    requires Well(cfg, e, t) && e.rQ != [] && Numbered(DataReports(e.rQ))
    ensures Well(cfg, AfterRecvLoop(e), t)
  {
    TakenIs(e);
    assert e.rQ[0] in e.rQ;
    if e.rQ[0].Arrived? {
      assert DataReports(e.rQ)[0] == e.rQ[0].item;
    }
  }

  lemma HearWell(cfg: Config, e: Endpoint, p: Packet, source: Addr, t: real)
    requires Well(cfg, e, t) && cfg.timeout >= 0.0 && cfg.pingInterval >= 0.0
    ensures Well(cfg, AfterReceive(e, p, source, t), t)
  {
  }

  // ---- One event ----------------------------------------------------------------------

  lemma ReportsNumbered(s: Setup, c: Channel, w: Who)
    requires Flow(s, c) && Numbered(c.fromInit) && Numbered(c.fromResp) && c.resp.Some?
    ensures Numbered(DataReports(At(c, w).rQ))
  {
    forall d | d in DataReports(At(c, w).rQ) ensures d.msg.methodNo.Some? {
      assert d in Downstream(At(c, w));
      assert w.Initiator? ==> d in c.fromResp;
      assert w.Responder? ==> d in Ahead(c) && d in c.fromInit;
    }
  }

  /** The first packet in an inbox is not a disconnect if none is on its way. */
  lemma NoByeFirst(c: Channel, w: Who)
    requires Present(c, w) && Way(ByeMark, c, Other(w)) == 0 && At(c, w).inbox != []
    ensures !At(c, w).inbox[0].body.Disconnect?
  {
  }

  predicate BothWell(s: Setup, c: Channel, t: real) {
    c.resp.Some? && Well(s.cfg, c.init, t) && Well(s.cfg, c.resp.value, t)
  }

  /** What an event finds does not stop the end. */
  predicate Harmless(s: Setup, c: Channel, ev: Event) {
    match ev
    case RecvWorker(w) =>
      Runs(c, w) && At(c, w).inbox != [] && !At(c, w).inbox[0].body.Disconnect? && NoBad(AfterRecvWorker(At(c, w)).rQ)
    case RecvLoop(w) => Runs(c, w) && Numbered(DataReports(At(c, w).rQ))
    case _ => true
  }

  lemma EndsStayWell(s: Setup, c: Channel, t: real, ev: Event)
    requires BothWell(s, c, t) && s.cfg.timeout >= 0.0 && s.cfg.pingInterval >= 0.0
    requires Internal(s, c, ev) && AtTime(ev, t) && Harmless(s, c, ev)
    ensures BothWell(s, Next(s, c, ev), t)
  {
    match ev
    case SendWorker(w) => PackWell(s.cfg, At(c, w), t);
    case RecvWorker(w) => HandleWell(s.cfg, At(c, w), t);
    case SendLoop(w, now) => LoopCases(s, c, w, now);
    case RecvLoop(w) => TakeWell(s.cfg, At(c, w), t);
    case _ =>
  }

  lemma NextHasNoBad(s: Setup, c: Channel, w: Who)
    requires Inv(s, c) && Enabled(s, c, RecvWorker(w))
    ensures NoBad(AfterRecvWorker(At(c, w)).rQ)
  {
    StepInv(s, c, RecvWorker(w));
  }

  lemma CalmIsHarmless(s: Setup, c: Channel, t: real, ev: Event)
    requires Calm(s, c, t) && Internal(s, c, ev)
    ensures Harmless(s, c, ev)
  {
    match ev
    case RecvWorker(w) =>
      NoByeFirst(c, w);
      NextHasNoBad(s, c, w);
    case RecvLoop(w) => ReportsNumbered(s, c, w);
    case _ =>
  }

  lemma ByesStayAway(s: Setup, c: Channel, ev: Event, w: Who)
    requires Ready(s, c, ev) && Internal(s, c, ev) && c.resp.Some? && Way(ByeMark, c, w) == 0
    ensures Way(ByeMark, Next(s, c, ev), w) == 0
  {
    StepWay(ByeMark, s, c, ev, w);
  }

  lemma LogsStay(s: Setup, c: Channel, ev: Event)
    requires Internal(s, c, ev) && c.resp.Some?
    ensures var d := Next(s, c, ev); d.fromInit == c.fromInit && d.fromResp == c.fromResp && d.admitted == c.admitted
  {
    match ev
    case SendLoop(w, now) => LoopCases(s, c, w, now);
    case _ =>
  }

  lemma CalmStep(s: Setup, c: Channel, t: real, ev: Event)
    requires Calm(s, c, t) && Internal(s, c, ev) && AtTime(ev, t)
    ensures
      var d := Next(s, c, ev);
      Calm(s, d, t) && d.fromInit == c.fromInit && d.fromResp == c.fromResp
  {
    StepInv(s, c, ev);
    StepFlow(s, c, ev);
    InvReady(s, c, ev);
    ByesStayAway(s, c, ev, Initiator);
    ByesStayAway(s, c, ev, Responder);
    LogsStay(s, c, ev);
    CalmIsHarmless(s, c, t, ev);
    EndsStayWell(s, c, t, ev);
  }

  // ---- A run ------------------------------------------------------------------------

  /** From a calm connection a run of working events leads to rest, at one moment. */
  lemma {:induction false} ComesToRest(s: Setup, c: Channel, t: real) returns (evs: seq<Event>)
    requires Calm(s, c, t)
    ensures AllInternal(s, c, evs) && CanRun(s, c, evs)
    ensures var d := Run(s, c, evs); AtRest(d) && Calm(s, d, t) && d.fromInit == c.fromInit && d.fromResp == c.fromResp
    decreases Rank(c)
  {
    if AtRest(c) {
      evs := [];
    } else {
      NoDeadEnd(s, c, t);
      var ev :| AtTime(ev, t) && Works(s, c, ev);
      CalmStep(s, c, t, ev);
      StepRank(s, c, ev);
      var rest := ComesToRest(s, Next(s, c, ev), t);
      evs := [ev] + rest;
      assert evs[1..] == rest;
    }
  }

  /** And then each end has taken what the other accepted, the initiator's loss apart. */
  lemma CalmDelivers(s: Setup, c: Channel, t: real) returns (evs: seq<Event>)
    requires Calm(s, c, t)
    ensures AllInternal(s, c, evs) && CanRun(s, c, evs)
    ensures
      var d := Run(s, c, evs);
      && AtRest(d) && d.resp.Some? && d.init.latched && d.resp.value.latched && Alive(d)
      && d.init.taken == c.fromResp && d.fromInit == c.fromInit
      && c.fromInit == DataPackets(d.refused) + d.resp.value.taken
  {
    evs := ComesToRest(s, c, t);
    NothingQueued(Run(s, c, evs));
  }

  // ---- From any live connection -------------------------------------------------------

  predicate LossFree(c: Channel, w: Who) {
    Present(c, w) ==> NoLoss(At(c, w).rQ)
  }

  lemma LossFreeHandle(e: Endpoint)
    requires NoLoss(e.rQ) && e.inbox != [] && !e.inbox[0].body.Disconnect? && NoBad(AfterRecvWorker(e).rQ)
    ensures NoLoss(AfterRecvWorker(e).rQ)
  {
    ReportedIs(e);
  }

  lemma LossFreeStep(s: Setup, c: Channel, ev: Event, w: Who)
    requires Enabled(s, c, ev) && LossFree(c, w) && !Handles(ByeMark, c, ev, w)
    requires ev == RecvWorker(w) ==> NoBad(AfterRecvWorker(At(c, w)).rQ)
    ensures LossFree(Next(s, c, ev), w)
  {
    match ev
    case SendWorker(v) => PackedIs(At(c, v));
    case RecvWorker(v) =>
      if v == w {
        LossFreeHandle(At(c, w));
      }
    case SendLoop(v, now) => LoopCases(s, c, v, now);
    case RecvLoop(v) => TakenIs(At(c, v));
    case _ =>
  }

  /** An end that has handled no disconnect has no report that would stop it. */
  lemma {:induction false} LossFreeRun(s: Setup, c: Channel, evs: seq<Event>, w: Who)
    requires Inv(s, c) && CanRun(s, c, evs) && LossFree(c, w) && Handled(ByeMark, s, c, evs, w) == 0
    ensures LossFree(Run(s, c, evs), w)
    decreases |evs|
  {
    if evs != [] {
      StepInv(s, c, evs[0]);
      if evs[0] == RecvWorker(w) {
        NextHasNoBad(s, c, w);
      }
      LossFreeStep(s, c, evs[0], w);
      LossFreeRun(s, Next(s, c, evs[0]), evs[1..], w);
    }
  }

  /** What an application may take for granted: nobody has stopped, messages carry numbers,
      and no timer is due at time t. */
  predicate Usable(s: Setup, c: Channel, t: real) {
    && Alive(c) && c.resp.Some? && !Due(s, c, Initiator, t) && !Due(s, c, Responder, t)
    && s.cfg.timeout >= 0.0 && s.cfg.pingInterval >= 0.0
    && Numbered(c.fromInit) && Numbered(c.fromResp)
  }

  lemma NoByes(s: Setup, now: real, evs: seq<Event>, w: Who)
    requires s.server != s.respSeen && CanRun(s, Start(s, now), evs)
    requires var c := Run(s, Start(s, now), evs); Present(c, w) ==> !At(c, w).stopped
    ensures Way(ByeMark, Run(s, Start(s, now), evs), w) == 0
    ensures Handled(ByeMark, s, Start(s, now), evs, Other(w)) == 0
  {
    var c0 := Start(s, now);
    StartInv(s, now);
    StartWay(ByeMark, s, now, w);
    RunWay(ByeMark, s, c0, evs, w);
    if Made(ByeMark, s, c0, evs, w) > 0 {
      MadeStops(s, c0, evs, w);
    }
  }

  /** A disconnect is on its way only from an end that is stopped, so a live connection is
      calm. */
  lemma UsableIsCalm(s: Setup, now: real, evs: seq<Event>, t: real)
    requires s.server != s.respSeen && CanRun(s, Start(s, now), evs) && Usable(s, Run(s, Start(s, now), evs), t)
    ensures Calm(s, Run(s, Start(s, now), evs), t)
  {
    var c0 := Start(s, now);
    StartInv(s, now);
    RunInv(s, c0, evs);
    StartFlow(s, now);
    RunFlow(s, c0, evs);
    NoByes(s, now, evs, Initiator);
    NoByes(s, now, evs, Responder);
    LossFreeRun(s, c0, evs, Initiator);
    LossFreeRun(s, c0, evs, Responder);
  }

  /** Everything accepted can be delivered: from every reachable live connection a run of
      internal events, all at one moment, ends with both ends latched and nothing left on the
      way. The initiator's loss apart, each end has then taken what the other accepted. */
  lemma AcceptedCanBeDelivered(s: Setup, now: real, evs: seq<Event>, t: real) returns (more: seq<Event>)
    requires s.server != s.respSeen && CanRun(s, Start(s, now), evs) && Usable(s, Run(s, Start(s, now), evs), t)
    ensures
      var c := Run(s, Start(s, now), evs);
      && AllInternal(s, c, more) && CanRun(s, c, more)
      && var d := Run(s, c, more);
      && AtRest(d) && d.resp.Some? && d.init.latched && d.resp.value.latched && Alive(d)
      && d.init.taken == c.fromResp
      && c.fromInit == DataPackets(d.refused) + d.resp.value.taken
  {
    UsableIsCalm(s, now, evs, t);
    more := CalmDelivers(s, Run(s, Start(s, now), evs), t);
  }

  lemma SendStaysCalm(s: Setup, c: Channel, t: real, w: Who, m: Message)
    requires Calm(s, c, t) && m.methodNo.Some?
    ensures Calm(s, Next(s, c, AppSend(w, m)), t)
  {
    var ev := AppSend(w, m);
    StepInv(s, c, ev);
    StepFlow(s, c, ev);
    AcceptWay(ByeMark, c, w, m, Initiator);
    AcceptWay(ByeMark, c, w, m, Responder);
  }

  predicate Ending(ds: seq<Delivery>, d: Delivery) {
    ds != [] && ds[|ds| - 1] == d
  }

  lemma LastIsLast(lost: seq<Delivery>, taken: seq<Delivery>, all: seq<Delivery>, x: Delivery)
    requires lost + taken == all + [x] && |lost| <= |all|
    ensures Ending(taken, x)
  {
    assert (lost + taken)[|all|] == x;
  }

  lemma InitiatorGetsThrough(s: Setup, c: Channel, t: real, m: Message) returns (more: seq<Event>)
    requires Calm(s, c, t) && m.methodNo.Some? && c.init.peerAddr != s.server
    ensures
      && CanRun(s, c, [AppSend(Initiator, m)] + more)
      && var d := Run(s, c, [AppSend(Initiator, m)] + more);
      AtRest(d) && d.resp.Some? && Ending(d.resp.value.taken, Delivery(c.init.me.id, m))
  {
    SendStaysCalm(s, c, t, Initiator, m);
    var a := Next(s, c, AppSend(Initiator, m));
    more := CalmDelivers(s, a, t);
    RunOne(s, c, AppSend(Initiator, m), more);
    LossIsOver(s, a, more);
    var d := Run(s, a, more);
    LastIsLast(DataPackets(d.refused), d.resp.value.taken, c.fromInit, Delivery(c.init.me.id, m));
  }

  lemma ResponderGetsThrough(s: Setup, c: Channel, t: real, m: Message) returns (more: seq<Event>)
    requires Calm(s, c, t) && m.methodNo.Some?
    ensures
      && CanRun(s, c, [AppSend(Responder, m)] + more)
      && var d := Run(s, c, [AppSend(Responder, m)] + more);
      AtRest(d) && Ending(d.init.taken, Delivery(c.resp.value.me.id, m))
  {
    SendStaysCalm(s, c, t, Responder, m);
    more := CalmDelivers(s, Next(s, c, AppSend(Responder, m)), t);
    RunOne(s, c, AppSend(Responder, m), more);
  }

  /** So can a message that is accepted now: it is possible to send it, and the run delivers
      it last. From the initiator, once it has heard from the responder. */
  lemma MessageGetsThrough(s: Setup, now: real, evs: seq<Event>, t: real, w: Who, m: Message) returns (more: seq<Event>)
    requires s.server != s.respSeen && CanRun(s, Start(s, now), evs) && Usable(s, Run(s, Start(s, now), evs), t)
    requires m.methodNo.Some? && (w.Initiator? ==> Run(s, Start(s, now), evs).init.peerAddr != s.server)
    ensures
      var c := Run(s, Start(s, now), evs);
      && CanRun(s, c, [AppSend(w, m)] + more)
      && var d := Run(s, c, [AppSend(w, m)] + more);
      AtRest(d) && Present(d, Other(w)) && Ending(At(d, Other(w)).taken, Delivery(At(c, w).me.id, m))
  {
    UsableIsCalm(s, now, evs, t);
    if w.Initiator? {
      more := InitiatorGetsThrough(s, Run(s, Start(s, now), evs), t, m);
    } else {
      more := ResponderGetsThrough(s, Run(s, Start(s, now), evs), t, m);
    }
  }

  // ---- And the farewell -----------------------------------------------------------------

  /** An end is given up and says so; */
  function Parting(w: Who, reason: string): seq<Event> {
    [Halt(w, reason), SendWorker(w), Flush(w)]
  }

  /** the other end hears of it; */
  function Learning(w: Who, t: real): seq<Event> {
    [Receive(w, t), RecvWorker(w), RecvLoop(w)]
  }

  /** a stopped peer is removed. */
  function Removal(w: Who): seq<Event> {
    [Kill(w), Unlist(w)]
  }

  function Farewell(w: Who, reason: string, t: real): seq<Event> {
    Parting(w, reason) + (Learning(Other(w), t) + (Removal(w) + Removal(Other(w))))
  }

  predicate Gone(c: Channel, w: Who) {
    Present(c, w) && At(c, w).stopped && !At(c, w).receiving && !At(c, w).listed
  }

  /** A stopped peer can be removed, and nothing else happens by that. */
  lemma RemovalRuns(s: Setup, c: Channel, w: Who)
    requires Present(c, w) && At(c, w).stopped && At(c, w).listed
    ensures
      && CanRun(s, c, Removal(w))
      && Run(s, c, Removal(w)) == Put(c, w, At(c, w).(receiving := false, listed := false))
  {
    var d := Put(c, w, Killed(At(c, w)));
    var none: seq<Event> := [];
    RunOne(s, d, Unlist(w), none);
    RunOne(s, c, Kill(w), [Unlist(w)]);
    assert Removal(w) == [Kill(w)] + [Unlist(w)];
  }

  /** So can one whose socket fails, at once. */
  lemma BrokenIsRemoved(s: Setup, c: Channel, w: Who)
    requires Present(c, w) && At(c, w).listed
    ensures CanRun(s, c, [Break(w)] + Removal(w)) && Gone(Run(s, c, [Break(w)] + Removal(w)), w)
  {
    RemovalRuns(s, Put(c, w, Broken(At(c, w))), w);
    RunOne(s, c, Break(w), Removal(w));
  }

  lemma {:induction false} RunBoth(s: Setup, c: Channel, a: seq<Event>, b: seq<Event>)
    requires CanRun(s, c, a) && CanRun(s, Run(s, c, a), b)
    ensures CanRun(s, c, a + b) && Run(s, c, a + b) == Run(s, Run(s, c, a), b)
    decreases |a|
  {
    if a == [] {
      assert a + b == b;
    } else {
      RunBoth(s, Next(s, c, a[0]), a[1..], b);
      assert (a + b)[1..] == a[1..] + b;
    }
  }

  lemma RunThree(s: Setup, c: Channel, a: Event, b: Event, d: Event)
    requires Enabled(s, c, a)
    requires Enabled(s, Next(s, c, a), b)
    requires Enabled(s, Next(s, Next(s, c, a), b), d)
    ensures CanRun(s, c, [a, b, d]) && Run(s, c, [a, b, d]) == Next(s, Next(s, Next(s, c, a), b), d)
  {
    var none: seq<Event> := [];
    RunOne(s, Next(s, Next(s, c, a), b), d, none);
    RunOne(s, Next(s, c, a), b, [d]);
    RunOne(s, c, a, [b, d]);
    assert [a, b, d] == [a] + [b, d] && [b, d] == [b] + [d];
  }

  /** The command of a still end, packed and sent. */
  lemma PartingSends(e: Endpoint, reason: string)
    requires Still(e)
    ensures
      var f := AfterSendWorker(Halted(e, reason));
      && f == e.(stopped := true, vipbox := [Packet(e.me, Disconnect(reason))])
      && Drained(f) == (e.(stopped := true), [Packet(e.me, Disconnect(reason))])
  {
    PackedIs(Halted(e, reason));
    var f := AfterSendWorker(Halted(e, reason));
    var p := Packet(e.me, Disconnect(reason));
    assert f.vipbox == [p] && f.vipbox[1..] == e.vipbox && f.outbox[0..] == e.outbox;
    assert [p] + [] == [p];
  }

  /** Where the packets of an end arrive. */
  predicate Facing(s: Setup, c: Channel, w: Who)
    requires Present(c, w)
  {
    At(c, w).peerAddr == if w.Initiator? then s.respSeen else s.initSeen
  }

  lemma PartingRuns(s: Setup, c: Channel, w: Who, reason: string)
    requires s.server != s.respSeen && Runs(c, w) && Facing(s, c, w) && Still(At(c, w)) && At(c, w).listed
    requires Link(c, Other(w)) == []
    ensures
      && CanRun(s, c, Parting(w, reason))
      && var d := Run(s, c, Parting(w, reason));
      var p := Packet(At(c, w).me, Disconnect(reason));
      d == if w.Initiator? then c.(init := c.init.(stopped := true), toResp := [p])
           else c.(resp := Some(c.resp.value.(stopped := true)), toInit := [p])
  {
    PartingSends(At(c, w), reason);
    RunThree(s, c, Halt(w, reason), SendWorker(w), Flush(w));
  }

  lemma LearningStops(e: Endpoint, p: Packet, source: Addr, t: real)
    requires Still(e) && p.body.Disconnect?
    ensures
      var f := AfterReceive(e, p, source, t);
      var g := AfterRecvWorker(f);
      && f.inbox == [p] && g.rQ == [Lost(EndSession, p.body.reason)] && g.receiving == e.receiving
      && AfterRecvLoop(g).stopped && AfterRecvLoop(g).listed == e.listed
  {
    var f := AfterReceive(e, p, source, t);
    AnsweredIs(f);
    ReportedIs(f);
    TakenIs(AfterRecvWorker(f));
  }

  lemma LearningRuns(s: Setup, c: Channel, v: Who, t: real)
    requires Runs(c, v) && Still(At(c, v)) && At(c, v).listed && At(c, v).receiving
    requires Link(c, v) != [] && Link(c, v)[0].body.Disconnect? && Present(c, Other(v))
    ensures
      && CanRun(s, c, Learning(v, t))
      && var d := Run(s, c, Learning(v, t));
      && Present(d, v) && At(d, v).stopped && At(d, v).listed
      && Present(d, Other(v)) && At(d, Other(v)) == At(c, Other(v))
  {
    LearningStops(At(c, v), Link(c, v)[0], if v.Initiator? then s.respSeen else s.initSeen, t);
    RunThree(s, c, Receive(v, t), RecvWorker(v), RecvLoop(v));
  }

  lemma BothRemoved(s: Setup, c: Channel, w: Who)
    requires Present(c, w) && At(c, w).stopped && At(c, w).listed
    requires Present(c, Other(w)) && At(c, Other(w)).stopped && At(c, Other(w)).listed
    ensures
      && CanRun(s, c, Removal(w) + Removal(Other(w)))
      && var d := Run(s, c, Removal(w) + Removal(Other(w)));
      Gone(d, w) && Gone(d, Other(w))
  {
    RemovalRuns(s, c, w);
    RemovalRuns(s, Run(s, c, Removal(w)), Other(w));
    RunBoth(s, c, Removal(w), Removal(Other(w)));
  }

  /** Giving up one end of a connection at rest can remove both: the disconnect leaves after
      the stop, the other end takes it, and both nodes can finish. */
  lemma FarewellGetsThrough(s: Setup, c: Channel, w: Who, reason: string, t: real)
    requires s.server != s.respSeen && AtRest(c) && Alive(c)
    requires Runs(c, w) && Runs(c, Other(w)) && Facing(s, c, w)
    ensures
      && CanRun(s, c, Farewell(w, reason, t))
      && var d := Run(s, c, Farewell(w, reason, t));
      Gone(d, w) && Gone(d, Other(w))
  {
    PartingRuns(s, c, w, reason);
    var c1 := Run(s, c, Parting(w, reason));
    LearningRuns(s, c1, Other(w), t);
    var c2 := Run(s, c1, Learning(Other(w), t));
    BothRemoved(s, c2, w);
    var last := Removal(w) + Removal(Other(w));
    RunBoth(s, c1, Learning(Other(w), t), last);
    RunBoth(s, c, Parting(w, reason), Learning(Other(w), t) + last);
  }
}
