/** The queues of a connection refine one first-in first-out channel per direction:
    what send_packet accepted is what recv_loop has taken, followed by what is still
    in the queues, in one order, whatever overtakes it. */
module Fifo {
  import opened Lists
  import opened Wire
  import opened Endpoints
  import opened Channels
  import opened Handshake

  /** Data that has left the initiator and not been lost, oldest first. */
  function Ahead(c: Channel): seq<Delivery> {
    (if c.resp.Some? then Downstream(c.resp.value) else []) + DataPackets(c.toResp)
  }

  /** Data the initiator sent to the server socket, which keeps none of it. */
  function Wasted(c: Channel): seq<Delivery> {
    DataPackets(c.refused) + DataPackets(c.toServer)
  }

  predicate FlowBack(c: Channel) {
    if c.resp.None? then c.fromResp == [] && Downstream(c.init) == [] && c.toInit == []
    else c.fromResp == Downstream(c.init) + DataPackets(c.toInit) + Upstream(c.resp.value)
  }

  predicate FlowOut(s: Setup, c: Channel) {
    && c.fromInit == Wasted(c) + Ahead(c) + Upstream(c.init)
    && (c.init.peerAddr == s.server ==> Ahead(c) == [] && c.toResp == [])
  }

  predicate Flow(s: Setup, c: Channel) {
    FlowBack(c) && FlowOut(s, c)
  }

  // ---- Links --------------------------------------------------------------------

  /** The oldest datagram of a link, moved to another place. */
  lemma Uncons(ps: seq<Packet>)
    requires ps != []
    ensures DataPackets(ps) == DataPackets([ps[0]]) + DataPackets(ps[1..])
  {
    assert ps == [ps[0]] + ps[1..];
    DataPacketsAppend([ps[0]], ps[1..]);
  }

  /** An endpoint that keeps its data can be put back without disturbing the flow. */
  lemma PutFlow(s: Setup, c: Channel, w: Who, f: Endpoint)
    requires Flow(s, c) && Present(c, w)
    requires var e := At(c, w); Upstream(f) == Upstream(e) && Downstream(f) == Downstream(e) && f.peerAddr == e.peerAddr
    ensures Flow(s, Put(c, w, f))
  {
  }

  lemma AcceptFlow(s: Setup, c: Channel, w: Who, m: Message)
    requires Flow(s, c) && Present(c, w)
    ensures Flow(s, Accepted(c, w, m))
  {
    var e := At(c, w);
    var d := Accepted(c, w, m);
    var x := [Delivery(e.me.id, m)];
    AppSendAddsData(e, m);
    if w.Initiator? {
      Regroup(Wasted(c) + Ahead(c), Upstream(e), x);
      assert d.fromInit == c.fromInit + x;
    } else {
      Regroup(Downstream(c.init) + DataPackets(c.toInit), Upstream(e), x);
      assert d.fromResp == c.fromResp + x;
    }
  }

  lemma PackFlow(s: Setup, c: Channel, w: Who)
    requires Flow(s, c) && Present(c, w) && At(c, w).sQ != []
    ensures Flow(s, Packed(c, w))
  {
    SendWorkerKeepsData(At(c, w));
    PutFlow(s, c, w, AfterSendWorker(At(c, w)));
  }

  lemma HandleFlow(s: Setup, c: Channel, w: Who)
    requires Inv(s, c) && Flow(s, c) && Enabled(s, c, RecvWorker(w))
    ensures Flow(s, Put(c, w, AfterRecvWorker(At(c, w))))
  {
    var e := At(c, w);
    assert e.inbox[0].body.Data? ==> e.latched by {
      if w.Initiator? && c.resp.Some? {
        assert Back(c)[0] == e.inbox[0];
        assert Back(c)[0] in Back(c);
      }
    }
    RecvWorkerKeepsData(e);
    PutFlow(s, c, w, AfterRecvWorker(e));
  }

  lemma RecvLoopFlow(s: Setup, c: Channel, w: Who)
    requires Flow(s, c) && Present(c, w) && At(c, w).rQ != []
    ensures Flow(s, Put(c, w, AfterRecvLoop(At(c, w))))
  {
    RecvLoopKeepsData(At(c, w));
    PutFlow(s, c, w, AfterRecvLoop(At(c, w)));
  }

  lemma HaltFlow(s: Setup, c: Channel, w: Who, reason: string)
    requires Flow(s, c) && Present(c, w)
    ensures Flow(s, Put(c, w, Halted(At(c, w), reason)))
  {
    HaltKeepsData(At(c, w), reason);
    PutFlow(s, c, w, Halted(At(c, w), reason));
  }

  lemma HearFlow(s: Setup, c: Channel, w: Who, now: real)
    requires s.server != s.respSeen && Inv(s, c) && Flow(s, c) && Present(c, w) && Link(c, w) != []
    ensures Flow(s, Heard(s, c, w, now))
  {
    if w.Initiator? {
      var p := c.toInit[0];
      ReceiveAddsData(c.init, p, s.respSeen, now);
      Uncons(c.toInit);
      Regroup(Downstream(c.init), DataPackets([p]), DataPackets(c.toInit[1..]));
      Regroup(Downstream(c.init), DataPackets([p]) + DataPackets(c.toInit[1..]), Upstream(c.resp.value));
    } else {
      var p := c.toResp[0];
      ReceiveAddsData(c.resp.value, p, s.initSeen, now);
      Uncons(c.toResp);
      Regroup(Downstream(c.resp.value), DataPackets([p]), DataPackets(c.toResp[1..]));
      assert Ahead(Heard(s, c, w, now)) == Ahead(c);
    }
  }

  lemma FlushRespFlow(s: Setup, c: Channel)
    requires Inv(s, c) && Flow(s, c) && Welcome(c, Responder)
    ensures Flow(s, Flushed(s, c, Responder))
  {
    var e := c.resp.value;
    var (f, sent) := Drained(e);
    DrainMovesData(e);
    FlushRespIs(s, c);
    DataPacketsAppend(c.toInit, sent);
    Regroup(Downstream(c.init), DataPackets(c.toInit), DataPackets(sent));
    Regroup(Downstream(c.init) + DataPackets(c.toInit), DataPackets(sent), Upstream(f));
  }

  lemma FlushInitIs(s: Setup, c: Channel)
    requires c.init.peerAddr == s.server || c.init.peerAddr == s.respSeen
    ensures var (f, sent) := Drained(c.init);
            && f.peerAddr == c.init.peerAddr
            && Flushed(s, c, Initiator) ==
               if c.init.peerAddr == s.server then c.(init := f, toServer := c.toServer + sent)
               else c.(init := f, toResp := c.toResp + sent)
  {
  }

  lemma RegroupWaste<T>(r: seq<T>, t: seq<T>, x: seq<T>, u: seq<T>)
    ensures (r + t) + [] + (x + u) == (r + (t + x)) + [] + u
  {
  }

  lemma RegroupAhead<T>(w: seq<T>, d: seq<T>, t: seq<T>, x: seq<T>, u: seq<T>)
    ensures w + (d + t) + (x + u) == w + (d + (t + x)) + u
  {
  }

  /** Sent to the server socket: the data counts as wasted. */
  lemma WasteFlow(s: Setup, c: Channel, f: Endpoint, sent: seq<Packet>)
    requires Flow(s, c) && c.init.peerAddr == s.server && f.peerAddr == s.server
    requires Upstream(c.init) == DataPackets(sent) + Upstream(f) && Downstream(f) == Downstream(c.init)
    ensures Flow(s, c.(init := f, toServer := c.toServer + sent))
  {
    var d := c.(init := f, toServer := c.toServer + sent);
    DataPacketsAppend(c.toServer, sent);
    RegroupWaste(DataPackets(c.refused), DataPackets(c.toServer), DataPackets(sent), Upstream(f));
    assert d.fromInit == Wasted(d) + Ahead(d) + Upstream(d.init);
    assert FlowBack(d);
  }

  /** Sent to the responder's socket: the data is ahead of what is still to leave. */
  lemma AheadFlow(s: Setup, c: Channel, f: Endpoint, sent: seq<Packet>)
    requires Flow(s, c) && f.peerAddr != s.server
    requires Upstream(c.init) == DataPackets(sent) + Upstream(f) && Downstream(f) == Downstream(c.init)
    ensures Flow(s, c.(init := f, toResp := c.toResp + sent))
  {
    var d := c.(init := f, toResp := c.toResp + sent);
    var r := if c.resp.Some? then Downstream(c.resp.value) else [];
    DataPacketsAppend(c.toResp, sent);
    RegroupAhead(Wasted(c), r, DataPackets(c.toResp), DataPackets(sent), Upstream(f));
    assert d.fromInit == Wasted(d) + Ahead(d) + Upstream(d.init);
    assert FlowBack(d);
  }

  lemma FlushInitFlow(s: Setup, c: Channel)
    requires s.server != s.respSeen && Inv(s, c) && Flow(s, c)
    ensures Flow(s, Flushed(s, c, Initiator))
  {
    var (f, sent) := Drained(c.init);
    DrainMovesData(c.init);
    assert c.init.peerAddr == s.server || c.init.peerAddr == s.respSeen;
    FlushInitIs(s, c);
    if c.init.peerAddr == s.server {
      WasteFlow(s, c, f, sent);
    } else {
      AheadFlow(s, c, f, sent);
    }
  }

  lemma PingFlow(s: Setup, c: Channel, w: Who)
    requires Flow(s, c) && Present(c, w)
    ensures var e := At(c, w); Flow(s, Put(c, w, e.(sQ := e.sQ + [SendPing], pinged := true)))
  {
    var e := At(c, w);
    DataCmdsAppend(e.sQ, [SendPing], e.me.id);
    assert DataCmds([SendPing], e.me.id) == [];
    PutFlow(s, c, w, e.(sQ := e.sQ + [SendPing], pinged := true));
  }

  lemma LoopFlow(s: Setup, c: Channel, w: Who, now: real)
    requires s.server != s.respSeen && Inv(s, c) && Flow(s, c) && Welcome(c, w)
    ensures Flow(s, Looped(s, c, w, now))
  {
    LoopCases(s, c, w, now);
    var e := At(c, w);
    if TimesOut(s.cfg, e, now) {
      HaltFlow(s, c, w, TIMEOUT_TEXT);
    } else if PingsNow(s.cfg, e, now) {
      PingFlow(s, c, w);
    } else if w.Initiator? {
      FlushInitFlow(s, c);
    } else {
      FlushRespFlow(s, c);
    }
  }

  lemma CreatedEmpty(s: Setup, p: Packet, v: Verdict, now: real)
    requires !v.NotStarted?
    ensures var r := Created(s, p, v, now); Downstream(r) == [] && Upstream(r) == []
  {
    var r := Created(s, p, v, now);
    assert r.outbox == [] && r.inbox == [] && r.rQ == [] && r.taken == [];
    assert r.sQ == [r.sQ[0]] && !r.sQ[0].SendData?;
    assert DataCmds(r.sQ, r.me.id) == [];
  }

  lemma StartFlow(s: Setup, now: real)
    ensures Flow(s, Start(s, now))
  {
    assert DataCmds([SendHello(HELLO_TEXT)], s.init.id) == [];
  }

  lemma ServeFlow(s: Setup, c: Channel, v: Verdict, now: real)
    requires Inv(s, c) && Flow(s, c) && c.toServer != []
    ensures Flow(s, Served(s, c, v, now))
  {
    var p := c.toServer[0];
    var d := Served(s, c, v, now);
    Uncons(c.toServer);
    if d.resp == c.resp {
      DataPacketsAppend(c.refused, [p]);
      Regroup(DataPackets(c.refused), DataPackets([p]), DataPackets(d.toServer));
      assert Wasted(d) == Wasted(c);
    } else {
      assert DataPackets([p]) == [];
      assert Wasted(d) == Wasted(c);
      var r := d.resp.value;
      CreatedEmpty(s, p, v, now);
      assert Ahead(d) == Ahead(c);
    }
  }

  lemma StepFlow(s: Setup, c: Channel, ev: Event)
    requires s.server != s.respSeen && Inv(s, c) && Flow(s, c) && Enabled(s, c, ev)
    ensures Flow(s, Next(s, c, ev))
  {
    match ev
    case Begin(_) =>
    case AppSend(w, m) => AcceptFlow(s, c, w, m);
    case SendWorker(w) => PackFlow(s, c, w);
    case RecvWorker(w) => HandleFlow(s, c, w);
    case SendLoop(w, now) => LoopFlow(s, c, w, now);
    case Flush(Initiator) => FlushInitFlow(s, c);
    case Flush(Responder) => FlushRespFlow(s, c);
    case Receive(w, now) => HearFlow(s, c, w, now);
    case RecvLoop(w) => RecvLoopFlow(s, c, w);
    case Serve(v, now) => ServeFlow(s, c, v, now);
    case Halt(w, reason) => HaltFlow(s, c, w, reason);
    case Break(w) => PutFlow(s, c, w, Broken(At(c, w)));
    case Kill(w) => PutFlow(s, c, w, Killed(At(c, w)));
    case Unlist(w) => PutFlow(s, c, w, Unlisted(At(c, w)));
  }

  lemma {:induction false} RunFlow(s: Setup, c: Channel, evs: seq<Event>)
    requires s.server != s.respSeen && Inv(s, c) && Flow(s, c) && CanRun(s, c, evs)
    ensures Flow(s, Run(s, c, evs))
    decreases |evs|
  {
    if evs != [] {
      StepInv(s, c, evs[0]);
      StepFlow(s, c, evs[0]);
      RunFlow(s, Next(s, c, evs[0]), evs[1..]);
    }
  }

  // ---- The refinement -------------------------------------------------------------

  /** From the responder nothing is ever lost or reordered. From the initiator, what is
      lost is exactly what its send loop emitted to the server socket, a prefix. */
  lemma FifoRefinement(s: Setup, now: real, evs: seq<Event>)
    requires s.server != s.respSeen && CanRun(s, Start(s, now), evs)
    ensures
      var c := Run(s, Start(s, now), evs);
      var back := DataPackets(c.toInit) + if c.resp.Some? then Upstream(c.resp.value) else [];
      && c.fromResp == c.init.taken + DataReports(c.init.rQ) + DataPackets(c.init.inbox) + back
      && c.fromInit == Wasted(c) + Ahead(c) + Upstream(c.init)
      && (c.init.peerAddr == s.server ==> Ahead(c) == [])
  {
    StartInv(s, now);
    StartFlow(s, now);
    RunFlow(s, Start(s, now), evs);
    var c := Run(s, Start(s, now), evs);
    if c.resp.Some? {
      Regroup(Downstream(c.init), DataPackets(c.toInit), Upstream(c.resp.value));
    }
  }

  /** Once the initiator has heard from the responder, its loss is final. */
  lemma {:induction false} LossIsOver(s: Setup, c: Channel, evs: seq<Event>)
    requires s.server != s.respSeen && Inv(s, c) && CanRun(s, c, evs)
    requires c.init.peerAddr != s.server
    ensures var d := Run(s, c, evs); Wasted(d) == Wasted(c) && d.init.peerAddr != s.server
    decreases |evs|
  {
    if evs != [] {
      StepInv(s, c, evs[0]);
      LossStep(s, c, evs[0]);
      LossIsOver(s, Next(s, c, evs[0]), evs[1..]);
    }
  }

  lemma LossStep(s: Setup, c: Channel, ev: Event)
    requires s.server != s.respSeen && Inv(s, c) && Enabled(s, c, ev) && c.init.peerAddr != s.server
    ensures var d := Next(s, c, ev); Wasted(d) == Wasted(c) && d.init.peerAddr != s.server
  {
    match ev
    case SendLoop(Initiator, now) =>
      LoopCases(s, c, Initiator, now);
      FlushInitIs(s, c);
    case SendLoop(Responder, now) =>
      LoopCases(s, c, Responder, now);
    case Flush(Initiator) => FlushInitIs(s, c);
    case Serve(v, now) => ServeWastes(s, c, v, now);
    case SendWorker(w) => SendWorkerKeepsData(At(c, w));
    case RecvLoop(w) => RecvLoopKeepsData(At(c, w));
    case _ =>
  }

  lemma ServeWastes(s: Setup, c: Channel, v: Verdict, now: real)
    requires c.toServer != [] && c.resp.Some?
    ensures Wasted(Served(s, c, v, now)) == Wasted(c)
  {
    var p := c.toServer[0];
    Uncons(c.toServer);
    DataPacketsAppend(c.refused, [p]);
    Regroup(DataPackets(c.refused), DataPackets([p]), DataPackets(c.toServer[1..]));
  }

  // ---- The receive queues of the application -------------------------------------

  /** Each receive queue of the initiator holds, in order and without gaps, the first of
      the messages for that queue that the responder accepted; likewise the responder's,
      over what the initiator accepted after its loss. */
  lemma QueuesArePrefixes(s: Setup, now: real, evs: seq<Event>, n: nat, k: nat)
    requires s.server != s.respSeen && CanRun(s, Start(s, now), evs)
    ensures
      var c := Run(s, Start(s, now), evs);
      && Routed(c.init.taken, n, k) <= Routed(c.fromResp, n, k)
      && |Wasted(c)| <= |c.fromInit|
      && (c.resp.Some? ==> Routed(c.resp.value.taken, n, k) <= Routed(c.fromInit[|Wasted(c)|..], n, k))
  {
    FifoRefinement(s, now, evs);
    var c := Run(s, Start(s, now), evs);
    PrefixRouted(c.init.taken, c.fromResp, n, k);
    if c.resp.Some? {
      RoutedOut(c, n, k);
    }
  }

  lemma RoutedOut(c: Channel, n: nat, k: nat)
    requires c.resp.Some? && c.fromInit == Wasted(c) + Ahead(c) + Upstream(c.init)
    ensures Routed(c.resp.value.taken, n, k) <= Routed(c.fromInit[|Wasted(c)|..], n, k)
  {
    var kept := Ahead(c) + Upstream(c.init);
    Regroup(Wasted(c), Ahead(c), Upstream(c.init));
    assert c.fromInit[|Wasted(c)|..] == kept;
    PrefixRouted(c.resp.value.taken, kept, n, k);
  }

  lemma PrefixRouted(a: seq<Delivery>, b: seq<Delivery>, n: nat, k: nat)
    requires a <= b
    ensures Routed(a, n, k) <= Routed(b, n, k)
  {
    RoutedAppend(a, b[|a|..], n, k);
    assert b == a + b[|a|..];
  }
}
