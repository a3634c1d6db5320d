/** What the handshake keeps in every run over ordered links. */
module Handshake {
  import opened Wire
  import opened Endpoints
  import opened Channels

  predicate NoBad(rs: seq<Report>) {
    forall r | r in rs :: !(r.Lost? && r.kind.BadPeer?)
  }

  predicate NoGreeting(ps: seq<Packet>) {
    forall p | p in ps :: !p.body.Hello? && !p.body.Confirm? && !p.body.Unknown?
  }

  predicate NoGreetingCmd(cs: seq<Cmd>) {
    forall c | c in cs :: !c.SendHello? && !c.SendConfirm?
  }

  /** The first packet is the confirm and no other packet greets. */
  predicate ConfirmFirst(ps: seq<Packet>) {
    ps != [] && ps[0].body.Confirm? && NoGreeting(ps[1..])
  }

  /** The hello, while it exists, is the oldest thing on its way to the server. */
  predicate HelloFirst(e: Endpoint, toServer: seq<Packet>) {
    var way := toServer + e.vipbox;
    if e.sQ != [] && e.sQ[0].SendHello? then
      NoGreetingCmd(e.sQ[1..]) && way == [] && e.outbox == []
    else
      NoGreetingCmd(e.sQ) && (way != [] ==> !way[0].body.Confirm? && !way[0].body.Unknown? && NoGreeting(way[1..]))
  }

  /** Nothing has come back yet: the initiator still talks to the server socket. */
  predicate Unheard(s: Setup, e: Endpoint) {
    e.peerAddr == s.server && !e.latched && e.inbox == []
  }

  /** Packets on their way from the responder's priority box to the initiator's latch. */
  function Back(c: Channel): seq<Packet>
    requires c.resp.Some?
  {
    c.init.inbox + c.toInit + c.resp.value.vipbox
  }

  predicate Waiting(s: Setup, c: Channel) {
    && c.resp.None? && !c.admitted && c.confirms == 0
    && Unheard(s, c.init) && c.toInit == [] && c.toResp == []
    && HelloFirst(c.init, c.toServer)
  }

  predicate InitGreeted(s: Setup, c: Channel) {
    && NoGreetingCmd(c.init.sQ)
    && NoGreeting(c.init.vipbox)
    && (c.init.peerAddr == s.server || c.init.peerAddr == s.respSeen)
    && NoGreeting(c.toServer)
    && NoGreeting(c.toResp)
  }

  predicate Admitted(s: Setup, c: Channel)
    requires c.resp.Some?
  {
    var r := c.resp.value;
    && c.admitted && InitGreeted(s, c)
    && r.peerAddr == s.initSeen && r.me == s.resp
    && NoGreeting(r.inbox)
    && (r.latched ==> NoGreetingCmd(r.sQ))
    && (!r.latched ==>
          && r.sQ != [] && r.sQ[0].SendConfirm? && NoGreetingCmd(r.sQ[1..])
          && Back(c) == [] && r.outbox == []
          && Unheard(s, c.init) && c.toResp == [] && r.inbox == [])
    && c.confirms == (if r.latched then 1 else 0)
    && (c.init.latched ==> r.latched && NoGreeting(Back(c)) && c.init.peerAddr == s.respSeen)
    && (!c.init.latched && r.latched ==> ConfirmFirst(Back(c)))
    && (c.init.inbox != [] ==> c.init.peerAddr == s.respSeen)
    && NoBad(r.rQ)
  }

  /** A refused peer never says anything, so the initiator goes on waiting. */
  predicate Refused(s: Setup, c: Channel)
    requires c.resp.Some?
  {
    var r := c.resp.value;
    && !c.admitted && InitGreeted(s, c)
    && !r.latched && r.stopped && r.vipbox == [] && r.outbox == [] && r.inbox == [] && r.rQ == []
    && Unheard(s, c.init) && c.toInit == [] && c.toResp == []
    && c.confirms == 0
  }

  /** An initiator, or a responder that was not refused. */
  predicate Welcome(c: Channel, w: Who) {
    Present(c, w) && (w.Responder? ==> c.admitted)
  }

  predicate Inv(s: Setup, c: Channel) {
    && (Responder in c.begun ==> Welcome(c, Responder))
    && s.server != s.respSeen
    && Boxed(c.init) && c.init.me == s.init
    && (c.resp.Some? ==> Boxed(c.resp.value))
    && NoBad(c.init.rQ)
    && (if c.resp.None? then Waiting(s, c)
        else if c.admitted then Admitted(s, c)
        else Refused(s, c))
  }

  lemma StartInv(s: Setup, now: real)
    requires s.server != s.respSeen
    ensures Inv(s, Start(s, now))
  {
  }

  /** Only these parts of an endpoint matter to the handshake. */
  predicate Alike(e: Endpoint, f: Endpoint) {
    && f.me == e.me && f.peerAddr == e.peerAddr && f.latched == e.latched
    && f.sQ == e.sQ && f.vipbox == e.vipbox && f.outbox == e.outbox && f.inbox == e.inbox
  }

  lemma AlikeInv(s: Setup, c: Channel, w: Who, f: Endpoint)
    requires Inv(s, c) && Present(c, w) && Alike(At(c, w), f) && NoBad(f.rQ)
    requires Welcome(c, w)
    ensures Inv(s, Put(c, w, f))
  {
    var d := Put(c, w, f);
    if c.resp.Some? {
      assert Back(d) == Back(c);
      if c.admitted {
        assert Admitted(s, d);
      } else {
        assert Refused(s, d);
      }
    } else {
      assert Waiting(s, d);
    }
  }

  /** Queueing commands that greet nobody. */
  lemma QueuedInv(s: Setup, c: Channel, w: Who, cs: seq<Cmd>)
    requires Inv(s, c) && Present(c, w) && NoGreetingCmd(cs)
    requires Welcome(c, w)
    ensures var e := At(c, w); Inv(s, Put(c, w, e.(sQ := e.sQ + cs)))
  {
    var e := At(c, w);
    var d := Put(c, w, e.(sQ := e.sQ + cs));
    if c.resp.Some? {
      assert Back(d) == Back(c);
      if c.admitted {
        if e.sQ != [] {
          assert (e.sQ + cs)[1..] == e.sQ[1..] + cs;
        }
        assert Admitted(s, d);
      } else {
        assert Refused(s, d);
      }
    } else {
      if e.sQ != [] {
        assert (e.sQ + cs)[1..] == e.sQ[1..] + cs;
      }
      assert Waiting(s, d);
    }
  }

  /** What the handshake does not look at. */
  lemma LogsInv(s: Setup, c: Channel, a: seq<Delivery>, b: seq<Delivery>)
    requires Inv(s, c)
    ensures Inv(s, c.(fromInit := a, fromResp := b))
  {
    var d := c.(fromInit := a, fromResp := b);
    if c.resp.Some? {
      assert Back(d) == Back(c);
    }
  }

  /** What else may happen to a refused peer: it is sent messages, stopped again, removed. */
  lemma RefusedPut(s: Setup, c: Channel, f: Endpoint)
    requires Inv(s, c) && c.resp.Some? && !c.admitted
    requires var r := c.resp.value; f == r.(sQ := f.sQ, listed := f.listed, receiving := f.receiving)
    ensures Inv(s, Put(c, Responder, f))
  {
    assert Refused(s, Put(c, Responder, f));
  }

  lemma AppSendInv(s: Setup, c: Channel, w: Who, m: Message)
    requires Inv(s, c) && Present(c, w) && At(c, w).listed
    ensures Inv(s, Accepted(c, w, m))
  {
    var d := Accepted(c, w, m);
    if Welcome(c, w) {
      QueuedInv(s, c, w, [SendData(m)]);
    } else {
      RefusedPut(s, c, AfterAppSend(At(c, w), m));
    }
    LogsInv(s, Put(c, w, AfterAppSend(At(c, w), m)), d.fromInit, d.fromResp);
  }

  lemma HaltInv(s: Setup, c: Channel, w: Who, reason: string)
    requires Inv(s, c) && Present(c, w)
    ensures Inv(s, Put(c, w, Halted(At(c, w), reason)))
  {
    var e := At(c, w);
    if Welcome(c, w) {
      QueuedInv(s, c, w, [SendDisconnect(reason)]);
      AlikeInv(s, Put(c, w, e.(sQ := e.sQ + [SendDisconnect(reason)])), w, Halted(e, reason));
    } else {
      RefusedPut(s, c, Halted(e, reason));
    }
  }

  lemma RecvLoopAlike(e: Endpoint)
    requires e.rQ != [] && NoBad(e.rQ)
    ensures Alike(e, AfterRecvLoop(e)) && NoBad(AfterRecvLoop(e).rQ)
  {
    match e.rQ[0]
    case Checked =>
    case Lost(_, _) =>
    case Arrived(_) =>
  }

  lemma RecvLoopInv(s: Setup, c: Channel, w: Who)
    requires Inv(s, c) && Welcome(c, w) && At(c, w).rQ != []
    ensures Inv(s, Put(c, w, AfterRecvLoop(At(c, w))))
  {
    var e := At(c, w);
    RecvLoopAlike(e);
    AlikeInv(s, c, w, AfterRecvLoop(e));
  }

  // ---- send_worker ------------------------------------------------------------

  /** Packing a command that greets nobody. */
  lemma PackQuiet(e: Endpoint)
    requires e.sQ != [] && !e.sQ[0].SendHello? && !e.sQ[0].SendConfirm?
    ensures var f := AfterSendWorker(e);
            && f.sQ == e.sQ[1..] && f.latched == e.latched
            && e.vipbox <= f.vipbox && NoGreeting(f.vipbox[|e.vipbox|..])
            && f == e.(sQ := f.sQ, vipbox := f.vipbox, outbox := f.outbox)
  {
    match e.sQ[0]
    case SendDisconnect(_) =>
    case SendPing =>
    case SendPong =>
    case SendData(_) =>
    case UnknownCmd(_) =>
    case _ =>
  }

  /** Once a responder exists, the initiator's send side may do anything but greet. */
  lemma SendSideInv(s: Setup, c: Channel, f: Endpoint)
    requires Inv(s, c) && c.resp.Some?
    requires f == c.init.(sQ := f.sQ, vipbox := f.vipbox, outbox := f.outbox)
    requires Boxed(f) && NoGreetingCmd(f.sQ) && NoGreeting(f.vipbox)
    ensures Inv(s, c.(init := f))
  {
    var d := c.(init := f);
    assert Back(d) == Back(c);
    if c.admitted {
      assert Admitted(s, d);
    } else {
      assert Refused(s, d);
    }
  }

  lemma PackStaysQuiet(e: Endpoint)
    requires e.sQ != [] && NoGreetingCmd(e.sQ) && NoGreeting(e.vipbox)
    ensures var f := AfterSendWorker(e);
            && f == e.(sQ := f.sQ, vipbox := f.vipbox, outbox := f.outbox)
            && NoGreetingCmd(f.sQ) && NoGreeting(f.vipbox)
  {
    assert e.sQ[0] in e.sQ;
    PackQuiet(e);
    var f := AfterSendWorker(e);
    assert f.vipbox == e.vipbox + f.vipbox[|e.vipbox|..];
  }

  lemma PackInitInv(s: Setup, c: Channel)
    requires Inv(s, c) && c.init.sQ != []
    ensures Inv(s, Packed(c, Initiator))
  {
    SendWorkerKeepsBoxed(c.init);
    if c.resp.None? {
      PackInitWaiting(s, c);
    } else {
      var f := AfterSendWorker(c.init);
      PackStaysQuiet(c.init);
      SendSideInv(s, c, f);
      assert Packed(c, Initiator).confirms == c.confirms by {
        assert c.init.sQ[0] in c.init.sQ;
      }
    }
  }

  lemma PackHello(e: Endpoint)
    requires e.sQ != [] && e.sQ[0].SendHello?
    ensures AfterSendWorker(e) == e.(sQ := e.sQ[1..], vipbox := e.vipbox + [Packet(e.me, Hello(e.sQ[0].text))])
  {
  }

  lemma PackInitWaiting(s: Setup, c: Channel)
    requires c.resp.None? && Waiting(s, c) && c.init.sQ != []
    ensures Waiting(s, Packed(c, Initiator))
  {
    var e := c.init;
    var f := AfterSendWorker(e);
    if e.sQ[0].SendHello? {
      PackHello(e);
      assert c.toServer == [] && e.vipbox == [];
      assert c.toServer + f.vipbox == [Packet(e.me, Hello(e.sQ[0].text))];
      assert HelloFirst(f, c.toServer);
    } else {
      PackQuiet(e);
      LongerWay(c.toServer, e.vipbox, f.vipbox);
      assert HelloFirst(f, c.toServer);
    }
  }

  lemma LongerWay(a: seq<Packet>, v: seq<Packet>, v': seq<Packet>)
    requires v <= v' && NoGreeting(v'[|v|..])
    requires a + v != [] ==> !(a + v)[0].body.Confirm? && !(a + v)[0].body.Unknown? && NoGreeting((a + v)[1..])
    ensures a + v' != [] ==> !(a + v')[0].body.Confirm? && !(a + v')[0].body.Unknown? && NoGreeting((a + v')[1..])
  {
    assert a + v' == (a + v) + v'[|v|..];
    if a + v != [] {
      assert (a + v')[1..] == (a + v)[1..] + v'[|v|..];
    }
  }

  lemma PackConfirmInv(s: Setup, c: Channel)
    requires c.resp.Some? && Admitted(s, c) && c.resp.value.sQ != [] && c.resp.value.sQ[0].SendConfirm?
    ensures Admitted(s, Packed(c, Responder))
  {
    var e := c.resp.value;
    var d := Packed(c, Responder);
    assert e.sQ[0] in e.sQ;
    assert !e.latched && Back(c) == [];
    assert Back(d) == [Packet(e.me, Confirm(e.sQ[0].text))];
  }

  lemma PackQuietBack(c: Channel)
    requires c.resp.Some? && c.resp.value.sQ != []
    requires !c.resp.value.sQ[0].SendHello? && !c.resp.value.sQ[0].SendConfirm?
    ensures var d := Packed(c, Responder);
            && (NoGreeting(Back(c)) ==> NoGreeting(Back(d)))
            && (ConfirmFirst(Back(c)) ==> ConfirmFirst(Back(d)))
  {
    var e := c.resp.value;
    var f := AfterSendWorker(e);
    PackQuiet(e);
    var more := f.vipbox[|e.vipbox|..];
    assert f.vipbox == e.vipbox + more;
    assert Back(Packed(c, Responder)) == Back(c) + more;
    MoreBehind(Back(c), more);
  }

  lemma MoreBehind(way: seq<Packet>, more: seq<Packet>)
    requires NoGreeting(more)
    ensures (NoGreeting(way) ==> NoGreeting(way + more)) && (ConfirmFirst(way) ==> ConfirmFirst(way + more))
  {
    if way != [] {
      assert (way + more)[1..] == way[1..] + more;
    }
  }

  lemma PackRespInv(s: Setup, c: Channel)
    requires Inv(s, c) && Welcome(c, Responder) && c.resp.value.sQ != []
    ensures Inv(s, Packed(c, Responder))
  {
    var e := c.resp.value;
    var d := Packed(c, Responder);
    SendWorkerKeepsBoxed(e);
    assert e.sQ[0] in e.sQ;
    if e.sQ[0].SendConfirm? {
      PackConfirmInv(s, c);
    } else {
      PackQuiet(e);
      PackQuietBack(c);
      assert Admitted(s, d);
    }
  }

  // ---- recv_worker ------------------------------------------------------------

  /** A latched end has no complaint about a packet that does not greet. */
  lemma ReactLatched(p: Packet)
    requires !p.body.Hello? && !p.body.Confirm? && !p.body.Unknown?
    ensures var r := React(true, p); r.latched && NoGreetingCmd(r.cmds) && NoBad(r.reports)
  {
  }

  lemma HandleInitInv(s: Setup, c: Channel)
    requires Inv(s, c) && c.init.inbox != []
    ensures Inv(s, Put(c, Initiator, AfterRecvWorker(c.init)))
  {
    var e := c.init;
    var d := Put(c, Initiator, AfterRecvWorker(e));
    assert c.resp.Some?;
    assert Back(d) == Back(c)[1..];
    assert e.inbox[0] == Back(c)[0];
    if e.latched {
      assert e.inbox[0] in Back(c);
      ReactLatched(e.inbox[0]);
    }
    assert Admitted(s, d);
  }

  lemma HandleRespInv(s: Setup, c: Channel)
    requires Inv(s, c) && Welcome(c, Responder) && c.resp.value.inbox != []
    ensures Inv(s, Put(c, Responder, AfterRecvWorker(c.resp.value)))
  {
    var e := c.resp.value;
    var d := Put(c, Responder, AfterRecvWorker(e));
    assert Back(d) == Back(c);
    assert e.latched;
    assert e.inbox[0] in e.inbox;
    ReactLatched(e.inbox[0]);
    RecvWorkerKeepsBoxed(e);
    var r := React(true, e.inbox[0]);
    QueuedGreeting(e.sQ, r.cmds);
    QueuedNoBad(e.rQ, r.reports);
    assert NoGreeting(e.inbox[1..]);
    assert Admitted(s, d);
  }

  lemma QueuedGreeting(a: seq<Cmd>, b: seq<Cmd>)
    requires NoGreetingCmd(a) && NoGreetingCmd(b)
    ensures NoGreetingCmd(a + b)
  {
  }

  lemma QueuedNoBad(a: seq<Report>, b: seq<Report>)
    requires NoBad(a) && NoBad(b)
    ensures NoBad(a + b)
  {
  }

  lemma RecvWorkerKeepsBoxed(e: Endpoint)
    requires e.inbox != [] && Boxed(e)
    ensures Boxed(AfterRecvWorker(e))
  {
  }

  // ---- the socket -----------------------------------------------------------

  lemma HearInitInv(s: Setup, c: Channel, now: real)
    requires Inv(s, c) && c.toInit != []
    ensures Inv(s, Heard(s, c, Initiator, now))
  {
    var d := Heard(s, c, Initiator, now);
    assert c.resp.Some?;
    assert Back(d) == Back(c);
    assert Admitted(s, d);
  }

  lemma HearRespInv(s: Setup, c: Channel, now: real)
    requires Inv(s, c) && Welcome(c, Responder) && c.toResp != []
    ensures Inv(s, Heard(s, c, Responder, now))
  {
    var d := Heard(s, c, Responder, now);
    assert Back(d) == Back(c);
    assert Admitted(s, d);
  }

  // ---- send_loop ------------------------------------------------------------

  lemma Inserted<T>(a: seq<T>, x: T, b: seq<T>)
    requires a + b != []
    ensures a != [] ==> (a + [x] + b)[0] == (a + b)[0] && (forall y | y in (a + [x] + b)[1..] :: y == x || y in (a + b)[1..])
  {
    if a != [] {
      assert (a + [x] + b)[1..] == a[1..] + [x] + b;
      assert (a + b)[1..] == a[1..] + b;
    }
  }

  /** A data packet that leaves is the only newcomer on the way, and is never put first. */
  lemma DrainedWay(a: seq<Packet>, e: Endpoint)
    ensures
      var (f, sent) := Drained(e);
      var way, way' := a + e.vipbox, a + sent + f.vipbox;
      && (way == [] ==> way' <= e.outbox)
      && (way != [] ==> way' != [] && way'[0] == way[0])
      && (way != [] ==> forall p | p in way'[1..] :: p in e.outbox || p in way[1..])
  {
    var (f, sent) := Drained(e);
    var front := if e.vipbox != [] then a + [e.vipbox[0]] else a;
    assert a + e.vipbox == front + f.vipbox;
    if e.outbox != [] {
      assert a + sent + f.vipbox == front + [e.outbox[0]] + f.vipbox;
      if front + f.vipbox != [] {
        Inserted(front, e.outbox[0], f.vipbox);
      } else {
        assert e.outbox[..1] == [e.outbox[0]];
      }
    } else {
      assert a + sent + f.vipbox == front + f.vipbox;
    }
  }

  lemma DrainKeepsQuiet(e: Endpoint)
    requires Boxed(e)
    ensures var (f, sent) := Drained(e); NoGreeting(e.vipbox) ==> NoGreeting(f.vipbox) && NoGreeting(sent)
  {
  }

  lemma FlushInitInv(s: Setup, c: Channel)
    requires Inv(s, c)
    ensures Inv(s, Flushed(s, c, Initiator))
  {
    var e := c.init;
    var (f, sent) := Drained(e);
    var d := Flushed(s, c, Initiator);
    DrainKeepsBoxed(e);
    DrainKeepsQuiet(e);
    if c.resp.None? {
      FlushWaiting(s, c);
    } else {
      assert Back(d) == Back(c);
      if c.admitted {
        assert Admitted(s, d);
      } else {
        assert Refused(s, d);
      }
    }
  }

  lemma FlushWaiting(s: Setup, c: Channel)
    requires Inv(s, c) && c.resp.None?
    ensures Waiting(s, Flushed(s, c, Initiator))
  {
    var (f, sent) := Drained(c.init);
    HelloStaysFirst(c.init, c.toServer);
    assert Flushed(s, c, Initiator) == c.(init := f, toServer := c.toServer + sent);
  }

  lemma HelloStaysFirst(e: Endpoint, toServer: seq<Packet>)
    requires Boxed(e) && HelloFirst(e, toServer)
    ensures var (f, sent) := Drained(e); HelloFirst(f, toServer + sent)
  {
    DrainedWay(toServer, e);
  }

  lemma DrainedGreeting(a: seq<Packet>, e: Endpoint)
    requires forall p | p in e.outbox :: p.body.Data?
    ensures
      var (f, sent) := Drained(e);
      var way, way' := a + e.vipbox, a + sent + f.vipbox;
      && (way == [] && e.outbox == [] ==> way' == [])
      && (NoGreeting(way) ==> NoGreeting(way'))
      && (ConfirmFirst(way) ==> ConfirmFirst(way'))
      && (e.outbox == [] ==> forall p | p in way' :: p in way)
  {
    DrainedWay(a, e);
    var (f, sent) := Drained(e);
    var way, way' := a + e.vipbox, a + sent + f.vipbox;
    if way != [] {
      assert way == [way[0]] + way[1..];
      assert way' == [way[0]] + way'[1..];
    }
  }

  lemma FlushRespIs(s: Setup, c: Channel)
    requires c.resp.Some? && c.resp.value.peerAddr == s.initSeen
    ensures var (f, sent) := Drained(c.resp.value);
            && Flushed(s, c, Responder) == c.(resp := Some(f), toInit := c.toInit + sent)
            && Back(Flushed(s, c, Responder)) == (c.init.inbox + c.toInit) + sent + f.vipbox
  {
    var (f, sent) := Drained(c.resp.value);
    var d := Flushed(s, c, Responder);
    assert d.init.inbox + d.toInit == (c.init.inbox + c.toInit) + sent;
  }

  lemma FlushRespInv(s: Setup, c: Channel)
    requires Inv(s, c) && Welcome(c, Responder)
    ensures Inv(s, Flushed(s, c, Responder))
  {
    var d := Flushed(s, c, Responder);
    DrainKeepsBoxed(c.resp.value);
    FlushRespIs(s, c);
    DrainedGreeting(c.init.inbox + c.toInit, c.resp.value);
    assert Admitted(s, d);
  }

  lemma PingInv(s: Setup, c: Channel, w: Who)
    requires Inv(s, c) && Welcome(c, w)
    ensures var e := At(c, w); Inv(s, Put(c, w, e.(sQ := e.sQ + [SendPing], pinged := true)))
  {
    var e := At(c, w);
    QueuedInv(s, c, w, [SendPing]);
    AlikeInv(s, Put(c, w, e.(sQ := e.sQ + [SendPing])), w, e.(sQ := e.sQ + [SendPing], pinged := true));
  }

  lemma LoopCases(s: Setup, c: Channel, w: Who, now: real)
    requires Present(c, w)
    ensures var e := At(c, w);
            Looped(s, c, w, now) ==
              if TimesOut(s.cfg, e, now) then Put(c, w, Halted(e, TIMEOUT_TEXT))
              else if PingsNow(s.cfg, e, now) then Put(c, w, e.(sQ := e.sQ + [SendPing], pinged := true))
              else Flushed(s, c, w)
  {
    var e := At(c, w);
    if !Drains(s.cfg, e, now) {
      var (f, sent) := AfterSendLoop(s.cfg, e, now);
      assert sent == [] && f.peerAddr == e.peerAddr;
      var d := Put(c, w, f);
      assert d.toServer + sent == d.toServer && d.toInit + sent == d.toInit && d.toResp + sent == d.toResp;
    }
  }

  lemma LoopInv(s: Setup, c: Channel, w: Who, now: real)
    requires Inv(s, c) && Welcome(c, w) && !At(c, w).stopped
    ensures Inv(s, Looped(s, c, w, now))
  {
    LoopCases(s, c, w, now);
    if TimesOut(s.cfg, At(c, w), now) {
      HaltInv(s, c, w, TIMEOUT_TEXT);
    } else if PingsNow(s.cfg, At(c, w), now) {
      PingInv(s, c, w);
    } else if w.Initiator? {
      FlushInitInv(s, c);
    } else {
      FlushRespInv(s, c);
    }
  }

  // ---- the server socket ------------------------------------------------------

  lemma ServeInv(s: Setup, c: Channel, v: Verdict, now: real)
    requires Inv(s, c) && c.toServer != []
    ensures Inv(s, Served(s, c, v, now))
  {
    var p := c.toServer[0];
    var d := Served(s, c, v, now);
    if c.resp.Some? {
      assert Back(d) == Back(c);
    } else {
      var way := c.toServer + c.init.vipbox;
      assert way[1..] == d.toServer + c.init.vipbox;
      assert way[0] == p;
      if d.resp.Some? {
        assert c.init.sQ == [] || !c.init.sQ[0].SendHello?;
        assert Back(d) == [];
      }
    }
  }

  // ---- every run ------------------------------------------------------------

  lemma StepInv(s: Setup, c: Channel, ev: Event)
    requires Inv(s, c) && Enabled(s, c, ev)
    ensures Inv(s, Next(s, c, ev))
  {
    match ev
    case Begin(w) => BeginInv(s, c, w);
    case AppSend(w, m) => AppSendInv(s, c, w, m);
    case SendWorker(Initiator) => PackInitInv(s, c);
    case SendWorker(Responder) => PackRespInv(s, c);
    case RecvWorker(Initiator) => HandleInitInv(s, c);
    case RecvWorker(Responder) => HandleRespInv(s, c);
    case SendLoop(w, now) => LoopInv(s, c, w, now);
    case Flush(Initiator) => FlushInitInv(s, c);
    case Flush(Responder) => FlushRespInv(s, c);
    case Receive(Initiator, now) => HearInitInv(s, c, now);
    case Receive(Responder, now) => HearRespInv(s, c, now);
    case RecvLoop(w) => RecvLoopInv(s, c, w);
    case Serve(v, now) => ServeInv(s, c, v, now);
    case Halt(w, reason) => HaltInv(s, c, w, reason);
    case Break(w) => LeaveInv(s, c, w, Broken(At(c, w)));
    case Kill(w) => LeaveInv(s, c, w, Killed(At(c, w)));
    case Unlist(w) => LeaveInv(s, c, w, Unlisted(At(c, w)));
  }

  /** A refused peer was stopped when it was made, so its loops do not begin. */
  lemma BeginInv(s: Setup, c: Channel, w: Who)
    requires Inv(s, c) && Present(c, w) && !At(c, w).stopped
    ensures Inv(s, c.(begun := c.begun + {w}))
  {
    var d := c.(begun := c.begun + {w});
    if c.resp.Some? {
      assert Back(d) == Back(c);
    }
  }

  lemma LeaveInv(s: Setup, c: Channel, w: Who, f: Endpoint)
    requires Inv(s, c) && Present(c, w)
    requires var e := At(c, w); f == e.(stopped := e.stopped || f.stopped, listed := f.listed, receiving := f.receiving)
    ensures Inv(s, Put(c, w, f))
  {
    if Welcome(c, w) {
      AlikeInv(s, c, w, f);
    } else {
      RefusedPut(s, c, f);
    }
  }

  lemma {:induction false} RunInv(s: Setup, c: Channel, evs: seq<Event>)
    requires Inv(s, c) && CanRun(s, c, evs)
    ensures Inv(s, Run(s, c, evs))
    decreases |evs|
  {
    if evs != [] {
      StepInv(s, c, evs[0]);
      RunInv(s, Next(s, c, evs[0]), evs[1..]);
    }
  }

  // ---- What it means ----------------------------------------------------------

  /** In every reachable state: no end has queued a complaint about the other; one confirm
      at most was ever made; and an initiator that is latched talks to the socket of a
      responder that is latched too. */
  lemma HandshakeAgreement(s: Setup, now: real, evs: seq<Event>)
    requires s.server != s.respSeen && CanRun(s, Start(s, now), evs)
    ensures
      var c := Run(s, Start(s, now), evs);
      && NoBad(c.init.rQ) && (c.resp.Some? ==> NoBad(c.resp.value.rQ))
      && c.confirms <= 1
      && (c.init.latched ==> c.resp.Some? && c.admitted && c.resp.value.latched && c.confirms == 1
                             && c.init.peerAddr == s.respSeen && c.resp.value.peerAddr == s.initSeen)
  {
    StartInv(s, now);
    RunInv(s, Start(s, now), evs);
  }

  /** Until the initiator is latched, the oldest thing anywhere on its way to it, from the
      responder's queue of commands on, is the one confirm, as a command or a packet, and
      nothing else on that way greets. From a responder that refused it nothing ever comes. */
  lemma ConfirmLeads(s: Setup, now: real, evs: seq<Event>)
    requires s.server != s.respSeen && CanRun(s, Start(s, now), evs)
    ensures
      var c := Run(s, Start(s, now), evs);
      !c.init.latched ==>
        if c.resp.None? then c.init.inbox + c.toInit == []
        else
          var r := c.resp.value;
          if !c.admitted then c.init.inbox + c.toInit + r.vipbox + r.outbox == [] && !r.latched
          else if r.latched then ConfirmFirst(Back(c)) && NoGreetingCmd(r.sQ)
          else Back(c) + r.outbox == [] && r.sQ != [] && r.sQ[0].SendConfirm? && NoGreetingCmd(r.sQ[1..])
  {
    StartInv(s, now);
    RunInv(s, Start(s, now), evs);
  }

  /** An endpoint none of whose loops has done anything; it may have been given commands. */
  predicate Idle(e: Endpoint, f: Endpoint) {
    && f.stopped && e.sQ <= f.sQ && f.vipbox == e.vipbox && f.outbox == e.outbox && f.inbox == e.inbox && f.rQ == e.rQ
    && f.latched == e.latched && f.peerAddr == e.peerAddr && f.taken == e.taken
  }

  /** What is on its way from an end. */
  function OnTheWay(c: Channel, w: Who): multiset<Packet> {
    if w.Initiator? then multiset(c.toServer) + multiset(c.toResp) else multiset(c.toInit)
  }

  /** Nothing has happened to one end: its loops have not begun, nothing was sent from it. */
  predicate Unmoved(c: Channel, d: Channel, w: Who)
    requires Present(c, w)
  {
    Present(d, w) && (w in d.begun ==> w in c.begun) && Idle(At(c, w), At(d, w)) && OnTheWay(d, w) <= OnTheWay(c, w)
  }

  lemma OtherSends(s: Setup, c: Channel, w: Who, v: Who)
    requires Present(c, w) && Present(c, v) && v != w && At(c, w).stopped
    ensures Unmoved(c, Flushed(s, c, v), w)
  {
    var (e, sent) := Drained(At(c, v));
    var d := Put(c, v, e);
    assert At(d, w) == At(c, w) && OnTheWay(d, w) == OnTheWay(c, w);
  }

  lemma OtherLoops(s: Setup, c: Channel, w: Who, v: Who, now: real)
    requires Present(c, w) && Present(c, v) && v != w && At(c, w).stopped
    ensures Unmoved(c, Looped(s, c, v, now), w)
  {
    LoopCases(s, c, v, now);
    OtherSends(s, c, w, v);
  }

  lemma OtherHears(s: Setup, c: Channel, w: Who, v: Who, now: real)
    requires Present(c, w) && Present(c, v) && v != w && At(c, w).stopped && Link(c, v) != []
    ensures Unmoved(c, Heard(s, c, v, now), w)
  {
    assert Link(c, v) == [Link(c, v)[0]] + Link(c, v)[1..];
  }

  lemma ServerServes(s: Setup, c: Channel, w: Who, v: Verdict, now: real)
    requires Present(c, w) && At(c, w).stopped && c.toServer != []
    ensures Unmoved(c, Served(s, c, v, now), w)
  {
    assert c.toServer == [c.toServer[0]] + c.toServer[1..];
  }

  lemma PutElsewhere(c: Channel, w: Who, v: Who, f: Endpoint)
    requires Present(c, w) && Present(c, v) && At(c, w).stopped && (v == w ==> Idle(At(c, w), f))
    ensures Unmoved(c, Put(c, v, f), w)
  {
  }

  lemma UnbegunStep(s: Setup, c: Channel, w: Who, ev: Event)
    requires Enabled(s, c, ev) && Present(c, w) && At(c, w).stopped && w !in c.begun
    ensures Unmoved(c, Next(s, c, ev), w)
  {
    match ev
    case Begin(_) =>
    case AppSend(v, m) => PutElsewhere(c, w, v, AfterAppSend(At(c, v), m));
    case SendWorker(v) => PutElsewhere(c, w, v, AfterSendWorker(At(c, v)));
    case RecvWorker(v) => PutElsewhere(c, w, v, AfterRecvWorker(At(c, v)));
    case SendLoop(v, now) => OtherLoops(s, c, w, v, now);
    case Flush(v) => OtherSends(s, c, w, v);
    case Receive(v, now) => OtherHears(s, c, w, v, now);
    case RecvLoop(v) => PutElsewhere(c, w, v, AfterRecvLoop(At(c, v)));
    case Serve(v, now) => ServerServes(s, c, w, v, now);
    case Halt(v, reason) => PutElsewhere(c, w, v, Halted(At(c, v), reason));
    case Break(v) => PutElsewhere(c, w, v, Broken(At(c, v)));
    case Kill(v) => PutElsewhere(c, w, v, Killed(At(c, v)));
    case Unlist(v) => PutElsewhere(c, w, v, Unlisted(At(c, v)));
  }

  /** A peer that is stopped before its loops begin never says or hears anything: its boxes
      stay as they are, and nothing is put on the way from it. */
  lemma {:induction false} StoppedUnbegun(s: Setup, c: Channel, w: Who, evs: seq<Event>)
    requires CanRun(s, c, evs) && Present(c, w) && At(c, w).stopped && w !in c.begun
    ensures
      var d := Run(s, c, evs);
      Present(d, w) && w !in d.begun && Idle(At(c, w), At(d, w)) && OnTheWay(d, w) <= OnTheWay(c, w)
    decreases |evs|
  {
    if evs != [] {
      UnbegunStep(s, c, w, evs[0]);
      StoppedUnbegun(s, Next(s, c, evs[0]), w, evs[1..]);
    }
  }

  /** So a refused initiator is not told: its peer is stopped when it is made, and the
      disconnect queued for it never leaves. It goes on talking to the server socket. */
  lemma RefusalIsSilent(s: Setup, now: real, evs: seq<Event>)
    requires s.server != s.respSeen && CanRun(s, Start(s, now), evs)
    ensures
      var c := Run(s, Start(s, now), evs);
      c.resp.Some? && !c.admitted ==>
        c.toInit == [] && c.init.inbox == [] && !c.init.latched && c.init.peerAddr == s.server && c.confirms == 0
  {
    StartInv(s, now);
    RunInv(s, Start(s, now), evs);
  }

  /** The latch of either end never opens again. */
  lemma {:induction false} LatchStays(s: Setup, c: Channel, evs: seq<Event>)
    requires CanRun(s, c, evs)
    ensures
      var d := Run(s, c, evs);
      && (c.init.latched ==> d.init.latched)
      && (c.resp.Some? ==> d.resp.Some? && (c.resp.value.latched ==> d.resp.value.latched))
    decreases |evs|
  {
    if evs != [] {
      LatchStep(s, c, evs[0]);
      LatchStays(s, Next(s, c, evs[0]), evs[1..]);
    }
  }

  lemma LatchStep(s: Setup, c: Channel, ev: Event)
    requires Enabled(s, c, ev)
    ensures
      var d := Next(s, c, ev);
      && (c.init.latched ==> d.init.latched)
      && (c.resp.Some? ==> d.resp.Some? && (c.resp.value.latched ==> d.resp.value.latched))
  {
    match ev
    case SendWorker(w) => LatchPacks(At(c, w));
    case RecvWorker(w) => LatchHandles(At(c, w));
    case SendLoop(w, now) => LoopCases(s, c, w, now);
    case _ =>
  }

  lemma LatchPacks(e: Endpoint)
    requires e.sQ != []
    ensures AfterSendWorker(e).latched == (e.latched || e.sQ[0].SendConfirm?)
  {
  }

  lemma LatchHandles(e: Endpoint)
    requires e.inbox != []
    ensures AfterRecvWorker(e).latched == (e.latched || e.inbox[0].body.Confirm?)
  {
  }

  /** Everything that reaches the server socket carries the initiator's own claim. */
  predicate Claimed(s: Setup, c: Channel) {
    && (forall p | p in c.toServer :: p.node == s.init)
    && (c.resp.Some? ==> s.init.addr == s.initSeen)
  }

  lemma ClaimedStep(s: Setup, c: Channel, ev: Event)
    requires Inv(s, c) && Claimed(s, c) && Enabled(s, c, ev)
    ensures Claimed(s, Next(s, c, ev))
  {
    match ev
    case SendLoop(Initiator, now) =>
      LoopCases(s, c, Initiator, now);
      ClaimedFlush(s, c);
    case SendLoop(Responder, now) =>
      LoopCases(s, c, Responder, now);
    case Flush(Initiator) => ClaimedFlush(s, c);
    case Serve(v, now) => assert c.toServer[0] in c.toServer;
    case _ =>
  }

  lemma ClaimedFlush(s: Setup, c: Channel)
    requires Boxed(c.init) && c.init.me == s.init && Claimed(s, c)
    ensures Claimed(s, Flushed(s, c, Initiator))
  {
    var (f, sent) := Drained(c.init);
    assert forall p | p in sent :: p in c.init.vipbox || p in c.init.outbox;
  }

  lemma {:induction false} ClaimedRun(s: Setup, c: Channel, evs: seq<Event>)
    requires Inv(s, c) && Claimed(s, c) && CanRun(s, c, evs)
    ensures Claimed(s, Run(s, c, evs))
    decreases |evs|
  {
    if evs != [] {
      StepInv(s, c, evs[0]);
      ClaimedStep(s, c, evs[0]);
      ClaimedRun(s, Next(s, c, evs[0]), evs[1..]);
    }
  }

  /** The events of a handshake nobody disturbs: the initiator's, the server's, the rest. */
  function Opening(now: real): seq<Event> {
    [Begin(Initiator), SendWorker(Initiator), SendLoop(Initiator, now), Serve(Admit, now)] + Reply(now)
  }

  function Reply(now: real): seq<Event> {
    [Begin(Responder), SendWorker(Responder), SendLoop(Responder, now), Receive(Initiator, now), RecvWorker(Initiator)]
  }

  lemma RunOne(s: Setup, c: Channel, ev: Event, evs: seq<Event>)
    requires Enabled(s, c, ev) && CanRun(s, Next(s, c, ev), evs)
    ensures CanRun(s, c, [ev] + evs) && Run(s, c, [ev] + evs) == Run(s, Next(s, c, ev), evs)
  {
    assert ([ev] + evs)[1..] == evs;
  }

  /** With the initiator's loops begun. */
  function Begun(s: Setup, now: real): Channel {
    Start(s, now).(begun := {Initiator})
  }

  /** After two more events the hello is at the server. */
  lemma OpeningHello(s: Setup, now: real)
    requires s.cfg.timeout >= 0.0 && s.cfg.pingInterval >= 0.0
    ensures
      var c := Begun(s, now);
      var c1 := Packed(c, Initiator);
      var c2 := Looped(s, c1, Initiator, now);
      && c1.init.vipbox == [Packet(s.init, Hello(HELLO_TEXT))] && !c1.init.stopped && c1.begun == {Initiator}
      && c2.toServer == [Packet(s.init, Hello(HELLO_TEXT))]
      && c2 == c.(init := Fresh(s.init, s.server, [], now), toServer := c2.toServer)
  {
    var c1 := Packed(Begun(s, now), Initiator);
    assert c1.init == Fresh(s.init, s.server, [], now).(vipbox := [Packet(s.init, Hello(HELLO_TEXT))]);
    LoopCases(s, c1, Initiator, now);
  }

  /** With the hello accepted and the responder's loops begun. */
  function Met(s: Setup, now: real): Channel {
    Start(s, now).(init := Fresh(s.init, s.server, [], now),
                   resp := Some(Fresh(s.resp, s.initSeen, [SendConfirm(CONFIRM_TEXT)], now)),
                   admitted := true, begun := {Initiator, Responder})
  }

  lemma OpeningConfirm(s: Setup, now: real)
    requires s.cfg.timeout >= 0.0 && s.cfg.pingInterval >= 0.0
    ensures
      var c1 := Packed(Met(s, now), Responder);
      var c2 := Looped(s, c1, Responder, now);
      && c1.resp.Some? && !c1.resp.value.stopped && c1.begun == c2.begun == {Initiator, Responder}
      && c2.toInit == [Packet(s.resp, Confirm(CONFIRM_TEXT))]
      && c2.init == Fresh(s.init, s.server, [], now)
      && AfterRecvWorker(Heard(s, c2, Initiator, now).init).latched
      && Heard(s, c2, Initiator, now).init.inbox == c2.toInit && c2.init.listed
  {
    var c1 := Packed(Met(s, now), Responder);
    LoopCases(s, c1, Responder, now);
    assert c1.resp.value.vipbox == [Packet(s.resp, Confirm(CONFIRM_TEXT))];
    var c2 := Looped(s, c1, Responder, now);
    assert c2.toInit == [Packet(s.resp, Confirm(CONFIRM_TEXT))];
    var h := Heard(s, c2, Initiator, now);
    assert h.init.inbox[0].body.Confirm?;
  }

  lemma OpeningReply(s: Setup, now: real)
    requires s.cfg.timeout >= 0.0 && s.cfg.pingInterval >= 0.0
    ensures
      var c := Met(s, now).(begun := {Initiator});
      CanRun(s, c, Reply(now)) && Run(s, c, Reply(now)).init.latched
  {
    OpeningConfirm(s, now);
    var c0 := Met(s, now).(begun := {Initiator});
    var c := Met(s, now);
    assert Next(s, c0, Begin(Responder)) == c;
    var c1 := Packed(c, Responder);
    var c2 := Looped(s, c1, Responder, now);
    var c3 := Heard(s, c2, Initiator, now);
    var e5: seq<Event> := [];
    var e4 := [RecvWorker(Initiator)] + e5;
    var e3 := [Receive(Initiator, now)] + e4;
    var e2 := [SendLoop(Responder, now)] + e3;
    var e1 := [SendWorker(Responder)] + e2;
    RunOne(s, c3, RecvWorker(Initiator), e5);
    RunOne(s, c2, Receive(Initiator, now), e4);
    RunOne(s, c1, SendLoop(Responder, now), e3);
    RunOne(s, c, SendWorker(Responder), e2);
    RunOne(s, c0, Begin(Responder), e1);
    assert Reply(now) == [Begin(Responder)] + e1;
  }

  lemma OpeningLatches(s: Setup, now: real)
    requires s.cfg.timeout >= 0.0 && s.cfg.pingInterval >= 0.0 && s.init.addr == s.initSeen
    ensures CanRun(s, Start(s, now), Opening(now)) && Run(s, Start(s, now), Opening(now)).init.latched
  {
    var c0 := Begun(s, now);
    assert Next(s, Start(s, now), Begin(Initiator)) == c0;
    var c1 := Packed(c0, Initiator);
    var c2 := Looped(s, c1, Initiator, now);
    OpeningHello(s, now);
    assert Served(s, c2, Admit, now) == Met(s, now).(begun := {Initiator});
    OpeningReply(s, now);
    var e3 := [Serve(Admit, now)] + Reply(now);
    var e2 := [SendLoop(Initiator, now)] + e3;
    var e1 := [SendWorker(Initiator)] + e2;
    RunOne(s, c2, Serve(Admit, now), Reply(now));
    RunOne(s, c1, SendLoop(Initiator, now), e3);
    RunOne(s, c0, SendWorker(Initiator), e2);
    RunOne(s, Start(s, now), Begin(Initiator), e1);
    assert Opening(now) == [Begin(Initiator)] + e1;
  }

  /** A handshake can complete exactly when the address the initiator claims in its
      packets is the one its datagrams come from. With the default `listen_host` of
      0.0.0.0 it is not, and no run connects. */
  lemma CompletesIffAddressMatches(s: Setup, now: real)
    requires s.cfg.timeout >= 0.0 && s.cfg.pingInterval >= 0.0 && s.server != s.respSeen
    ensures (exists evs :: CanRun(s, Start(s, now), evs) && Run(s, Start(s, now), evs).init.latched)
            <==> s.init.addr == s.initSeen
  {
    if s.init.addr == s.initSeen {
      OpeningLatches(s, now);
    }
    forall evs | CanRun(s, Start(s, now), evs) && Run(s, Start(s, now), evs).init.latched
      ensures s.init.addr == s.initSeen
    {
      StartInv(s, now);
      ClaimedRun(s, Start(s, now), evs);
      HandshakeAgreement(s, now, evs);
    }
  }
}
