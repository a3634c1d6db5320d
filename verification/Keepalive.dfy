/** One endpoint against the clock: its ping timer, its timeout, and what they and the
    priority box may cost the data that waits behind them. */
module Keepalive {
  import opened Wire
  import opened Endpoints

  datatype Tick =
    | Loop(now: real)                           // one iteration of send_loop
    | Hear(p: Packet, source: Addr, now: real)  // one datagram
    | Pack                                      // one iteration of a send worker
    | Handle                                    // one iteration of a receive worker
    | Take                                      // one iteration of recv_loop
    | Ask(msg: Message)                         // send_packet

  predicate CanTick(e: Endpoint, t: Tick) {
    match t
    case Loop(_) => !e.stopped
    case Hear(_, _, _) => true
    case Pack => e.sQ != []
    case Handle => e.inbox != []
    case Take => e.rQ != []
    case Ask(_) => true
  }

  function Ticked(cfg: Config, e: Endpoint, t: Tick): Endpoint
    requires CanTick(e, t)
  {
    match t
    case Loop(now) => AfterSendLoop(cfg, e, now).0
    case Hear(p, source, now) => AfterReceive(e, p, source, now)
    case Pack => AfterSendWorker(e)
    case Handle => AfterRecvWorker(e)
    case Take => AfterRecvLoop(e)
    case Ask(m) => AfterAppSend(e, m)
  }

  predicate Lives(cfg: Config, e: Endpoint, ts: seq<Tick>)
    decreases |ts|
  {
    ts == [] || (CanTick(e, ts[0]) && Lives(cfg, Ticked(cfg, e, ts[0]), ts[1..]))
  }

  function Lived(cfg: Config, e: Endpoint, ts: seq<Tick>): Endpoint
    requires Lives(cfg, e, ts)
    decreases |ts|
  {
    if ts == [] then e else Lived(cfg, Ticked(cfg, e, ts[0]), ts[1..])
  }

  function Hears(ts: seq<Tick>): nat {
    if ts == [] then 0 else (if ts[0].Hear? then 1 else 0) + Hears(ts[1..])
  }

  function Loops(ts: seq<Tick>): nat {
    if ts == [] then 0 else (if ts[0].Loop? then 1 else 0) + Loops(ts[1..])
  }

  /** When the peer was last heard, given when it was before. */
  function LastHeard(before: real, ts: seq<Tick>): real
    decreases |ts|
  {
    if ts == [] then before else LastHeard(if ts[0].Hear? then ts[0].now else before, ts[1..])
  }

  function PingCount(cfg: Config, e: Endpoint, ts: seq<Tick>): nat
    requires Lives(cfg, e, ts)
    decreases |ts|
  {
    if ts == [] then 0
    else (if ts[0].Loop? && PingsNow(cfg, e, ts[0].now) then 1 else 0) + PingCount(cfg, Ticked(cfg, e, ts[0]), ts[1..])
  }

  function DrainCount(cfg: Config, e: Endpoint, ts: seq<Tick>): nat
    requires Lives(cfg, e, ts)
    decreases |ts|
  {
    if ts == [] then 0
    else (if ts[0].Loop? && Drains(cfg, e, ts[0].now) then 1 else 0) + DrainCount(cfg, Ticked(cfg, e, ts[0]), ts[1..])
  }

  // ---- The fields the timer reads ---------------------------------------------------

  lemma TimerFrame(cfg: Config, e: Endpoint, t: Tick)
    requires CanTick(e, t)
    ensures
      var f := Ticked(cfg, e, t);
      && f.lastContact == (if t.Hear? then t.now else e.lastContact)
      && f.pinged == (if t.Hear? then false else e.pinged || (t.Loop? && PingsNow(cfg, e, t.now)))
      && (e.stopped ==> f.stopped)
      && (t.Loop? ==> f.stopped == TimesOut(cfg, e, t.now))
  {
    match t
    case Pack => PackTimer(e);
    case Take => TakeTimer(e);
    case _ =>
  }

  lemma PackTimer(e: Endpoint)
    requires e.sQ != []
    ensures var f := AfterSendWorker(e);
            f.lastContact == e.lastContact && f.pinged == e.pinged && f.stopped == e.stopped
  {
    match Encode(e.sQ[0], e.me)
    case None =>
    case Some(p) =>
  }

  lemma TakeTimer(e: Endpoint)
    requires e.rQ != []
    ensures var f := AfterRecvLoop(e);
            f.lastContact == e.lastContact && f.pinged == e.pinged && f.outbox == e.outbox && (e.stopped ==> f.stopped)
  {
    match e.rQ[0]
    case Checked =>
    case Lost(_, _) =>
    case Arrived(_) =>
  }

  // ---- Pings --------------------------------------------------------------------------

  /** The timer pings at most once per silence. */
  lemma {:induction false} PingsBounded(cfg: Config, e: Endpoint, ts: seq<Tick>)
    requires Lives(cfg, e, ts)
    ensures PingCount(cfg, e, ts) <= Hears(ts) + if e.pinged then 0 else 1
    decreases |ts|
  {
    if ts != [] {
      TimerFrame(cfg, e, ts[0]);
      PingsBounded(cfg, Ticked(cfg, e, ts[0]), ts[1..]);
    }
  }

  // ---- The timeout ------------------------------------------------------------------

  lemma {:induction false} ContactIsLastHeard(cfg: Config, e: Endpoint, ts: seq<Tick>)
    requires Lives(cfg, e, ts)
    ensures Lived(cfg, e, ts).lastContact == LastHeard(e.lastContact, ts)
    decreases |ts|
  {
    if ts != [] {
      TimerFrame(cfg, e, ts[0]);
      ContactIsLastHeard(cfg, Ticked(cfg, e, ts[0]), ts[1..]);
    }
  }

  /** An iteration of the send loop cuts the peer off exactly when the silence since the
      last datagram, or since the peer was made, exceeds the timeout; only then does it
      queue the timeout's disconnect. */
  lemma CutOffIffSilent(cfg: Config, e: Endpoint, ts: seq<Tick>, now: real)
    requires Lives(cfg, e, ts) && !Lived(cfg, e, ts).stopped
    ensures
      var f := Lived(cfg, e, ts);
      var g := Ticked(cfg, f, Loop(now));
      && (g.stopped <==> now - LastHeard(e.lastContact, ts) > cfg.timeout)
      && (g.stopped ==> g.sQ == f.sQ + [SendDisconnect(TIMEOUT_TEXT)])
      && (!g.stopped ==> g.sQ == f.sQ || g.sQ == f.sQ + [SendPing])
  {
    ContactIsLastHeard(cfg, e, ts);
    TimerFrame(cfg, Lived(cfg, e, ts), Loop(now));
  }

  /** The send loop comes round at least every `d`, the first time within d of `prev`. */
  predicate Dense(prev: real, ts: seq<Tick>, d: real)
    decreases |ts|
  {
    ts == [] || (if ts[0].Loop? then prev <= ts[0].now <= prev + d && Dense(ts[0].now, ts[1..], d)
                 else Dense(prev, ts[1..], d))
  }

  function LastLoop(prev: real, ts: seq<Tick>): real
    decreases |ts|
  {
    if ts == [] then prev else LastLoop(if ts[0].Loop? then ts[0].now else prev, ts[1..])
  }

  /** A peer that stays silent is cut off by the first iteration past the timeout, and no
      iteration happens later than `d` past it. */
  lemma {:induction false} SilenceIsCutOff(cfg: Config, e: Endpoint, ts: seq<Tick>, prev: real, d: real)
    requires Lives(cfg, e, ts) && Hears(ts) == 0 && d >= 0.0
    requires Dense(prev, ts, d)
    requires !e.stopped ==> prev <= e.lastContact + cfg.timeout
    requires e.stopped ==> prev <= e.lastContact + cfg.timeout + d
    ensures LastLoop(prev, ts) <= e.lastContact + cfg.timeout + d
    ensures LastLoop(prev, ts) > e.lastContact + cfg.timeout ==> Lived(cfg, e, ts).stopped
    decreases |ts|
  {
    if ts != [] {
      TimerFrame(cfg, e, ts[0]);
      var f := Ticked(cfg, e, ts[0]);
      SilenceIsCutOff(cfg, f, ts[1..], if ts[0].Loop? then ts[0].now else prev, d);
    } else if e.stopped {
    } else {
      assert prev <= e.lastContact + cfg.timeout;
    }
  }

  // ---- Priority and data -----------------------------------------------------------

  /** What an event takes out of the data box, and what it puts in. */
  function Out(cfg: Config, e: Endpoint, t: Tick): seq<Packet> {
    if t.Loop? && Drains(cfg, e, t.now) && e.outbox != [] then [e.outbox[0]] else []
  }

  function In(e: Endpoint, t: Tick): seq<Packet>
    requires CanTick(e, t)
  {
    if t.Pack? && e.sQ[0].SendData? then [Packet(e.me, Data(e.sQ[0].msg))] else []
  }

  function SentData(cfg: Config, e: Endpoint, ts: seq<Tick>): seq<Packet>
    requires Lives(cfg, e, ts)
    decreases |ts|
  {
    if ts == [] then [] else Out(cfg, e, ts[0]) + SentData(cfg, Ticked(cfg, e, ts[0]), ts[1..])
  }

  lemma OutboxStep(cfg: Config, e: Endpoint, t: Tick)
    requires CanTick(e, t)
    ensures e.outbox + In(e, t) == Out(cfg, e, t) + Ticked(cfg, e, t).outbox
  {
    match t
    case Pack =>
    case Take => TakeTimer(e);
    case Loop(now) =>
      var (f, sent) := AfterSendLoop(cfg, e, now);
      assert f.outbox == if Drains(cfg, e, now) && e.outbox != [] then e.outbox[1..] else e.outbox;
    case _ =>
  }

  /** What was at position i is there still, or one place nearer the front. */
  lemma OutboxMoves(cfg: Config, e: Endpoint, t: Tick, i: nat)
    requires CanTick(e, t) && i < |e.outbox|
    ensures
      var f := Ticked(cfg, e, t);
      if Out(cfg, e, t) == [] then i < |f.outbox| && f.outbox[i] == e.outbox[i]
      else Out(cfg, e, t) == [e.outbox[0]] && (i > 0 ==> i - 1 < |f.outbox| && f.outbox[i - 1] == e.outbox[i])
  {
    var f := Ticked(cfg, e, t);
    OutboxStep(cfg, e, t);
    assert (e.outbox + In(e, t))[i] == e.outbox[i];
    if Out(cfg, e, t) == [] {
      assert e.outbox + In(e, t) == f.outbox;
    } else if i > 0 {
      assert ([e.outbox[0]] + f.outbox)[i] == f.outbox[i - 1];
    }
  }

  /** Data leaves in order, one packet per draining iteration, whatever overtakes it. */
  lemma {:induction false} DataLeavesInOrder(cfg: Config, e: Endpoint, ts: seq<Tick>, i: nat)
    requires Lives(cfg, e, ts) && i < |e.outbox| && i < DrainCount(cfg, e, ts)
    ensures i < |SentData(cfg, e, ts)| && SentData(cfg, e, ts)[i] == e.outbox[i]
    decreases |ts|
  {
    var f, rest := Ticked(cfg, e, ts[0]), ts[1..];
    var out := Out(cfg, e, ts[0]);
    OutboxMoves(cfg, e, ts[0], i);
    assert SentData(cfg, e, ts) == out + SentData(cfg, f, rest);
    assert DrainCount(cfg, e, ts) == |out| + DrainCount(cfg, f, rest);
    if out == [] {
      DataLeavesInOrder(cfg, f, rest, i);
    } else if i > 0 {
      DataLeavesInOrder(cfg, f, rest, i - 1);
    }
  }

  /** Every iteration drains, pings or cuts off. */
  lemma {:induction false} LoopsSplit(cfg: Config, e: Endpoint, ts: seq<Tick>)
    requires Lives(cfg, e, ts) && !Lived(cfg, e, ts).stopped
    ensures Loops(ts) == DrainCount(cfg, e, ts) + PingCount(cfg, e, ts)
    decreases |ts|
  {
    if ts != [] {
      var f := Ticked(cfg, e, ts[0]);
      TimerFrame(cfg, e, ts[0]);
      if f.stopped {
        StopsForGood(cfg, f, ts[1..]);
      }
      LoopsSplit(cfg, f, ts[1..]);
    }
  }

  lemma {:induction false} StopsForGood(cfg: Config, e: Endpoint, ts: seq<Tick>)
    requires Lives(cfg, e, ts) && e.stopped
    ensures Lived(cfg, e, ts).stopped
    decreases |ts|
  {
    if ts != [] {
      TimerFrame(cfg, e, ts[0]);
      StopsForGood(cfg, Ticked(cfg, e, ts[0]), ts[1..]);
    }
  }

  /** However many priority packets there are, within one silence the packet at position
      i of the data box has left after i + 2 iterations: the ping costs at most one. */
  lemma DataIsNotStarved(cfg: Config, e: Endpoint, ts: seq<Tick>, i: nat)
    requires Lives(cfg, e, ts) && !Lived(cfg, e, ts).stopped && Hears(ts) == 0
    requires i < |e.outbox| && i + 2 <= Loops(ts)
    ensures i < |SentData(cfg, e, ts)| && SentData(cfg, e, ts)[i] == e.outbox[i]
  {
    LoopsSplit(cfg, e, ts);
    PingsBounded(cfg, e, ts);
    DataLeavesInOrder(cfg, e, ts, i);
  }
}
