/** What exactly the steps of the UDP endpoint table do to the endpoints, queues and budgets they are about. */
module UdpExact {
  import opened Base
  import opened TokenBucket
  import opened Udp
  import opened UdpInvariants
  import opened UdpSteps
  import opened UdpTheorems
  import UdpCharges
  import Random

  // ------------------------------------------------------------------ when a datagram is moved or sent

  /** What is left of direction i of the budget of the client that endpoint k stands for. */
  function Left(ips: map<nat, Pair<int>>, k: Addr, i: Side): int {
    if k.ip in ips then ips[k.ip].At(i) else 0
  }

  /** No budget that endpoint e has to ask for direction i is overdrawn. */
  predicate Affordable(cfg: Config, s: State, e: Ept, k: Addr, i: Side) {
    && (if i == 0 then e.sendAvail else e.recvAvail) >= 0
    && (!e.server && cfg.ipLimit.At(i) > 0 ==> e.hasIp && Left(s.ips, k, i) >= 0)
  }

  /** The head of a receive queue is moved: it is due, and it can be paid for. */
  predicate Takes(cfg: Config, s: State, k: Addr)
    requires k in s.epts
  {
    var e := s.epts[k];
    && e.recvQ != [] && e.recvQ[0].peer != k && e.recvQ[0].time <= s.now
    && Affordable(cfg, s, e, k, 1)
  }

  /** The head of a send queue is given to the socket. */
  predicate Gives(cfg: Config, s: State, k: Addr)
    requires k in s.epts
  {
    s.epts[k].sendQ != [] && Affordable(cfg, s, s.epts[k], k, 0)
  }

  /** What a client with a limit pays for a datagram: its bytes and those of the headers. */
  function Price(e: Ept, limit: int, size: nat): nat {
    if !e.server && limit > 0 then size + 42 else 0
  }

  /** A receive that is started on a closed socket ends with an error. */
  function Begun(e: Ept, buf: BufId): RecvOp {
    RecvOp(buf, if e.open then Waiting else Broken)
  }

  lemma {:induction false} TakesIs(cfg: Config, s: State, ev: Event)
    requires Enabled(s, ev) && ev.Move?
    ensures Moves(cfg, s, ev) <==> Takes(cfg, s, s.phase.todo[0])
  {
  }

  lemma {:induction false} GivesIs(cfg: Config, s: State, k: Addr)
    requires k in s.epts
    ensures MaySend(cfg, s, s.epts[k], k) <==> Gives(cfg, s, k)
  {
  }

  /**
   A turn of the moving loop takes the head of the queue exactly if it is due and can be paid for, and otherwise ends the
   loop. What is taken is charged to the endpoint and, if it is a client's, to the client's budget, in full.
   */
  lemma {:induction false} MoveExact(cfg: Config, s: State, o: Opening, t: int)
    requires Enabled(s, Move(o, t))
    ensures var k := s.phase.todo[0];
            var e, s' := s.epts[k], Step(cfg, s, Move(o, t));
            && k in s'.epts
            && var e' := s'.epts[k];
               if Takes(cfg, s, k) then
                 var m := e.recvQ[0];
                 && e'.recvQ == e.recvQ[1..] && s'.phase == s.phase && s'.log.taken == s.log.taken + [Taken(m.id, k, m.size)]
                 && e'.recvAvail == e.recvAvail - Price(e, e.rule.bandwidth, m.size)
                 && e'.recving && e'.recvs == (if e.recving then e.recvs else e.recvs + [Begun(e, e.recvBuf)])
                 && Left(s'.ips, k, 1) == Left(s.ips, k, 1) - Price(e, cfg.ipLimit.At(1), m.size)
               else
                 e' == e && s'.phase == Moving(s.phase.todo[1..], false, s.phase.interval) && s'.log == s.log && s'.ips == s.ips
  {
    var k, ev := s.phase.todo[0], Move(o, t);
    TakesIs(cfg, s, ev);
    StepAt(cfg, s, ev, k);
    StepRest(cfg, s, ev);
    StepPhase(cfg, s, ev);
    UdpCharges.StepIps(cfg, s, ev);
    if Takes(cfg, s, k) {
      TakenExact(s.epts[k], s.now);
      LeftAfter(cfg, s.ips, s.epts[k], k, 1, Cost(s.epts[k].recvQ[0]));
      hide Step, TakeHead, ChargeIp, Left;
    } else {
      hide MoveOn, TakeHead;
    }
  }

  lemma {:induction false} TakenExact(e: Ept, now: int)
    requires e.recvQ != []
    ensures var r := TakeHead(e, now);
            r.recvQ == e.recvQ[1..] && r.recving && r.recvs == (if e.recving then e.recvs else e.recvs + [Begun(e, e.recvBuf)])
            && r.recvAvail == e.recvAvail - Price(e, e.rule.bandwidth, e.recvQ[0].size)
  {
  }

  lemma {:induction false} LeftAfter(cfg: Config, ips: map<nat, Pair<int>>, e: Ept, k: Addr, i: Side, amount: nat)
    requires amount >= 42
    ensures Left(ChargeIp(cfg, ips, e, k, i, amount), k, i) == Left(ips, k, i) - Price(e, cfg.ipLimit.At(i), amount - 42)
    ensures Left(ChargeIp(cfg, ips, e, k, i, amount), k, Other(i)) == Left(ips, k, Other(i))
  {
    if i == 0 {
    } else {
    }
  }

  /**
   A turn of the sending loop gives the head of the queue to the socket exactly if it can be paid for. If the send goes well the
   datagram has left and is charged to the endpoint; the client's budget is charged either way.
   */
  lemma {:induction false} SendExact(cfg: Config, s: State, sent: bool, o: Opening, t: int)
    requires Enabled(s, Send(sent, o, t))
    ensures var k := s.phase.todo[0];
            var e, s' := s.epts[k], Step(cfg, s, Send(sent, o, t));
            && k in s'.epts
            && var e' := s'.epts[k];
               if Gives(cfg, s, k) then
                 var m := e.sendQ[0];
                 && Left(s'.ips, k, 0) == Left(s.ips, k, 0) - Price(e, cfg.ipLimit.At(0), m.size)
                 && (if sent then
                       && e'.sendQ == e.sendQ[1..] && s'.log.sent == s.log.sent + [Departure(m.id, k, m.peer, Payload(s.memory, m.buf, m.size), s.now)]
                       && e'.sendAvail == e.sendAvail - Price(e, e.rule.bandwidth, m.size) && s'.phase == Sending(s.phase.todo, true)
                     else
                       && e'.sendQ == e.sendQ && s'.log.sent == s.log.sent && e'.sendAvail == e.sendAvail
                       && s'.phase == Sending(s.phase.todo[1..], false))
               else
                 e' == e && s'.phase == Sending(s.phase.todo[1..], false) && s'.log == s.log && s'.ips == s.ips
  {
    var k, ev := s.phase.todo[0], Send(sent, o, t);
    GivesIs(cfg, s, k);
    if Gives(cfg, s, k) {
      StepAt(cfg, s, ev, k);
      StepRest(cfg, s, ev);
      StepPhase(cfg, s, ev);
      UdpCharges.StepIps(cfg, s, ev);
      LeftAfter(cfg, s.ips, s.epts[k], k, 0, Cost(s.epts[k].sendQ[0]));
      SentExact(s.epts[k], s.now);
      hide Step, SendHead, ChargeIp, Left, Break, Payload;
    } else {
      hide SendOut, MaySend, Gives;
    }
  }

  lemma {:induction false} SentExact(e: Ept, now: int)
    requires e.sendQ != []
    ensures var r := SendHead(e, now);
            r.sendQ == e.sendQ[1..] && r.sendAvail == e.sendAvail - Price(e, e.rule.bandwidth, e.sendQ[0].size)
  {
  }

  // ------------------------------------------------------------------ where a datagram that is moved goes

  /** The search at line 214 finds an endpoint for x. */
  predicate Found(s: State, x: Addr) {
    x in s.epts && x !in s.newKeys
  }

  /**
   The sender's endpoint. One that is found is marked active at the time of the pass, unless it is stopped, and gets the
   datagram if there is room. Otherwise a new one is made, if its socket opens: a client's, under the rule of the endpoint the
   datagram came in on, with nothing else in it.
   */
  lemma {:induction false} SenderExact(cfg: Config, s: State, o: Opening, t: int)
    requires Enabled(s, Move(o, t)) && Takes(cfg, s, s.phase.todo[0])
    ensures var k := s.phase.todo[0];
            var m, s' := s.epts[k].recvQ[0], Step(cfg, s, Move(o, t));
            var x := m.peer;
            if Found(s, x) then
              && x in s'.epts
              && var e, e' := s.epts[x], s'.epts[x];
                 && e'.activeTm == (if e.activeTm != 0 then s.now else 0)
                 && e'.sendQ == (if |e.sendQ| < 50 then e.sendQ + [m.(peer := k)] else e.sendQ)
                 && e' == e.(activeTm := e'.activeTm, sendQ := e'.sendQ)
            else if o == Bound then
              && x in s'.epts && x in s'.newKeys
              && var e' := s'.epts[x];
                 && e'.dst == x && e'.rule == s.epts[k].rule && !e'.server && e'.hasIp == (cfg.ipLimit != Pair(0, 0)) && e'.open
                 && e'.activeTm == t && e'.recvQ == [] && e'.sendQ == [m.(peer := k)] && e'.recvAvail == 0 && e'.sendAvail == 0
                 && e'.recving && e'.recvs == [RecvOp(e'.recvBuf, Waiting)] && e'.recvBuf == |s.memory|
            else s'.epts.Keys == s.epts.Keys && (x in s.epts ==> s'.epts[x] == s.epts[x])
  {
    var k, ev := s.phase.todo[0], Move(o, t);
    var x := s.epts[k].recvQ[0].peer;
    TakesIs(cfg, s, ev);
    StepAt(cfg, s, ev, x);
    if Makes(cfg, s, ev, x) {
      MadeExact(cfg, s, ev);
    } else if Found(s, x) {
      TouchedExact(s.epts[x], s.now, s.epts[k].recvQ[0], k);
    } else {
      NothingMade(cfg, s, o, t);
    }
    hide Step, Made, Touch, Given, TakeHead;
  }

  lemma {:induction false} NothingMade(cfg: Config, s: State, o: Opening, t: int)
    requires Enabled(s, Move(o, t)) && o != Bound
    ensures Step(cfg, s, Move(o, t)).epts.Keys == s.epts.Keys
  {
    forall a ensures a in Step(cfg, s, Move(o, t)).epts <==> a in s.epts {
      StepAt(cfg, s, Move(o, t), a);
    }
    hide Step, Kept, Made;
  }

  lemma {:induction false} MadeExact(cfg: Config, s: State, ev: Event)
    requires Enabled(s, ev) && Moves(cfg, s, ev) && ev.o == Bound
    ensures var e, k := Deliver(Made(cfg, s, ev), Head(s), s.phase.todo[0]), s.phase.todo[0];
            && e.dst == Head(s).peer && e.rule == s.epts[k].rule && !e.server && e.hasIp == (cfg.ipLimit != Pair(0, 0)) && e.open
            && e.activeTm == ev.t && e.recvQ == [] && e.sendQ == [Head(s).(peer := k)] && e.recvAvail == 0 && e.sendAvail == 0
            && e.recving && e.recvs == [RecvOp(e.recvBuf, Waiting)] && e.recvBuf == |s.memory|
  {
  }

  lemma {:induction false} TouchedExact(e: Ept, now: int, m: Dgram, k: Addr)
    ensures var r := Given(Touch(e, now), m, k);
            && r.activeTm == (if e.activeTm != 0 then now else 0)
            && r.sendQ == (if |e.sendQ| < 50 then e.sendQ + [m.(peer := k)] else e.sendQ)
            && r == e.(activeTm := r.activeTm, sendQ := r.sendQ)
  {
  }

  // ------------------------------------------------------------------ receiving

  function Without(ops: seq<RecvOp>, j: nat): seq<RecvOp>
    requires j < |ops|
  {
    ops[..j] + ops[j + 1..]
  }

  /**
   The handler of a datagram marks its endpoint active. The datagram is dropped exactly if the random number is not above the
   rule's setting; otherwise it is recorded as coming from the address in the message, due the rule's delay later, and queued.
   The next receive is started at once, unless the queue has become overfull.
   */
  lemma {:induction false} ReceiveExact(cfg: Config, s: State, k: Addr, j: nat, t: int, roll: int)
    requires Enabled(s, Recv(k, j, t, roll))
    ensures var e, s' := s.epts[k], Step(cfg, s, Recv(k, j, t, roll));
            && k in s'.epts
            && var e', p := s'.epts[k], e.recvs[j].progress;
               && e'.activeTm == t
               && if e.rule.drop > 0 && roll <= e.rule.drop then
                    e' == e.(activeTm := t, recvs := Without(e.recvs, j) + [Begun(e, e.recvBuf)]) && s'.log == s.log
                  else
                    && e'.recvQ == e.recvQ + [Dgram(|s.log.accepted|, e.recvBuf, p.size, t + e.rule.delay, e.recvSrc)]
                    && s'.log.accepted == s.log.accepted + [Accepted(k, e.recvSrc, e.recvBuf, p.size, p.sender, p.data, t, t + e.rule.delay)]
                    && s'.log.place == s.log.place + [InRecvQ] && e'.recvBuf == |s.memory| && e'.recvSrc == NOBODY
                    && e'.recving == (if |e.recvQ| < 50 then e.recving else false)
                    && e'.recvs == Without(e.recvs, j) + (if |e.recvQ| < 50 then [Begun(e, |s.memory|)] else [])
  {
    hide NewBuffer;
  }

  /** What stopping an endpoint leaves of it: a server is opened again, with the result o at time t; a client stays stopped. */
  predicate Stopped(e: Ept, e': Ept, o: Opening, t: int) {
    && e'.open == (e.server && o != Shut)
    && e'.activeTm == (if e.server && o == Bound then t else 0)
    && e' == e.(open := e'.open, activeTm := e'.activeTm, recvs := e'.recvs)
  }

  /** A refused receive is only started again; any other error stops the endpoint, and so does a send that fails. */
  lemma {:induction false} ErrorExact(cfg: Config, s: State, k: Addr, j: nat, t: int, o: Opening)
    requires Enabled(s, RecvFails(k, j, t, o))
    ensures var e, s' := s.epts[k], Step(cfg, s, RecvFails(k, j, t, o));
            && k in s'.epts && s'.log == s.log && s'.phase == s.phase
            && var e' := s'.epts[k];
               if e.recvs[j].progress == Refused then
                 && e' == e.(recvs := e'.recvs)
                 && e'.recvs == Without(e.recvs, j) + [Begun(e, e.recvBuf)]
               else Stopped(e, e', o, t)
  {
    hide Ended;
  }

  lemma {:induction false} FailedSendExact(cfg: Config, s: State, o: Opening, t: int)
    requires Enabled(s, Send(false, o, t)) && Gives(cfg, s, s.phase.todo[0])
    ensures var k := s.phase.todo[0];
            k in Step(cfg, s, Send(false, o, t)).epts && Stopped(s.epts[k], Step(cfg, s, Send(false, o, t)).epts[k], o, t)
  {
    var k, ev := s.phase.todo[0], Send(false, o, t);
    GivesIs(cfg, s, k);
    StepAt(cfg, s, ev, k);
    hide Step, Ended, MaySend, Gives;
  }

  // ------------------------------------------------------------------ visits

  /** A negative balance of a client with a limit grows by what the bandwidth allows in this time. */
  function Refreshed(e: Ept, balance: int, ms: int): int {
    if !e.server && e.rule.bandwidth > 0 && balance < 0 then balance + ms * e.rule.bandwidth / 1000 else balance
  }

  /** The times of the passes of a run, the start of the program first. */
  function PassTimes(now: int, events: seq<Event>): (times: seq<int>)
    ensures times != []
    decreases |events|
  {
    if events == [] then [now]
    else
      var before := PassTimes(now, Front(events));
      if Last(events).BeginPass? && Last(events).t > Last(before) then before + [Last(events).t] else before
  }

  /** The time between the last two passes. */
  function Between(now: int, events: seq<Event>): int {
    var times := PassTimes(now, events);
    if |times| >= 2 then times[|times| - 1] - times[|times| - 2] else 0
  }

  ghost predicate InTime(now: int, events: seq<Event>, s: State) {
    && s.now == Last(PassTimes(now, events))
    && (s.phase.Moving? ==> |PassTimes(now, events)| >= 2 && s.phase.interval == Between(now, events))
  }

  lemma {:induction false} StepInTime(cfg: Config, now: int, events: seq<Event>, s: State)
    requires events != [] && InTime(now, Front(events), s) && Enabled(s, Last(events))
    ensures InTime(now, events, Step(cfg, s, Last(events)))
  {
    StepRest(cfg, s, Last(events));
    StepPhase(cfg, s, Last(events));
    hide Step, Moves, Makes, Sends, Evicts;
  }

  lemma {:induction false} RunInTime(cfg: Config, lines: seq<Line>, now: int, events: seq<Event>)
    requires Runs(cfg, lines, now, events)
    ensures InTime(now, events, After(cfg, lines, now, events))
    decreases |events|
  {
    hide Start, Step, Enabled, InTime, Started;
    if events == [] {
      StartIs(lines, now);
      StartInTime(Start(lines, now), now);
    } else {
      RunInTime(cfg, lines, now, Front(events));
      StepInTime(cfg, now, events, After(cfg, lines, now, Front(events)));
    }
  }

  lemma {:induction false} StartInTime(s: State, now: int)
    requires Started(s, now)
    ensures InTime(now, [], s)
  {
  }

  /**
   A visit. An endpoint that is stopped, or idle for longer than the timeout and no server, leaves. Any other gets, in each
   direction that is overdrawn, exactly what its bandwidth allows in the time between the last two passes.
   */
  lemma {:induction false} VisitExact(cfg: Config, lines: seq<Line>, now: int, events: seq<Event>)
    requires Runs(cfg, lines, now, events) && Enabled(After(cfg, lines, now, events), Enter)
    ensures var s := After(cfg, lines, now, events);
            var k := s.phase.todo[0];
            var e, s' := s.epts[k], Step(cfg, s, Enter);
            && (k in s'.epts <==> e.activeTm != 0 && (e.server || s.now <= e.activeTm + cfg.timeout))
            && (k in s'.epts ==>
                  && s'.epts[k].recvAvail == Refreshed(e, e.recvAvail, Between(now, events))
                  && s'.epts[k].sendAvail == Refreshed(e, e.sendAvail, Between(now, events))
                  && s'.epts[k] == e.(recvAvail := s'.epts[k].recvAvail, recvLedger := s'.epts[k].recvLedger,
                                      sendAvail := s'.epts[k].sendAvail, sendLedger := s'.epts[k].sendLedger)
                  && s'.phase == Moving(s.phase.todo, true, s.phase.interval))
  {
    RunInTime(cfg, lines, now, events);
    hide Run, Start, LoseAll;
    EnterExact(cfg, After(cfg, lines, now, events));
  }

  lemma {:induction false} EnterExact(cfg: Config, s: State)
    requires Enabled(s, Enter)
    ensures var k := s.phase.todo[0];
            var e, s', ms := s.epts[k], Step(cfg, s, Enter), s.phase.interval;
            && (k in s'.epts <==> e.activeTm != 0 && (e.server || s.now <= e.activeTm + cfg.timeout))
            && (k in s'.epts ==>
                  && s'.epts[k].recvAvail == Refreshed(e, e.recvAvail, ms) && s'.epts[k].sendAvail == Refreshed(e, e.sendAvail, ms)
                  && s'.epts[k] == e.(recvAvail := s'.epts[k].recvAvail, recvLedger := s'.epts[k].recvLedger,
                                      sendAvail := s'.epts[k].sendAvail, sendLedger := s'.epts[k].sendLedger)
                  && s'.phase == Moving(s.phase.todo, true, s.phase.interval))
  {
    hide LoseAll;
  }

  // ------------------------------------------------------------------ the start

  /** The last line for a destination. */
  function LastLine(lines: seq<Line>, k: Addr): Option<Line>
    decreases |lines|
  {
    if lines == [] then None
    else if Last(lines).dst == k then Some(Last(lines))
    else LastLine(Front(lines), k)
  }

  /**
   The table at the start: one endpoint for every destination of the configuration, under the rule of the last line for it, a
   server's exactly if that line has a source port, at work exactly if its socket was opened, and without a client's budget.
   */
  lemma {:induction false} StartExact(lines: seq<Line>, now: int, k: Addr)
    ensures var epts := Start(lines, now).epts;
            match LastLine(lines, k)
            case None => k !in epts
            case Some(l) =>
              && k in epts
              && var e := epts[k];
                 && e.dst == k && e.rule == l.rule && (e.server <==> l.srcPort != 0) && !e.hasIp
                 && e.open == (l.o != Shut) && e.activeTm == (if l.o == Bound then now else 0)
                 && e.recvs == (if l.o == Bound then [RecvOp(e.recvBuf, Waiting)] else [])
                 && e.recvQ == [] && e.sendQ == [] && e.recvAvail == 0 && e.sendAvail == 0 && e.recving
    decreases |lines|
  {
    if lines != [] {
      StartExact(Front(lines), now, k);
      var s, l := Start(Front(lines), now), Last(lines);
      assert Start(lines, now).epts == s.epts[l.dst := NewEpt(l.dst, l.rule, l.srcPort != 0, false, l.o, s.now, |s.memory|, s.log)];
      StartNow(Front(lines), now);
      hide Start;
    }
  }

  lemma {:induction false} StartNow(lines: seq<Line>, now: int)
    ensures Start(lines, now).now == now
    decreases |lines|
  {
    if lines != [] {
      StartNow(Front(lines), now);
    }
    hide NewEpt, NewBuffer;
  }

  // ------------------------------------------------------------------ drops

  /** For the raw random values the handler drops the datagram exactly as Random.DropCount and Random.DropRate count. */
  lemma {:induction false} DropsAsCounted(cfg: Config, s: State, k: Addr, j: nat, t: int, raw: nat)
    requires Receiving(s, k, j) && s.epts[k].recvs[j].progress.Arrived? && !Locked(s, k) && s.clock <= t
    ensures var ev := Recv(k, j, t, Random.Int32Range(1, 10000, raw));
            && Enabled(s, ev)
            && (Step(cfg, s, ev).log.accepted == s.log.accepted <==> Random.Drops(s.epts[k].rule.drop, raw))
  {
    var roll := Random.Int32Range(1, 10000, raw);
    ReceiveExact(cfg, s, k, j, t, roll);
    assert |Step(cfg, s, Recv(k, j, t, roll)).log.accepted| == |s.log.accepted| + if s.epts[k].rule.drop > 0 && roll <= s.epts[k].rule.drop then 0 else 1;
    hide Step;
  }
}
