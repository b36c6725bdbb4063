/** What holds of the UDP endpoint table over whole runs. */
module UdpTheorems {
  import opened Base
  import opened TokenBucket
  import opened Udp
  import opened UdpInvariants
  import opened UdpSteps
  import UdpTable
  import UdpBudgets
  import UdpBuffers
  import UdpJourney

  ghost predicate Inv(s: State) {
    && Keys(s) && Visits(s) && SendQueues(s) && Stamps(s) && Sizes(s) && Budgets(s)
    && Memory(s) && Apart(s) && Journey(s)
  }

  // ------------------------------------------------------------------ the start

  /** An endpoint as addServerProxy makes it. */
  ghost predicate Untouched(e: Ept, k: Addr, now: int) {
    && e == Blank(k, e.rule, e.server, false, e.recvBuf, 0, 0).(open := e.open, activeTm := e.activeTm, recvs := e.recvs)
    && (e.activeTm == 0 || e.activeTm == now)
    && e.recvs == (if e.activeTm == 0 then [] else [RecvOp(e.recvBuf, Waiting)])
    && (e.activeTm != 0 ==> e.open)
  }

  ghost predicate Started(s: State, now: int) {
    && s == State(s.epts, {}, Resting, now, now, s.memory, map[], Log([], [], [], []), false, false)
    && (forall b | 0 <= b < |s.memory| :: |s.memory[b]| == UDP_BUFFER_SIZE)
    && (forall k <- s.epts :: Untouched(s.epts[k], k, now) && s.epts[k].recvBuf < |s.memory|)
    && (forall k, x | k in s.epts && x in s.epts && k != x :: s.epts[k].recvBuf != s.epts[x].recvBuf)
  }

  lemma {:induction false} NewUntouched(l: Line, now: int, buf: BufId, log: Log)
    requires now > 0 && log.sent == [] && log.taken == []
    ensures var e := NewEpt(l.dst, l.rule, l.srcPort != 0, false, l.o, now, buf, log);
            Untouched(e, l.dst, now) && e.recvBuf == buf && e.rule == l.rule && e.server == (l.srcPort != 0)
            && (e.activeTm != 0 <==> l.o == Bound)
  {
  }

  lemma {:induction false} StartIs(lines: seq<Line>, now: int)
    requires now > 0
    ensures Started(Start(lines, now), now)
    decreases |lines|
  {
    if lines != [] {
      var s := Start(Front(lines), now);
      StartIs(Front(lines), now);
      NewUntouched(Last(lines), now, |s.memory|, s.log);
      hide NewEpt, Untouched, NewBuffer;
    }
  }

  lemma {:induction false} StartedTable(s: State, now: int)
    requires Started(s, now) && now > 0
    ensures Keys(s) && Visits(s) && SendQueues(s) && Stamps(s) && Sizes(s) && Budgets(s)
  {
  }

  lemma {:induction false} StartedBuffers(s: State, now: int)
    requires Started(s, now)
    ensures Memory(s) && Apart(s)
  {
    assert forall k <- s.epts :: Targets(s.epts[k]) <= {s.epts[k].recvBuf};
    hide Blank, Targets;
  }

  lemma {:induction false} StartedReceives(s: State, now: int)
    requires Started(s, now)
    ensures Flags(s) && Intact(s) && AtMostOne(s)
  {
  }

  lemma {:induction false} StartedInv(s: State, now: int)
    requires Started(s, now) && now > 0
    ensures Inv(s) && Flags(s) && Intact(s) && AtMostOne(s)
  {
    StartedTable(s, now);
    StartedBuffers(s, now);
    StartedReceives(s, now);
    assert Journey(s);
    hide Keys, Visits, SendQueues, Stamps, Sizes, Budgets, Memory, Apart, Journey, Flags, Intact, AtMostOne;
  }

  lemma {:induction false} StepInv(cfg: Config, s: State, ev: Event)
    requires Inv(s) && Enabled(s, ev)
    ensures Inv(Step(cfg, s, ev))
  {
    hide Step, Enabled, Keys, Visits, SendQueues, Stamps, Sizes, Budgets, Memory, Apart, Journey;
    UdpTable.StepKeys(cfg, s, ev);
    UdpTable.StepVisits(cfg, s, ev);
    UdpTable.StepSendQueues(cfg, s, ev);
    UdpTable.StepStamps(cfg, s, ev);
    UdpTable.StepSizes(cfg, s, ev);
    UdpBudgets.StepBudgets(cfg, s, ev);
    UdpBuffers.StepMemory(cfg, s, ev);
    UdpBuffers.StepApart(cfg, s, ev);
    UdpJourney.StepJourney(cfg, s, ev);
  }

  lemma {:induction false} RunInv(cfg: Config, s: State, events: seq<Event>)
    requires Inv(s) && Run(cfg, s, events).Some?
    ensures Inv(Run(cfg, s, events).value)
    decreases |events|
  {
    hide Step, Enabled, Inv;
    if events != [] {
      RunInv(cfg, s, Front(events));
      StepInv(cfg, Run(cfg, s, Front(events)).value, Last(events));
    }
  }

  predicate Runs(cfg: Config, lines: seq<Line>, now: int, events: seq<Event>) {
    now > 0 && Run(cfg, Start(lines, now), events).Some?
  }

  /** The state after these events. */
  function After(cfg: Config, lines: seq<Line>, now: int, events: seq<Event>): State
    requires Runs(cfg, lines, now, events)
  {
    Run(cfg, Start(lines, now), events).value
  }

  lemma {:induction false} Reached(cfg: Config, lines: seq<Line>, now: int, events: seq<Event>)
    requires Runs(cfg, lines, now, events)
    ensures Inv(After(cfg, lines, now, events))
  {
    hide Step, Enabled, Inv, Start, Started;
    StartIs(lines, now);
    StartedInv(Start(lines, now), now);
    RunInv(cfg, Start(lines, now), events);
  }

  /** One more step at the end of a run. */
  lemma {:induction false} Chain(cfg: Config, s0: State, before: seq<Event>, s: State, ev: Event) returns (s': State)
    requires Run(cfg, s0, before) == Some(s) && Enabled(s, ev)
    ensures Run(cfg, s0, before + [ev]) == Some(s') && s' == Step(cfg, s, ev)
  {
    assert Front(before + [ev]) == before;
    s' := Step(cfg, s, ev);
  }

  /** A run followed by another is a run. */
  lemma {:induction false} Join(cfg: Config, s0: State, first: seq<Event>, second: seq<Event>)
    requires Run(cfg, s0, first).Some?
    ensures Run(cfg, s0, first + second) == Run(cfg, Run(cfg, s0, first).value, second)
    decreases |second|
  {
    if second == [] {
      assert first + second == first;
    } else {
      Join(cfg, s0, first, Front(second));
      assert Front(first + second) == first + Front(second);
    }
  }

  // ------------------------------------------------------------------ order

  /** Of the datagrams sent from X's socket to Y the earlier one was accepted earlier, and no datagram is sent twice. */
  lemma {:induction false} OrderAndAtMostOnce(cfg: Config, lines: seq<Line>, now: int, events: seq<Event>, i: nat, j: nat)
    requires Runs(cfg, lines, now, events) && i < j < |After(cfg, lines, now, events).log.sent|
    ensures var sent := After(cfg, lines, now, events).log.sent;
            && sent[i].id != sent[j].id
            && (sent[i].via == sent[j].via && sent[i].receiver == sent[j].receiver ==> sent[i].id < sent[j].id)
  {
    hide Run, Start;
    Reached(cfg, lines, now, events);
    var l := After(cfg, lines, now, events).log;
    assert SentEntry(l, l.sent[i]) && SentEntry(l, l.sent[j]);
  }

  // ------------------------------------------------------------------ conservation

  ghost predicate Received(s: State, id: nat) {
    exists k :: k in s.epts && Has(s.epts[k].recvQ, id)
  }

  ghost predicate Forwarded(s: State, id: nat) {
    exists k :: k in s.epts && Has(s.epts[k].sendQ, id)
  }

  /** Every accepted datagram is in a receive queue, in a send queue, sent or lost, as the log says, and never in two. */
  lemma {:induction false} Conservation(cfg: Config, lines: seq<Line>, now: int, events: seq<Event>, id: nat)
    requires Runs(cfg, lines, now, events) && id < |After(cfg, lines, now, events).log.accepted|
    ensures var s := After(cfg, lines, now, events);
            && id < |s.log.place|
            && (s.log.place[id] == InRecvQ <==> Received(s, id))
            && (s.log.place[id] == InSendQ <==> Forwarded(s, id))
            && (s.log.place[id] == Sent <==> HasDeparted(s.log.sent, id))
            && (s.log.place[id].Lost? <==> !Received(s, id) && !Forwarded(s, id) && !HasDeparted(s.log.sent, id))
  {
    hide Run, Start;
    Reached(cfg, lines, now, events);
    PlaceExact(After(cfg, lines, now, events), id);
  }

  lemma {:induction false} PlaceExact(s: State, id: nat)
    requires Facts(s) && Tied(s) && id < |s.log.accepted|
    ensures s.log.place[id] == InRecvQ <==> Received(s, id)
    ensures s.log.place[id] == InSendQ <==> Forwarded(s, id)
    ensures s.log.place[id] == Sent <==> HasDeparted(s.log.sent, id)
  {
    assert TiedAt(s, id);
    if Received(s, id) {
      var k :| k in s.epts && Has(s.epts[k].recvQ, id);
      var j :| 0 <= j < |s.epts[k].recvQ| && s.epts[k].recvQ[j].id == id;
      assert RecvEntry(s.log, k, s.epts[k].recvQ[j]);
    }
    if Forwarded(s, id) {
      var k :| k in s.epts && Has(s.epts[k].sendQ, id);
      var j :| 0 <= j < |s.epts[k].sendQ| && s.epts[k].sendQ[j].id == id;
      assert SendEntry(s.log, k, s.epts[k].sendQ[j]);
    }
    if HasDeparted(s.log.sent, id) {
      var j :| 0 <= j < |s.log.sent| && s.log.sent[j].id == id;
      assert SentEntry(s.log, s.log.sent[j]);
    }
  }

  /** No datagram is queued twice, in the same queue or at different endpoints. */
  lemma {:induction false} QueuedOnce(cfg: Config, lines: seq<Line>, now: int, events: seq<Event>, k: Addr, x: Addr, i: nat, j: nat)
    requires Runs(cfg, lines, now, events)
    requires k in After(cfg, lines, now, events).epts && x in After(cfg, lines, now, events).epts
    ensures var s := After(cfg, lines, now, events);
            && (i < |s.epts[k].recvQ| && j < |s.epts[x].recvQ| && s.epts[k].recvQ[i].id == s.epts[x].recvQ[j].id ==> k == x && i == j)
            && (i < |s.epts[k].sendQ| && j < |s.epts[x].sendQ| && s.epts[k].sendQ[i].id == s.epts[x].sendQ[j].id ==> k == x && i == j)
  {
    hide Run, Start;
    Reached(cfg, lines, now, events);
    var s := After(cfg, lines, now, events);
    if i < |s.epts[k].recvQ| && j < |s.epts[x].recvQ| {
      assert RecvEntry(s.log, k, s.epts[k].recvQ[i]) && RecvEntry(s.log, x, s.epts[x].recvQ[j]);
    }
    if i < |s.epts[k].sendQ| && j < |s.epts[x].sendQ| {
      assert SendEntry(s.log, k, s.epts[k].sendQ[i]) && SendEntry(s.log, x, s.epts[x].sendQ[j]);
    }
  }

  /** When a step loses datagram `id`, and for which of the four causes. */
  predicate Loses(cfg: Config, s: State, ev: Event, id: nat, cause: Cause)
    requires Enabled(s, ev) && |s.log.place| == |s.log.accepted| && id < |s.log.accepted|
  {
    if ev.Enter? then
      cause == Erased && Expired(cfg, s.epts[s.phase.todo[0]], s.now) && Queued(s.log, id, s.phase.todo[0])
    else if Moves(cfg, s, ev) then
      var m := Head(s);
      match cause
      case QueueFull => id == m.id && Known(s, m.peer) && |s.epts[m.peer].sendQ| >= MAX_UDP_MSG_QUEUE_SIZE
      case OpenFailed => id == m.id && !Known(s, m.peer) && ev.o != Bound
      case Overwritten => m.peer in s.newKeys && ev.o == Bound && Queued(s.log, id, m.peer)
      case Erased => false
    else false
  }

  /** A datagram is lost in exactly the listed cases; what is sent or lost stays so. */
  lemma {:induction false} LostIff(cfg: Config, s: State, ev: Event, id: nat, cause: Cause)
    requires Inv(s) && Enabled(s, ev) && id < |s.log.accepted|
    ensures var p := Step(cfg, s, ev).log.place;
            && id < |p|
            && (s.log.place[id].Lost? || s.log.place[id] == Sent ==> p[id] == s.log.place[id])
            && (!s.log.place[id].Lost? ==> (p[id] == Lost(cause) <==> Loses(cfg, s, ev, id, cause)))
  {
    if Moves(cfg, s, ev) {
      MoveLostIff(cfg, s, ev, id, cause);
    } else if ev.Enter? {
      EnterLostIff(cfg, s, id, cause);
    } else {
      OthersLoseNothing(cfg, s, ev, id);
    }
    hide Step, Moves, Inv, Expired, Queued;
  }

  lemma {:induction false} EnterLostIff(cfg: Config, s: State, id: nat, cause: Cause)
    requires Facts(s) && Enabled(s, Enter) && id < |s.log.accepted|
    ensures var p := EnterEpt(cfg, s).log.place;
            && id < |p|
            && (s.log.place[id].Lost? || s.log.place[id] == Sent ==> p[id] == s.log.place[id])
            && (!s.log.place[id].Lost? ==> (p[id] == Lost(cause) <==> Loses(cfg, s, Enter, id, cause)))
  {
    assert |s.log.place| == |s.log.accepted|;
    hide RefillBoth, Moves, Facts, Expired;
  }

  lemma {:induction false} OthersLoseNothing(cfg: Config, s: State, ev: Event, id: nat)
    requires Inv(s) && Enabled(s, ev) && id < |s.log.accepted| && !Moves(cfg, s, ev) && !ev.Enter?
    ensures var p := Step(cfg, s, ev).log.place;
            && id < |p| && (s.log.place[id].Lost? || s.log.place[id] == Sent ==> p[id] == s.log.place[id])
            && (p[id].Lost? ==> s.log.place[id].Lost?)
  {
    hide Got, Lose, Handled, Errored, Break, SendHead, Store, Payload, MoveOn;
    if Sends(cfg, s, ev) {
      assert SendEntry(s.log, s.phase.todo[0], s.epts[s.phase.todo[0]].sendQ[0]);
    }
    hide Inv, MaySend;
  }

  /** What a move does to the log. */
  lemma {:induction false} MoveLog(cfg: Config, s: State, ev: Event)
    requires Facts(s) && Enabled(s, ev) && Moves(cfg, s, ev)
    ensures var m, k := Head(s), s.phase.todo[0];
            var l := if Known(s, m.peer) || ev.o != Bound then s.log else LoseAll(s.log, m.peer, Overwritten);
            var full := Known(s, m.peer) && |s.epts[m.peer].sendQ| >= MAX_UDP_MSG_QUEUE_SIZE;
            Step(cfg, s, ev).log
            == Pass(l, m, k, if !Known(s, m.peer) && ev.o != Bound then Lost(OpenFailed) else if full then Lost(QueueFull) else InSendQ)
  {
    var k := s.phase.todo[0];
    MoveOnLog(cfg, PayMove(cfg, s, k), k, ev.o, ev.t);
    hide MoveOn, LoseAll, Pass;
  }

  lemma {:induction false} MoveOnLog(cfg: Config, s: State, k: Addr, o: Opening, t: int)
    requires k in s.epts && s.epts[k].recvQ != [] && s.epts[k].recvQ[0].peer != k
    ensures var m := s.epts[k].recvQ[0];
            var l := if Known(s, m.peer) || o != Bound then s.log else LoseAll(s.log, m.peer, Overwritten);
            var full := Known(s, m.peer) && |s.epts[m.peer].sendQ| >= MAX_UDP_MSG_QUEUE_SIZE;
            MoveOn(cfg, s, k, o, t).log
            == Pass(l, m, k, if !Known(s, m.peer) && o != Bound then Lost(OpenFailed) else if full then Lost(QueueFull) else InSendQ)
  {
    hide LoseAll, Pass, TakeHead, Deliver, Touch;
  }

  lemma {:induction false} HeadFacts(cfg: Config, s: State, ev: Event)
    requires Facts(s) && Enabled(s, ev) && Moves(cfg, s, ev)
    ensures var id := Head(s).id;
            id < |s.log.accepted| == |s.log.place| && s.log.place[id] == InRecvQ && s.log.accepted[id].on == s.phase.todo[0]
  {
    assert RecvEntry(s.log, s.phase.todo[0], Head(s));
  }

  lemma {:induction false} QueuedPresent(s: State, id: nat, x: Addr)
    requires Tied(s) && id < |s.log.accepted| && Queued(s.log, id, x)
    ensures x in s.epts
  {
    assert TiedAt(s, id);
  }

  lemma {:induction false} MoveLostIff(cfg: Config, s: State, ev: Event, id: nat, cause: Cause)
    requires Keys(s) && Facts(s) && Tied(s) && Enabled(s, ev) && Moves(cfg, s, ev) && id < |s.log.accepted|
    ensures var p := Step(cfg, s, ev).log.place;
            && id < |p|
            && (s.log.place[id].Lost? || s.log.place[id] == Sent ==> p[id] == s.log.place[id])
            && (!s.log.place[id].Lost? ==> (p[id] == Lost(cause) <==> Loses(cfg, s, ev, id, cause)))
  {
    HeadFacts(cfg, s, ev);
    MoveLog(cfg, s, ev);
    hide Step, Tied, Facts, Keys, MayMove;
    if Queued(s.log, id, Head(s).peer) {
      QueuedPresent(s, id, Head(s).peer);
    }
  }

  // ------------------------------------------------------------------ time, queues and budgets

  /** When the head of a receive queue is not due, nothing behind it is. */
  lemma {:induction false} HeadDueFirst(cfg: Config, lines: seq<Line>, now: int, events: seq<Event>, k: Addr, i: nat)
    requires Runs(cfg, lines, now, events) && k in After(cfg, lines, now, events).epts
    requires i < |After(cfg, lines, now, events).epts[k].recvQ|
    requires After(cfg, lines, now, events).now < After(cfg, lines, now, events).epts[k].recvQ[0].time
    ensures After(cfg, lines, now, events).now < After(cfg, lines, now, events).epts[k].recvQ[i].time
  {
    hide Run, Start;
    Reached(cfg, lines, now, events);
    assert StampsOk(After(cfg, lines, now, events).epts[k], After(cfg, lines, now, events).clock, After(cfg, lines, now, events).now);
  }

  /** Send queues are bounded on every run. */
  lemma {:induction false} SendQueueBound(cfg: Config, lines: seq<Line>, now: int, events: seq<Event>, k: Addr)
    requires Runs(cfg, lines, now, events) && k in After(cfg, lines, now, events).epts
    ensures |After(cfg, lines, now, events).epts[k].sendQ| <= MAX_UDP_MSG_QUEUE_SIZE
  {
    hide Run, Start;
    Reached(cfg, lines, now, events);
  }

  /** No socket is reopened while receiving is off or a receive that has ended waits for its handler. */
  predicate Clean(cfg: Config, s: State, events: seq<Event>)
    requires Run(cfg, s, events).Some?
    decreases |events|
  {
    events == [] ||
    (Clean(cfg, s, Front(events)) && !UdpTable.ReopensBusy(cfg, Run(cfg, s, Front(events)).value, Last(events)))
  }

  /** The flags are right after every prefix of the run. */
  ghost predicate FlagsThroughout(cfg: Config, s: State, events: seq<Event>)
    requires Run(cfg, s, events).Some?
    decreases |events|
  {
    Flags(Run(cfg, s, events).value) && (events != [] ==> FlagsThroughout(cfg, s, Front(events)))
  }

  /**
   Receive queues are bounded and the receiving flag is exact throughout a run iff no socket is reopened while receiving is
   off or a receive that has ended waits for its handler.
   */
  lemma {:induction false} ReceivingExactIff(cfg: Config, lines: seq<Line>, now: int, events: seq<Event>)
    requires Runs(cfg, lines, now, events)
    ensures FlagsThroughout(cfg, Start(lines, now), events) <==> Clean(cfg, Start(lines, now), events)
    decreases |events|
  {
    var s := Start(lines, now);
    hide Start, Step, Enabled, Flags, UdpTable.ReopensBusy, Started;
    if events == [] {
      StartIs(lines, now);
      StartedInv(s, now);
    } else {
      ReceivingExactIff(cfg, lines, now, Front(events));
      Reached(cfg, lines, now, Front(events));
      var s1 := Run(cfg, s, Front(events)).value;
      if Clean(cfg, s, Front(events)) {
        assert Flags(s1);
        UdpTable.StepFlags(cfg, s1, Last(events));
      }
    }
  }

  /** What is charged to either budget of a client stays within the limit's quota plus one largest datagram. */
  lemma {:induction false} UdpRateBound(cfg: Config, lines: seq<Line>, now: int, events: seq<Event>, k: Addr)
    requires Runs(cfg, lines, now, events) && k in After(cfg, lines, now, events).epts
    requires Metered(After(cfg, lines, now, events).epts[k])
    ensures var s := After(cfg, lines, now, events);
            var e := s.epts[k];
            && (e.recvLedger.charged > 0 ==>
                  e.recvLedger.origin <= s.now &&
                  e.recvLedger.charged <= Quota(e.rule.bandwidth, s.now - e.recvLedger.origin) + LARGEST_DATAGRAM)
            && (e.sendLedger.charged > 0 ==>
                  e.sendLedger.origin <= s.now &&
                  e.sendLedger.charged <= Quota(e.rule.bandwidth, s.now - e.sendLedger.origin) + LARGEST_DATAGRAM)
  {
    hide Run, Start;
    Reached(cfg, lines, now, events);
    var s := After(cfg, lines, now, events);
    var e := s.epts[k];
    assert BudgetsOk(e, LastRefill(s, k));
    assert Unfilled(s, k) ==> 0 < s.phase.interval;
    assert LastRefill(s, k) <= s.now;
    if e.recvLedger.charged > 0 {
      RateBound(e.rule.bandwidth, LARGEST_DATAGRAM, e.recvAvail, e.recvLedger, LastRefill(s, k));
      QuotaMonotone(e.rule.bandwidth, LastRefill(s, k) - e.recvLedger.origin, s.now - e.recvLedger.origin);
    }
    if e.sendLedger.charged > 0 {
      RateBound(e.rule.bandwidth, LARGEST_DATAGRAM, e.sendAvail, e.sendLedger, LastRefill(s, k));
      QuotaMonotone(e.rule.bandwidth, LastRefill(s, k) - e.sendLedger.origin, s.now - e.sendLedger.origin);
    }
  }

  // ------------------------------------------------------------------ progress

  /** The keys of a table in some order. */
  lemma {:induction false} OrderOf(keys: set<Addr>) returns (order: seq<Addr>)
    ensures NoDuplicates(order) && forall k :: k in keys <==> k in order
  {
    order := [];
    var rest := keys;
    while rest != {}
      invariant rest <= keys && NoDuplicates(order)
      invariant forall k :: k in order <==> k in keys && k !in rest
    {
      var k :| k in rest;
      order, rest := order + [k], rest - {k};
    }
  }

  lemma {:induction false} OrderFrom(keys: set<Addr>, k: Addr) returns (order: seq<Addr>)
    requires k in keys
    ensures NoDuplicates(order) && (forall a :: a in keys <==> a in order) && order != [] && order[0] == k
  {
    var others := OrderOf(keys - {k});
    order := [k] + others;
    assert forall a :: a in order <==> a == k || a in others;
  }

  /** The routine thread can always take its next step: every key it has still to visit is in the table. */
  lemma {:induction false} RoutineNeverStuck(cfg: Config, lines: seq<Line>, now: int, events: seq<Event>) returns (next: Event)
    requires Runs(cfg, lines, now, events)
    ensures Enabled(After(cfg, lines, now, events), next)
    ensures next.BeginPass? || next.Enter? || next.Move? || next.EndMoving? || next.Send? || next.EndPass?
  {
    hide Run, Start;
    Reached(cfg, lines, now, events);
    var s := After(cfg, lines, now, events);
    var order := OrderOf(s.epts.Keys);
    assert IsOrder(s, order);
    next := match s.phase
      case Resting => BeginPass(s.clock, order)
      case Moving(todo, entered, _) => if todo == [] then EndMoving(order) else if entered then Move(Bound, s.clock) else Enter
      case Sending(todo, _) => if todo == [] then EndPass else Send(true, Bound, s.clock);
  }
}
