/** What the clients' budgets pay for, over whole runs. */
module UdpCharges {
  import opened Base
  import opened TokenBucket
  import opened Udp
  import opened UdpInvariants
  import opened UdpSteps
  import opened UdpTheorems
  import UdpTable

  // ------------------------------------------------------------------ an endpoint's own budgets

  /** The size, with an overhead for each, of what left through the socket of endpoint k after the first n departures. */
  function SentCost(sent: seq<Departure>, k: Addr, n: nat): nat
    decreases |sent|
  {
    if |sent| <= n then 0
    else SentCost(Front(sent), k, n) + if Last(sent).via == k then |Last(sent).payload| + UDP_PACKET_EXTRA_OVERHEAD else 0
  }

  function TakenCost(taken: seq<Taken>, k: Addr, n: nat): nat
    decreases |taken|
  {
    if |taken| <= n then 0
    else TakenCost(Front(taken), k, n) + if Last(taken).on == k then Last(taken).size + UDP_PACKET_EXTRA_OVERHEAD else 0
  }

  /** A client is charged for what left through its socket, and for what left its receive queue, since it was made. */
  ghost predicate PaidAt(s: State, k: Addr)
    requires k in s.epts
  {
    var e := s.epts[k];
    && e.sentBefore <= |s.log.sent| && e.takenBefore <= |s.log.taken|
    && (Metered(e) ==>
          && e.sendLedger.charged == SentCost(s.log.sent, k, e.sentBefore)
          && e.recvLedger.charged == TakenCost(s.log.taken, k, e.takenBefore))
  }

  ghost predicate Paid(s: State) {
    forall k <- s.epts :: PaidAt(s, k)
  }

  /** Only what is taken from a queue and what is sent is charged. */
  lemma {:induction false} KeptCharges(cfg: Config, s: State, ev: Event, a: Addr)
    requires Enabled(s, ev) && a in s.epts
    ensures var e, r := s.epts[a], Kept(cfg, s, ev, a);
            && r.sentBefore == e.sentBefore && r.takenBefore == e.takenBefore
            && (Metered(e) ==>
                  && r.sendLedger.charged == e.sendLedger.charged + (if Sends(cfg, s, ev) && a == s.phase.todo[0] then Cost(e.sendQ[0]) else 0)
                  && r.recvLedger.charged == e.recvLedger.charged + (if Moves(cfg, s, ev) && a == s.phase.todo[0] then Cost(e.recvQ[0]) else 0))
  {
    hide Got, Lose, Handled, Errored, Break, Init, Touch, Given, Message, MayMove, MaySend;
    if ev.Send? {
      hide TakeHead, RefillBoth;
    } else if ev.Move? {
      hide SendHead, RefillBoth;
    } else {
      hide SendHead, TakeHead;
    }
  }

  lemma {:induction false} MadeCharges(cfg: Config, s: State, ev: Event)
    requires Enabled(s, ev) && Moves(cfg, s, ev)
    ensures var e := Deliver(Made(cfg, s, ev), Head(s), s.phase.todo[0]);
            e.sentBefore == |s.log.sent| && e.takenBefore == |s.log.taken| && e.sendLedger.charged == 0 == e.recvLedger.charged
  {
  }

  lemma {:induction false} SentCostNext(sent: seq<Departure>, d: Departure, k: Addr, n: nat)
    requires n <= |sent|
    ensures SentCost(sent + [d], k, n) == SentCost(sent, k, n) + if d.via == k then |d.payload| + UDP_PACKET_EXTRA_OVERHEAD else 0
  {
    assert Front(sent + [d]) == sent;
  }

  lemma {:induction false} TakenCostNext(taken: seq<Taken>, d: Taken, k: Addr, n: nat)
    requires n <= |taken|
    ensures TakenCost(taken + [d], k, n) == TakenCost(taken, k, n) + if d.on == k then d.size + UDP_PACKET_EXTRA_OVERHEAD else 0
  {
    assert Front(taken + [d]) == taken;
  }

  /** The payload that leaves has the size that is charged. */
  lemma {:induction false} LeavingSize(s: State)
    requires Memory(s) && Sizes(s) && Facts(s)
    requires s.phase.Sending? && s.phase.todo != [] && s.phase.todo[0] in s.epts && s.epts[s.phase.todo[0]].sendQ != []
    ensures |Leaving(s).payload| == s.epts[s.phase.todo[0]].sendQ[0].size
  {
    var k := s.phase.todo[0];
    assert SizesOk(s.epts[k], k) && SendEntry(s.log, k, s.epts[k].sendQ[0]);
  }

  lemma {:induction false} StepPaid(cfg: Config, s: State, ev: Event, a: Addr)
    requires Paid(s) && Keys(s) && Visits(s) && Memory(s) && Sizes(s) && Facts(s) && Enabled(s, ev) && a in Step(cfg, s, ev).epts
    ensures PaidAt(Step(cfg, s, ev), a)
  {
    StepAt(cfg, s, ev, a);
    StepRest(cfg, s, ev);
    if Sends(cfg, s, ev) {
      LeavingSize(s);
    }
    hide Step, Keys, Visits, Memory, Sizes, Facts;
    if Makes(cfg, s, ev, a) {
      MadeCharges(cfg, s, ev);
      NewPays(cfg, s, ev, a);
    } else {
      KeptCharges(cfg, s, ev, a);
      UdpTable.KeptRule(cfg, s, ev, a);
      assert PaidAt(s, a);
      hide Kept;
      if Sends(cfg, s, ev) {
        SentCostNext(s.log.sent, Leaving(s), a, s.epts[a].sentBefore);
      }
      if Moves(cfg, s, ev) {
        TakenCostNext(s.log.taken, Taken(Head(s).id, s.phase.todo[0], Head(s).size), a, s.epts[a].takenBefore);
      }
      hide SentCost, TakenCost, Leaving, MayMove, MaySend, Made, Makes;
    }
  }

  /** An endpoint is made for another than the one whose datagram is taken. */
  lemma {:induction false} NewPays(cfg: Config, s: State, ev: Event, a: Addr)
    requires Enabled(s, ev) && Makes(cfg, s, ev, a)
    ensures a != s.phase.todo[0]
    ensures SentCost(s.log.sent, a, |s.log.sent|) == 0
    ensures TakenCost(s.log.taken + [Taken(Head(s).id, s.phase.todo[0], Head(s).size)], a, |s.log.taken|) == 0
  {
    TakenCostNext(s.log.taken, Taken(Head(s).id, s.phase.todo[0], Head(s).size), a, |s.log.taken|);
  }

  lemma {:induction false} RunPaid(cfg: Config, lines: seq<Line>, now: int, events: seq<Event>)
    requires Runs(cfg, lines, now, events)
    ensures Paid(After(cfg, lines, now, events))
    decreases |events|
  {
    if events == [] {
      StartIs(lines, now);
      StartedPaid(Start(lines, now), now);
      hide Start;
    } else {
      hide Start, Step, Enabled, PaidAt;
      RunPaid(cfg, lines, now, Front(events));
      Reached(cfg, lines, now, Front(events));
      var s := After(cfg, lines, now, Front(events));
      forall k <- Step(cfg, s, Last(events)).epts ensures PaidAt(Step(cfg, s, Last(events)), k) {
        StepPaid(cfg, s, Last(events), k);
      }
    }
  }

  lemma {:induction false} StartedPaid(s: State, now: int)
    requires Started(s, now)
    ensures Paid(s)
  {
    forall k <- s.epts ensures PaidAt(s, k) {
      assert Untouched(s.epts[k], k, now);
    }
  }

  /**
   What the rate bound means for the traffic: a metered client was charged exactly for what left through its socket, and
   for what left its receive queue, since it was made. So this, too, keeps the bandwidth times the time since the first
   charge plus one largest datagram.
   */
  lemma {:induction false} TrafficBound(cfg: Config, lines: seq<Line>, now: int, events: seq<Event>, k: Addr)
    requires Runs(cfg, lines, now, events) && k in After(cfg, lines, now, events).epts
    requires Metered(After(cfg, lines, now, events).epts[k])
    ensures var s := After(cfg, lines, now, events);
            var e := s.epts[k];
            var sent, taken := SentCost(s.log.sent, k, e.sentBefore), TakenCost(s.log.taken, k, e.takenBefore);
            && e.sendLedger.charged == sent && e.recvLedger.charged == taken
            && (sent > 0 ==> sent <= Quota(e.rule.bandwidth, Elapsed(s.now, e.sendLedger.origin)) + LARGEST_DATAGRAM)
            && (taken > 0 ==> taken <= Quota(e.rule.bandwidth, Elapsed(s.now, e.recvLedger.origin)) + LARGEST_DATAGRAM)
  {
    RunPaid(cfg, lines, now, events);
    assert PaidAt(After(cfg, lines, now, events), k);
    hide Run, Start, SentCost, TakenCost, Quota;
    UdpRateBound(cfg, lines, now, events, k);
  }

  function Elapsed(now: int, since: int): nat {
    if since <= now then now - since else 0
  }

  // ------------------------------------------------------------------ what is taken is what was accepted

  /** What was taken from a receive queue is an accepted datagram, taken once, and never back. */
  ghost predicate TakenOk(s: State) {
    && |s.log.place| == |s.log.accepted|
    && (forall i | 0 <= i < |s.log.taken| ::
          && s.log.taken[i].id < |s.log.accepted| && s.log.place[s.log.taken[i].id] != InRecvQ
          && s.log.accepted[s.log.taken[i].id].on == s.log.taken[i].on
          && s.log.accepted[s.log.taken[i].id].size == s.log.taken[i].size)
    && (forall i, j | 0 <= i < j < |s.log.taken| :: s.log.taken[i].id != s.log.taken[j].id)
  }

  /** Nothing returns to a receive queue, and what is taken leaves it. */
  lemma {:induction false} StepPlaces(cfg: Config, s: State, ev: Event)
    requires Facts(s) && Enabled(s, ev)
    ensures var p, p' := s.log.place, Step(cfg, s, ev).log.place;
            && |p| <= |p'| == |Step(cfg, s, ev).log.accepted|
            && (forall id | 0 <= id < |p| && p[id] != InRecvQ :: p'[id] != InRecvQ)
            && (Moves(cfg, s, ev) && Head(s).id < |p| ==> p'[Head(s).id] != InRecvQ)
  {
    hide MoveOn, Got, Lose, Handled, Errored, RefillBoth, Store, Break, SendHead, Payload, NewBuffer, NullSendBudget, ChargeIp;
    if Moves(cfg, s, ev) {
      StepRest(cfg, s, ev);
      MoveLog(cfg, s, ev);
      hide Step, Moves, Makes, Sends, Known;
    } else if ev.Send? {
      hide Moves, MaySend, LoseAll;
    } else {
      hide Moves, Depart;
    }
  }

  lemma {:induction false} StepTaken(cfg: Config, s: State, ev: Event)
    requires Facts(s) && TakenOk(s) && Enabled(s, ev)
    ensures TakenOk(Step(cfg, s, ev))
  {
    StepRest(cfg, s, ev);
    StepPlaces(cfg, s, ev);
    if Moves(cfg, s, ev) {
      assert RecvEntry(s.log, s.phase.todo[0], Head(s));
    }
    hide Step, Moves, Makes, Sends, Facts;
  }

  /** So the costs above are those of datagrams that were accepted on k, each counted once. */
  lemma {:induction false} TakenOnce(cfg: Config, lines: seq<Line>, now: int, events: seq<Event>)
    requires Runs(cfg, lines, now, events)
    ensures TakenOk(After(cfg, lines, now, events))
    decreases |events|
  {
    if events == [] {
      StartIs(lines, now);
      hide Start;
    } else {
      hide Start, Step, Enabled, TakenOk;
      TakenOnce(cfg, lines, now, Front(events));
      Reached(cfg, lines, now, Front(events));
      StepTaken(cfg, After(cfg, lines, now, Front(events)), Last(events));
    }
  }

  // ------------------------------------------------------------------ the clients' own budgets

  function BalanceOf(ips: map<nat, Pair<int>>, ip: nat, i: Side): int {
    if ip in ips then ips[ip].At(i) else 0
  }

  /** The endpoint whose datagram a step pays for out of a client's own budget, for direction i. */
  predicate PaysFor(cfg: Config, s: State, ev: Event, k: Addr, i: Side)
    requires Enabled(s, ev)
  {
    && (ev.Move? || ev.Send?) && k == s.phase.todo[0] && !s.epts[k].server && cfg.ipLimit.At(i) > 0
    && (if i == 1 then Moves(cfg, s, ev) else ev.Send? && MaySend(cfg, s, s.epts[k], k))
  }

  /**
   A step takes from each direction of a client's own budget nothing, or one datagram with its overhead out of a balance
   that is not negative: exactly what the shared budget of IpBuckets permits its holders. A send is paid for even if it then
   fails.
   */
  lemma {:induction false} StepCharges(cfg: Config, s: State, ev: Event, ip: nat, i: Side)
    requires Sizes(s) && Enabled(s, ev) && !ev.OthersUseIps?
    ensures var before, after := BalanceOf(s.ips, ip, i), BalanceOf(Step(cfg, s, ev).ips, ip, i);
            var pays := exists k :: PaysFor(cfg, s, ev, k, i) && k.ip == ip;
            && (pays <==> after != before)
            && (pays ==> before >= 0 && UDP_PACKET_EXTRA_OVERHEAD <= before - after <= LARGEST_DATAGRAM)
  {
    if (ev.Move? || ev.Send?) {
      var k := s.phase.todo[0];
      assert SizesOk(s.epts[k], k);
      StepIps(cfg, s, ev);
      if PaysFor(cfg, s, ev, k, i) && k.ip == ip {
        assert exists x :: PaysFor(cfg, s, ev, x, i) && x.ip == ip;
      }
    } else {
      hide Got, Lose, Handled, Errored, RefillBoth, LoseAll, Store;
    }
    hide Step, Sizes, Looks;
    if i == 0 {
    } else {
    }
  }

  lemma {:induction false} StepIps(cfg: Config, s: State, ev: Event)
    requires Enabled(s, ev) && (ev.Move? || ev.Send?)
    ensures var k := s.phase.todo[0];
            var e := s.epts[k];
            Step(cfg, s, ev).ips
            == if Moves(cfg, s, ev) then ChargeIp(cfg, s.ips, e, k, 1, Cost(e.recvQ[0]))
               else if ev.Send? && MaySend(cfg, s, e, k) then ChargeIp(cfg, s.ips, e, k, 0, Cost(e.sendQ[0]))
               else s.ips
  {
    if Moves(cfg, s, ev) {
      MoveOnRest(cfg, PayMove(cfg, s, s.phase.todo[0]), s.phase.todo[0], ev.o, ev.t);
    }
    hide MoveOn, ChargeIp, Break, SendHead, Depart, Payload;
  }
}
