/** What the balances of a UDP client are exactly, over whole runs. */
module UdpBalances {
  import opened Base
  import opened TokenBucket
  import opened Udp
  import opened UdpInvariants
  import opened UdpSteps
  import opened UdpTheorems
  import opened UdpExact
  import opened UdpCharges
  import UdpTable

  /** The balance of a direction: 0 for sending, 1 for receiving. */
  function AvailOf(e: Ept, i: Side): int {
    if i == 0 then e.sendAvail else e.recvAvail
  }

  /** A move makes a new endpoint for k, in place of any other one for k. */
  predicate MadeFor(cfg: Config, s: State, ev: Event, k: Addr)
    requires Enabled(s, ev)
  {
    && ev.Move? && ev.o == Bound && Takes(cfg, s, s.phase.todo[0])
    && s.epts[s.phase.todo[0]].recvQ[0].peer == k && !Found(s, k)
  }

  /** What the visits of the passes have owed to direction i of endpoint k since it was made. */
  function Owed(cfg: Config, lines: seq<Line>, now: int, events: seq<Event>, k: Addr, i: Side): int
    requires Runs(cfg, lines, now, events)
    decreases |events|
  {
    if events == [] then 0
    else
      var s, ev := After(cfg, lines, now, Front(events)), Last(events);
      var before := Owed(cfg, lines, now, Front(events), k, i);
      if MadeFor(cfg, s, ev, k) then 0
      else if ev.Enter? && s.phase.todo[0] == k then
        before + Refreshed(s.epts[k], AvailOf(s.epts[k], i), Between(now, Front(events))) - AvailOf(s.epts[k], i)
      else before
  }

  ghost predicate RefilledBy(e: Ept, sending: int, receiving: int) {
    Metered(e) ==> e.sendLedger.refilled == sending && e.recvLedger.refilled == receiving
  }

  lemma {:induction false} KeptRefilled(cfg: Config, s: State, ev: Event, a: Addr)
    requires Enabled(s, ev) && a in s.epts && Metered(s.epts[a])
    ensures var e, r := s.epts[a], Kept(cfg, s, ev, a);
            var visit := ev.Enter? && a == s.phase.todo[0];
            && r.sendLedger.refilled == e.sendLedger.refilled + (if visit then Refreshed(e, e.sendAvail, s.phase.interval) - e.sendAvail else 0)
            && r.recvLedger.refilled == e.recvLedger.refilled + (if visit then Refreshed(e, e.recvAvail, s.phase.interval) - e.recvAvail else 0)
  {
    hide Got, Lose, Handled, Errored, Break, Init, Touch, Given, Message, MayMove, MaySend, Moves;
    if ev.Send? {
      hide TakeHead, RefillBoth;
    } else if ev.Move? {
      hide SendHead, RefillBoth;
    } else {
      hide SendHead, TakeHead;
    }
  }

  lemma {:induction false} MadeForIs(cfg: Config, s: State, ev: Event, k: Addr)
    requires Enabled(s, ev)
    ensures MadeFor(cfg, s, ev, k) <==> Makes(cfg, s, ev, k)
  {
    if ev.Move? {
      TakesIs(cfg, s, ev);
    }
    hide MayMove, Takes;
  }

  lemma {:induction false} MadeRefilled(cfg: Config, s: State, ev: Event)
    requires Enabled(s, ev) && Moves(cfg, s, ev)
    ensures RefilledBy(Deliver(Made(cfg, s, ev), Head(s), s.phase.todo[0]), 0, 0)
  {
  }

  lemma {:induction false} StartedRefilled(s: State, now: int, k: Addr)
    requires Started(s, now) && k in s.epts
    ensures RefilledBy(s.epts[k], 0, 0)
  {
    assert Untouched(s.epts[k], k, now);
  }

  lemma {:induction false} RunRefilled(cfg: Config, lines: seq<Line>, now: int, events: seq<Event>, k: Addr)
    requires Runs(cfg, lines, now, events) && k in After(cfg, lines, now, events).epts
    ensures RefilledBy(After(cfg, lines, now, events).epts[k], Owed(cfg, lines, now, events, k, 0), Owed(cfg, lines, now, events, k, 1))
    decreases |events|
  {
    hide Start, Started, Step, Enabled, Kept, Made, Makes, MadeFor, Evicts, Between;
    if events == [] {
      StartIs(lines, now);
      StartedRefilled(Start(lines, now), now, k);
    } else {
      var s, ev := After(cfg, lines, now, Front(events)), Last(events);
      StepAt(cfg, s, ev, k);
      MadeForIs(cfg, s, ev, k);
      if Makes(cfg, s, ev, k) {
        MakesMoves(cfg, s, ev, k);
        MadeRefilled(cfg, s, ev);
      } else {
        RunRefilled(cfg, lines, now, Front(events), k);
        UdpTable.KeptRule(cfg, s, ev, k);
        if Metered(s.epts[k]) {
          KeptRefilled(cfg, s, ev, k);
          IntervalIs(cfg, lines, now, Front(events), ev);
        }
      }
    }
  }

  lemma {:induction false} MakesMoves(cfg: Config, s: State, ev: Event, k: Addr)
    requires Enabled(s, ev) && Makes(cfg, s, ev, k)
    ensures Moves(cfg, s, ev)
  {
  }

  lemma {:induction false} IntervalIs(cfg: Config, lines: seq<Line>, now: int, events: seq<Event>, ev: Event)
    requires Runs(cfg, lines, now, events) && Enabled(After(cfg, lines, now, events), ev)
    ensures ev.Enter? ==> After(cfg, lines, now, events).phase.Moving? && After(cfg, lines, now, events).phase.interval == Between(now, events)
  {
    RunInTime(cfg, lines, now, events);
    hide Run, Start;
  }

  /**
   The balance of a client with a limit is exactly what the passes have owed it since it was made, less what has left through
   its socket, or its receive queue, since then, with an overhead for each datagram.
   */
  lemma {:induction false} BalanceExact(cfg: Config, lines: seq<Line>, now: int, events: seq<Event>, k: Addr)
    requires Runs(cfg, lines, now, events) && k in After(cfg, lines, now, events).epts
    requires var e := After(cfg, lines, now, events).epts[k]; !e.server && e.rule.bandwidth > 0
    ensures var s := After(cfg, lines, now, events);
            var e := s.epts[k];
            && e.sendAvail == Owed(cfg, lines, now, events, k, 0) - SentCost(s.log.sent, k, e.sentBefore)
            && e.recvAvail == Owed(cfg, lines, now, events, k, 1) - TakenCost(s.log.taken, k, e.takenBefore)
  {
    var s := After(cfg, lines, now, events);
    RunRefilled(cfg, lines, now, events, k);
    RunPaid(cfg, lines, now, events);
    Reached(cfg, lines, now, events);
    assert PaidAt(s, k) && BudgetsOk(s.epts[k], LastRefill(s, k));
    hide Run, Start, Keys, Visits, SendQueues, Stamps, Sizes, Memory, Apart, Journey, SentCost, TakenCost, Owed, LastRefill;
  }
}
