/**
 Whether datagrams leave as they came. A socket normally has one receive at a time, into the endpoint's message buffer; as
 long as that is so, what leaves is what came in. With two receives at once it need not be.
 */
module UdpIntegrity {
  import opened Base
  import opened Udp
  import opened UdpInvariants
  import opened UdpSteps
  import opened UdpTheorems
  import UdpTable
  import UdpBuffers

  /** After every prefix of the run, every socket has at most one receive that is waiting or not yet handled. */
  predicate Single(cfg: Config, s: State, events: seq<Event>)
    requires Run(cfg, s, events).Some?
    decreases |events|
  {
    AtMostOne(Run(cfg, s, events).value) && (events != [] ==> Single(cfg, s, Front(events)))
  }

  lemma {:induction false} RunIntact(cfg: Config, lines: seq<Line>, now: int, events: seq<Event>)
    requires Runs(cfg, lines, now, events) && Single(cfg, Start(lines, now), events)
    ensures Intact(After(cfg, lines, now, events))
    decreases |events|
  {
    hide Start, Started, Step, Enabled, Intact, AtMostOne, Memory, Apart, Sizes, Journey, Budgets, Keys, Visits, Stamps, SendQueues;
    if events == [] {
      StartIs(lines, now);
      StartedInv(Start(lines, now), now);
    } else {
      RunIntact(cfg, lines, now, Front(events));
      Reached(cfg, lines, now, Front(events));
      JourneyFacts(After(cfg, lines, now, Front(events)));
      UdpBuffers.StepIntact(cfg, After(cfg, lines, now, Front(events)), Last(events));
    }
  }

  lemma {:induction false} JourneyFacts(s: State)
    requires Journey(s)
    ensures Facts(s)
  {
  }

  /** Runs in which no socket is reopened at a wrong moment have one receive at a time. */
  lemma {:induction false} CleanIsSingle(cfg: Config, lines: seq<Line>, now: int, events: seq<Event>)
    requires Runs(cfg, lines, now, events) && Clean(cfg, Start(lines, now), events)
    ensures Single(cfg, Start(lines, now), events)
    decreases |events|
  {
    ReceivingExactIff(cfg, lines, now, events);
    FlagsGiveOne(After(cfg, lines, now, events));
    hide Start, Step, Enabled, UdpTable.ReopensBusy, Flags, AtMostOne;
    if events != [] {
      CleanIsSingle(cfg, lines, now, Front(events));
    }
  }

  lemma {:induction false} FlagsGiveOne(s: State)
    requires Flags(s)
    ensures AtMostOne(s)
  {
  }

  /**
   What leaves endpoint X's socket for Y was recorded as received on endpoint Y's socket from address X, and is due. If no
   socket ever had two receives at once, it did come from X, and its bytes are those that came in.
   */
  lemma {:induction false} Translation(cfg: Config, lines: seq<Line>, now: int, events: seq<Event>, i: nat)
    requires Runs(cfg, lines, now, events) && i < |After(cfg, lines, now, events).log.sent|
    ensures var l := After(cfg, lines, now, events).log;
            var d := l.sent[i];
            && d.id < |l.accepted|
            && l.accepted[d.id].on == d.receiver && l.accepted[d.id].from == d.via && l.accepted[d.id].due <= d.at
            && (Single(cfg, Start(lines, now), events) ==>
                  l.accepted[d.id].sender == d.via && l.accepted[d.id].data == d.payload)
  {
    Reached(cfg, lines, now, events);
    var s := After(cfg, lines, now, events);
    assert SentEntry(s.log, s.log.sent[i]);
    if Single(cfg, Start(lines, now), events) {
      RunIntact(cfg, lines, now, events);
      assert TrueOn(s, s.log.sent[i].receiver);
      assert TrueEntry(s.memory, s.log.accepted[s.log.sent[i].id]);
    }
    hide Run, Start, Single, Inv, Payload;
  }

  /** The assertion of line 196 does not fail as long as no socket has two receives at once. */
  lemma {:induction false} NoClash(cfg: Config, lines: seq<Line>, now: int, events: seq<Event>)
    requires Runs(cfg, lines, now, events) && Single(cfg, Start(lines, now), events)
    ensures !After(cfg, lines, now, events).clash
    decreases |events|
  {
    if events == [] {
      StartIs(lines, now);
      hide Start;
    } else {
      hide Start, Step, Enabled, Intact;
      NoClash(cfg, lines, now, Front(events));
      RunIntact(cfg, lines, now, Front(events));
      Reached(cfg, lines, now, Front(events));
      StepNoClash(cfg, After(cfg, lines, now, Front(events)), Last(events));
    }
  }

  lemma {:induction false} StepNoClash(cfg: Config, s: State, ev: Event)
    requires Facts(s) && Intact(s) && Enabled(s, ev) && !s.clash
    ensures !Step(cfg, s, ev).clash
  {
    if ev.Move? {
      var k := s.phase.todo[0];
      if s.epts[k].recvQ != [] {
        assert RecvEntry(s.log, k, s.epts[k].recvQ[0]);
        assert TrueOn(s, k);
      }
      if Moves(cfg, s, ev) {
        MoveOnRest(cfg, PayMove(cfg, s, k), k, ev.o, ev.t);
      }
    }
    hide MoveOn, Got, Lose, Handled, Errored, LoseAll, Payload, Store, Depart, Facts, Intact;
  }

  // ------------------------------------------------------------------ two receives at once

  /** Client endpoints never have two: they are not reopened. */
  ghost predicate ClientFlags(s: State) {
    forall k <- s.epts :: !s.epts[k].server ==> FlagsOk(s.epts[k])
  }

  lemma {:induction false} StepClientFlags(cfg: Config, s: State, ev: Event)
    requires Keys(s) && ClientFlags(s) && Enabled(s, ev)
    ensures ClientFlags(Step(cfg, s, ev))
  {
    var s' := Step(cfg, s, ev);
    forall a | a in s'.epts && !s'.epts[a].server ensures FlagsOk(s'.epts[a]) {
      StepAt(cfg, s, ev, a);
      if Makes(cfg, s, ev, a) {
        UdpTable.MadeFlags(cfg, s, ev);
      } else {
        UdpTable.KeptRule(cfg, s, ev, a);
        UdpTable.KeptFlags(cfg, s, ev, a);
      }
    }
    hide Step, Kept, Made, FlagsOk, MaySend;
  }

  lemma {:induction false} RunClientFlags(cfg: Config, lines: seq<Line>, now: int, events: seq<Event>)
    requires Runs(cfg, lines, now, events)
    ensures ClientFlags(After(cfg, lines, now, events))
    decreases |events|
  {
    hide Start, Started, Step, Enabled, FlagsOk;
    if events == [] {
      StartIs(lines, now);
      StartedInv(Start(lines, now), now);
    } else {
      RunClientFlags(cfg, lines, now, Front(events));
      Reached(cfg, lines, now, Front(events));
      hide ClientFlags;
      StepClientFlags(cfg, After(cfg, lines, now, Front(events)), Last(events));
    }
  }
}
