/**
 When the UDP thread follows a null pointer. An endpoint made from a line without a source port is taken for a client but
 has no budget of its own; whether that is ever consulted depends on the limits and on which endpoints can receive.
 */
module UdpNull {
  import opened Base
  import opened Udp
  import opened UdpInvariants
  import opened UdpSteps
  import opened UdpTheorems
  import UdpTable

  /** An endpoint that is taken for a client and has no budget. */
  predicate Portless(e: Ept) {
    !e.server && !e.hasIp
  }

  /** An endpoint of the configuration that works and accepts some datagrams. */
  predicate Accepts(e: Ept) {
    e.activeTm != 0 && e.rule.drop < 10000
  }

  /**
   What makes a configuration dangerous: a working endpoint without a source port, and either a limit for receiving and
   datagrams that it accepts, or a limit for sending and any endpoint, itself included, that accepts datagrams.
   */
  predicate Exposed(cfg: Config, epts: map<Addr, Ept>) {
    exists k :: k in epts && Portless(epts[k]) && epts[k].activeTm != 0
             && ((cfg.ipLimit.At(1) > 0 && epts[k].rule.drop < 10000) || (cfg.ipLimit.At(0) > 0 && exists j :: j in epts && Accepts(epts[j])))
  }

  // ------------------------------------------------------------------ no danger, no null pointer

  /** Never opened: it receives nothing and goes in the first pass. */
  predicate Dead(e: Ept) {
    e.activeTm == 0 && e.recvs == []
  }

  predicate Deaf(e: Ept) {
    e.recvQ == [] && e.sendQ == [] && (Dead(e) || e.rule.drop >= 10000)
  }

  ghost predicate Quiet(s: State) {
    forall a <- s.epts :: Deaf(s.epts[a])
  }

  ghost predicate Harmless(cfg: Config, s: State, k: Addr)
    requires k in s.epts
  {
    var e := s.epts[k];
    Portless(e) ==>
      || (Dead(e) && e.recvQ == [] && (s.phase == Resting || Unfilled(s, k)))
      || ((cfg.ipLimit.At(1) > 0 ==> e.rule.drop >= 10000 && e.recvQ == []) && (cfg.ipLimit.At(0) > 0 ==> Quiet(s)))
  }

  ghost predicate Safe(cfg: Config, s: State) {
    !s.nullBudget && forall k <- s.epts :: Harmless(cfg, s, k)
  }

  lemma {:induction false} KeptDead(cfg: Config, s: State, ev: Event, a: Addr)
    requires Enabled(s, ev) && a in s.epts && Dead(s.epts[a]) && s.epts[a].recvQ == []
    requires !s.epts[a].server || s.epts[a].sendQ == []
    ensures Dead(Kept(cfg, s, ev, a)) && Kept(cfg, s, ev, a).recvQ == []
  {
    assert Stop(s.epts[a]).recvs == [];
    hide Got, Lose, Handled, Errored, SendHead, RefillBoth, Given, Init, Stop;
  }

  lemma {:induction false} KeptDeaf(cfg: Config, s: State, ev: Event, a: Addr)
    requires Enabled(s, ev) && Quiet(s) && a in s.epts
    ensures Deaf(Kept(cfg, s, ev, a)) && !Moves(cfg, s, ev)
  {
    assert Deaf(s.epts[a]);
    assert ev.Move? ==> Deaf(s.epts[s.phase.todo[0]]);
    if Dead(s.epts[a]) {
      KeptDead(cfg, s, ev, a);
    }
    hide Got, Lose, Handled, Errored, Break, SendHead, RefillBoth, Init;
  }

  lemma {:induction false} StepQuiet(cfg: Config, s: State, ev: Event)
    requires Enabled(s, ev) && Quiet(s)
    ensures Quiet(Step(cfg, s, ev))
  {
    var s' := Step(cfg, s, ev);
    if ev.Move? {
      KeptDeaf(cfg, s, ev, s.phase.todo[0]);
    }
    forall a <- s'.epts ensures Deaf(s'.epts[a]) {
      StepAt(cfg, s, ev, a);
      if a in s.epts {
        KeptDeaf(cfg, s, ev, a);
      }
    }
    hide Step, Kept, Made, Deaf, MayMove;
  }

  /** What accepts nothing has nothing queued. */
  lemma {:induction false} KeptEmpty(cfg: Config, s: State, ev: Event, a: Addr)
    requires Enabled(s, ev) && a in s.epts && s.epts[a].recvQ == [] && s.epts[a].rule.drop >= 10000
    ensures Kept(cfg, s, ev, a).recvQ == [] && Kept(cfg, s, ev, a).rule.drop >= 10000
  {
    UdpTable.KeptRule(cfg, s, ev, a);
    hide Got, Lose, Handled, Errored, Break, SendHead, RefillBoth, Init, TakeHead, Touch, Given, MaySend, Message;
  }

  lemma {:induction false} StillUnfilled(cfg: Config, s: State, ev: Event, k: Addr)
    requires Visits(s) && Enabled(s, ev) && k in s.epts && !Evicts(cfg, s, ev, k)
    requires Dead(s.epts[k]) && (s.phase == Resting || Unfilled(s, k))
    ensures var p := Step(cfg, s, ev).phase; p == Resting || Unfilled(Step(cfg, s, ev), k)
  {
    StepPhase(cfg, s, ev);
    hide Step, Moves, Sends, MaySend;
    if ev.BeginPass? {
      assert k in ev.order;
    } else if s.phase.Moving? && s.phase.todo != [] {
      assert k in s.phase.todo <==> k == s.phase.todo[0] || k in s.phase.todo[1..];
    }
  }

  lemma {:induction false} StepHarmless(cfg: Config, s: State, ev: Event, k: Addr)
    requires Keys(s) && Visits(s) && Safe(cfg, s) && Enabled(s, ev) && k in Step(cfg, s, ev).epts
    ensures Harmless(cfg, Step(cfg, s, ev), k)
  {
    StepAt(cfg, s, ev, k);
    if Makes(cfg, s, ev, k) {
      UdpTable.MadeKey(cfg, s, ev);
    } else {
      UdpTable.KeptKey(cfg, s, ev, k);
      UdpTable.KeptRule(cfg, s, ev, k);
      var e := s.epts[k];
      assert Harmless(cfg, s, k);
      if Portless(e) {
        if Dead(e) && e.recvQ == [] && (s.phase == Resting || Unfilled(s, k)) {
          KeptDead(cfg, s, ev, k);
          StillUnfilled(cfg, s, ev, k);
        } else {
          if cfg.ipLimit.At(1) > 0 {
            KeptEmpty(cfg, s, ev, k);
          }
          if cfg.ipLimit.At(0) > 0 {
            StepQuiet(cfg, s, ev);
          }
        }
      }
    }
    hide Step, Kept, Made, Evicts, Quiet, Unfilled;
  }

  lemma {:induction false} StepNoNull(cfg: Config, s: State, ev: Event)
    requires Keys(s) && Visits(s) && Safe(cfg, s) && Enabled(s, ev)
    ensures !Step(cfg, s, ev).nullBudget
  {
    if ev.Move? || ev.Send? {
      var k := s.phase.todo[0];
      assert Harmless(cfg, s, k);
      assert Quiet(s) ==> Deaf(s.epts[k]);
      if Moves(cfg, s, ev) {
        MoveOnRest(cfg, PayMove(cfg, s, k), k, ev.o, ev.t);
      }
    }
    hide MoveOn, Got, Lose, Handled, Errored, SendHead, Break, Depart, Payload, Store, RefillBoth, LoseAll;
  }

  lemma {:induction false} StepSafe(cfg: Config, s: State, ev: Event)
    requires Keys(s) && Visits(s) && Safe(cfg, s) && Enabled(s, ev)
    ensures Safe(cfg, Step(cfg, s, ev))
  {
    StepNoNull(cfg, s, ev);
    forall k <- Step(cfg, s, ev).epts ensures Harmless(cfg, Step(cfg, s, ev), k) {
      StepHarmless(cfg, s, ev, k);
    }
    hide Step, Harmless;
  }

  lemma {:induction false} StartedSafe(cfg: Config, s: State, now: int)
    requires Started(s, now) && !Exposed(cfg, s.epts)
    ensures Safe(cfg, s)
  {
    forall k <- s.epts ensures Harmless(cfg, s, k) {
      var e := s.epts[k];
      assert Untouched(e, k, now);
      if Portless(e) && e.activeTm != 0 && cfg.ipLimit.At(0) > 0 {
        forall j <- s.epts ensures Deaf(s.epts[j]) {
          assert Untouched(s.epts[j], j, now);
          assert !Accepts(s.epts[j]);
        }
      }
    }
  }

  lemma {:induction false} NeverNull(cfg: Config, lines: seq<Line>, now: int, events: seq<Event>)
    requires Runs(cfg, lines, now, events) && !Exposed(cfg, Start(lines, now).epts)
    ensures Safe(cfg, After(cfg, lines, now, events))
    decreases |events|
  {
    hide Start, Started, Step, Enabled, Safe, Exposed, Inv;
    if events == [] {
      StartIs(lines, now);
      StartedSafe(cfg, Start(lines, now), now);
    } else {
      NeverNull(cfg, lines, now, Front(events));
      Reached(cfg, lines, now, Front(events));
      InvVisits(After(cfg, lines, now, Front(events)));
      StepSafe(cfg, After(cfg, lines, now, Front(events)), Last(events));
    }
  }

  lemma {:induction false} InvVisits(s: State)
    requires Inv(s)
    ensures Keys(s) && Visits(s)
  {
  }
}
