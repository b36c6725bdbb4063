/** How long endpoints live and whose rule they follow. */
module UdpSessions {
  import opened Base
  import opened Udp
  import opened UdpSteps
  import opened UdpTheorems
  import opened UdpInvariants
  import UdpTable
  import UdpIntegrity
  import UdpExact

  // ------------------------------------------------------------------ rules and delays

  ghost predicate HasRule(lines: seq<Line>, r: Rule) {
    exists i :: 0 <= i < |lines| && lines[i].rule == r
  }

  ghost predicate Delayed(lines: seq<Line>, a: Accepted) {
    exists i :: 0 <= i < |lines| && a.due == a.readAt + lines[i].rule.delay
  }

  /** Every endpoint, however it came to be, follows the rule of some line, and so does every accepted datagram. */
  ghost predicate Ruled(lines: seq<Line>, s: State) {
    && (forall k <- s.epts :: HasRule(lines, s.epts[k].rule))
    && (forall id | 0 <= id < |s.log.accepted| :: Delayed(lines, s.log.accepted[id]))
  }

  lemma {:induction false} StartRuled(lines: seq<Line>, now: int)
    requires now > 0
    ensures Ruled(lines, Start(lines, now))
    decreases |lines|
  {
    if lines != [] {
      var front := Front(lines);
      var s := Start(front, now);
      StartRuled(front, now);
      StartIs(front, now);
      NewUntouched(Last(lines), now, |s.memory|, s.log);
      forall k <- Start(lines, now).epts ensures HasRule(lines, Start(lines, now).epts[k].rule) {
        if k == Last(lines).dst {
          assert lines[|lines| - 1].rule == Start(lines, now).epts[k].rule;
        } else {
          var i :| 0 <= i < |front| && front[i].rule == s.epts[k].rule;
          assert lines[i].rule == s.epts[k].rule;
        }
      }
      hide NewEpt, Started, Untouched;
    }
  }

  lemma {:induction false} StepRuled(cfg: Config, lines: seq<Line>, s: State, ev: Event)
    requires Ruled(lines, s) && Enabled(s, ev)
    ensures Ruled(lines, Step(cfg, s, ev))
  {
    var s' := Step(cfg, s, ev);
    StepRest(cfg, s, ev);
    hide HasRule;
    forall k <- s'.epts ensures HasRule(lines, s'.epts[k].rule) {
      StepAt(cfg, s, ev, k);
      if Makes(cfg, s, ev, k) {
        UdpTable.MadeKey(cfg, s, ev);
      } else {
        UdpTable.KeptRule(cfg, s, ev, k);
      }
    }
    if ev.Recv? {
      EntryDelayed(lines, s.epts[ev.k], ev.k, ev.j, ev.t);
    }
    hide Step, Kept, Made, Makes, Sends, Delayed;
  }

  lemma {:induction false} EntryDelayed(lines: seq<Line>, e: Ept, k: Addr, j: nat, t: int)
    requires HasRule(lines, e.rule) && j < |e.recvs| && e.recvs[j].progress.Arrived?
    ensures Delayed(lines, Entry(e, k, j, t))
  {
  }

  lemma {:induction false} RunRuled(cfg: Config, lines: seq<Line>, now: int, events: seq<Event>)
    requires Runs(cfg, lines, now, events)
    ensures Ruled(lines, After(cfg, lines, now, events))
    decreases |events|
  {
    if events == [] {
      StartRuled(lines, now);
    } else {
      hide Start, Step, Enabled, Ruled;
      RunRuled(cfg, lines, now, Front(events));
      StepRuled(cfg, lines, After(cfg, lines, now, Front(events)), Last(events));
    }
  }

  /** When all lines ask for a delay of at least d, no datagram leaves earlier than d after it was received. */
  lemma {:induction false} DelayRespected(cfg: Config, lines: seq<Line>, now: int, events: seq<Event>, i: nat, d: int)
    requires Runs(cfg, lines, now, events) && i < |After(cfg, lines, now, events).log.sent|
    requires forall j | 0 <= j < |lines| :: lines[j].rule.delay >= d
    ensures var l := After(cfg, lines, now, events).log;
            l.sent[i].id < |l.accepted| && l.sent[i].at >= l.accepted[l.sent[i].id].readAt + d
  {
    hide Run, Start;
    UdpIntegrity.Translation(cfg, lines, now, events, i);
    RunRuled(cfg, lines, now, events);
    var l := After(cfg, lines, now, events).log;
    assert Delayed(lines, l.accepted[l.sent[i].id]);
  }

  // ------------------------------------------------------------------ eviction

  /** An endpoint leaves the table exactly when it is visited while it is stopped, or idle for too long and not a server. */
  lemma {:induction false} LeavesIff(cfg: Config, s: State, ev: Event, k: Addr)
    requires Enabled(s, ev) && k in s.epts
    ensures k !in Step(cfg, s, ev).epts <==>
            && ev.Enter? && k == s.phase.todo[0]
            && var e := s.epts[k]; e.activeTm == 0 || (e.activeTm + cfg.timeout < s.now && !e.server)
  {
    StepAt(cfg, s, ev, k);
    hide Step, Kept, Made, Moves;
  }

  /** No socket fails: no receive ends with an error that stops an endpoint and no send fails. */
  predicate Smooth(s: State, ev: Event)
    requires Enabled(s, ev)
  {
    && !(ev.RecvFails? && s.epts[ev.k].recvs[ev.j].progress == Broken)
    && !(ev.Send? && !ev.sent)
  }

  predicate SmoothRun(cfg: Config, s: State, events: seq<Event>)
    requires Run(cfg, s, events).Some?
    decreases |events|
  {
    events == [] || (SmoothRun(cfg, s, Front(events)) && Smooth(Run(cfg, s, Front(events)).value, Last(events)))
  }

  ghost predicate Alive(s: State, k: Addr, since: int) {
    && 0 < since <= s.now <= s.clock
    && k in s.epts && s.epts[k].activeTm >= since
  }

  lemma {:induction false} KeptAlive(cfg: Config, s: State, ev: Event, k: Addr, since: int)
    requires Alive(s, k, since) && Enabled(s, ev) && Smooth(s, ev)
    ensures Kept(cfg, s, ev, k).activeTm >= since
  {
    hide Got, Lose, Handled, RefillBoth, SendHead, Given, TakeHead, Break, Init, Stop, Message;
  }

  lemma {:induction false} StepAlive(cfg: Config, s: State, ev: Event, k: Addr, since: int)
    requires Alive(s, k, since) && Enabled(s, ev) && Smooth(s, ev) && Step(cfg, s, ev).now <= since + cfg.timeout
    ensures Alive(Step(cfg, s, ev), k, since)
  {
    StepAt(cfg, s, ev, k);
    StepRest(cfg, s, ev);
    KeptAlive(cfg, s, ev, k, since);
    if Makes(cfg, s, ev, k) {
      UdpTable.MadeKey(cfg, s, ev);
    }
    hide Step, Kept, Made, Moves, Sends, Smooth;
  }

  /**
   A session lasts: an endpoint last active at time `since`, no later than the current pass, stays in the table for as long
   as no pass is more than the timeout after that, whatever datagrams come and go, as long as sockets do not fail. The
   bound is on `since` and not on the last datagram, because a pass sets the activity time back to its own start.
   */
  lemma {:induction false} SessionLasts(cfg: Config, s: State, events: seq<Event>, k: Addr, since: int)
    requires Alive(s, k, since) && Run(cfg, s, events).Some? && Run(cfg, s, events).value.now <= since + cfg.timeout
    requires SmoothRun(cfg, s, events)
    ensures Alive(Run(cfg, s, events).value, k, since)
    decreases |events|
  {
    if events != [] {
      var s1 := Run(cfg, s, Front(events)).value;
      hide Step, Enabled, Smooth, Alive;
      TimeGoesOn(cfg, s1, Last(events));
      SessionLasts(cfg, s, Front(events), k, since);
      StepAlive(cfg, s1, Last(events), k, since);
    }
  }

  lemma {:induction false} TimeGoesOn(cfg: Config, s: State, ev: Event)
    requires Enabled(s, ev)
    ensures s.now <= Step(cfg, s, ev).now
  {
    StepRest(cfg, s, ev);
    hide Step;
  }

  // ------------------------------------------------------------------ traffic keeps a session alive

  /** The sender of the datagram that is moved has an endpoint afterwards: one that was found and not stopped, or a new one. */
  predicate HasSession(s: State, o: Opening, x: Addr) {
    if UdpExact.Found(s, x) then s.epts[x].activeTm != 0 else o == Bound
  }

  lemma {:induction false} MovedAlive(cfg: Config, s: State, o: Opening, t: int)
    requires Keys(s) && Enabled(s, Move(o, t)) && UdpExact.Takes(cfg, s, s.phase.todo[0])
    requires HasSession(s, o, s.epts[s.phase.todo[0]].recvQ[0].peer)
    ensures Alive(Step(cfg, s, Move(o, t)), s.epts[s.phase.todo[0]].recvQ[0].peer, s.now)
  {
    UdpExact.SenderExact(cfg, s, o, t);
    StepRest(cfg, s, Move(o, t));
    hide Step, UdpExact.Takes, Moves, Makes, Sends;
  }

  lemma {:induction false} ReceivedAlive(cfg: Config, s: State, k: Addr, j: nat, t: int, roll: int)
    requires Keys(s) && Enabled(s, Recv(k, j, t, roll))
    ensures Alive(Step(cfg, s, Recv(k, j, t, roll)), k, s.now)
  {
    UdpExact.ReceiveExact(cfg, s, k, j, t, roll);
    StepRest(cfg, s, Recv(k, j, t, roll));
    hide Step, Makes, Sends, Moves;
  }

  /**
   Datagrams that come from a client keep its session: once one of its datagrams has been moved in the pass of time p, its
   endpoint is in the table in every later pass up to p plus the timeout, as long as sockets do not fail.
   */
  lemma {:induction false} MovesKeepSession(cfg: Config, lines: seq<Line>, now: int, events: seq<Event>, o: Opening, t: int, more: seq<Event>)
    requires Runs(cfg, lines, now, events) && Enabled(After(cfg, lines, now, events), Move(o, t))
    requires var s := After(cfg, lines, now, events);
             && UdpExact.Takes(cfg, s, s.phase.todo[0]) && HasSession(s, o, s.epts[s.phase.todo[0]].recvQ[0].peer)
             && var s1 := Step(cfg, s, Move(o, t));
                && Run(cfg, s1, more).Some? && SmoothRun(cfg, s1, more)
                && Run(cfg, s1, more).value.now <= s.now + cfg.timeout
    ensures var s := After(cfg, lines, now, events);
            var x, s' := s.epts[s.phase.todo[0]].recvQ[0].peer, Run(cfg, Step(cfg, s, Move(o, t)), more).value;
            x in s'.epts && s'.epts[x].activeTm >= s.now
  {
    var s := After(cfg, lines, now, events);
    Reached(cfg, lines, now, events);
    hide Run, Start, Step, Enabled, UdpExact.Takes, HasSession, Visits, SendQueues, Stamps, Sizes, Budgets, Memory, Apart, Journey, Keys;
    MovedAlive(cfg, s, o, t);
    SessionLasts(cfg, Step(cfg, s, Move(o, t)), more, s.epts[s.phase.todo[0]].recvQ[0].peer, s.now);
  }

  /** So do those that come to it. */
  lemma {:induction false} ReceivesKeepSession(cfg: Config, lines: seq<Line>, now: int, events: seq<Event>, k: Addr, j: nat, t: int, roll: int, more: seq<Event>)
    requires Runs(cfg, lines, now, events) && Enabled(After(cfg, lines, now, events), Recv(k, j, t, roll))
    requires var s := After(cfg, lines, now, events);
             var s1 := Step(cfg, s, Recv(k, j, t, roll));
             Run(cfg, s1, more).Some? && SmoothRun(cfg, s1, more) && Run(cfg, s1, more).value.now <= s.now + cfg.timeout
    ensures var s := After(cfg, lines, now, events);
            var s' := Run(cfg, Step(cfg, s, Recv(k, j, t, roll)), more).value;
            k in s'.epts && s'.epts[k].activeTm >= s.now
  {
    var s := After(cfg, lines, now, events);
    Reached(cfg, lines, now, events);
    hide Run, Start, Step, Enabled, Visits, SendQueues, Stamps, Sizes, Budgets, Memory, Apart, Journey, Keys;
    ReceivedAlive(cfg, s, k, j, t, roll);
    SessionLasts(cfg, Step(cfg, s, Recv(k, j, t, roll)), more, k, s.now);
  }
}
