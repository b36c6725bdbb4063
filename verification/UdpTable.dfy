/** The steps of the UDP endpoint table keep the invariants about endpoints: keys, visits, sizes, stamps, flags and budgets. */
module UdpTable {
  import opened Base
  import opened TokenBucket
  import opened Udp
  import opened UdpInvariants
  import opened UdpSteps

  // ------------------------------------------------------------------ keys and visits

  lemma {:induction false} KeptKey(cfg: Config, s: State, ev: Event, a: Addr)
    requires Enabled(s, ev) && a in s.epts
    ensures Kept(cfg, s, ev, a).dst == s.epts[a].dst && Kept(cfg, s, ev, a).hasIp == s.epts[a].hasIp
  {
    hide Got, Lose, Handled, Errored, TakeHead, Break, RefillBoth, SendHead, Touch, Given, Message, Init, MaySend;
    if ev.Move? {
      hide Kept;
      MoveKeepsKey(cfg, s, ev, a);
    } else {
      hide Moves;
    }
  }

  lemma {:induction false} MoveKeepsKey(cfg: Config, s: State, ev: Event, a: Addr)
    requires Enabled(s, ev) && a in s.epts && ev.Move?
    ensures Kept(cfg, s, ev, a).dst == s.epts[a].dst && Kept(cfg, s, ev, a).hasIp == s.epts[a].hasIp
  {
    hide TakeHead, Touch, Given, Known;
  }

  lemma {:induction false} KeptRule(cfg: Config, s: State, ev: Event, a: Addr)
    requires Enabled(s, ev) && a in s.epts
    ensures Kept(cfg, s, ev, a).rule == s.epts[a].rule && Kept(cfg, s, ev, a).server == s.epts[a].server
  {
    hide Got, Lose, Handled, Errored, TakeHead, Break, RefillBoth, SendHead, Touch, Given, Message, Init, Moves, MaySend;
  }

  lemma {:induction false} MadeKey(cfg: Config, s: State, ev: Event)
    requires Enabled(s, ev) && Moves(cfg, s, ev)
    ensures var e := Deliver(Made(cfg, s, ev), Head(s), s.phase.todo[0]);
            && e.dst == Head(s).peer && e.rule == s.epts[s.phase.todo[0]].rule && !e.server && e.hasIp == Limited(cfg)
            && e.recvQ == [] && e.recvBuf == |s.memory| && e.recvs == [RecvOp(|s.memory|, Waiting)] && e.activeTm == ev.t
  {
  }

  lemma {:induction false} StepKeys(cfg: Config, s: State, ev: Event)
    requires Keys(s) && Visits(s) && Enabled(s, ev)
    ensures Keys(Step(cfg, s, ev))
  {
    var s' := Step(cfg, s, ev);
    StepRest(cfg, s, ev);
    StepTimes(cfg, s, ev);
    StepNewKeys(cfg, s, ev);
    forall a <- s'.epts ensures s'.epts[a].dst == a {
      StepAt(cfg, s, ev, a);
      if Makes(cfg, s, ev, a) {
        MadeKey(cfg, s, ev);
      } else {
        KeptKey(cfg, s, ev, a);
      }
    }
    hide Step, Kept, Made, Enabled, Visits;
  }

  lemma {:induction false} StepTimes(cfg: Config, s: State, ev: Event)
    requires Keys(s) && Enabled(s, ev)
    ensures 0 < Step(cfg, s, ev).now <= Step(cfg, s, ev).clock
  {
    StepRest(cfg, s, ev);
    hide Step;
  }

  lemma {:induction false} StepNewKeys(cfg: Config, s: State, ev: Event)
    requires Keys(s) && Visits(s) && Enabled(s, ev)
    ensures var s' := Step(cfg, s, ev);
            s'.newKeys <= s'.epts.Keys && (!s'.phase.Moving? ==> s'.newKeys == {})
  {
    var s' := Step(cfg, s, ev);
    StepRest(cfg, s, ev);
    StepPhase(cfg, s, ev);
    forall a <- s'.newKeys ensures a in s'.epts {
      StepAt(cfg, s, ev, a);
    }
    hide Step, Kept, Made, MayMove, MaySend, Expired;
  }

  /** The routine thread is not done with an endpoint because of what happens to it meanwhile. */
  lemma {:induction false} LockedStays(cfg: Config, s: State, ev: Event, a: Addr)
    requires Keys(s) && Enabled(s, ev) && a in s.epts && Locked(s, a) && s.phase.Moving? && s.epts[a].activeTm != 0
    ensures Kept(cfg, s, ev, a).activeTm != 0
  {
  }

  lemma {:induction false} StepVisits(cfg: Config, s: State, ev: Event)
    requires Keys(s) && Visits(s) && Enabled(s, ev)
    ensures Visits(Step(cfg, s, ev))
  {
    StepTodo(cfg, s, ev);
    StepEntered(cfg, s, ev);
    StepPhase(cfg, s, ev);
    hide Step, Evicts, Moves, Sends;
  }

  lemma {:induction false} StepEntered(cfg: Config, s: State, ev: Event)
    requires Keys(s) && Visits(s) && Enabled(s, ev)
    ensures var s' := Step(cfg, s, ev);
            s'.phase.Moving? && s'.phase.entered ==>
              s'.phase.todo != [] && s'.phase.todo[0] in s'.epts && s'.epts[s'.phase.todo[0]].activeTm != 0
  {
    var s' := Step(cfg, s, ev);
    StepPhase(cfg, s, ev);
    if s'.phase.Moving? && s'.phase.entered {
      var a := s'.phase.todo[0];
      StepAt(cfg, s, ev, a);
      if s.phase.Moving? && Locked(s, a) {
        LockedStays(cfg, s, ev, a);
      } else {
        assert ev.Enter? && !Expired(cfg, s.epts[a], s.now);
        assert Kept(cfg, s, ev, a).activeTm == s.epts[a].activeTm;
      }
    }
    hide Step, Kept, Made;
  }

  lemma {:induction false} StepTodo(cfg: Config, s: State, ev: Event)
    requires Keys(s) && Visits(s) && Enabled(s, ev)
    ensures var s' := Step(cfg, s, ev);
            && (s'.phase.Moving? ==>
                  forall i | 0 <= i < |s'.phase.todo| :: s'.phase.todo[i] in s'.epts && s'.phase.todo[i] !in s'.newKeys)
            && (s'.phase.Sending? ==> forall i | 0 <= i < |s'.phase.todo| :: s'.phase.todo[i] in s'.epts)
  {
    var s' := Step(cfg, s, ev);
    StepRest(cfg, s, ev);
    StepPhase(cfg, s, ev);
    forall a <- s.epts ensures a in s'.epts || (ev.Enter? && a == s.phase.todo[0] && s'.phase == Moving(s.phase.todo[1..], false, s.phase.interval)) {
      StepAt(cfg, s, ev, a);
    }
    hide Step, Kept, Made, MayMove, MaySend, Expired;
  }

  // ------------------------------------------------------------------ queues and sizes

  lemma {:induction false} StepSendQueues(cfg: Config, s: State, ev: Event)
    requires SendQueues(s) && Enabled(s, ev)
    ensures SendQueues(Step(cfg, s, ev))
  {
    var s' := Step(cfg, s, ev);
    forall a <- s'.epts ensures |s'.epts[a].sendQ| <= MAX_UDP_MSG_QUEUE_SIZE {
      StepAt(cfg, s, ev, a);
      if Makes(cfg, s, ev, a) {
        MadeEmpty(cfg, s, ev);
      } else {
        KeptSendQ(cfg, s, ev, a);
      }
    }
    hide Step, Kept, Made;
  }

  lemma {:induction false} KeptSendQ(cfg: Config, s: State, ev: Event, a: Addr)
    requires Enabled(s, ev) && a in s.epts && |s.epts[a].sendQ| <= MAX_UDP_MSG_QUEUE_SIZE
    ensures |Kept(cfg, s, ev, a).sendQ| <= MAX_UDP_MSG_QUEUE_SIZE
  {
    hide Got, Lose, Handled, Errored, TakeHead, Break, Message, SendHead, Touch, RefillBoth;
    if !ev.Move? {
      hide Moves, Given;
    }
  }

  lemma {:induction false} EndedIs(recvs: seq<RecvOp>)
    ensures |Ended(recvs)| <= |recvs|
    ensures forall j | 0 <= j < |Ended(recvs)| :: Ended(recvs)[j] in recvs && Ended(recvs)[j].progress != Waiting
    ensures Ended(recvs) == [] <==> forall j | 0 <= j < |recvs| :: recvs[j].progress == Waiting
    decreases |recvs|
  {
    if recvs != [] {
      EndedIs(Front(recvs));
      assert recvs == Front(recvs) + [Last(recvs)];
      assert Last(recvs) == recvs[|recvs| - 1];
    }
  }

  lemma {:induction false} StopSane(e: Ept, k: Addr)
    requires Sane(e.recvs, k)
    ensures Sane(Stop(e).recvs, k)
  {
    EndedIs(e.recvs);
  }

  lemma {:induction false} InitSane(e: Ept, o: Opening, t: int, k: Addr)
    requires Sane(e.recvs, k)
    ensures Sane(Init(e, o, t).recvs, k) && Sane(AsyncRecv(e).recvs, k)
  {
  }

  lemma {:induction false} BreakSane(e: Ept, o: Opening, t: int, k: Addr)
    requires Sane(e.recvs, k)
    ensures Sane(Break(e, o, t).recvs, k)
  {
    hide Sane, Stop, Init;
    StopSane(e, k);
    InitSane(Stop(e), o, t, k);
  }

  lemma {:induction false} ReceiveSane(e: Ept, k: Addr, j: nat)
    requires Sane(e.recvs, k) && j < |e.recvs|
    ensures Sane(Finish(e, j).recvs, k)
  {
  }

  lemma {:induction false} GotSane(e: Ept, k: Addr, j: nat, from: Addr, payload: seq<Byte>, refused: bool)
    requires Sane(e.recvs, k) && j < |e.recvs|
    ensures from != k && from != NOBODY && |payload| <= UDP_BUFFER_SIZE ==> Sane(Got(e, j, from, payload).recvs, k)
    ensures Sane(Lose(e, j, refused).recvs, k)
  {
  }

  lemma {:induction false} HandledSane(e: Ept, k: Addr, j: nat, t: int, roll: int, id: nat, buf: BufId)
    requires Sane(e.recvs, k) && j < |e.recvs| && e.recvs[j].progress.Arrived?
    ensures Sane(Handled(e, j, t, roll, id, buf).recvs, k)
  {
    ReceiveSane(e, k, j);
    hide Sane, Finish, AsyncRecv, Init;
    var e1 := Finish(e, j).(activeTm := t);
    InitSane(e1, Bound, t, k);
    InitSane(e1.(recvQ := e1.recvQ + [Message(e1, id, e.recvs[j].progress.size, t)], recvBuf := buf, recvSrc := NOBODY), Bound, t, k);
  }

  lemma {:induction false} ErroredSane(e: Ept, k: Addr, j: nat, t: int, o: Opening)
    requires Sane(e.recvs, k) && j < |e.recvs|
    ensures Sane(Errored(e, j, t, o).recvs, k)
  {
    ReceiveSane(e, k, j);
    hide Sane, Finish, AsyncRecv, Break, Init;
    InitSane(Finish(e, j), o, t, k);
    BreakSane(Finish(e, j), o, t, k);
  }

  lemma {:induction false} TakeSane(e: Ept, k: Addr, now: int)
    requires Sane(e.recvs, k) && e.recvQ != []
    ensures Sane(TakeHead(e, now).recvs, k)
  {
  }

  lemma {:induction false} KeptSane(cfg: Config, s: State, ev: Event, a: Addr)
    requires Enabled(s, ev) && a in s.epts && Sane(s.epts[a].recvs, a)
    ensures Sane(Kept(cfg, s, ev, a).recvs, a)
  {
    var e := s.epts[a];
    hide Sane, Got, Lose, Handled, Errored, TakeHead, Break, RefillBoth, SendHead, Touch, Given, Message, Init;
    match ev
    case Arrive(k, j, from, payload) => if a == k { GotSane(e, k, j, from, payload, true); }
    case Fail(k, j, refused) => if a == k { GotSane(e, k, j, a, [], refused); }
    case Recv(k, j, t, roll) => if a == k { HandledSane(e, a, j, t, roll, |s.log.accepted|, |s.memory|); }
    case RecvFails(k, j, t, o) => if a == k { ErroredSane(e, a, j, t, o); }
    case Move(_, _) => if e.recvQ != [] { TakeSane(e, a, s.now); }
    case Send(_, o, t) => BreakSane(e, o, t, a);
    case _ =>
  }

  lemma {:induction false} SmallGrows(q: seq<Dgram>, m: Dgram)
    requires Small(q) && m.size <= UDP_BUFFER_SIZE
    ensures Small(q + [m])
  {
  }

  lemma {:induction false} SmallRest(q: seq<Dgram>)
    requires Small(q)
    ensures q != [] ==> Small(q[1..])
  {
  }

  lemma {:induction false} KeptSmall(cfg: Config, s: State, ev: Event, a: Addr)
    requires Enabled(s, ev) && a in s.epts && Small(s.epts[a].recvQ) && Small(s.epts[a].sendQ) && Sane(s.epts[a].recvs, a)
    requires Moves(cfg, s, ev) ==> Head(s).size <= UDP_BUFFER_SIZE
    ensures Small(Kept(cfg, s, ev, a).recvQ) && Small(Kept(cfg, s, ev, a).sendQ)
  {
    KeptSmallRecv(cfg, s, ev, a);
    KeptSmallSend(cfg, s, ev, a);
    hide Kept, Small, Sane, Enabled;
  }

  lemma {:induction false} KeptSmallRecv(cfg: Config, s: State, ev: Event, a: Addr)
    requires Enabled(s, ev) && a in s.epts && Small(s.epts[a].recvQ) && Sane(s.epts[a].recvs, a)
    ensures Small(Kept(cfg, s, ev, a).recvQ)
  {
    var e := s.epts[a];
    hide Got, Lose, Handled, Errored, TakeHead, Break, RefillBoth, SendHead, Touch, Given, Init;
    if ev.Recv? && a == ev.k {
      SmallGrows(e.recvQ, Message(e, |s.log.accepted|, e.recvs[ev.j].progress.size, ev.t));
    } else {
      SmallRest(e.recvQ);
    }
    hide Small, Sane, Message, MaySend;
  }

  lemma {:induction false} KeptSmallSend(cfg: Config, s: State, ev: Event, a: Addr)
    requires Enabled(s, ev) && a in s.epts && Small(s.epts[a].sendQ)
    requires Moves(cfg, s, ev) ==> Head(s).size <= UDP_BUFFER_SIZE
    ensures Small(Kept(cfg, s, ev, a).sendQ)
  {
    var e := s.epts[a];
    hide Got, Lose, Handled, Errored, TakeHead, Break, RefillBoth, SendHead, Touch, Init;
    if ev.Move? && Moves(cfg, s, ev) {
      SmallGrows(e.sendQ, Head(s).(peer := s.phase.todo[0]));
    } else {
      SmallRest(e.sendQ);
    }
    hide Small, Message, Moves;
  }

  lemma {:induction false} MadeSizes(cfg: Config, s: State, ev: Event)
    requires Enabled(s, ev) && Moves(cfg, s, ev) && Head(s).size <= UDP_BUFFER_SIZE
    ensures SizesOk(Deliver(Made(cfg, s, ev), Head(s), s.phase.todo[0]), Head(s).peer)
  {
  }

  lemma {:induction false} StepSizes(cfg: Config, s: State, ev: Event)
    requires Sizes(s) && Enabled(s, ev)
    ensures Sizes(Step(cfg, s, ev))
  {
    var s' := Step(cfg, s, ev);
    assert Moves(cfg, s, ev) ==> SizesOk(s.epts[s.phase.todo[0]], s.phase.todo[0]);
    assert Moves(cfg, s, ev) ==> Head(s).size <= UDP_BUFFER_SIZE;
    forall a <- s'.epts ensures SizesOk(s'.epts[a], a) {
      StepAt(cfg, s, ev, a);
      if Makes(cfg, s, ev, a) {
        MadeSizes(cfg, s, ev);
      } else {
        assert SizesOk(s.epts[a], a);
        KeptSane(cfg, s, ev, a);
        KeptSmall(cfg, s, ev, a);
      }
    }
    hide Step, Kept, Made, Enabled, Small, Sane;
  }

  // ------------------------------------------------------------------ stamps

  /** What a step may add to the queues is stamped with the time of the step, or is due. */
  lemma {:induction false} KeptStamps(cfg: Config, s: State, ev: Event, a: Addr, clock: int, now: int)
    requires Enabled(s, ev) && a in s.epts && StampsOk(s.epts[a], s.clock, s.now)
    requires s.clock <= clock && s.now <= now && (ev.Recv? ==> clock == ev.t)
    ensures StampsOk(Kept(cfg, s, ev, a), clock, now)
  {
    hide Got, Lose, Handled, Errored, TakeHead, Break, RefillBoth, SendHead, Touch, Init, Given, Moves;
    if ev.Recv? && a == ev.k {
      assert StampsOk(Handled(s.epts[a], ev.j, ev.t, ev.roll, |s.log.accepted|, |s.memory|), clock, now);
    } else if ev.Move? {
      MoveStamps(cfg, s, ev, a, clock, now);
    }
  }

  lemma {:induction false} MoveStamps(cfg: Config, s: State, ev: Event, a: Addr, clock: int, now: int)
    requires Enabled(s, ev) && a in s.epts && StampsOk(s.epts[a], s.clock, s.now)
    requires s.clock <= clock && s.now <= now && ev.Move?
    ensures StampsOk(Kept(cfg, s, ev, a), clock, now)
  {
    hide TakeHead, Touch;
  }

  lemma {:induction false} StepStamps(cfg: Config, s: State, ev: Event)
    requires Keys(s) && Stamps(s) && Enabled(s, ev)
    ensures Stamps(Step(cfg, s, ev))
  {
    var s' := Step(cfg, s, ev);
    StepRest(cfg, s, ev);
    forall a <- s'.epts ensures StampsOk(s'.epts[a], s'.clock, s'.now) {
      StepAt(cfg, s, ev, a);
      if Makes(cfg, s, ev, a) {
        MadeEmpty(cfg, s, ev);
        assert Head(s).time <= s.now;
        assert Made(cfg, s, ev).recvQ == [];
      } else {
        KeptStamps(cfg, s, ev, a, s'.clock, s'.now);
      }
    }
    hide Step, Kept, Made, StampsOk;
  }

  // ------------------------------------------------------------------ flags

  /**
   The exact case in which the receiving flag goes wrong: a send fails and the socket is reopened while receiving is switched
   off or a receive that has ended waits for its handler.
   */
  predicate ReopensBusy(cfg: Config, s: State, ev: Event)
    requires Enabled(s, ev)
  {
    && ev.Send? && !ev.sent && ev.o == Bound
    && var k := s.phase.todo[0];
       var e := s.epts[k];
       && MaySend(cfg, s, e, k) && e.server
       && (!e.recving || exists j :: 0 <= j < |e.recvs| && e.recvs[j].progress != Waiting)
  }

  lemma {:induction false} BreakFlags(e: Ept, o: Opening, t: int)
    requires FlagsOk(e) && t > 0
    ensures FlagsOk(Break(e, o, t))
            <==> !(e.server && o == Bound && (!e.recving || exists j :: 0 <= j < |e.recvs| && e.recvs[j].progress != Waiting))
  {
    EndedIs(e.recvs);
  }

  lemma {:induction false} HandledFlags(e: Ept, j: nat, t: int, roll: int, id: nat, buf: BufId)
    requires FlagsOk(e) && j < |e.recvs| && e.recvs[j].progress.Arrived? && t > 0
    ensures FlagsOk(Handled(e, j, t, roll, id, buf))
  {
  }

  /** An endpoint whose only receive ends with an error is stopped, or starts over. */
  lemma {:induction false} ErroredFlags(e: Ept, j: nat, t: int, o: Opening)
    requires FlagsOk(e) && j < |e.recvs| && t > 0
    ensures FlagsOk(Errored(e, j, t, o))
  {
    assert Finish(e, j).recvs == [];
  }

  lemma {:induction false} KeptFlags(cfg: Config, s: State, ev: Event, a: Addr)
    requires Keys(s) && Enabled(s, ev) && a in s.epts && FlagsOk(s.epts[a])
    ensures FlagsOk(Kept(cfg, s, ev, a)) <==> !(ReopensBusy(cfg, s, ev) && a == s.phase.todo[0])
  {
    var e := s.epts[a];
    hide FlagsOk, Got, Lose, Handled, Errored, TakeHead, Break, RefillBoth, SendHead, Touch, Init, Given;
    match ev
    case Recv(k, j, t, roll) => if a == k { HandledFlags(e, j, t, roll, |s.log.accepted|, |s.memory|); }
    case RecvFails(k, j, t, o) => if a == k { ErroredFlags(e, j, t, o); }
    case Send(_, o, t) => BreakFlags(e, o, t); PlainFlags(e, s, ev);
    case _ => PlainFlags(e, s, ev);
  }

  lemma {:induction false} PlainFlags(e: Ept, s: State, ev: Event)
    requires FlagsOk(e) && 0 < s.now
    ensures ev.Arrive? && ev.j < |e.recvs| ==> FlagsOk(Got(e, ev.j, ev.from, ev.payload))
    ensures ev.Fail? && ev.j < |e.recvs| ==> FlagsOk(Lose(e, ev.j, ev.refused))
    ensures forall bytes :: FlagsOk(RefillBoth(e, bytes))
    ensures e.recvQ != [] ==> FlagsOk(TakeHead(e, s.now))
    ensures e.sendQ != [] ==> FlagsOk(SendHead(e, s.now))
    ensures forall m, k :: FlagsOk(Given(Touch(e, s.now), m, k))
  {
    hide RefillBoth, SendHead;
  }

  lemma {:induction false} MadeFlags(cfg: Config, s: State, ev: Event)
    requires Enabled(s, ev) && Moves(cfg, s, ev)
    ensures FlagsOk(Deliver(Made(cfg, s, ev), Head(s), s.phase.todo[0]))
  {
  }

  lemma {:induction false} StepFlags(cfg: Config, s: State, ev: Event)
    requires Keys(s) && Flags(s) && Enabled(s, ev)
    ensures Flags(Step(cfg, s, ev)) <==> !ReopensBusy(cfg, s, ev)
  {
    var s' := Step(cfg, s, ev);
    forall a | a in s'.epts ensures FlagsOk(s'.epts[a]) <==> !(ReopensBusy(cfg, s, ev) && a == s.phase.todo[0]) {
      StepAt(cfg, s, ev, a);
      if Makes(cfg, s, ev, a) {
        MadeFlags(cfg, s, ev);
      } else {
        KeptFlags(cfg, s, ev, a);
      }
    }
    if ReopensBusy(cfg, s, ev) {
      StepAt(cfg, s, ev, s.phase.todo[0]);
    }
    hide Step, Kept, Made, FlagsOk, Enabled;
  }
}
