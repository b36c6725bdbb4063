/**
 The message buffers of the UDP endpoints. They are never shared between endpoints; what is recorded of a datagram is what
 arrived for as long as no socket has two receives at once, and not otherwise.
 */
module UdpBuffers {
  import opened Udp
  import opened UdpInvariants
  import opened UdpSteps
  import UdpTable

  // ------------------------------------------------------------------ targets

  lemma {:induction false} StopTargets(e: Ept)
    ensures Targets(Stop(e)) <= Targets(e) && Stop(e).recvBuf == e.recvBuf
  {
    UdpTable.EndedIs(e.recvs);
  }

  lemma {:induction false} InitTargets(e: Ept, o: Opening, t: int)
    ensures Targets(Init(e, o, t)) <= Targets(e) + {e.recvBuf}
    ensures Targets(AsyncRecv(e)) == Targets(e) + {e.recvBuf}
  {
    var r := AsyncRecv(e);
    assert forall op | op in e.recvs :: op in r.recvs;
    assert r.recvs[|e.recvs|] in r.recvs;
    var e1 := e.(open := true);
    assert forall op | op in AsyncRecv(e1).recvs :: op in e.recvs || op.buf == e.recvBuf;
  }

  lemma {:induction false} BreakTargets(e: Ept, o: Opening, t: int)
    ensures Targets(Break(e, o, t)) <= Targets(e) + {e.recvBuf}
  {
    StopTargets(e);
    InitTargets(Stop(e), o, t);
    hide Targets, Stop, Init;
  }

  lemma {:induction false} FinishTargets(e: Ept, j: nat)
    requires j < |e.recvs|
    ensures Targets(Finish(e, j)) <= Targets(e)
  {
  }

  lemma {:induction false} GotTargets(e: Ept, j: nat, from: Addr, payload: seq<Byte>, refused: bool)
    requires j < |e.recvs|
    ensures Targets(Got(e, j, from, payload)) <= Targets(e) && Targets(Lose(e, j, refused)) <= Targets(e)
    ensures e.recvs[j].buf in Targets(e)
  {
    assert e.recvs[j] in e.recvs;
  }

  lemma {:induction false} HandledTargets(e: Ept, j: nat, t: int, roll: int, id: nat, buf: BufId)
    requires j < |e.recvs| && e.recvs[j].progress.Arrived?
    ensures var r := Handled(e, j, t, roll, id, buf); Targets(r) <= Targets(e) + {r.recvBuf}
  {
    FinishTargets(e, j);
    var e1 := Finish(e, j).(activeTm := t);
    var m := Message(e1, id, e.recvs[j].progress.size, t);
    var e2 := e1.(recvQ := e1.recvQ + [m], recvBuf := buf, recvSrc := NOBODY);
    assert Targets(e1) == Targets(Finish(e, j)) && Targets(e2) == Targets(e1) && Targets(e2.(recving := false)) == Targets(e2);
    hide Targets, Finish, AsyncRecv, Init, Message;
    InitTargets(e1, Bound, t);
    InitTargets(e2, Bound, t);
  }

  lemma {:induction false} ErroredTargets(e: Ept, j: nat, t: int, o: Opening)
    requires j < |e.recvs|
    ensures Targets(Errored(e, j, t, o)) <= Targets(e) + {e.recvBuf}
  {
    FinishTargets(e, j);
    hide Targets, Finish, AsyncRecv, Break, Init;
    InitTargets(Finish(e, j), o, t);
    BreakTargets(Finish(e, j), o, t);
  }

  lemma {:induction false} TakeTargets(e: Ept, now: int)
    requires e.recvQ != []
    ensures Targets(TakeHead(e, now)) <= Targets(e) + {e.recvBuf}
  {
    var e1 := TakeHead(e, now).(recvs := e.recvs);
    assert Targets(e1) == Targets(e);
    InitTargets(e1, Bound, 0);
    hide Targets, Init;
  }

  /** Receives are into buffers that were targets before or into the message buffer, which only a handler replaces. */
  lemma {:induction false} KeptTargets(cfg: Config, s: State, ev: Event, a: Addr)
    requires Enabled(s, ev) && a in s.epts
    ensures var e, r := s.epts[a], Kept(cfg, s, ev, a);
            && Targets(r) <= Targets(e) + {r.recvBuf}
            && r.recvBuf == if ev.Recv? && a == ev.k && !Dropped(e, ev.roll) then |s.memory| else e.recvBuf
  {
    var e := s.epts[a];
    var r := Kept(cfg, s, ev, a);
    assert r.recvs == e.recvs ==> Targets(r) == Targets(e);
    hide Targets, Got, Lose, Handled, Errored, TakeHead, Break, RefillBoth, SendHead, Touch, Given, Message, Init;
    match ev
    case Arrive(k, j, from, payload) => if a == k { GotTargets(e, j, from, payload, true); }
    case Fail(k, j, refused) => if a == k { GotTargets(e, j, a, [], refused); }
    case Recv(k, j, t, roll) => if a == k { HandledTargets(e, j, t, roll, |s.log.accepted|, |s.memory|); }
    case RecvFails(k, j, t, o) => if a == k { ErroredTargets(e, j, t, o); }
    case Move(_, _) => if e.recvQ != [] { TakeTargets(e, s.now); }
    case Send(_, o, t) => BreakTargets(e, o, t);
    case _ =>
  }

  /** After a step: the message buffer of an endpoint is its old one or a new one. */
  lemma {:induction false} StepTargets(cfg: Config, s: State, ev: Event, a: Addr)
    requires Enabled(s, ev) && a in Step(cfg, s, ev).epts
    ensures var r := Step(cfg, s, ev).epts[a];
            if Makes(cfg, s, ev, a) then r.recvBuf == |s.memory| && Targets(r) == {|s.memory|}
            else
              && a in s.epts && Targets(r) <= Targets(s.epts[a]) + {r.recvBuf}
              && r.recvBuf == if ev.Recv? && a == ev.k && !Dropped(s.epts[a], ev.roll) then |s.memory| else s.epts[a].recvBuf
  {
    StepAt(cfg, s, ev, a);
    if Makes(cfg, s, ev, a) {
      UdpTable.MadeKey(cfg, s, ev);
    } else {
      KeptTargets(cfg, s, ev, a);
    }
    hide Step, Kept, Made;
  }

  // ------------------------------------------------------------------ memory and separation

  lemma {:induction false} StepMemory(cfg: Config, s: State, ev: Event)
    requires Memory(s) && Enabled(s, ev)
    ensures Memory(Step(cfg, s, ev))
  {
    var s' := Step(cfg, s, ev);
    StepRest(cfg, s, ev);
    hide Step, Moves, Makes, Sends, Targets;
    forall k <- s'.epts ensures s'.epts[k].recvBuf < |s'.memory| && forall b <- Targets(s'.epts[k]) :: b < |s'.memory| {
      StepTargets(cfg, s, ev, k);
      MakesGrows(cfg, s, ev, k);
    }
  }

  lemma {:induction false} MakesGrows(cfg: Config, s: State, ev: Event, k: Addr)
    requires Enabled(s, ev)
    ensures Makes(cfg, s, ev, k) ==> Moves(cfg, s, ev) && Makes(cfg, s, ev, Head(s).peer) && k == Head(s).peer && !(ev.Recv?)
  {
  }

  lemma {:induction false} StepSeparate(cfg: Config, s: State, ev: Event, k: Addr, x: Addr)
    requires Memory(s) && Apart(s) && Enabled(s, ev) && k != x && k in Step(cfg, s, ev).epts && x in Step(cfg, s, ev).epts
    ensures Separate(Step(cfg, s, ev), k, x)
  {
    StepTargets(cfg, s, ev, k);
    StepTargets(cfg, s, ev, x);
    MakesGrows(cfg, s, ev, k);
    MakesGrows(cfg, s, ev, x);
    hide Step, Makes, Targets, Unqueued;
  }

  lemma {:induction false} StepUnqueued(cfg: Config, s: State, ev: Event, k: Addr)
    requires Memory(s) && Apart(s) && Enabled(s, ev) && k in Step(cfg, s, ev).epts
    ensures Unqueued(Step(cfg, s, ev), k)
  {
    StepRest(cfg, s, ev);
    StepTargets(cfg, s, ev, k);
    MakesGrows(cfg, s, ev, k);
    assert k in s.epts ==> Unqueued(s, k);
    assert ev.Recv? && ev.k != k && k in s.epts ==> Separate(s, k, ev.k);
    hide Step, Makes, Moves, Sends, Targets;
  }

  lemma {:induction false} StepApart(cfg: Config, s: State, ev: Event)
    requires Memory(s) && Apart(s) && Enabled(s, ev)
    ensures Apart(Step(cfg, s, ev))
  {
    var s' := Step(cfg, s, ev);
    hide Step, Memory;
    forall k, x | k in s'.epts && x in s'.epts && k != x ensures Separate(s', k, x) {
      StepSeparate(cfg, s, ev, k, x);
    }
    forall k <- s'.epts ensures Unqueued(s', k) {
      StepUnqueued(cfg, s, ev, k);
    }
    hide Separate, Unqueued;
  }

  // ------------------------------------------------------------------ what is recorded is what arrived

  /** Writing to one buffer leaves the others; new buffers leave all. */
  lemma {:induction false} PayloadKept(memory: seq<seq<Byte>>, target: BufId, data: seq<Byte>, b: BufId, size: nat)
    ensures b != target ==> Payload(Store(memory, target, data), b, size) == Payload(memory, b, size)
    ensures b < |memory| ==> Payload(memory + [NewBuffer()], b, size) == Payload(memory, b, size)
    ensures target < |memory| && |data| <= |memory[target]| ==> Payload(Store(memory, target, data), target, |data|) == data
  {
    hide NewBuffer;
  }

  /** As long as there is at most one receive, it is into the message buffer. */
  lemma {:induction false} BreakTrue(memory: seq<seq<Byte>>, e: Ept, o: Opening, t: int)
    requires TrueRecvs(memory, e) && |Break(e, o, t).recvs| <= 1
    ensures TrueRecvs(memory, Break(e, o, t))
  {
    UdpTable.EndedIs(e.recvs);
    assert Stop(e).recvs == [] || Stop(e).recvs == e.recvs;
    hide Payload;
  }

  lemma {:induction false} HandledTrue(memory: seq<seq<Byte>>, e: Ept, j: nat, t: int, roll: int, id: nat, buf: BufId)
    requires TrueRecvs(memory, e) && j < |e.recvs| && e.recvs[j].progress.Arrived?
    ensures TrueRecvs(memory, Handled(e, j, t, roll, id, buf))
  {
    assert Finish(e, j).recvs == [];
    hide Payload;
  }

  lemma {:induction false} ErroredTrue(memory: seq<seq<Byte>>, e: Ept, j: nat, t: int, o: Opening)
    requires TrueRecvs(memory, e) && j < |e.recvs|
    ensures TrueRecvs(memory, Errored(e, j, t, o))
  {
    assert Finish(e, j).recvs == [];
    BreakTrue(memory, Finish(e, j), o, t);
    hide Payload;
  }

  lemma {:induction false} GotTrue(memory: seq<seq<Byte>>, e: Ept, j: nat, from: Addr, payload: seq<Byte>, refused: bool)
    requires TrueRecvs(memory, e) && j < |e.recvs|
    ensures TrueRecvs(memory, Lose(e, j, refused))
    ensures e.recvBuf < |memory| && |payload| <= |memory[e.recvBuf]| ==> TrueRecvs(Store(memory, e.recvBuf, payload), Got(e, j, from, payload))
  {
    PayloadKept(memory, e.recvBuf, payload, e.recvBuf, |payload|);
    hide Payload, Store;
  }

  ghost predicate SameMessage(memory: seq<seq<Byte>>, memory': seq<seq<Byte>>, b: BufId) {
    forall size: nat :: Payload(memory', b, size) == Payload(memory, b, size)
  }

  lemma {:induction false} SameMessageTrue(memory: seq<seq<Byte>>, memory': seq<seq<Byte>>, e: Ept)
    requires TrueRecvs(memory, e) && SameMessage(memory, memory', e.recvBuf)
    ensures TrueRecvs(memory', e)
  {
  }

  /** The step on values, in the memory before it. */
  lemma {:induction false} KeptTrue(cfg: Config, s: State, ev: Event, a: Addr)
    requires Enabled(s, ev) && a in s.epts && TrueRecvs(s.memory, s.epts[a]) && !(ev.Arrive? && ev.k == a)
    requires |Kept(cfg, s, ev, a).recvs| <= 1
    ensures TrueRecvs(s.memory, Kept(cfg, s, ev, a))
  {
    var e := s.epts[a];
    var r := Kept(cfg, s, ev, a);
    assert r.recvs == e.recvs && r.recvBuf == e.recvBuf && r.recvSrc == e.recvSrc ==> TrueRecvs(s.memory, r);
    hide TrueRecvs, Got, Lose, Handled, Errored, TakeHead, Break, RefillBoth, SendHead, Touch, Given, Message, Init;
    match ev
    case Fail(k, j, refused) => if a == k { GotTrue(s.memory, e, j, a, [], refused); }
    case Recv(k, j, t, roll) => if a == k { HandledTrue(s.memory, e, j, t, roll, |s.log.accepted|, |s.memory|); }
    case RecvFails(k, j, t, o) => if a == k { ErroredTrue(s.memory, e, j, t, o); }
    case Move(_, _) =>
      if Moves(cfg, s, ev) && a == s.phase.todo[0] {
        TakeTrue(s.memory, e, s.now);
      }
    case Send(sent, o, t) =>
      if a == s.phase.todo[0] && MaySend(cfg, s, e, a) && !sent {
        BreakTrue(s.memory, e, o, t);
      }
    case _ =>
  }

  lemma {:induction false} TakeTrue(memory: seq<seq<Byte>>, e: Ept, now: int)
    requires TrueRecvs(memory, e) && e.recvQ != [] && |TakeHead(e, now).recvs| <= 1
    ensures TrueRecvs(memory, TakeHead(e, now))
  {
    hide Payload;
  }

  /** A step writes to no message buffer but that of the endpoint where a datagram arrives. */
  lemma {:induction false} StepMessage(cfg: Config, s: State, ev: Event, a: Addr)
    requires Memory(s) && Apart(s) && Enabled(s, ev) && a in s.epts && !(ev.Arrive? && ev.k == a)
    ensures SameMessage(s.memory, Step(cfg, s, ev).memory, s.epts[a].recvBuf)
  {
    var s' := Step(cfg, s, ev);
    StepRest(cfg, s, ev);
    hide Step, Moves, Makes, Sends, Targets;
    var target, data := if ev.Arrive? then s.epts[ev.k].recvs[ev.j].buf else 0, if ev.Arrive? then ev.payload else [];
    if ev.Arrive? {
      assert Separate(s, ev.k, a);
      GotTargets(s.epts[ev.k], ev.j, ev.from, data, true);
    }
    forall size: nat ensures Payload(s'.memory, s.epts[a].recvBuf, size) == Payload(s.memory, s.epts[a].recvBuf, size) {
      PayloadKept(s.memory, target, data, s.epts[a].recvBuf, size);
    }
  }

  lemma {:induction false} ArriveTrue(cfg: Config, s: State, ev: Event, a: Addr)
    requires Memory(s) && Sizes(s) && Enabled(s, ev) && ev.Arrive? && ev.k == a && TrueRecvs(s.memory, s.epts[a])
    requires |Kept(cfg, s, ev, a).recvs| <= 1
    ensures TrueRecvs(Step(cfg, s, ev).memory, Kept(cfg, s, ev, a))
  {
    StepRest(cfg, s, ev);
    assert s.epts[a].recvs[ev.j].buf == s.epts[a].recvBuf;
    GotTrue(s.memory, s.epts[a], ev.j, ev.from, ev.payload, true);
    hide Step, Got, Store, TrueRecvs;
  }

  lemma {:induction false} MadeTrue(memory: seq<seq<Byte>>, cfg: Config, s: State, ev: Event)
    requires Enabled(s, ev) && Moves(cfg, s, ev) && ev.o == Bound
    ensures TrueRecvs(memory, Deliver(Made(cfg, s, ev), Head(s), s.phase.todo[0]))
  {
  }

  lemma {:induction false} KeptTrueAfter(cfg: Config, s: State, ev: Event, a: Addr)
    requires Memory(s) && Apart(s) && Enabled(s, ev) && a in s.epts && TrueRecvs(s.memory, s.epts[a]) && !(ev.Arrive? && ev.k == a)
    requires |Kept(cfg, s, ev, a).recvs| <= 1
    ensures TrueRecvs(Step(cfg, s, ev).memory, Kept(cfg, s, ev, a))
  {
    var memory := Step(cfg, s, ev).memory;
    KeptTrue(cfg, s, ev, a);
    StepMessage(cfg, s, ev, a);
    KeptTargets(cfg, s, ev, a);
    hide Step, Apart, Memory, Moves, Makes, Targets, SameMessage;
    if ev.Recv? && a == ev.k && !Dropped(s.epts[a], ev.roll) {
      NewMessageTrue(s.memory, memory, Kept(cfg, s, ev, a));
    } else {
      hide Kept, TrueRecvs;
      SameMessageTrue(s.memory, memory, Kept(cfg, s, ev, a));
    }
  }

  lemma {:induction false} StepTrueRecvs(cfg: Config, s: State, ev: Event, a: Addr)
    requires Memory(s) && Apart(s) && Sizes(s) && Enabled(s, ev) && a in Step(cfg, s, ev).epts
    requires a in s.epts ==> TrueRecvs(s.memory, s.epts[a])
    requires |Step(cfg, s, ev).epts[a].recvs| <= 1
    ensures TrueRecvs(Step(cfg, s, ev).memory, Step(cfg, s, ev).epts[a])
  {
    StepAt(cfg, s, ev, a);
    hide Step, Kept, Made, Deliver, Apart, Memory, Sizes, TrueRecvs;
    if Makes(cfg, s, ev, a) {
      MadeTrue(Step(cfg, s, ev).memory, cfg, s, ev);
    } else if ev.Arrive? && ev.k == a {
      ArriveTrue(cfg, s, ev, a);
    } else {
      KeptTrueAfter(cfg, s, ev, a);
    }
  }

  lemma {:induction false} NewMessageTrue(memory: seq<seq<Byte>>, memory': seq<seq<Byte>>, e: Ept)
    requires TrueRecvs(memory, e) && forall j | 0 <= j < |e.recvs| :: !e.recvs[j].progress.Arrived?
    ensures TrueRecvs(memory', e)
  {
  }

  /** What arrives at k goes into its message buffer, and what is accepted there is in order. */
  ghost predicate Harmless(s: State, ev: Event, k: Addr)
    requires Enabled(s, ev)
  {
    && (ev.Arrive? && ev.k == k ==> s.epts[k].recvs[ev.j].buf == s.epts[k].recvBuf)
    && (ev.Recv? && ev.k == k && !Dropped(s.epts[k], ev.roll) ==> TrueRecvs(s.memory, s.epts[k]))
  }

  /** A harmless step does not write to the buffer of a datagram accepted on k. */
  lemma {:induction false} StepEntry(cfg: Config, s: State, ev: Event, k: Addr, id: nat)
    requires Memory(s) && Apart(s) && Enabled(s, ev) && id < |s.log.accepted| && s.log.accepted[id].on == k
    requires Harmless(s, ev, k)
    requires TrueEntry(s.memory, s.log.accepted[id])
    ensures TrueEntry(Step(cfg, s, ev).memory, s.log.accepted[id])
  {
    var a := s.log.accepted[id];
    StepRest(cfg, s, ev);
    hide Step, Moves, Makes, Sends, Targets;
    if ev.Arrive? {
      assert Unqueued(s, ev.k);
      var target := s.epts[ev.k].recvs[ev.j].buf;
      GotTargets(s.epts[ev.k], ev.j, ev.from, ev.payload, true);
      assert a.buf != target;
      PayloadKept(s.memory, target, ev.payload, a.buf, a.size);
    } else {
      PayloadKept(s.memory, 0, [], a.buf, a.size);
    }
    hide Payload, Apart, Memory, Store;
  }

  lemma {:induction false} NewEntryTrue(s: State, k: Addr, j: nat, t: int)
    requires Memory(s) && Sizes(s) && k in s.epts && TrueRecvs(s.memory, s.epts[k])
    requires j < |s.epts[k].recvs| && s.epts[k].recvs[j].progress.Arrived?
    ensures TrueEntry(s.memory + [NewBuffer()], Entry(s.epts[k], k, j, t))
  {
    var a := Entry(s.epts[k], k, j, t);
    PayloadKept(s.memory, 0, [], a.buf, a.size);
    assert SizesOk(s.epts[k], k);
    hide Payload, NewBuffer, Small;
  }

  lemma {:induction false} StepTrueOn(cfg: Config, s: State, ev: Event, k: Addr)
    requires Memory(s) && Apart(s) && Sizes(s) && Enabled(s, ev)
    requires TrueOn(s, k) && (k in s.epts ==> TrueRecvs(s.memory, s.epts[k]))
    ensures TrueOn(Step(cfg, s, ev), k)
  {
    hide Step, Memory, Apart, Sizes, TrueOn;
    HarmlessTrueOn(cfg, s, ev, k);
  }

  lemma {:induction false} HarmlessTrueOn(cfg: Config, s: State, ev: Event, k: Addr)
    requires Memory(s) && Apart(s) && Sizes(s) && Enabled(s, ev) && TrueOn(s, k) && Harmless(s, ev, k)
    ensures TrueOn(Step(cfg, s, ev), k)
  {
    var s' := Step(cfg, s, ev);
    StepRest(cfg, s, ev);
    hide Step, Moves, Makes, Sends, TrueEntry, TrueRecvs, Memory, Apart, Sizes, Store;
    forall id: nat | id < |s'.log.accepted| && s'.log.accepted[id].on == k ensures TrueEntry(s'.memory, s'.log.accepted[id]) {
      if id < |s.log.accepted| {
        StepEntry(cfg, s, ev, k, id);
      } else {
        NewEntryTrue(s, ev.k, ev.j, ev.t);
      }
    }
  }

  lemma {:induction false} StepDepartures(cfg: Config, s: State, ev: Event)
    requires Facts(s) && Intact(s) && Enabled(s, ev)
    ensures TrueDepartures(Step(cfg, s, ev))
  {
    StepRest(cfg, s, ev);
    if Sends(cfg, s, ev) {
      var k := s.phase.todo[0];
      var m := s.epts[k].sendQ[0];
      assert SendEntry(s.log, k, m);
      assert TrueOn(s, s.log.accepted[m.id].on);
    }
    hide Step, Moves, Makes, Sends, Payload, Store;
  }

  /** As long as no socket has two receives, everything recorded and everything sent is what arrived. */
  lemma {:induction false} StepIntact(cfg: Config, s: State, ev: Event)
    requires Memory(s) && Apart(s) && Sizes(s) && Facts(s) && Intact(s) && Enabled(s, ev) && AtMostOne(Step(cfg, s, ev))
    ensures Intact(Step(cfg, s, ev))
  {
    var s' := Step(cfg, s, ev);
    StepDepartures(cfg, s, ev);
    hide Step, Memory, Apart, Sizes, Facts, TrueOn, TrueRecvs, TrueDepartures;
    forall k <- s'.epts ensures TrueRecvs(s'.memory, s'.epts[k]) {
      StepTrueRecvs(cfg, s, ev, k);
    }
    forall k ensures TrueOn(s', k) {
      StepTrueOn(cfg, s, ev, k);
    }
  }
}
