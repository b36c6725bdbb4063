/**
 When the datagrams of a socket are in danger. A socket normally has one receive at a time, into the endpoint's message
 buffer. Here is exactly when that has gone wrong so far that something recorded of a datagram may become false, in any
 reachable state and however the socket, its handlers and the routine thread's loops for it go on.
 */
module UdpDanger {
  import opened Base
  import opened TokenBucket
  import opened Udp
  import opened UdpInvariants
  import opened UdpSteps
  import opened UdpTheorems
  import opened UdpIntegrity
  import UdpTable
  import UdpBuffers

  // ------------------------------------------------------------------ what goes on around a socket

  /** The events of socket k and its handlers, and turns of the routine thread inside its loops for k, but no failed send. */
  predicate AroundEvent(s: State, ev: Event, k: Addr) {
    || ((ev.Arrive? || ev.Fail? || ev.Recv? || ev.RecvFails?) && ev.k == k)
    || ((ev.Move? || (ev.Send? && ev.sent)) && Locked(s, k))
  }

  /** A run of such events. */
  predicate Around(cfg: Config, s: State, events: seq<Event>, k: Addr)
    decreases |events|
  {
    && Run(cfg, s, events).Some?
    && (events != [] ==>
          && Around(cfg, s, Front(events), k)
          && AroundEvent(Run(cfg, s, Front(events)).value, Last(events), k))
  }

  // ------------------------------------------------------------------ the condition

  /** The moving loop is inside k, whose receiving counts as off although there is a receive, and has a datagram to move. */
  predicate AboutToDouble(cfg: Config, s: State, k: Addr)
    requires k in s.epts
  {
    s.phase.Moving? && Locked(s, k) && !s.epts[k].recving && |s.epts[k].recvs| == 1 && MayMove(cfg, s, s.epts[k], k)
  }

  /** Some datagrams are accepted, and the receives are not as they should be or are about to be two. */
  ghost predicate Endangered(cfg: Config, s: State, k: Addr)
    requires k in s.epts
  {
    s.epts[k].rule.drop < 10000 && (!TrueRecvs(s.memory, s.epts[k]) || AboutToDouble(cfg, s, k))
  }

  // ------------------------------------------------------------------ what holds on every run besides

  ghost predicate ClientsTrue(s: State) {
    forall k <- s.epts :: !s.epts[k].server ==> TrueRecvs(s.memory, s.epts[k])
  }

  /** An endpoint that accepts nothing never changes its message buffer. */
  ghost predicate DeafTargets(s: State) {
    forall k <- s.epts :: s.epts[k].rule.drop >= 10000 ==> Targets(s.epts[k]) <= {s.epts[k].recvBuf}
  }

  ghost predicate Sound(s: State) {
    Inv(s) && ClientFlags(s) && ClientsTrue(s) && DeafTargets(s)
  }

  lemma {:induction false} StepClientsTrue(cfg: Config, s: State, ev: Event)
    requires Keys(s) && Memory(s) && Apart(s) && Sizes(s) && ClientFlags(s) && ClientsTrue(s) && Enabled(s, ev)
    ensures ClientsTrue(Step(cfg, s, ev))
  {
    var s' := Step(cfg, s, ev);
    StepClientFlags(cfg, s, ev);
    hide Step, Kept, Made, TrueRecvs, Memory, Apart, Sizes, Keys;
    forall a | a in s'.epts && !s'.epts[a].server ensures TrueRecvs(s'.memory, s'.epts[a]) {
      StepAt(cfg, s, ev, a);
      if Makes(cfg, s, ev, a) {
        UdpBuffers.MadeTrue(s'.memory, cfg, s, ev);
      } else {
        UdpTable.KeptRule(cfg, s, ev, a);
        assert FlagsOk(s'.epts[a]);
        UdpBuffers.StepTrueRecvs(cfg, s, ev, a);
      }
    }
  }

  lemma {:induction false} StepDeafTargets(cfg: Config, s: State, ev: Event)
    requires DeafTargets(s) && Enabled(s, ev)
    ensures DeafTargets(Step(cfg, s, ev))
  {
    var s' := Step(cfg, s, ev);
    forall a | a in s'.epts && s'.epts[a].rule.drop >= 10000 ensures Targets(s'.epts[a]) <= {s'.epts[a].recvBuf} {
      StepAt(cfg, s, ev, a);
      UdpBuffers.StepTargets(cfg, s, ev, a);
      if !Makes(cfg, s, ev, a) {
        UdpTable.KeptRule(cfg, s, ev, a);
      }
    }
    hide Step, Kept, Made, Targets, Makes;
  }

  lemma {:induction false} StepSound(cfg: Config, s: State, ev: Event)
    requires Sound(s) && Enabled(s, ev)
    ensures Sound(Step(cfg, s, ev))
  {
    StepInv(cfg, s, ev);
    hide Step, Enabled, ClientFlags, ClientsTrue, DeafTargets;
    hide Keys, Visits, SendQueues, Stamps, Sizes, Budgets, Memory, Apart, Journey;
    StepClientFlags(cfg, s, ev);
    StepClientsTrue(cfg, s, ev);
    StepDeafTargets(cfg, s, ev);
  }

  lemma {:induction false} StartedSound(s: State, now: int)
    requires Started(s, now)
    ensures ClientFlags(s) && ClientsTrue(s) && DeafTargets(s)
  {
    forall k <- s.epts
      ensures TrueRecvs(s.memory, s.epts[k]) && Targets(s.epts[k]) <= {s.epts[k].recvBuf} && FlagsOk(s.epts[k])
    {
      assert Untouched(s.epts[k], k, now);
    }
    hide Started, TrueRecvs, Targets, FlagsOk;
  }

  lemma {:induction false} RunSound(cfg: Config, lines: seq<Line>, now: int, events: seq<Event>)
    requires Runs(cfg, lines, now, events)
    ensures Sound(After(cfg, lines, now, events))
    decreases |events|
  {
    hide Start, Started, Step, Enabled, ClientFlags, ClientsTrue, DeafTargets, Inv;
    if events == [] {
      StartIs(lines, now);
      StartedInv(Start(lines, now), now);
      StartedSound(Start(lines, now), now);
    } else {
      RunSound(cfg, lines, now, Front(events));
      hide Sound;
      StepSound(cfg, After(cfg, lines, now, Front(events)), Last(events));
    }
  }

  /** Only servers are ever in danger. */
  lemma {:induction false} OnlyServers(cfg: Config, s: State, k: Addr)
    requires Sound(s) && k in s.epts && Endangered(cfg, s, k)
    ensures s.epts[k].server
  {
    assert !s.epts[k].server ==> FlagsOk(s.epts[k]);
    hide Inv, DeafTargets, TrueRecvs, MayMove;
  }

  // ------------------------------------------------------------------ without danger

  ghost predicate Safe(cfg: Config, s: State, k: Addr) {
    Sound(s) && k in s.epts && TrueOn(s, k) && !Endangered(cfg, s, k)
  }

  lemma {:induction false} SafeHarmless(cfg: Config, s: State, ev: Event, k: Addr)
    requires Safe(cfg, s, k) && Enabled(s, ev)
    ensures UdpBuffers.Harmless(s, ev, k)
  {
    hide Inv, ClientsTrue, MayMove;
    if ev.Arrive? && ev.k == k {
      assert s.epts[k].recvs[ev.j].buf in Targets(s.epts[k]) by {
        assert s.epts[k].recvs[ev.j] in s.epts[k].recvs;
      }
    }
  }

  /** An event at k leaves at most one receive, and no turn of the moving loop adds a second. */
  lemma {:induction false} AroundOne(cfg: Config, s: State, ev: Event, k: Addr)
    requires Enabled(s, ev) && k in s.epts && |s.epts[k].recvs| <= 1 && !AboutToDouble(cfg, s, k) && AroundEvent(s, ev, k)
    ensures |Kept(cfg, s, ev, k).recvs| <= 1
  {
    if ev.Recv? || ev.RecvFails? {
      assert Finish(s.epts[k], ev.j).recvs == [];
    }
    hide MayMove;
  }

  lemma {:induction false} TakenReceives(e: Ept, now: int)
    requires e.recvQ != []
    ensures TakeHead(e, now).recving && TakeHead(e, now).rule == e.rule
    ensures |TakeHead(e, now).recvs| == |e.recvs| + if e.recving then 0 else 1
  {
  }

  /** While the moving loop is inside k, no event at k changes what it looks at. */
  lemma {:induction false} AroundLocked(cfg: Config, s: State, ev: Event, k: Addr)
    requires Keys(s) && Enabled(s, ev) && k in s.epts && AroundEvent(s, ev, k) && !AboutToDouble(cfg, s, k)
    requires |s.epts[k].recvs| <= 1
    ensures k in Step(cfg, s, ev).epts && !AboutToDouble(cfg, Step(cfg, s, ev), k)
  {
    StepAt(cfg, s, ev, k);
    StepPhase(cfg, s, ev);
    StepRest(cfg, s, ev);
    var s' := Step(cfg, s, ev);
    if ev.Move? {
      if Moves(cfg, s, ev) {
        TakenReceives(s.epts[k], s.now);
      }
    } else if !ev.Send? {
      assert s'.ips == s.ips && s'.phase == s.phase && s'.now == s.now;
      if Locked(s, k) {
        ReceiveKeeps(cfg, s, ev, k);
      }
    }
    hide Step, TakeHead, Keys;
  }

  /** The handlers that run although the mutex is taken only start a receive again. */
  lemma {:induction false} ReceiveKeeps(cfg: Config, s: State, ev: Event, k: Addr)
    requires Enabled(s, ev) && k in s.epts && Locked(s, k) && !ev.Move? && !ev.Send? && AroundEvent(s, ev, k)
    ensures var e, r := s.epts[k], Kept(cfg, s, ev, k);
            && r.recving == e.recving && |r.recvs| == |e.recvs| && r.recvQ == e.recvQ && r.recvAvail == e.recvAvail
            && r.server == e.server && r.hasIp == e.hasIp
  {
  }

  lemma {:induction false} SafeStep(cfg: Config, s: State, ev: Event, k: Addr)
    requires Safe(cfg, s, k) && Enabled(s, ev) && AroundEvent(s, ev, k)
    ensures Safe(cfg, Step(cfg, s, ev), k)
  {
    StepSound(cfg, s, ev);
    SafeHarmless(cfg, s, ev, k);
    UdpBuffers.HarmlessTrueOn(cfg, s, ev, k);
    hide Sound, ClientFlags, ClientsTrue, DeafTargets, TrueOn, Keys, Visits, SendQueues, Stamps, Sizes, Budgets, Memory, Apart, Journey;
    SafeCondition(cfg, s, ev, k);
  }

  lemma {:induction false} SafeCondition(cfg: Config, s: State, ev: Event, k: Addr)
    requires Inv(s) && k in s.epts && !Endangered(cfg, s, k) && Enabled(s, ev) && AroundEvent(s, ev, k)
    ensures k in Step(cfg, s, ev).epts && !Endangered(cfg, Step(cfg, s, ev), k)
  {
    StepAt(cfg, s, ev, k);
    hide Step, Keys, Visits, SendQueues, Stamps, Sizes, Budgets, Memory, Apart, Journey, TrueRecvs, AboutToDouble;
    NotMade(cfg, s, ev, k);
    UdpTable.KeptRule(cfg, s, ev, k);
    if s.epts[k].rule.drop < 10000 {
      OneReceive(s.memory, s.epts[k]);
      AroundOne(cfg, s, ev, k);
      AroundLocked(cfg, s, ev, k);
      hide Kept, AroundEvent, Makes, Evicts, Enabled;
      UdpBuffers.StepTrueRecvs(cfg, s, ev, k);
    }
  }

  lemma {:induction false} OneReceive(memory: seq<seq<Byte>>, e: Ept)
    requires TrueRecvs(memory, e)
    ensures |e.recvs| <= 1
  {
  }

  lemma {:induction false} NotMade(cfg: Config, s: State, ev: Event, k: Addr)
    requires Enabled(s, ev) && AroundEvent(s, ev, k)
    ensures !Makes(cfg, s, ev, k) && !Evicts(cfg, s, ev, k)
  {
  }

  lemma {:induction false} SafeStays(cfg: Config, s: State, events: seq<Event>, k: Addr)
    requires Safe(cfg, s, k) && Around(cfg, s, events, k)
    ensures Safe(cfg, Run(cfg, s, events).value, k)
    decreases |events|
  {
    if events != [] {
      hide Safe, Step, Enabled, AroundEvent;
      SafeStays(cfg, s, Front(events), k);
      SafeStep(cfg, Run(cfg, s, Front(events)).value, Last(events), k);
    }
  }

  // ------------------------------------------------------------------ runs around a socket

  /** Such a run, on which the program goes on to live if it did before. */
  ghost predicate Leads(cfg: Config, s0: State, events: seq<Event>, s: State, k: Addr) {
    && Around(cfg, s0, events, k) && Run(cfg, s0, events) == Some(s)
    && Inv(s) && s.clash == s0.clash && s.nullBudget == s0.nullBudget && |s0.log.accepted| <= |s.log.accepted|
  }

  lemma {:induction false} GoesOn(cfg: Config, s0: State, before: seq<Event>, s: State, ev: Event, k: Addr)
      returns (events: seq<Event>, s': State)
    requires Leads(cfg, s0, before, s, k) && Enabled(s, ev) && AroundEvent(s, ev, k)
    requires Step(cfg, s, ev).clash == s.clash && Step(cfg, s, ev).nullBudget == s.nullBudget
    ensures Leads(cfg, s0, events, s', k) && s' == Step(cfg, s, ev)
  {
    hide Step, Enabled, AroundEvent, Inv;
    s' := Chain(cfg, s0, before, s, ev);
    events := before + [ev];
    assert Front(events) == before && Last(events) == ev;
    StepInv(cfg, s, ev);
    StepRest(cfg, s, ev);
  }

  /** Endpoint k accepts something, is a server, and its handlers are not locked out. */
  predicate Open(s: State, k: Addr) {
    k in s.epts && s.epts[k].server && s.epts[k].rule.drop < 10000 && !Locked(s, k)
  }

  // ------------------------------------------------------------------ two receives: let all of them arrive

  function Weight(op: RecvOp): nat {
    match op.progress
    case Arrived(_, _, _) => 0
    case Waiting => 1
    case Broken => 2
    case Refused => 3
  }

  function Total(ops: seq<RecvOp>): nat
    decreases |ops|
  {
    if ops == [] then 0 else Total(Front(ops)) + Weight(Last(ops))
  }

  lemma {:induction false} TotalSplit(ops: seq<RecvOp>, more: seq<RecvOp>)
    ensures Total(ops + more) == Total(ops) + Total(more)
    decreases |more|
  {
    if more == [] {
      assert ops + more == ops;
    } else {
      TotalSplit(ops, Front(more));
      assert Front(ops + more) == ops + Front(more);
    }
  }

  lemma {:induction false} TotalOne(op: RecvOp)
    ensures Total([op]) == Weight(op)
  {
    assert Front([op]) == [];
  }

  lemma {:induction false} TotalAt(ops: seq<RecvOp>, j: nat)
    requires j < |ops|
    ensures Total(ops) == Total(ops[..j]) + Weight(ops[j]) + Total(ops[j + 1..])
  {
    TotalSplit(ops[..j], [ops[j]]);
    TotalSplit(ops[..j] + [ops[j]], ops[j + 1..]);
    TotalOne(ops[j]);
    assert ops == ops[..j] + [ops[j]] + ops[j + 1..];
  }

  lemma {:induction false} TotalChange(ops: seq<RecvOp>, j: nat, op: RecvOp)
    requires j < |ops|
    ensures Total(ops[j := op]) == Total(ops) - Weight(ops[j]) + Weight(op)
    ensures Total(ops[..j] + ops[j + 1..] + [op]) == Total(ops) - Weight(ops[j]) + Weight(op)
  {
    TotalAt(ops, j);
    TotalAt(ops[j := op], j);
    assert ops[j := op][..j] == ops[..j] && ops[j := op][j + 1..] == ops[j + 1..];
    TotalSplit(ops[..j], ops[j + 1..]);
    TotalSplit(ops[..j] + ops[j + 1..], [op]);
    TotalOne(op);
    hide Total;
  }

  lemma {:induction false} TotalZero(ops: seq<RecvOp>)
    ensures Total(ops) == 0 <==> forall j | 0 <= j < |ops| :: ops[j].progress.Arrived?
    decreases |ops|
  {
    if ops != [] {
      TotalZero(Front(ops));
      assert ops == Front(ops) + [Last(ops)];
    }
  }

  lemma {:induction false} AllEnded(ops: seq<RecvOp>)
    requires forall j | 0 <= j < |ops| :: ops[j].progress != Waiting
    ensures Ended(ops) == ops
    decreases |ops|
  {
    if ops != [] {
      var front, last := Front(ops), Last(ops);
      assert forall j | 0 <= j < |front| :: front[j] == ops[j];
      AllEnded(front);
      assert last.progress != Waiting && Ended(ops) == front + [last];
    }
  }

  function Stranger(k: Addr): Addr {
    Addr(k.ip + 1, 1)
  }

  /** A datagram comes in that has these bytes. */
  lemma {:induction false} Arrives(cfg: Config, s: State, k: Addr, j: nat, data: seq<Byte>)
    requires Open(s, k) && j < |s.epts[k].recvs| && s.epts[k].recvs[j].progress == Waiting && |data| <= UDP_BUFFER_SIZE
    ensures var ev := Arrive(k, j, Stranger(k), data);
            && Enabled(s, ev) && AroundEvent(s, ev, k)
            && var s', e := Step(cfg, s, ev), s.epts[k];
               && Open(s', k) && s'.clash == s.clash && s'.nullBudget == s.nullBudget && s'.clock == s.clock
               && s'.epts[k] == Got(e, j, Stranger(k), data) && s'.memory == Store(s.memory, e.recvs[j].buf, data)
  {
    hide Store;
  }

  lemma {:induction false} GotLighter(e: Ept, j: nat, from: Addr)
    requires j < |e.recvs| && e.recvs[j].progress == Waiting
    ensures |Got(e, j, from, []).recvs| == |e.recvs| && Total(Got(e, j, from, []).recvs) < Total(e.recvs)
  {
    TotalChange(e.recvs, j, e.recvs[j].(progress := Arrived(0, from, [])));
  }

  /** The handler of an error starts another receive, once no other one waits. */
  lemma {:induction false} ErroredLighter(e: Ept, j: nat, t: int)
    requires j < |e.recvs| && e.server && (e.recvs[j].progress == Refused || e.recvs[j].progress == Broken)
    requires forall i | 0 <= i < |e.recvs| :: e.recvs[i].progress != Waiting
    ensures var r := Errored(e, j, t, Bound);
            |r.recvs| == |e.recvs| && Total(r.recvs) < Total(e.recvs) && r.rule == e.rule && r.server
  {
    var rest := Finish(e, j).recvs;
    assert forall i | 0 <= i < |rest| :: rest[i].progress != Waiting;
    AllEnded(rest);
    TotalChange(e.recvs, j, RecvOp(e.recvBuf, Waiting));
    TotalChange(e.recvs, j, RecvOp(e.recvBuf, Broken));
    hide Total, Ended;
  }

  lemma {:induction false} ErrorHandled(cfg: Config, s: State, k: Addr, j: nat)
    requires Open(s, k) && j < |s.epts[k].recvs| && (s.epts[k].recvs[j].progress == Refused || s.epts[k].recvs[j].progress == Broken)
    ensures var ev := RecvFails(k, j, s.clock, Bound);
            && Enabled(s, ev) && AroundEvent(s, ev, k)
            && var s' := Step(cfg, s, ev);
               && k in s'.epts && s'.epts[k] == Errored(s.epts[k], j, s.clock, Bound) && !Locked(s', k)
               && s'.clash == s.clash && s'.nullBudget == s.nullBudget
  {
    hide Errored;
  }

  /** However many receives there are, they can all have received something. */
  lemma {:induction false} AllArrive(cfg: Config, s0: State, before: seq<Event>, s: State, k: Addr)
      returns (events: seq<Event>, s': State)
    requires Leads(cfg, s0, before, s, k) && Open(s, k) && |s.epts[k].recvs| >= 2
    ensures Leads(cfg, s0, events, s', k) && Open(s', k) && |s'.epts[k].recvs| >= 2
    ensures forall j | 0 <= j < |s'.epts[k].recvs| :: s'.epts[k].recvs[j].progress.Arrived?
    decreases Total(s.epts[k].recvs)
  {
    var e, s1 := s.epts[k], s;
    events, s' := before, s;
    hide Leads, Step, Enabled, AroundEvent, Locked, Got, Errored;
    if j: nat :| j < |e.recvs| && e.recvs[j].progress == Waiting {
      Arrives(cfg, s, k, j, []);
      GotLighter(e, j, Stranger(k));
      events, s1 := GoesOn(cfg, s0, before, s, Arrive(k, j, Stranger(k), []), k);
      events, s' := AllArrive(cfg, s0, events, s1, k);
    } else if j: nat :| j < |e.recvs| && !e.recvs[j].progress.Arrived? {
      ErrorHandled(cfg, s, k, j);
      ErroredLighter(e, j, s.clock);
      events, s1 := GoesOn(cfg, s0, before, s, RecvFails(k, j, s.clock, Bound), k);
      events, s' := AllArrive(cfg, s0, events, s1, k);
    }
  }

  /** The handler of a datagram that arrived. */
  lemma {:induction false} Accepts(cfg: Config, s: State, k: Addr)
    requires Open(s, k) && s.epts[k].recvs != [] && s.epts[k].recvs[0].progress.Arrived?
    ensures var ev := Recv(k, 0, s.clock, 10000);
            && Enabled(s, ev) && AroundEvent(s, ev, k)
            && var s', e := Step(cfg, s, ev), s.epts[k];
               && Open(s', k) && s'.clash == s.clash && s'.nullBudget == s.nullBudget && s'.clock == s.clock
               && s'.epts[k] == Handled(e, 0, s.clock, 10000, |s.log.accepted|, |s.memory|) && s'.memory == s.memory + [NewBuffer()]
               && s'.log.accepted == s.log.accepted + [Entry(e, k, 0, s.clock)]
  {
    hide NewBuffer, Finish;
  }

  lemma {:induction false} HandledNext(e: Ept, t: int, id: nat, buf: BufId)
    requires |e.recvs| >= 2 && e.recvs[0].progress.Arrived? && e.rule.drop < 10000
    ensures var r := Handled(e, 0, t, 10000, id, buf); r.recvs != [] && r.recvs[0] == e.recvs[1] && r.recvSrc == NOBODY
  {
  }

  /** Since s0 a datagram was queued at k whose record is false. */
  ghost predicate NewestFalse(s0: State, s: State, k: Addr) {
    |s0.log.accepted| < |s.log.accepted| && Last(s.log.accepted).on == k && !TrueEntry(s.memory, Last(s.log.accepted))
  }

  lemma {:induction false} NewestNotTrue(s0: State, s: State, k: Addr)
    requires NewestFalse(s0, s, k)
    ensures !TrueOn(s, k)
  {
    assert s.log.accepted[|s.log.accepted| - 1] == Last(s.log.accepted);
  }

  lemma {:induction false} LeadsSizes(cfg: Config, s0: State, events: seq<Event>, s: State, k: Addr)
    requires Leads(cfg, s0, events, s, k) && k in s.epts
    ensures Sane(s.epts[k].recvs, k) && |s0.log.accepted| <= |s.log.accepted|
    ensures s.epts[k].recvBuf < |s.memory| && |s.memory[s.epts[k].recvBuf]| == UDP_BUFFER_SIZE
  {
    assert SizesOk(s.epts[k], k);
    hide Around, Run, Keys, Visits, Budgets, Stamps, SendQueues, Journey, Apart, Sane, Small;
  }

  lemma {:induction false} OpenMeans(s: State, k: Addr)
    requires Open(s, k)
    ensures k in s.epts && s.epts[k].server && s.epts[k].rule.drop < 10000
  {
  }

  /** The handler that runs second finds the address that the first one has reset. */
  lemma {:induction false} TwoDoHarm(cfg: Config, s0: State, before: seq<Event>, s: State, k: Addr)
      returns (events: seq<Event>, s': State)
    requires Leads(cfg, s0, before, s, k) && Open(s, k) && |s.epts[k].recvs| >= 2
    ensures Leads(cfg, s0, events, s', k) && NewestFalse(s0, s', k)
  {
    var s1, s2;
    hide Leads, Step, Enabled, AroundEvent, Open, Handled, TrueOn, NewBuffer, Payload, Inv;
    events, s1 := AllArrive(cfg, s0, before, s, k);
    OpenMeans(s1, k);
    var e := s1.epts[k];
    LeadsSizes(cfg, s0, events, s1, k);
    Accepts(cfg, s1, k);
    HandledNext(e, s1.clock, |s1.log.accepted|, |s1.memory|);
    events, s2 := GoesOn(cfg, s0, events, s1, Recv(k, 0, s1.clock, 10000), k);
    Accepts(cfg, s2, k);
    events, s' := GoesOn(cfg, s0, events, s2, Recv(k, 0, s2.clock, 10000), k);
    assert Last(s'.log.accepted).from == NOBODY != Last(s'.log.accepted).sender;
  }

  // ------------------------------------------------------------------ one receive that is not as it should be

  lemma {:induction false} BadHandled(cfg: Config, s0: State, before: seq<Event>, s: State, k: Addr)
      returns (events: seq<Event>, s': State)
    requires Leads(cfg, s0, before, s, k) && Open(s, k) && |s.epts[k].recvs| == 1 && s.epts[k].recvs[0].progress.Arrived?
    requires !TrueRecvs(s.memory, s.epts[k])
    ensures Leads(cfg, s0, events, s', k) && NewestFalse(s0, s', k)
  {
    hide Leads, Step, Enabled, AroundEvent, Open, Handled, TrueOn, NewBuffer, Payload, Inv;
    OpenMeans(s, k);
    var e := s.epts[k];
    LeadsSizes(cfg, s0, before, s, k);
    UdpBuffers.PayloadKept(s.memory, 0, [], e.recvBuf, e.recvs[0].progress.size);
    Accepts(cfg, s, k);
    events, s' := GoesOn(cfg, s0, before, s, Recv(k, 0, s.clock, 10000), k);
    assert Last(s'.log.accepted) == Entry(e, k, 0, s.clock);
  }

  lemma {:induction false} OtherByte(memory: seq<seq<Byte>>, b: BufId) returns (data: seq<Byte>)
    requires b < |memory| && |memory[b]| == UDP_BUFFER_SIZE
    ensures |data| == 1 && Payload(memory, b, 1) != data
  {
    data := if memory[b][0] == 0 then [1] else [0];
  }

  /** It waits for a datagram that goes elsewhere than into the message buffer: one whose byte is not there. */
  lemma {:induction false} BadArrives(cfg: Config, s0: State, before: seq<Event>, s: State, k: Addr)
      returns (events: seq<Event>, s': State)
    requires Leads(cfg, s0, before, s, k) && Open(s, k) && |s.epts[k].recvs| == 1 && s.epts[k].recvs[0].progress == Waiting
    requires s.epts[k].recvs[0].buf != s.epts[k].recvBuf
    ensures Leads(cfg, s0, events, s', k) && Open(s', k) && |s'.epts[k].recvs| == 1 && s'.epts[k].recvs[0].progress.Arrived?
    ensures !TrueRecvs(s'.memory, s'.epts[k])
  {
    hide Leads, Step, Enabled, AroundEvent, Open, Inv, Payload, Store;
    OpenMeans(s, k);
    var e := s.epts[k];
    LeadsSizes(cfg, s0, before, s, k);
    var data := OtherByte(s.memory, e.recvBuf);
    UdpBuffers.PayloadKept(s.memory, e.recvs[0].buf, data, e.recvBuf, 1);
    Arrives(cfg, s, k, 0, data);
    events, s' := GoesOn(cfg, s0, before, s, Arrive(k, 0, Stranger(k), data), k);
    OpenMeans(s', k);
    assert s'.epts[k].recvs[0].progress == Arrived(1, Stranger(k), data) && s'.epts[k].recvBuf == e.recvBuf;
  }

  lemma {:induction false} UnlockedHarm(cfg: Config, s0: State, before: seq<Event>, s: State, k: Addr)
      returns (events: seq<Event>, s': State)
    requires Leads(cfg, s0, before, s, k) && Open(s, k) && !TrueRecvs(s.memory, s.epts[k])
    ensures Leads(cfg, s0, events, s', k) && NewestFalse(s0, s', k)
  {
    hide Leads, TrueOn;
    if |s.epts[k].recvs| >= 2 {
      events, s' := TwoDoHarm(cfg, s0, before, s, k);
    } else {
      assert |s.epts[k].recvs| == 1;
      var s1 := s;
      events := before;
      if s.epts[k].recvs[0].progress == Waiting {
        events, s1 := BadArrives(cfg, s0, before, s, k);
      }
      hide TrueRecvs;
      events, s' := BadHandled(cfg, s0, events, s1, k);
    }
  }

  // ------------------------------------------------------------------ until the moving loop leaves the endpoint

  /** A turn that starts a second receive, or leaves one that is not as it should be. */
  lemma {:induction false} TakenBad(memory: seq<seq<Byte>>, memory': seq<seq<Byte>>, e: Ept, now: int)
    requires e.recvQ != [] && UdpBuffers.SameMessage(memory, memory', e.recvBuf)
    requires !TrueRecvs(memory, e) || (!e.recving && |e.recvs| == 1)
    ensures !TrueRecvs(memory', TakeHead(e, now))
  {
    var r := TakeHead(e, now);
    TakenReceives(e, now);
    if |r.recvs| <= 1 {
      assert r.recvs == e.recvs && r.recvBuf == e.recvBuf && r.recvSrc == e.recvSrc;
      if e.recvs[0].progress.Arrived? {
        assert Payload(memory', e.recvBuf, e.recvs[0].progress.size) == Payload(memory, e.recvBuf, e.recvs[0].progress.size);
      }
    }
    hide TakeHead, Payload;
  }

  /** What was accepted from the endpoint itself is false, so the assertion of line 196 does not fail. */
  lemma {:induction false} NoneFromItself(s: State, k: Addr)
    requires Journey(s) && TrueOn(s, k) && k in s.epts
    ensures !Clash(s.epts[k], k)
  {
    if s.epts[k].recvQ != [] {
      assert RecvEntry(s.log, k, s.epts[k].recvQ[0]);
    }
    hide Tied, Orders, NoOvertaking, Payload;
  }

  /** One turn of the moving loop for k, in which something is taken. */
  lemma {:induction false} TurnTakes(cfg: Config, s: State, k: Addr)
    requires Memory(s) && Apart(s) && s.phase.Moving? && Locked(s, k) && k in s.epts && MayMove(cfg, s, s.epts[k], k)
    ensures var ev := Move(Bound, s.clock);
            && Enabled(s, ev)
            && var s' := Step(cfg, s, ev);
               && k in s'.epts && s'.epts[k] == TakeHead(s.epts[k], s.now) && Locked(s', k)
               && s'.clash == s.clash && s'.nullBudget == s.nullBudget
               && UdpBuffers.SameMessage(s.memory, s'.memory, s.epts[k].recvBuf)
  {
    var ev := Move(Bound, s.clock);
    StepAt(cfg, s, ev, k);
    StepPhase(cfg, s, ev);
    UdpBuffers.StepMessage(cfg, s, ev, k);
    MoveOnRest(cfg, PayMove(cfg, s, k), k, Bound, s.clock);
    hide MoveOn, TakeHead, UdpBuffers.SameMessage, NewBuffer, Memory, Apart;
  }

  /** The turn that ends the loop. */
  lemma {:induction false} TurnLeaves(cfg: Config, s: State, k: Addr)
    requires s.phase.Moving? && Locked(s, k) && k in s.epts && s.epts[k].server && !MayMove(cfg, s, s.epts[k], k) && !Clash(s.epts[k], k)
    ensures var ev := Move(Bound, s.clock);
            && Enabled(s, ev)
            && var s' := Step(cfg, s, ev);
               s'.epts == s.epts && s'.memory == s.memory && !Locked(s', k) && s'.clash == s.clash && s'.nullBudget == s.nullBudget
  {
    hide MoveOn, MayMove, Clash;
  }

  ghost predicate Bad(cfg: Config, s: State, k: Addr) {
    k in s.epts && s.epts[k].server && TrueOn(s, k) && Endangered(cfg, s, k)
  }

  lemma {:induction false} BadMove(cfg: Config, s: State, k: Addr)
    requires Inv(s) && Bad(cfg, s, k) && s.phase.Moving? && Locked(s, k)
    ensures var ev := Move(Bound, s.clock);
            && Enabled(s, ev) && AroundEvent(s, ev, k)
            && var s' := Step(cfg, s, ev);
               && s'.clash == s.clash && s'.nullBudget == s.nullBudget && Bad(cfg, s', k)
               && (Locked(s', k) ==> Work(s'.epts[k]) < Work(s.epts[k]))
  {
    var e, ev := s.epts[k], Move(Bound, s.clock);
    NoneFromItself(s, k);
    hide Keys, Visits, Budgets, Stamps, SendQueues, Journey, Memory, Apart, Sizes, TrueOn, TrueRecvs, Clash, MayMove;
    if MayMove(cfg, s, e, k) {
      TurnTakes(cfg, s, k);
      TakenIs(cfg, s, e, k);
    } else {
      TurnLeaves(cfg, s, k);
    }
    hide Step, Locked, AboutToDouble;
    var s' := Step(cfg, s, ev);
    UdpBuffers.HarmlessTrueOn(cfg, s, ev, k);
    if MayMove(cfg, s, e, k) {
      TakenBad(s.memory, s'.memory, e, s.now);
    }
  }

  /** One turn of the sending loop for a server, with the send, if there is one, going well. */
  lemma {:induction false} TurnSends(cfg: Config, s: State, k: Addr)
    requires s.phase.Sending? && Locked(s, k) && k in s.epts && s.epts[k].server
    ensures var ev := Send(true, Bound, s.clock);
            && Enabled(s, ev)
            && var e, s' := s.epts[k], Step(cfg, s, ev);
               && k in s'.epts && s'.memory == s.memory && s'.phase.Sending? && s'.clash == s.clash && s'.nullBudget == s.nullBudget
               && s'.epts[k] == e.(sendQ := s'.epts[k].sendQ, sendAvail := s'.epts[k].sendAvail, sendLedger := s'.epts[k].sendLedger)
               && (!Locked(s', k) || |s'.epts[k].sendQ| < |e.sendQ|)
  {
    hide SendHead, Depart, Payload, NullSendBudget;
    var e := s.epts[k];
    if MaySend(cfg, s, e, k) {
      assert SendHead(e, s.now).sendQ == e.sendQ[1..];
    }
    NoNullSend(cfg, e);
  }

  lemma {:induction false} NoNullSend(cfg: Config, e: Ept)
    requires e.server
    ensures !NullSendBudget(cfg, e)
  {
  }

  lemma {:induction false} BadSend(cfg: Config, s: State, k: Addr)
    requires Inv(s) && Bad(cfg, s, k) && s.phase.Sending? && Locked(s, k)
    ensures var ev := Send(true, Bound, s.clock);
            && Enabled(s, ev) && AroundEvent(s, ev, k)
            && var s' := Step(cfg, s, ev);
               && s'.clash == s.clash && s'.nullBudget == s.nullBudget && Bad(cfg, s', k)
               && (Locked(s', k) ==> Work(s'.epts[k]) < Work(s.epts[k]))
  {
    var ev := Send(true, Bound, s.clock);
    hide Keys, Visits, Budgets, Stamps, SendQueues, Journey, Memory, Apart, Sizes, TrueOn;
    TurnSends(cfg, s, k);
    hide Step, Locked;
    UdpBuffers.HarmlessTrueOn(cfg, s, ev, k);
    hide Payload, Enabled;
  }

  /** What the loops for an endpoint have still to do. */
  function Work(e: Ept): nat {
    |e.recvQ| + |e.sendQ|
  }

  lemma {:induction false} TakenIs(cfg: Config, s: State, e: Ept, k: Addr)
    requires MayMove(cfg, s, e, k)
    ensures e.recvQ != [] && Work(TakeHead(e, s.now)) < Work(e)
    ensures TakeHead(e, s.now).server == e.server && TakeHead(e, s.now).rule == e.rule
  {
  }

  lemma {:induction false} LockedPhase(s: State, k: Addr)
    requires Locked(s, k)
    ensures s.phase.Moving? || s.phase.Sending?
  {
  }

  lemma {:induction false} LeadsInv(cfg: Config, s0: State, events: seq<Event>, s: State, k: Addr)
    requires Leads(cfg, s0, events, s, k)
    ensures Inv(s)
  {
    hide Around, Run, Inv;
  }

  lemma {:induction false} Unlocks(cfg: Config, s0: State, before: seq<Event>, s: State, k: Addr)
      returns (events: seq<Event>, s': State)
    requires Leads(cfg, s0, before, s, k) && Bad(cfg, s, k)
    ensures Leads(cfg, s0, events, s', k) && Bad(cfg, s', k) && !Locked(s', k)
    decreases Work(s.epts[k])
  {
    hide Step, Enabled, AroundEvent, Locked, Leads, Inv, TrueOn, Endangered;
    events, s' := before, s;
    if Locked(s, k) {
      LeadsInv(cfg, s0, before, s, k);
      LockedPhase(s, k);
      var s1;
      if s.phase.Moving? {
        BadMove(cfg, s, k);
        events, s1 := GoesOn(cfg, s0, before, s, Move(Bound, s.clock), k);
      } else {
        BadSend(cfg, s, k);
        events, s1 := GoesOn(cfg, s0, before, s, Send(true, Bound, s.clock), k);
      }
      if Locked(s1, k) {
        events, s' := Unlocks(cfg, s0, events, s1, k);
      } else {
        s' := s1;
      }
    }
  }

  // ------------------------------------------------------------------ the exact condition

  /** These events around k end with a datagram queued there whose record is false; the program is as alive as before. */
  ghost predicate Harms(cfg: Config, s: State, more: seq<Event>, k: Addr) {
    && Around(cfg, s, more, k)
    && var s' := Run(cfg, s, more).value;
       NewestFalse(s, s', k) && s'.clash == s.clash && s'.nullBudget == s.nullBudget
  }

  lemma {:induction false} BadHarm(cfg: Config, s: State, k: Addr) returns (events: seq<Event>)
    requires Inv(s) && Bad(cfg, s, k)
    ensures Harms(cfg, s, events, k)
  {
    var s1, s';
    assert Leads(cfg, s, [], s, k);
    hide Leads, TrueOn, NewestFalse, Inv;
    events, s1 := Unlocks(cfg, s, [], s, k);
    events, s' := UnlockedHarm(cfg, s, events, s1, k);
    LeadsHarms(cfg, s, events, s', k);
  }

  lemma {:induction false} LeadsHarms(cfg: Config, s: State, more: seq<Event>, s': State, k: Addr)
    requires Leads(cfg, s, more, s', k) && NewestFalse(s, s', k)
    ensures Harms(cfg, s, more, k)
  {
    hide NewestFalse, Inv;
  }

  /** However things go on around k, what is recorded of its datagrams is what arrived. */
  ghost predicate StaysTrue(cfg: Config, s: State, k: Addr) {
    forall more | Around(cfg, s, more, k) :: TrueOn(Run(cfg, s, more).value, k)
  }

  lemma {:induction false} TrueNow(cfg: Config, s: State, k: Addr)
    requires StaysTrue(cfg, s, k)
    ensures TrueOn(s, k)
  {
    var nothing: seq<Event> := [];
    hide TrueOn;
    assert Around(cfg, s, nothing, k);
    assert TrueOn(Run(cfg, s, nothing).value, k);
  }

  lemma {:induction false} SafeStaysTrue(cfg: Config, s: State, k: Addr)
    requires Safe(cfg, s, k)
    ensures StaysTrue(cfg, s, k)
  {
    hide Safe, TrueOn;
    forall more | Around(cfg, s, more, k) ensures TrueOn(Run(cfg, s, more).value, k) {
      SafeStays(cfg, s, more, k);
      SafeMeans(cfg, Run(cfg, s, more).value, k);
    }
  }

  lemma {:induction false} SafeMeans(cfg: Config, s: State, k: Addr)
    requires Safe(cfg, s, k)
    ensures TrueOn(s, k)
  {
  }

  lemma {:induction false} HarmsMeans(cfg: Config, s: State, more: seq<Event>, k: Addr)
    requires Harms(cfg, s, more, k)
    ensures !StaysTrue(cfg, s, k)
  {
    NewestNotTrue(s, Run(cfg, s, more).value, k);
    hide TrueOn, NewestFalse;
  }

  /**
   The exact condition, in every reachable state and for every endpoint. What is recorded of the datagrams on k stays what
   arrived, however its socket, its handlers and the loops for it go on, iff it is so now and k is not in danger. If k is,
   then on some such run, which the program survives, a datagram is queued with a false record.
   */
  lemma {:induction false} IntegrityIff(cfg: Config, lines: seq<Line>, now: int, events: seq<Event>, k: Addr)
    requires Runs(cfg, lines, now, events) && k in After(cfg, lines, now, events).epts
    ensures var s := After(cfg, lines, now, events);
            && (StaysTrue(cfg, s, k) <==> TrueOn(s, k) && !Endangered(cfg, s, k))
            && (TrueOn(s, k) && Endangered(cfg, s, k) ==> exists more :: Harms(cfg, s, more, k))
  {
    var s := After(cfg, lines, now, events);
    RunSound(cfg, lines, now, events);
    hide Start, Run, Step, Enabled, Inv, ClientFlags, ClientsTrue, DeafTargets, TrueOn, StaysTrue, Harms, Endangered;
    if StaysTrue(cfg, s, k) {
      TrueNow(cfg, s, k);
    }
    if TrueOn(s, k) {
      if Endangered(cfg, s, k) {
        OnlyServers(cfg, s, k);
        var more := BadHarm(cfg, s, k);
        HarmsMeans(cfg, s, more, k);
      } else {
        SafeStaysTrue(cfg, s, k);
      }
    }
  }

  // ------------------------------------------------------------------ the two ways to two receives

  /** A server is reopened while a receive that has ended waits, or a turn of the moving loop adds one to another. */
  predicate Doubles(cfg: Config, s: State, ev: Event, k: Addr)
    requires Enabled(s, ev) && k in s.epts
  {
    && |s.epts[k].recvs| == 1 && (ev.Send? || ev.Move?) && k == s.phase.todo[0]
    && (if ev.Move? then Moves(cfg, s, ev) && !s.epts[k].recving
        else MaySend(cfg, s, s.epts[k], k) && !ev.sent && ev.o == Bound && s.epts[k].server && s.epts[k].recvs[0].progress != Waiting)
  }

  lemma {:induction false} BreakDoubles(e: Ept, o: Opening, t: int)
    requires |e.recvs| <= 1
    ensures |Break(e, o, t).recvs| >= 2 <==> e.server && o == Bound && |e.recvs| == 1 && e.recvs[0].progress != Waiting
  {
    UdpTable.EndedIs(e.recvs);
  }

  lemma {:induction false} HandledOnce(e: Ept, j: nat, t: int, roll: int, id: nat, buf: BufId)
    requires |e.recvs| <= 1 && j < |e.recvs|
    ensures e.recvs[j].progress.Arrived? ==> |Handled(e, j, t, roll, id, buf).recvs| <= 1
  {
  }

  lemma {:induction false} ErroredOnce(e: Ept, j: nat, t: int, o: Opening)
    requires |e.recvs| <= 1 && j < |e.recvs|
    ensures |Errored(e, j, t, o).recvs| <= 1
  {
    BreakDoubles(Finish(e, j), o, t);
    hide Break;
  }

  lemma {:induction false} ReceiveSingle(cfg: Config, s: State, ev: Event, k: Addr)
    requires Enabled(s, ev) && k in s.epts && |s.epts[k].recvs| <= 1 && !ev.Send? && !ev.Move?
    ensures |Kept(cfg, s, ev, k).recvs| <= 1
  {
    var e := s.epts[k];
    hide Got, Lose, Handled, Errored, RefillBoth, SendHead, TakeHead, Break, Given, Touch, Moves, MaySend;
    match ev
    case Recv(x, j, t, roll) => if x == k { HandledOnce(e, j, t, roll, |s.log.accepted|, |s.memory|); }
    case RecvFails(x, j, t, o) => if x == k { ErroredOnce(e, j, t, o); }
    case _ =>
  }

  lemma {:induction false} KeptDoubles(cfg: Config, s: State, ev: Event, k: Addr)
    requires Enabled(s, ev) && k in s.epts && |s.epts[k].recvs| <= 1
    ensures |Kept(cfg, s, ev, k).recvs| >= 2 <==> Doubles(cfg, s, ev, k)
  {
    var e := s.epts[k];
    hide Got, Lose, Handled, Errored, RefillBoth, SendHead, TakeHead, Break, Given, Touch, MaySend;
    if ev.Send? {
      hide Moves;
      BreakDoubles(e, ev.o, ev.t);
    } else if ev.Move? {
      if Moves(cfg, s, ev) && k == s.phase.todo[0] {
        TakenReceives(e, s.now);
      }
      hide Moves;
    } else {
      ReceiveSingle(cfg, s, ev, k);
      hide Kept;
    }
  }

  /** A step leaves a socket that had at most one receive with two exactly in these two ways. */
  lemma {:induction false} TwoWays(cfg: Config, s: State, ev: Event, k: Addr)
    requires Enabled(s, ev) && k in s.epts && |s.epts[k].recvs| <= 1
    ensures k in Step(cfg, s, ev).epts && |Step(cfg, s, ev).epts[k].recvs| >= 2 <==> Doubles(cfg, s, ev, k)
  {
    StepAt(cfg, s, ev, k);
    KeptDoubles(cfg, s, ev, k);
    if Makes(cfg, s, ev, k) {
      UdpTable.MadeKey(cfg, s, ev);
    }
    hide Step, Kept, Made, MaySend;
  }

  // ------------------------------------------------------------------ the first time that it happens

  /**
   The condition at the first moment at which a socket may have two receives: everything recorded is true and no assertion
   has failed, and k is in danger iff it accepts something and has two receives, or will have them at the next turn.
   */
  lemma {:induction false} FirstDanger(cfg: Config, lines: seq<Line>, now: int, events: seq<Event>, k: Addr)
    requires Runs(cfg, lines, now, events) && (events == [] || Single(cfg, Start(lines, now), Front(events)))
    requires k in After(cfg, lines, now, events).epts
    ensures var s := After(cfg, lines, now, events);
            && TrueOn(s, k) && !s.clash
            && (Endangered(cfg, s, k) <==> s.epts[k].rule.drop < 10000 && (|s.epts[k].recvs| >= 2 || AboutToDouble(cfg, s, k)))
  {
    hide Start, Started, Step, Enabled, TrueOn, TrueRecvs, AboutToDouble;
    hide Keys, Visits, SendQueues, Stamps, Sizes, Budgets, Memory, Apart, Journey;
    var s := After(cfg, lines, now, events);
    if events == [] {
      StartIs(lines, now);
      StartedInv(Start(lines, now), now);
      StartedTrue(s, now);
    } else {
      var s0 := After(cfg, lines, now, Front(events));
      RunIntact(cfg, lines, now, Front(events));
      NoClash(cfg, lines, now, Front(events));
      Reached(cfg, lines, now, Front(events));
      JourneyFacts(s0);
      StepNoClash(cfg, s0, Last(events));
      UdpBuffers.StepTrueOn(cfg, s0, Last(events), k);
      if |s.epts[k].recvs| <= 1 {
        UdpBuffers.StepTrueRecvs(cfg, s0, Last(events), k);
      }
    }
    if TrueRecvs(s.memory, s.epts[k]) {
      OneReceive(s.memory, s.epts[k]);
    }
  }

  lemma {:induction false} StartedTrue(s: State, now: int)
    requires Started(s, now)
    ensures !s.clash && forall k <- s.epts :: TrueOn(s, k) && TrueRecvs(s.memory, s.epts[k])
  {
    StartedSound(s, now);
    forall k <- s.epts ensures TrueRecvs(s.memory, s.epts[k]) {
      assert Untouched(s.epts[k], k, now);
    }
  }
}
