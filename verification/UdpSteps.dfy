/** What a step of the UDP endpoint table does to any one endpoint. */
module UdpSteps {
  import opened Udp

  /** A move's head and where it goes. */
  predicate Moves(cfg: Config, s: State, ev: Event)
    requires Enabled(s, ev)
  {
    ev.Move? && MayMove(cfg, s, s.epts[s.phase.todo[0]], s.phase.todo[0])
  }

  function Head(s: State): Dgram
    requires s.phase.Moving? && s.phase.todo != [] && s.phase.todo[0] in s.epts && s.epts[s.phase.todo[0]].recvQ != []
  {
    s.epts[s.phase.todo[0]].recvQ[0]
  }

  /** What a move leaves of its sender's endpoint x: delivered to if there is room. */
  function Given(e: Ept, m: Dgram, k: Addr): (r: Ept)
    ensures r == e.(sendQ := r.sendQ)
  {
    if |e.sendQ| < MAX_UDP_MSG_QUEUE_SIZE then Deliver(e, m, k) else e
  }

  /** The endpoint that a move makes for the sender of its head. */
  function Made(cfg: Config, s: State, ev: Event): Ept
    requires Enabled(s, ev) && Moves(cfg, s, ev)
  {
    var k := s.phase.todo[0];
    NewEpt(Head(s).peer, s.epts[k].rule, false, Limited(cfg), Bound, ev.t, |s.memory|, s.log)
  }

  /** A move makes endpoint a. */
  predicate Makes(cfg: Config, s: State, ev: Event, a: Addr)
    requires Enabled(s, ev)
  {
    Moves(cfg, s, ev) && a == Head(s).peer && !Known(s, a) && ev.o == Bound
  }

  /** Endpoint a leaves the table. */
  predicate Evicts(cfg: Config, s: State, ev: Event, a: Addr)
    requires Enabled(s, ev)
  {
    ev.Enter? && a == s.phase.todo[0] && Expired(cfg, s.epts[a], s.now)
  }

  /** What a step leaves of an endpoint that was there before and is not made anew. */
  function Kept(cfg: Config, s: State, ev: Event, a: Addr): Ept
    requires Enabled(s, ev) && a in s.epts
  {
    var e := s.epts[a];
    match ev
    case Arrive(k, j, from, payload) => if a == k then Got(e, j, from, payload) else e
    case Fail(k, j, refused) => if a == k then Lose(e, j, refused) else e
    case Recv(k, j, t, roll) => if a == k then Handled(e, j, t, roll, |s.log.accepted|, |s.memory|) else e
    case RecvFails(k, j, t, o) => if a == k then Errored(e, j, t, o) else e
    case Enter => if a == s.phase.todo[0] then RefillBoth(e, s.phase.interval * e.rule.bandwidth / 1000) else e
    case Move(o, t) =>
      if !Moves(cfg, s, ev) then e
      else if a == s.phase.todo[0] then TakeHead(e, s.now)
      else if a == Head(s).peer && Known(s, a) then Given(Touch(e, s.now), Head(s), s.phase.todo[0])
      else e
    case Send(sent, o, t) =>
      if a != s.phase.todo[0] || !MaySend(cfg, s, e, a) then e else if sent then SendHead(e, s.now) else Break(e, o, t)
    case _ => e
  }

  lemma {:induction false} ForwardAt(s: State, k: Addr, x: Addr, a: Addr)
    requires k in s.epts && x in s.epts && k != x && s.epts[k].recvQ != []
    ensures var s' := Forward(s, k, x);
            && s'.epts.Keys == s.epts.Keys
            && (a in s.epts ==>
                  s'.epts[a] == if a == k then TakeHead(s.epts[k], s.now)
                                else if a == x then Given(s.epts[x], s.epts[k].recvQ[0], k) else s.epts[a])
  {
    hide Pass, TakeHead, Deliver;
  }

  lemma {:induction false} MeetAt(cfg: Config, s: State, x: Addr, rule: Rule, t: int, a: Addr)
    ensures var s' := Meet(cfg, s, x, rule, t);
            && s'.epts.Keys == s.epts.Keys + {x} && s'.now == s.now
            && (a in s.epts && a != x ==> s'.epts[a] == s.epts[a])
            && (Known(s, x) ==> s'.epts[x] == Touch(s.epts[x], s.now))
            && (!Known(s, x) ==> s'.epts[x] == NewEpt(x, rule, false, Limited(cfg), Bound, t, |s.memory|, s.log))
  {
    hide NewEpt, Touch, LoseAll;
  }

  lemma {:induction false} MoveOnAt(cfg: Config, s: State, k: Addr, o: Opening, t: int, a: Addr)
    requires k in s.epts && s.epts[k].recvQ != [] && s.epts[k].recvQ[0].peer != k
    ensures var s', m := MoveOn(cfg, s, k, o, t), s.epts[k].recvQ[0];
            var made := !Known(s, m.peer) && o == Bound;
            && s'.epts.Keys == (if made then s.epts.Keys + {m.peer} else s.epts.Keys)
            && (a in s'.epts ==>
                  s'.epts[a] == if a == k then TakeHead(s.epts[k], s.now)
                                else if a == m.peer && Known(s, a) then Given(Touch(s.epts[a], s.now), m, k)
                                else if a == m.peer && made then Given(NewEpt(a, s.epts[k].rule, false, Limited(cfg), Bound, t, |s.memory|, s.log), m, k)
                                else s.epts[a])
  {
    var x := s.epts[k].recvQ[0].peer;
    var s1 := Meet(cfg, s, x, s.epts[k].rule, t);
    hide Meet, Forward, TakeHead, Given, Touch, NewEpt, Pass;
    MeetAt(cfg, s, x, s.epts[k].rule, t, a);
    MeetAt(cfg, s, x, s.epts[k].rule, t, k);
    ForwardAt(s1, k, x, a);
  }

  /** Every endpoint after a step is one kept from before or one made by it. */
  lemma {:induction false} StepAt(cfg: Config, s: State, ev: Event, a: Addr)
    requires Enabled(s, ev)
    ensures var s' := Step(cfg, s, ev);
            && (a in s'.epts <==> (a in s.epts && !Evicts(cfg, s, ev, a)) || Makes(cfg, s, ev, a))
            && (a in s'.epts ==>
                  s'.epts[a] == if Makes(cfg, s, ev, a) then Deliver(Made(cfg, s, ev), Head(s), s.phase.todo[0]) else Kept(cfg, s, ev, a))
  {
    hide MoveOn, Got, Lose, Handled, Errored, TakeHead, Touch, NewEpt, Break, SendHead, RefillBoth, LoseAll, Depart, Store, Deliver;
    if Moves(cfg, s, ev) {
      var k := s.phase.todo[0];
      var s1 := PayMove(cfg, s, k);
      MoveOnAt(cfg, s1, k, ev.o, ev.t, a);
      MadeEmpty(cfg, s, ev);
    }
  }

  lemma {:induction false} MadeEmpty(cfg: Config, s: State, ev: Event)
    requires Enabled(s, ev) && Moves(cfg, s, ev)
    ensures Made(cfg, s, ev).sendQ == []
  {
  }

  // ------------------------------------------------------------------ everything but the endpoints

  /** A move changes, besides the endpoints, only these. */
  lemma {:induction false} MoveOnRest(cfg: Config, s: State, k: Addr, o: Opening, t: int)
    requires k in s.epts && s.epts[k].recvQ != [] && s.epts[k].recvQ[0].peer != k
    ensures var s', m := MoveOn(cfg, s, k, o, t), s.epts[k].recvQ[0];
            var made := !Known(s, m.peer) && o == Bound;
            && s'.now == s.now && s'.phase == s.phase && (s'.clock == s.clock || s'.clock == t)
            && s'.newKeys == (if made then s.newKeys + {m.peer} else s.newKeys)
            && s'.memory == (if made then s.memory + [NewBuffer()] else s.memory)
            && s'.log.accepted == s.log.accepted && s'.log.sent == s.log.sent
            && s'.log.taken == s.log.taken + [Taken(m.id, k, m.size)]
            && s'.ips == s.ips && s'.clash == s.clash && s'.nullBudget == s.nullBudget
  {
    var x := s.epts[k].recvQ[0].peer;
    ForwardRest(Meet(cfg, s, x, s.epts[k].rule, t), k, x);
    MeetAt(cfg, s, x, s.epts[k].rule, t, k);
    hide NewEpt, Touch, TakeHead, Pass, LoseAll, NewBuffer, Forward;
  }

  lemma {:induction false} ForwardRest(s: State, k: Addr, x: Addr)
    requires k in s.epts && x in s.epts && s.epts[k].recvQ != []
    ensures var s', m := Forward(s, k, x), s.epts[k].recvQ[0];
            && s'.log.accepted == s.log.accepted && s'.log.sent == s.log.sent
            && s'.log.taken == s.log.taken + [Taken(m.id, k, m.size)]
            && s' == s.(epts := s'.epts, log := s'.log)
  {
    hide TakeHead, Deliver, Pass;
  }

  /** What becomes of the other parts of the state. */
  lemma {:induction false} StepRest(cfg: Config, s: State, ev: Event)
    requires Enabled(s, ev)
    ensures var s' := Step(cfg, s, ev);
            && s'.now == (if ev.BeginPass? && ev.t > s.now then ev.t else s.now)
            && s.clock <= s'.clock && (ev.BeginPass? || ev.Recv? ==> s'.clock == ev.t)
            && s'.newKeys == (if ev.EndMoving? then {} else if Moves(cfg, s, ev) && Makes(cfg, s, ev, Head(s).peer) then s.newKeys + {Head(s).peer} else s.newKeys)
            && s'.memory == (match ev
                             case Arrive(k, j, from, payload) => Store(s.memory, s.epts[k].recvs[j].buf, payload)
                             case Recv(k, j, t, roll) => if Dropped(s.epts[k], roll) then s.memory else s.memory + [NewBuffer()]
                             case Move(o, t) => if Moves(cfg, s, ev) && Makes(cfg, s, ev, Head(s).peer) then s.memory + [NewBuffer()] else s.memory
                             case _ => s.memory)
            && s'.log.accepted == (if ev.Recv? && !Dropped(s.epts[ev.k], ev.roll) then s.log.accepted + [Entry(s.epts[ev.k], ev.k, ev.j, ev.t)] else s.log.accepted)
            && s'.log.taken == (if Moves(cfg, s, ev) then s.log.taken + [Taken(Head(s).id, s.phase.todo[0], Head(s).size)] else s.log.taken)
            && s'.log.sent == (if Sends(cfg, s, ev) then s.log.sent + [Leaving(s)] else s.log.sent)
  {
    hide MoveOn, Got, Lose, Handled, Errored, TakeHead, Touch, NewEpt, Break, SendHead, RefillBoth, LoseAll, Store, Deliver, NewBuffer, Payload;
    if Moves(cfg, s, ev) {
      MoveOnRest(cfg, PayMove(cfg, s, s.phase.todo[0]), s.phase.todo[0], ev.o, ev.t);
    }
  }

  predicate Sends(cfg: Config, s: State, ev: Event)
    requires Enabled(s, ev)
  {
    ev.Send? && ev.sent && MaySend(cfg, s, s.epts[s.phase.todo[0]], s.phase.todo[0])
  }

  /** The departure that a send makes. */
  function Leaving(s: State): Departure
    requires s.phase.Sending? && s.phase.todo != [] && s.phase.todo[0] in s.epts && s.epts[s.phase.todo[0]].sendQ != []
  {
    var m := s.epts[s.phase.todo[0]].sendQ[0];
    Departure(m.id, s.phase.todo[0], m.peer, Payload(s.memory, m.buf, m.size), s.now)
  }

  function NextPhase(cfg: Config, s: State, ev: Event): Phase
    requires Enabled(s, ev)
  {
    match ev
    case BeginPass(t, order) => if t <= s.now then s.phase else Moving(order, false, t - s.now)
    case Enter =>
      if Evicts(cfg, s, ev, s.phase.todo[0]) then Moving(s.phase.todo[1..], false, s.phase.interval)
      else Moving(s.phase.todo, true, s.phase.interval)
    case Move(o, t) => if Moves(cfg, s, ev) then s.phase else Moving(s.phase.todo[1..], false, s.phase.interval)
    case EndMoving(order) => Sending(order, false)
    case Send(sent, o, t) => if Sends(cfg, s, ev) then Sending(s.phase.todo, true) else Sending(s.phase.todo[1..], false)
    case EndPass => Resting
    case _ => s.phase
  }

  lemma {:induction false} StepPhase(cfg: Config, s: State, ev: Event)
    requires Enabled(s, ev)
    ensures Step(cfg, s, ev).phase == NextPhase(cfg, s, ev)
  {
    hide MoveOn, Got, Lose, Handled, Errored, SendHead, Break, RefillBoth, LoseAll, Store, Depart, Payload;
    if Moves(cfg, s, ev) {
      MoveOnRest(cfg, PayMove(cfg, s, s.phase.todo[0]), s.phase.todo[0], ev.o, ev.t);
    }
  }
}
