/** The runs that follow a null pointer in a dangerous configuration, whatever else is in the table. */
module UdpNullRuns {
  import opened Base
  import opened Udp
  import opened UdpSteps
  import opened UdpTheorems
  import opened UdpNull
  import UdpIntegrity

  /** The events lead from s0 to s. */
  predicate Went(cfg: Config, s0: State, events: seq<Event>, s: State) {
    Run(cfg, s0, events) == Some(s) && AllSent(events)
  }

  /** No send fails. */
  predicate AllSent(events: seq<Event>) {
    forall i | 0 <= i < |events| && events[i].Send? :: events[i].sent
  }

  lemma {:induction false} Goes(cfg: Config, s0: State, before: seq<Event>, s: State, ev: Event) returns (events: seq<Event>, s': State)
    requires Went(cfg, s0, before, s) && Enabled(s, ev) && (ev.Send? ==> ev.sent)
    ensures Went(cfg, s0, events, s') && s' == Step(cfg, s, ev)
  {
    s' := Chain(cfg, s0, before, s, ev);
    events := before + [ev];
  }

  /** At work and receiving. */
  predicate Up(e: Ept) {
    e.open && e.activeTm != 0 && e.recving && e.recvs == [RecvOp(e.recvBuf, Waiting)]
  }

  /** Nothing but the receive side of the endpoint has changed. */
  predicate SameElse(e: Ept, r: Ept) {
    && r.rule == e.rule && r.server == e.server && r.hasIp == e.hasIp && r.sendQ == e.sendQ
    && r.recvAvail == e.recvAvail && r.sendAvail == e.sendAvail
  }

  lemma {:induction false} GetsOne(e: Ept, from: Addr, t: int, id: nat, buf: BufId)
    requires Up(e) && |e.recvQ| < MAX_UDP_MSG_QUEUE_SIZE && t > 0
    ensures var g := Got(e, 0, from, []);
            && g.recvs == [RecvOp(e.recvBuf, Arrived(0, from, []))]
            && var r := Handled(g, 0, t, 10000, id, buf);
               && Up(r) && r.activeTm == t && SameElse(e, r)
               && r.recvQ == (if e.rule.drop < 10000 then e.recvQ + [Dgram(id, e.recvBuf, 0, t + e.rule.delay, from)] else e.recvQ)
  {
    var g := Got(e, 0, from, []);
    assert Finish(g, 0).recvs == [];
  }

  /** A datagram comes in on k from this address at time t, and is queued unless k drops everything. */
  lemma {:induction false} Gets(cfg: Config, s0: State, before: seq<Event>, s: State, k: Addr, from: Addr, t: int)
      returns (events: seq<Event>, s': State)
    requires Went(cfg, s0, before, s) && k in s.epts && Up(s.epts[k]) && |s.epts[k].recvQ| < MAX_UDP_MSG_QUEUE_SIZE
    requires !Locked(s, k) && from != k && from != NOBODY && 0 < t && s.clock <= t
    ensures Went(cfg, s0, events, s') && k in s'.epts
    ensures s' == s.(epts := s.epts[k := s'.epts[k]], clock := t, memory := s'.memory, log := s'.log)
    ensures var e, r := s.epts[k], s'.epts[k];
            && Up(r) && r.activeTm == t && SameElse(e, r)
            && |r.recvQ| == |e.recvQ| + (if e.rule.drop < 10000 then 1 else 0) && e.recvQ <= r.recvQ
            && (e.rule.drop < 10000 ==> Last(r.recvQ).peer == from && Last(r.recvQ).time == t + e.rule.delay)
  {
    var e := s.epts[k];
    hide Went, Store, NewBuffer, Got, Handled;
    var middle, s1 := Goes(cfg, s0, before, s, Arrive(k, 0, from, []));
    GetsOne(e, from, t, |s1.log.accepted|, |s1.memory|);
    events, s' := Goes(cfg, s0, middle, s1, Recv(k, 0, t, 10000));
    assert s'.epts == s.epts[k := s'.epts[k]];
  }

  // ------------------------------------------------------------------ turns of the routine thread

  lemma {:induction false} Begins(cfg: Config, s0: State, before: seq<Event>, s: State, t: int, order: seq<Addr>)
      returns (events: seq<Event>, s': State)
    requires Went(cfg, s0, before, s) && s.phase == Resting && s.clock <= t && s.now < t && IsOrder(s, order)
    ensures Went(cfg, s0, events, s') && s' == s.(now := t, clock := t, phase := Moving(order, false, t - s.now))
  {
    hide Went, IsOrder;
    events, s' := Goes(cfg, s0, before, s, BeginPass(t, order));
  }

  predicate AtDoor(s: State, k: Addr) {
    s.phase.Moving? && !s.phase.entered && s.phase.todo != [] && s.phase.todo[0] == k && k in s.epts
  }

  predicate Inside(s: State, k: Addr) {
    s.phase.Moving? && s.phase.entered && s.phase.todo != [] && s.phase.todo[0] == k && k in s.epts
  }

  /** An endpoint that is not idle is entered; no budget gets worse. */
  lemma {:induction false} Enters(cfg: Config, s0: State, before: seq<Event>, s: State, k: Addr)
      returns (events: seq<Event>, s': State)
    requires Went(cfg, s0, before, s) && AtDoor(s, k) && Up(s.epts[k]) && s.epts[k].activeTm >= s.now - cfg.timeout
    ensures Went(cfg, s0, events, s') && Inside(s', k)
    ensures s' == s.(epts := s.epts[k := s'.epts[k]], phase := Moving(s.phase.todo, true, s.phase.interval))
    ensures var e, r := s.epts[k], s'.epts[k];
            && Up(r) && r.activeTm == e.activeTm && r.rule == e.rule && r.server == e.server && r.hasIp == e.hasIp
            && r.recvQ == e.recvQ && r.sendQ == e.sendQ
            && (e.recvAvail >= 0 ==> r.recvAvail >= 0) && (e.sendAvail >= 0 ==> r.sendAvail >= 0)
  {
    hide Went;
    events, s' := Goes(cfg, s0, before, s, Enter);
  }

  /** The visit ends when nothing may move; unless a null pointer is followed. */
  lemma {:induction false} Leaves(cfg: Config, s0: State, before: seq<Event>, s: State, k: Addr)
      returns (events: seq<Event>, s': State)
    requires Went(cfg, s0, before, s) && Inside(s, k) && !HeadReady(s, s.epts[k], k)
    ensures Went(cfg, s0, events, s')
    ensures s' == s.(phase := Moving(s.phase.todo[1..], false, s.phase.interval), clash := s'.clash)
  {
    hide Went, MoveOn, Looks;
    events, s' := Goes(cfg, s0, before, s, Move(Bound, s.clock));
  }

  /** One turn for endpoints without datagrams: they stay as they are but for budgets, or go. */
  lemma {:induction false} PassesOne(cfg: Config, s0: State, before: seq<Event>, s: State)
      returns (events: seq<Event>, s': State)
    requires Went(cfg, s0, before, s) && s.phase.Moving? && !s.phase.entered && s.phase.todo != [] && s.phase.todo[0] in s.epts
    requires s.epts[s.phase.todo[0]].recvQ == []
    ensures Went(cfg, s0, events, s')
    ensures s' == s.(epts := s'.epts, phase := Moving(s.phase.todo[1..], false, s.phase.interval), log := s'.log, clash := s'.clash)
    ensures forall a <- s.epts | a != s.phase.todo[0] :: a in s'.epts && s'.epts[a] == s.epts[a]
    ensures forall a <- s'.epts :: a in s.epts && s'.epts[a].recvQ == s.epts[a].recvQ && s'.epts[a].sendQ == s.epts[a].sendQ
  {
    var k := s.phase.todo[0];
    hide Went, LoseAll, RefillBoth;
    var s1;
    events, s1 := Goes(cfg, s0, before, s, Enter);
    if Expired(cfg, s.epts[k], s.now) {
      s' := s1;
    } else {
      events, s' := Leaves(cfg, s0, events, s1, k);
    }
  }

  lemma {:induction false} PassesOver(cfg: Config, s0: State, before: seq<Event>, s: State)
      returns (events: seq<Event>, s': State)
    requires Went(cfg, s0, before, s) && s.phase.Moving? && !s.phase.entered && NoDuplicates(s.phase.todo)
    requires forall i | 0 <= i < |s.phase.todo| :: s.phase.todo[i] in s.epts && s.epts[s.phase.todo[i]].recvQ == []
    ensures Went(cfg, s0, events, s')
    ensures s' == s.(epts := s'.epts, phase := Moving([], false, s.phase.interval), log := s'.log, clash := s'.clash)
    ensures forall a <- s.epts | a !in s.phase.todo :: a in s'.epts && s'.epts[a] == s.epts[a]
    ensures forall a <- s'.epts :: a in s.epts && s'.epts[a].recvQ == s.epts[a].recvQ && s'.epts[a].sendQ == s.epts[a].sendQ
    decreases |s.phase.todo|
  {
    if s.phase.todo == [] {
      events, s' := before, s;
    } else {
      var s1;
      var todo := s.phase.todo;
      events, s1 := PassesOne(cfg, s0, before, s);
      assert forall i | 0 <= i < |todo| - 1 :: todo[1..][i] == todo[i + 1];
      assert forall a :: a in todo <==> a == todo[0] || a in todo[1..];
      hide Went;
      events, s' := PassesOver(cfg, s0, events, s1);
    }
  }

  lemma {:induction false} EndsMoving(cfg: Config, s0: State, before: seq<Event>, s: State, order: seq<Addr>)
      returns (events: seq<Event>, s': State)
    requires Went(cfg, s0, before, s) && s.phase.Moving? && s.phase.todo == [] && IsOrder(s, order)
    ensures Went(cfg, s0, events, s') && s' == s.(newKeys := {}, phase := Sending(order, false))
  {
    hide Went, IsOrder;
    events, s' := Goes(cfg, s0, before, s, EndMoving(order));
  }

  /** Nothing is left to send. */
  lemma {:induction false} SendsOver(cfg: Config, s0: State, before: seq<Event>, s: State)
      returns (events: seq<Event>, s': State)
    requires Went(cfg, s0, before, s) && s.phase.Sending?
    requires forall i | 0 <= i < |s.phase.todo| :: s.phase.todo[i] in s.epts && s.epts[s.phase.todo[i]].sendQ == []
    ensures Went(cfg, s0, events, s') && s' == s.(phase := Resting)
    decreases |s.phase.todo|
  {
    hide Went, SendOut;
    if s.phase.todo == [] {
      events, s' := Goes(cfg, s0, before, s, EndPass);
    } else {
      var s1;
      var todo := s.phase.todo;
      events, s1 := Goes(cfg, s0, before, s, Send(true, Bound, s.clock));
      assert forall i | 0 <= i < |todo| - 1 :: todo[1..][i] == todo[i + 1];
      events, s' := SendsOver(cfg, s0, events, s1);
    }
  }

  // ------------------------------------------------------------------ a limit for receiving

  function Later(a: int, b: int): (r: int)
    ensures r >= a && r >= b && (r == a || r == b)
  {
    if a < b then b else a
  }

  /** Two datagrams came in on k, one that is due and one that keeps k awake, and the routine thread is at k. */
  predicate Awake(s: State, s': State, k: Addr, from: Addr, order: seq<Addr>) {
    && Inside(s', k) && k in s.epts && s'.phase.todo == order && 0 < s'.now <= s'.clock
    && s' == s.(epts := s.epts[k := s'.epts[k]], now := s'.now, clock := s'.clock, phase := s'.phase, memory := s'.memory, log := s'.log)
    && var e, r := s.epts[k], s'.epts[k];
       && Up(r) && r.rule == e.rule && r.server == e.server && r.hasIp == e.hasIp && r.sendQ == e.sendQ
       && (e.recvAvail >= 0 ==> r.recvAvail >= 0) && (e.sendAvail >= 0 ==> r.sendAvail >= 0)
       && |r.recvQ| == 2 && r.recvQ[0].peer == from == r.recvQ[1].peer && r.recvQ[0].time <= s'.now < r.recvQ[1].time
  }

  /** A datagram waits at k and is due in the pass that begins. */
  predicate Called(s: State, s': State, k: Addr, from: Addr, order: seq<Addr>) {
    && AtDoor(s', k) && k in s.epts && s'.phase.todo == order && 0 < s'.now <= s'.clock
    && s' == s.(epts := s.epts[k := s'.epts[k]], now := s'.now, clock := s'.clock, phase := s'.phase, memory := s'.memory, log := s'.log)
    && var e, r := s.epts[k], s'.epts[k];
       && Up(r) && SameElse(e, r) && |r.recvQ| == 1 && r.recvQ[0].peer == from && r.recvQ[0].time <= s'.now
  }

  lemma {:induction false} Calls(cfg: Config, s0: State, before: seq<Event>, s: State, k: Addr, from: Addr, order: seq<Addr>)
      returns (events: seq<Event>, s': State)
    requires Went(cfg, s0, before, s) && s.phase == Resting && 0 < s.now <= s.clock
    requires k in s.epts && Up(s.epts[k]) && s.epts[k].recvQ == [] && s.epts[k].rule.drop < 10000 && from != k && from != NOBODY
    requires IsOrder(s, order) && order != [] && order[0] == k
    ensures Went(cfg, s0, events, s') && Called(s, s', k, from, order)
  {
    hide Went, IsOrder, Up, SameElse;
    var s1;
    events, s1 := Gets(cfg, s0, before, s, k, from, s.clock);
    SameKeysOrder(s, s1, order);
    events, s' := Begins(cfg, s0, events, s1, Later(s.clock + 1, s.clock + s.epts[k].rule.delay), order);
  }

  lemma {:induction false} Wakes(cfg: Config, s0: State, before: seq<Event>, s: State, k: Addr, from: Addr, order: seq<Addr>)
      returns (events: seq<Event>, s': State)
    requires Went(cfg, s0, before, s) && s.phase == Resting && 0 < s.now <= s.clock
    requires k in s.epts && Up(s.epts[k]) && s.epts[k].recvQ == [] && s.epts[k].rule.drop < 10000 && from != k && from != NOBODY
    requires IsOrder(s, order) && order != [] && order[0] == k
    ensures Went(cfg, s0, events, s') && Awake(s, s', k, from, order)
  {
    hide Went, IsOrder, Up;
    var s2, s3;
    events, s2 := Calls(cfg, s0, before, s, k, from, order);
    var q := s2.epts[k].recvQ;
    events, s3 := Gets(cfg, s0, events, s2, k, from, Later(s2.clock, Later(s2.now - cfg.timeout, s2.now - s.epts[k].rule.delay + 1)));
    events, s' := Enters(cfg, s0, events, s3, k);
    assert s'.epts[k].recvQ[0] == q[0];
  }

  /** When it is k's turn, the null pointer is followed. */
  lemma {:induction false} RecvNull(cfg: Config, s: State, k: Addr) returns (events: seq<Event>, s': State)
    requires s.phase == Resting && 0 < s.now <= s.clock && cfg.ipLimit.At(1) > 0
    requires k in s.epts && Portless(s.epts[k]) && Up(s.epts[k]) && s.epts[k].recvQ == [] && s.epts[k].recvAvail >= 0
    requires s.epts[k].rule.drop < 10000
    ensures Went(cfg, s, events, s') && s'.nullBudget
  {
    var order := OrderFrom(s.epts.Keys, k);
    assert Went(cfg, s, [], s) && IsOrder(s, order);
    hide Went, Up, IsOrder;
    var s1;
    events, s1 := Wakes(cfg, s, [], s, k, Addr(k.ip + 1, 1), order);
    NullAt(cfg, s1, k);
    hide Step, Enabled;
    events, s' := Goes(cfg, s, events, s1, Move(Bound, s1.clock));
  }

  lemma {:induction false} SameKeysOrder(s: State, s1: State, order: seq<Addr>)
    requires s1.epts.Keys == s.epts.Keys && IsOrder(s, order)
    ensures IsOrder(s1, order)
  {
  }

  /** With a limit for receiving, a datagram that is due at a portless endpoint makes a null pointer be followed. */
  lemma {:induction false} NullAt(cfg: Config, s: State, k: Addr)
    requires Inside(s, k) && Portless(s.epts[k]) && cfg.ipLimit.At(1) > 0 && HeadReady(s, s.epts[k], k)
    ensures Enabled(s, Move(Bound, s.clock)) && Step(cfg, s, Move(Bound, s.clock)).nullBudget
  {
  }

  // ------------------------------------------------------------------ a limit for sending

  lemma {:induction false} OrderFromTwo(keys: set<Addr>, j: Addr, k: Addr) returns (order: seq<Addr>)
    requires j in keys && k in keys && j != k
    ensures NoDuplicates(order) && (forall a :: a in keys <==> a in order)
    ensures |order| >= 2 && order[0] == j && order[1] == k
  {
    var others := OrderOf(keys - {j, k});
    order := [j, k] + others;
    assert forall a :: a in order <==> a == j || a == k || a in others;
  }

  /** A due head moves to the endpoint of its sender, which is in the table; or a null pointer is followed. */
  lemma {:induction false} MovesTo(cfg: Config, s0: State, before: seq<Event>, s: State, j: Addr, k: Addr)
      returns (events: seq<Event>, s': State)
    requires Went(cfg, s0, before, s) && Inside(s, j) && HeadReady(s, s.epts[j], j) && s.epts[j].recvQ[0].peer == k && Known(s, k)
    requires s.epts[j].hasIp && !s.epts[j].server && cfg.ipLimit.At(1) > 0 ==> Balance(s.ips, j, 1) >= 0
    ensures Went(cfg, s0, events, s')
    ensures s'.nullBudget ||
            (&& s' == s.(epts := s'.epts, ips := s'.ips, log := s'.log, clock := s'.clock) && s'.clock == s.clock
             && s'.epts == s.epts[k := Given(Touch(s.epts[k], s.now), s.epts[j].recvQ[0], j)][j := TakeHead(s.epts[j], s.now)])
  {
    hide Went, TakeHead, Touch, Pass, Deliver;
    events, s' := Goes(cfg, s0, before, s, Move(Bound, s.clock));
    if !s'.nullBudget {
      assert s'.epts == s.epts[k := Given(Touch(s.epts[k], s.now), s.epts[j].recvQ[0], j)][j := TakeHead(s.epts[j], s.now)];
    }
  }

  /** k is portless and idle but for datagrams of j; j accepts datagrams; nothing else is under way. */
  predicate Ready(s: State, k: Addr, j: Addr) {
    && s.phase == Resting && 0 < s.now <= s.clock && s.newKeys == {} && s.ips == map[]
    && k != j && k in s.epts && j in s.epts && k != NOBODY && j != NOBODY
    && Portless(s.epts[k]) && Up(s.epts[k]) && s.epts[k].sendQ == [] && s.epts[k].sendAvail >= 0
    && FromOnly(s.epts[k].recvQ, j) && |s.epts[k].recvQ| <= 1
    && Up(s.epts[j]) && s.epts[j].recvQ == [] && s.epts[j].recvAvail >= 0 && s.epts[j].rule.drop < 10000
    && Others(s, k, j)
  }

  predicate FromOnly(q: seq<Dgram>, j: Addr) {
    forall i | 0 <= i < |q| :: q[i].peer == j
  }

  predicate Others(s: State, k: Addr, j: Addr) {
    forall a <- s.epts | a != k && a != j :: s.epts[a].recvQ == []
  }

  /** A datagram for k waits at k, which is about to be visited; the pass goes on with idle endpoints. */
  predicate Waits(s: State, k: Addr, j: Addr) {
    && AtDoor(s, k) && NoDuplicates(s.phase.todo) && s.newKeys == {} && 0 < s.now <= s.clock
    && k != j && j in s.epts && k != NOBODY && j != NOBODY
    && (forall i | 0 <= i < |s.phase.todo| :: s.phase.todo[i] in s.epts && s.phase.todo[i] != j)
    && Portless(s.epts[k]) && Up(s.epts[k]) && s.epts[k].sendQ != [] && s.epts[k].sendAvail >= 0
    && FromOnly(s.epts[k].recvQ, j) && |s.epts[k].recvQ| <= 1
    && Others(s, k, j)
  }

  /** j passes a datagram on to k. */
  lemma {:induction false} FirstHalf(cfg: Config, s0: State, before: seq<Event>, s: State, k: Addr, j: Addr)
      returns (events: seq<Event>, s': State)
    requires Went(cfg, s0, before, s) && Ready(s, k, j)
    ensures Went(cfg, s0, events, s') && (s'.nullBudget || Waits(s', k, j))
  {
    var order := OrderFromTwo(s.epts.Keys, j, k);
    assert IsOrder(s, order);
    hide Went, IsOrder, TakeHead, Given;
    var s4, s5;
    events, s4 := Wakes(cfg, s0, before, s, j, k, order);
    var q := s4.epts[j].recvQ;
    events, s5 := MovesTo(cfg, s0, events, s4, j, k);
    if s5.nullBudget {
      s' := s5;
    } else {
      assert s5.epts[j].recvQ == q[1..] && !HeadReady(s5, s5.epts[j], j);
      events, s' := Leaves(cfg, s0, events, s5, j);
      GivenTo(s4.epts[k], s4.now, q[0], j);
      TodoRest(s4, s', k, j, order);
    }
  }

  lemma {:induction false} GivenTo(e: Ept, now: int, m: Dgram, j: Addr)
    requires Up(e) && now > 0 && e.sendQ == []
    ensures var r := Given(Touch(e, now), m, j);
            Up(r) && r.sendQ != [] && r.recvQ == e.recvQ && r.sendAvail == e.sendAvail && r.server == e.server && r.hasIp == e.hasIp
  {
  }

  lemma {:induction false} TodoRest(s: State, s': State, k: Addr, j: Addr, order: seq<Addr>)
    requires s.phase.Moving? && s.phase.todo == order && |order| >= 2 && order[0] == j && order[1] == k && NoDuplicates(order)
    requires s'.phase == Moving(order[1..], false, s.phase.interval) && s'.epts.Keys == s.epts.Keys && forall a <- order :: a in s.epts
    ensures NoDuplicates(s'.phase.todo) && s'.phase.todo != [] && s'.phase.todo[0] == k
    ensures forall i | 0 <= i < |s'.phase.todo| :: s'.phase.todo[i] in s'.epts && s'.phase.todo[i] != j
  {
    assert forall i | 0 <= i < |order| - 1 :: order[1..][i] == order[i + 1];
  }

  /** What k has to keep while its queue is emptied. */
  predicate Holds(s: State, k: Addr, j: Addr) {
    && s.newKeys == {} && 0 < s.now <= s.clock && k != j && k in s.epts && j in s.epts
    && Portless(s.epts[k]) && s.epts[k].sendQ != [] && s.epts[k].sendAvail >= 0 && FromOnly(s.epts[k].recvQ, j)
    && Others(s, k, j)
  }

  /** What is due at k moves to j, until k is left or a null pointer is followed. */
  lemma {:induction false} Drains(cfg: Config, s0: State, before: seq<Event>, s: State, k: Addr, j: Addr)
      returns (events: seq<Event>, s': State)
    requires Went(cfg, s0, before, s) && Inside(s, k) && Holds(s, k, j)
    ensures Went(cfg, s0, events, s')
    ensures s'.nullBudget || (Holds(s', k, j) && s'.epts.Keys == s.epts.Keys && s'.phase == Moving(s.phase.todo[1..], false, s.phase.interval))
    decreases |s.epts[k].recvQ|
  {
    hide Went, TakeHead, Touch, Given;
    if HeadReady(s, s.epts[k], k) {
      var s1;
      events, s1 := MovesTo(cfg, s0, before, s, k, j);
      if s1.nullBudget {
        s' := s1;
      } else {
        events, s' := Drains(cfg, s0, events, s1, k, j);
      }
    } else {
      events, s' := Leaves(cfg, s0, before, s, k);
    }
  }

  /** The rest of the pass: nothing else moves, and the first send is for k. */
  lemma {:induction false} SendsFirst(cfg: Config, s0: State, before: seq<Event>, s: State, k: Addr, j: Addr)
      returns (events: seq<Event>, s': State)
    requires Went(cfg, s0, before, s) && Holds(s, k, j) && cfg.ipLimit.At(0) > 0
    requires s.phase.Moving? && !s.phase.entered && NoDuplicates(s.phase.todo)
    requires forall i | 0 <= i < |s.phase.todo| :: s.phase.todo[i] in s.epts && s.phase.todo[i] != j && s.phase.todo[i] != k
    ensures Went(cfg, s0, events, s') && s'.nullBudget
  {
    hide Went;
    var s1, s2;
    events, s1 := PassesOver(cfg, s0, before, s);
    assert k !in s.phase.todo && s1.epts[k] == s.epts[k];
    var order := OrderFrom(s1.epts.Keys, k);
    assert IsOrder(s1, order);
    events, s2 := EndsMoving(cfg, s0, events, s1, order);
    SendNullAt(cfg, s2, k);
    hide Step, Enabled, Holds, IsOrder;
    events, s' := Goes(cfg, s0, events, s2, Send(true, Bound, s2.clock));
  }

  lemma {:induction false} WakesUp(cfg: Config, s0: State, before: seq<Event>, s: State, k: Addr, j: Addr)
      returns (events: seq<Event>, s': State)
    requires Went(cfg, s0, before, s) && Waits(s, k, j)
    ensures Went(cfg, s0, events, s') && Inside(s', k) && Holds(s', k, j)
    ensures s'.epts.Keys == s.epts.Keys && s'.phase == s.phase.(entered := true)
  {
    hide Went;
    var s1;
    events, s1 := Gets(cfg, s0, before, s, k, j, Later(s.clock, s.now - cfg.timeout));
    events, s' := Enters(cfg, s0, events, s1, k);
  }

  /** k keeps awake, is visited, and then its turn to send comes. */
  lemma {:induction false} SecondHalf(cfg: Config, s0: State, before: seq<Event>, s: State, k: Addr, j: Addr)
      returns (events: seq<Event>, s': State)
    requires Went(cfg, s0, before, s) && Waits(s, k, j) && cfg.ipLimit.At(0) > 0
    ensures Went(cfg, s0, events, s') && s'.nullBudget
  {
    var todo := s.phase.todo;
    hide Went, Up;
    var s1, s2;
    events, s1 := WakesUp(cfg, s0, before, s, k, j);
    events, s2 := Drains(cfg, s0, events, s1, k, j);
    if s2.nullBudget {
      s' := s2;
    } else {
      assert forall i | 0 <= i < |todo| - 1 :: todo[1..][i] == todo[i + 1];
      hide Holds, Inside;
      events, s' := SendsFirst(cfg, s0, events, s2, k, j);
    }
  }

  lemma {:induction false} SendNullAt(cfg: Config, s: State, k: Addr)
    requires s.phase.Sending? && s.phase.todo != [] && s.phase.todo[0] == k && k in s.epts
    requires Portless(s.epts[k]) && cfg.ipLimit.At(0) > 0 && s.epts[k].sendQ != [] && s.epts[k].sendAvail >= 0
    ensures Enabled(s, Send(true, Bound, s.clock)) && Step(cfg, s, Send(true, Bound, s.clock)).nullBudget
  {
  }

  lemma {:induction false} SendNull(cfg: Config, s0: State, before: seq<Event>, s: State, k: Addr, j: Addr)
      returns (events: seq<Event>, s': State)
    requires Went(cfg, s0, before, s) && Ready(s, k, j) && cfg.ipLimit.At(0) > 0
    ensures Went(cfg, s0, events, s') && s'.nullBudget
  {
    hide Went, Ready, Waits;
    var s1;
    events, s1 := FirstHalf(cfg, s0, before, s, k, j);
    if s1.nullBudget {
      s' := s1;
    } else {
      events, s' := SecondHalf(cfg, s0, events, s1, k, j);
    }
  }

  // ------------------------------------------------------------------ a limit for sending, and nobody else receives

  /** k is portless and idle, and accepts datagrams; nothing is queued anywhere. */
  predicate Alone(s: State, k: Addr) {
    && s.phase == Resting && 0 < s.now <= s.clock && s.newKeys == {} && s.ips == map[]
    && k in s.epts && k != NOBODY
    && Portless(s.epts[k]) && Up(s.epts[k]) && s.epts[k].sendAvail >= 0 && s.epts[k].recvAvail >= 0
    && s.epts[k].rule.drop < 10000
    && forall a <- s.epts :: s.epts[a].recvQ == [] && s.epts[a].sendQ == []
  }

  /** An address that is not in the table. */
  lemma {:induction false} NewAddress(keys: set<Addr>) returns (x: Addr)
    ensures x !in keys && x != NOBODY
  {
    var top := Highest(keys);
    x := Addr(top + 1, 1);
  }

  lemma {:induction false} Highest(keys: set<Addr>) returns (top: nat)
    ensures forall a <- keys :: a.ip <= top
    decreases keys
  {
    if keys == {} {
      top := 0;
    } else {
      var a :| a in keys;
      var t := Highest(keys - {a});
      top := if t < a.ip then a.ip else t;
    }
  }

  /** The first datagram of an unknown sender makes an endpoint for it. */
  lemma {:induction false} MovesNew(cfg: Config, s0: State, before: seq<Event>, s: State, k: Addr, x: Addr)
      returns (events: seq<Event>, s': State)
    requires Went(cfg, s0, before, s) && Inside(s, k) && HeadReady(s, s.epts[k], k) && s.epts[k].recvQ[0].peer == x && x !in s.epts
    requires !s.epts[k].server ==> cfg.ipLimit.At(1) <= 0
    requires s.clock > 0
    ensures Went(cfg, s0, events, s')
    ensures s' == s.(epts := s'.epts, log := s'.log, newKeys := s.newKeys + {x}, memory := s'.memory)
    ensures s'.epts.Keys == s.epts.Keys + {x} && (forall a <- s.epts | a != k :: s'.epts[a] == s.epts[a])
    ensures s'.epts[k] == TakeHead(s.epts[k], s.now)
    ensures var e := s'.epts[x];
            && Up(e) && !e.server && e.hasIp == Limited(cfg) && e.recvQ == [] && |e.sendQ| == 1 && e.recvAvail == 0 && e.sendAvail == 0
            && e.rule == s.epts[k].rule
  {
    var m := s.epts[k].recvQ[0];
    var made := NewEpt(x, s.epts[k].rule, false, Limited(cfg), Bound, s.clock, |s.memory|, s.log);
    assert Up(made) && made.sendQ == [] && made.recvQ == [];
    hide Went, TakeHead, NewEpt, NewBuffer, LoseAll, Pass;
    events, s' := Goes(cfg, s0, before, s, Move(Bound, s.clock));
    assert s'.epts == s.epts[x := Deliver(made, m, k)][k := TakeHead(s.epts[k], s.now)];
  }

  /** k has received from x, which is unknown, and made an endpoint for it; the pass goes on with idle endpoints. */
  predicate Met(s: State, k: Addr, x: Addr) {
    && s.phase.Moving? && !s.phase.entered && NoDuplicates(s.phase.todo) && 0 < s.now <= s.clock && s.ips == map[]
    && k != x && k in s.epts && x in s.epts && k != NOBODY && x != NOBODY
    && (forall i | 0 <= i < |s.phase.todo| :: s.phase.todo[i] in s.epts && s.phase.todo[i] != k && s.phase.todo[i] != x)
    && Portless(s.epts[k]) && Up(s.epts[k]) && s.epts[k].sendQ == [] && s.epts[k].sendAvail >= 0
    && FromOnly(s.epts[k].recvQ, x) && |s.epts[k].recvQ| <= 1
    && Up(s.epts[x]) && s.epts[x].hasIp && |s.epts[x].sendQ| == 1 && s.epts[x].sendAvail >= 0
    && s.epts[x].recvQ == [] && s.epts[x].recvAvail >= 0 && s.epts[x].rule.drop < 10000
    && (forall a <- s.epts | a != k && a != x :: s.epts[a].recvQ == [] && s.epts[a].sendQ == [])
  }

  lemma {:induction false} MeetsX(cfg: Config, s0: State, before: seq<Event>, s: State, k: Addr)
      returns (events: seq<Event>, s': State, x: Addr)
    requires Went(cfg, s0, before, s) && Alone(s, k) && cfg.ipLimit.At(0) > 0 && cfg.ipLimit.At(1) <= 0
    ensures Went(cfg, s0, events, s') && Met(s', k, x)
  {
    x := NewAddress(s.epts.Keys);
    var order := OrderFrom(s.epts.Keys, k);
    assert IsOrder(s, order);
    hide Went, IsOrder, TakeHead;
    var s4, s5;
    events, s4 := Wakes(cfg, s0, before, s, k, x, order);
    hide Up;
    events, s5 := MovesNew(cfg, s0, events, s4, k, x);
    assert s5.epts[k].recvQ == s4.epts[k].recvQ[1..];
    events, s' := Leaves(cfg, s0, events, s5, k);
    RestOfTodo(s4, s', k, x, order);
    BecomesMet(cfg, s, s4, s', k, x, order);
  }

  lemma {:induction false} BecomesMet(cfg: Config, s: State, s4: State, s': State, k: Addr, x: Addr, order: seq<Addr>)
    requires Alone(s, k) && Awake(s, s4, k, x, order) && x !in s.epts && x != NOBODY && cfg.ipLimit.At(0) > 0
    requires s'.epts.Keys == s4.epts.Keys + {x} && (forall a <- s4.epts | a != k :: s'.epts[a] == s4.epts[a])
    requires s'.epts[k] == TakeHead(s4.epts[k], s4.now) && s'.now == s4.now && s'.clock == s4.clock && s'.ips == s4.ips
    requires var e := s'.epts[x];
             && Up(e) && !e.server && e.hasIp == Limited(cfg) && e.recvQ == [] && |e.sendQ| == 1 && e.recvAvail == 0 && e.sendAvail == 0
             && e.rule == s4.epts[k].rule
    requires s'.phase.Moving? && !s'.phase.entered && NoDuplicates(s'.phase.todo)
    requires forall i | 0 <= i < |s'.phase.todo| :: s'.phase.todo[i] in s'.epts && s'.phase.todo[i] != k && s'.phase.todo[i] != x
    ensures Met(s', k, x)
  {
    var r := s'.epts[k];
    assert r.recvQ == s4.epts[k].recvQ[1..] && r.recvs == s4.epts[k].recvs && r.recvBuf == s4.epts[k].recvBuf;
    hide TakeHead;
  }

  lemma {:induction false} RestOfTodo(s: State, s': State, k: Addr, x: Addr, order: seq<Addr>)
    requires s.phase.Moving? && s.phase.todo == order && order != [] && order[0] == k && NoDuplicates(order)
    requires s'.phase == Moving(order[1..], false, s.phase.interval) && s.epts.Keys <= s'.epts.Keys
    requires x !in s.epts && forall a <- order :: a in s.epts
    ensures NoDuplicates(s'.phase.todo)
    ensures forall i | 0 <= i < |s'.phase.todo| :: s'.phase.todo[i] in s'.epts && s'.phase.todo[i] != k && s'.phase.todo[i] != x
  {
    assert forall i | 0 <= i < |order| - 1 :: order[1..][i] == order[i + 1];
  }

  /** The pass ends; x's datagram is sent. */
  lemma {:induction false} SendsForX(cfg: Config, s0: State, before: seq<Event>, s: State, k: Addr, x: Addr)
      returns (events: seq<Event>, s': State)
    requires Went(cfg, s0, before, s) && Met(s, k, x)
    ensures Went(cfg, s0, events, s') && Ready(s', k, x)
  {
    hide Went, SendHead;
    var s1, s2, s3, s4;
    events, s1 := PassesOver(cfg, s0, before, s);
    assert s1.epts[k] == s.epts[k] && s1.epts[x] == s.epts[x];
    var order := OrderFrom(s1.epts.Keys, x);
    assert IsOrder(s1, order);
    events, s2 := EndsMoving(cfg, s0, events, s1, order);
    SendsOne(cfg, s2, x);
    hide Step, Enabled;
    events, s3 := Goes(cfg, s0, events, s2, Send(true, Bound, s2.clock));
    forall a <- s3.epts ensures s3.epts[a].sendQ == [] {
      assert a == x || s3.epts[a] == s2.epts[a];
    }
    InOrderAll(s3, order);
    events, s4 := SendsOver(cfg, s0, events, s3);
    IpsReset(s4);
    events, s' := Goes(cfg, s0, events, s4, OthersUseIps(map[]));
    IpsStep(cfg, s4);
    assert forall a <- s'.epts | a != k && a != x :: s'.epts[a] == s1.epts[a];
  }

  lemma {:induction false} InOrderAll(s: State, order: seq<Addr>)
    requires s.phase.Sending? && s.phase.todo == order && (forall a <- order :: a in s.epts) && forall a <- s.epts :: s.epts[a].sendQ == []
    ensures forall i | 0 <= i < |s.phase.todo| :: s.phase.todo[i] in s.epts && s.epts[s.phase.todo[i]].sendQ == []
  {
  }

  lemma {:induction false} IpsReset(s: State)
    ensures Enabled(s, OthersUseIps(map[]))
  {
  }

  lemma {:induction false} IpsStep(cfg: Config, s: State)
    ensures Enabled(s, OthersUseIps(map[])) && Step(cfg, s, OthersUseIps(map[])) == s.(ips := map[])
  {
  }

  lemma {:induction false} SendsOne(cfg: Config, s: State, x: Addr)
    requires s.phase.Sending? && s.phase.todo != [] && s.phase.todo[0] == x && x in s.epts && s.ips == map[]
    requires s.epts[x].hasIp && |s.epts[x].sendQ| == 1 && s.epts[x].sendAvail >= 0
    ensures Enabled(s, Send(true, Bound, s.clock))
    ensures var s' := Step(cfg, s, Send(true, Bound, s.clock));
            && s' == s.(epts := s'.epts, ips := s'.ips, log := s'.log, phase := Sending(s.phase.todo, true))
            && s'.epts == s.epts[x := SendHead(s.epts[x], s.now)] && SendHead(s.epts[x], s.now).sendQ == []
  {
    hide Payload, Depart;
  }

  lemma {:induction false} AloneNull(cfg: Config, s: State, k: Addr) returns (events: seq<Event>, s': State)
    requires Alone(s, k) && cfg.ipLimit.At(0) > 0 && cfg.ipLimit.At(1) <= 0
    ensures Went(cfg, s, events, s') && s'.nullBudget
  {
    assert Went(cfg, s, [], s);
    hide Went, Alone, Met, Ready;
    var s1, s2, x;
    events, s1, x := MeetsX(cfg, s, [], s, k);
    events, s2 := SendsForX(cfg, s, events, s1, k, x);
    events, s' := SendNull(cfg, s, events, s2, k, x);
  }

  // ------------------------------------------------------------------ the exact condition

  lemma {:induction false} StartedUp(s: State, now: int, k: Addr)
    requires Started(s, now) && now > 0 && k in s.epts && s.epts[k].activeTm != 0
    ensures Up(s.epts[k]) && s.epts[k].recvQ == [] && s.epts[k].sendQ == [] && s.epts[k].recvAvail == 0 && s.epts[k].sendAvail == 0
  {
    assert Untouched(s.epts[k], k, now);
  }

  lemma {:induction false} SendNullWith(cfg: Config, s: State, now: int, k: Addr, j: Addr) returns (events: seq<Event>, s': State)
    requires Started(s, now) && now > 0 && NOBODY !in s.epts && cfg.ipLimit.At(0) > 0
    requires k in s.epts && Portless(s.epts[k]) && s.epts[k].activeTm != 0 && j in s.epts && Accepts(s.epts[j])
    requires j == k ==> cfg.ipLimit.At(1) <= 0
    ensures Went(cfg, s, events, s') && s'.nullBudget
  {
    StartedUp(s, now, k);
    StartedUp(s, now, j);
    StartedIdle(s, now);
    hide Started, Up;
    if j != k {
      assert Went(cfg, s, [], s);
      assert Ready(s, k, j);
      events, s' := SendNull(cfg, s, [], s, k, j);
    } else {
      events, s' := AloneNull(cfg, s, k);
    }
  }

  lemma {:induction false} StartedIdle(s: State, now: int)
    requires Started(s, now)
    ensures s.phase == Resting && s.now == s.clock == now && s.newKeys == {} && s.ips == map[]
    ensures forall a <- s.epts :: s.epts[a].recvQ == [] && s.epts[a].sendQ == []
  {
    assert forall a <- s.epts :: Untouched(s.epts[a], a, now);
  }

  lemma {:induction false} ExposedNull(cfg: Config, s: State, now: int) returns (events: seq<Event>)
    requires Started(s, now) && now > 0 && Exposed(cfg, s.epts) && NOBODY !in s.epts
    ensures Run(cfg, s, events).Some? && Run(cfg, s, events).value.nullBudget && AllSent(events)
  {
    var k :| k in s.epts && Portless(s.epts[k]) && s.epts[k].activeTm != 0
             && ((cfg.ipLimit.At(1) > 0 && s.epts[k].rule.drop < 10000) || (cfg.ipLimit.At(0) > 0 && exists j :: j in s.epts && Accepts(s.epts[j])));
    StartedUp(s, now, k);
    StartedIdle(s, now);
    hide Exposed;
    var s';
    if cfg.ipLimit.At(1) > 0 && s.epts[k].rule.drop < 10000 {
      events, s' := RecvNull(cfg, s, k);
    } else {
      var j :| j in s.epts && Accepts(s.epts[j]);
      events, s' := SendNullWith(cfg, s, now, k, j);
    }
  }

  /** Where no send fails, no socket is reopened at a wrong moment. */
  lemma {:induction false} SentClean(cfg: Config, s: State, events: seq<Event>)
    requires Run(cfg, s, events).Some? && AllSent(events)
    ensures Clean(cfg, s, events)
    decreases |events|
  {
    if events != [] {
      var front := Front(events);
      assert forall i | 0 <= i < |front| :: front[i] == events[i];
      SentClean(cfg, s, front);
    }
    hide Step, Enabled;
  }

  /**
   Some run follows a null pointer iff the configuration is dangerous, under any limits, timeouts, rules and outcomes of
   opening the sockets; and then on some such run no assertion has failed before. (No destination is the address that nobody
   has.)
   */
  lemma {:induction false} NullIff(cfg: Config, lines: seq<Line>, now: int)
    requires now > 0 && NOBODY !in Start(lines, now).epts
    ensures Exposed(cfg, Start(lines, now).epts)
            <==> exists events :: Runs(cfg, lines, now, events) && After(cfg, lines, now, events).nullBudget
    ensures Exposed(cfg, Start(lines, now).epts)
            ==> exists events :: Runs(cfg, lines, now, events) && After(cfg, lines, now, events).nullBudget && !After(cfg, lines, now, events).clash
  {
    hide Start, Started, Exposed, Safe, Clean, UdpIntegrity.Single, AllSent;
    StartIs(lines, now);
    if Exposed(cfg, Start(lines, now).epts) {
      var events := ExposedNull(cfg, Start(lines, now), now);
      assert Runs(cfg, lines, now, events);
      SentClean(cfg, Start(lines, now), events);
      UdpIntegrity.CleanIsSingle(cfg, lines, now, events);
      UdpIntegrity.NoClash(cfg, lines, now, events);
    } else {
      forall events | Runs(cfg, lines, now, events) ensures !After(cfg, lines, now, events).nullBudget {
        NeverNull(cfg, lines, now, events);
        SafeMeans(cfg, After(cfg, lines, now, events));
      }
    }
  }

  lemma {:induction false} SafeMeans(cfg: Config, s: State)
    requires Safe(cfg, s)
    ensures !s.nullBudget
  {
  }
}
