/** The steps of the UDP endpoint table keep the invariants about datagrams: what they carry, where they are, their order. */
module UdpJourney {
  import opened Udp
  import opened UdpInvariants
  import UdpSteps

  ghost predicate SameQueuesAt(s: State, s': State, k: Addr)
    requires k in s.epts && k in s'.epts
  {
    s'.epts[k].recvQ == s.epts[k].recvQ && s'.epts[k].sendQ == s.epts[k].sendQ
  }

  /** Every endpoint but those at k and x keeps its queues. */
  ghost predicate Elsewhere(s: State, s': State, k: Addr, x: Addr) {
    && (forall a <- s.epts | a != k && a != x :: a in s'.epts && SameQueuesAt(s, s', a))
    && (forall a <- s'.epts | a != k && a != x :: a in s.epts)
  }

  // ------------------------------------------------------------------ nothing moves

  ghost predicate Still(s: State, s': State) {
    s'.log == s.log && s'.epts.Keys == s.epts.Keys && forall k <- s.epts :: SameQueuesAt(s, s', k)
  }

  lemma {:induction false} StillJourney(s: State, s': State)
    requires Journey(s) && Still(s, s')
    ensures Journey(s')
  {
    hide RecvEntry, SendEntry, SentEntry, NoOvertaking, IncreasingPerPair, Has, HasDeparted;
    forall id: nat | id < |s.log.accepted| ensures TiedAt(s', id) {
      assert TiedAt(s, id);
    }
  }

  // ------------------------------------------------------------------ a datagram is accepted

  ghost predicate Accepts(s: State, s': State, k: Addr, m: Dgram, a: Accepted) {
    && k in s.epts && s'.epts.Keys == s.epts.Keys && Elsewhere(s, s', k, k)
    && m.id == |s.log.accepted| && a.on == k && a.from == m.peer && a.buf == m.buf && a.size == m.size && a.due == m.time
    && s'.epts[k].recvQ == s.epts[k].recvQ + [m] && s'.epts[k].sendQ == s.epts[k].sendQ
    && s'.log == s.log.(accepted := s.log.accepted + [a], place := s.log.place + [InRecvQ])
  }

  lemma {:induction false} AcceptFacts(s: State, s': State, k: Addr, m: Dgram, a: Accepted)
    requires Facts(s) && Accepts(s, s', k, m, a)
    ensures Facts(s')
  {
  }

  lemma {:induction false} AcceptTied(s: State, s': State, k: Addr, m: Dgram, a: Accepted)
    requires Tied(s) && Accepts(s, s', k, m, a)
    ensures Tied(s')
  {
    var q, q' := s.epts[k].recvQ, s'.epts[k].recvQ;
    forall id: nat | Has(q, id) ensures Has(q', id) {
      var j :| 0 <= j < |q| && q[j].id == id;
      assert q'[j].id == id;
    }
    assert q'[|q|].id == m.id;
    assert Has(q', m.id);
    hide Has;
    forall id: nat | id < |s'.log.accepted| ensures TiedAt(s', id) {
      assert id < |s.log.accepted| ==> TiedAt(s, id);
    }
  }

  lemma {:induction false} AcceptOrders(s: State, s': State, k: Addr, m: Dgram, a: Accepted)
    requires Facts(s) && Orders(s) && Accepts(s, s', k, m, a)
    ensures Orders(s')
  {
    forall i | 0 <= i < |s.epts[k].recvQ| ensures s.epts[k].recvQ[i].id < m.id {
      assert RecvEntry(s.log, k, s.epts[k].recvQ[i]);
    }
    hide Facts;
  }

  lemma {:induction false} AcceptNoOvertaking(s: State, s': State, k: Addr, m: Dgram, a: Accepted)
    requires NoOvertaking(s.log) && Accepts(s, s', k, m, a)
    ensures NoOvertaking(s'.log)
  {
    hide Elsewhere;
  }

  // ------------------------------------------------------------------ everything queued at an endpoint is lost

  ghost predicate Discards(s: State, s': State, k: Addr, cause: Cause) {
    && Elsewhere(s, s', k, k) && s'.log == LoseAll(s.log, k, cause)
    && (k in s'.epts ==> s'.epts[k].recvQ == [] && s'.epts[k].sendQ == [])
  }

  lemma {:induction false} DiscardFacts(s: State, s': State, k: Addr, cause: Cause)
    requires Facts(s) && Discards(s, s', k, cause)
    ensures Facts(s')
  {
  }

  lemma {:induction false} DiscardTied(s: State, s': State, k: Addr, cause: Cause)
    requires Tied(s) && Discards(s, s', k, cause)
    ensures Tied(s')
  {
    hide Has, HasDeparted;
    forall id: nat | id < |s'.log.accepted| ensures TiedAt(s', id) {
      assert TiedAt(s, id);
    }
  }

  lemma {:induction false} DiscardOrder(s: State, s': State, k: Addr, cause: Cause)
    requires Orders(s) && NoOvertaking(s.log) && Discards(s, s', k, cause)
    ensures Orders(s') && NoOvertaking(s'.log)
  {
  }

  lemma {:induction false} DiscardJourney(s: State, s': State, k: Addr, cause: Cause)
    requires Journey(s) && Discards(s, s', k, cause)
    ensures Journey(s')
  {
    hide Facts, Tied, Orders, NoOvertaking, Discards;
    DiscardFacts(s, s', k, cause);
    DiscardTied(s, s', k, cause);
    DiscardOrder(s, s', k, cause);
  }

  // ------------------------------------------------------------------ the head of a receive queue is lost

  ghost predicate Drops(s: State, s': State, k: Addr, cause: Cause) {
    && k in s.epts && s'.epts.Keys == s.epts.Keys && Elsewhere(s, s', k, k)
    && s.epts[k].recvQ != [] && s'.epts[k].recvQ == s.epts[k].recvQ[1..] && s'.epts[k].sendQ == s.epts[k].sendQ
    && s'.log == Pass(s.log, s.epts[k].recvQ[0], k, Lost(cause))
  }

  lemma {:induction false} DropFacts(s: State, s': State, k: Addr, cause: Cause)
    requires Facts(s) && Orders(s) && Drops(s, s', k, cause)
    ensures Facts(s')
  {
    var m := s.epts[k].recvQ[0];
    assert RecvEntry(s.log, k, m);
    forall a, i | a in s'.epts && 0 <= i < |s'.epts[a].recvQ| ensures RecvEntry(s'.log, a, s'.epts[a].recvQ[i]) {
      assert RecvEntry(s.log, a, s'.epts[a].recvQ[i]);
    }
  }

  lemma {:induction false} DropTied(s: State, s': State, k: Addr, cause: Cause)
    requires Tied(s) && Drops(s, s', k, cause)
    ensures Tied(s')
  {
    var m := s.epts[k].recvQ[0];
    TailHas(s.epts[k].recvQ);
    hide Has, HasDeparted;
    forall id: nat | id < |s'.log.accepted| ensures TiedAt(s', id) {
      assert TiedAt(s, id);
    }
  }

  lemma {:induction false} TailHas(q: seq<Dgram>)
    requires q != []
    ensures forall id: nat | id != q[0].id && Has(q, id) :: Has(q[1..], id)
  {
    forall id: nat | id != q[0].id && Has(q, id) ensures Has(q[1..], id) {
      var j :| 0 <= j < |q| && q[j].id == id;
      assert q[1..][j - 1].id == id;
    }
  }

  lemma {:induction false} DropOrder(s: State, s': State, k: Addr, cause: Cause)
    requires Orders(s) && NoOvertaking(s.log) && Drops(s, s', k, cause)
    ensures Orders(s') && NoOvertaking(s'.log)
  {
  }

  lemma {:induction false} DropJourney(s: State, s': State, k: Addr, cause: Cause)
    requires Journey(s) && Drops(s, s', k, cause)
    ensures Journey(s')
  {
    hide Facts, Tied, Orders, NoOvertaking, Drops;
    DropFacts(s, s', k, cause);
    DropTied(s, s', k, cause);
    DropOrder(s, s', k, cause);
  }

  // ------------------------------------------------------------------ the head moves on to a send queue

  ghost predicate Moves(s: State, s': State, k: Addr, x: Addr) {
    && k in s.epts && x in s.epts && x != k && s'.epts.Keys == s.epts.Keys && Elsewhere(s, s', k, x)
    && s.epts[k].recvQ != [] && s.epts[k].recvQ[0].peer == x
    && s'.epts[k].recvQ == s.epts[k].recvQ[1..] && s'.epts[k].sendQ == s.epts[k].sendQ
    && s'.epts[x].recvQ == s.epts[x].recvQ && s'.epts[x].sendQ == s.epts[x].sendQ + [s.epts[k].recvQ[0].(peer := k)]
    && s'.log == Pass(s.log, s.epts[k].recvQ[0], k, InSendQ)
  }

  lemma {:induction false} MovesFacts(s: State, s': State, k: Addr, x: Addr)
    requires Facts(s) && Orders(s) && Moves(s, s', k, x)
    ensures Facts(s')
  {
    forall a, i | a in s'.epts && 0 <= i < |s'.epts[a].recvQ| ensures RecvEntry(s'.log, a, s'.epts[a].recvQ[i]) {
      MovesRecvFact(s, s', k, x, a, i);
    }
    forall a, i | a in s'.epts && 0 <= i < |s'.epts[a].sendQ| ensures SendEntry(s'.log, a, s'.epts[a].sendQ[i]) {
      MovesSendFact(s, s', k, x, a, i);
    }
    hide RecvEntry, SendEntry;
    assert RecvEntry(s.log, k, s.epts[k].recvQ[0]);
    MovesSentFacts(s, s', k, x);
  }

  lemma {:induction false} MovesRecvFact(s: State, s': State, k: Addr, x: Addr, a: Addr, i: nat)
    requires Facts(s) && Orders(s) && Moves(s, s', k, x) && a in s'.epts && i < |s'.epts[a].recvQ|
    ensures RecvEntry(s'.log, a, s'.epts[a].recvQ[i])
  {
    assert RecvEntry(s.log, k, s.epts[k].recvQ[0]);
    assert RecvEntry(s.log, a, s'.epts[a].recvQ[i]);
  }

  lemma {:induction false} MovesSendFact(s: State, s': State, k: Addr, x: Addr, a: Addr, i: nat)
    requires Facts(s) && Moves(s, s', k, x) && a in s'.epts && i < |s'.epts[a].sendQ|
    ensures SendEntry(s'.log, a, s'.epts[a].sendQ[i])
  {
    assert RecvEntry(s.log, k, s.epts[k].recvQ[0]);
    if i < |s.epts[a].sendQ| {
      assert SendEntry(s.log, a, s.epts[a].sendQ[i]);
    }
  }

  lemma {:induction false} MovesSentFacts(s: State, s': State, k: Addr, x: Addr)
    requires Facts(s) && Moves(s, s', k, x)
    ensures |s'.log.place| == |s'.log.accepted| && forall i | 0 <= i < |s'.log.sent| :: SentEntry(s'.log, s'.log.sent[i])
  {
    assert RecvEntry(s.log, k, s.epts[k].recvQ[0]);
    forall i | 0 <= i < |s'.log.sent| ensures SentEntry(s'.log, s'.log.sent[i]) {
      assert SentEntry(s.log, s.log.sent[i]);
    }
  }

  lemma {:induction false} MovesTied(s: State, s': State, k: Addr, x: Addr)
    requires Facts(s) && Tied(s) && Moves(s, s', k, x)
    ensures Tied(s')
  {
    var m := s.epts[k].recvQ[0];
    assert RecvEntry(s.log, k, m);
    TailHas(s.epts[k].recvQ);
    ExtendHas(s.epts[x].sendQ, m.(peer := k));
    hide Has, HasDeparted;
    forall id: nat | id < |s'.log.accepted| ensures TiedAt(s', id) {
      assert TiedAt(s, id);
    }
  }

  lemma {:induction false} ExtendHas(q: seq<Dgram>, m: Dgram)
    ensures Has(q + [m], m.id)
    ensures forall id: nat | Has(q, id) :: Has(q + [m], id)
  {
    assert (q + [m])[|q|].id == m.id;
    forall id: nat | Has(q, id) ensures Has(q + [m], id) {
      var j :| 0 <= j < |q| && q[j].id == id;
      assert (q + [m])[j].id == id;
    }
  }

  /** What is already in the send queue for k, or was already sent there, was accepted before the head of k's queue. */
  lemma {:induction false} MovesOrders(s: State, s': State, k: Addr, x: Addr)
    requires Facts(s) && Orders(s) && NoOvertaking(s.log) && Moves(s, s', k, x)
    ensures Orders(s')
  {
    var m := s.epts[k].recvQ[0];
    assert RecvEntry(s.log, k, m);
    forall i | 0 <= i < |s.epts[x].sendQ| && s.epts[x].sendQ[i].peer == k ensures s.epts[x].sendQ[i].id < m.id {
      assert SendEntry(s.log, x, s.epts[x].sendQ[i]);
    }
    MovesQueues(s, s', k, x);
    hide Facts, NoOvertaking, Increasing, IncreasingPerPeer, IncreasingPerPair, RecvEntry, SendEntry, Pass;
    forall a <- s'.epts ensures Increasing(s'.epts[a].recvQ) && IncreasingPerPeer(s'.epts[a].sendQ) {
      if a != k && a != x {
        assert a in s.epts && SameQueuesAt(s, s', a);
      }
    }
    PassKeepsSent(s.log, m, k);
  }

  lemma {:induction false} PassKeepsSent(l: Log, m: Dgram, k: Addr)
    ensures Pass(l, m, k, InSendQ).sent == l.sent
  {
  }

  /** A shorter receive queue, and one more at the end of a send queue, stay in order. */
  lemma {:induction false} MovesQueues(s: State, s': State, k: Addr, x: Addr)
    requires Orders(s) && Moves(s, s', k, x)
    requires forall i | 0 <= i < |s.epts[x].sendQ| && s.epts[x].sendQ[i].peer == k :: s.epts[x].sendQ[i].id < s.epts[k].recvQ[0].id
    ensures Increasing(s'.epts[k].recvQ) && IncreasingPerPeer(s'.epts[x].sendQ)
  {
    assert Increasing(s.epts[k].recvQ) && IncreasingPerPeer(s.epts[x].sendQ);
    hide Orders, Elsewhere, Pass;
  }

  /** The head of a receive queue was accepted before everything else that is in the queue. */
  lemma {:induction false} MovesNoOvertaking(s: State, s': State, k: Addr, x: Addr)
    requires Facts(s) && Tied(s) && Orders(s) && NoOvertaking(s.log) && Moves(s, s', k, x)
    ensures NoOvertaking(s'.log)
  {
    var m := s.epts[k].recvQ[0];
    assert RecvEntry(s.log, k, m);
    forall a: nat | a < m.id && SamePair(s.log, a, m.id) ensures s.log.place[a] != InRecvQ {
      assert TiedAt(s, a);
    }
  }

  lemma {:induction false} MovesJourney(s: State, s': State, k: Addr, x: Addr)
    requires Journey(s) && Moves(s, s', k, x)
    ensures Journey(s')
  {
    hide Facts, Tied, Orders, NoOvertaking, Moves;
    MovesFacts(s, s', k, x);
    MovesTied(s, s', k, x);
    MovesOrders(s, s', k, x);
    MovesNoOvertaking(s, s', k, x);
  }

  // ------------------------------------------------------------------ the head of a send queue is sent

  ghost predicate Departs(s: State, s': State, k: Addr, payload: seq<Byte>, at: int) {
    && k in s.epts && s'.epts.Keys == s.epts.Keys && Elsewhere(s, s', k, k)
    && s.epts[k].sendQ != [] && s'.epts[k].sendQ == s.epts[k].sendQ[1..] && s'.epts[k].recvQ == s.epts[k].recvQ
    && var m := s.epts[k].sendQ[0];
       && m.time <= at
       && s'.log == Depart(s.log, m, k, payload, at)
  }

  /** Datagrams in one send queue are different. */
  lemma {:induction false} SendQueueDistinct(s: State, k: Addr, i: nat, j: nat)
    requires Facts(s) && Orders(s) && k in s.epts && i < j < |s.epts[k].sendQ|
    ensures s.epts[k].sendQ[i].id != s.epts[k].sendQ[j].id
  {
    assert SendEntry(s.log, k, s.epts[k].sendQ[i]) && SendEntry(s.log, k, s.epts[k].sendQ[j]);
  }

  lemma {:induction false} DepartFacts(s: State, s': State, k: Addr, payload: seq<Byte>, at: int)
    requires Facts(s) && Orders(s) && Departs(s, s', k, payload, at)
    ensures Facts(s')
  {
    var m := s.epts[k].sendQ[0];
    assert SendEntry(s.log, k, m);
    forall i | 0 < i < |s.epts[k].sendQ| ensures s.epts[k].sendQ[i].id != m.id {
      SendQueueDistinct(s, k, 0, i);
    }
    forall a, i | a in s'.epts && 0 <= i < |s'.epts[a].sendQ| ensures SendEntry(s'.log, a, s'.epts[a].sendQ[i]) {
      assert SendEntry(s.log, a, s'.epts[a].sendQ[i]);
    }
  }

  lemma {:induction false} DepartTied(s: State, s': State, k: Addr, payload: seq<Byte>, at: int)
    requires Facts(s) && Tied(s) && Departs(s, s', k, payload, at)
    ensures Tied(s')
  {
    var m := s.epts[k].sendQ[0];
    assert SendEntry(s.log, k, m);
    TailHas(s.epts[k].sendQ);
    assert s'.log.sent[|s.log.sent|].id == m.id;
    forall id: nat | HasDeparted(s.log.sent, id) ensures HasDeparted(s'.log.sent, id) {
      var j :| 0 <= j < |s.log.sent| && s.log.sent[j].id == id;
      assert s'.log.sent[j].id == id;
    }
    assert HasDeparted(s'.log.sent, m.id);
    hide Has, HasDeparted;
    forall id: nat | id < |s'.log.accepted| ensures TiedAt(s', id) {
      assert TiedAt(s, id);
    }
  }

  lemma {:induction false} DepartOrders(s: State, s': State, k: Addr, payload: seq<Byte>, at: int)
    requires Facts(s) && Orders(s) && NoOvertaking(s.log) && Departs(s, s', k, payload, at)
    ensures Orders(s')
  {
    DepartSentOrder(s, k);
    hide Facts, NoOvertaking;
  }

  /** What was sent to the same receiver before was accepted before. */
  lemma {:induction false} DepartSentOrder(s: State, k: Addr)
    requires Facts(s) && NoOvertaking(s.log) && k in s.epts && s.epts[k].sendQ != []
    ensures var m := s.epts[k].sendQ[0];
            forall i | 0 <= i < |s.log.sent| && s.log.sent[i].via == k && s.log.sent[i].receiver == m.peer ::
              s.log.sent[i].id < m.id
  {
    var m := s.epts[k].sendQ[0];
    assert SendEntry(s.log, k, m);
    forall i | 0 <= i < |s.log.sent| && s.log.sent[i].via == k && s.log.sent[i].receiver == m.peer
      ensures s.log.sent[i].id < m.id
    {
      assert SentEntry(s.log, s.log.sent[i]);
    }
  }

  lemma {:induction false} DepartNoOvertaking(s: State, s': State, k: Addr, payload: seq<Byte>, at: int)
    requires Facts(s) && Tied(s) && Orders(s) && NoOvertaking(s.log) && Departs(s, s', k, payload, at)
    ensures NoOvertaking(s'.log)
  {
    var m := s.epts[k].sendQ[0];
    assert SendEntry(s.log, k, m);
    forall a: nat | a < m.id && SamePair(s.log, a, m.id) ensures s.log.place[a] != InSendQ && s.log.place[a] != InRecvQ {
      assert TiedAt(s, a);
    }
  }

  lemma {:induction false} DepartJourney(s: State, s': State, k: Addr, payload: seq<Byte>, at: int)
    requires Journey(s) && Departs(s, s', k, payload, at)
    ensures Journey(s')
  {
    hide Facts, Tied, Orders, NoOvertaking, Departs;
    DepartFacts(s, s', k, payload, at);
    DepartTied(s, s', k, payload, at);
    DepartOrders(s, s', k, payload, at);
    DepartNoOvertaking(s, s', k, payload, at);
  }

  // ------------------------------------------------------------------ the steps

  lemma {:induction false} RecvJourney(s: State, k: Addr, j: nat, t: int, roll: int)
    requires Journey(s) && k in s.epts && j < |s.epts[k].recvs| && s.epts[k].recvs[j].progress.Arrived?
    ensures Journey(HandleRecv(s, k, j, t, roll))
  {
    hide Journey, Handled;
    var s', e := HandleRecv(s, k, j, t, roll), s.epts[k];
    if Dropped(e, roll) {
      StillJourney(s, s');
    } else {
      AcceptJourney(s, s', k, Message(e, |s.log.accepted|, e.recvs[j].progress.size, t), Entry(e, k, j, t));
    }
  }

  lemma {:induction false} AcceptJourney(s: State, s': State, k: Addr, m: Dgram, a: Accepted)
    requires Journey(s) && Accepts(s, s', k, m, a)
    ensures Journey(s')
  {
    hide Facts, Tied, Orders, NoOvertaking, Accepts;
    AcceptFacts(s, s', k, m, a);
    AcceptTied(s, s', k, m, a);
    AcceptOrders(s, s', k, m, a);
    AcceptNoOvertaking(s, s', k, m, a);
  }

  lemma {:induction false} EnterJourney(cfg: Config, s: State)
    requires Journey(s) && Enabled(s, Enter)
    ensures Journey(EnterEpt(cfg, s))
  {
    hide Journey, LoseAll, RefillBoth;
    var k := s.phase.todo[0];
    if Expired(cfg, s.epts[k], s.now) {
      DiscardJourney(s, EnterEpt(cfg, s), k, Erased);
    } else {
      StillJourney(s, EnterEpt(cfg, s));
    }
  }

  lemma {:induction false} MeetJourney(cfg: Config, s: State, x: Addr, rule: Rule, t: int)
    requires Journey(s)
    ensures Journey(Meet(cfg, s, x, rule, t))
  {
    hide Journey, LoseAll, Touch;
    var s1 := Meet(cfg, s, x, rule, t);
    if Known(s, x) {
      StillJourney(s, s1);
    } else {
      DiscardJourney(s, s1, x, Overwritten);
    }
  }

  lemma {:induction false} ForwardJourney(s: State, k: Addr, x: Addr)
    requires Journey(s) && k in s.epts && x in s.epts && x != k && s.epts[k].recvQ != [] && s.epts[k].recvQ[0].peer == x
    ensures Journey(Forward(s, k, x))
  {
    hide Journey, Pass, TakeHead;
    var s' := Forward(s, k, x);
    if |s.epts[x].sendQ| < MAX_UDP_MSG_QUEUE_SIZE {
      MovesJourney(s, s', k, x);
    } else {
      DropJourney(s, s', k, QueueFull);
    }
  }

  lemma {:induction false} MoveOnJourney(cfg: Config, s: State, k: Addr, o: Opening, t: int)
    requires Journey(s) && k in s.epts && s.epts[k].recvQ != [] && s.epts[k].recvQ[0].peer != k
    ensures Journey(MoveOn(cfg, s, k, o, t))
  {
    hide Journey, Pass, Forward, TakeHead;
    var x := s.epts[k].recvQ[0].peer;
    if Known(s, x) || o == Bound {
      var s1 := Meet(cfg, s, x, s.epts[k].rule, t);
      MeetJourney(cfg, s, x, s.epts[k].rule, t);
      UdpSteps.MeetAt(cfg, s, x, s.epts[k].rule, t, k);
      hide Meet;
      ForwardJourney(s1, k, x);
    } else {
      DropJourney(s, LoseHead(s, k, t), k, OpenFailed);
    }
  }

  lemma {:induction false} MoveJourney(cfg: Config, s: State, o: Opening, t: int)
    requires Journey(s) && Enabled(s, Move(o, t))
    ensures Journey(MoveHead(cfg, s, o, t))
  {
    hide Journey, MoveOn;
    var k := s.phase.todo[0];
    if MayMove(cfg, s, s.epts[k], k) {
      var s1 := PayMove(cfg, s, k);
      StillJourney(s, s1);
      MoveOnJourney(cfg, s1, k, o, t);
    } else {
      StillJourney(s, MoveHead(cfg, s, o, t));
    }
  }

  lemma {:induction false} SentDeparts(cfg: Config, s: State, o: Opening, t: int)
    requires Stamps(s) && Enabled(s, Send(true, o, t)) && MaySend(cfg, s, s.epts[s.phase.todo[0]], s.phase.todo[0])
    ensures var k := s.phase.todo[0];
            var m := s.epts[k].sendQ[0];
            m.time <= s.now && Departs(s, SendOne(cfg, s, true, o, t), k, Payload(s.memory, m.buf, m.size), s.now)
  {
    hide SendHead, Depart, Payload;
    assert StampsOk(s.epts[s.phase.todo[0]], s.clock, s.now);
  }

  lemma {:induction false} UnsentStill(cfg: Config, s: State, sent: bool, o: Opening, t: int)
    requires Enabled(s, Send(sent, o, t)) && !(sent && MaySend(cfg, s, s.epts[s.phase.todo[0]], s.phase.todo[0]))
    ensures Still(s, SendOne(cfg, s, sent, o, t))
  {
    hide Break, MaySend, NullSendBudget;
  }

  lemma {:induction false} SendJourney(cfg: Config, s: State, sent: bool, o: Opening, t: int)
    requires Journey(s) && Stamps(s) && Enabled(s, Send(sent, o, t))
    ensures Journey(SendOne(cfg, s, sent, o, t))
  {
    hide Journey, Stamps, SendOne, Departs, Still, Payload;
    var k := s.phase.todo[0];
    if sent && MaySend(cfg, s, s.epts[k], k) {
      var m := s.epts[k].sendQ[0];
      SentDeparts(cfg, s, o, t);
      DepartJourney(s, SendOne(cfg, s, sent, o, t), k, Payload(s.memory, m.buf, m.size), s.now);
    } else {
      UnsentStill(cfg, s, sent, o, t);
      StillJourney(s, SendOne(cfg, s, sent, o, t));
    }
  }

  lemma {:induction false} StillSteps(cfg: Config, s: State, ev: Event)
    requires Enabled(s, ev) && !ev.Recv? && !ev.Enter? && !ev.Move? && !ev.Send?
    ensures Still(s, Step(cfg, s, ev))
  {
    hide Got, Lose, Errored, Store;
  }

  lemma {:induction false} StepJourney(cfg: Config, s: State, ev: Event)
    requires Journey(s) && Stamps(s) && Enabled(s, ev)
    ensures Journey(Step(cfg, s, ev))
  {
    hide Journey, Stamps, HandleRecv, EnterEpt, MoveHead, SendOne, Still;
    match ev
    case Recv(k, j, t, roll) => RecvJourney(s, k, j, t, roll);
    case Enter => EnterJourney(cfg, s);
    case Move(o, t) => MoveJourney(cfg, s, o, t);
    case Send(sent, o, t) => SendJourney(cfg, s, sent, o, t);
    case _ =>
      StillSteps(cfg, s, ev);
      StillJourney(s, Step(cfg, s, ev));
  }
}
