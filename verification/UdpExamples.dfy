/**
 Runs of the UDP machine from its start that end badly. All are about two servers, A and B, under rules without limits,
 delay or drops.
 */
module UdpExamples {
  import opened Base
  import opened TokenBucket
  import opened Udp
  import opened UdpInvariants
  import opened UdpTheorems
  import UdpBuffers
  import UdpDanger

  const A := Addr(1, 1)
  const B := Addr(2, 1)
  const C := Addr(3, 1)
  const D := Addr(4, 1)
  const PLAIN := Rule(0, 0, 0)

  function Lines(): seq<Line> {
    [Line(1, A, PLAIN, Bound), Line(2, B, PLAIN, Bound)]
  }

  /** A server endpoint at work: open, receiving into its message buffer, with these queues. */
  predicate Serves(e: Ept, k: Addr, recvQ: seq<Dgram>, sendQ: seq<Dgram>) {
    && e.dst == k && e.rule == PLAIN && e.server && e.open && e.activeTm > 0 && e.recvAvail == 0 && e.sendAvail == 0
    && e.recvQ == recvQ && e.sendQ == sendQ && e.recving && e.recvs == [RecvOp(e.recvBuf, Waiting)]
  }

  /** The two servers, whose message buffers are different and not among the accepted ones. */
  predicate Both(s: State, phase: Phase, t: int) {
    && s.epts.Keys == {A, B} && s.newKeys == {} && s.phase == phase && s.now == s.clock == t && t > 0 && s.ips == map[]
    && !s.clash && !s.nullBudget
  }

  /** Everything accepted was empty and came from where it was recorded to come from. */
  predicate Plain(l: Log) {
    forall id | 0 <= id < |l.accepted| ::
      var a := l.accepted[id];
      a.from == a.sender != a.on && a.size == 0 && a.data == []
  }

  /** A run so far: from the start with the two lines to state s, which satisfies the invariants. */
  predicate Ran(cfg: Config, events: seq<Event>, s: State) {
    Runs(cfg, Lines(), 1, events) && After(cfg, Lines(), 1, events) == s
  }

  lemma {:induction false} More(cfg: Config, before: seq<Event>, s: State, ev: Event) returns (events: seq<Event>, s': State)
    requires Ran(cfg, before, s) && Enabled(s, ev)
    ensures Ran(cfg, events, s') && s' == Step(cfg, s, ev)
  {
    s' := Chain(cfg, Start(Lines(), 1), before, s, ev);
    events := before + [ev];
  }

  lemma {:induction false} Beginning(cfg: Config) returns (s: State)
    ensures Ran(cfg, [], s) && Both(s, Resting, 1) && s.log == Log([], [], [], [])
    ensures Serves(s.epts[A], A, [], []) && Serves(s.epts[B], B, [], [])
  {
    s := Start(Lines(), 1);
    var one := [Line(1, A, PLAIN, Bound)];
    assert Front(Lines()) == one && Front(one) == [];
    var s0 := Start([], 1);
    var s1 := WithLine(s0, one[0]);
    assert Start(one, 1) == s1;
    assert s == WithLine(s1, Line(2, B, PLAIN, Bound));
    assert s1.epts.Keys == {A} && Serves(s1.epts[A], A, [], []);
    assert s.epts.Keys == {A, B};
    assert Run(cfg, s, []) == Some(s);
  }

  /** What an arrival and its handler make of an endpoint. */
  lemma {:induction false} ServesOn(e: Ept, k: Addr, from: Addr, data: seq<Byte>, t: int, id: nat, buf: BufId)
    requires Serves(e, k, e.recvQ, e.sendQ) && |e.recvQ| < MAX_UDP_MSG_QUEUE_SIZE && t > 0
    ensures var g := Got(e, 0, from, data);
            && g.recvs == [RecvOp(e.recvBuf, Arrived(|data|, from, data))] && g.recvSrc == from && g.recvBuf == e.recvBuf
            && g.rule == PLAIN
            && var r := Handled(g, 0, t, 10000, id, buf);
               Serves(r, k, e.recvQ + [Dgram(id, e.recvBuf, |data|, t, from)], e.sendQ) && r.recvBuf == buf
  {
    var g := Got(e, 0, from, data);
    assert Finish(g, 0).recvs == [];
  }

  /** The state after a datagram came in at k and was queued. */
  function CameIn(s: State, k: Addr, from: Addr, data: seq<Byte>): State
    requires k in s.epts && s.epts[k].recvs != []
  {
    var e := s.epts[k];
    s.(epts := s.epts[k := Handled(Got(e, 0, from, data), 0, s.clock, 10000, |s.log.accepted|, |s.memory|)],
       memory := Store(s.memory, e.recvs[0].buf, data) + [NewBuffer()],
       log := s.log.(accepted := s.log.accepted + [Accepted(k, from, e.recvBuf, |data|, from, data, s.clock, s.clock + e.rule.delay)],
                     place := s.log.place + [InRecvQ]))
  }

  lemma {:induction false} ComesIn(cfg: Config, before: seq<Event>, s: State, k: Addr, from: Addr, data: seq<Byte>)
      returns (events: seq<Event>)
    requires Ran(cfg, before, s) && k in s.epts && Serves(s.epts[k], k, s.epts[k].recvQ, s.epts[k].sendQ)
    requires |s.epts[k].recvQ| < MAX_UDP_MSG_QUEUE_SIZE && s.clock > 0
    requires from != k && from != NOBODY && |data| <= UDP_BUFFER_SIZE && !Locked(s, k)
    ensures Ran(cfg, events, CameIn(s, k, from, data))
    ensures var e := s.epts[k];
            var r := CameIn(s, k, from, data).epts[k];
            Serves(r, k, e.recvQ + [Dgram(|s.log.accepted|, e.recvBuf, |data|, s.clock, from)], e.sendQ) && r.recvBuf == |s.memory|
  {
    var e := s.epts[k];
    ServesOn(e, k, from, data, s.clock, |s.log.accepted|, |s.memory|);
    hide Ran, Store, NewBuffer, Got, Handled;
    var middle, s1 := More(cfg, before, s, Arrive(k, 0, from, data));
    assert s1.epts[k] == Got(e, 0, from, data) && |s1.memory| == |s.memory| by {
      assert |Store(s.memory, e.recvs[0].buf, data)| == |s.memory| by {
        StoreKeepsLength(s.memory, e.recvs[0].buf, data);
      }
    }
    var s2;
    events, s2 := More(cfg, middle, s1, Recv(k, 0, s.clock, 10000));
    assert s2.epts == CameIn(s, k, from, data).epts;
  }

  lemma {:induction false} StoreKeepsLength(memory: seq<seq<Byte>>, b: BufId, data: seq<Byte>)
    ensures |Store(memory, b, data)| == |memory|
  {
  }

  // ------------------------------------------------------------------ turns of the routine thread for servers

  predicate Due(s: State, k: Addr) {
    && s.phase.Moving? && s.phase.entered && s.phase.todo != [] && s.phase.todo[0] == k && k in s.epts
    && s.epts[k].server && s.epts[k].recvQ != [] && s.epts[k].recvAvail >= 0
    && s.epts[k].recvQ[0].time <= s.now && s.epts[k].recvQ[0].peer != k
  }

  /** An idle server is entered and left. */
  lemma {:induction false} VisitIdle(cfg: Config, before: seq<Event>, s: State) returns (events: seq<Event>)
    requires Ran(cfg, before, s) && s.phase.Moving? && !s.phase.entered && s.phase.todo != [] && s.phase.todo[0] in s.epts
    requires var e := s.epts[s.phase.todo[0]]; e.server && e.activeTm != 0 && e.recvQ == []
    ensures Ran(cfg, events, s.(phase := Moving(s.phase.todo[1..], false, s.phase.interval)))
  {
    var middle := EnterServer(cfg, before, s);
    events := LeaveIdle(cfg, middle, s.(phase := Moving(s.phase.todo, true, s.phase.interval)));
  }

  lemma {:induction false} EnterServer(cfg: Config, before: seq<Event>, s: State) returns (events: seq<Event>)
    requires Ran(cfg, before, s) && s.phase.Moving? && !s.phase.entered && s.phase.todo != [] && s.phase.todo[0] in s.epts
    requires var e := s.epts[s.phase.todo[0]]; e.server && e.activeTm != 0
    ensures Ran(cfg, events, s.(phase := Moving(s.phase.todo, true, s.phase.interval)))
  {
    hide Ran;
    var s1;
    events, s1 := More(cfg, before, s, Enter);
    assert s1.epts == s.epts;
  }

  lemma {:induction false} LeaveIdle(cfg: Config, before: seq<Event>, s: State) returns (events: seq<Event>)
    requires Ran(cfg, before, s) && s.phase.Moving? && s.phase.entered && s.phase.todo != [] && s.phase.todo[0] in s.epts
    requires s.epts[s.phase.todo[0]].recvQ == []
    ensures Ran(cfg, events, s.(phase := Moving(s.phase.todo[1..], false, s.phase.interval)))
  {
    hide Ran, MoveOn;
    var s1;
    events, s1 := More(cfg, before, s, Move(Bound, s.clock));
  }

  lemma {:induction false} SendsNothing(cfg: Config, before: seq<Event>, s: State) returns (events: seq<Event>)
    requires Ran(cfg, before, s) && s.phase.Sending? && s.phase.todo != [] && s.phase.todo[0] in s.epts
    requires s.epts[s.phase.todo[0]].sendQ == []
    ensures Ran(cfg, events, s.(phase := Sending(s.phase.todo[1..], false)))
  {
    hide Ran, SendOut;
    var s1;
    events, s1 := More(cfg, before, s, Send(true, Bound, s.clock));
  }

  /** The head of a server's queue goes to the endpoint of a sender that is known. */
  function MovedToKnown(s: State, k: Addr): State
    requires k in s.epts && s.epts[k].recvQ != [] && s.epts[k].recvQ[0].peer in s.epts
  {
    var m := s.epts[k].recvQ[0];
    s.(epts := s.epts[m.peer := Deliver(Touch(s.epts[m.peer], s.now), m, k)][k := TakeHead(s.epts[k], s.now)], log := Pass(s.log, m, k, InSendQ))
  }

  lemma {:induction false} MovesToKnown(cfg: Config, before: seq<Event>, s: State, k: Addr) returns (events: seq<Event>)
    requires Ran(cfg, before, s) && Due(s, k) && Known(s, s.epts[k].recvQ[0].peer)
    requires |s.epts[s.epts[k].recvQ[0].peer].sendQ| < MAX_UDP_MSG_QUEUE_SIZE
    ensures Ran(cfg, events, MovedToKnown(s, k))
  {
    hide Ran, Pass, Deliver, TakeHead;
    var s1;
    assert Touch(s.epts[s.epts[k].recvQ[0].peer], s.now).sendQ == s.epts[s.epts[k].recvQ[0].peer].sendQ;
    hide Touch;
    events, s1 := More(cfg, before, s, Move(Bound, s.clock));
    assert s1.epts == MovedToKnown(s, k).epts;
  }

  /** The head of a server's queue goes to a new endpoint for its sender. */
  function MovedToNew(cfg: Config, s: State, k: Addr): State
    requires k in s.epts && s.epts[k].recvQ != []
  {
    var m := s.epts[k].recvQ[0];
    var made := NewEpt(m.peer, s.epts[k].rule, false, Limited(cfg), Bound, s.clock, |s.memory|, s.log);
    s.(epts := s.epts[m.peer := Deliver(made, m, k)][k := TakeHead(s.epts[k], s.now)],
       newKeys := s.newKeys + {m.peer}, memory := s.memory + [NewBuffer()],
       log := Pass(LoseAll(s.log, m.peer, Overwritten), m, k, InSendQ))
  }

  lemma {:induction false} MovesToNew(cfg: Config, before: seq<Event>, s: State, k: Addr) returns (events: seq<Event>)
    requires Ran(cfg, before, s) && Due(s, k) && !Known(s, s.epts[k].recvQ[0].peer)
    ensures Ran(cfg, events, MovedToNew(cfg, s, k))
  {
    var m := s.epts[k].recvQ[0];
    assert NewEpt(m.peer, s.epts[k].rule, false, Limited(cfg), Bound, s.clock, |s.memory|, s.log).sendQ == [];
    hide Ran, Pass, Deliver, LoseAll, NewBuffer, NewEpt, TakeHead;
    var s1;
    events, s1 := More(cfg, before, s, Move(Bound, s.clock));
  }

  lemma {:induction false} Begins(cfg: Config, before: seq<Event>, s: State, t: int, order: seq<Addr>) returns (events: seq<Event>)
    requires Ran(cfg, before, s) && s.phase == Resting && s.now <= s.clock <= t && s.now < t && IsOrder(s, order)
    ensures Ran(cfg, events, s.(now := t, clock := t, phase := Moving(order, false, t - s.now)))
  {
    hide Ran, IsOrder;
    var s1;
    events, s1 := More(cfg, before, s, BeginPass(t, order));
  }

  lemma {:induction false} EndsMoving(cfg: Config, before: seq<Event>, s: State, order: seq<Addr>) returns (events: seq<Event>)
    requires Ran(cfg, before, s) && s.phase.Moving? && s.phase.todo == [] && IsOrder(s, order)
    ensures Ran(cfg, events, s.(newKeys := {}, phase := Sending(order, false)))
  {
    hide Ran, IsOrder;
    var s1;
    events, s1 := More(cfg, before, s, EndMoving(order));
  }

  lemma {:induction false} EndsPass(cfg: Config, before: seq<Event>, s: State) returns (events: seq<Event>)
    requires Ran(cfg, before, s) && s.phase == Sending([], false)
    ensures Ran(cfg, events, s.(phase := Resting))
  {
    hide Ran;
    var s1;
    events, s1 := More(cfg, before, s, EndPass);
  }

  // ------------------------------------------------------------------ a reply waits to be sent to B

  /** The routine thread is about to send what waits at B. */
  predicate AboutToSend(s: State, recvQ: seq<Dgram>) {
    && Both(s, Sending([B], false), 2)
    && Serves(s.epts[A], A, [], []) && Serves(s.epts[B], B, recvQ, s.epts[B].sendQ) && s.epts[B].sendQ != []
  }

  lemma {:induction false} ReplyWaits(cfg: Config) returns (events: seq<Event>, s: State)
    ensures Ran(cfg, events, s) && AboutToSend(s, []) && s.log.sent == [] && Plain(s.log)
  {
    var s0 := Beginning(cfg);
    hide Ran, Store, NewBuffer, Got, Handled, Pass;
    events := ComesIn(cfg, [], s0, A, B, []);
    var s1 := CameIn(s0, A, B, []);
    assert IsOrder(s1, [A, B]);
    events := Begins(cfg, events, s1, 2, [A, B]);
    var s2 := s1.(now := 2, clock := 2, phase := Moving([A, B], false, 1));
    events := EnterServer(cfg, events, s2);
    var s3 := s2.(phase := Moving([A, B], true, 1));
    events := MovesToKnown(cfg, events, s3, A);
    var s4 := MovedToKnown(s3, A);
    assert Serves(s4.epts[A], A, [], []) && Serves(s4.epts[B], B, [], s4.epts[B].sendQ) && s4.epts[B].sendQ != [];
    hide MovedToKnown, CameIn;
    events := LeaveIdle(cfg, events, s4);
    var s5 := s4.(phase := Moving([B], false, 1));
    events := VisitIdle(cfg, events, s5);
    var s6 := s4.(phase := Moving([], false, 1));
    assert IsOrder(s6, [A, B]) && [A, B][1..] == [B] && [B][1..] == [];
    events := EndsMoving(cfg, events, s6, [A, B]);
    var s7 := s6.(newKeys := {}, phase := Sending([A, B], false));
    events := SendsNothing(cfg, events, s7);
    s := s7.(phase := Sending([B], false));
  }

  // ------------------------------------------------------------------ a failed send while a datagram waits

  /** B has received C's datagram, but its handler has not run, when the send fails. */
  lemma {:induction false} SendFailsBusy(cfg: Config, o: Opening, data: seq<Byte>) returns (events: seq<Event>, s: State)
    requires |data| <= UDP_BUFFER_SIZE
    ensures Ran(cfg, events, s) && Both(s, Sending([], false), 2) && Serves(s.epts[A], A, [], []) && s.log.sent == []
    ensures var e := s.epts[B];
            && e.server && e.rule == PLAIN && e.recvQ == [] && e.recving && e.recvAvail == 0 && e.recvSrc == C
            && e.recvBuf < |s.memory| && |s.memory[e.recvBuf]| == UDP_BUFFER_SIZE
            && e.open == (o != Shut) && e.activeTm == (if o == Bound then 2 else 0)
            && e.recvs == [RecvOp(e.recvBuf, Arrived(|data|, C, data))] + if o == Bound then [RecvOp(e.recvBuf, Waiting)] else []
  {
    var s0;
    events, s0 := ReplyWaits(cfg);
    var e := s0.epts[B];
    BufferThere(cfg, events, s0, B);
    var s1;
    hide Ran, NewBuffer, Store;
    events, s1 := More(cfg, events, s0, Arrive(B, 0, C, data));
    StoreKeepsSizes(s0.memory, e.recvBuf, data);
    var e1 := s1.epts[B];
    assert e1 == Got(e, 0, C, data) && e1.recvs == [RecvOp(e.recvBuf, Arrived(|data|, C, data))];
    assert Front(e1.recvs) == [] && Ended(e1.recvs) == e1.recvs;
    hide Got;
    assert [B][1..] == [];
    events, s := More(cfg, events, s1, Send(false, o, 2));
    assert s.epts[B] == Break(e1, o, 2);
  }

  lemma {:induction false} BufferThere(cfg: Config, events: seq<Event>, s: State, k: Addr)
    requires Ran(cfg, events, s) && k in s.epts
    ensures s.epts[k].recvBuf < |s.memory| && |s.memory[s.epts[k].recvBuf]| == UDP_BUFFER_SIZE
  {
    Reached(cfg, Lines(), 1, events);
    hide Runs, After, Keys, Visits, Apart, Journey, Stamps, Sizes, Budgets;
  }

  lemma {:induction false} StoreKeepsSizes(memory: seq<seq<Byte>>, b: BufId, data: seq<Byte>)
    ensures var m := Store(memory, b, data);
            |m| == |memory| && forall i | 0 <= i < |m| :: |m[i]| == |memory[i]|
  {
  }

  /**
   A stopped endpoint counts as active again when the handler of a datagram that had arrived before runs afterwards, although
   its socket is closed; the receive it starts is bound to fail.
   */
  lemma {:induction false} RevivedWithoutSocket(cfg: Config) returns (events: seq<Event>)
    ensures Runs(cfg, Lines(), 1, events)
    ensures var s := After(cfg, Lines(), 1, events);
            B in s.epts && s.epts[B].activeTm != 0 && !s.epts[B].open && s.epts[B].recvs == [RecvOp(s.epts[B].recvBuf, Broken)]
  {
    var s0, s1;
    events, s0 := SendFailsBusy(cfg, Shut, []);
    assert Finish(s0.epts[B], 0).recvs == [];
    events, s1 := More(cfg, events, s0, Recv(B, 0, 2, 10000));
  }

  // ------------------------------------------------------------------ wrong bytes

  /** C's byte is queued in a buffer that a receive is still into, and D's byte arrives there. */
  lemma {:induction false} Overwrites(cfg: Config) returns (events: seq<Event>, s: State)
    ensures Ran(cfg, events, s) && Both(s, Sending([], false), 2) && Serves(s.epts[A], A, [], []) && s.log.sent == []
    ensures var e := s.epts[B];
            && e.server && e.rule == PLAIN && e.activeTm == 2 && e.recvAvail == 0
            && |e.recvQ| == 1 && e.recvQ[0].peer == C && e.recvQ[0].time == 2 && e.recvQ[0].size == 1
            && e.recvQ[0].id < |s.log.accepted| && s.log.accepted[e.recvQ[0].id].data == [1] && s.log.accepted[e.recvQ[0].id].sender == C
            && e.recvQ[0].buf < |s.memory| && Payload(s.memory, e.recvQ[0].buf, 1) == [2]
  {
    var s0, s1;
    events, s0 := SendFailsBusy(cfg, Bound, [1]);
    var e := s0.epts[B];
    var buf := e.recvBuf;
    assert Finish(e, 0).recvs == [RecvOp(buf, Waiting)];
    hide Ran, NewBuffer;
    events, s1 := More(cfg, events, s0, Recv(B, 0, 2, 10000));
    var e1 := s1.epts[B];
    assert e1 == Handled(e, 0, 2, 10000, |s0.log.accepted|, |s0.memory|);
    assert e1.recvs[0] == RecvOp(buf, Waiting);
    assert s1.memory[buf] == s0.memory[buf];
    events, s := More(cfg, events, s1, Arrive(B, 0, D, [2]));
    assert s.epts[B] == Got(e1, 0, D, [2]) && s.memory == Store(s1.memory, buf, [2]);
    assert Payload(s.memory, buf, 1) == [2];
  }

  /** The next pass comes to B. */
  lemma {:induction false} PassToB(cfg: Config, before: seq<Event>, s: State) returns (events: seq<Event>)
    requires Ran(cfg, before, s) && Both(s, Sending([], false), 2) && s.epts[A].server && s.epts[A].activeTm != 0 && s.epts[A].recvQ == []
    requires s.epts[B].server && s.epts[B].activeTm != 0
    ensures Ran(cfg, events, s.(now := 3, clock := 3, phase := Moving([B], true, 1)))
  {
    hide Ran;
    events := EndsPass(cfg, before, s);
    var s1 := s.(phase := Resting);
    assert IsOrder(s1, [A, B]);
    events := Begins(cfg, events, s1, 3, [A, B]);
    var s2 := s1.(now := 3, clock := 3, phase := Moving([A, B], false, 1));
    events := VisitIdle(cfg, events, s2);
    assert [A, B][1..] == [B];
    events := EnterServer(cfg, events, s2.(phase := Moving([B], false, 1)));
  }

  /** With two receives at once the client C's datagram leaves with the bytes of D's. */
  lemma {:induction false} WrongBytesLeave(cfg: Config) returns (events: seq<Event>)
    ensures Runs(cfg, Lines(), 1, events)
    ensures var l := After(cfg, Lines(), 1, events).log;
            && |l.sent| == 1 && l.sent[0].id < |l.accepted|
            && l.sent[0].via == C == l.accepted[l.sent[0].id].sender && l.sent[0].receiver == B
            && l.accepted[l.sent[0].id].data == [1] && l.sent[0].payload == [2]
  {
    var s0;
    events, s0 := Overwrites(cfg);
    events := PassToB(cfg, events, s0);
    var s4 := s0.(now := 3, clock := 3, phase := Moving([B], true, 1));
    var m := s4.epts[B].recvQ[0];
    events := MovesToNew(cfg, events, s4, B);
    var s5 := MovedToNew(cfg, s4, B);
    ForC(cfg, s4);
    UdpBuffers.PayloadKept(s4.memory, 0, [], m.buf, 1);
    hide Ran, MovedToNew, Payload, NewBuffer;
    events := LeaveIdle(cfg, events, s5);
    assert [B][1..] == [];
    var s6 := s5.(phase := Moving([], false, 1));
    assert IsOrder(s6, [C, A, B]);
    events := EndsMoving(cfg, events, s6, [C, A, B]);
    var s7 := s6.(newKeys := {}, phase := Sending([C, A, B], false));
    var s8;
    ForCLeaves(cfg, s7, m);
    hide Enabled, Step;
    events, s8 := More(cfg, events, s7, Send(true, Bound, 3));
    assert Ran(cfg, events, s8);
    RanMeans(cfg, events, s8);
  }

  lemma {:induction false} RanMeans(cfg: Config, events: seq<Event>, s: State)
    requires Ran(cfg, events, s)
    ensures Runs(cfg, Lines(), 1, events) && After(cfg, Lines(), 1, events) == s
  {
  }

  /** The new endpoint for C holds what came from C. */
  lemma {:induction false} ForC(cfg: Config, s: State)
    requires Due(s, B) && s.epts.Keys == {A, B} && |s.epts[B].recvQ| == 1 && s.epts[B].recvQ[0].peer == C && s.ips == map[]
    ensures var s', m := MovedToNew(cfg, s, B), s.epts[B].recvQ[0];
            && s'.epts.Keys == {A, B, C} && s'.epts[A] == s.epts[A] && s'.epts[B].recvQ == []
            && s'.epts[C].sendQ == [m.(peer := B)] && s'.epts[C].sendAvail == 0 && s'.epts[C].hasIp == Limited(cfg)
            && s'.epts[C].recvBuf == |s.memory| && !s'.epts[C].server && s'.epts[C].rule == s.epts[B].rule
            && s'.log.accepted == s.log.accepted && s'.log.sent == s.log.sent && s'.ips == map[]
            && s'.memory == s.memory + [NewBuffer()] && s'.phase == s.phase
  {
    hide NewBuffer, TakeHead;
  }

  lemma {:induction false} ForCLeaves(cfg: Config, s: State, m: Dgram)
    requires s.phase.Sending? && s.phase.todo != [] && s.phase.todo[0] == C && C in s.epts && s.clock <= 3
    requires s.epts[C].sendQ == [m.(peer := B)] && s.epts[C].sendAvail == 0 && s.epts[C].hasIp == Limited(cfg) && s.ips == map[]
    ensures Enabled(s, Send(true, Bound, 3))
    ensures Step(cfg, s, Send(true, Bound, 3)).log.sent == s.log.sent + [Departure(m.id, C, B, Payload(s.memory, m.buf, m.size), s.now)]
    ensures Step(cfg, s, Send(true, Bound, 3)).log.accepted == s.log.accepted
  {
    hide Payload, SendHead;
  }

  // ------------------------------------------------------------------ a socket reopened while its queue is full

  /** n datagrams of C wait at B, which is about to send. */
  lemma {:induction false} Filled(cfg: Config, n: nat) returns (events: seq<Event>, s: State)
    requires n <= MAX_UDP_MSG_QUEUE_SIZE
    ensures Ran(cfg, events, s) && B in s.epts && AboutToSend(s, s.epts[B].recvQ) && |s.epts[B].recvQ| == n && Plain(s.log)
    ensures n > 0 ==> s.epts[B].recvQ[0].peer == C && s.epts[B].recvQ[0].time == 2
    decreases n
  {
    if n == 0 {
      events, s := ReplyWaits(cfg);
    } else {
      var s0;
      events, s0 := Filled(cfg, n - 1);
      hide Ran, Store, NewBuffer, Got, Handled;
      events := ComesIn(cfg, events, s0, B, C, []);
      s := CameIn(s0, B, C, []);
    }
  }

  lemma {:induction false} PlainMore(l: Log, l': Log, a: Accepted)
    requires Plain(l) && l'.accepted == l.accepted + [a] && a.from == a.sender != a.on && a.size == 0 && a.data == []
    ensures Plain(l')
  {
  }

  lemma {:induction false} SamePlain(l: Log, l': Log)
    requires Plain(l) && l'.accepted == l.accepted
    ensures Plain(l')
  {
  }

  /** The queue of B holds 51 and receiving is off; then a send fails and B is reopened. */
  lemma {:induction false} FullReopened(cfg: Config) returns (events: seq<Event>, s: State)
    ensures Ran(cfg, events, s) && Both(s, Sending([], false), 2) && Serves(s.epts[A], A, [], []) && Plain(s.log)
    ensures var e := s.epts[B];
            && e.server && e.rule == PLAIN && e.open && e.activeTm == 2 && e.recvAvail == 0
            && |e.recvQ| == MAX_UDP_MSG_QUEUE_SIZE + 1 && e.recvQ[0].peer == C && e.recvQ[0].time == 2
            && !e.recving && e.recvs == [RecvOp(e.recvBuf, Waiting)]
  {
    var s0, s1, s2;
    hide Ran, NewBuffer, Store, Plain;
    events, s0 := Filled(cfg, MAX_UDP_MSG_QUEUE_SIZE);
    var e := s0.epts[B];
    events, s1 := More(cfg, events, s0, Arrive(B, 0, C, []));
    var e1 := s1.epts[B];
    assert e1 == Got(e, 0, C, []) && e1.recvs == [RecvOp(e.recvBuf, Arrived(0, C, []))];
    assert Finish(e1, 0).recvs == [];
    events, s2 := More(cfg, events, s1, Recv(B, 0, 2, 10000));
    var e2 := s2.epts[B];
    assert e2 == Handled(e1, 0, 2, 10000, |s1.log.accepted|, |s1.memory|);
    PlainMore(s0.log, s2.log, Entry(e1, B, 0, 2));
    assert e2.recvs == [] && !e2.recving && |e2.recvQ| == MAX_UDP_MSG_QUEUE_SIZE + 1 && e2.recvQ[0] == e.recvQ[0];
    hide Handled, Got, Finish;
    assert [B][1..] == [];
    events, s := More(cfg, events, s2, Send(false, Bound, 2));
    assert s.epts[B] == Break(e2, Bound, 2);
    SamePlain(s2.log, s.log);
  }

  /** One more datagram then exceeds the bound. */
  lemma {:induction false} QueueOverfull(cfg: Config) returns (events: seq<Event>)
    ensures Runs(cfg, Lines(), 1, events)
    ensures var s := After(cfg, Lines(), 1, events);
            B in s.epts && |s.epts[B].recvQ| == MAX_UDP_MSG_QUEUE_SIZE + 2
  {
    var s0, s1, s2;
    events, s0 := FullReopened(cfg);
    hide NewBuffer, Store;
    events, s1 := More(cfg, events, s0, Arrive(B, 0, C, []));
    assert s1.epts[B] == Got(s0.epts[B], 0, C, []);
    hide Ran;
    events, s2 := More(cfg, events, s1, Recv(B, 0, 2, 10000));
    assert s2.epts[B] == Handled(s1.epts[B], 0, 2, 10000, |s1.log.accepted|, |s1.memory|);
    RanMeans(cfg, events, s2);
  }

  /** Or the next pass starts a second receive, while the routine thread holds the mutex of B. */
  lemma {:induction false} SecondReceive(cfg: Config) returns (events: seq<Event>)
    ensures Runs(cfg, Lines(), 1, events)
    ensures var s := After(cfg, Lines(), 1, events);
            && B in s.epts && Locked(s, B) && s.epts[B].rule == PLAIN && Plain(s.log) && !s.clash && !s.nullBudget
            && s.epts[B].recvs == [RecvOp(s.epts[B].recvBuf, Waiting), RecvOp(s.epts[B].recvBuf, Waiting)]
  {
    var s0;
    events, s0 := FullReopened(cfg);
    hide Ran;
    events := PassToB(cfg, events, s0);
    var s1 := s0.(now := 3, clock := 3, phase := Moving([B], true, 1));
    events := MovesToNew(cfg, events, s1, B);
    var s2 := MovedToNew(cfg, s1, B);
    assert s2.epts[B] == TakeHead(s1.epts[B], 3);
    RanMeans(cfg, events, s2);
  }

  /** From there a run goes on, with the program alive, to a datagram that is queued with a false record. */
  lemma {:induction false} SecondReceiveHarms(cfg: Config) returns (first: seq<Event>, more: seq<Event>)
    ensures Runs(cfg, Lines(), 1, first) && Runs(cfg, Lines(), 1, first + more)
    ensures var s, s' := After(cfg, Lines(), 1, first), After(cfg, Lines(), 1, first + more);
            && B in s.epts && s.epts[B].recvs == [RecvOp(s.epts[B].recvBuf, Waiting), RecvOp(s.epts[B].recvBuf, Waiting)]
            && TrueOn(s, B) && UdpDanger.NewestFalse(s, s', B) && !s'.clash && !s'.nullBudget
  {
    first := SecondReceive(cfg);
    var s := After(cfg, Lines(), 1, first);
    Reached(cfg, Lines(), 1, first);
    PlainTrue(s, B);
    TwoNotTrue(s.memory, s.epts[B]);
    hide Inv, Start, Lines, Step, Enabled, Plain, TrueOn, TrueRecvs, UdpDanger.NewestFalse, Locked, UdpDanger.AboutToDouble;
    UdpDanger.IntegrityIff(cfg, Lines(), 1, first, B);
    more :| UdpDanger.Harms(cfg, s, more, B);
    Join(cfg, Start(Lines(), 1), first, more);
  }

  lemma {:induction false} TwoNotTrue(memory: seq<seq<Byte>>, e: Ept)
    requires |e.recvs| == 2
    ensures !TrueRecvs(memory, e)
  {
  }

  lemma {:induction false} PlainTrue(s: State, k: Addr)
    requires Memory(s) && Plain(s.log)
    ensures TrueOn(s, k)
  {
  }

  // ------------------------------------------------------------------ two datagrams of an unknown sender

  /** Of two datagrams that C sends to A before a pass, the first is lost with the endpoint that was made for it. */
  lemma {:induction false} FirstIsLost(cfg: Config) returns (events: seq<Event>)
    ensures Runs(cfg, Lines(), 1, events)
    ensures var s := After(cfg, Lines(), 1, events);
            && |s.log.accepted| == 2 && (forall id | 0 <= id < 2 :: s.log.accepted[id].on == A && s.log.accepted[id].from == C)
            && s.log.place == [Lost(Overwritten), InSendQ]
  {
    var s0 := Beginning(cfg);
    hide Ran, Store, NewBuffer, Got, Handled;
    events := ComesIn(cfg, [], s0, A, C, []);
    var s1 := CameIn(s0, A, C, []);
    events := ComesIn(cfg, events, s1, A, C, []);
    var s2 := CameIn(s1, A, C, []);
    assert IsOrder(s2, [A, B]);
    events := Begins(cfg, events, s2, 2, [A, B]);
    var s3 := s2.(now := 2, clock := 2, phase := Moving([A, B], false, 1));
    events := EnterServer(cfg, events, s3);
    var s4 := s3.(phase := Moving([A, B], true, 1));
    hide CameIn;
    FirstMove(cfg, s4);
    events := MovesToNew(cfg, events, s4, A);
    var s5 := MovedToNew(cfg, s4, A);
    hide MovedToNew;
    events := MovesToNew(cfg, events, s5, A);
    SecondMove(cfg, s5);
    RanMeans(cfg, events, MovedToNew(cfg, s5, A));
  }

  predicate TwoFromC(l: Log) {
    |l.accepted| == 2 && forall id | 0 <= id < 2 :: l.accepted[id].on == A && l.accepted[id].from == C
  }

  lemma {:induction false} FirstMove(cfg: Config, s: State)
    requires Due(s, A) && s.epts[A].recving && |s.epts[A].recvQ| == 2 && s.newKeys == {} && C !in s.epts
    requires s.epts[A].recvQ[0].id == 0 && s.epts[A].recvQ[0].peer == C
    requires TwoFromC(s.log) && s.log.place == [InRecvQ, InRecvQ]
    ensures var s' := MovedToNew(cfg, s, A);
            && A in s'.epts && s'.epts[A] == TakeHead(s.epts[A], s.now) && C in s'.newKeys
            && s'.log.accepted == s.log.accepted && s'.log.place == [InSendQ, InRecvQ] && s'.phase == s.phase && s'.now == s.now
            && s'.clock == s.clock
  {
    hide TakeHead, NewEpt, NewBuffer;
  }

  lemma {:induction false} SecondMove(cfg: Config, s: State)
    requires A in s.epts && s.epts[A].recvQ != []
    requires s.epts[A].recvQ[0].id == 1 && s.epts[A].recvQ[0].peer == C
    requires TwoFromC(s.log) && s.log.place == [InSendQ, InRecvQ]
    ensures var s' := MovedToNew(cfg, s, A);
            s'.log.accepted == s.log.accepted && s'.log.place == [Lost(Overwritten), InSendQ]
  {
    hide TakeHead, NewEpt, NewBuffer;
  }
}
