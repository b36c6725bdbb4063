/**
 The classes UdpEndpointProxy and UdpProxyServer of src/udp_proxy.cpp as objects updated in place, proved to change as
 the functions of module Udp say. The server keeps the two maps of the program, the table and the endpoints created in
 the current pass, so the merge of the two at line 257 is proved to meet no key twice.
 */
module UdpObjects {
  import opened Base
  import opened TokenBucket
  import opened Udp
  import UdpTheorems

  class UdpEndpointProxy {
    const dst: Addr
    const rule: Rule
    const serverFlag: bool
    const hasClientIp: bool
    var activeTm: int
    var recvBuf: BufId
    var recvSrc: Addr
    var recvQueue: seq<Dgram>
    var sendQueue: seq<Dgram>
    var recvAvailBytes: int
    var sendAvailBytes: int
    var recvingFlag: bool

    // the socket: whether it is open, and its receives that are waiting or not yet handled
    var open: bool
    var recvs: seq<RecvOp>

    ghost var recvLedger: Ledger
    ghost var sendLedger: Ledger
    const sentBefore: nat
    const takenBefore: nat

    /** The endpoint as a value. */
    ghost function Value(): Ept
      reads this
    {
      Ept(dst, rule, serverFlag, hasClientIp, open, activeTm, recvBuf, recvSrc, recvQueue, sendQueue,
          recvAvailBytes, sendAvailBytes, recvingFlag, recvs, recvLedger, sendLedger, sentBefore, takenBefore)
    }

    constructor (dst: Addr, rule: Rule, server: bool, hasIp: bool, o: Opening, t: int, buf: BufId, log: Log)
      ensures Value() == NewEpt(dst, rule, server, hasIp, o, t, buf, log) && this.dst == dst
    {
      this.dst, this.rule, serverFlag, hasClientIp := dst, rule, server, hasIp;
      activeTm, recvBuf, recvSrc, recvQueue, sendQueue := 0, buf, NOBODY, [], [];
      recvAvailBytes, sendAvailBytes, recvingFlag, open, recvs := 0, 0, true, false, [];
      recvLedger, sendLedger, sentBefore, takenBefore := NEW_LEDGER, NEW_LEDGER, |log.sent|, |log.taken|;
      new;
      InitSocket(o, t);
    }

    /** Lines 26-51. */
    method InitSocket(o: Opening, t: int)
      modifies this
      ensures Value() == Udp.Init(old(Value()), o, t)
    {
      if o == Shut {
        return;
      }
      open := true;
      if o == Unbound {
        return;
      }
      AsyncRecv();
      activeTm := t;
    }

    method AsyncRecv()
      modifies this
      ensures Value() == Udp.AsyncRecv(old(Value()))
    {
      recvs := recvs + [RecvOp(recvBuf, if open then Waiting else Broken)];
    }

    /** Closing the socket ends the receives that wait; those that had ended keep their result. */
    method StopSocket()
      modifies this
      ensures Value() == Udp.Stop(old(Value()))
    {
      open := false;
      recvs := Ended(recvs);
      activeTm := 0;
    }

    method StopAndInit(o: Opening, t: int)
      modifies this
      ensures Value() == Break(old(Value()), o, t)
    {
      hide Udp.Init, Udp.Stop;
      StopSocket();
      if serverFlag {
        InitSocket(o, t);
      }
    }

    /** The socket's part: a datagram comes in, or a receive fails. */
    method Arrival(j: nat, from: Addr, payload: seq<Byte>)
      requires j < |recvs|
      modifies this
      ensures Value() == Got(old(Value()), j, from, payload)
    {
      recvSrc := from;
      recvs := recvs[j := recvs[j].(progress := Arrived(|payload|, from, payload))];
    }

    method Failure(j: nat, refused: bool)
      requires j < |recvs|
      modifies this
      ensures Value() == Lose(old(Value()), j, refused)
    {
      recvs := recvs[j := recvs[j].(progress := if refused then Refused else Broken)];
    }

    /** The handler of receive j begins. */
    method Take(j: nat) returns (op: RecvOp)
      requires j < |recvs|
      modifies this
      ensures Value() == Finish(old(Value()), j) && op == old(recvs)[j]
    {
      op := recvs[j];
      recvs := recvs[..j] + recvs[j + 1..];
    }

    /** What is recorded when the handler of receive j queues its datagram. */
    lemma {:induction false} EntryIs(j: nat, t: int, roll: int)
      requires j < |recvs| && recvs[j].progress.Arrived?
      ensures var p := recvs[j].progress;
              && |Value().recvs| == |recvs| && Value().recvs[j].progress == p
              && Entry(Value(), dst, j, t) == Accepted(dst, recvSrc, recvBuf, p.size, p.sender, p.data, t, t + rule.delay)
              && (Dropped(Value(), roll) <==> rule.drop > 0 && roll <= rule.drop)
    {
    }

    /** Lines 96-118; `roll` is the random number of line 100, `buf` the buffer of the next message. */
    method HandleRecv(j: nat, t: int, roll: int, id: nat, buf: BufId)
      requires j < |recvs| && recvs[j].progress.Arrived?
      modifies this
      ensures Value() == Handled(old(Value()), j, t, roll, id, buf) && sendQueue == old(sendQueue)
    {
      hide Udp.AsyncRecv, Finish;
      var op := Take(j);
      activeTm := t;
      if rule.drop > 0 && roll <= rule.drop {
        AsyncRecv();
        return;
      }
      recvQueue := recvQueue + [Dgram(id, recvBuf, op.progress.size, activeTm + rule.delay, recvSrc)];
      recvBuf, recvSrc := buf, NOBODY;
      if |recvQueue| > MAX_UDP_MSG_QUEUE_SIZE {
        recvingFlag := false;
        return;
      }
      AsyncRecv();
    }

    /** Lines 76-94. */
    method HandleRecvError(j: nat, t: int, o: Opening)
      requires j < |recvs|
      modifies this
      ensures Value() == Errored(old(Value()), j, t, o)
    {
      hide Udp.AsyncRecv, Finish, Break;
      var op := Take(j);
      if op.progress == Refused {
        AsyncRecv();
      } else {
        StopAndInit(o, t);
      }
    }

    /** Lines 179-190. */
    method Refill(interval: int)
      modifies this
      ensures Value() == RefillBoth(old(Value()), interval * rule.bandwidth / 1000)
    {
      if !serverFlag && rule.bandwidth > 0 {
        var bytes := interval * rule.bandwidth / 1000;
        if recvAvailBytes < 0 {
          recvLedger := Refilled(recvLedger, recvAvailBytes, bytes);
          recvAvailBytes := recvAvailBytes + bytes;
        }
        if sendAvailBytes < 0 {
          sendLedger := Refilled(sendLedger, sendAvailBytes, bytes);
          sendAvailBytes := sendAvailBytes + bytes;
        }
      }
    }

    /** Lines 230-234. */
    method MarkActive(t: int)
      modifies this
      ensures Value() == Touch(old(Value()), t)
    {
      if activeTm != 0 {
        activeTm := t;
      }
    }

    /** Lines 236-240: the address is overwritten with that of the endpoint the datagram came in on. */
    method Enqueue(m: Dgram, k: Addr) returns (taken: bool)
      modifies this
      ensures taken == (|old(sendQueue)| < MAX_UDP_MSG_QUEUE_SIZE)
      ensures Value() == if taken then Deliver(old(Value()), m, k) else old(Value())
    {
      taken := |sendQueue| < MAX_UDP_MSG_QUEUE_SIZE;
      if taken {
        sendQueue := sendQueue + [m.(peer := k)];
      }
    }

    /** Lines 241-250. */
    method PopReceived(now: int)
      requires recvQueue != []
      modifies this
      ensures Value() == TakeHead(old(Value()), now)
    {
      hide Udp.AsyncRecv;
      if !serverFlag && rule.bandwidth > 0 {
        recvLedger := Charged(recvLedger, Cost(recvQueue[0]), now);
        recvAvailBytes := recvAvailBytes - (recvQueue[0].size + UDP_PACKET_EXTRA_OVERHEAD);
      }
      recvQueue := recvQueue[1..];
      if !recvingFlag {
        recvingFlag := true;
        AsyncRecv();
      }
    }

    /** Lines 296-300. */
    method PopSent(now: int)
      requires sendQueue != []
      modifies this
      ensures Value() == SendHead(old(Value()), now)
    {
      if !serverFlag && rule.bandwidth > 0 {
        sendLedger := Charged(sendLedger, Cost(sendQueue[0]), now);
        sendAvailBytes := sendAvailBytes - (sendQueue[0].size + UDP_PACKET_EXTRA_OVERHEAD);
      }
      sendQueue := sendQueue[1..];
    }
  }

  class UdpProxyServer {
    const cfg: Config
    var endpoints: map<Addr, UdpEndpointProxy>
    var newEpts: map<Addr, UdpEndpointProxy>
    var lastFlush: int
    ghost var phase: Phase

    // the surroundings: the clock, the buffers of all messages, the clients' own budgets, and how the program died
    var clock: int
    var memory: seq<seq<Byte>>
    var ips: map<nat, Pair<int>>
    var clash: bool
    var nullBudget: bool

    /** History: what was accepted, where it is, what was sent, what was taken. */
    var log: Log

    ghost predicate Valid()
      reads this, endpoints.Values, newEpts.Values
    {
      && endpoints.Keys !! newEpts.Keys
      && (forall k <- endpoints :: endpoints[k].dst == k)
      && (forall k <- newEpts :: newEpts[k].dst == k)
    }

    /** All the endpoints as values. */
    ghost function Table(): map<Addr, Ept>
      reads this, endpoints.Values, newEpts.Values
    {
      map k | k in endpoints.Keys + newEpts.Keys :: if k in endpoints then endpoints[k].Value() else newEpts[k].Value()
    }

    /** One endpoint, of either map, has changed. */
    twostate lemma OneChanged(ept: UdpEndpointProxy)
      requires old(Valid()) && endpoints == old(endpoints) && newEpts == old(newEpts) && old(allocated(ept))
      requires Member(ept)
      requires forall k <- endpoints | endpoints[k] != ept :: endpoints[k].Value() == old(endpoints[k].Value())
      requires forall k <- newEpts | newEpts[k] != ept :: newEpts[k].Value() == old(newEpts[k].Value())
      ensures Table() == old(Table())[ept.dst := ept.Value()]
    {
      hide UdpEndpointProxy.Value;
    }

    ghost predicate Member(ept: UdpEndpointProxy)
      reads this
    {
      (ept.dst in endpoints && endpoints[ept.dst] == ept) || (ept.dst in newEpts && newEpts[ept.dst] == ept)
    }

    lemma {:induction false} MemberValue(ept: UdpEndpointProxy)
      requires Valid() && Member(ept)
      ensures ept.dst in Value().epts && Value().epts[ept.dst] == ept.Value()
    {
    }

    ghost function Value(): State
      reads this, endpoints.Values, newEpts.Values
    {
      State(Table(), newEpts.Keys, phase, lastFlush, clock, memory, ips, log, clash, nullBudget)
    }

    constructor (cfg: Config, now: int)
      ensures this.cfg == cfg && Valid() && Value() == Udp.Start([], now) && newEpts == map[] && endpoints == map[]
    {
      this.cfg := cfg;
      endpoints, newEpts, lastFlush, clash, nullBudget := map[], map[], now, false, false;
      phase, clock, memory, ips, log := Resting, now, [], map[], Log([], [], [], []);
    }

    /** A later line for the same destination replaces the endpoint of an earlier one. */
    method AddServerProxy(l: Line)
      requires Valid() && newEpts == map[]
      modifies this`endpoints, this`memory
      ensures Valid() && Value() == WithLine(old(Value()), l)
      ensures fresh(endpoints.Values - old(endpoints.Values))
    {
      var ept := new UdpEndpointProxy(l.dst, l.rule, l.srcPort != 0, false, l.o, lastFlush, |memory|, log);
      hide UdpEndpointProxy.Value, NewEpt, NewBuffer;
      endpoints := endpoints[l.dst := ept];
      memory := memory + [NewBuffer()];
      assert Table() == old(Table())[l.dst := ept.Value()];
    }

    /** The lines of the configuration, one after the other (src/shared_data.cpp:96-122). */
    static method Configure(cfg: Config, lines: seq<Line>, now: int) returns (server: UdpProxyServer)
      ensures server.cfg == cfg && server.Valid() && server.newEpts == map[] && server.Value() == Udp.Start(lines, now)
    {
      server := new UdpProxyServer(cfg, now);
      hide Udp.Start, WithLine;
      assert lines[..0] == [];
      for i := 0 to |lines|
        invariant fresh(server) && fresh(server.endpoints.Values) && server.cfg == cfg
        invariant server.Valid() && server.newEpts == map[] && server.Value() == Udp.Start(lines[..i], now)
      {
        server.AddServerProxy(lines[i]);
        StartNext(lines, i, now);
      }
      assert lines[..|lines|] == lines;
    }

    static lemma {:induction false} StartNext(lines: seq<Line>, i: nat, now: int)
      requires i < |lines|
      ensures Udp.Start(lines[..i + 1], now) == WithLine(Udp.Start(lines[..i], now), lines[i])
    {
      assert Front(lines[..i + 1]) == lines[..i];
    }

    /** Everything but the endpoints. */
    method Record(clock: int, memory: seq<seq<Byte>>, ips: map<nat, Pair<int>>, log: Log)
      modifies this`clock, this`memory, this`ips, this`log
      ensures Value() == old(Value()).(clock := clock, memory := memory, ips := ips, log := log)
    {
      this.clock, this.memory, this.ips, this.log := clock, memory, ips, log;
      assert Table() == old(Table());
    }

    // ---------------------------------------------------------------- receiving

    method Arrive(ept: UdpEndpointProxy, j: nat, from: Addr, payload: seq<Byte>)
      requires Valid() && Member(ept) && j < |ept.recvs|
      modifies ept, this`clock, this`memory, this`ips, this`log
      ensures Valid() && Value() == HandleArrival(old(Value()), ept.dst, j, from, payload)
      ensures ept.sendQueue == old(ept.sendQueue) && ept.recvQueue == old(ept.recvQueue)
    {
      ghost var s := Value();
      assert Table()[ept.dst] == ept.Value();
      var buf := ept.recvs[j].buf;
      hide Got, Store, Table;
      ept.Arrival(j, from, payload);
      hide UdpEndpointProxy.Value;
      OneChanged(ept);
      Record(clock, Store(memory, buf, payload), ips, log);
    }

    method Fail(ept: UdpEndpointProxy, j: nat, refused: bool)
      requires Valid() && Member(ept) && j < |ept.recvs|
      modifies ept
      ensures Valid() && Value() == HandleFailure(old(Value()), ept.dst, j, refused)
      ensures ept.sendQueue == old(ept.sendQueue) && ept.recvQueue == old(ept.recvQueue)
    {
      assert Table()[ept.dst] == ept.Value();
      hide Lose, Table;
      ept.Failure(j, refused);
      hide UdpEndpointProxy.Value;
      OneChanged(ept);
    }

    /** The receive handler of an endpoint. */
    method Receive(ept: UdpEndpointProxy, j: nat, t: int, roll: int)
      requires Valid() && Member(ept) && j < |ept.recvs| && ept.recvs[j].progress.Arrived?
      modifies ept, this`clock, this`memory, this`ips, this`log
      ensures Valid() && Value() == HandleRecv(old(Value()), ept.dst, j, t, roll)
      ensures ept.sendQueue == old(ept.sendQueue)
    {
      hide Handled, Dropped, Table, Entry, NewBuffer, UdpEndpointProxy.Value;
      MemberValue(ept);
      ept.EntryIs(j, t, roll);
      var p := ept.recvs[j].progress;
      var dropped := ept.rule.drop > 0 && roll <= ept.rule.drop;
      var a := Accepted(ept.dst, ept.recvSrc, ept.recvBuf, p.size, p.sender, p.data, t, t + ept.rule.delay);
      ept.HandleRecv(j, t, roll, |log.accepted|, |memory|);
      OneChanged(ept);
      Record(t, if dropped then memory else memory + [NewBuffer()], ips,
             if dropped then log else log.(accepted := log.accepted + [a], place := log.place + [InRecvQ]));
    }

    method ReceiveError(ept: UdpEndpointProxy, j: nat, t: int, o: Opening)
      requires Valid() && Member(ept) && j < |ept.recvs|
      modifies ept, this`clock, this`memory, this`ips, this`log
      ensures Valid() && Value() == HandleRecvError(old(Value()), ept.dst, j, t, o)
      ensures ept.sendQueue == old(ept.sendQueue) && ept.recvQueue == old(ept.recvQueue)
    {
      assert Table()[ept.dst] == ept.Value();
      hide Errored, Table;
      ept.HandleRecvError(j, t, o);
      hide UdpEndpointProxy.Value;
      OneChanged(ept);
      Record(t, memory, ips, log);
    }

    // ---------------------------------------------------------------- turns of the routine thread

    ghost predicate Visiting(k: Addr)
      reads this
    {
      phase.Moving? && phase.todo != [] && phase.todo[0] == k && k in endpoints
    }

    ghost method SetPhase(phase: Phase)
      requires Valid()
      modifies this`phase
      ensures Valid() && Value() == old(Value()).(phase := phase) && this.phase == phase
    {
      this.phase := phase;
      assert Table() == old(Table());
    }

    method Erase(k: Addr)
      requires Valid() && Visiting(k)
      modifies this`endpoints, this`log
      ensures Valid() && endpoints == old(endpoints) - {k}
      ensures Value() == old(Value()).(epts := old(Value()).epts - {k}, log := LoseAll(old(log), k, Erased))
    {
      hide LoseAll, UdpEndpointProxy.Value;
      endpoints := endpoints - {k};
      log := LoseAll(log, k, Erased);
      assert Table() == old(Table()) - {k};
    }

    method RefillBudgets(k: Addr, interval: int)
      requires Valid() && Visiting(k)
      modifies endpoints[k]
      ensures Valid()
      ensures var s, e := old(Value()), old(endpoints[k].Value());
              Value() == s.(epts := s.epts[k := RefillBoth(e, interval * e.rule.bandwidth / 1000)])
      ensures endpoints[k].sendQueue == old(endpoints[k].sendQueue)
    {
      hide RefillBoth, Table;
      endpoints[k].Refill(interval);
      hide UdpEndpointProxy.Value;
      OneChanged(endpoints[k]);
    }

    /** Lines 170-190: an endpoint that is stopped or idle leaves the table, any other gets its refills. */
    method Visit(k: Addr, interval: int) returns (alive: bool)
      requires Valid() && Visiting(k) && !phase.entered && phase.interval == interval
      modifies this`endpoints, this`phase, this`log, endpoints[k]
      ensures Valid() && Value() == EnterEpt(cfg, old(Value()))
      ensures endpoints == if alive then old(endpoints) else old(endpoints) - {k}
      ensures phase == if alive then old(phase).(entered := true) else old(phase).(todo := old(phase).todo[1..], entered := false)
    {
      var ept := endpoints[k];
      var gone := ept.activeTm == 0 || (ept.activeTm < lastFlush - cfg.timeout && !ept.serverFlag);
      assert Expired(cfg, Value().epts[k], lastFlush) == gone && Table()[k] == ept.Value();
      hide Expired, LoseAll, RefillBoth, UdpEndpointProxy.Value, Table, Valid;
      if gone {
        Erase(k);
        SetPhase(Moving(phase.todo[1..], false, phase.interval));
      } else {
        RefillBudgets(k, interval);
        SetPhase(Moving(phase.todo, true, phase.interval));
      }
      alive := !gone;
    }

    /** Lines 236-240 for an endpoint of the table. */
    method PushTo(sender: UdpEndpointProxy, m: Dgram, k: Addr) returns (taken: bool)
      requires Valid() && Member(sender)
      modifies sender
      ensures Valid()
      ensures var s, e := old(Value()), old(sender.Value());
              && taken == (|e.sendQ| < MAX_UDP_MSG_QUEUE_SIZE)
              && Value() == if taken then s.(epts := s.epts[sender.dst := Deliver(e, m, k)]) else s
    {
      assert Table()[sender.dst] == sender.Value();
      hide Deliver, Table;
      taken := sender.Enqueue(m, k);
      hide UdpEndpointProxy.Value;
      OneChanged(sender);
    }

    /** Lines 241-250. */
    method PopFrom(k: Addr)
      requires Valid() && k in endpoints && endpoints[k].recvQueue != []
      modifies endpoints[k]
      ensures Valid()
      ensures endpoints[k].recvQueue == old(endpoints[k].recvQueue)[1..]
      ensures var s, e := old(Value()), old(endpoints[k].Value());
              Value() == s.(epts := s.epts[k := TakeHead(e, s.now)])
    {
      assert TakeHead(endpoints[k].Value(), lastFlush).recvQ == endpoints[k].recvQueue[1..];
      hide TakeHead, Table;
      endpoints[k].PopReceived(lastFlush);
      hide UdpEndpointProxy.Value;
      OneChanged(endpoints[k]);
    }

    lemma {:induction false} QueueIs(k: Addr)
      requires Valid() && k in endpoints
      ensures endpoints[k].dst == k && endpoints[k].Value().recvQ == endpoints[k].recvQueue
    {
    }

    /** Lines 236-250 when the sender's endpoint is in the table. */
    method ForwardTo(k: Addr, sender: UdpEndpointProxy)
      requires Valid() && Visiting(k) && Member(sender) && sender.dst != k && endpoints[k].recvQueue != []
      modifies endpoints[k], sender, this`log, this`clock, this`memory, this`ips
      ensures Valid() && Value() == Forward(old(Value()), k, sender.dst)
      ensures endpoints[k].recvQueue == old(endpoints[k].recvQueue)[1..]
    {
      VisitedIs(k);
      MemberValue(sender);
      QueueIs(k);
      hide Valid, Table, Value, UdpEndpointProxy.Value, Deliver, TakeHead, Pass;
      var m := endpoints[k].recvQueue[0];
      var taken := PushTo(sender, m, k);
      PassFrom(k, if taken then InSendQ else Lost(QueueFull));
    }

    /** Lines 241-250, with what becomes of the datagram. */
    method PassFrom(k: Addr, p: Place)
      requires Valid() && k in endpoints && endpoints[k].recvQueue != []
      modifies endpoints[k], this`log, this`clock, this`memory, this`ips
      ensures Valid() && endpoints[k].recvQueue == old(endpoints[k].recvQueue)[1..]
      ensures var s, e := old(Value()), old(endpoints[k].Value());
              && e.recvQ == old(endpoints[k].recvQueue)
              && Value() == s.(epts := s.epts[k := TakeHead(e, s.now)], log := Pass(s.log, e.recvQ[0], k, p))
    {
      QueueIs(k);
      hide Valid, Table, UdpEndpointProxy.Value, TakeHead, Pass;
      var m := endpoints[k].recvQueue[0];
      PopFrom(k);
      Record(clock, memory, ips, Pass(log, m, k, p));
    }

    /** Lines 227-234. */
    method Find(x: Addr) returns (sender: UdpEndpointProxy)
      requires Valid() && x in endpoints
      modifies endpoints[x]
      ensures Valid() && sender == endpoints[x] && sender.recvQueue == old(endpoints[x].recvQueue)
      ensures Value() == old(Value()).(epts := old(Value()).epts[x := Touch(old(endpoints[x].Value()), lastFlush)])
    {
      sender := endpoints[x];
      assert Table()[x] == sender.Value();
      hide Touch, Table;
      sender.MarkActive(lastFlush);
      hide UdpEndpointProxy.Value;
      OneChanged(sender);
    }

    /** Lines 216-225: a new endpoint that cannot be opened is not kept. */
    method New(x: Addr, rule: Rule, o: Opening, t: int) returns (sender: UdpEndpointProxy)
      requires Valid() && x !in endpoints
      modifies this`newEpts, this`clock, this`log, this`memory
      ensures Valid() && fresh(sender) && sender.dst == x
      ensures newEpts == if o == Bound then old(newEpts)[x := sender] else old(newEpts)
      ensures Value() == if o == Bound then Create(cfg, old(Value()), x, rule, t) else old(Value())
    {
      hide LoseAll, NewEpt, UdpEndpointProxy.Value;
      sender := new UdpEndpointProxy(x, rule, false, cfg.ipLimit != Pair(0, 0), o, t, |memory|, log);
      assert Table() == old(Table());
      hide Table;
      if o == Bound {
        Keep(sender, x, t);
      }
    }

    /** Line 224. */
    method Keep(sender: UdpEndpointProxy, x: Addr, t: int)
      requires Valid() && sender.dst == x && x !in endpoints
      modifies this`newEpts, this`clock, this`log, this`memory
      ensures Valid() && newEpts == old(newEpts)[x := sender]
      ensures var s := old(Value());
              Value() == s.(epts := s.epts[x := sender.Value()], newKeys := s.newKeys + {x}, clock := t,
                            memory := s.memory + [NewBuffer()], log := LoseAll(s.log, x, Overwritten))
    {
      hide LoseAll, UdpEndpointProxy.Value, NewBuffer;
      newEpts := newEpts[x := sender];
      assert Table() == old(Table())[x := sender.Value()];
      clock, log, memory := t, LoseAll(log, x, Overwritten), memory + [NewBuffer()];
    }

    /** Lines 236-250 for a new endpoint that is not kept: what is queued there goes with it. */
    method DropWith(k: Addr, sender: UdpEndpointProxy, t: int)
      requires Valid() && Visiting(k) && sender !in endpoints.Values && sender !in newEpts.Values && endpoints[k].recvQueue != []
      modifies endpoints[k], sender, this`log, this`clock, this`memory, this`ips
      ensures Valid() && endpoints[k].recvQueue == old(endpoints[k].recvQueue)[1..]
      ensures Value() == LoseHead(old(Value()), k, t)
    {
      hide TakeHead, Pass;
      var m := endpoints[k].recvQueue[0];
      assert m == endpoints[k].Value().recvQ[0] && Table()[k] == endpoints[k].Value();
      hide UdpEndpointProxy.Value;
      var taken := sender.Enqueue(m, k);
      assert Table() == old(Table());
      hide Table;
      PopFrom(k);
      Record(t, memory, ips, Pass(log, m, k, Lost(OpenFailed)));
    }

    method MoveKnown(k: Addr, x: Addr)
      requires Valid() && Visiting(k) && x in endpoints && x != k && endpoints[k].recvQueue != []
      modifies endpoints[k], endpoints[x], this`log, this`clock, this`memory, this`ips
      ensures Valid() && endpoints[k].recvQueue == old(endpoints[k].recvQueue)[1..]
      ensures var s := old(Value());
              Value() == Forward(s.(epts := s.epts[x := Touch(s.epts[x], s.now)]), k, x)
    {
      assert Table()[x] == endpoints[x].Value();
      hide Table, UdpEndpointProxy.Value, Forward, Touch;
      var sender := Find(x);
      ForwardTo(k, sender);
    }

    method MoveNew(k: Addr, x: Addr, o: Opening, t: int)
      requires Valid() && Visiting(k) && x !in endpoints && endpoints[k].recvQueue != []
      modifies endpoints[k], this`newEpts, this`log, this`clock, this`memory, this`ips
      ensures Valid() && endpoints[k].recvQueue == old(endpoints[k].recvQueue)[1..]
      ensures fresh(newEpts.Values - old(newEpts.Values))
      ensures var s, e := old(Value()), old(endpoints[k].Value());
              Value() == if o == Bound then Forward(Create(cfg, s, x, e.rule, t), k, x) else LoseHead(s, k, t)
    {
      var ept := endpoints[k];
      assert Table()[k] == ept.Value();
      hide Table, Forward, Create, LoseHead, TakeHead, Pass;
      var sender := New(x, ept.rule, o, t);
      if o == Bound {
        ForwardTo(k, sender);
      } else {
        DropWith(k, sender, t);
      }
    }

    /** Lines 214-250: the head of the queue moves on. */
    method MoveDue(k: Addr, o: Opening, t: int)
      requires Valid() && Visiting(k) && endpoints[k].recvQueue != [] && endpoints[k].recvQueue[0].peer != k
      modifies endpoints.Values, this`newEpts, this`log, this`clock, this`memory, this`ips
      ensures Valid() && endpoints[k].recvQueue == old(endpoints[k].recvQueue)[1..]
      ensures fresh(newEpts.Values - old(newEpts.Values)) && phase == old(phase)
      ensures Value() == MoveOn(cfg, old(Value()), k, o, t)
    {
      var ept := endpoints[k];
      var x := ept.recvQueue[0].peer;
      assert Table()[k] == ept.Value() && (Known(Value(), x) <==> x in endpoints);
      hide Table, Forward, Create, LoseHead, TakeHead, Pass, Touch, Known;
      if x in endpoints {
        MoveKnown(k, x);
      } else {
        MoveNew(k, x, o, t);
      }
    }

    /** Lines 201-213 and 268-280: ask the client's own budget, if it is limited, and charge it. */
    method AskIp(k: Addr, i: Side, amount: int) returns (ok: bool)
      requires Valid() && k in endpoints
      modifies this`nullBudget, this`ips
      ensures var s, e := old(Value()), old(endpoints[k].Value());
              var limited := !e.server && cfg.ipLimit.At(i) > 0;
              && ok == (limited ==> e.hasIp && Balance(s.ips, k, i) >= 0)
              && Value() == s.(ips := if ok then ChargeIp(cfg, s.ips, e, k, i, amount) else s.ips,
                               nullBudget := s.nullBudget || (limited && !e.hasIp))
    {
      var ept := endpoints[k];
      ok := true;
      if !ept.serverFlag && cfg.ipLimit.At(i) > 0 {
        if !ept.hasClientIp {
          nullBudget := true;
          ok := false;
        } else if Balance(ips, k, i) >= 0 {
          ips := ips[k.ip := (if k.ip in ips then ips[k.ip] else Pair(0, 0)).With(i, Balance(ips, k, i) - amount)];
        } else {
          ok := false;
        }
      }
      assert Table() == old(Table());
    }

    /** The conditions at lines 192-213, and the charge to the client's own budget. */
    method MayTake(k: Addr) returns (may: bool)
      requires Valid() && Visiting(k)
      modifies this`clash, this`nullBudget, this`ips
      ensures var s, e := old(Value()), old(endpoints[k].Value());
              && may == MayMove(cfg, s, e, k)
              && Value() == if may then PayMove(cfg, s, k) else Unmoved(s, e, k)
      ensures Valid() && (may ==> endpoints[k].recvQueue != [] && endpoints[k].recvQueue[0].peer != k)
    {
      var ept := endpoints[k];
      assert Table()[k] == ept.Value();
      may := ept.recvQueue != [] && ept.recvAvailBytes >= 0;
      if may && ept.recvQueue[0].peer == k {
        SetClash();
        may := false;
      } else if may && ept.recvQueue[0].time <= lastFlush {
        hide Table, ChargeIp;
        may := AskIp(k, 1, ept.recvQueue[0].size + UDP_PACKET_EXTRA_OVERHEAD);
      } else {
        may := false;
      }
    }

    method SetClash()
      modifies this`clash
      ensures Value() == old(Value()).(clash := true)
    {
      clash := true;
      assert Table() == old(Table());
    }

    /** Line 253: on to the next endpoint. */
    ghost method EndTurn()
      requires Valid() && phase.Moving? && phase.todo != []
      modifies this`phase
      ensures Valid() && phase == old(phase).(todo := old(phase).todo[1..], entered := false)
      ensures Value() == old(Value()).(phase := phase)
    {
      SetPhase(Moving(phase.todo[1..], false, phase.interval));
    }

    /** What MayTake leaves when nothing may be taken. */
    ghost function Unmoved(s: State, e: Ept, k: Addr): State {
      s.(clash := s.clash || Clash(e, k), nullBudget := s.nullBudget || NullBudget(cfg, s, e, k))
    }

    lemma {:induction false} MoveHeadIs(s: State, e: Ept, k: Addr, o: Opening, t: int)
      requires s.phase.Moving? && s.phase.todo != [] && s.phase.todo[0] == k && k in s.epts && e == s.epts[k]
      ensures MayMove(cfg, s, e, k) ==> MoveHead(cfg, s, o, t) == MoveOn(cfg, PayMove(cfg, s, k), k, o, t)
      ensures !MayMove(cfg, s, e, k) ==>
                MoveHead(cfg, s, o, t) == Unmoved(s, e, k).(phase := s.phase.(todo := s.phase.todo[1..], entered := false))
    {
      hide MayMove, MoveOn, Clash, NullBudget;
    }

    lemma {:induction false} VisitedIs(k: Addr)
      requires Valid() && Visiting(k)
      ensures Value().phase == phase && k in Value().epts && Value().epts[k] == endpoints[k].Value()
    {
    }

    /** One turn of the loop at lines 192-251; the first one that moves nothing ends it. */
    method MoveOne(k: Addr, o: Opening, t: int) returns (more: bool)
      requires Valid() && Visiting(k) && phase.entered
      modifies endpoints.Values, this`clash, this`nullBudget, this`phase, this`newEpts, this`log, this`clock, this`memory, this`ips
      ensures Valid() && Value() == MoveHead(cfg, old(Value()), o, t)
      ensures fresh(newEpts.Values - old(newEpts.Values))
      ensures phase == if more then old(phase) else old(phase).(todo := old(phase).todo[1..], entered := false)
      ensures more ==> |endpoints[k].recvQueue| < |old(endpoints[k].recvQueue)|
    {
      VisitedIs(k);
      MoveHeadIs(Value(), endpoints[k].Value(), k, o, t);
      hide Valid, Table, Value, MoveHead, Unmoved, MoveOn, PayMove, MayMove, UdpEndpointProxy.Value;
      more := MayTake(k);
      MoveOrEnd(k, more, o, t);
    }

    method MoveOrEnd(k: Addr, more: bool, o: Opening, t: int)
      requires Valid() && Visiting(k)
      requires more ==> endpoints[k].recvQueue != [] && endpoints[k].recvQueue[0].peer != k
      modifies endpoints.Values, this`phase, this`newEpts, this`log, this`clock, this`memory, this`ips
      ensures Valid() && fresh(newEpts.Values - old(newEpts.Values))
      ensures phase == if more then old(phase) else old(phase).(todo := old(phase).todo[1..], entered := false)
      ensures more ==> |endpoints[k].recvQueue| < |old(endpoints[k].recvQueue)|
      ensures Value() == if more then MoveOn(cfg, old(Value()), k, o, t) else old(Value()).(phase := phase)
    {
      VisitedIs(k);
      hide Valid, Table, Value, MoveOn, UdpEndpointProxy.Value;
      if more {
        MoveDue(k, o, t);
      } else {
        EndTurn();
      }
    }

    ghost predicate SendingTo(k: Addr)
      reads this
    {
      phase.Sending? && phase.todo != [] && phase.todo[0] == k && k in endpoints
    }

    /** The conditions at lines 264-280, and the charge to the client's own budget. */
    method MayGive(k: Addr) returns (may: bool)
      requires Valid() && k in endpoints
      modifies this`nullBudget, this`ips
      ensures var s, e := old(Value()), old(endpoints[k].Value());
              && may == MaySend(cfg, s, e, k)
              && Value() == if may then PaySend(cfg, s, k) else s.(nullBudget := s.nullBudget || NullSendBudget(cfg, e))
      ensures may ==> endpoints[k].sendQueue != []
    {
      var ept := endpoints[k];
      assert Table()[k] == ept.Value();
      may := ept.sendQueue != [] && ept.sendAvailBytes >= 0;
      if may {
        hide Table, ChargeIp;
        may := AskIp(k, 0, ept.sendQueue[0].size + UDP_PACKET_EXTRA_OVERHEAD);
      }
    }

    /** Lines 286-294. */
    method SendFails(k: Addr, o: Opening, t: int)
      requires Valid() && SendingTo(k)
      modifies endpoints[k], this`phase, this`log, this`clock, this`memory, this`ips
      ensures Valid() && phase == Sending(old(phase).todo[1..], false)
      ensures var s, e := old(Value()), old(endpoints[k].Value());
              Value() == s.(epts := s.epts[k := Break(e, o, t)], clock := t, phase := Sending(s.phase.todo[1..], false))
    {
      hide Table, Break, UdpEndpointProxy.Value;
      endpoints[k].StopAndInit(o, t);
      OneChanged(endpoints[k]);
      SetPhase(Sending(phase.todo[1..], false));
      Record(t, memory, ips, log);
    }

    /** Lines 296-300. */
    method SendSucceeds(k: Addr)
      requires Valid() && SendingTo(k) && endpoints[k].sendQueue != []
      modifies endpoints[k], this`phase, this`log, this`clock, this`memory, this`ips
      ensures Valid() && endpoints[k].sendQueue == old(endpoints[k].sendQueue)[1..] && phase == Sending(old(phase).todo, true)
      ensures var s, e := old(Value()), old(endpoints[k].Value());
              Value() == s.(epts := s.epts[k := SendHead(e, s.now)], phase := s.phase.(inLoop := true),
                            log := Depart(s.log, e.sendQ[0], k, Payload(s.memory, e.sendQ[0].buf, e.sendQ[0].size), s.now))
    {
      var ept := endpoints[k];
      var m := ept.sendQueue[0];
      assert SendHead(ept.Value(), lastFlush).sendQ == ept.sendQueue[1..];
      hide Table, SendHead, Depart, Payload;
      ept.PopSent(lastFlush);
      hide UdpEndpointProxy.Value;
      OneChanged(ept);
      SetPhase(Sending(phase.todo, true));
      Record(clock, memory, ips, Depart(log, m, k, Payload(memory, m.buf, m.size), lastFlush));
    }

    /** One turn of the loop at lines 264-301. */
    method GiveOne(k: Addr, sent: bool, o: Opening, t: int) returns (more: bool)
      requires Valid() && SendingTo(k)
      modifies endpoints[k], this`nullBudget, this`phase, this`log, this`clock, this`memory, this`ips
      ensures Valid() && Value() == SendOne(cfg, old(Value()), sent, o, t)
      ensures phase == if more then Sending(old(phase).todo, true) else Sending(old(phase).todo[1..], false)
      ensures more ==> |endpoints[k].sendQueue| < |old(endpoints[k].sendQueue)|
    {
      assert Table()[k] == endpoints[k].Value();
      hide Table, SendHead, Break, Depart, Payload, NullSendBudget, ChargeIp;
      more := MayGive(k);
      if !more {
        SetPhase(Sending(phase.todo[1..], false));
      } else if !sent {
        more := false;
        SendFails(k, o, t);
      } else {
        SendSucceeds(k);
      }
    }

    // ---------------------------------------------------------------- runs

    /** The server got from s0 to where it is by these events, and it keeps its invariant. */
    ghost predicate Ran(s0: State, trace: seq<Event>)
      reads this, endpoints.Values, newEpts.Values
    {
      Valid() && UdpTheorems.Inv(Value()) && Run(cfg, s0, trace) == Some(Value())
    }

    static lemma {:induction false} OneMore(cfg: Config, s0: State, trace: seq<Event>, s: State, ev: Event)
      requires Run(cfg, s0, trace) == Some(s) && UdpTheorems.Inv(s) && Enabled(s, ev)
      ensures Run(cfg, s0, trace + [ev]) == Some(Step(cfg, s, ev)) && UdpTheorems.Inv(Step(cfg, s, ev))
    {
      hide Step, Enabled, UdpTheorems.Inv;
      var s' := UdpTheorems.Chain(cfg, s0, trace, s, ev);
      UdpTheorems.StepInv(cfg, s, ev);
    }

    /** The clock as it is read next. */
    method ReadClock() returns (t: int)
      ensures t >= clock
    {
      t :| t >= clock;
    }

    // ---------------------------------------------------------------- what happens meanwhile

    /** The parts that sockets, their handlers and other users of the clients' budgets leave alone. */
    twostate predicate OthersOnly()
      reads this, endpoints.Values
    {
      && endpoints == old(endpoints) && newEpts == old(newEpts) && phase == old(phase) && lastFlush == old(lastFlush)
      && (forall ept <- endpoints.Values :: ept.sendQueue == old(ept.sendQueue))
      && (phase.Moving? && phase.entered && phase.todo != [] && phase.todo[0] in endpoints ==>
            endpoints[phase.todo[0]].recvQueue == old(endpoints[phase.todo[0]].recvQueue))
    }

    lemma {:induction false} IsReceiving(ept: UdpEndpointProxy, j: nat)
      requires Valid() && Member(ept) && j < |ept.recvs|
      ensures Receiving(Value(), ept.dst, j) && Value().epts[ept.dst] == ept.Value()
    {
      assert Table()[ept.dst] == ept.Value();
    }

    /** An event of the surroundings that is possible now is a step of the run. */
    lemma {:induction false} IsNext(s0: State, before: seq<Event>, ev: Event)
      requires Ran(s0, before) && Enabled(Value(), ev)
      ensures var s' := Step(cfg, Value(), ev);
              Run(cfg, s0, before + [ev]) == Some(s') && UdpTheorems.Inv(s')
    {
      hide Step, Enabled, UdpTheorems.Inv, Run, Value;
      OneMore(cfg, s0, before, Value(), ev);
    }

    /** A datagram arrives at some socket, if there is a receive that waits for it. */
    method SomeArrival(ept: UdpEndpointProxy, j: nat, ghost s0: State, ghost before: seq<Event>) returns (ghost trace: seq<Event>)
      requires Ran(s0, before) && Member(ept) && j < |ept.recvs|
      modifies ept, this`clock, this`memory, this`ips, this`log
      ensures Ran(s0, trace) && ept.sendQueue == old(ept.sendQueue) && ept.recvQueue == old(ept.recvQueue)
    {
      var from: Addr, payload: seq<Byte> := *, *;
      trace := before;
      if ept.recvs[j].progress == Waiting && from != ept.dst && from != NOBODY && |payload| <= UDP_BUFFER_SIZE {
        IsReceiving(ept, j);
        ghost var ev := Event.Arrive(ept.dst, j, from, payload);
        assert Enabled(Value(), ev) && Step(cfg, Value(), ev) == HandleArrival(Value(), ept.dst, j, from, payload);
        hide UdpTheorems.Inv, Run, Value, HandleArrival, Valid, Enabled, Step, Member;
        IsNext(s0, before, ev);
        trace := before + [ev];
        Arrive(ept, j, from, payload);
      }
    }

    method SomeFailure(ept: UdpEndpointProxy, j: nat, ghost s0: State, ghost before: seq<Event>) returns (ghost trace: seq<Event>)
      requires Ran(s0, before) && Member(ept) && j < |ept.recvs|
      modifies ept
      ensures Ran(s0, trace) && ept.sendQueue == old(ept.sendQueue) && ept.recvQueue == old(ept.recvQueue)
    {
      var refused: bool := *;
      trace := before;
      if ept.recvs[j].progress == Waiting {
        IsReceiving(ept, j);
        ghost var ev := Event.Fail(ept.dst, j, refused);
        assert Enabled(Value(), ev) && Step(cfg, Value(), ev) == HandleFailure(Value(), ept.dst, j, refused);
        hide UdpTheorems.Inv, Run, Value, HandleFailure, Valid, Enabled, Step, Member;
        IsNext(s0, before, ev);
        trace := before + [ev];
        Fail(ept, j, refused);
      }
    }

    /** The handler of a datagram runs, unless the routine thread has the endpoint's mutex. */
    method SomeHandler(ept: UdpEndpointProxy, j: nat, locked: bool, ghost s0: State, ghost before: seq<Event>) returns (ghost trace: seq<Event>)
      requires Ran(s0, before) && Member(ept) && j < |ept.recvs| && (locked <==> Locked(Value(), ept.dst))
      modifies ept, this`clock, this`memory, this`ips, this`log
      ensures Ran(s0, trace) && ept.sendQueue == old(ept.sendQueue) && (locked ==> ept.recvQueue == old(ept.recvQueue))
    {
      var roll: int := *;
      var t := ReadClock();
      trace := before;
      if ept.recvs[j].progress.Arrived? && !locked && 1 <= roll <= 10000 {
        HandlerIsNext(ept, j, t, roll, s0, before);
        hide Ran, Run, HandleRecv, UdpTheorems.Inv, Value, Locked;
        RanValid(s0, before);
        trace := before + [Event.Recv(ept.dst, j, t, roll)];
        Receive(ept, j, t, roll);
        RanAgain(s0, trace);
      }
    }

    lemma {:induction false} RanValid(s0: State, trace: seq<Event>)
      requires Ran(s0, trace)
      ensures Valid()
    {
    }

    lemma {:induction false} RanAgain(s0: State, trace: seq<Event>)
      requires Valid() && UdpTheorems.Inv(Value()) && Run(cfg, s0, trace) == Some(Value())
      ensures Ran(s0, trace)
    {
    }

    lemma {:induction false} HandlerIsNext(ept: UdpEndpointProxy, j: nat, t: int, roll: int, s0: State, before: seq<Event>)
      requires Ran(s0, before) && Member(ept) && j < |ept.recvs| && ept.recvs[j].progress.Arrived?
      requires t >= clock && !Locked(Value(), ept.dst) && 1 <= roll <= 10000
      ensures ept.dst in Value().epts && j < |Value().epts[ept.dst].recvs| && Value().epts[ept.dst].recvs[j].progress.Arrived?
      ensures var s' := HandleRecv(Value(), ept.dst, j, t, roll);
              Run(cfg, s0, before + [Event.Recv(ept.dst, j, t, roll)]) == Some(s') && UdpTheorems.Inv(s')
    {
      IsReceiving(ept, j);
      hide UdpTheorems.Inv, Run, HandleRecv, Ran;
      IsNext(s0, before, Event.Recv(ept.dst, j, t, roll));
    }

    method SomeErrorHandler(ept: UdpEndpointProxy, j: nat, locked: bool, ghost s0: State, ghost before: seq<Event>) returns (ghost trace: seq<Event>)
      requires Ran(s0, before) && Member(ept) && j < |ept.recvs| && (locked <==> Locked(Value(), ept.dst))
      modifies ept, this`clock, this`memory, this`ips, this`log
      ensures Ran(s0, trace) && ept.sendQueue == old(ept.sendQueue) && ept.recvQueue == old(ept.recvQueue)
    {
      var o: Opening := *;
      var t := ReadClock();
      var p := ept.recvs[j].progress;
      trace := before;
      if p == Refused || (p == Broken && !locked) {
        ErrorIsNext(ept, j, t, o, s0, before);
        hide Ran, Run, HandleRecvError, UdpTheorems.Inv, Value, Locked;
        RanValid(s0, before);
        trace := before + [Event.RecvFails(ept.dst, j, t, o)];
        ReceiveError(ept, j, t, o);
        RanAgain(s0, trace);
      }
    }

    lemma {:induction false} ErrorIsNext(ept: UdpEndpointProxy, j: nat, t: int, o: Opening, s0: State, before: seq<Event>)
      requires Ran(s0, before) && Member(ept) && j < |ept.recvs| && t >= clock
      requires ept.recvs[j].progress == Refused || (ept.recvs[j].progress == Broken && !Locked(Value(), ept.dst))
      ensures ept.dst in Value().epts && j < |Value().epts[ept.dst].recvs|
      ensures var s' := HandleRecvError(Value(), ept.dst, j, t, o);
              Run(cfg, s0, before + [Event.RecvFails(ept.dst, j, t, o)]) == Some(s') && UdpTheorems.Inv(s')
    {
      IsReceiving(ept, j);
      hide UdpTheorems.Inv, Run, HandleRecvError, Ran;
      IsNext(s0, before, Event.RecvFails(ept.dst, j, t, o));
    }

    /** Others charge or refill the clients' own budgets. */
    method SomeCharge(ghost s0: State, ghost before: seq<Event>) returns (ghost trace: seq<Event>)
      requires Ran(s0, before)
      modifies this`clock, this`memory, this`ips, this`log
      ensures Ran(s0, trace)
    {
      var ips: map<nat, Pair<int>> := *;
      ghost var ev := OthersUseIps(ips);
      assert Enabled(Value(), ev) && Step(cfg, Value(), ev) == Value().(ips := ips);
      hide UdpTheorems.Inv, Run, Value, Enabled, Step;
      IsNext(s0, before, ev);
      trace := before + [ev];
      Record(clock, memory, ips, log);
    }

    method Happens(ept: UdpEndpointProxy, j: nat, which: int, locked: bool, ghost s0: State, ghost before: seq<Event>)
      returns (ghost trace: seq<Event>)
      requires Ran(s0, before) && Member(ept) && j < |ept.recvs| && (locked <==> Locked(Value(), ept.dst))
      modifies ept, this`clock, this`memory, this`ips, this`log
      ensures Ran(s0, trace) && ept.sendQueue == old(ept.sendQueue) && (locked ==> ept.recvQueue == old(ept.recvQueue))
    {
      hide Ran, Locked, Value, Member;
      match which
      case 0 => trace := SomeArrival(ept, j, s0, before);
      case 1 => trace := SomeFailure(ept, j, s0, before);
      case 2 => trace := SomeHandler(ept, j, locked, s0, before);
      case 3 => trace := SomeErrorHandler(ept, j, locked, s0, before);
      case _ => trace := SomeCharge(s0, before);
    }

    /** One thing or another happens at the socket of an endpoint. */
    method SomethingAt(ept: UdpEndpointProxy, locked: bool, ghost s0: State, ghost before: seq<Event>) returns (ghost trace: seq<Event>)
      requires Ran(s0, before) && Member(ept) && (locked <==> Locked(Value(), ept.dst))
      modifies ept, this`clock, this`memory, this`ips, this`log
      ensures Ran(s0, trace) && OthersOnly()
    {
      hide Ran, Locked, Value, Member;
      OnlyKey(ept, s0, before);
      LockedIs(ept.dst);
      var j: int, which: int := *, *;
      trace := before;
      if 0 <= j < |ept.recvs| {
        trace := Happens(ept, j, which, locked, s0, before);
      }
    }

    lemma {:induction false} OnlyKey(ept: UdpEndpointProxy, s0: State, trace: seq<Event>)
      requires Ran(s0, trace) && Member(ept)
      ensures forall a <- endpoints :: endpoints[a] == ept ==> a == ept.dst
    {
    }

    lemma {:induction false} MemberIs(k: Addr, s0: State, trace: seq<Event>)
      requires Ran(s0, trace)
      ensures k in endpoints ==> Member(endpoints[k]) && endpoints[k].dst == k
      ensures k in newEpts ==> Member(newEpts[k]) && newEpts[k].dst == k
    {
    }

    /** The routine thread is inside one of its inner loops. */
    ghost predicate Inside()
      reads this
    {
      (phase.Moving? && phase.entered) || (phase.Sending? && phase.inLoop)
    }

    lemma {:induction false} LockedIs(k: Addr)
      ensures Locked(Value(), k) <==> Inside() && phase.todo != [] && phase.todo[0] == k
    {
    }

    /** Anything that sockets, their handlers and other users of the clients' budgets may do between two steps. */
    method Meanwhile(busy: Option<Addr>, ghost s0: State, ghost before: seq<Event>) returns (ghost trace: seq<Event>)
      requires Ran(s0, before)
      requires busy == if Inside() && phase.todo != [] then Some(phase.todo[0]) else None
      modifies endpoints.Values, newEpts.Values, this`clock, this`memory, this`ips, this`log
      ensures Ran(s0, trace) && OthersOnly()
    {
      var n: int := *;
      trace := before;
      hide Ran, Value, Member, Locked;
      for i := 0 to if n < 0 then 0 else n
        invariant Ran(s0, trace) && OthersOnly()
      {
        var k: Addr := *;
        MemberIs(k, s0, trace);
        LockedIs(k);
        if k in endpoints {
          trace := SomethingAt(endpoints[k], busy == Some(k), s0, trace);
        } else if k in newEpts {
          trace := SomethingAt(newEpts[k], busy == Some(k), s0, trace);
        }
      }
    }

    // ---------------------------------------------------------------- the routine thread, with others at work between its steps

    method VisitNext(k: Addr, interval: int, ghost s0: State, ghost before: seq<Event>) returns (alive: bool, ghost trace: seq<Event>)
      requires Ran(s0, before) && Visiting(k) && !phase.entered && phase.interval == interval
      modifies endpoints.Values, newEpts.Values, this`endpoints, this`phase, this`clock, this`memory, this`ips, this`log
      ensures Ran(s0, trace)
      ensures endpoints == (if alive then old(endpoints) else old(endpoints) - {k}) && newEpts == old(newEpts)
      ensures phase == if alive then old(phase).(entered := true) else old(phase).(todo := old(phase).todo[1..], entered := false)
    {
      hide Ran, EnterEpt, Value;
      trace := Meanwhile(None, s0, before);
      EnterIsNext(k, s0, trace);
      RanValid(s0, trace);
      hide Run, UdpTheorems.Inv, Valid;
      alive := Visit(k, interval);
      trace := trace + [Enter];
      RanAgain(s0, trace);
    }

    lemma {:induction false} EnterIsNext(k: Addr, s0: State, before: seq<Event>)
      requires Ran(s0, before) && Visiting(k) && !phase.entered
      ensures k in Value().epts
      ensures var s' := EnterEpt(cfg, Value()); Run(cfg, s0, before + [Enter]) == Some(s') && UdpTheorems.Inv(s')
    {
      assert k in Table();
      hide UdpTheorems.Inv, Run, EnterEpt, Table;
      IsNext(s0, before, Enter);
    }

    /** One turn of the loop with the answers the surroundings happen to give. */
    method MoveNext(k: Addr, ghost s0: State, ghost before: seq<Event>) returns (more: bool, ghost trace: seq<Event>)
      requires Ran(s0, before) && Visiting(k) && phase.entered
      modifies endpoints.Values, newEpts.Values, this`clash, this`nullBudget, this`phase, this`newEpts, this`log, this`clock, this`memory, this`ips
      ensures Ran(s0, trace) && fresh(newEpts.Values - old(newEpts.Values))
      ensures phase == if more then old(phase) else old(phase).(todo := old(phase).todo[1..], entered := false)
      ensures more ==> |endpoints[k].recvQueue| < |old(endpoints[k].recvQueue)|
    {
      hide Ran, MoveHead, Value;
      trace := Meanwhile(Some(k), s0, before);
      var o: Opening := *;
      var t := ReadClock();
      MoveIsNext(k, s0, trace, o, t);
      RanValid(s0, trace);
      hide Run, UdpTheorems.Inv, Valid;
      more := MoveOne(k, o, t);
      trace := trace + [Move(o, t)];
      RanAgain(s0, trace);
    }

    lemma {:induction false} MoveIsNext(k: Addr, s0: State, before: seq<Event>, o: Opening, t: int)
      requires Ran(s0, before) && Visiting(k) && phase.entered && t >= clock
      ensures k in Value().epts
      ensures var s' := MoveHead(cfg, Value(), o, t);
              Run(cfg, s0, before + [Move(o, t)]) == Some(s') && UdpTheorems.Inv(s')
    {
      assert k in Table();
      hide MoveHead, UdpTheorems.Inv, Run, Table;
      IsNext(s0, before, Move(o, t));
    }

    /** Lines 192-251: move what is due from one receive queue. */
    method MoveQueue(k: Addr, ghost s0: State, ghost before: seq<Event>) returns (ghost trace: seq<Event>)
      requires Ran(s0, before) && Visiting(k) && phase.entered
      modifies endpoints.Values, newEpts.Values, this`clash, this`nullBudget, this`phase, this`newEpts, this`log, this`clock, this`memory, this`ips
      ensures Ran(s0, trace) && fresh(newEpts.Values - old(newEpts.Values))
      ensures phase == old(phase).(todo := old(phase).todo[1..], entered := false)
    {
      trace := before;
      var more := true;
      hide Ran;
      while more
        invariant Ran(s0, trace) && fresh(newEpts.Values - old(newEpts.Values))
        invariant phase == if more then old(phase) else old(phase).(todo := old(phase).todo[1..], entered := false)
        decreases if more then |endpoints[k].recvQueue| + 1 else 0
      {
        more, trace := MoveNext(k, s0, trace);
      }
    }

    /** Lines 170-253. */
    method VisitAndMove(k: Addr, interval: int, ghost s0: State, ghost before: seq<Event>) returns (ghost trace: seq<Event>)
      requires Ran(s0, before) && Visiting(k) && !phase.entered && phase.interval == interval
      modifies endpoints.Values, newEpts.Values, this`endpoints, this`clash, this`nullBudget, this`phase, this`newEpts, this`log, this`clock, this`memory, this`ips
      ensures Ran(s0, trace) && phase == old(phase).(todo := old(phase).todo[1..], entered := false)
      ensures endpoints.Values <= old(endpoints.Values) && fresh(newEpts.Values - old(newEpts.Values))
    {
      hide Ran;
      var alive;
      alive, trace := VisitNext(k, interval, s0, before);
      if alive {
        trace := MoveQueue(k, s0, trace);
      }
    }

    /** Lines 168-255: visit every endpoint of the table. */
    method MoveAll(order: seq<Addr>, interval: int, ghost s0: State, ghost before: seq<Event>) returns (ghost trace: seq<Event>)
      requires Ran(s0, before) && phase == Moving(order, false, interval)
      modifies endpoints.Values, newEpts.Values, this`endpoints, this`clash, this`nullBudget, this`phase, this`newEpts, this`log, this`clock, this`memory, this`ips
      ensures Ran(s0, trace) && phase == Moving([], false, interval)
      ensures endpoints.Values <= old(endpoints.Values) && fresh(newEpts.Values - old(newEpts.Values))
    {
      hide Ran, Visiting;
      trace := before;
      for i := 0 to |order|
        invariant Ran(s0, trace) && phase == Moving(order[i..], false, interval)
        invariant endpoints.Values <= old(endpoints.Values) && fresh(newEpts.Values - old(newEpts.Values))
      {
        NextInTable(order[i], s0, trace);
        trace := VisitAndMove(order[i], interval, s0, trace);
      }
    }

    lemma {:induction false} NextInTable(k: Addr, s0: State, trace: seq<Event>)
      requires Ran(s0, trace) && phase.Moving? && phase.todo != [] && phase.todo[0] == k
      ensures Visiting(k)
    {
      assert k in Table() && k !in newEpts;
    }

    method SendNext(k: Addr, inLoop: bool, ghost s0: State, ghost before: seq<Event>) returns (more: bool, ghost trace: seq<Event>)
      requires Ran(s0, before) && SendingTo(k) && phase.inLoop == inLoop && newEpts == map[]
      modifies endpoints.Values, this`nullBudget, this`phase, this`log, this`clock, this`memory, this`ips
      ensures Ran(s0, trace)
      ensures phase == if more then Sending(old(phase).todo, true) else Sending(old(phase).todo[1..], false)
      ensures more ==> |endpoints[k].sendQueue| < |old(endpoints[k].sendQueue)|
    {
      hide Ran, SendOne, Value;
      trace := Meanwhile(if inLoop then Some(k) else None, s0, before);
      var sent: bool, o: Opening := *, *;
      var t := ReadClock();
      SendIsNext(k, s0, trace, sent, o, t);
      RanValid(s0, trace);
      hide Run, UdpTheorems.Inv, Valid;
      more := GiveOne(k, sent, o, t);
      trace := trace + [Send(sent, o, t)];
      RanAgain(s0, trace);
    }

    lemma {:induction false} SendIsNext(k: Addr, s0: State, before: seq<Event>, sent: bool, o: Opening, t: int)
      requires Ran(s0, before) && SendingTo(k) && t >= clock
      ensures k in Value().epts
      ensures var s' := SendOne(cfg, Value(), sent, o, t);
              Run(cfg, s0, before + [Send(sent, o, t)]) == Some(s') && UdpTheorems.Inv(s')
    {
      assert k in Table();
      hide SendOne, UdpTheorems.Inv, Run, Table;
      IsNext(s0, before, Send(sent, o, t));
    }

    /** Lines 264-301. */
    method SendQueue(k: Addr, ghost s0: State, ghost before: seq<Event>) returns (ghost trace: seq<Event>)
      requires Ran(s0, before) && SendingTo(k) && !phase.inLoop && newEpts == map[]
      modifies endpoints.Values, this`nullBudget, this`phase, this`log, this`clock, this`memory, this`ips
      ensures Ran(s0, trace) && phase == Sending(old(phase).todo[1..], false)
    {
      trace := before;
      var more, inLoop := true, false;
      hide Ran;
      while more
        invariant Ran(s0, trace)
        invariant phase == if more then Sending(old(phase).todo, inLoop) else Sending(old(phase).todo[1..], false)
        decreases if more then |endpoints[k].sendQueue| + 1 else 0
      {
        more, trace := SendNext(k, inLoop, s0, trace);
        inLoop := true;
      }
    }

    /** Lines 260-302. */
    method SendAll(order: seq<Addr>, ghost s0: State, ghost before: seq<Event>) returns (ghost trace: seq<Event>)
      requires Ran(s0, before) && phase == Sending(order, false) && newEpts == map[]
      modifies endpoints.Values, this`nullBudget, this`phase, this`log, this`clock, this`memory, this`ips
      ensures Ran(s0, trace) && phase == Sending([], false)
    {
      trace := before;
      hide Ran;
      for i := 0 to |order|
        invariant Ran(s0, trace) && phase == Sending(order[i..], false)
      {
        NextToSend(order[i], s0, trace);
        trace := SendQueue(order[i], s0, trace);
      }
    }

    lemma {:induction false} NextToSend(k: Addr, s0: State, trace: seq<Event>)
      requires Ran(s0, trace) && phase.Sending? && phase.todo != [] && phase.todo[0] == k && newEpts == map[]
      ensures k in endpoints
    {
      assert k in Table();
    }

    /** The keys of the table in the order in which the loops visit them. */
    method KeysInOrder() returns (order: seq<Addr>)
      ensures NoDuplicates(order) && forall k :: k in endpoints <==> k in order
    {
      order := [];
      var rest := endpoints.Keys;
      while rest != {}
        invariant rest <= endpoints.Keys && NoDuplicates(order)
        invariant forall k :: k in order <==> k in endpoints && k !in rest
      {
        var k :| k in rest;
        order, rest := order + [k], rest - {k};
      }
    }

    /** Lines 156-166. */
    method StartPass(t: int, ghost order: seq<Addr>, ghost s0: State, ghost before: seq<Event>) returns (ghost trace: seq<Event>)
      requires Ran(s0, before) && phase == Resting && newEpts == map[] && t >= clock
      requires NoDuplicates(order) && forall k :: k in endpoints <==> k in order
      modifies this`lastFlush, this`clock, this`phase
      ensures Ran(s0, trace)
      ensures phase == if t <= old(lastFlush) then Resting else Moving(order, false, t - old(lastFlush))
      ensures lastFlush == if t <= old(lastFlush) then old(lastFlush) else t
    {
      hide Ran, Begin, Value;
      BeginIsNext(t, order, s0, before);
      RanValid(s0, before);
      hide Run, UdpTheorems.Inv;
      trace := before + [BeginPass(t, order)];
      Begins(t, order);
      RanAgain(s0, trace);
    }

    method Begins(t: int, ghost order: seq<Addr>)
      requires Valid()
      modifies this`lastFlush, this`clock, this`phase
      ensures Valid() && Value() == Begin(old(Value()), t, order)
      ensures phase == if t <= old(lastFlush) then old(phase) else Moving(order, false, t - old(lastFlush))
      ensures lastFlush == if t <= old(lastFlush) then old(lastFlush) else t
    {
      clock := t;
      if t > lastFlush {
        phase := Moving(order, false, t - lastFlush);
        lastFlush := t;
      }
      assert Table() == old(Table());
    }

    lemma {:induction false} BeginIsNext(t: int, order: seq<Addr>, s0: State, before: seq<Event>)
      requires Ran(s0, before) && phase == Resting && newEpts == map[] && t >= clock
      requires NoDuplicates(order) && forall k :: k in endpoints <==> k in order
      ensures var s' := Begin(Value(), t, order);
              Run(cfg, s0, before + [BeginPass(t, order)]) == Some(s') && UdpTheorems.Inv(s')
    {
      assert IsOrder(Value(), order);
      hide Begin, Run, UdpTheorems.Inv, IsOrder;
      IsNext(s0, before, BeginPass(t, order));
    }

    /** Line 257: the new endpoints join the table; no key of theirs is in it. */
    method Merge()
      requires Valid()
      modifies this`endpoints, this`newEpts
      ensures Valid() && newEpts == map[] && endpoints.Keys == old(Value().epts.Keys)
      ensures old(endpoints).Keys !! old(newEpts).Keys && endpoints == old(endpoints) + old(newEpts)
      ensures Value() == old(Value()).(newKeys := {})
    {
      hide UdpEndpointProxy.Value;
      endpoints, newEpts := endpoints + newEpts, map[];
      assert Table() == old(Table());
    }

    method MergePass(ghost s0: State, ghost before: seq<Event>) returns (order: seq<Addr>, ghost trace: seq<Event>)
      requires Ran(s0, before) && phase.Moving? && phase.todo == []
      modifies this`endpoints, this`newEpts, this`phase
      ensures Ran(s0, trace) && phase == Sending(order, false) && newEpts == map[]
      ensures endpoints == old(endpoints) + old(newEpts)
    {
      ghost var s := Value();
      hide Run, UdpTheorems.Inv, Table, Valid;
      Merge();
      order := KeysInOrder();
      SetPhase(Sending(order, false));
      OneMore(cfg, s0, before, s, EndMoving(order));
      trace := before + [EndMoving(order)];
    }

    method FinishPass(ghost s0: State, ghost before: seq<Event>) returns (ghost trace: seq<Event>)
      requires Ran(s0, before) && phase == Sending([], false)
      modifies this`phase
      ensures Ran(s0, trace) && phase == Resting
    {
      hide UdpTheorems.Inv, Run, Table, Valid;
      OneMore(cfg, s0, before, Value(), EndPass);
      trace := before + [EndPass];
      SetPhase(Resting);
    }

    /**
     One turn of the outer loop of the routine thread, with anything that sockets, handlers and other users of the clients'
     budgets may do between its steps: a run of the machine, which ends and keeps the invariant. `t` is the clock as it is
     read; when it has gone on, the run takes it, and to be at rest again it has made a whole pass.
     */
    method RoutinePass() returns (t: int, ghost trace: seq<Event>)
      requires Valid() && UdpTheorems.Inv(Value()) && phase == Resting
      modifies this, endpoints.Values
      ensures Valid() && UdpTheorems.Inv(Value()) && phase == Resting
      ensures Run(cfg, old(Value()), trace) == Some(Value())
      ensures lastFlush == if t <= old(lastFlush) then old(lastFlush) else t
    {
      ghost var s0 := Value();
      AtRest();
      t, trace := OnePass(s0);
    }

    lemma {:induction false} AtRest()
      requires Valid() && UdpTheorems.Inv(Value()) && phase == Resting
      ensures Ran(Value(), []) && newEpts == map[]
    {
      hide Table;
      assert newEpts.Keys == {};
    }

    method OnePass(ghost s0: State) returns (t: int, ghost trace: seq<Event>)
      requires Ran(s0, []) && phase == Resting && newEpts == map[]
      modifies this, endpoints.Values
      ensures Ran(s0, trace) && phase == Resting
      ensures lastFlush == if t <= old(lastFlush) then old(lastFlush) else t
    {
      hide Ran;
      trace := Meanwhile(None, s0, []);
      var order := KeysInOrder();
      t := ReadClock();
      var interval := t - lastFlush;
      trace := StartPass(t, order, s0, trace);
      if interval <= 0 {
        return;
      }
      trace := MoveAll(order, interval, s0, trace);
      var all;
      trace := Meanwhile(None, s0, trace);
      all, trace := MergePass(s0, trace);
      trace := SendAll(all, s0, trace);
      trace := Meanwhile(None, s0, trace);
      trace := FinishPass(s0, trace);
    }
  }
}
