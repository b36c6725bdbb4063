/** Every byte written is charged, with the overhead of its packet, and nothing else is. */
module TcpCharges {
  import opened Base
  import opened TokenBucket
  import opened Tcp
  import opened TcpInvariants
  import TcpFlags
  import TcpStream
  import TcpTheorems

  /** The size of these chunks with an overhead for each. */
  function Total(chunks: seq<seq<Byte>>): nat
    decreases |chunks|
  {
    if chunks == [] then 0 else Total(Front(chunks)) + |Last(chunks)| + TCP_PACKET_EXTRA_OVERHEAD
  }

  function UnderWay(ops: seq<Msg>): nat {
    if ops == [] then 0 else Cost(ops[0])
  }

  ghost predicate PaidSide(s: State) {
    s.near.ledger.charged == Total(s.near.output) + UnderWay(s.near.writeOps)
  }

  /** While the connection is open, each direction is charged what was written and what is being written. */
  ghost predicate Paid(cfg: Config, s: State) {
    cfg.bandwidth > 0 && !s.closed ==> PaidSide(s) && PaidSide(Flip(s))
  }

  ghost predicate SamePaid(s: State, s': State) {
    && s'.near.ledger.charged == s.near.ledger.charged && s'.far.ledger.charged == s.far.ledger.charged
    && s'.near.output == s.near.output && s'.far.output == s.far.output
    && s'.near.writeOps == s.near.writeOps && s'.far.writeOps == s.far.writeOps
    && (s.closed ==> s'.closed)
  }

  lemma {:induction false} SamePaidKept(cfg: Config, s: State, s': State)
    requires Paid(cfg, s) && SamePaid(s, s')
    ensures Paid(cfg, s')
  {
  }

  lemma {:induction false} ViewPaid(cfg: Config, s: State, i: Side)
    requires Paid(cfg, s)
    ensures Paid(cfg, View(s, i))
  {
  }

  lemma {:induction false} TryWritePaid(cfg: Config, s: State, index: Side)
    requires Paid(cfg, s) && s.near.writeOps == []
    ensures Paid(cfg, TryWrite(cfg, s, index))
  {
    hide Total;
  }

  lemma {:induction false} FlushNearPaid(cfg: Config, s: State, index: Side, bytes: int)
    requires Paid(cfg, s) && Flags(cfg, s)
    ensures Paid(cfg, FlushNear(cfg, s, index, bytes))
  {
    var s1 := RefillNear(cfg, s, bytes);
    assert SamePaid(s, s1);
    assert !s1.near.writing ==> s1.near.writeOps == [];
    hide RefillNear, TryWrite, Flags, Paid, SamePaid;
    SamePaidKept(cfg, s, s1);
    if !s1.near.writing {
      TryWritePaid(cfg, s1, index);
    }
  }

  lemma {:induction false} FlushMsgsPaid(cfg: Config, s: State, bytes: int, expire: int)
    requires Paid(cfg, s) && Flags(cfg, s)
    ensures Paid(cfg, FlushMsgs(cfg, s, bytes, expire).s)
  {
    SamePaidKept(cfg, s, Stop(s));
    hide FlushNear, Flip, Flags, Paid;
    var s1 := FlushNear(cfg, s, 1, bytes);
    FlushNearPaid(cfg, s, 1, bytes);
    TcpFlags.FlushNearFlags(cfg, s, 1, bytes);
    ViewPaid(cfg, s1, 1);
    TcpFlags.ViewFlags(cfg, s1, 1);
    FlushNearPaid(cfg, Flip(s1), 0, bytes);
    ViewPaid(cfg, FlushNear(cfg, Flip(s1), 0, bytes), 1);
  }

  lemma {:induction false} TickPaid(cfg: Config, s: State, now: int)
    requires Paid(cfg, s) && Flags(cfg, s)
    ensures Paid(cfg, HandleTick(cfg, s, now))
  {
    hide FlushMsgs, Paid;
    var s1 := s.(now := now, lastFlush := now);
    SamePaidKept(cfg, s, s1);
    SamePaidKept(cfg, s, s.(now := now));
    assert Flags(cfg, s1);
    hide Flags, SamePaid;
    if now > s.lastFlush {
      var r := FlushMsgs(cfg, s1, (now - s.lastFlush) * cfg.bandwidth / 1000, now - cfg.timeout);
      FlushMsgsPaid(cfg, s1, (now - s.lastFlush) * cfg.bandwidth / 1000, now - cfg.timeout);
      GonePaid(cfg, r.s, !r.alive);
    }
  }

  lemma {:induction false} GonePaid(cfg: Config, s: State, gone: bool)
    requires Paid(cfg, s)
    ensures Paid(cfg, s.(gone := gone))
  {
  }

  /** A write that ends moves its chunk from those under way to those written. */
  lemma {:induction false} FinishWritePaid(cfg: Config, s: State)
    requires Paid(cfg, s) && Flags(cfg, s) && Streams(s) && s.near.writeOps != []
    ensures Paid(cfg, FinishWrite(s, Success)) && FinishWrite(s, Success).near.writeOps == []
  {
    var m := s.near.writeOps[0];
    assert BufferSide(s) && |Payload(s.memory, m)| == m.size;
    var output := FinishWrite(s, Success).near.output;
    assert Front(output) == s.near.output;
    hide Flags, Streams;
  }

  lemma {:induction false} WritePaid(cfg: Config, s: State, index: Side)
    requires Paid(cfg, s) && s.near.writeOps == []
    ensures Paid(cfg, WriteHandler(cfg, s, index, Success))
  {
    hide TryWrite, Resume, Pop, Total;
    TryWritePaid(cfg, s, index);
    SamePaidKept(cfg, s, s.(fault := true));
    if s.near.queue != [] {
      PopResumePaid(cfg, s);
      TryWritePaid(cfg, Resume(Pop(s)), index);
    }
    hide Paid;
  }

  lemma {:induction false} PopResumePaid(cfg: Config, s: State)
    requires Paid(cfg, s) && s.near.writeOps == [] && s.near.queue != []
    ensures Paid(cfg, Stop(Pop(s))) && Paid(cfg, Resume(Pop(s))) && Resume(Pop(s)).near.writeOps == []
  {
    hide Paid;
    SamePaidKept(cfg, s, Stop(Pop(s)));
    SamePaidKept(cfg, s, Resume(Pop(s)));
  }

  lemma {:induction false} WriteDonePaid(cfg: Config, s: State, index: Side, r: Completion)
    requires Paid(cfg, s) && Flags(cfg, s) && Streams(s) && s.near.writeOps != [] && (r == Aborted ==> s.closed)
    ensures Paid(cfg, WriteHandler(cfg, FinishWrite(s, r), index, r))
  {
    if r == Success {
      hide Flags, Streams, WriteHandler, FinishWrite, Paid;
      FinishWritePaid(cfg, s);
      WritePaid(cfg, FinishWrite(s, Success), index);
    } else {
      hide Flags, Streams;
    }
  }

  lemma {:induction false} ReadEndsPaid(cfg: Config, s: State, r: Completion, data: seq<Byte>)
    requires Paid(cfg, s) && CanFill(s, data)
    ensures Paid(cfg, FinishRead(s, r, data))
  {
    assert SamePaid(s, FinishRead(s, r, data));
    hide Total;
  }

  lemma {:induction false} PushPaid(cfg: Config, s: State, bytes: nat)
    requires Paid(cfg, s)
    ensures Paid(cfg, Push(cfg, s, bytes))
  {
    assert SamePaid(s, Push(cfg, s, bytes));
    hide Total;
  }

  lemma {:induction false} ReadPaid(cfg: Config, s: State, r: Completion, bytes: nat)
    requires Paid(cfg, s)
    ensures Paid(cfg, ReadHandler(cfg, s, r, bytes))
  {
    hide Paid, Push;
    SamePaidKept(cfg, s, Stop(s));
    SamePaidKept(cfg, s, s.(fullOpen := false));
    var s2 := Push(cfg, s, bytes);
    PushPaid(cfg, s, bytes);
    SamePaidKept(cfg, s2, s2.(near := s2.near.(reading := false)));
    SamePaidKept(cfg, s2, AsyncRead(s2));
    hide AsyncRead, SamePaid;
  }

  lemma {:induction false} OthersPaid(cfg: Config, s: State, i: Side, r: Completion, data: seq<Byte>)
    requires Paid(cfg, s)
    ensures Paid(cfg, HandleConnect(s.(connecting := false, connected := r == Success), r))
    ensures CanFill(s, data) ==> Paid(cfg, Fill(s, data))
  {
    assert SamePaid(s, HandleConnect(s.(connecting := false, connected := r == Success), r));
    hide Total;
  }

  lemma {:induction false} StepPaid(cfg: Config, s: State, ev: Event)
    requires Paid(cfg, s) && Flags(cfg, s) && Streams(s) && Enabled(s, ev)
    ensures Paid(cfg, Step(cfg, s, ev))
  {
    hide WriteHandler, ReadHandler, HandleConnect, HandleTick, FinishRead, FinishWrite, Store, Fill, Streams, Flags, Paid;
    match ev
    case WriteDone(i, r) =>
      TcpFlags.ViewFlags(cfg, s, i);
      TcpStream.ViewStreams(s, i);
      ViewPaid(cfg, s, i);
      WriteDonePaid(cfg, View(s, i), Other(i), r);
      ViewPaid(cfg, WriteHandler(cfg, FinishWrite(View(s, i), r), Other(i), r), i);
    case ReadDone(i, r, data) =>
      ViewPaid(cfg, s, i);
      ReadEndsPaid(cfg, View(s, i), r, data);
      ReadPaid(cfg, FinishRead(View(s, i), r, data), r, |data|);
      ViewPaid(cfg, ReadHandler(cfg, FinishRead(View(s, i), r, data), r, |data|), i);
    case KernelFill(i, data) =>
      ViewPaid(cfg, s, i);
      OthersPaid(cfg, View(s, i), i, Success, data);
      ViewPaid(cfg, Fill(View(s, i), data), i);
    case ConnectDone(r) => OthersPaid(cfg, s, 0, r, []);
    case Passes(t) => SamePaidKept(cfg, s, s.(clock := t));
    case Tick(now) =>
      SamePaidKept(cfg, s, s.(clock := now));
      TcpFlags.ClockFlags(cfg, s, now);
      TickPaid(cfg, s.(clock := now), now);
    case OthersUseIp(ip) => SamePaidKept(cfg, s, s.(ip := ip));
    case ServerStop => SamePaidKept(cfg, s, Stop(s));
  }

  lemma {:induction false} RunPaid(cfg: Config, now: int, ip: Pair<int>, events: seq<Event>)
    requires Run(cfg, Init(cfg, now, ip), events).Some?
    ensures Paid(cfg, Run(cfg, Init(cfg, now, ip), events).value)
    decreases |events|
  {
    if events != [] {
      hide Step, Enabled, Init, Flags, Streams, Stamps, Budgets, Life, Paid;
      RunPaid(cfg, now, ip, Front(events));
      var s := TcpTheorems.Reached(cfg, now, ip, Front(events), 0);
      StepPaid(cfg, s, Last(events));
    }
  }

  /**
   What the rate bound means for the traffic: while the connection is open, the bytes charged are exactly those written to
   the socket and under way to it, with an overhead for each chunk. So these, too, keep within the bandwidth times the time
   since the first charge, plus one largest chunk.
   */
  lemma {:induction false} ThroughputBound(cfg: Config, now: int, ip: Pair<int>, events: seq<Event>, i: Side)
    requires Run(cfg, Init(cfg, now, ip), events).Some? && cfg.bandwidth > 0
    requires !Run(cfg, Init(cfg, now, ip), events).value.closed
    ensures var s := View(Run(cfg, Init(cfg, now, ip), events).value, i);
            var written := Total(s.near.output) + UnderWay(s.near.writeOps);
            && s.near.ledger.charged == written
            && (written > 0 ==> written <= (s.now - s.near.ledger.origin) * cfg.bandwidth / 1000 + 4150)
  {
    RunPaid(cfg, now, ip, events);
    var s := Run(cfg, Init(cfg, now, ip), events).value;
    hide Run, Init, Total, UnderWay;
    ViewPaid(cfg, s, i);
    TcpTheorems.TcpRateBound(cfg, now, ip, events, i);
  }
}
