/** What holds of a proxied TCP connection over whole runs. */
module TcpTheorems {
  import opened Base
  import opened TokenBucket
  import opened Tcp
  import opened TcpInvariants
  import TcpFlags
  import TcpStream
  import TcpTiming

  lemma {:induction false} InitInv(cfg: Config, now: int, ip: Pair<int>)
    ensures Inv(cfg, Init(cfg, now, ip))
  {
  }

  lemma {:induction false} StepInv(cfg: Config, s: State, ev: Event)
    requires Inv(cfg, s) && Enabled(s, ev)
    ensures Inv(cfg, Step(cfg, s, ev))
  {
    ClockAhead(cfg, s);
    hide Step, Enabled, Flags, Streams, Stamps, Budgets, Life;
    TcpFlags.StepFlags(cfg, s, ev);
    TcpStream.StepStreams(cfg, s, ev);
    TcpTiming.StepStamps(cfg, s, ev);
    TcpTiming.StepBudgets(cfg, s, ev);
    TcpTiming.StepLife(cfg, s, ev);
  }

  lemma {:induction false} ClockAhead(cfg: Config, s: State)
    requires Stamps(cfg, s)
    ensures s.now <= s.clock
  {
  }

  lemma {:induction false} RunInv(cfg: Config, s: State, events: seq<Event>)
    requires Inv(cfg, s) && Run(cfg, s, events).Some?
    ensures Inv(cfg, Run(cfg, s, events).value)
    decreases |events|
  {
    hide Step, Enabled, Inv;
    if events != [] {
      RunInv(cfg, s, Front(events));
      StepInv(cfg, Run(cfg, s, Front(events)).value, Last(events));
    }
  }

  /** A reachable state seen from one of its sockets. */
  lemma {:induction false} Reached(cfg: Config, now: int, ip: Pair<int>, events: seq<Event>, i: Side) returns (s: State)
    requires Run(cfg, Init(cfg, now, ip), events).Some?
    ensures s == View(Run(cfg, Init(cfg, now, ip), events).value, i)
    ensures Flags(cfg, s) && Streams(s) && Stamps(cfg, s) && Budgets(cfg, s) && Life(s)
  {
    hide Flags, Streams, Stamps, Budgets, Step, Enabled;
    InitInv(cfg, now, ip);
    RunInv(cfg, Init(cfg, now, ip), events);
    var s0 := Run(cfg, Init(cfg, now, ip), events).value;
    s := View(s0, i);
    TcpFlags.ViewFlags(cfg, s0, i);
    TcpStream.ViewStreams(s0, i);
    TcpTiming.ViewStamps(cfg, s0, i);
    TcpTiming.ViewBudgets(cfg, s0, i);
  }

  // ------------------------------------------------------------------ streams

  /**
   Stream integrity: at all times what was written to a socket, followed by what is queued for it, is exactly what was
   read from the opposite one, chunk by chunk. So the output is always a prefix of the input.
   */
  lemma {:induction false} StreamIntegrity(cfg: Config, now: int, ip: Pair<int>, events: seq<Event>, i: Side)
    requires Run(cfg, Init(cfg, now, ip), events).Some?
    ensures var s := View(Run(cfg, Init(cfg, now, ip), events).value, i);
            && s.near.output + Payloads(s.memory, s.near.queue) == s.far.input
            && s.near.output <= s.far.input
            && (s.near.output == s.far.input <==> s.near.queue == [])
  {
    hide Flags, Stamps, Budgets, Buffers;
    var s := Reached(cfg, now, ip, events, i);
    assert StreamSide(s);
    assert |s.near.output| + |s.near.queue| == |s.far.input|;
  }

  /** A connection that closes because a write completed has delivered everything in both directions. */
  lemma {:induction false} DrainDelivers(cfg: Config, now: int, ip: Pair<int>, events: seq<Event>, i: Side)
    requires Run(cfg, Init(cfg, now, ip), events + [WriteDone(i, Success)]).Some?
    requires !Run(cfg, Init(cfg, now, ip), events).value.closed
    requires Run(cfg, Init(cfg, now, ip), events + [WriteDone(i, Success)]).value.closed
    ensures var s := Run(cfg, Init(cfg, now, ip), events + [WriteDone(i, Success)]).value;
            s.near.output == s.far.input && s.far.output == s.near.input
  {
    var all := events + [WriteDone(i, Success)];
    assert Front(all) == events;
    var s0 := Reached(cfg, now, ip, events, i);
    WriteClosesEmpty(cfg, s0, Other(i));
    hide Step, Enabled, WriteHandler;
    StreamIntegrity(cfg, now, ip, all, 0);
    StreamIntegrity(cfg, now, ip, all, 1);
  }

  lemma {:induction false} WriteClosesEmpty(cfg: Config, s: State, index: Side)
    requires Flags(cfg, s) && s.near.writeOps != [] && !s.closed
    requires WriteHandler(cfg, FinishWrite(s, Success), index, Success).closed
    ensures var s' := WriteHandler(cfg, FinishWrite(s, Success), index, Success);
            s'.near.queue == [] && s'.far.queue == []
  {
  }

  // ------------------------------------------------------------------ backpressure

  /**
   In every reachable state: no assertion has failed; at most one read and one write are outstanding per socket; a
   queue holds at most two chunks; after the connect a reading flag is down exactly while the opposite queue holds two; an
   outstanding write is of the head of the queue; and no queued chunk is in the buffer of an outstanding read.
   */
  lemma {:induction false} Backpressure(cfg: Config, now: int, ip: Pair<int>, events: seq<Event>, i: Side)
    requires Run(cfg, Init(cfg, now, ip), events).Some?
    ensures var s := View(Run(cfg, Init(cfg, now, ip), events).value, i);
            && !s.fault
            && |s.near.readOps| <= 1 && |s.near.writeOps| <= 1 && |s.near.queue| <= 2
            && (s.near.reading <==> |s.far.queue| < 2)
            && (s.near.writeOps != [] ==> s.near.writing && s.near.queue != [] && s.near.writeOps[0] == s.near.queue[0])
            && (!s.closed ==> (s.near.writing <==> s.near.writeOps != []))
            && (s.connected && s.near.reading && !s.near.ended <==> s.near.readOps != [])
            && (forall m <- s.near.queue + s.far.queue :: m.buf !in s.near.readOps)
  {
    hide Stamps, Budgets, StreamSide;
    var s := Reached(cfg, now, ip, events, i);
    assert ReadSide(s) && ReadSide(Flip(s)) && WriteSide(s) && BufferSide(s);
  }

  // ------------------------------------------------------------------ rate

  /**
   The rate bound for each direction: from the tick of the first charge on, the bytes charged are at most the bandwidth
   times the time passed, plus one largest chunk with its overhead. The balance is what was refilled less what was
   charged, and stays above minus that chunk.
   */
  lemma {:induction false} TcpRateBound(cfg: Config, now: int, ip: Pair<int>, events: seq<Event>, i: Side)
    requires Run(cfg, Init(cfg, now, ip), events).Some? && cfg.bandwidth > 0
    ensures var s := View(Run(cfg, Init(cfg, now, ip), events).value, i);
            var l := s.near.ledger;
            && s.near.avail == l.refilled - l.charged && s.near.avail >= -4150
            && (l.charged > 0 ==>
                  l.origin <= s.now && l.charged <= (s.now - l.origin) * cfg.bandwidth / 1000 + 4150)
  {
    hide Flags, Streams, Stamps;
    var s := Reached(cfg, now, ip, events, i);
    assert Sound(cfg.bandwidth, LARGEST_CHUNK, s.near.avail, s.near.ledger, s.lastFlush);
  }

  // ------------------------------------------------------------------ delay

  /** Due times never decrease along a queue: when the head is not due, nothing behind it is. */
  lemma {:induction false} HeadDueFirst(cfg: Config, now: int, ip: Pair<int>, events: seq<Event>, i: Side)
    requires Run(cfg, Init(cfg, now, ip), events).Some?
    ensures var s := View(Run(cfg, Init(cfg, now, ip), events).value, i);
            s.near.queue != [] && s.near.queue[0].due > s.now ==> forall m <- s.near.queue :: m.due > s.now
  {
    hide Flags, Streams, Budgets;
    var s := Reached(cfg, now, ip, events, i);
    assert StampSide(cfg, s);
  }

  /**
   No chunk is being written before its due time. A chunk read while the connection was fully open has waited at least the
   configured delay, less the time between the proxy's last tick and its arrival.
   */
  lemma {:induction false} NeverEarly(cfg: Config, now: int, ip: Pair<int>, events: seq<Event>, i: Side)
    requires Run(cfg, Init(cfg, now, ip), events).Some?
    ensures var s := View(Run(cfg, Init(cfg, now, ip), events).value, i);
            forall m <- s.near.writeOps ::
              && m.due <= s.now <= s.clock && m.tickAtRead <= m.readAt
              && (m.openAtRead ==> s.clock - m.readAt >= cfg.delay - (m.readAt - m.tickAtRead))
  {
    var s := Reached(cfg, now, ip, events, i);
    EarlySide(cfg, s);
    hide Flags, Streams, Stamps, Budgets, Run, Init;
  }

  lemma {:induction false} EarlySide(cfg: Config, s: State)
    requires Flags(cfg, s) && Stamps(cfg, s)
    ensures forall m <- s.near.writeOps ::
              && m.due <= s.now <= s.clock && m.tickAtRead <= m.readAt
              && (m.openAtRead ==> s.clock - m.readAt >= cfg.delay - (m.readAt - m.tickAtRead))
  {
    assert StampSide(cfg, s) && WriteSide(s);
    assert s.near.queue != [] ==> StampOk(cfg, s, s.near.queue[0]);
    hide Flags, Stamps;
  }

  /**
   When the promised delay is kept: a chunk just read is due the configured delay later exactly if it is read at the time of
   the proxy's last tick and the connection is fully open or was last active at that tick. Otherwise it is due too early, by
   the time since that tick or, after half-close, since the last activity.
   */
  lemma {:induction false} DelayIff(cfg: Config, now: int, ip: Pair<int>, events: seq<Event>, i: Side, data: seq<Byte>)
    requires Run(cfg, Init(cfg, now, ip), events + [ReadDone(i, Success, data)]).Some?
    ensures Run(cfg, Init(cfg, now, ip), events).Some?
    ensures var s := View(Run(cfg, Init(cfg, now, ip), events).value, i);
            var q := View(Run(cfg, Init(cfg, now, ip), events + [ReadDone(i, Success, data)]).value, i).far.queue;
            && q != []
            && s.clock + cfg.delay - Last(q).due == s.clock - (if s.fullOpen then s.now else s.activeTime) >= 0
            && (Last(q).due == s.clock + cfg.delay <==> s.now == s.clock && (s.fullOpen || s.activeTime == s.now))
  {
    var all := events + [ReadDone(i, Success, data)];
    assert Front(all) == events;
    var s := Reached(cfg, now, ip, events, i);
    hide Flags, Streams, Budgets, Life;
    assert s.activeTime <= s.now <= s.clock;
    ReadStamps(cfg, FinishRead(s, Success, data), |data|);
  }

  lemma {:induction false} ReadStamps(cfg: Config, s: State, bytes: nat)
    ensures var q := ReadHandler(cfg, s, Success, bytes).far.queue;
            q != [] && Last(q).due == (if s.fullOpen then s.now else s.activeTime) + cfg.delay
  {
    var pushed := Push(cfg, s, bytes);
    PushStamps(cfg, s, bytes);
    AsyncReadFar(pushed);
    hide Push, AsyncRead;
  }

  lemma {:induction false} AsyncReadFar(s: State)
    ensures AsyncRead(s).far == s.far
  {
  }

  lemma {:induction false} PushStamps(cfg: Config, s: State, bytes: nat)
    ensures var q := Push(cfg, s, bytes).far.queue;
            q != [] && Last(q).due == (if s.fullOpen then s.now else s.activeTime) + cfg.delay
  {
  }

  // ------------------------------------------------------------------ half-close

  /** In every state after the connect, a connection that is not closed and has nothing queued is fully open. */
  lemma {:induction false} NeverStranded(cfg: Config, now: int, ip: Pair<int>, events: seq<Event>)
    requires Run(cfg, Init(cfg, now, ip), events).Some?
    ensures var s := Run(cfg, Init(cfg, now, ip), events).value;
            s.connected && !s.closed && s.near.queue == [] && s.far.queue == [] ==> s.fullOpen
  {
    hide Flags, Streams, Stamps, Budgets;
    var s := Reached(cfg, now, ip, events, 0);
  }

  ghost predicate HalfClosed(s: State) {
    s.connected && !s.fullOpen
  }

  ghost predicate StillHalfClosed(s: State, s': State) {
    HalfClosed(s') && s'.activeTime == s.activeTime
  }

  lemma {:induction false} FlushKeepsHalfClosed(cfg: Config, s: State, bytes: int, expire: int)
    requires HalfClosed(s)
    ensures StillHalfClosed(s, FlushMsgs(cfg, s, bytes, expire).s)
  {
    hide FlushNear;
    FlushNearKeeps(cfg, s, 1, bytes);
    FlushNearKeeps(cfg, Flip(FlushNear(cfg, s, 1, bytes)), 0, bytes);
  }

  lemma {:induction false} FlushNearKeeps(cfg: Config, s: State, index: Side, bytes: int)
    ensures FlushNear(cfg, s, index, bytes).connected == s.connected
    ensures FlushNear(cfg, s, index, bytes).fullOpen == s.fullOpen
    ensures FlushNear(cfg, s, index, bytes).activeTime == s.activeTime
  {
  }

  lemma {:induction false} WriteKeepsHalfClosed(cfg: Config, s: State, index: Side, r: Completion)
    requires HalfClosed(s)
    ensures StillHalfClosed(s, WriteHandler(cfg, s, index, r))
  {
    TryWriteKeeps(cfg, s, index);
    if s.near.queue != [] {
      TryWriteKeeps(cfg, Resume(Pop(s)), index);
    }
    hide TryWrite;
  }

  lemma {:induction false} TryWriteKeeps(cfg: Config, s: State, index: Side)
    ensures TryWrite(cfg, s, index).connected == s.connected
    ensures TryWrite(cfg, s, index).fullOpen == s.fullOpen
    ensures TryWrite(cfg, s, index).activeTime == s.activeTime
  {
  }

  lemma {:induction false} ReadKeepsHalfClosed(cfg: Config, s: State, r: Completion, bytes: nat)
    requires HalfClosed(s)
    ensures StillHalfClosed(s, ReadHandler(cfg, s, r, bytes))
  {
  }

  lemma {:induction false} StepKeepsHalfClosed(cfg: Config, s: State, ev: Event)
    requires Flags(cfg, s) && HalfClosed(s) && Enabled(s, ev)
    ensures StillHalfClosed(s, Step(cfg, s, ev))
  {
    hide FlushMsgs, WriteHandler, ReadHandler, Store;
    match ev
    case ReadDone(i, r, data) => ReadKeepsHalfClosed(cfg, FinishRead(View(s, i), r, data), r, |data|);
    case WriteDone(i, r) => WriteKeepsHalfClosed(cfg, FinishWrite(View(s, i), r), Other(i), r);
    case Tick(t) =>
      FlushKeepsHalfClosed(cfg, s.(clock := t, now := t, lastFlush := t), (t - s.lastFlush) * cfg.bandwidth / 1000, t - cfg.timeout);
    case _ =>
  }

  /** Once half-closed, a connection never reopens, whatever happens, and its activity time is frozen. */
  lemma {:induction false} HalfClosedForGood(cfg: Config, s: State, events: seq<Event>)
    requires Inv(cfg, s) && HalfClosed(s) && Run(cfg, s, events).Some?
    ensures StillHalfClosed(s, Run(cfg, s, events).value)
    decreases |events|
  {
    hide Step, Enabled, Flags, Streams, Stamps, Budgets, Life;
    if events != [] {
      HalfClosedForGood(cfg, s, Front(events));
      RunInv(cfg, s, Front(events));
      StepKeepsHalfClosed(cfg, Run(cfg, s, Front(events)).value, Last(events));
    }
  }

  /**
   A half-closed connection is closed and erased no later than the first effective tick more than the timeout after its
   last activity, whatever happened in between.
   */
  lemma {:induction false} HalfClosedTimesOut(cfg: Config, s: State, events: seq<Event>, t: int)
    requires Inv(cfg, s) && HalfClosed(s) && Run(cfg, s, events + [Tick(t)]).Some?
    requires Run(cfg, s, events).value.lastFlush < t && s.activeTime + cfg.timeout < t
    ensures Run(cfg, s, events + [Tick(t)]).value.closed && Run(cfg, s, events + [Tick(t)]).value.gone
  {
    assert Front(events + [Tick(t)]) == events;
    HalfClosedForGood(cfg, s, events);
    hide FlushNear, Flags, Streams, Stamps, Budgets, Life;
  }

  // ------------------------------------------------------------------ the client's own budget

  /** What one step takes from a budget: nothing, or one chunk with its overhead if it is limited and was not overdrawn. */
  ghost predicate LegalCharge(limit: int, before: int, after: int) {
    after == before || (limit > 0 && before >= 0 && TCP_PACKET_EXTRA_OVERHEAD <= before - after <= LARGEST_CHUNK)
  }

  lemma {:induction false} TryWriteCharge(cfg: Config, s: State, index: Side)
    requires QueueOk(s.memory, s.near.queue)
    ensures LegalCharge(cfg.ipLimit.At(index), s.ip.At(index), TryWrite(cfg, s, index).ip.At(index))
    ensures TryWrite(cfg, s, index).ip.At(Other(index)) == s.ip.At(Other(index))
  {
  }

  /** Every handler charges a client's own budget, in either direction, at most once and only as the budget allows. */
  lemma {:induction false} WriteCharge(cfg: Config, s: State, index: Side, r: Completion)
    requires Flags(cfg, s) && Streams(s) && s.near.writeOps != []
    ensures var s' := WriteHandler(cfg, FinishWrite(s, r), index, r);
            LegalCharge(cfg.ipLimit.At(index), s.ip.At(index), s'.ip.At(index)) && s'.ip.At(Other(index)) == s.ip.At(Other(index))
  {
    if r == Success {
      var s1 := FinishWrite(s, r);
      TcpTiming.QueuesOk(s);
      TcpTiming.PopResumeSame(s1);
      assert Resume(Pop(s1)).ip == s.ip && s1.near.writing && s1.near.queue != [];
      hide Flags, Streams, QueueOk, TryWrite, Resume, Pop, FinishWrite;
      TryWriteCharge(cfg, Resume(Pop(s1)), index);
    }
  }

  lemma {:induction false} FlushCharge(cfg: Config, s: State, index: Side, bytes: int)
    requires QueueOk(s.memory, s.near.queue)
    ensures var s' := FlushNear(cfg, s, index, bytes);
            LegalCharge(cfg.ipLimit.At(index), s.ip.At(index), s'.ip.At(index)) && s'.ip.At(Other(index)) == s.ip.At(Other(index))
  {
    assert RefillNear(cfg, s, bytes).memory == s.memory && RefillNear(cfg, s, bytes).near.queue == s.near.queue
           && RefillNear(cfg, s, bytes).ip == s.ip;
    hide RefillNear, TryWrite;
    TryWriteCharge(cfg, RefillNear(cfg, s, bytes), index);
  }

  lemma {:induction false} FlushMsgsCharge(cfg: Config, s: State, bytes: int, expire: int, index: Side)
    requires Streams(s)
    ensures LegalCharge(cfg.ipLimit.At(index), s.ip.At(index), FlushMsgs(cfg, s, bytes, expire).s.ip.At(index))
  {
    var s1 := FlushNear(cfg, s, 1, bytes);
    hide FlushNear, Streams, QueueOk, LegalCharge;
    NoCharge(cfg.ipLimit.At(index), s.ip.At(index));
    TcpTiming.QueuesOk(s);
    TcpStream.FlushNearStreams(cfg, s, 1, bytes);
    TcpTiming.QueuesOk(s1);
    FlushCharge(cfg, s, 1, bytes);
    FlushCharge(cfg, Flip(s1), 0, bytes);
  }

  lemma {:induction false} TickCharge(cfg: Config, s: State, now: int, index: Side)
    requires Streams(s)
    ensures LegalCharge(cfg.ipLimit.At(index), s.ip.At(index), HandleTick(cfg, s, now).ip.At(index))
  {
    var s1 := s.(now := now, lastFlush := now);
    hide FlushMsgs, Streams, LegalCharge;
    NoCharge(cfg.ipLimit.At(index), s.ip.At(index));
    TcpStream.SameStreamsKept(s, s1);
    FlushMsgsCharge(cfg, s1, (now - s.lastFlush) * cfg.bandwidth / 1000, now - cfg.timeout, index);
  }

  lemma {:induction false} NoCharge(limit: int, balance: int)
    ensures LegalCharge(limit, balance, balance)
  {
  }

  lemma {:induction false} ReadCharge(cfg: Config, s: State, r: Completion, bytes: nat)
    ensures ReadHandler(cfg, s, r, bytes).ip == s.ip
  {
    var s1 := Push(cfg, s, bytes);
    assert s1.ip == s.ip;
    hide Push;
  }

  lemma {:induction false} OthersCharge(cfg: Config, s: State, i: Side, r: Completion, data: seq<Byte>)
    ensures HandleConnect(s.(connecting := false, connected := r == Success), r).ip == s.ip
    ensures CanFill(View(s, i), data) ==> FinishRead(View(s, i), r, data).ip == s.ip
    ensures CanFill(View(s, i), data) ==> Fill(View(s, i), data).ip == s.ip
  {
  }

  lemma {:induction false} ChargesAt(cfg: Config, s: State, ev: Event, index: Side)
    requires Flags(cfg, s) && Streams(s) && Enabled(s, ev) && !ev.OthersUseIp?
    ensures LegalCharge(cfg.ipLimit.At(index), s.ip.At(index), Step(cfg, s, ev).ip.At(index))
  {
    hide WriteHandler, ReadHandler, HandleTick, HandleConnect, FinishWrite, FinishRead, Flags, Streams, Store, Fill, LegalCharge;
    NoCharge(cfg.ipLimit.At(index), s.ip.At(index));
    match ev
    case WriteDone(i, r) =>
      TcpFlags.ViewFlags(cfg, s, i);
      TcpStream.ViewStreams(s, i);
      WriteCharge(cfg, View(s, i), Other(i), r);
    case ReadDone(i, r, data) =>
      OthersCharge(cfg, s, i, r, data);
      ReadCharge(cfg, FinishRead(View(s, i), r, data), r, |data|);
    case Passes(t) =>
    case Tick(t) =>
      TcpStream.SameStreamsKept(s, s.(clock := t));
      TickCharge(cfg, s.(clock := t), t, index);
    case ConnectDone(r) => OthersCharge(cfg, s, 0, r, []);
    case KernelFill(i, data) => OthersCharge(cfg, s, i, Success, data);
    case ServerStop =>
  }

  /**
   In any run, a step of this connection takes from each direction of the client's own budget nothing, or one chunk with
   its overhead when the balance was not negative: exactly what the shared budget of IpBuckets permits its holders.
   */
  lemma {:induction false} StepCharges(cfg: Config, now: int, ip: Pair<int>, events: seq<Event>, ev: Event, index: Side)
    requires Run(cfg, Init(cfg, now, ip), events).Some? && !ev.OthersUseIp?
    requires Enabled(Run(cfg, Init(cfg, now, ip), events).value, ev)
    ensures var s := Run(cfg, Init(cfg, now, ip), events).value;
            LegalCharge(cfg.ipLimit.At(index), s.ip.At(index), Step(cfg, s, ev).ip.At(index))
  {
    hide Step, Flags, Streams, Stamps, Budgets, Life, LegalCharge;
    var s := Reached(cfg, now, ip, events, 0);
    ChargesAt(cfg, s, ev, index);
  }

  // ------------------------------------------------------------------ progress

  lemma {:induction false} TryWriteDecides(cfg: Config, s: State, index: Side)
    requires Limited(cfg) ==> s.hasIp
    ensures var s' := TryWrite(cfg, s, index);
            && (!s'.near.writing ==> !HeadReady(s') || (cfg.ipLimit.At(index) > 0 && s'.ip.At(index) < 0))
            && s'.far == s.far && s'.now == s.now && s'.hasIp == s.hasIp
            && s'.ip.At(Other(index)) == s.ip.At(Other(index))
  {
  }

  lemma {:induction false} FlushDecides(cfg: Config, s: State, index: Side, bytes: int)
    requires Limited(cfg) ==> s.hasIp
    ensures var s' := FlushNear(cfg, s, index, bytes);
            && (!s'.near.writing ==> !HeadReady(s') || (cfg.ipLimit.At(index) > 0 && s'.ip.At(index) < 0))
            && s'.far == s.far && s'.now == s.now && s'.hasIp == s.hasIp
            && s'.ip.At(Other(index)) == s.ip.At(Other(index))
  {
    var s1 := RefillNear(cfg, s, bytes);
    assert s1.far == s.far && s1.now == s.now && s1.hasIp == s.hasIp && s1.ip == s.ip;
    hide RefillNear, TryWrite;
    TryWriteDecides(cfg, s1, index);
    if s1.near.writing {
      assert FlushNear(cfg, s, index, bytes) == s1;
    }
  }

  /** Socket i is writing, or has a reason not to be: nothing queued, nothing due, or a budget overdrawn. */
  ghost predicate Excused(cfg: Config, s: State, i: Side) {
    var k := View(s, i).near;
    || k.writing
    || k.queue == [] || k.queue[0].due > s.now || k.avail < 0
    || (cfg.ipLimit.At(Other(i)) > 0 && s.ip.At(Other(i)) < 0)
  }

  lemma {:induction false} BothDecided(cfg: Config, s: State, bytes: int)
    requires Limited(cfg) ==> s.hasIp
    ensures var s' := Flip(FlushNear(cfg, Flip(FlushNear(cfg, s, 1, bytes)), 0, bytes));
            Excused(cfg, s', 0) && Excused(cfg, s', 1) && s'.now == s.now
  {
    var s1 := FlushNear(cfg, s, 1, bytes);
    hide FlushNear;
    FlushDecides(cfg, s, 1, bytes);
    FlushDecides(cfg, Flip(s1), 0, bytes);
  }

  lemma {:induction false} FlushMsgsDecides(cfg: Config, s: State, bytes: int, expire: int)
    requires Limited(cfg) ==> s.hasIp
    ensures var r := FlushMsgs(cfg, s, bytes, expire);
            r.s.now == s.now && (r.alive ==> Excused(cfg, r.s, 0) && Excused(cfg, r.s, 1))
  {
    hide FlushNear;
    BothDecided(cfg, s, bytes);
    if s.closed || s.activeTime < expire {
    } else if !s.fullOpen && s.near.queue == [] && s.far.queue == [] {
    } else {
      hide Excused, Flip;
    }
  }

  /**
   After every effective tick that leaves the connection in the list, a socket that is not being written to has a reason:
   its queue is empty, its head is not due, or a budget is overdrawn.
   */
  lemma {:induction false} NothingForgotten(cfg: Config, now: int, ip: Pair<int>, events: seq<Event>, t: int, i: Side)
    requires Run(cfg, Init(cfg, now, ip), events).Some?
    requires Enabled(Run(cfg, Init(cfg, now, ip), events).value, Tick(t))
    requires Run(cfg, Init(cfg, now, ip), events).value.lastFlush < t
    ensures var s := HandleTick(cfg, Run(cfg, Init(cfg, now, ip), events).value, t);
            s.now == t && (!s.gone ==> Excused(cfg, s, i))
  {
    hide HandleTick, Flags, Streams, Stamps, Budgets, Life, Excused;
    var s := Reached(cfg, now, ip, events, 0);
    TickDecides(cfg, s, t);
  }

  lemma {:induction false} TickDecides(cfg: Config, s: State, t: int)
    requires Flags(cfg, s) && s.lastFlush < t
    ensures var s' := HandleTick(cfg, s, t);
            s'.now == t && (!s'.gone ==> Excused(cfg, s', 0) && Excused(cfg, s', 1))
  {
    hide FlushMsgs;
    FlushMsgsDecides(cfg, s.(now := t, lastFlush := t), (t - s.lastFlush) * cfg.bandwidth / 1000, t - cfg.timeout);
  }
}
