/** Due times along the queues, the two budgets, and the life cycle, kept by every step. */
module TcpTiming {
  import opened Base
  import opened TokenBucket
  import opened Tcp
  import opened TcpInvariants
  import TcpStream

  // ------------------------------------------------------------------ due times

  ghost predicate SameStamps(s: State, s': State) {
    && s'.near.queue == s.near.queue && s'.far.queue == s.far.queue
    && s'.near.writeOps == s.near.writeOps && s'.far.writeOps == s.far.writeOps
    && s'.activeTime == s.activeTime && s.now <= s'.now && s.clock <= s'.clock && (s.now <= s.clock ==> s'.now <= s'.clock)
  }

  lemma {:induction false} SameStampsKept(cfg: Config, s: State, s': State)
    requires Stamps(cfg, s) && SameStamps(s, s')
    ensures Stamps(cfg, s')
  {
  }

  lemma {:induction false} ViewStamps(cfg: Config, s: State, i: Side)
    requires Stamps(cfg, s)
    ensures Stamps(cfg, View(s, i))
  {
  }

  lemma {:induction false} TryWriteStamps(cfg: Config, s: State, index: Side)
    requires Stamps(cfg, s)
    ensures Stamps(cfg, TryWrite(cfg, s, index))
  {
  }

  lemma {:induction false} PopStamps(cfg: Config, s: State)
    requires Stamps(cfg, s) && s.near.queue != []
    ensures Stamps(cfg, Pop(s))
  {
  }

  lemma {:induction false} FinishWriteStamps(cfg: Config, s: State, r: Completion)
    requires Stamps(cfg, s) && s.near.writeOps != []
    ensures Stamps(cfg, FinishWrite(s, r))
  {
  }

  lemma {:induction false} ResumeSame(s: State)
    ensures SameStamps(s, Resume(s))
  {
  }

  lemma {:induction false} WriteStamps(cfg: Config, s: State, index: Side, r: Completion)
    requires Stamps(cfg, s)
    ensures Stamps(cfg, WriteHandler(cfg, s, index, r))
  {
    SameStampsKept(cfg, s, Stop(s));
    SameStampsKept(cfg, s, s.(fault := true));
    hide Stamps, SameStamps, TryWrite, Resume, Pop, Stop;
    TryWriteStamps(cfg, s, index);
    if s.near.queue != [] {
      var s1 := Pop(s);
      PopStamps(cfg, s);
      StopStamps(cfg, s1);
      ResumeSame(s1);
      SameStampsKept(cfg, s1, Resume(s1));
      TryWriteStamps(cfg, Resume(s1), index);
    }
  }

  lemma {:induction false} StopStamps(cfg: Config, s: State)
    requires Stamps(cfg, s)
    ensures Stamps(cfg, Stop(s))
  {
  }

  /** A newly read chunk is due no earlier than what is already queued: activity time never goes back. */
  lemma {:induction false} PushStamps(cfg: Config, s: State, bytes: nat)
    requires Stamps(cfg, s)
    ensures Stamps(cfg, Push(cfg, s, bytes))
  {
  }

  lemma {:induction false} ReadStamps(cfg: Config, s: State, r: Completion, bytes: nat)
    requires Stamps(cfg, s)
    ensures Stamps(cfg, ReadHandler(cfg, s, r, bytes))
  {
    PushStamps(cfg, s, bytes);
    StopStamps(cfg, s);
    SameStampsKept(cfg, s, s.(fullOpen := false));
    var s1 := Push(cfg, s, bytes);
    SameStampsKept(cfg, s1, s1.(near := s1.near.(reading := false)));
    SameStampsKept(cfg, s1, AsyncRead(s1));
    hide Stamps, SameStamps, Push, AsyncRead, Stop;
  }

  lemma {:induction false} ConnectStamps(cfg: Config, s: State, r: Completion)
    requires Flags(cfg, s) && Stamps(cfg, s) && s.connecting
    ensures Stamps(cfg, HandleConnect(s.(connecting := false, connected := r == Success), r))
  {
  }

  lemma {:induction false} FlushNearStamps(cfg: Config, s: State, index: Side, bytes: int)
    requires Stamps(cfg, s)
    ensures Stamps(cfg, FlushNear(cfg, s, index, bytes))
  {
    SameStampsKept(cfg, s, RefillNear(cfg, s, bytes));
    TryWriteStamps(cfg, RefillNear(cfg, s, bytes), index);
    hide TryWrite, RefillNear, Stamps;
  }

  lemma {:induction false} FlushMsgsStamps(cfg: Config, s: State, bytes: int, expire: int)
    requires Stamps(cfg, s)
    ensures Stamps(cfg, FlushMsgs(cfg, s, bytes, expire).s)
  {
    hide FlushNear, Flip, Stamps, Stop;
    StopStamps(cfg, s);
    var s1 := FlushNear(cfg, s, 1, bytes);
    FlushNearStamps(cfg, s, 1, bytes);
    ViewStamps(cfg, s1, 1);
    FlushNearStamps(cfg, Flip(s1), 0, bytes);
    ViewStamps(cfg, FlushNear(cfg, Flip(s1), 0, bytes), 1);
  }

  lemma {:induction false} ClockStamps(cfg: Config, s: State, t: int)
    requires Stamps(cfg, s) && s.clock <= t
    ensures Stamps(cfg, s.(clock := t)) && s.now <= t
  {
    SameStampsKept(cfg, s, s.(clock := t));
  }

  lemma {:induction false} TickStamps(cfg: Config, s: State, now: int)
    requires Stamps(cfg, s) && s.now <= now <= s.clock
    ensures Stamps(cfg, HandleTick(cfg, s, now))
  {
    hide FlushMsgs;
    assert s.now <= s.clock;
    hide Stamps;
    var bytes := (now - s.lastFlush) * cfg.bandwidth / 1000;
    var s1 := s.(now := now, lastFlush := now);
    SameStampsKept(cfg, s, s1);
    SameStampsKept(cfg, s, s.(now := now));
    FlushMsgsStamps(cfg, s1, bytes, now - cfg.timeout);
    var s2 := FlushMsgs(cfg, s1, bytes, now - cfg.timeout);
    SameStampsKept(cfg, s2.s, s2.s.(gone := !s2.alive));
  }

  lemma {:induction false} FinishReadSame(s: State, r: Completion, data: seq<Byte>)
    requires CanFill(s, data)
    ensures SameStamps(s, FinishRead(s, r, data))
  {
  }

  lemma {:induction false} StepStamps(cfg: Config, s: State, ev: Event)
    requires Flags(cfg, s) && Stamps(cfg, s) && Enabled(s, ev)
    ensures Stamps(cfg, Step(cfg, s, ev))
  {
    hide WriteHandler, ReadHandler, HandleConnect, HandleTick, FinishRead, FinishWrite, Store, Stamps;
    match ev
    case WriteDone(i, r) =>
      ViewStamps(cfg, s, i);
      FinishWriteStamps(cfg, View(s, i), r);
      WriteStamps(cfg, FinishWrite(View(s, i), r), Other(i), r);
      ViewStamps(cfg, WriteHandler(cfg, FinishWrite(View(s, i), r), Other(i), r), i);
    case ReadDone(i, r, data) =>
      ViewStamps(cfg, s, i);
      var s1 := View(s, i);
      FinishReadSame(s1, r, data);
      SameStampsKept(cfg, s1, FinishRead(s1, r, data));
      ReadStamps(cfg, FinishRead(s1, r, data), r, |data|);
      ViewStamps(cfg, ReadHandler(cfg, FinishRead(s1, r, data), r, |data|), i);
    case KernelFill(i, data) =>
      SameStampsKept(cfg, s, View(Fill(View(s, i), data), i));
    case ConnectDone(r) => ConnectStamps(cfg, s, r);
    case Passes(t) => ClockStamps(cfg, s, t);
    case Tick(now) =>
      ClockStamps(cfg, s, now);
      TickStamps(cfg, s.(clock := now), now);
    case OthersUseIp(ip) => SameStampsKept(cfg, s, s.(ip := ip));
    case ServerStop => StopStamps(cfg, s);
  }

  // ------------------------------------------------------------------ budgets

  /** Both budgets are sound, the near one up to time `near` and the far one up to time `far`. */
  ghost predicate BudgetsAt(cfg: Config, s: State, near: int, far: int) {
    BudgetSide(cfg, s, near) && BudgetSide(cfg, Flip(s), far)
  }

  ghost predicate SameBudgets(s: State, s': State) {
    && s'.near.avail == s.near.avail && s'.far.avail == s.far.avail
    && s'.near.ledger == s.near.ledger && s'.far.ledger == s.far.ledger
    && s'.now == s.now && s'.lastFlush == s.lastFlush
  }

  lemma {:induction false} SameBudgetsKept(cfg: Config, s: State, s': State)
    requires Budgets(cfg, s) && SameBudgets(s, s')
    ensures Budgets(cfg, s')
  {
  }

  lemma {:induction false} ViewBudgets(cfg: Config, s: State, i: Side)
    requires Budgets(cfg, s)
    ensures Budgets(cfg, View(s, i))
  {
  }

  lemma {:induction false} TryWriteBudgets(cfg: Config, s: State, index: Side, far: int)
    requires BudgetsAt(cfg, s, s.now, far) && QueueOk(s.memory, s.near.queue)
    ensures BudgetsAt(cfg, TryWrite(cfg, s, index), s.now, far)
    ensures TryWrite(cfg, s, index).now == s.now && TryWrite(cfg, s, index).lastFlush == s.lastFlush
  {
    if cfg.bandwidth > 0 && MayWrite(cfg, s, index) {
      ChargeSound(cfg.bandwidth, LARGEST_CHUNK, s.near.avail, s.near.ledger, s.now, Cost(s.near.queue[0]));
    }
  }

  lemma {:induction false} RefillBudgets(cfg: Config, s: State, before: int, far: int)
    requires BudgetsAt(cfg, s, before, far) && before <= s.now
    ensures var s1 := RefillNear(cfg, s, (s.now - before) * cfg.bandwidth / 1000);
            && BudgetsAt(cfg, s1, s.now, far) && s1.now == s.now && s1.lastFlush == s.lastFlush
            && s1.near.queue == s.near.queue && s1.memory == s.memory
  {
    if cfg.bandwidth > 0 {
      RefillSound(cfg.bandwidth, LARGEST_CHUNK, s.near.avail, s.near.ledger, before, s.now);
    }
    hide Sound;
  }

  lemma {:induction false} FlushNearBudgets(cfg: Config, s: State, index: Side, before: int, far: int)
    requires BudgetsAt(cfg, s, before, far) && QueueOk(s.memory, s.near.queue) && before <= s.now
    ensures var s' := FlushNear(cfg, s, index, (s.now - before) * cfg.bandwidth / 1000);
            BudgetsAt(cfg, s', s.now, far) && s'.now == s.now && s'.lastFlush == s.lastFlush
  {
    hide RefillNear, TryWrite, BudgetsAt, QueueOk;
    RefillBudgets(cfg, s, before, far);
    TryWriteBudgets(cfg, RefillNear(cfg, s, (s.now - before) * cfg.bandwidth / 1000), index, far);
  }

  lemma {:induction false} QueuesOk(s: State)
    requires Streams(s)
    ensures QueueOk(s.memory, s.near.queue) && QueueOk(s.memory, s.far.queue)
  {
    assert BufferSide(Flip(s));
  }

  lemma {:induction false} LaterBudgets(cfg: Config, s: State, before: int, now: int)
    requires BudgetsAt(cfg, s, before, before) && before <= now
    ensures BudgetsAt(cfg, s, now, now)
  {
    if cfg.bandwidth > 0 {
      LaterSound(cfg.bandwidth, LARGEST_CHUNK, s.near.avail, s.near.ledger, before, now);
      LaterSound(cfg.bandwidth, LARGEST_CHUNK, s.far.avail, s.far.ledger, before, now);
    }
  }

  lemma {:induction false} BothFlushed(cfg: Config, s: State, before: int)
    requires Streams(s) && BudgetsAt(cfg, s, before, before) && before <= s.now == s.lastFlush
    ensures var bytes := (s.now - before) * cfg.bandwidth / 1000;
            Budgets(cfg, Flip(FlushNear(cfg, Flip(FlushNear(cfg, s, 1, bytes)), 0, bytes)))
  {
    var bytes := (s.now - before) * cfg.bandwidth / 1000;
    var s1 := FlushNear(cfg, s, 1, bytes);
    QueuesOk(s);
    FlushNearBudgets(cfg, s, 1, before, before);
    TcpStream.FlushNearStreams(cfg, s, 1, bytes);
    hide FlushNear, Streams, QueueOk, BudgetSide;
    QueuesOk(s1);
    FlushNearBudgets(cfg, Flip(s1), 0, before, s.now);
  }

  lemma {:induction false} FlushMsgsBudgets(cfg: Config, s: State, before: int, expire: int)
    requires Streams(s) && BudgetsAt(cfg, s, before, before) && before <= s.now == s.lastFlush
    ensures Budgets(cfg, FlushMsgs(cfg, s, (s.now - before) * cfg.bandwidth / 1000, expire).s)
  {
    LaterBudgets(cfg, s, before, s.now);
    BothFlushed(cfg, s, before);
    assert Budgets(cfg, s);
    SameBudgetsKept(cfg, s, Stop(s));
    hide FlushNear, Streams, Stop, BudgetsAt, Budgets;
  }

  lemma {:induction false} ClockBudgets(cfg: Config, s: State, t: int)
    requires Budgets(cfg, s)
    ensures Budgets(cfg, s.(clock := t))
  {
    SameBudgetsKept(cfg, s, s.(clock := t));
  }

  lemma {:induction false} TickBudgets(cfg: Config, s: State, now: int)
    requires Streams(s) && Budgets(cfg, s) && s.now <= now
    ensures Budgets(cfg, HandleTick(cfg, s, now))
  {
    var s1 := s.(now := now, lastFlush := now);
    assert BudgetsAt(cfg, s1, s.lastFlush, s.lastFlush);
    TcpStream.SameStreamsKept(s, s1);
    hide FlushMsgs, Streams, BudgetSide;
    if now > s.lastFlush {
      var r := FlushMsgs(cfg, s1, (now - s.lastFlush) * cfg.bandwidth / 1000, now - cfg.timeout);
      FlushMsgsBudgets(cfg, s1, s.lastFlush, now - cfg.timeout);
      SameBudgetsKept(cfg, r.s, r.s.(gone := !r.alive));
    } else {
      SameBudgetsKept(cfg, s, s.(now := now));
    }
  }

  lemma {:induction false} FinishWriteSame(s: State, r: Completion)
    requires s.near.writeOps != []
    ensures SameBudgets(s, FinishWrite(s, r))
    ensures FinishWrite(s, r).memory == s.memory && FinishWrite(s, r).near.queue == s.near.queue
  {
  }

  lemma {:induction false} PopResumeSame(s: State)
    requires s.near.queue != [] && QueueOk(s.memory, s.near.queue)
    ensures SameBudgets(s, Pop(s)) && SameBudgets(s, Resume(Pop(s)))
    ensures QueueOk(Resume(Pop(s)).memory, Resume(Pop(s)).near.queue)
  {
  }

  lemma {:induction false} TryWriteAllBudgets(cfg: Config, s: State, index: Side)
    requires Budgets(cfg, s) && QueueOk(s.memory, s.near.queue)
    ensures Budgets(cfg, TryWrite(cfg, s, index))
  {
    hide TryWrite;
    TryWriteBudgets(cfg, s, index, s.lastFlush);
  }

  lemma {:induction false} StopBudgets(cfg: Config, s: State)
    requires Budgets(cfg, s)
    ensures Budgets(cfg, Stop(s))
  {
  }

  lemma {:induction false} WriteBudgets(cfg: Config, s: State, index: Side, r: Completion)
    requires Budgets(cfg, s) && QueueOk(s.memory, s.near.queue)
    ensures Budgets(cfg, WriteHandler(cfg, s, index, r))
  {
    SameBudgetsKept(cfg, s, s.(fault := true));
    hide Budgets, TryWrite, Resume, Pop, Stop, SameBudgets, QueueOk;
    StopBudgets(cfg, s);
    TryWriteAllBudgets(cfg, s, index);
    if s.near.queue != [] {
      PopResumeSame(s);
      SameBudgetsKept(cfg, s, Pop(s));
      SameBudgetsKept(cfg, s, Resume(Pop(s)));
      StopBudgets(cfg, Pop(s));
      TryWriteAllBudgets(cfg, Resume(Pop(s)), index);
    }
  }

  lemma {:induction false} PushSame(cfg: Config, s: State, bytes: nat)
    ensures SameBudgets(s, Push(cfg, s, bytes))
  {
  }

  lemma {:induction false} ReadBudgets(cfg: Config, s: State, r: Completion, bytes: nat)
    requires Budgets(cfg, s)
    ensures Budgets(cfg, ReadHandler(cfg, s, r, bytes))
  {
    StopBudgets(cfg, s);
    SameBudgetsKept(cfg, s, s.(fullOpen := false));
    hide Budgets, Stop, Push;
    var s1 := Push(cfg, s, bytes);
    PushSame(cfg, s, bytes);
    SameBudgetsKept(cfg, s, s1);
    SameBudgetsKept(cfg, s1, s1.(near := s1.near.(reading := false)));
    SameBudgetsKept(cfg, s1, AsyncRead(s1));
    hide AsyncRead;
  }

  lemma {:induction false} FinishReadSameBudgets(s: State, r: Completion, data: seq<Byte>)
    requires CanFill(s, data)
    ensures SameBudgets(s, FinishRead(s, r, data))
  {
  }

  lemma {:induction false} ConnectSame(s: State, r: Completion)
    ensures SameBudgets(s, HandleConnect(s.(connecting := false, connected := r == Success), r))
  {
  }

  lemma {:induction false} StepBudgets(cfg: Config, s: State, ev: Event)
    requires Streams(s) && Budgets(cfg, s) && s.now <= s.clock && Enabled(s, ev)
    ensures Budgets(cfg, Step(cfg, s, ev))
  {
    hide WriteHandler, ReadHandler, HandleConnect, HandleTick, FinishRead, FinishWrite, Store, Streams, Budgets;
    match ev
    case WriteDone(i, r) =>
      var s1 := View(s, i);
      var s2 := FinishWrite(s1, r);
      ViewBudgets(cfg, s, i);
      TcpStream.ViewStreams(s, i);
      QueuesOk(s1);
      FinishWriteSame(s1, r);
      SameBudgetsKept(cfg, s1, s2);
      WriteBudgets(cfg, s2, Other(i), r);
      ViewBudgets(cfg, WriteHandler(cfg, s2, Other(i), r), i);
    case ReadDone(i, r, data) =>
      var s1 := View(s, i);
      var s2 := FinishRead(s1, r, data);
      ViewBudgets(cfg, s, i);
      FinishReadSameBudgets(s1, r, data);
      SameBudgetsKept(cfg, s1, s2);
      ReadBudgets(cfg, s2, r, |data|);
      ViewBudgets(cfg, ReadHandler(cfg, s2, r, |data|), i);
    case KernelFill(i, data) => SameBudgetsKept(cfg, s, View(Fill(View(s, i), data), i));
    case ConnectDone(r) =>
      ConnectSame(s, r);
      SameBudgetsKept(cfg, s, HandleConnect(s.(connecting := false, connected := r == Success), r));
    case Passes(t) => ClockBudgets(cfg, s, t);
    case Tick(now) =>
      ClockBudgets(cfg, s, now);
      TcpStream.SameStreamsKept(s, s.(clock := now));
      TickBudgets(cfg, s.(clock := now), now);
    case OthersUseIp(ip) => SameBudgetsKept(cfg, s, s.(ip := ip));
    case ServerStop => StopBudgets(cfg, s);
  }

  // ------------------------------------------------------------------ life cycle

  ghost predicate SameLife(s: State, s': State) {
    && s'.near.queue == s.near.queue && s'.far.queue == s.far.queue
    && s'.fullOpen == s.fullOpen && s'.connected == s.connected && (s.closed ==> s'.closed)
  }

  lemma {:induction false} SameLifeKept(s: State, s': State)
    requires Life(s) && SameLife(s, s')
    ensures Life(s')
  {
  }

  lemma {:induction false} TryWriteSameLife(cfg: Config, s: State, index: Side)
    ensures SameLife(s, TryWrite(cfg, s, index))
  {
  }

  lemma {:induction false} PopLife(s: State)
    requires s.near.queue != []
    requires !(!s.fullOpen && |s.near.queue| == 1 && s.far.queue == [])
    ensures Life(Resume(Pop(s)))
  {
  }

  lemma {:induction false} WriteLife(cfg: Config, s: State, index: Side, r: Completion)
    requires Life(s)
    ensures Life(WriteHandler(cfg, s, index, r))
  {
    SameLifeKept(s, s.(fault := true));
    TryWriteSameLife(cfg, s, index);
    assert Life(Stop(s));
    hide TryWrite, Resume, Pop;
    SameLifeKept(s, TryWrite(cfg, s, index));
    if s.near.queue != [] {
      assert Life(Stop(Pop(s)));
      if !(!s.fullOpen && |s.near.queue| == 1 && s.far.queue == []) {
        PopLife(s);
        TryWriteSameLife(cfg, Resume(Pop(s)), index);
        SameLifeKept(Resume(Pop(s)), TryWrite(cfg, Resume(Pop(s)), index));
      }
    }
  }

  lemma {:induction false} ReadLife(cfg: Config, s: State, r: Completion, bytes: nat)
    requires Life(s)
    ensures Life(ReadHandler(cfg, s, r, bytes))
  {
  }

  lemma {:induction false} FlushNearSameLife(cfg: Config, s: State, index: Side, bytes: int)
    ensures SameLife(s, FlushNear(cfg, s, index, bytes))
  {
    hide TryWrite;
    TryWriteSameLife(cfg, RefillNear(cfg, s, bytes), index);
  }

  lemma {:induction false} FlushMsgsLife(cfg: Config, s: State, bytes: int, expire: int)
    requires Life(s)
    ensures Life(FlushMsgs(cfg, s, bytes, expire).s)
  {
    hide FlushNear;
    var s1 := FlushNear(cfg, s, 1, bytes);
    FlushNearSameLife(cfg, s, 1, bytes);
    FlushNearSameLife(cfg, Flip(s1), 0, bytes);
  }

  lemma {:induction false} StepLife(cfg: Config, s: State, ev: Event)
    requires Flags(cfg, s) && Life(s) && Enabled(s, ev)
    ensures Life(Step(cfg, s, ev))
  {
    hide WriteHandler, ReadHandler, FlushMsgs, Store;
    match ev
    case WriteDone(i, r) => WriteLife(cfg, FinishWrite(View(s, i), r), Other(i), r);
    case ReadDone(i, r, data) => ReadLife(cfg, FinishRead(View(s, i), r, data), r, |data|);
    case Tick(now) =>
      FlushMsgsLife(cfg, s.(clock := now, now := now, lastFlush := now), (now - s.lastFlush) * cfg.bandwidth / 1000, now - cfg.timeout);
    case _ =>
  }
}
