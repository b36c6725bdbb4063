/**
 What exactly the steps of a TCP connection do, in terms of what has happened: when it is fully open, when it was last active,
 when it closes, and when a chunk is started and what it and the ticks do to the budgets.
 */
module TcpExact {
  import opened Base
  import opened TokenBucket
  import opened Tcp
  import opened TcpInvariants
  import opened TcpTheorems
  import TcpFlags

  // ------------------------------------------------------------------ what has happened

  predicate Connected(events: seq<Event>) {
    ConnectDone(Success) in events
  }

  predicate FailedRead(ev: Event) {
    ev.ReadDone? && ev.r == Failed
  }

  predicate ReadFailed(events: seq<Event>) {
    exists j :: 0 <= j < |events| && FailedRead(events[j])
  }

  function LastTick(start: int, events: seq<Event>): int
    decreases |events|
  {
    if events == [] then start
    else if Last(events).Tick? then Last(events).now
    else LastTick(start, Front(events))
  }

  /** The time of the connect, or of the last read while neither stream had ended, as the proxy's clock showed it. */
  function LastActive(start: int, events: seq<Event>): int
    decreases |events|
  {
    if events == [] then start
    else
      var ev, front := Last(events), Front(events);
      if ev == ConnectDone(Success) || (ev.ReadDone? && ev.r == Success && !ReadFailed(front)) then LastTick(start, front)
      else LastActive(start, front)
  }

  lemma {:induction false} OneMoreFact(events: seq<Event>)
    requires events != []
    ensures Connected(events) <==> Connected(Front(events)) || Last(events) == ConnectDone(Success)
    ensures ReadFailed(events) <==> ReadFailed(Front(events)) || FailedRead(Last(events))
  {
    var front := Front(events);
    assert events == front + [Last(events)];
    assert FailedRead(events[|events| - 1]) <==> FailedRead(Last(events));
    if ReadFailed(front) {
      var j :| 0 <= j < |front| && FailedRead(front[j]);
      assert FailedRead(events[j]);
    }
    if ReadFailed(events) && !FailedRead(Last(events)) {
      var j :| 0 <= j < |events| && FailedRead(events[j]);
      assert FailedRead(front[j]);
    }
  }

  /** The state agrees with what has happened. */
  ghost predicate Told(start: int, events: seq<Event>, s: State) {
    && s.now == LastTick(start, events)
    && (s.connected <==> Connected(events))
    && (ReadFailed(events) ==> s.connected)
    && (!s.closed ==> (s.fullOpen <==> Connected(events) && !ReadFailed(events)) && s.activeTime == LastActive(start, events))
  }

  // ------------------------------------------------------------------ what the handlers leave alone

  /** What writing and flushing never touch. */
  ghost predicate SameLife(s: State, s': State) {
    && s'.fullOpen == s.fullOpen && s'.activeTime == s.activeTime && s'.connected == s.connected
    && (s.closed ==> s'.closed)
  }

  lemma {:induction false} TryWriteLife(cfg: Config, s: State, index: Side)
    ensures SameLife(s, TryWrite(cfg, s, index)) && TryWrite(cfg, s, index).closed == s.closed
  {
  }

  lemma {:induction false} PopResumeLife(s: State)
    requires s.near.queue != []
    ensures SameLife(s, Resume(Pop(s))) && Resume(Pop(s)).closed == s.closed && SameLife(s, Pop(s)) && Pop(s).closed == s.closed
  {
  }

  lemma {:induction false} WriteLife(cfg: Config, s: State, index: Side, r: Completion)
    ensures SameLife(s, WriteHandler(cfg, s, index, r)) && WriteHandler(cfg, s, index, r).now == s.now
  {
    TryWriteLife(cfg, s, index);
    if s.near.queue != [] {
      PopResumeLife(s);
      TryWriteLife(cfg, Resume(Pop(s)), index);
      NowKept(cfg, s, index);
    }
    hide TryWrite, Resume, Pop;
    TryWriteNow(cfg, s, index);
  }

  lemma {:induction false} TryWriteNow(cfg: Config, s: State, index: Side)
    ensures TryWrite(cfg, s, index).now == s.now
  {
  }

  lemma {:induction false} NowKept(cfg: Config, s: State, index: Side)
    requires s.near.queue != []
    ensures Pop(s).now == s.now && TryWrite(cfg, Resume(Pop(s)), index).now == s.now
  {
  }

  lemma {:induction false} FlushLife(cfg: Config, s: State, bytes: int, expire: int)
    ensures SameLife(s, FlushMsgs(cfg, s, bytes, expire).s) && FlushMsgs(cfg, s, bytes, expire).s.now == s.now
  {
    FlushNearLife(cfg, s, 1, bytes);
    FlushNearLife(cfg, Flip(FlushNear(cfg, s, 1, bytes)), 0, bytes);
    hide FlushNear;
  }

  lemma {:induction false} FlushNearLife(cfg: Config, s: State, index: Side, bytes: int)
    ensures SameLife(s, FlushNear(cfg, s, index, bytes)) && FlushNear(cfg, s, index, bytes).now == s.now
  {
  }

  lemma {:induction false} FinishReadLife(s: State, r: Completion, data: seq<Byte>)
    requires CanFill(s, data)
    ensures var s1 := FinishRead(s, r, data);
            SameLife(s, s1) && s1.now == s.now && s1.closed == s.closed && s1.far == s.far
  {
    hide Store;
  }

  lemma {:induction false} PushLife(cfg: Config, s: State, bytes: nat)
    ensures var s' := Push(cfg, s, bytes);
            && s'.now == s.now && s'.connected == s.connected && s'.closed == s.closed && s'.fullOpen == s.fullOpen
            && s'.activeTime == (if s.fullOpen then s.now else s.activeTime)
    ensures var s' := AsyncRead(s); SameLife(s, s') && s'.now == s.now && s'.closed == s.closed
  {
    hide NewBuffer;
  }

  /** What a read's handler does to the life of the connection. */
  ghost predicate ReadLived(s: State, s': State, r: Completion) {
    && s'.now == s.now && s'.connected == s.connected && (s.closed ==> s'.closed)
    && (r == Success ==> s'.fullOpen == s.fullOpen && s'.activeTime == (if s.fullOpen then s.now else s.activeTime) && s'.closed == s.closed)
    && (r == Aborted ==> SameLife(s, s') && s'.closed == s.closed)
    && (r == Failed ==> s'.activeTime == s.activeTime && (s'.closed || !s'.fullOpen) && (s'.closed <==> s.closed || s.far.queue == []))
  }

  lemma {:induction false} HandlerLife(cfg: Config, s: State, r: Completion, bytes: nat)
    ensures ReadLived(s, ReadHandler(cfg, s, r, bytes), r)
  {
    if r == Success {
      SuccessLife(cfg, s, bytes);
      hide ReadHandler;
    }
  }

  lemma {:induction false} SuccessLife(cfg: Config, s: State, bytes: nat)
    ensures ReadLived(s, ReadHandler(cfg, s, Success, bytes), Success)
  {
    hide Push, AsyncRead;
    var s1 := Push(cfg, s, bytes);
    PushLife(cfg, s, bytes);
    PushLife(cfg, s1, bytes);
  }

  lemma {:induction false} ReadLife(cfg: Config, s: State, r: Completion, data: seq<Byte>)
    requires CanFill(s, data)
    ensures ReadLived(s, ReadHandler(cfg, FinishRead(s, r, data), r, |data|), r)
  {
    FinishReadLife(s, r, data);
    HandlerLife(cfg, FinishRead(s, r, data), r, |data|);
    hide FinishRead, ReadHandler;
  }

  // ------------------------------------------------------------------ open and active

  lemma {:induction false} TickLife(cfg: Config, s: State, t: int)
    ensures SameLife(s, HandleTick(cfg, s, t)) && HandleTick(cfg, s, t).now == t
  {
    hide FlushMsgs;
    FlushLife(cfg, s.(now := t, lastFlush := t), (t - s.lastFlush) * cfg.bandwidth / 1000, t - cfg.timeout);
  }

  lemma {:induction false} ReadTold(cfg: Config, start: int, events: seq<Event>, s: State)
    requires events != [] && Told(start, Front(events), s) && Flags(cfg, s) && Last(events).ReadDone? && Enabled(s, Last(events))
    ensures Told(start, events, Step(cfg, s, Last(events)))
  {
    var ev := Last(events);
    OneMoreFact(events);
    ReadLife(cfg, View(s, ev.i), ev.r, ev.data);
    EndsOpen(s, ev.i);
    hide ReadHandler, FinishRead, Connected, ReadFailed;
  }

  lemma {:induction false} StepTold(cfg: Config, start: int, events: seq<Event>, s: State)
    requires events != [] && Told(start, Front(events), s) && Flags(cfg, s) && Enabled(s, Last(events))
    ensures Told(start, events, Step(cfg, s, Last(events)))
  {
    hide WriteHandler, ReadHandler, HandleTick, FinishRead, FinishWrite, Fill, Connected, ReadFailed, HandleConnect;
    OneMoreFact(events);
    match Last(events)
    case WriteDone(i, r) => WriteLife(cfg, FinishWrite(View(s, i), r), Other(i), r); FinishWriteLife(View(s, i), r);
    case ReadDone(i, r, data) => ReadTold(cfg, start, events, s);
    case Tick(t) => TickLife(cfg, s.(clock := t), t);
    case KernelFill(i, data) => FillLife(View(s, i), data);
    case ConnectDone(r) => ConnectLife(cfg, s, r);
    case _ =>
  }

  lemma {:induction false} EndsOpen(s: State, i: Side)
    ensures View(s, i).near.readOps != [] && ReadSide(s) && ReadSide(Flip(s)) ==> s.connected
  {
  }

  lemma {:induction false} FinishWriteLife(s: State, r: Completion)
    requires s.near.writeOps != []
    ensures SameLife(s, FinishWrite(s, r)) && FinishWrite(s, r).now == s.now
  {
  }

  lemma {:induction false} FillLife(s: State, data: seq<Byte>)
    requires CanFill(s, data)
    ensures SameLife(s, Fill(s, data)) && Fill(s, data).now == s.now && Fill(s, data).closed == s.closed
  {
  }

  lemma {:induction false} ConnectLife(cfg: Config, s: State, r: Completion)
    requires Flags(cfg, s) && Enabled(s, ConnectDone(r))
    ensures var s' := HandleConnect(s.(connecting := false, connected := r == Success), r);
            && s'.now == s.now && s'.connected == (r == Success) && (s.closed ==> s'.closed)
            && (r == Success ==> s'.fullOpen && s'.activeTime == s.now)
            && (r != Success ==> !s'.fullOpen && s'.activeTime == s.activeTime)
            && !s.connected && !s.fullOpen
  {
  }

  lemma {:induction false} RunTold(cfg: Config, start: int, ip: Pair<int>, events: seq<Event>)
    requires Run(cfg, Init(cfg, start, ip), events).Some?
    ensures Told(start, events, Run(cfg, Init(cfg, start, ip), events).value)
    decreases |events|
  {
    if events != [] {
      hide Step, Enabled, Flags, Streams, Stamps, Budgets, Told, Init;
      RunTold(cfg, start, ip, Front(events));
      var s := Reached(cfg, start, ip, Front(events), 0);
      StepTold(cfg, start, events, s);
    }
  }

  /**
   As long as a connection is not closed it is fully open exactly if it was connected and no read of either socket has
   failed, and its activity time is that of the connect or of the last chunk read while it was fully open.
   */
  lemma {:induction false} OpenExact(cfg: Config, start: int, ip: Pair<int>, events: seq<Event>)
    requires Run(cfg, Init(cfg, start, ip), events).Some? && !Run(cfg, Init(cfg, start, ip), events).value.closed
    ensures var s := Run(cfg, Init(cfg, start, ip), events).value;
            && (s.fullOpen <==> Connected(events) && !ReadFailed(events))
            && s.activeTime == LastActive(start, events)
            && s.now == LastTick(start, events) && (s.connected <==> Connected(events))
  {
    RunTold(cfg, start, ip, events);
    hide Run, Init;
  }

  // ------------------------------------------------------------------ when a connection closes

  /** What closes an open connection, in terms of what has happened and is queued. */
  ghost predicate Closes(cfg: Config, start: int, events: seq<Event>, s: State, ev: Event) {
    match ev
    case ServerStop => true
    case ConnectDone(r) => r == Failed
    case ReadDone(i, r, _) => r == Failed && View(s, i).far.queue == []
    case WriteDone(i, r) =>
      r == Failed || (r == Success && ReadFailed(events) && |View(s, i).near.queue| == 1 && View(s, i).far.queue == [])
    case Tick(t) => LastTick(start, events) < t && LastActive(start, events) + cfg.timeout < t
    case _ => false
  }

  lemma {:induction false} WriteCloses(cfg: Config, s: State, index: Side, r: Completion)
    requires Flags(cfg, s) && s.near.writeOps != [] && !s.closed && r != Aborted
    ensures WriteHandler(cfg, FinishWrite(s, r), index, r).closed
            <==> r == Failed || (!s.fullOpen && |s.near.queue| == 1 && s.far.queue == [])
  {
    var s1 := FinishWrite(s, r);
    FinishWriteLife(s, r);
    assert s1.near.queue == s.near.queue != [] && s1.far == s.far && s1.near.writing;
    PopResumeLife(s1);
    TryWriteLife(cfg, Resume(Pop(s1)), index);
    hide FinishWrite, Pop, Resume, TryWrite;
  }

  lemma {:induction false} TickClosesIff(cfg: Config, s: State, t: int)
    requires !s.closed
    ensures var s' := HandleTick(cfg, s, t);
            && (s'.closed <==> s.lastFlush < t && s.activeTime + cfg.timeout < t)
            && (s'.gone <==> if s.lastFlush < t then s'.closed else s.gone)
  {
    hide FlushMsgs;
    var s1 := s.(now := t, lastFlush := t);
    FlushCloses(cfg, s1, (t - s.lastFlush) * cfg.bandwidth / 1000, t - cfg.timeout);
  }

  lemma {:induction false} FlushCloses(cfg: Config, s: State, bytes: int, expire: int)
    ensures var r := FlushMsgs(cfg, s, bytes, expire);
            && (r.s.closed <==> s.closed || s.activeTime < expire)
            && (r.alive <==> !r.s.closed)
  {
    FlushNearOpen(cfg, s, 1, bytes);
    FlushNearOpen(cfg, Flip(FlushNear(cfg, s, 1, bytes)), 0, bytes);
    hide FlushNear;
  }

  lemma {:induction false} FlushNearOpen(cfg: Config, s: State, index: Side, bytes: int)
    ensures FlushNear(cfg, s, index, bytes).closed == s.closed
  {
  }

  /** An open connection is closed exactly by these. */
  lemma {:induction false} ClosesIff(cfg: Config, start: int, ip: Pair<int>, events: seq<Event>, ev: Event)
    requires Run(cfg, Init(cfg, start, ip), events).Some? && !Run(cfg, Init(cfg, start, ip), events).value.closed
    requires Enabled(Run(cfg, Init(cfg, start, ip), events).value, ev)
    ensures var s := Run(cfg, Init(cfg, start, ip), events).value;
            Step(cfg, s, ev).closed <==> Closes(cfg, start, events, s, ev)
  {
    OpenExact(cfg, start, ip, events);
    var s := Reached(cfg, start, ip, events, 0);
    ClosedBy(cfg, start, events, s, ev);
    hide Run, Init, Step, Enabled, Closes, Flags, Streams, Stamps, Budgets;
  }

  lemma {:induction false} ClosedBy(cfg: Config, start: int, events: seq<Event>, s: State, ev: Event)
    requires Flags(cfg, s) && Budgets(cfg, s) && !s.closed && Enabled(s, ev)
    requires s.fullOpen <==> Connected(events) && !ReadFailed(events)
    requires s.activeTime == LastActive(start, events) && s.now == LastTick(start, events)
    requires s.connected <==> Connected(events)
    ensures Step(cfg, s, ev).closed <==> Closes(cfg, start, events, s, ev)
  {
    hide WriteHandler, ReadHandler, HandleTick, FinishRead, FinishWrite, Fill, Connected, ReadFailed;
    match ev
    case WriteDone(i, r) =>
      TcpFlags.ViewFlags(cfg, s, i);
      WriteCloses(cfg, View(s, i), Other(i), r);
      WritesConnected(cfg, View(s, i));
    case ReadDone(i, r, data) => ReadLife(cfg, View(s, i), r, data);
    case Tick(t) => TickClosesIff(cfg, s.(clock := t), t);
    case KernelFill(i, data) => FillLife(View(s, i), data);
    case ConnectDone(r) => ConnectOpens(cfg, s, r);
    case _ =>
  }

  lemma {:induction false} WritesConnected(cfg: Config, s: State)
    requires Flags(cfg, s) && s.near.writeOps != []
    ensures s.connected
  {
  }

  lemma {:induction false} ConnectOpens(cfg: Config, s: State, r: Completion)
    ensures HandleConnect(s.(connecting := false, connected := r == Success), r).closed <==> s.closed || r == Failed
  {
  }

  /**
   A half-closed connection ends well: once a read has failed and the connection is still open, the write completion that
   empties both queues closes it, and everything that was read has been written, in both directions.
   */
  lemma {:induction false} HalfClosedDrains(cfg: Config, start: int, ip: Pair<int>, events: seq<Event>, i: Side)
    requires Run(cfg, Init(cfg, start, ip), events + [WriteDone(i, Success)]).Some?
    requires ReadFailed(events) && !Run(cfg, Init(cfg, start, ip), events).value.closed
    requires var s := View(Run(cfg, Init(cfg, start, ip), events).value, i); |s.near.queue| == 1 && s.far.queue == []
    ensures var s := Run(cfg, Init(cfg, start, ip), events + [WriteDone(i, Success)]).value;
            s.closed && s.near.output == s.far.input && s.far.output == s.near.input
  {
    assert Front(events + [WriteDone(i, Success)]) == events;
    ClosesIff(cfg, start, ip, events, WriteDone(i, Success));
    DrainDelivers(cfg, start, ip, events, i);
    hide Init, Step, Enabled, ReadFailed;
  }

  /** A connection is erased by the first effective tick that finds it closed or closes it, and by nothing else. */
  lemma {:induction false} ErasedIff(cfg: Config, s: State, ev: Event)
    requires Enabled(s, ev)
    ensures Step(cfg, s, ev).gone <==> ev.Tick? && s.lastFlush < ev.now && Step(cfg, s, ev).closed
  {
    hide WriteHandler, ReadHandler, HandleTick, FinishRead, FinishWrite, Fill, HandleConnect;
    match ev
    case Tick(t) => TickErases(cfg, s.(clock := t), t);
    case WriteDone(i, r) => WriteThere(cfg, FinishWrite(View(s, i), r), Other(i), r); FinishThere(View(s, i), r, []);
    case ReadDone(i, r, data) => ReadThere(cfg, FinishRead(View(s, i), r, data), r, |data|); FinishThere(View(s, i), r, data);
    case KernelFill(i, data) => FinishThere(View(s, i), Success, data);
    case ConnectDone(r) => ConnectThere(s.(connecting := false, connected := r == Success), r);
    case _ =>
  }

  lemma {:induction false} TickErases(cfg: Config, s: State, t: int)
    ensures var s' := HandleTick(cfg, s, t); s'.gone <==> if s.lastFlush < t then s'.closed else s.gone
  {
    hide FlushMsgs;
    FlushCloses(cfg, s.(now := t, lastFlush := t), (t - s.lastFlush) * cfg.bandwidth / 1000, t - cfg.timeout);
  }

  lemma {:induction false} WriteThere(cfg: Config, s: State, index: Side, r: Completion)
    ensures WriteHandler(cfg, s, index, r).gone == s.gone
  {
    TryThere(cfg, s, index);
    if s.near.queue != [] {
      TryThere(cfg, Resume(Pop(s)), index);
      PopThere(s);
    }
    hide TryWrite, Resume, Pop;
  }

  lemma {:induction false} TryThere(cfg: Config, s: State, index: Side)
    ensures TryWrite(cfg, s, index).gone == s.gone
  {
  }

  lemma {:induction false} PopThere(s: State)
    requires s.near.queue != []
    ensures Resume(Pop(s)).gone == s.gone && Pop(s).gone == s.gone
  {
  }

  lemma {:induction false} ReadThere(cfg: Config, s: State, r: Completion, bytes: nat)
    ensures ReadHandler(cfg, s, r, bytes).gone == s.gone
  {
    hide Push, NewBuffer;
    PushThere(cfg, s, bytes);
  }

  lemma {:induction false} PushThere(cfg: Config, s: State, bytes: nat)
    ensures Push(cfg, s, bytes).gone == s.gone
  {
  }

  lemma {:induction false} ConnectThere(s: State, r: Completion)
    ensures HandleConnect(s, r).gone == s.gone
  {
  }

  lemma {:induction false} FinishThere(s: State, r: Completion, data: seq<Byte>)
    ensures s.near.writeOps != [] ==> FinishWrite(s, r).gone == s.gone
    ensures CanFill(s, data) ==> FinishRead(s, r, data).gone == s.gone && Fill(s, data).gone == s.gone
  {
    hide Store;
  }

  // ------------------------------------------------------------------ when a chunk is started

  /**
   What becomes of an idle socket with queue q and balance b, whose client has balance ip: the head is started, and charged to
   both, exactly if there is one, it is due, and no budget that is limited is overdrawn.
   */
  ghost predicate Served(cfg: Config, k: Sock, q: seq<Msg>, b: int, now: int, limit: int, ip: int, ip': int) {
    var go := q != [] && b >= 0 && q[0].due <= now && (limit > 0 ==> ip >= 0);
    var cost := if go then q[0].size + 54 else 0;
    && k.queue == q && k.writing == go && k.writeOps == (if go then [q[0]] else [])
    && k.avail == b - (if cfg.bandwidth > 0 then cost else 0)
    && ip' == ip - (if limit > 0 then cost else 0)
  }

  lemma {:induction false} TryServes(cfg: Config, s: State, index: Side)
    requires s.near.writeOps == [] && (Limited(cfg) ==> s.hasIp)
    ensures var s' := TryWrite(cfg, s, index);
            && Served(cfg, s'.near, s.near.queue, s.near.avail, s.now, cfg.ipLimit.At(index), s.ip.At(index), s'.ip.At(index))
            && s'.ip.At(Other(index)) == s.ip.At(Other(index)) && s'.far == s.far && s'.near.output == s.near.output
  {
  }

  /**
   A completed write that leaves the connection open removes the chunk, and the next one is started exactly if it may be. (The
   client's budgets are numbered the other way round.)
   */
  lemma {:induction false} WriteExact(cfg: Config, start: int, ip: Pair<int>, events: seq<Event>, i: Side)
    requires Run(cfg, Init(cfg, start, ip), events).Some? && Enabled(Run(cfg, Init(cfg, start, ip), events).value, WriteDone(i, Success))
    requires !Step(cfg, Run(cfg, Init(cfg, start, ip), events).value, WriteDone(i, Success)).closed
    ensures var s := Run(cfg, Init(cfg, start, ip), events).value;
            var s' := Step(cfg, s, WriteDone(i, Success));
            var k := View(s, i).near;
            && k.queue != []
            && Served(cfg, View(s', i).near, k.queue[1..], k.avail, s.now, cfg.ipLimit.At(Other(i)), s.ip.At(Other(i)), s'.ip.At(Other(i)))
            && s'.ip.At(i) == s.ip.At(i)
  {
    var v := Reached(cfg, start, ip, events, i);
    var s := Run(cfg, Init(cfg, start, ip), events).value;
    hide Run, Init, Streams, Stamps, Budgets;
    WriteStep(cfg, s, i);
    WriteServes(cfg, v, Other(i));
    hide Step, Enabled, WriteHandler, FinishWrite, Flags;
  }

  lemma {:induction false} WriteStep(cfg: Config, s: State, i: Side)
    requires Enabled(s, WriteDone(i, Success))
    ensures var w := WriteHandler(cfg, FinishWrite(View(s, i), Success), Other(i), Success);
            Step(cfg, s, WriteDone(i, Success)) == View(w, i) && View(View(w, i), i) == w && View(s, i).near.writeOps != []
  {
    hide WriteHandler, FinishWrite;
  }

  lemma {:induction false} WriteServes(cfg: Config, s: State, index: Side)
    requires Flags(cfg, s) && s.near.writeOps != []
    requires !WriteHandler(cfg, FinishWrite(s, Success), index, Success).closed
    ensures var s' := WriteHandler(cfg, FinishWrite(s, Success), index, Success);
            && s.near.queue != []
            && Served(cfg, s'.near, s.near.queue[1..], s.near.avail, s.now, cfg.ipLimit.At(index), s.ip.At(index), s'.ip.At(index))
            && s'.ip.At(Other(index)) == s.ip.At(Other(index))
  {
    var s1 := FinishWrite(s, Success);
    assert s1.near.queue == s.near.queue != [] && s1.near.writing && s1.near.writeOps == [] && s1.near.avail == s.near.avail
           && s1.ip == s.ip && s1.now == s.now && s1.hasIp == s.hasIp;
    PoppedServes(cfg, s1, index);
    hide FinishWrite, Pop, Resume, TryWrite, Served, Flags;
  }

  lemma {:induction false} PoppedServes(cfg: Config, s: State, index: Side)
    requires s.near.queue != [] && s.near.writeOps == [] && (Limited(cfg) ==> s.hasIp)
    ensures var s' := TryWrite(cfg, Resume(Pop(s)), index);
            && Served(cfg, s'.near, s.near.queue[1..], s.near.avail, s.now, cfg.ipLimit.At(index), s.ip.At(index), s'.ip.At(index))
            && s'.ip.At(Other(index)) == s.ip.At(Other(index))
    ensures Stop(Pop(s)).closed
  {
    var s1 := Resume(Pop(s));
    assert s1.near.queue == s.near.queue[1..] && s1.near.writeOps == [] && s1.near.avail == s.near.avail
           && s1.ip == s.ip && s1.now == s.now && s1.hasIp == s.hasIp;
    TryServes(cfg, s1, index);
    hide TryWrite, Resume, Pop, Served;
  }

  // ------------------------------------------------------------------ what a tick does

  /** A negative balance grows by what the bandwidth allows in this time. */
  function Refreshed(cfg: Config, balance: int, ms: int): int {
    if cfg.bandwidth > 0 && balance < 0 then balance + ms * cfg.bandwidth / 1000 else balance
  }

  /** One direction at a tick: refreshed, and then served unless a write is under way. */
  ghost predicate Flushed(cfg: Config, k: Sock, k': Sock, ms: int, now: int, limit: int, ip: int, ip': int) {
    if k.writing then
      k'.avail == Refreshed(cfg, k.avail, ms) && k'.writing && k'.queue == k.queue && k'.writeOps == k.writeOps && ip' == ip
    else Served(cfg, k', k.queue, Refreshed(cfg, k.avail, ms), now, limit, ip, ip')
  }

  lemma {:induction false} NearFlushed(cfg: Config, s: State, index: Side, ms: int)
    requires (!s.near.writing ==> s.near.writeOps == []) && (Limited(cfg) ==> s.hasIp)
    ensures var s' := FlushNear(cfg, s, index, ms * cfg.bandwidth / 1000);
            && Flushed(cfg, s.near, s'.near, ms, s.now, cfg.ipLimit.At(index), s.ip.At(index), s'.ip.At(index))
            && s'.ip.At(Other(index)) == s.ip.At(Other(index)) && s'.far == s.far && s'.now == s.now && s'.hasIp == s.hasIp
  {
    var s1 := RefillNear(cfg, s, ms * cfg.bandwidth / 1000);
    assert s1.near.avail == Refreshed(cfg, s.near.avail, ms) && s1.near.queue == s.near.queue && s1.near.writeOps == s.near.writeOps
           && s1.near.writing == s.near.writing && s1.far == s.far && s1.ip == s.ip && s1.now == s.now && s1.hasIp == s.hasIp;
    hide RefillNear, Refreshed, TryWrite, Served;
    if !s1.near.writing {
      TryServes(cfg, s1, index);
      TryWriteNow(cfg, s1, index);
      TryHasIp(cfg, s1, index);
    }
  }

  lemma {:induction false} TryHasIp(cfg: Config, s: State, index: Side)
    ensures TryWrite(cfg, s, index).hasIp == s.hasIp
  {
  }

  lemma {:induction false} BothFlushed(cfg: Config, s: State, ms: int)
    requires (!s.near.writing ==> s.near.writeOps == []) && (!s.far.writing ==> s.far.writeOps == []) && (Limited(cfg) ==> s.hasIp)
    ensures var bytes := ms * cfg.bandwidth / 1000;
            var s' := Flip(FlushNear(cfg, Flip(FlushNear(cfg, s, 1, bytes)), 0, bytes));
            && Flushed(cfg, s.near, s'.near, ms, s.now, cfg.ipLimit.At(1), s.ip.At(1), s'.ip.At(1))
            && Flushed(cfg, s.far, s'.far, ms, s.now, cfg.ipLimit.At(0), s.ip.At(0), s'.ip.At(0))
  {
    var s1 := FlushNear(cfg, s, 1, ms * cfg.bandwidth / 1000);
    hide FlushNear, Flushed;
    NearFlushed(cfg, s, 1, ms);
    NearFlushed(cfg, Flip(s1), 0, ms);
  }

  /** Before the connect nothing has been charged. */
  ghost predicate Untouched(s: State) {
    !s.connected ==> s.near.avail == 0 && s.far.avail == 0
  }

  lemma {:induction false} StepUntouched(cfg: Config, s: State, ev: Event)
    requires Flags(cfg, s) && Untouched(s) && Enabled(s, ev)
    ensures Untouched(Step(cfg, s, ev))
  {
    hide WriteHandler, ReadHandler, FlushMsgs, FinishRead, FinishWrite, Fill;
    match ev
    case WriteDone(i, r) =>
      WriteLife(cfg, FinishWrite(View(s, i), r), Other(i), r);
      FinishWriteLife(View(s, i), r);
      TcpFlags.ViewFlags(cfg, s, i);
      WritesConnected(cfg, View(s, i));
    case ReadDone(i, r, data) => ReadLife(cfg, View(s, i), r, data); EndsOpen(s, i);
    case Tick(t) =>
      FlushLife(cfg, s.(clock := t, now := t, lastFlush := t), (t - s.lastFlush) * cfg.bandwidth / 1000, t - cfg.timeout);
      IdleFlush(cfg, s.(clock := t, now := t, lastFlush := t), (t - s.lastFlush) * cfg.bandwidth / 1000, t - cfg.timeout);
    case KernelFill(i, data) => FillLife(View(s, i), data); FillBalance(View(s, i), data);
    case ConnectDone(r) => ConnectBalance(s, r);
    case _ =>
  }

  lemma {:induction false} IdleFlush(cfg: Config, s: State, bytes: int, expire: int)
    requires Flags(cfg, s)
    ensures !s.connected ==> FlushMsgs(cfg, s, bytes, expire).s.near.avail == s.near.avail && FlushMsgs(cfg, s, bytes, expire).s.far.avail == s.far.avail
  {
    hide FlushNear;
  }

  lemma {:induction false} FillBalance(s: State, data: seq<Byte>)
    requires CanFill(s, data)
    ensures Fill(s, data).near == s.near && Fill(s, data).far == s.far
  {
  }

  lemma {:induction false} ConnectBalance(s: State, r: Completion)
    ensures var s' := HandleConnect(s, r); s'.near.avail == s.near.avail && s'.far.avail == s.far.avail && s'.connected == s.connected
  {
    hide NewBuffer;
    var s1 := AsyncRead(s.(activeTime := s.now, fullOpen := true));
    assert s1.near.avail == s.near.avail && s1.far.avail == s.far.avail && s1.connected == s.connected;
  }

  lemma {:induction false} RunUntouched(cfg: Config, start: int, ip: Pair<int>, events: seq<Event>)
    requires Run(cfg, Init(cfg, start, ip), events).Some?
    ensures Untouched(Run(cfg, Init(cfg, start, ip), events).value)
    decreases |events|
  {
    if events != [] {
      hide Step, Enabled, Flags, Streams, Stamps, Budgets, Init, Untouched;
      RunUntouched(cfg, start, ip, Front(events));
      var s := Reached(cfg, start, ip, Front(events), 0);
      StepUntouched(cfg, s, Last(events));
    } else {
      hide Run;
    }
  }

  lemma {:induction false} TickServes(cfg: Config, s: State, t: int)
    requires Flags(cfg, s) && Life(s) && Untouched(s) && s.lastFlush < t && !HandleTick(cfg, s, t).closed
    ensures var s' := HandleTick(cfg, s, t);
            && Flushed(cfg, s.near, s'.near, t - s.lastFlush, t, cfg.ipLimit.At(1), s.ip.At(1), s'.ip.At(1))
            && Flushed(cfg, s.far, s'.far, t - s.lastFlush, t, cfg.ipLimit.At(0), s.ip.At(0), s'.ip.At(0))
  {
    var s1 := s.(now := t, lastFlush := t);
    assert (!s.near.writing ==> s.near.writeOps == []) && (!s.far.writing ==> s.far.writeOps == []);
    hide FlushNear, Flushed;
    BothFlushed(cfg, s1, t - s.lastFlush);
    if !s.fullOpen && s.near.queue == [] && s.far.queue == [] {
      NothingFlushed(cfg, s.near, t - s.lastFlush, t, cfg.ipLimit.At(1), s.ip.At(1));
      NothingFlushed(cfg, s.far, t - s.lastFlush, t, cfg.ipLimit.At(0), s.ip.At(0));
    }
  }

  lemma {:induction false} NothingFlushed(cfg: Config, k: Sock, ms: int, now: int, limit: int, ip: int)
    requires k.queue == [] && !k.writing && k.writeOps == [] && k.avail == 0
    ensures Flushed(cfg, k, k, ms, now, limit, ip, ip)
  {
  }

  /**
   An effective tick that leaves the connection open: a balance that was negative has grown by the bandwidth times the time
   since the tick before, exactly; then the head of an idle socket is started and charged, exactly if it may be.
   */
  lemma {:induction false} TickExact(cfg: Config, start: int, ip: Pair<int>, events: seq<Event>, t: int, i: Side)
    requires Run(cfg, Init(cfg, start, ip), events).Some? && Enabled(Run(cfg, Init(cfg, start, ip), events).value, Tick(t))
    requires LastTick(start, events) < t && !Step(cfg, Run(cfg, Init(cfg, start, ip), events).value, Tick(t)).closed
    ensures var s := Run(cfg, Init(cfg, start, ip), events).value;
            var s' := Step(cfg, s, Tick(t));
            Flushed(cfg, View(s, i).near, View(s', i).near, t - LastTick(start, events), t, cfg.ipLimit.At(Other(i)),
                    s.ip.At(Other(i)), s'.ip.At(Other(i)))
  {
    hide Init, Flags, Streams, Stamps, Budgets, Life, Flushed, Untouched, Told, HandleTick;
    var s := Reached(cfg, start, ip, events, 0);
    RunUntouched(cfg, start, ip, events);
    RunTold(cfg, start, ip, events);
    TickAtLast(cfg, start, events, s);
    hide Run;
    TcpFlags.ClockFlags(cfg, s, t);
    ClockLife(s, t);
    TickStep(cfg, s, t);
    TickServes(cfg, s.(clock := t), t);
  }

  lemma {:induction false} TickAtLast(cfg: Config, start: int, events: seq<Event>, s: State)
    requires Budgets(cfg, s) && Told(start, events, s)
    ensures s.lastFlush == LastTick(start, events)
  {
  }

  lemma {:induction false} TickStep(cfg: Config, s: State, t: int)
    requires Enabled(s, Tick(t))
    ensures Step(cfg, s, Tick(t)) == HandleTick(cfg, s.(clock := t), t)
  {
  }

  lemma {:induction false} ClockLife(s: State, t: int)
    requires Life(s) && Untouched(s)
    ensures Life(s.(clock := t)) && Untouched(s.(clock := t))
  {
  }
}
