/** The flags of a TCP connection and its outstanding operations agree after every step. */
module TcpFlags {
  import opened Base
  import opened Tcp
  import opened TcpInvariants

  lemma {:induction false} ViewFlags(cfg: Config, s: State, i: Side)
    requires Flags(cfg, s)
    ensures Flags(cfg, View(s, i))
  {
  }

  lemma {:induction false} ClockFlags(cfg: Config, s: State, t: int)
    requires Flags(cfg, s)
    ensures Flags(cfg, s.(clock := t))
  {
  }

  lemma {:induction false} TryWriteFlags(cfg: Config, s: State, index: Side)
    requires FlagsBut(cfg, s)
    ensures Flags(cfg, TryWrite(cfg, s, index))
  {
  }

  lemma {:induction false} ResumeFlags(cfg: Config, s: State)
    requires FlagsBut(cfg, s) && s.near.queue != [] && s.connected
    ensures FlagsBut(cfg, Resume(Pop(s)))
  {
  }

  /** A write under way on the near socket has just been taken off the list of outstanding ones. */
  ghost predicate WriteEnding(cfg: Config, s: State) {
    FlagsBut(cfg, s) && s.near.queue != [] && s.near.writing && s.connected
  }

  lemma {:induction false} FinishWriteFlags(cfg: Config, s: State, r: Completion)
    requires Flags(cfg, s) && s.near.writeOps != []
    ensures WriteEnding(cfg, FinishWrite(s, r)) && FinishWrite(s, r).closed == s.closed
  {
  }

  /** Once closed, a connection's writing flags no longer tell whether a write is outstanding. */
  lemma {:induction false} WriteEndsClosed(cfg: Config, s: State)
    requires WriteEnding(cfg, s)
    ensures Flags(cfg, Stop(s))
    ensures s.closed ==> Flags(cfg, s)
    ensures |s.near.queue| == 1 && s.far.queue == [] ==> Flags(cfg, Stop(Pop(s)))
  {
  }

  lemma {:induction false} WriteEndsFlags(cfg: Config, s: State, index: Side, r: Completion)
    requires WriteEnding(cfg, s) && (r == Aborted ==> s.closed)
    ensures Flags(cfg, WriteHandler(cfg, s, index, r))
  {
    WriteEndsClosed(cfg, s);
    ResumeFlags(cfg, s);
    TryWriteFlags(cfg, Resume(Pop(s)), index);
    hide Pop, Resume, TryWrite, Stop, Flags, FlagsBut;
  }

  lemma {:induction false} RefillFlags(cfg: Config, s: State, bytes: int)
    requires Flags(cfg, s)
    ensures var s1 := RefillNear(cfg, s, bytes);
            Flags(cfg, s1) && (!s1.near.writing ==> FlagsBut(cfg, s1))
  {
  }

  lemma {:induction false} FlushNearFlags(cfg: Config, s: State, index: Side, bytes: int)
    requires Flags(cfg, s)
    ensures Flags(cfg, FlushNear(cfg, s, index, bytes))
  {
    var s1 := RefillNear(cfg, s, bytes);
    RefillFlags(cfg, s, bytes);
    hide RefillNear, TryWrite, Flags, FlagsBut;
    if !s1.near.writing {
      TryWriteFlags(cfg, s1, index);
    }
  }

  lemma {:induction false} StopFlags(cfg: Config, s: State)
    requires Flags(cfg, s)
    ensures Flags(cfg, Stop(s))
  {
  }

  lemma {:induction false} FlushMsgsFlags(cfg: Config, s: State, bytes: int, expire: int)
    requires Flags(cfg, s)
    ensures Flags(cfg, FlushMsgs(cfg, s, bytes, expire).s)
  {
    hide FlushNear, Flip, Flags, Stop;
    StopFlags(cfg, s);
    var s1 := FlushNear(cfg, s, 1, bytes);
    FlushNearFlags(cfg, s, 1, bytes);
    ViewFlags(cfg, s1, 1);
    FlushNearFlags(cfg, Flip(s1), 0, bytes);
    ViewFlags(cfg, FlushNear(cfg, Flip(s1), 0, bytes), 1);
  }

  lemma {:induction false} TickFlags(cfg: Config, s: State, now: int)
    requires Flags(cfg, s)
    ensures Flags(cfg, HandleTick(cfg, s, now))
  {
    hide FlushMsgs;
    if now > s.lastFlush {
      FlushMsgsFlags(cfg, s.(now := now, lastFlush := now), (now - s.lastFlush) * cfg.bandwidth / 1000, now - cfg.timeout);
    }
  }

  lemma {:induction false} ConnectFlags(cfg: Config, s: State, r: Completion)
    requires Flags(cfg, s) && Enabled(s, ConnectDone(r))
    ensures Flags(cfg, HandleConnect(s.(connecting := false, connected := r == Success), r))
  {
  }

  lemma {:induction false} FinishReadFlags(cfg: Config, s: State, data: seq<Byte>)
    requires Flags(cfg, s) && CanFill(s, data)
    ensures var s1 := FinishRead(s, Success, data);
            && Flags(cfg, s1.(near := s1.near.(readOps := s.near.readOps)))
            && s1.near.readOps == [] && s.near.readOps != [] && s.near.readOps == [s.near.recvBuf]
  {
  }

  lemma {:induction false} PushFlags(cfg: Config, s: State, bytes: nat)
    requires Flags(cfg, s.(near := s.near.(readOps := [s.near.recvBuf]))) && s.near.readOps == []
    ensures Flags(cfg, ReadHandler(cfg, s, Success, bytes))
  {
    if |s.far.queue| >= MAX_TCP_MSG_QUEUE_SIZE {
    } else {
    }
  }

  lemma {:induction false} ReadArrivesFlags(cfg: Config, s: State, data: seq<Byte>)
    requires Flags(cfg, s) && CanFill(s, data)
    ensures Flags(cfg, ReadHandler(cfg, FinishRead(s, Success, data), Success, |data|))
  {
    FinishReadFlags(cfg, s, data);
    var s1 := FinishRead(s, Success, data);
    assert s1.near.recvBuf == s.near.recvBuf;
    hide FinishRead, ReadHandler, Flags;
    PushFlags(cfg, s1, |data|);
  }

  lemma {:induction false} ReadEndsFlags(cfg: Config, s: State, r: Completion, data: seq<Byte>)
    requires Flags(cfg, s) && CanFill(s, data) && r != Success
    ensures var s1 := FinishRead(s, r, data);
            Flags(cfg, s1) && Flags(cfg, Stop(s1)) && (s1.far.queue != [] ==> Flags(cfg, s1.(fullOpen := false)))
  {
  }

  lemma {:induction false} ReadFlags(cfg: Config, s: State, r: Completion, data: seq<Byte>)
    requires Flags(cfg, s) && CanFill(s, data)
    ensures Flags(cfg, ReadHandler(cfg, FinishRead(s, r, data), r, |data|))
  {
    if r == Success {
      ReadArrivesFlags(cfg, s, data);
    } else {
      ReadEndsFlags(cfg, s, r, data);
    }
    hide FinishRead, Flags, Stop, Push, AsyncRead;
  }

  lemma {:induction false} StepFlags(cfg: Config, s: State, ev: Event)
    requires Flags(cfg, s) && Enabled(s, ev)
    ensures Flags(cfg, Step(cfg, s, ev))
  {
    hide WriteHandler, ReadHandler, HandleConnect, HandleTick, FinishRead, FinishWrite, Store;
    match ev
    case WriteDone(i, r) =>
      ViewFlags(cfg, s, i);
      FinishWriteFlags(cfg, View(s, i), r);
      WriteEndsFlags(cfg, FinishWrite(View(s, i), r), Other(i), r);
      ViewFlags(cfg, WriteHandler(cfg, FinishWrite(View(s, i), r), Other(i), r), i);
    case ReadDone(i, r, data) =>
      ViewFlags(cfg, s, i);
      ReadFlags(cfg, View(s, i), r, data);
      ViewFlags(cfg, ReadHandler(cfg, FinishRead(View(s, i), r, data), r, |data|), i);
    case ConnectDone(r) => ConnectFlags(cfg, s, r);
    case Passes(t) => ClockFlags(cfg, s, t);
    case Tick(now) =>
      ClockFlags(cfg, s, now);
      TickFlags(cfg, s.(clock := now), now);
    case _ =>
  }
}
