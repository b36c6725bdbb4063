/** Buffers are never overwritten while queued, and each stream arrives unchanged and in order. */
module TcpStream {
  import opened Base
  import opened Tcp
  import opened TcpInvariants
  import TcpFlags

  lemma {:induction false} ViewStreams(s: State, i: Side)
    requires Streams(s)
    ensures Streams(View(s, i))
  {
  }

  /** Only these fields matter. */
  ghost predicate SameStreams(s: State, s': State) {
    && s'.memory == s.memory
    && s'.near.queue == s.near.queue && s'.far.queue == s.far.queue
    && s'.near.readOps == s.near.readOps && s'.far.readOps == s.far.readOps
    && s'.near.input == s.near.input && s'.far.input == s.far.input
    && s'.near.output == s.near.output && s'.far.output == s.far.output
  }

  lemma {:induction false} SameStreamsKept(s: State, s': State)
    requires Streams(s) && SameStreams(s, s')
    ensures Streams(s')
  {
  }

  lemma {:induction false} TryWriteSame(cfg: Config, s: State, index: Side)
    ensures SameStreams(s, TryWrite(cfg, s, index))
  {
  }

  lemma {:induction false} RefillSame(cfg: Config, s: State, bytes: int)
    ensures SameStreams(s, RefillNear(cfg, s, bytes))
  {
  }

  /** Memory may change anywhere but in the queued buffers. */
  lemma {:induction false} PayloadsKept(memory: seq<seq<Byte>>, memory': seq<seq<Byte>>, q: seq<Msg>)
    requires QueueOk(memory, q) && |memory| <= |memory'|
    requires forall k | 0 <= k < |q| :: memory'[q[k].buf] == memory[q[k].buf]
    ensures Payloads(memory', q) == Payloads(memory, q)
  {
  }

  lemma {:induction false} AsyncReadBuffers(s: State)
    requires Buffers(s) && s.near.readOps == []
    ensures Buffers(AsyncRead(s))
  {
  }

  /** A new buffer for a read from the near socket, with no read from it outstanding. */
  lemma {:induction false} AsyncReadStreams(s: State)
    requires Streams(s) && s.near.readOps == []
    ensures Streams(AsyncRead(s))
  {
    AsyncReadBuffers(s);
    var s' := AsyncRead(s);
    assert BufferSide(s) && BufferSide(Flip(s));
    assert StreamSide(s) && StreamSide(Flip(s));
    hide Buffers, BufferSide;
    PayloadsKept(s.memory, s'.memory, s.near.queue);
    PayloadsKept(s.memory, s'.memory, s.far.queue);
  }

  lemma {:induction false} FillBuffers(s: State, data: seq<Byte>)
    requires Buffers(s) && CanFill(s, data)
    ensures Buffers(Fill(s, data))
    ensures forall k | 0 <= k < |s.near.queue| :: Fill(s, data).memory[s.near.queue[k].buf] == s.memory[s.near.queue[k].buf]
    ensures forall k | 0 <= k < |s.far.queue| :: Fill(s, data).memory[s.far.queue[k].buf] == s.memory[s.far.queue[k].buf]
  {
  }

  lemma {:induction false} FillStreams(s: State, data: seq<Byte>)
    requires Streams(s) && CanFill(s, data)
    ensures Streams(Fill(s, data))
  {
    FillBuffers(s, data);
    var s' := Fill(s, data);
    assert BufferSide(s) && BufferSide(Flip(s));
    assert StreamSide(s) && StreamSide(Flip(s));
    hide Buffers, BufferSide;
    PayloadsKept(s.memory, s'.memory, s.near.queue);
    PayloadsKept(s.memory, s'.memory, s.far.queue);
  }

  /** A read that ends adds its bytes to the input and, as a chunk, to the opposite queue. */
  lemma {:induction false} ReadArrivesStreams(cfg: Config, s: State, data: seq<Byte>)
    requires Streams(s) && CanFill(s, data) && s.near.readOps == [s.near.recvBuf]
    ensures Streams(Push(cfg, FinishRead(s, Success, data), |data|))
  {
    var f := Fill(s, data);
    FillStreams(s, data);
    var s' := Push(cfg, FinishRead(s, Success, data), |data|);
    var b := s.near.recvBuf;
    assert f.memory[b][..|data|] == data;
    assert Payloads(f.memory, s'.far.queue) == Payloads(f.memory, f.far.queue) + [data];
    assert s'.far.output + Payloads(s'.memory, s'.far.queue) == s'.near.input;
    assert StreamSide(f);
  }

  lemma {:induction false} WriteEndsBuffers(s: State)
    requires Buffers(s) && s.near.queue != [] && s.near.writeOps != []
    ensures Buffers(Pop(FinishWrite(s, Success)))
  {
  }

  /** A write that ends moves the head of the queue to the output. */
  lemma {:induction false} WriteEndsStreams(s: State)
    requires Streams(s) && s.near.queue != [] && s.near.writeOps == [s.near.queue[0]]
    ensures Streams(Pop(FinishWrite(s, Success)))
  {
    var q := s.near.queue;
    WriteEndsBuffers(s);
    assert Payloads(s.memory, q) == [Payload(s.memory, q[0])] + Payloads(s.memory, q[1..]);
    assert StreamSide(s) && StreamSide(Flip(s));
    assert s.near.output + Payloads(s.memory, q) == (s.near.output + [Payload(s.memory, q[0])]) + Payloads(s.memory, q[1..]);
    hide Buffers;
  }

  // ------------------------------------------------------------------ the handlers

  lemma {:induction false} ResumeStreams(s: State)
    requires Streams(s) && (!s.far.reading ==> s.far.readOps == [])
    ensures Streams(Resume(s))
  {
    if !s.far.reading {
      var s1 := s.(far := s.far.(reading := true));
      SameStreamsKept(s, s1);
      hide Streams;
      ViewStreams(s1, 1);
      AsyncReadStreams(Flip(s1));
      ViewStreams(AsyncRead(Flip(s1)), 1);
    }
  }

  lemma {:induction false} WriteFailsStreams(cfg: Config, s: State, index: Side, r: Completion)
    requires Streams(s) && s.near.writeOps != [] && r != Success
    ensures Streams(WriteHandler(cfg, FinishWrite(s, r), index, r))
  {
    var s1 := FinishWrite(s, r);
    SameStreamsKept(s, s1);
    SameStreamsKept(s, Stop(s1));
    hide Streams, SameStreams, FinishWrite;
  }

  lemma {:induction false} WriteDoneStreams(cfg: Config, s: State, index: Side, r: Completion)
    requires Flags(cfg, s) && Streams(s) && s.near.writeOps != []
    ensures Streams(WriteHandler(cfg, FinishWrite(s, r), index, r))
  {
    if r == Success {
      var s1 := FinishWrite(s, r);
      WriteEndsStreams(s);
      var s2 := Pop(s1);
      assert !s2.far.reading ==> s2.far.readOps == [];
      assert s1.near.writing && s1.near.queue != [];
      hide Streams, FinishWrite, Resume, Pop, TryWrite, Flags;
      SameStreamsKept(s2, Stop(s2));
      ResumeStreams(s2);
      TryWriteSame(cfg, Resume(s2), index);
      SameStreamsKept(Resume(s2), TryWrite(cfg, Resume(s2), index));
    } else {
      WriteFailsStreams(cfg, s, index, r);
    }
  }

  lemma {:induction false} ReadEndsStreams(s: State, r: Completion, data: seq<Byte>)
    requires Streams(s) && CanFill(s, data) && r != Success
    ensures Streams(FinishRead(s, r, data))
  {
  }

  lemma {:induction false} ReadDoneStreams(cfg: Config, s: State, r: Completion, data: seq<Byte>)
    requires Flags(cfg, s) && Streams(s) && CanFill(s, data)
    ensures Streams(ReadHandler(cfg, FinishRead(s, r, data), r, |data|))
  {
    var s1 := FinishRead(s, r, data);
    if r == Success {
      ReadArrivesStreams(cfg, s, data);
      var s2 := Push(cfg, s1, |data|);
      assert s2.near.readOps == [];
      SameStreamsKept(s2, s2.(near := s2.near.(reading := false)));
      AsyncReadStreams(s2);
      hide Streams, SameStreams, FinishRead, Push, AsyncRead, Flags;
    } else {
      ReadEndsStreams(s, r, data);
      SameStreamsKept(s1, Stop(s1));
      SameStreamsKept(s1, s1.(fullOpen := false));
      hide Streams, SameStreams, FinishRead, Flags;
    }
  }

  lemma {:induction false} ConnectStreams(cfg: Config, s: State, r: Completion)
    requires Flags(cfg, s) && Streams(s) && s.connecting
    ensures Streams(HandleConnect(s.(connecting := false, connected := r == Success), r))
  {
    var s1 := s.(connecting := false, connected := r == Success);
    var s2 := s1.(activeTime := s1.now, fullOpen := true);
    assert s2.near.readOps == [] && s2.far.readOps == [];
    SameStreamsKept(s, s1);
    SameStreamsKept(s, Stop(s1));
    SameStreamsKept(s, s2);
    AsyncReadStreams(s2);
    var s3 := AsyncRead(s2);
    assert s3.far.readOps == [];
    hide Streams, SameStreams, Flags, AsyncRead;
    ViewStreams(s3, 1);
    AsyncReadStreams(Flip(s3));
    ViewStreams(AsyncRead(Flip(s3)), 1);
  }

  lemma {:induction false} FlushNearStreams(cfg: Config, s: State, index: Side, bytes: int)
    requires Streams(s)
    ensures Streams(FlushNear(cfg, s, index, bytes))
  {
    var s1 := RefillNear(cfg, s, bytes);
    hide TryWrite, RefillNear, Streams, SameStreams;
    RefillSame(cfg, s, bytes);
    SameStreamsKept(s, s1);
    TryWriteSame(cfg, s1, index);
    SameStreamsKept(s1, TryWrite(cfg, s1, index));
  }

  lemma {:induction false} FlushMsgsStreams(cfg: Config, s: State, bytes: int, expire: int)
    requires Streams(s)
    ensures Streams(FlushMsgs(cfg, s, bytes, expire).s)
  {
    hide FlushNear, Flip, Streams;
    SameStreamsKept(s, Stop(s));
    hide SameStreams, Stop;
    var s1 := FlushNear(cfg, s, 1, bytes);
    FlushNearStreams(cfg, s, 1, bytes);
    ViewStreams(s1, 1);
    FlushNearStreams(cfg, Flip(s1), 0, bytes);
    ViewStreams(FlushNear(cfg, Flip(s1), 0, bytes), 1);
  }

  lemma {:induction false} TickStreams(cfg: Config, s: State, now: int)
    requires Streams(s)
    ensures Streams(HandleTick(cfg, s, now))
  {
    hide FlushMsgs, Streams;
    var bytes := (now - s.lastFlush) * cfg.bandwidth / 1000;
    var s1 := s.(now := now, lastFlush := now);
    var s2 := FlushMsgs(cfg, s1, bytes, now - cfg.timeout).s;
    SameStreamsKept(s, s1);
    SameStreamsKept(s, s.(now := now));
    FlushMsgsStreams(cfg, s1, bytes, now - cfg.timeout);
    SameStreamsKept(s2, s2.(gone := !FlushMsgs(cfg, s1, bytes, now - cfg.timeout).alive));
  }

  lemma {:induction false} StepStreams(cfg: Config, s: State, ev: Event)
    requires Flags(cfg, s) && Streams(s) && Enabled(s, ev)
    ensures Streams(Step(cfg, s, ev))
  {
    hide WriteHandler, ReadHandler, HandleConnect, HandleTick, FinishRead, FinishWrite, Store, Streams;
    match ev
    case WriteDone(i, r) =>
      TcpFlags.ViewFlags(cfg, s, i);
      ViewStreams(s, i);
      WriteDoneStreams(cfg, View(s, i), Other(i), r);
      ViewStreams(WriteHandler(cfg, FinishWrite(View(s, i), r), Other(i), r), i);
    case ReadDone(i, r, data) =>
      TcpFlags.ViewFlags(cfg, s, i);
      ViewStreams(s, i);
      ReadDoneStreams(cfg, View(s, i), r, data);
      ViewStreams(ReadHandler(cfg, FinishRead(View(s, i), r, data), r, |data|), i);
    case KernelFill(i, data) =>
      ViewStreams(s, i);
      FillStreams(View(s, i), data);
      ViewStreams(Fill(View(s, i), data), i);
    case ConnectDone(r) => ConnectStreams(cfg, s, r);
    case Passes(t) => SameStreamsKept(s, s.(clock := t));
    case Tick(now) =>
      SameStreamsKept(s, s.(clock := now));
      TickStreams(cfg, s.(clock := now), now);
    case OthersUseIp(ip) => SameStreamsKept(s, s.(ip := ip));
    case ServerStop => SameStreamsKept(s, Stop(s));
  }
}
