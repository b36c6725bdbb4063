/**
 One proxied TCP connection (src/tcp_proxy.cpp:11-195) and the part of its proxy that drives it (299-333), as a state
 machine. Socket 0 leads to the client and socket 1 to the server; queue i holds the chunks to be written to socket i,
 read from the other socket. Each handler is one atomic step; all handlers of a connection run in one thread.
 */
module Tcp {
  import opened Base
  import opened TokenBucket

  const MAX_TCP_MSG_QUEUE_SIZE := 1
  const LARGEST_CHUNK := TCP_BUFFER_SIZE + TCP_PACKET_EXTRA_OVERHEAD

  type Byte = bv8
  type BufId = nat

  /** `ipLimit` holds the limits per client address: 0 for sending to the server, 1 for receiving from it. */
  datatype Config = Config(bandwidth: int, delay: int, timeout: int, ipLimit: Pair<int>)

  /**
   A queued chunk: its due time and its buffer. The rest is history: when it was read, the proxy's time then, which is that
   of its last tick, and whether the connection was fully open.
   */
  datatype Msg = Msg(due: int, buf: BufId, size: nat, readAt: int, tickAtRead: int, openAtRead: bool)

  /**
   One socket of the pair. The first five fields are the entries of the member arrays. Then the operations under way:
   targets of outstanding reads, chunks of outstanding writes, and whether the socket was open when these were started.
   Then the history: whether the stream to be read has ended, what was read from and written to the socket, and the charges.
   */
  datatype Sock = Sock(
    recvBuf: BufId,
    queue: seq<Msg>,
    avail: int,
    writing: bool,
    reading: bool,
    readOps: seq<BufId>,
    writeOps: seq<Msg>,
    writeOpen: bool,
    ended: bool,
    input: seq<seq<Byte>>,
    output: seq<seq<Byte>>,
    ledger: Ledger)

  /**
   A connection seen from one of its sockets: `near` is that socket and `far` the opposite one. The other fields are
   the same from both sides: those of the connection; `now` and `lastFlush` of its proxy, and the clock; the connect under
   way; the memory of all buffers; the balances of the client's own budget. `gone` means erased from the proxy's list;
   `fault` means that an assertion failed or a null pointer was followed.
   */
  datatype State = State(
    near: Sock,
    far: Sock,
    closed: bool,
    fullOpen: bool,
    activeTime: int,
    hasIp: bool,
    now: int,
    lastFlush: int,
    clock: int,
    connecting: bool,
    connected: bool,
    memory: seq<seq<Byte>>,
    ip: Pair<int>,
    gone: bool,
    fault: bool)

  /** The same connection seen from the opposite socket. */
  function Flip(s: State): State {
    s.(near := s.far, far := s.near)
  }

  /** From the view of socket 0 to that of socket i, and back. */
  function View(s: State, i: Side): State {
    if i == 0 then s else Flip(s)
  }

  datatype Completion = Success | Aborted | Failed

  datatype Event =
    | ConnectDone(r: Completion)
    | ReadDone(i: Side, r: Completion, data: seq<Byte>)
    | WriteDone(i: Side, r: Completion)
    | KernelFill(i: Side, data: seq<Byte>)     // an outstanding read puts bytes into its buffer early
    | OthersUseIp(ip: Pair<int>)               // the client's other connections, its datagrams and the refill thread
    | Passes(t: int)                           // time passes
    | Tick(now: int)
    | ServerStop

  /** A newly allocated buffer; what it holds is of no importance. */
  function NewBuffer(): (b: seq<Byte>)
    ensures |b| == TCP_BUFFER_SIZE
  {
    seq(TCP_BUFFER_SIZE, _ => 0)
  }

  function Limited(cfg: Config): bool {
    cfg.ipLimit != Pair(0, 0)
  }

  const NEW_SOCK := Sock(0, [], 0, false, true, [], [], true, false, [], [], NEW_LEDGER)

  /** The connection right after its constructor and start(), seen from socket 0 as everywhere outside the handlers. */
  function Init(cfg: Config, now: int, ip: Pair<int>): State {
    State(NEW_SOCK, NEW_SOCK, false, false, now, Limited(cfg), now, now, now, true, false, [], ip, false, false)
  }

  // ------------------------------------------------------------------ the handlers, from the view of their socket

  function Stop(s: State): State {
    s.(closed := true)
  }

  /** Allocates a new buffer and starts a read into it. */
  function AsyncRead(s: State): State {
    var b := |s.memory|;
    s.(memory := s.memory + [NewBuffer()], near := s.near.(recvBuf := b, readOps := s.near.readOps + [b]))
  }

  function Cost(m: Msg): nat {
    m.size + TCP_PACKET_EXTRA_OVERHEAD
  }

  /** Lines 112-114: there is a head, the budget is not overdrawn, and the head is due. */
  predicate HeadReady(s: State) {
    s.near.queue != [] && s.near.avail >= 0 && s.near.queue[0].due <= s.now
  }

  /** Lines 117-129: the client's own budget, if it is limited, allows it too. */
  predicate MayWrite(cfg: Config, s: State, index: Side) {
    HeadReady(s) && (cfg.ipLimit.At(index) > 0 ==> s.hasIp && s.ip.At(index) >= 0)
  }

  /**
   Lines 112-142: start writing the head and charge for it, or become idle. `index` is that of the client's budget.
   Consulting the budget of a connection that has none is a fault.
   */
  function TryWrite(cfg: Config, s: State, index: Side): State {
    var go, k, limited := MayWrite(cfg, s, index), s.near, cfg.ipLimit.At(index) > 0;
    s.(near := k.(
         writing := go,
         writeOps := if go then k.writeOps + [k.queue[0]] else k.writeOps,
         writeOpen := if go then !s.closed else k.writeOpen,
         avail := if go && cfg.bandwidth > 0 then k.avail - Cost(k.queue[0]) else k.avail,
         ledger := if go && cfg.bandwidth > 0 then Charged(k.ledger, Cost(k.queue[0]), s.now) else k.ledger),
       ip := if go && limited then s.ip.With(index, s.ip.At(index) - Cost(k.queue[0])) else s.ip,
       fault := s.fault || (HeadReady(s) && limited && !s.hasIp))
  }

  function Pop(s: State): State
    requires s.near.queue != []
  {
    s.(near := s.near.(queue := s.near.queue[1..]))
  }

  /** Lines 106-110: read again from the opposite socket if that had stopped. */
  function Resume(s: State): State {
    if s.far.reading then s else Flip(AsyncRead(Flip(s.(far := s.far.(reading := true)))))
  }

  function WriteHandler(cfg: Config, s: State, index: Side, r: Completion): State {
    if r == Failed then Stop(s)
    else if r == Aborted then s
    else if s.near.writing then
      if s.near.queue == [] then s.(fault := true)
      else if !s.fullOpen && |s.near.queue| == 1 && s.far.queue == [] then Stop(Pop(s))
      else TryWrite(cfg, Resume(Pop(s)), index)
    else
      TryWrite(cfg, s, index)
  }

  /** Lines 182-187: queue what was read for the opposite socket. */
  function Push(cfg: Config, s: State, bytes: nat): State {
    var active := if s.fullOpen then s.now else s.activeTime;
    var msg := Msg(active + cfg.delay, s.near.recvBuf, bytes, s.clock, s.now, s.fullOpen);
    s.(activeTime := active, far := s.far.(queue := s.far.queue + [msg]))
  }

  function ReadHandler(cfg: Config, s: State, r: Completion, bytes: nat): State {
    if r == Failed then
      if s.far.queue != [] then s.(fullOpen := false) else Stop(s)
    else if r == Aborted then s
    else
      var pushed := Push(cfg, s, bytes);
      if |pushed.far.queue| > MAX_TCP_MSG_QUEUE_SIZE then pushed.(near := pushed.near.(reading := false))
      else AsyncRead(pushed)
  }

  /** Lines 72-75. */
  function RefillNear(cfg: Config, s: State, bytes: int): State {
    var k, low := s.near, cfg.bandwidth > 0 && s.near.avail < 0;
    s.(near := k.(avail := if low then k.avail + bytes else k.avail,
                  ledger := if low then Refilled(k.ledger, k.avail, bytes) else k.ledger))
  }

  /** One turn of the loop in flushMsgs: lines 72-80. */
  function FlushNear(cfg: Config, s: State, index: Side, bytes: int): State {
    var s1 := RefillNear(cfg, s, bytes);
    if s1.near.writing then s1 else TryWrite(cfg, s1, index)
  }

  // ------------------------------------------------------------------ the handlers, from the view of socket 0

  function HandleWrite(cfg: Config, s: State, i: Side, r: Completion): State {
    View(WriteHandler(cfg, View(s, i), Other(i), r), i)
  }

  function HandleRead(cfg: Config, s: State, i: Side, r: Completion, bytes: nat): State {
    View(ReadHandler(cfg, View(s, i), r, bytes), i)
  }

  function HandleConnect(s: State, r: Completion): State {
    if r == Failed then Stop(s)
    else if r == Aborted then s
    else Flip(AsyncRead(Flip(AsyncRead(s.(activeTime := s.now, fullOpen := true)))))
  }

  datatype FlushResult = FlushResult(alive: bool, s: State)

  function FlushMsgs(cfg: Config, s: State, bytes: int, expire: int): FlushResult {
    if s.closed then FlushResult(false, s)
    else if s.activeTime < expire then FlushResult(false, Stop(s))
    else if !s.fullOpen && s.near.queue == [] && s.far.queue == [] then FlushResult(true, s)
    else FlushResult(true, Flip(FlushNear(cfg, Flip(FlushNear(cfg, s, 1, bytes)), 0, bytes)))
  }

  /** TcpProxy::handleWait as this connection sees it; a connection whose flush fails is erased. */
  function HandleTick(cfg: Config, s: State, now: int): State {
    if now <= s.lastFlush then s.(now := now)
    else
      var bytes := (now - s.lastFlush) * cfg.bandwidth / 1000;
      var r := FlushMsgs(cfg, s.(now := now, lastFlush := now), bytes, now - cfg.timeout);
      r.s.(gone := !r.alive)
  }

  // ------------------------------------------------------------------ the machine

  predicate CanFill(s: State, data: seq<Byte>) {
    s.near.readOps != [] && s.near.readOps[0] < |s.memory| && |data| <= TCP_BUFFER_SIZE
  }

  /**
   Each operation completes once, is aborted only after a close, and a read returns at most a buffer. A write started on a
   closed socket does not succeed.
   */
  predicate Enabled(s: State, ev: Event) {
    && !s.gone
    && match ev
       case ConnectDone(r) => s.connecting && (r == Aborted ==> s.closed)
       case ReadDone(i, r, data) => CanFill(View(s, i), data) && (r == Aborted ==> s.closed)
       case WriteDone(i, r) =>
         View(s, i).near.writeOps != [] && (r == Aborted ==> s.closed) && (r == Success ==> View(s, i).near.writeOpen)
       case KernelFill(i, data) => CanFill(View(s, i), data)
       case OthersUseIp(ip) => true
       case Passes(t) => s.clock <= t
       case Tick(now) => s.clock <= now
       case ServerStop => true
  }

  /** Overwrites the start of a buffer. */
  function Store(memory: seq<seq<Byte>>, b: BufId, data: seq<Byte>): seq<seq<Byte>>
    requires b < |memory|
  {
    memory[b := if |data| <= |memory[b]| then data + memory[b][|data|..] else data]
  }

  function Payload(memory: seq<seq<Byte>>, m: Msg): seq<Byte> {
    if m.buf < |memory| && m.size <= |memory[m.buf]| then memory[m.buf][..m.size] else []
  }

  function Payloads(memory: seq<seq<Byte>>, q: seq<Msg>): seq<seq<Byte>> {
    seq(|q|, k requires 0 <= k < |q| => Payload(memory, q[k]))
  }

  /** An outstanding read puts bytes into its buffer. */
  function Fill(s: State, data: seq<Byte>): State
    requires CanFill(s, data)
  {
    s.(memory := Store(s.memory, s.near.readOps[0], data))
  }

  /** What the socket does when a read ends: the bytes are in the buffer the read was started with. */
  function FinishRead(s: State, r: Completion, data: seq<Byte>): State
    requires CanFill(s, data)
  {
    var rest := s.near.readOps[1..];
    if r == Success then
      Fill(s, data).(near := s.near.(readOps := rest, input := s.near.input + [data]))
    else
      s.(near := s.near.(readOps := rest, ended := true))
  }

  /** What the socket does when a write ends: the bytes sent are those in the chunk's buffer. */
  function FinishWrite(s: State, r: Completion): State
    requires s.near.writeOps != []
  {
    var rest := s.near.writeOps[1..];
    if r == Success then
      s.(near := s.near.(writeOps := rest, output := s.near.output + [Payload(s.memory, s.near.writeOps[0])]))
    else
      s.(near := s.near.(writeOps := rest))
  }

  function Step(cfg: Config, s: State, ev: Event): State
    requires Enabled(s, ev)
  {
    match ev
    case ConnectDone(r) => HandleConnect(s.(connecting := false, connected := r == Success), r)
    case ReadDone(i, r, data) => View(ReadHandler(cfg, FinishRead(View(s, i), r, data), r, |data|), i)
    case WriteDone(i, r) => View(WriteHandler(cfg, FinishWrite(View(s, i), r), Other(i), r), i)
    case KernelFill(i, data) => View(Fill(View(s, i), data), i)
    case OthersUseIp(ip) => s.(ip := ip)
    case Passes(t) => s.(clock := t)
    case Tick(now) => HandleTick(cfg, s.(clock := now), now)
    case ServerStop => Stop(s)
  }

  function Run(cfg: Config, s: State, events: seq<Event>): Option<State>
    decreases |events|
  {
    if events == [] then Some(s)
    else
      match Run(cfg, s, Front(events))
      case None => None
      case Some(s1) => if Enabled(s1, Last(events)) then Some(Step(cfg, s1, Last(events))) else None
  }
}
