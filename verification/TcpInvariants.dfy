/** What every step of a TCP connection keeps, one concern at a time; the proofs are in TcpFlags and TcpStream. */
module TcpInvariants {
  import opened TokenBucket
  import opened Tcp

  // ------------------------------------------------------------------ flags and outstanding operations

  /**
   The read side of the near socket: its flag is down exactly while the opposite queue is full, and one read is
   outstanding exactly while the flag is up and the stream has not ended.
   */
  ghost predicate ReadSide(s: State) {
    && |s.far.queue| <= MAX_TCP_MSG_QUEUE_SIZE + 1
    && (!s.near.reading <==> |s.far.queue| == MAX_TCP_MSG_QUEUE_SIZE + 1)
    && s.near.readOps == (if s.connected && s.near.reading && !s.near.ended then [s.near.recvBuf] else [])
    && (s.near.ended ==> s.near.reading && s.connected)
  }

  /** The write side of the near socket: an outstanding write is the only one and is of the head of the queue. */
  ghost predicate WriteSide(s: State) {
    && (s.near.writeOps != [] ==> s.near.writing && s.near.queue != [] && s.near.writeOps == [s.near.queue[0]])
    && (!s.closed && s.near.writing ==> s.near.writeOps != [])
    && (!s.closed && s.near.writeOps != [] ==> s.near.writeOpen)
    && (!s.connected ==> s.near.queue == [] && !s.near.writing)
  }

  ghost predicate Links(cfg: Config, s: State) {
    && (s.connecting ==> !s.connected)
    && (s.fullOpen ==> s.connected)
    && (Limited(cfg) ==> s.hasIp)
    && !s.fault
  }

  ghost predicate Flags(cfg: Config, s: State) {
    ReadSide(s) && ReadSide(Flip(s)) && WriteSide(s) && WriteSide(Flip(s)) && Links(cfg, s)
  }

  /** As Flags, where nothing is known of the near socket's writing flag and no write is outstanding there. */
  ghost predicate FlagsBut(cfg: Config, s: State) {
    && ReadSide(s) && ReadSide(Flip(s)) && WriteSide(Flip(s)) && Links(cfg, s)
    && s.near.writeOps == [] && (!s.connected ==> s.near.queue == [])
  }

  // ------------------------------------------------------------------ buffers and streams

  ghost predicate QueueOk(memory: seq<seq<Byte>>, q: seq<Msg>) {
    forall k | 0 <= k < |q| :: q[k].buf < |memory| && q[k].size <= TCP_BUFFER_SIZE
  }

  ghost predicate Apart(ops: seq<BufId>, q: seq<Msg>) {
    forall j, k | 0 <= j < |ops| && 0 <= k < |q| :: ops[j] != q[k].buf
  }

  /** No queued chunk is in a buffer that an outstanding read may still write to. */
  ghost predicate BufferSide(s: State) {
    && QueueOk(s.memory, s.near.queue)
    && (forall j | 0 <= j < |s.near.readOps| :: s.near.readOps[j] < |s.memory|)
    && Apart(s.near.readOps, s.near.queue) && Apart(s.near.readOps, s.far.queue)
    && (forall j, k | 0 <= j < |s.near.readOps| && 0 <= k < |s.far.readOps| :: s.near.readOps[j] != s.far.readOps[k])
  }

  ghost predicate Buffers(s: State) {
    && (forall b | 0 <= b < |s.memory| :: |s.memory[b]| == TCP_BUFFER_SIZE)
    && BufferSide(s) && BufferSide(Flip(s))
  }

  /** What was written to the near socket followed by what is queued for it is what was read from the far one. */
  ghost predicate StreamSide(s: State) {
    s.near.output + Payloads(s.memory, s.near.queue) == s.far.input
  }

  ghost predicate Streams(s: State) {
    Buffers(s) && StreamSide(s) && StreamSide(Flip(s))
  }

  // ------------------------------------------------------------------ due times

  ghost predicate StampOk(cfg: Config, s: State, m: Msg) {
    && m.due <= s.activeTime + cfg.delay
    && m.tickAtRead <= m.readAt <= s.clock
    && m.due <= m.tickAtRead + cfg.delay
    && (m.openAtRead ==> m.due == m.tickAtRead + cfg.delay)
  }

  ghost predicate StampSide(cfg: Config, s: State) {
    && (forall k | 0 <= k < |s.near.queue| :: StampOk(cfg, s, s.near.queue[k]))
    && (forall j, k | 0 <= j < k < |s.near.queue| :: s.near.queue[j].due <= s.near.queue[k].due)
    && (forall k | 0 <= k < |s.near.writeOps| :: s.near.writeOps[k].due <= s.now)
  }

  ghost predicate Stamps(cfg: Config, s: State) {
    s.activeTime <= s.now <= s.clock && StampSide(cfg, s) && StampSide(cfg, Flip(s))
  }

  // ------------------------------------------------------------------ budgets

  /** The near socket's budget is sound up to time `last`. */
  ghost predicate BudgetSide(cfg: Config, s: State, last: int) {
    if cfg.bandwidth > 0 then Sound(cfg.bandwidth, LARGEST_CHUNK, s.near.avail, s.near.ledger, last)
    else s.near.avail == 0
  }

  ghost predicate Budgets(cfg: Config, s: State) {
    s.now == s.lastFlush && BudgetSide(cfg, s, s.lastFlush) && BudgetSide(cfg, Flip(s), s.lastFlush)
  }

  // ------------------------------------------------------------------ life cycle

  /** A connection that is neither closed nor fully open still has something to deliver. */
  ghost predicate Life(s: State) {
    s.connected && !s.closed && s.near.queue == [] && s.far.queue == [] ==> s.fullOpen
  }

  ghost predicate Inv(cfg: Config, s: State) {
    Flags(cfg, s) && Streams(s) && Stamps(cfg, s) && Budgets(cfg, s) && Life(s)
  }
}
