/** What every step of the UDP endpoint table keeps, one concern at a time. */
module UdpInvariants {
  import opened TokenBucket
  import opened Udp

  // ------------------------------------------------------------------ the table and the passes over it

  /** A key of the table is the peer of its endpoint's socket. */
  ghost predicate Keys(s: State) {
    && 0 < s.now <= s.clock
    && (forall k <- s.epts :: s.epts[k].dst == k)
    && s.newKeys <= s.epts.Keys
    && (!s.phase.Moving? ==> s.newKeys == {})
  }

  /** The keys still to be visited are in the table, once each, and none of them is new. */
  ghost predicate Visits(s: State) {
    && (s.phase.Moving? ==>
          && NoDuplicates(s.phase.todo)
          && (forall i | 0 <= i < |s.phase.todo| :: s.phase.todo[i] in s.epts && s.phase.todo[i] !in s.newKeys)
          && (s.phase.entered ==> s.phase.todo != [] && s.epts[s.phase.todo[0]].activeTm != 0)
          && 0 < s.phase.interval)
    && (s.phase.Sending? ==> forall i | 0 <= i < |s.phase.todo| :: s.phase.todo[i] in s.epts)
  }

  // ------------------------------------------------------------------ queues and receives

  ghost predicate SendQueues(s: State) {
    forall k <- s.epts :: |s.epts[k].sendQ| <= MAX_UDP_MSG_QUEUE_SIZE
  }

  /**
   Receiving has stopped exactly while the queue is full. Otherwise one receive of a live endpoint is waiting or not yet
   handled; a stopped endpoint may still have one that had ended before.
   */
  predicate FlagsOk(e: Ept) {
    && |e.recvQ| <= MAX_UDP_MSG_QUEUE_SIZE + 1
    && (!e.recving <==> |e.recvQ| == MAX_UDP_MSG_QUEUE_SIZE + 1)
    && |e.recvs| <= (if e.recving then 1 else 0)
    && (e.activeTm != 0 && e.recving ==> |e.recvs| == 1)
  }

  ghost predicate Flags(s: State) {
    forall k <- s.epts :: FlagsOk(s.epts[k])
  }

  // ------------------------------------------------------------------ stamps

  predicate Nondecreasing(q: seq<Dgram>) {
    forall i, j | 0 <= i < j < |q| :: q[i].time <= q[j].time
  }

  predicate DueBy(q: seq<Dgram>, t: int) {
    forall i | 0 <= i < |q| :: q[i].time <= t
  }

  predicate StampsOk(e: Ept, clock: int, now: int) {
    Nondecreasing(e.recvQ) && DueBy(e.recvQ, clock + e.rule.delay) && DueBy(e.sendQ, now)
  }

  ghost predicate Stamps(s: State) {
    forall k <- s.epts :: StampsOk(s.epts[k], s.clock, s.now)
  }

  // ------------------------------------------------------------------ budgets

  ghost predicate BudgetsOk(e: Ept, last: int) {
    if Metered(e) then
      && Sound(e.rule.bandwidth, LARGEST_DATAGRAM, e.recvAvail, e.recvLedger, last)
      && Sound(e.rule.bandwidth, LARGEST_DATAGRAM, e.sendAvail, e.sendLedger, last)
    else e.recvAvail == 0 && e.sendAvail == 0
  }

  /** Whether the current pass has still to refill the budgets of endpoint k. */
  predicate Unfilled(s: State, k: Addr) {
    s.phase.Moving? && k in s.phase.todo[if s.phase.entered && s.phase.todo != [] then 1 else 0..]
  }

  /** The time up to which the budgets of endpoint k have been refilled. */
  function LastRefill(s: State, k: Addr): int {
    if Unfilled(s, k) then s.now - s.phase.interval else s.now
  }

  ghost predicate Budgets(s: State) {
    forall k <- s.epts :: BudgetsOk(s.epts[k], LastRefill(s, k))
  }

  predicate Small(q: seq<Dgram>) {
    forall i | 0 <= i < |q| :: q[i].size <= UDP_BUFFER_SIZE
  }

  /** What arrived fits a buffer and came from somebody else. */
  predicate Sane(recvs: seq<RecvOp>, k: Addr) {
    forall j | 0 <= j < |recvs| && recvs[j].progress.Arrived? ::
      && recvs[j].progress.size == |recvs[j].progress.data| <= UDP_BUFFER_SIZE
      && recvs[j].progress.sender != k && recvs[j].progress.sender != NOBODY
  }

  predicate SizesOk(e: Ept, k: Addr) {
    Small(e.recvQ) && Small(e.sendQ) && Sane(e.recvs, k)
  }

  ghost predicate Sizes(s: State) {
    forall k <- s.epts :: SizesOk(s.epts[k], k)
  }

  // ------------------------------------------------------------------ buffers

  /** The buffers that receives of an endpoint are into. */
  function Targets(e: Ept): set<BufId> {
    set op | op in e.recvs :: op.buf
  }

  ghost predicate Memory(s: State) {
    && (forall b | 0 <= b < |s.memory| :: |s.memory[b]| == UDP_BUFFER_SIZE)
    && (forall k <- s.epts :: s.epts[k].recvBuf < |s.memory| && forall b <- Targets(s.epts[k]) :: b < |s.memory|)
    && (forall id | 0 <= id < |s.log.accepted| :: s.log.accepted[id].buf < |s.memory|)
  }

  /** No receive of one endpoint is into a buffer of another. */
  ghost predicate Separate(s: State, k: Addr, x: Addr)
    requires k in s.epts && x in s.epts
  {
    s.epts[k].recvBuf != s.epts[x].recvBuf && s.epts[x].recvBuf !in Targets(s.epts[k])
  }

  /** The buffer for the next message is not queued, and no receive is into one that was accepted on another endpoint. */
  ghost predicate Unqueued(s: State, k: Addr)
    requires k in s.epts
  {
    forall id | 0 <= id < |s.log.accepted| ::
      && s.log.accepted[id].buf != s.epts[k].recvBuf
      && (s.log.accepted[id].on != k ==> s.log.accepted[id].buf !in Targets(s.epts[k]))
  }

  ghost predicate Apart(s: State) {
    && (forall k, x | k in s.epts && x in s.epts && k != x :: Separate(s, k, x))
    && (forall k <- s.epts :: Unqueued(s, k))
  }

  // ------------------------------------------------------------------ what the program recorded is what arrived

  ghost predicate TrueEntry(memory: seq<seq<Byte>>, a: Accepted) {
    && a.from == a.sender != a.on && a.size == |a.data|
    && Payload(memory, a.buf, a.size) == a.data
  }

  /** At most one receive; if it waits, it is into the message buffer, and what it received is there. */
  ghost predicate TrueRecvs(memory: seq<seq<Byte>>, e: Ept) {
    && |e.recvs| <= 1
    && forall j | 0 <= j < |e.recvs| ::
         && (e.recvs[j].progress == Waiting ==> e.recvs[j].buf == e.recvBuf)
         && (e.recvs[j].progress.Arrived? ==>
               && e.recvs[j].progress.sender == e.recvSrc
               && Payload(memory, e.recvBuf, e.recvs[j].progress.size) == e.recvs[j].progress.data)
  }

  /** What the program recorded of the datagrams accepted on endpoint k, whatever its lives, is what arrived. */
  ghost predicate TrueOn(s: State, k: Addr) {
    forall id | 0 <= id < |s.log.accepted| && s.log.accepted[id].on == k :: TrueEntry(s.memory, s.log.accepted[id])
  }

  ghost predicate TrueDepartures(s: State) {
    forall i | 0 <= i < |s.log.sent| ::
      s.log.sent[i].id < |s.log.accepted| && s.log.sent[i].payload == s.log.accepted[s.log.sent[i].id].data
  }

  ghost predicate Intact(s: State) {
    && (forall k <- s.epts :: TrueRecvs(s.memory, s.epts[k]))
    && (forall k :: TrueOn(s, k))
    && TrueDepartures(s)
  }

  /** No socket has two receives that are waiting or not yet handled. */
  predicate AtMostOne(s: State) {
    forall k <- s.epts :: |s.epts[k].recvs| <= 1
  }

  // ------------------------------------------------------------------ where the datagrams are

  ghost predicate Has(q: seq<Dgram>, id: nat) {
    exists j :: 0 <= j < |q| && q[j].id == id
  }

  ghost predicate HasDeparted(q: seq<Departure>, id: nat) {
    exists j :: 0 <= j < |q| && q[j].id == id
  }

  ghost predicate RecvEntry(l: Log, k: Addr, m: Dgram) {
    && m.id < |l.accepted| && m.id < |l.place| && l.place[m.id] == InRecvQ
    && l.accepted[m.id].on == k && l.accepted[m.id].from == m.peer
    && l.accepted[m.id].buf == m.buf && l.accepted[m.id].size == m.size && l.accepted[m.id].due == m.time
  }

  ghost predicate SendEntry(l: Log, k: Addr, m: Dgram) {
    && m.id < |l.accepted| && m.id < |l.place| && l.place[m.id] == InSendQ
    && l.accepted[m.id].from == k && l.accepted[m.id].on == m.peer
    && l.accepted[m.id].buf == m.buf && l.accepted[m.id].size == m.size && l.accepted[m.id].due == m.time
  }

  ghost predicate SentEntry(l: Log, d: Departure) {
    && d.id < |l.accepted| && d.id < |l.place| && l.place[d.id] == Sent
    && l.accepted[d.id].from == d.via && l.accepted[d.id].on == d.receiver
    && l.accepted[d.id].due <= d.at
  }

  /** Whatever is in a queue or was sent is an accepted datagram at the place the log gives for it. */
  ghost predicate Facts(s: State) {
    && |s.log.place| == |s.log.accepted|
    && (forall k, i | k in s.epts && 0 <= i < |s.epts[k].recvQ| :: RecvEntry(s.log, k, s.epts[k].recvQ[i]))
    && (forall k, i | k in s.epts && 0 <= i < |s.epts[k].sendQ| :: SendEntry(s.log, k, s.epts[k].sendQ[i]))
    && (forall i | 0 <= i < |s.log.sent| :: SentEntry(s.log, s.log.sent[i]))
  }

  ghost predicate TiedAt(s: State, id: nat)
    requires |s.log.place| == |s.log.accepted| && id < |s.log.accepted|
  {
    var a := s.log.accepted[id];
    match s.log.place[id]
    case InRecvQ => a.on in s.epts && Has(s.epts[a.on].recvQ, id)
    case InSendQ => a.from in s.epts && Has(s.epts[a.from].sendQ, id)
    case Sent => HasDeparted(s.log.sent, id)
    case Lost(_) => true
  }

  /** Whatever the log has a place for is there. */
  ghost predicate Tied(s: State) {
    |s.log.place| == |s.log.accepted| && forall id: nat | id < |s.log.accepted| :: TiedAt(s, id)
  }

  // ------------------------------------------------------------------ order

  predicate Increasing(q: seq<Dgram>) {
    forall i, j | 0 <= i < j < |q| :: q[i].id < q[j].id
  }

  predicate IncreasingPerPeer(q: seq<Dgram>) {
    forall i, j | 0 <= i < j < |q| && q[i].peer == q[j].peer :: q[i].id < q[j].id
  }

  predicate IncreasingPerPair(q: seq<Departure>) {
    forall i, j | 0 <= i < j < |q| && q[i].via == q[j].via && q[i].receiver == q[j].receiver :: q[i].id < q[j].id
  }

  ghost predicate Orders(s: State) {
    && (forall k <- s.epts :: Increasing(s.epts[k].recvQ))
    && (forall k <- s.epts :: IncreasingPerPeer(s.epts[k].sendQ))
    && IncreasingPerPair(s.log.sent)
  }

  predicate SamePair(l: Log, a: nat, b: nat)
    requires a < |l.accepted| && b < |l.accepted|
  {
    l.accepted[a].on == l.accepted[b].on && l.accepted[a].from == l.accepted[b].from
  }

  predicate Passed(earlier: Place, later: Place) {
    || (earlier == InRecvQ && (later == InSendQ || later == Sent))
    || (earlier == InSendQ && later == Sent)
  }

  /** Of two datagrams from the same sender on the same endpoint the later one is never further along. */
  ghost predicate NoOvertaking(l: Log) {
    && |l.place| == |l.accepted|
    && forall a: nat, b: nat | a < b < |l.accepted| && SamePair(l, a, b) :: !Passed(l.place[a], l.place[b])
  }

  ghost predicate Journey(s: State) {
    Facts(s) && Tied(s) && Orders(s) && NoOvertaking(s.log)
  }
}
