/**
 The table of UDP endpoints (src/udp_proxy.cpp) as a state machine. Endpoint k has a socket whose peer is k: a server
 endpoint stands for the address datagrams are forwarded to, a client endpoint for one client. The routine thread makes
 passes: first it moves due datagrams from receive queues to the send queues of their senders' endpoints, creating
 endpoints for new senders, then it sends. Each turn of its inner loops is one step, and receive handlers run in between.
 A receive is modelled in two steps, the arrival in the endpoint's message buffer and the run of its handler, because
 sockets may be closed and reopened in between.
 */
module Udp {
  import opened Base
  import opened TokenBucket

  const MAX_UDP_MSG_QUEUE_SIZE := 50
  const LARGEST_DATAGRAM := UDP_BUFFER_SIZE + UDP_PACKET_EXTRA_OVERHEAD

  type Byte = bv8
  type BufId = nat
  datatype Addr = Addr(ip: nat, port: nat)

  /** A default-constructed address. */
  const NOBODY := Addr(0, 0)

  /** `ipLimit` holds the limits per client address: 0 for sending to it, 1 for receiving from it. */
  datatype Config = Config(timeout: int, ipLimit: Pair<int>)

  /** The parts of a rule that a new client endpoint takes over. */
  datatype Rule = Rule(bandwidth: int, delay: int, drop: int)

  /**
   UdpMsg: the first `size` bytes of a buffer. In a receive queue `peer` is the sender, in a send queue the receiver. `id`
   numbers accepted datagrams.
   */
  datatype Dgram = Dgram(id: nat, buf: BufId, size: nat, time: int, peer: Addr)

  /** How a receive stands: still waiting, or ended while its handler has not yet run. What arrived is history. */
  datatype Progress =
    | Waiting
    | Arrived(size: nat, sender: Addr, data: seq<Byte>)
    | Refused
    | Broken

  /** A receive with the buffer it was started with. */
  datatype RecvOp = RecvOp(buf: BufId, progress: Progress)

  /**
   UdpEndpointProxy. `recvBuf` and `recvSrc` are the buffer and the address of `recving_msg`; `open` tells whether the
   socket is; `recvs` are the receives that are waiting or not yet handled. The ledgers are history, and so are `sentBefore`
   and `takenBefore`, what the log held when the endpoint was made.
   */
  datatype Ept = Ept(
    dst: Addr,
    rule: Rule,
    server: bool,
    hasIp: bool,
    open: bool,
    activeTm: int,
    recvBuf: BufId,
    recvSrc: Addr,
    recvQ: seq<Dgram>,
    sendQ: seq<Dgram>,
    recvAvail: int,
    sendAvail: int,
    recving: bool,
    recvs: seq<RecvOp>,
    recvLedger: Ledger,
    sendLedger: Ledger,
    sentBefore: nat,
    takenBefore: nat)

  /** A datagram put into a receive queue, as the program recorded it, and what really arrived (`sender`, `data`). */
  datatype Accepted = Accepted(on: Addr, from: Addr, buf: BufId, size: nat, sender: Addr, data: seq<Byte>, readAt: int, due: int)

  datatype Cause = QueueFull | OpenFailed | Overwritten | Erased

  /** Where an accepted datagram is. */
  datatype Place = InRecvQ | InSendQ | Sent | Lost(cause: Cause)

  /** A datagram that left through the socket of endpoint `via`. */
  datatype Departure = Departure(id: nat, via: Addr, receiver: Addr, payload: seq<Byte>, at: int)

  /** A datagram taken from the receive queue of endpoint `on`. */
  datatype Taken = Taken(id: nat, on: Addr, size: nat)

  datatype Log = Log(accepted: seq<Accepted>, place: seq<Place>, sent: seq<Departure>, taken: seq<Taken>)

  /**
   What the routine thread is doing. `entered` and `inLoop` mean that it is inside the inner loop of the first endpoint of
   `todo`, whose mutex it holds; a sending loop is entered with its first turn.
   */
  datatype Phase =
    | Resting
    | Moving(todo: seq<Addr>, entered: bool, interval: int)
    | Sending(todo: seq<Addr>, inLoop: bool)

  /**
   `epts` holds the endpoints of the table and those in `new_epts`, whose keys are in `newKeys`. `now` is the time of the
   current or last pass and `clock` that of the last event. `memory` holds all buffers and `ips` the balances of the
   clients' own budgets. `clash` means that the assertion of line 196 failed and `nullBudget` that a null pointer was
   followed; the program is gone then, and what the model does afterwards is of no importance.
   */
  datatype State = State(
    epts: map<Addr, Ept>,
    newKeys: set<Addr>,
    phase: Phase,
    now: int,
    clock: int,
    memory: seq<seq<Byte>>,
    ips: map<nat, Pair<int>>,
    log: Log,
    clash: bool,
    nullBudget: bool)

  /** How init() ends: all is well, open() worked but not bind(), or open() failed. */
  datatype Opening = Bound | Unbound | Shut

  datatype Event =
    | Arrive(k: Addr, j: nat, from: Addr, payload: seq<Byte>)
    | Fail(k: Addr, j: nat, refused: bool)
    | Recv(k: Addr, j: nat, t: int, roll: int)
    | RecvFails(k: Addr, j: nat, t: int, o: Opening)
    | OthersUseIps(ips: map<nat, Pair<int>>)
    | BeginPass(t: int, order: seq<Addr>)
    | Enter
    | Move(o: Opening, t: int)
    | EndMoving(order: seq<Addr>)
    | Send(sent: bool, o: Opening, t: int)
    | EndPass

  predicate Limited(cfg: Config) {
    cfg.ipLimit != Pair(0, 0)
  }

  function Cost(m: Dgram): nat {
    m.size + UDP_PACKET_EXTRA_OVERHEAD
  }

  // ------------------------------------------------------------------ buffers

  /** A newly allocated buffer; what it holds is of no importance. */
  function NewBuffer(): (b: seq<Byte>)
    ensures |b| == UDP_BUFFER_SIZE
  {
    seq(UDP_BUFFER_SIZE, _ => 0)
  }

  function Buffers(n: nat): (bs: seq<seq<Byte>>)
    ensures |bs| == n && forall b | 0 <= b < n :: |bs[b]| == UDP_BUFFER_SIZE
  {
    if n == 0 then [] else Buffers(n - 1) + [NewBuffer()]
  }

  function Store(memory: seq<seq<Byte>>, b: BufId, data: seq<Byte>): seq<seq<Byte>> {
    if b < |memory| && |data| <= |memory[b]| then memory[b := data + memory[b][|data|..]] else memory
  }

  function Payload(memory: seq<seq<Byte>>, b: BufId, size: nat): seq<Byte> {
    if b < |memory| && size <= |memory[b]| then memory[b][..size] else []
  }

  // ------------------------------------------------------------------ one endpoint

  /** Lines 69-72; a receive on a closed socket ends at once with an error. */
  function AsyncRecv(e: Ept): (r: Ept)
    ensures r == e.(recvs := r.recvs)
  {
    e.(recvs := e.recvs + [RecvOp(e.recvBuf, if e.open then Waiting else Broken)])
  }

  /** Lines 26-51. */
  function Init(e: Ept, o: Opening, t: int): (r: Ept)
    ensures r == e.(open := r.open, activeTm := r.activeTm, recvs := r.recvs)
  {
    match o
    case Bound => AsyncRecv(e.(open := true)).(activeTm := t)
    case Unbound => e.(open := true)
    case Shut => e
  }

  /** The receives that have ended; closing a socket does not take back a result that is waiting for its handler. */
  function Ended(recvs: seq<RecvOp>): seq<RecvOp>
    decreases |recvs|
  {
    if recvs == [] then []
    else if Last(recvs).progress == Waiting then Ended(Front(recvs))
    else Ended(Front(recvs)) + [Last(recvs)]
  }

  /** Lines 62-67. */
  function Stop(e: Ept): (r: Ept)
    ensures r == e.(open := false, activeTm := 0, recvs := r.recvs)
  {
    e.(open := false, activeTm := 0, recvs := Ended(e.recvs))
  }

  /** stop(), then init() for a server endpoint. */
  function Break(e: Ept, o: Opening, t: int): (r: Ept)
    ensures r == e.(open := r.open, activeTm := r.activeTm, recvs := r.recvs)
  {
    if e.server then Init(Stop(e), o, t) else Stop(e)
  }

  function Blank(dst: Addr, rule: Rule, server: bool, hasIp: bool, buf: BufId, sentBefore: nat, takenBefore: nat): Ept {
    Ept(dst, rule, server, hasIp, false, 0, buf, NOBODY, [], [], 0, 0, true, [], NEW_LEDGER, NEW_LEDGER, sentBefore, takenBefore)
  }

  /** The constructor, lines 12-24. */
  function NewEpt(dst: Addr, rule: Rule, server: bool, hasIp: bool, o: Opening, t: int, buf: BufId, l: Log): Ept {
    Init(Blank(dst, rule, server, hasIp, buf, |l.sent|, |l.taken|), o, t)
  }

  /** The handler of receive j begins. */
  function Finish(e: Ept, j: nat): (r: Ept)
    requires j < |e.recvs|
    ensures r == e.(recvs := r.recvs) && |r.recvs| == |e.recvs| - 1
  {
    e.(recvs := e.recvs[..j] + e.recvs[j + 1..])
  }

  predicate Dropped(e: Ept, roll: int) {
    e.rule.drop > 0 && roll <= e.rule.drop
  }

  /** Lines 106-118: the message is queued and replaced by a new one, and receiving goes on unless the queue is full. */
  function Push(e: Ept, m: Dgram, buf: BufId): (r: Ept)
    ensures r == e.(recvQ := e.recvQ + [m], recvBuf := buf, recvSrc := NOBODY, recving := r.recving, recvs := r.recvs)
  {
    var e1 := e.(recvQ := e.recvQ + [m], recvBuf := buf, recvSrc := NOBODY);
    if |e1.recvQ| > MAX_UDP_MSG_QUEUE_SIZE then e1.(recving := false) else AsyncRecv(e1)
  }

  /** Line 107. */
  function Message(e: Ept, id: nat, size: nat, t: int): Dgram {
    Dgram(id, e.recvBuf, size, t + e.rule.delay, e.recvSrc)
  }

  /** A datagram arrives in the buffer receive j was started with; its sender goes into `recving_msg`. */
  function Got(e: Ept, j: nat, from: Addr, payload: seq<Byte>): (r: Ept)
    requires j < |e.recvs|
    ensures r == e.(recvSrc := from, recvs := r.recvs) && |r.recvs| == |e.recvs|
  {
    e.(recvSrc := from, recvs := e.recvs[j := e.recvs[j].(progress := Arrived(|payload|, from, payload))])
  }

  function Lose(e: Ept, j: nat, refused: bool): (r: Ept)
    requires j < |e.recvs|
    ensures r == e.(recvs := r.recvs) && |r.recvs| == |e.recvs|
  {
    e.(recvs := e.recvs[j := e.recvs[j].(progress := if refused then Refused else Broken)])
  }

  /** Lines 96-118: the handler of receive j, with a number and a new buffer for the datagram. */
  function Handled(e: Ept, j: nat, t: int, roll: int, id: nat, buf: BufId): (r: Ept)
    requires j < |e.recvs| && e.recvs[j].progress.Arrived?
    ensures Dropped(e, roll) ==> r == e.(activeTm := t, recvs := r.recvs)
    ensures !Dropped(e, roll) ==>
              r == e.(activeTm := t, recvQ := e.recvQ + [Message(e, id, e.recvs[j].progress.size, t)],
                      recvBuf := buf, recvSrc := NOBODY, recving := r.recving, recvs := r.recvs)
  {
    var e1 := Finish(e, j).(activeTm := t);
    if Dropped(e, roll) then AsyncRecv(e1) else Push(e1, Message(e1, id, e.recvs[j].progress.size, t), buf)
  }

  /** Lines 76-94. */
  function Errored(e: Ept, j: nat, t: int, o: Opening): (r: Ept)
    requires j < |e.recvs|
    ensures r == e.(open := r.open, activeTm := r.activeTm, recvs := r.recvs)
  {
    if e.recvs[j].progress == Refused then AsyncRecv(Finish(e, j)) else Break(Finish(e, j), o, t)
  }

  predicate Expired(cfg: Config, e: Ept, now: int) {
    e.activeTm == 0 || (e.activeTm < now - cfg.timeout && !e.server)
  }

  predicate Metered(e: Ept) {
    !e.server && e.rule.bandwidth > 0
  }

  /** Lines 179-190. */
  function RefillBoth(e: Ept, bytes: int): (r: Ept)
    ensures r == e.(recvAvail := r.recvAvail, recvLedger := r.recvLedger, sendAvail := r.sendAvail, sendLedger := r.sendLedger)
  {
    if Metered(e) then
      e.(recvAvail := Refill(e.recvAvail, bytes), recvLedger := Refilled(e.recvLedger, e.recvAvail, bytes),
         sendAvail := Refill(e.sendAvail, bytes), sendLedger := Refilled(e.sendLedger, e.sendAvail, bytes))
    else e
  }

  /** Lines 241-250: charge for the head of the receive queue, drop it, and receive again if that had stopped. */
  function TakeHead(e: Ept, now: int): (r: Ept)
    requires e.recvQ != []
    ensures r == e.(recvQ := e.recvQ[1..], recvAvail := r.recvAvail, recvLedger := r.recvLedger, recving := true, recvs := r.recvs)
  {
    var c := Cost(e.recvQ[0]);
    var e1 := e.(recvQ := e.recvQ[1..],
                 recvAvail := if Metered(e) then e.recvAvail - c else e.recvAvail,
                 recvLedger := if Metered(e) then Charged(e.recvLedger, c, now) else e.recvLedger);
    if e.recving then e1 else AsyncRecv(e1.(recving := true))
  }

  /** Lines 296-300. */
  function SendHead(e: Ept, now: int): (r: Ept)
    requires e.sendQ != []
    ensures r == e.(sendQ := e.sendQ[1..], sendAvail := r.sendAvail, sendLedger := r.sendLedger)
  {
    var c := Cost(e.sendQ[0]);
    e.(sendQ := e.sendQ[1..],
       sendAvail := if Metered(e) then e.sendAvail - c else e.sendAvail,
       sendLedger := if Metered(e) then Charged(e.sendLedger, c, now) else e.sendLedger)
  }

  /** Lines 231-234. */
  function Touch(e: Ept, now: int): (r: Ept)
    ensures r == e.(activeTm := r.activeTm)
  {
    if e.activeTm != 0 then e.(activeTm := now) else e
  }

  /** Lines 238-239: the datagram is addressed to the endpoint it came in on. */
  function Deliver(e: Ept, m: Dgram, k: Addr): Ept {
    e.(sendQ := e.sendQ + [m.(peer := k)])
  }

  // ------------------------------------------------------------------ the log and the clients' own budgets

  function Relocate(l: Log, id: nat, p: Place): (r: Log)
    ensures r.accepted == l.accepted && r.sent == l.sent && r.taken == l.taken && |r.place| == |l.place|
  {
    if id < |l.place| then l.(place := l.place[id := p]) else l
  }

  predicate Queued(l: Log, id: nat, k: Addr)
    requires |l.place| == |l.accepted| && id < |l.accepted|
  {
    (l.place[id] == InRecvQ && l.accepted[id].on == k) || (l.place[id] == InSendQ && l.accepted[id].from == k)
  }

  /** Everything queued at endpoint k is lost. */
  function LoseAll(l: Log, k: Addr, cause: Cause): (r: Log)
    ensures r.accepted == l.accepted && r.sent == l.sent && r.taken == l.taken && |r.place| == |l.place|
  {
    if |l.place| != |l.accepted| then l
    else
      l.(place := seq(|l.place|, id requires 0 <= id < |l.place| => if Queued(l, id, k) then Lost(cause) else l.place[id]))
  }

  /** m leaves the receive queue of k for place p. */
  function Pass(l: Log, m: Dgram, k: Addr, p: Place): (r: Log)
    ensures r.accepted == l.accepted && r.sent == l.sent && r.taken == l.taken + [Taken(m.id, k, m.size)]
    ensures r.place == Relocate(l, m.id, p).place
  {
    Relocate(l, m.id, p).(taken := l.taken + [Taken(m.id, k, m.size)])
  }

  function Depart(l: Log, m: Dgram, k: Addr, payload: seq<Byte>, at: int): (r: Log)
    ensures r.accepted == l.accepted && r.sent == l.sent + [Departure(m.id, k, m.peer, payload, at)] && r.taken == l.taken
    ensures r.place == Relocate(l, m.id, Sent).place
  {
    Relocate(l, m.id, Sent).(sent := l.sent + [Departure(m.id, k, m.peer, payload, at)])
  }

  /** The balance for direction i of the client's own budget that endpoint k uses. */
  function Balance(ips: map<nat, Pair<int>>, k: Addr, i: Side): int {
    if k.ip in ips then ips[k.ip].At(i) else 0
  }

  /** Lines 205-207 and 272-274. */
  function ChargeIp(cfg: Config, ips: map<nat, Pair<int>>, e: Ept, k: Addr, i: Side, amount: int): map<nat, Pair<int>> {
    if !e.server && cfg.ipLimit.At(i) > 0 then
      ips[k.ip := (if k.ip in ips then ips[k.ip] else Pair(0, 0)).With(i, Balance(ips, k, i) - amount)]
    else ips
  }

  // ------------------------------------------------------------------ receiving

  function HandleArrival(s: State, k: Addr, j: nat, from: Addr, payload: seq<Byte>): State
    requires k in s.epts && j < |s.epts[k].recvs|
  {
    s.(epts := s.epts[k := Got(s.epts[k], j, from, payload)], memory := Store(s.memory, s.epts[k].recvs[j].buf, payload))
  }

  function HandleFailure(s: State, k: Addr, j: nat, refused: bool): State
    requires k in s.epts && j < |s.epts[k].recvs|
  {
    s.(epts := s.epts[k := Lose(s.epts[k], j, refused)])
  }

  /** What is recorded of a datagram that is accepted. */
  function Entry(e: Ept, k: Addr, j: nat, t: int): Accepted
    requires j < |e.recvs| && e.recvs[j].progress.Arrived?
  {
    var p := e.recvs[j].progress;
    Accepted(k, e.recvSrc, e.recvBuf, p.size, p.sender, p.data, t, t + e.rule.delay)
  }

  function HandleRecv(s: State, k: Addr, j: nat, t: int, roll: int): State
    requires k in s.epts && j < |s.epts[k].recvs| && s.epts[k].recvs[j].progress.Arrived?
  {
    var e, dropped := s.epts[k], Dropped(s.epts[k], roll);
    s.(epts := s.epts[k := Handled(e, j, t, roll, |s.log.accepted|, |s.memory|)],
       clock := t,
       memory := if dropped then s.memory else s.memory + [NewBuffer()],
       log := if dropped then s.log
              else s.log.(accepted := s.log.accepted + [Entry(e, k, j, t)], place := s.log.place + [InRecvQ]))
  }

  function HandleRecvError(s: State, k: Addr, j: nat, t: int, o: Opening): State
    requires k in s.epts && j < |s.epts[k].recvs|
  {
    s.(epts := s.epts[k := Errored(s.epts[k], j, t, o)], clock := t)
  }

  // ------------------------------------------------------------------ the routine thread

  /** Lines 157-166. */
  function Begin(s: State, t: int, order: seq<Addr>): State {
    if t <= s.now then s.(clock := t) else s.(now := t, clock := t, phase := Moving(order, false, t - s.now))
  }

  /** Lines 170-190: erase an endpoint that is stopped or idle, or refill its budgets. */
  function EnterEpt(cfg: Config, s: State): State
    requires s.phase.Moving? && s.phase.todo != [] && s.phase.todo[0] in s.epts
  {
    var k := s.phase.todo[0];
    if Expired(cfg, s.epts[k], s.now) then
      s.(epts := s.epts - {k}, phase := s.phase.(todo := s.phase.todo[1..], entered := false), log := LoseAll(s.log, k, Erased))
    else
      s.(epts := s.epts[k := RefillBoth(s.epts[k], s.phase.interval * s.epts[k].rule.bandwidth / 1000)],
         phase := s.phase.(entered := true))
  }

  /** Lines 192-193. */
  predicate Looks(e: Ept) {
    e.recvQ != [] && e.recvAvail >= 0
  }

  /** Line 196 fails. */
  predicate Clash(e: Ept, k: Addr) {
    Looks(e) && e.recvQ[0].peer == k
  }

  /** Lines 192-200: there is a head, it is due, and the endpoint's budget is not overdrawn. */
  predicate HeadReady(s: State, e: Ept, k: Addr) {
    Looks(e) && e.recvQ[0].peer != k && e.recvQ[0].time <= s.now
  }

  /** Lines 192-213: the client's own budget, if it is limited, allows it too. */
  predicate MayMove(cfg: Config, s: State, e: Ept, k: Addr) {
    HeadReady(s, e, k) && (!e.server && cfg.ipLimit.At(1) > 0 ==> e.hasIp && Balance(s.ips, k, 1) >= 0)
  }

  /** Line 203 follows the pointer to the client's own budget. */
  predicate NullBudget(cfg: Config, s: State, e: Ept, k: Addr) {
    HeadReady(s, e, k) && !e.server && cfg.ipLimit.At(1) > 0 && !e.hasIp
  }

  /** Lines 218-225: a new endpoint for x; another one of the same pass is overwritten. */
  function Create(cfg: Config, s: State, x: Addr, rule: Rule, t: int): State {
    s.(epts := s.epts[x := NewEpt(x, rule, false, Limited(cfg), Bound, t, |s.memory|, s.log)],
       newKeys := s.newKeys + {x},
       clock := t,
       memory := s.memory + [NewBuffer()],
       log := LoseAll(s.log, x, Overwritten))
  }

  /** The endpoints that the search at line 214 finds. */
  predicate Known(s: State, x: Addr) {
    x in s.epts && x !in s.newKeys
  }

  /** Lines 214-235: find the endpoint that stands for the sender x, or create it. */
  function Meet(cfg: Config, s: State, x: Addr, rule: Rule, t: int): State {
    if Known(s, x) then s.(epts := s.epts[x := Touch(s.epts[x], s.now)]) else Create(cfg, s, x, rule, t)
  }

  /** Lines 236-245: move the head of endpoint k to the send queue of endpoint x if there is room. */
  function Forward(s: State, k: Addr, x: Addr): State
    requires k in s.epts && x in s.epts && s.epts[k].recvQ != []
  {
    var m := s.epts[k].recvQ[0];
    if |s.epts[x].sendQ| < MAX_UDP_MSG_QUEUE_SIZE then
      s.(epts := s.epts[x := Deliver(s.epts[x], m, k)][k := TakeHead(s.epts[k], s.now)], log := Pass(s.log, m, k, InSendQ))
    else
      s.(epts := s.epts[k := TakeHead(s.epts[k], s.now)], log := Pass(s.log, m, k, Lost(QueueFull)))
  }

  /** The same for a sender whose endpoint could not be opened. */
  function LoseHead(s: State, k: Addr, t: int): State
    requires k in s.epts && s.epts[k].recvQ != []
  {
    s.(epts := s.epts[k := TakeHead(s.epts[k], s.now)], clock := t, log := Pass(s.log, s.epts[k].recvQ[0], k, Lost(OpenFailed)))
  }

  /** Lines 205-207 for the head of endpoint k. */
  function PayMove(cfg: Config, s: State, k: Addr): State
    requires k in s.epts && s.epts[k].recvQ != []
  {
    s.(ips := ChargeIp(cfg, s.ips, s.epts[k], k, 1, Cost(s.epts[k].recvQ[0])))
  }

  /** Lines 214-250. */
  function MoveOn(cfg: Config, s: State, k: Addr, o: Opening, t: int): State
    requires k in s.epts && s.epts[k].recvQ != []
  {
    var e := s.epts[k];
    var x := e.recvQ[0].peer;
    if x == k then s
    else if Known(s, x) || o == Bound then Forward(Meet(cfg, s, x, e.rule, t), k, x)
    else LoseHead(s, k, t)
  }

  /** One turn of the loop at lines 192-251, or its end. */
  function MoveHead(cfg: Config, s: State, o: Opening, t: int): State
    requires s.phase.Moving? && s.phase.todo != [] && s.phase.todo[0] in s.epts
  {
    var k := s.phase.todo[0];
    var e := s.epts[k];
    if MayMove(cfg, s, e, k) then MoveOn(cfg, PayMove(cfg, s, k), k, o, t)
    else
      s.(phase := s.phase.(todo := s.phase.todo[1..], entered := false),
         clash := s.clash || Clash(e, k), nullBudget := s.nullBudget || NullBudget(cfg, s, e, k))
  }

  /** Lines 264-280. */
  predicate MaySend(cfg: Config, s: State, e: Ept, k: Addr) {
    && e.sendQ != [] && e.sendAvail >= 0
    && (!e.server && cfg.ipLimit.At(0) > 0 ==> e.hasIp && Balance(s.ips, k, 0) >= 0)
  }

  /** Line 270 follows the pointer to the client's own budget. */
  predicate NullSendBudget(cfg: Config, e: Ept) {
    e.sendQ != [] && e.sendAvail >= 0 && !e.server && cfg.ipLimit.At(0) > 0 && !e.hasIp
  }

  /** Lines 272-274 for the head of endpoint k. */
  function PaySend(cfg: Config, s: State, k: Addr): State
    requires k in s.epts && s.epts[k].sendQ != []
  {
    s.(ips := ChargeIp(cfg, s.ips, s.epts[k], k, 0, Cost(s.epts[k].sendQ[0])))
  }

  /** Lines 281-300. */
  function SendOut(s: State, k: Addr, sent: bool, o: Opening, t: int): State
    requires k in s.epts && s.epts[k].sendQ != [] && s.phase.Sending? && s.phase.todo != []
  {
    var e := s.epts[k];
    if !sent then s.(epts := s.epts[k := Break(e, o, t)], clock := t, phase := Sending(s.phase.todo[1..], false))
    else
      var m := e.sendQ[0];
      s.(epts := s.epts[k := SendHead(e, s.now)], phase := s.phase.(inLoop := true),
         log := Depart(s.log, m, k, Payload(s.memory, m.buf, m.size), s.now))
  }

  /** One turn of the loop at lines 264-301, or its end. */
  function SendOne(cfg: Config, s: State, sent: bool, o: Opening, t: int): State
    requires s.phase.Sending? && s.phase.todo != [] && s.phase.todo[0] in s.epts
  {
    var k := s.phase.todo[0];
    var e := s.epts[k];
    if MaySend(cfg, s, e, k) then SendOut(PaySend(cfg, s, k), k, sent, o, t)
    else s.(phase := Sending(s.phase.todo[1..], false), nullBudget := s.nullBudget || NullSendBudget(cfg, e))
  }

  // ------------------------------------------------------------------ the machine

  predicate NoDuplicates(order: seq<Addr>) {
    forall i, j | 0 <= i < j < |order| :: order[i] != order[j]
  }

  /** The order in which a loop visits the table: every key once. */
  predicate IsOrder(s: State, order: seq<Addr>) {
    NoDuplicates(order) && (forall i | 0 <= i < |order| :: order[i] in s.epts) && (forall k <- s.epts :: k in order)
  }

  /** The endpoint whose mutex the routine thread holds. */
  predicate Locked(s: State, k: Addr) {
    ((s.phase.Moving? && s.phase.entered) || (s.phase.Sending? && s.phase.inLoop)) && s.phase.todo != [] && s.phase.todo[0] == k
  }

  predicate Receiving(s: State, k: Addr, j: nat) {
    k in s.epts && j < |s.epts[k].recvs|
  }

  /**
   Assumptions about the surroundings: the clock does not go back, a datagram fits its buffer and has a sender, and no peer
   of an endpoint sends from the very address the endpoint stands for the other side of (line 196).
   */
  predicate Enabled(s: State, ev: Event) {
    match ev
    case Arrive(k, j, from, payload) =>
      && Receiving(s, k, j) && s.epts[k].recvs[j].progress == Waiting
      && from != k && from != NOBODY && |payload| <= UDP_BUFFER_SIZE
    case Fail(k, j, refused) => Receiving(s, k, j) && s.epts[k].recvs[j].progress == Waiting
    case Recv(k, j, t, roll) =>
      Receiving(s, k, j) && s.epts[k].recvs[j].progress.Arrived? && !Locked(s, k) && s.clock <= t && 1 <= roll <= 10000
    case RecvFails(k, j, t, o) =>
      && Receiving(s, k, j) && s.clock <= t
      && (s.epts[k].recvs[j].progress == Refused || (s.epts[k].recvs[j].progress == Broken && !Locked(s, k)))
    case OthersUseIps(ips) => true
    case BeginPass(t, order) => s.phase == Resting && s.clock <= t && IsOrder(s, order)
    case Enter => s.phase.Moving? && !s.phase.entered && s.phase.todo != [] && s.phase.todo[0] in s.epts
    case Move(o, t) => s.phase.Moving? && s.phase.entered && s.phase.todo != [] && s.phase.todo[0] in s.epts && s.clock <= t
    case EndMoving(order) => s.phase.Moving? && s.phase.todo == [] && IsOrder(s, order)
    case Send(sent, o, t) => s.phase.Sending? && s.phase.todo != [] && s.phase.todo[0] in s.epts && s.clock <= t
    case EndPass => s.phase.Sending? && s.phase.todo == []
  }

  function Step(cfg: Config, s: State, ev: Event): State
    requires Enabled(s, ev)
  {
    match ev
    case Arrive(k, j, from, payload) => HandleArrival(s, k, j, from, payload)
    case Fail(k, j, refused) => HandleFailure(s, k, j, refused)
    case Recv(k, j, t, roll) => HandleRecv(s, k, j, t, roll)
    case RecvFails(k, j, t, o) => HandleRecvError(s, k, j, t, o)
    case OthersUseIps(ips) => s.(ips := ips)
    case BeginPass(t, order) => Begin(s, t, order)
    case Enter => EnterEpt(cfg, s)
    case Move(o, t) => MoveHead(cfg, s, o, t)
    case EndMoving(order) => s.(newKeys := {}, phase := Sending(order, false))
    case Send(sent, o, t) => SendOne(cfg, s, sent, o, t)
    case EndPass => s.(phase := Resting)
  }

  function Run(cfg: Config, s: State, events: seq<Event>): Option<State>
    decreases |events|
  {
    if events == [] then Some(s)
    else
      match Run(cfg, s, Front(events))
      case None => None
      case Some(s1) => if Enabled(s1, Last(events)) then Some(Step(cfg, s1, Last(events))) else None
  }

  /** A line of the configuration, `udp srcPort dst ...`, and how its socket opens. */
  datatype Line = Line(srcPort: nat, dst: Addr, rule: Rule, o: Opening)

  /** Line 130; at that time no client budgets exist yet (src/shared_data.cpp:121, 130). */
  function WithLine(s: State, l: Line): State {
    s.(epts := s.epts[l.dst := NewEpt(l.dst, l.rule, l.srcPort != 0, false, l.o, s.now, |s.memory|, s.log)],
       memory := s.memory + [NewBuffer()])
  }

  /** The state when the routine thread starts: addServerProxy was called for every line in turn. */
  function Start(lines: seq<Line>, now: int): State
    decreases |lines|
  {
    if lines == [] then State(map[], {}, Resting, now, now, [], map[], Log([], [], [], []), false, false)
    else WithLine(Start(Front(lines), now), Last(lines))
  }
}
