/**
 The budgets per client address (src/ip_proxy.cpp), shared by all the TCP connections and UDP endpoints of a client, as a
 state machine. Taking a budget happens under the mutex of the map, charging and giving it back under the mutex of the
 budget, and the routine thread holds the mutex of the map while it goes through the budgets one by one; each of these
 is a step, so charges and returns may fall between any two budgets of a pass.
 */
module IpBuckets {
  import opened Base
  import opened TokenBucket

  const LARGEST_CHARGE := TCP_BUFFER_SIZE + TCP_PACKET_EXTRA_OVERHEAD

  type Addr = nat
  type HolderId = nat

  /** The limits, for sending and for receiving. */
  type Config = Pair<int>

  /** IPProxy. `life` numbers the budgets there have been for one address. */
  datatype Bucket = Bucket(avail: Pair<int>, refCnt: int, life: nat)

  /** The pointer that a connection or an endpoint holds: to the budget of an address, in one of its lives. */
  datatype Holder = Holder(addr: Addr, life: nat)

  /** All lives of the budget of one address together; `origin` is the time of the last pass before the first. */
  datatype History = History(lives: nat, origin: int, refilled: Pair<int>, charged: Pair<int>)

  /** What the routine thread is doing; in Ticking it holds the mutex of the map. */
  datatype Phase =
    | Idle
    | Computed(interval: int)
    | Ticking(interval: int, todo: seq<Addr>, doomed: seq<Addr>)

  /** `dangling` records that a pointer to an erased budget was followed. */
  datatype State = State(
    addrs: map<Addr, Bucket>,
    holders: map<HolderId, Holder>,
    history: map<Addr, History>,
    lastFlush: int,
    phase: Phase,
    dangling: bool)

  datatype Event =
    | Take(h: HolderId, a: Addr)
    | GiveBack(h: HolderId)
    | Charge(h: HolderId, i: Side, amount: int)
    | Compute(t: int)
    | LockMap(order: seq<Addr>)
    | TickOne
    | EraseAll

  /** getIPProxy hands out budgets only if there are limits. */
  predicate Limited(cfg: Config) {
    cfg != Pair(0, 0)
  }

  function Bytes(cfg: Config, interval: int, i: Side): int {
    interval * cfg.At(i) / 1000
  }

  /** The time of the last pass that has reached the budgets when a new one is created. */
  function LastPass(s: State): int {
    if s.phase.Computed? then s.lastFlush - s.phase.interval else s.lastFlush
  }

  // ------------------------------------------------------------------ the steps

  function PastOf(s: State, a: Addr): History {
    if a in s.history then s.history[a] else History(0, LastPass(s), Pair(0, 0), Pair(0, 0))
  }

  /** Lines 38-40: the budget of an address, created if there is none. */
  function Taken(s: State, h: HolderId, a: Addr): State {
    if a in s.addrs then
      s.(addrs := s.addrs[a := s.addrs[a].(refCnt := s.addrs[a].refCnt + 1)], holders := s.holders[h := Holder(a, s.addrs[a].life)])
    else
      var life := PastOf(s, a).lives + 1;
      s.(addrs := s.addrs[a := Bucket(Pair(0, 0), 1, life)],
         holders := s.holders[h := Holder(a, life)],
         history := s.history[a := PastOf(s, a).(lives := life)])
  }

  /** Whether the pointer of a holder still points to a budget of the map. */
  predicate Live(s: State, p: Holder) {
    p.addr in s.addrs && s.addrs[p.addr].life == p.life
  }

  /** src/tcp_proxy.cpp:27-34 and src/udp_proxy.cpp:53-60. */
  function GivenBack(s: State, h: HolderId): State
    requires h in s.holders
  {
    var p := s.holders[h];
    if !Live(s, p) then s.(holders := s.holders - {h}, dangling := true)
    else
      s.(holders := s.holders - {h}, addrs := s.addrs[p.addr := s.addrs[p.addr].(refCnt := s.addrs[p.addr].refCnt - 1)])
  }

  /** src/tcp_proxy.cpp:117-129 and src/udp_proxy.cpp:201-213, 268-280. */
  function ChargedBy(cfg: Config, s: State, h: HolderId, i: Side, amount: int): State
    requires h in s.holders
  {
    var p := s.holders[h];
    if cfg.At(i) <= 0 then s
    else if !Live(s, p) then s.(dangling := true)
    else if s.addrs[p.addr].avail.At(i) < 0 || p.addr !in s.history then s
    else
      var b, past := s.addrs[p.addr], s.history[p.addr];
      s.(addrs := s.addrs[p.addr := b.(avail := b.avail.With(i, b.avail.At(i) - amount))],
         history := s.history[p.addr := past.(charged := past.charged.With(i, past.charged.At(i) + amount))])
  }

  /** Lines 80-86. */
  function RefilledBucket(cfg: Config, b: Bucket, interval: int): Bucket {
    b.(avail := Pair(Refill(b.avail.first, Bytes(cfg, interval, 0)), Refill(b.avail.second, Bytes(cfg, interval, 1))))
  }

  function RefilledPast(cfg: Config, past: History, b: Bucket, interval: int): History {
    past.(refilled := Pair(if b.avail.first < 0 then past.refilled.first + Bytes(cfg, interval, 0) else past.refilled.first,
                           if b.avail.second < 0 then past.refilled.second + Bytes(cfg, interval, 1) else past.refilled.second))
  }

  /** Lines 73-86: one turn of the loop. */
  function Ticked(cfg: Config, s: State): State
    requires s.phase.Ticking? && s.phase.todo != []
  {
    var a, rest := s.phase.todo[0], s.phase.todo[1..];
    if a !in s.addrs || a !in s.history then s.(phase := s.phase.(todo := rest))
    else if s.addrs[a].refCnt <= 0 then s.(phase := s.phase.(todo := rest, doomed := s.phase.doomed + [a]))
    else
      s.(addrs := s.addrs[a := RefilledBucket(cfg, s.addrs[a], s.phase.interval)],
         history := s.history[a := RefilledPast(cfg, s.history[a], s.addrs[a], s.phase.interval)],
         phase := s.phase.(todo := rest))
  }

  /** Lines 88-91. */
  function Erased(s: State): State
    requires s.phase.Ticking?
  {
    s.(addrs := map a | a in s.addrs && a !in s.phase.doomed :: s.addrs[a], phase := Idle)
  }

  // ------------------------------------------------------------------ the machine

  predicate IsOrder(s: State, order: seq<Addr>) {
    && (forall i, j | 0 <= i < j < |order| :: order[i] != order[j])
    && (forall i | 0 <= i < |order| :: order[i] in s.addrs)
    && (forall a <- s.addrs :: a in order)
  }

  /** The map's mutex is free unless the routine thread has it; the clock does not go back. */
  predicate Enabled(cfg: Config, s: State, ev: Event) {
    match ev
    case Take(h, a) => Limited(cfg) && h !in s.holders && !s.phase.Ticking?
    case GiveBack(h) => h in s.holders
    case Charge(h, i, amount) => h in s.holders && 0 < amount <= LARGEST_CHARGE
    case Compute(t) => s.phase == Idle && s.lastFlush <= t && (cfg.first > 0 || cfg.second > 0)
    case LockMap(order) => s.phase.Computed? && IsOrder(s, order)
    case TickOne => s.phase.Ticking? && s.phase.todo != []
    case EraseAll => s.phase.Ticking? && s.phase.todo == []
  }

  function Step(cfg: Config, s: State, ev: Event): State
    requires Enabled(cfg, s, ev)
  {
    match ev
    case Take(h, a) => Taken(s, h, a)
    case GiveBack(h) => GivenBack(s, h)
    case Charge(h, i, amount) => ChargedBy(cfg, s, h, i, amount)
    case Compute(t) => if t <= s.lastFlush then s else s.(lastFlush := t, phase := Computed(t - s.lastFlush))
    case LockMap(order) => s.(phase := Ticking(s.phase.interval, order, []))
    case TickOne => Ticked(cfg, s)
    case EraseAll => Erased(s)
  }

  function Run(cfg: Config, s: State, events: seq<Event>): Option<State>
    decreases |events|
  {
    if events == [] then Some(s)
    else
      match Run(cfg, s, Front(events))
      case None => None
      case Some(s1) => if Enabled(cfg, s1, Last(events)) then Some(Step(cfg, s1, Last(events))) else None
  }

  function Init(now: int): State {
    State(map[], map[], map[], now, Idle, false)
  }
}
