/**
 All traffic of all clients together with the budgets it shares: the table of UDP endpoints, any number of TCP connections,
 and the budgets per client address with their routine thread. Every part goes on as its own machine; the traffic finds the
 shared balances when it asks for them, and what it takes is charged to the shared budget.
 */
module SharedTraffic {
  import opened Base
  import opened TokenBucket
  import Udp
  import UdpInvariants
  import UdpSteps
  import UdpTheorems
  import UdpCharges
  import Tcp
  import TcpInvariants
  import TcpTheorems
  import IpBuckets
  import IpTheorems

  type HolderId = IpBuckets.HolderId

  /** A TCP connection of the client with address `addr`, under the settings of its proxy. */
  datatype Conn = Conn(cfg: Tcp.Config, addr: IpBuckets.Addr, s: Tcp.State)

  datatype State = State(udp: Udp.State, conns: map<nat, Conn>, budgets: IpBuckets.State)

  /** `h` is the pointer to the budget that the endpoint or the connection holds. */
  datatype Event =
    | OfUdp(udpEv: Udp.Event, h: HolderId)
    | OfTcp(c: nat, tcpEv: Tcp.Event, h: HolderId)
    | NewConn(c: nat, cfg: Tcp.Config, addr: IpBuckets.Addr, now: int)
    | OfBudgets(ipEv: IpBuckets.Event)

  // ------------------------------------------------------------------ what a step of the traffic finds and takes

  /** The balances of the shared budgets. */
  function Balances(b: IpBuckets.State): map<nat, Pair<int>> {
    map a | a in b.addrs :: b.addrs[a].avail
  }

  /** A UDP machine that has just looked at the shared balances. */
  function UdpLooks(s: State): Udp.State {
    s.udp.(ips := Balances(s.budgets))
  }

  function TcpLooks(s: State, c: nat): Tcp.State
    requires c in s.conns
  {
    var k := s.conns[c];
    if k.addr in s.budgets.addrs then k.s.(ip := s.budgets.addrs[k.addr].avail) else k.s
  }

  /** What is taken from one direction of the budget of one client. */
  datatype Fee = Fee(addr: IpBuckets.Addr, i: Side, amount: nat)

  /** What a step of the UDP machine pays, for whatever endpoint it is at. */
  function UdpFees(cfg: Udp.Config, s: Udp.State, ev: Udp.Event): seq<Fee>
    requires Udp.Enabled(s, ev)
  {
    if !ev.Move? && !ev.Send? then []
    else
      var k := s.phase.todo[0];
      var e := s.epts[k];
      if e.server then []
      else if UdpSteps.Moves(cfg, s, ev) && cfg.ipLimit.At(1) > 0 then [Fee(k.ip, 1, Udp.Cost(e.recvQ[0]))]
      else if ev.Send? && Udp.MaySend(cfg, s, e, k) && cfg.ipLimit.At(0) > 0 then [Fee(k.ip, 0, Udp.Cost(e.sendQ[0]))]
      else []
  }

  /** What a step of a TCP connection pays for either direction: by how much the balance it works with has gone down. */
  function TcpFees(cfg: Tcp.Config, addr: IpBuckets.Addr, s: Tcp.State, ev: Tcp.Event): seq<Fee>
    requires Tcp.Enabled(s, ev)
  {
    var s' := Tcp.Step(cfg, s, ev);
    (if s.ip.first > s'.ip.first then [Fee(addr, 0, s.ip.first - s'.ip.first)] else [])
    + (if s.ip.second > s'.ip.second then [Fee(addr, 1, s.ip.second - s'.ip.second)] else [])
  }

  predicate Holds(b: IpBuckets.State, h: HolderId, a: IpBuckets.Addr) {
    h in b.holders && b.holders[h].addr == a
  }

  /** The charges to the shared budgets, made through pointer h. */
  function Bills(fees: seq<Fee>, h: HolderId): seq<IpBuckets.Event> {
    seq(|fees|, n requires 0 <= n < |fees| => IpBuckets.Charge(h, fees[n].i, fees[n].amount))
  }

  // ------------------------------------------------------------------ the machine

  /** What a step of the traffic pays. */
  function Fees(cfg: Udp.Config, s: State, ev: Event): seq<Fee> {
    match ev
    case OfUdp(e, _) => if Udp.Enabled(UdpLooks(s), e) then UdpFees(cfg, UdpLooks(s), e) else []
    case OfTcp(c, e, _) =>
      if c in s.conns && Tcp.Enabled(TcpLooks(s, c), e) then TcpFees(s.conns[c].cfg, s.conns[c].addr, TcpLooks(s, c), e) else []
    case _ => []
  }

  /** What happens to the shared budgets in a step. */
  function BudgetEvents(cfg: Udp.Config, s: State, ev: Event): seq<IpBuckets.Event> {
    match ev
    case OfUdp(_, h) => Bills(Fees(cfg, s, ev), h)
    case OfTcp(_, _, h) => Bills(Fees(cfg, s, ev), h)
    case NewConn(_, _, _, _) => []
    case OfBudgets(e) => [e]
  }

  /** Whoever pays holds a pointer to the budget of the client's address; nobody else charges. */
  predicate Enabled(cfg: Udp.Config, s: State, ev: Event) {
    && (match ev
        case OfUdp(e, h) => Udp.Enabled(UdpLooks(s), e) && !e.OthersUseIps?
        case OfTcp(c, e, h) => c in s.conns && Tcp.Enabled(TcpLooks(s, c), e) && !e.OthersUseIp?
        case NewConn(c, k, a, now) => c !in s.conns && k.ipLimit == cfg.ipLimit
        case OfBudgets(e) => IpBuckets.Enabled(cfg.ipLimit, s.budgets, e) && !e.Charge?)
    && (ev.OfUdp? || ev.OfTcp? ==> forall fee <- Fees(cfg, s, ev) :: Holds(s.budgets, ev.h, fee.addr))
  }

  function Charged(limits: Pair<int>, b: IpBuckets.State, bills: seq<IpBuckets.Event>): IpBuckets.State {
    var r := IpBuckets.Run(limits, b, bills);
    if r.Some? then r.value else b
  }

  function Step(cfg: Udp.Config, s: State, ev: Event): State
    requires Enabled(cfg, s, ev)
  {
    var budgets := Charged(cfg.ipLimit, s.budgets, BudgetEvents(cfg, s, ev));
    match ev
    case OfUdp(e, _) => s.(udp := Udp.Step(cfg, UdpLooks(s), e), budgets := budgets)
    case OfTcp(c, e, _) =>
      var k := s.conns[c];
      s.(conns := s.conns[c := k.(s := Tcp.Step(k.cfg, TcpLooks(s, c), e))], budgets := budgets)
    case NewConn(c, k, a, now) => s.(conns := s.conns[c := Conn(k, a, Tcp.Init(k, now, Pair(0, 0)))])
    case OfBudgets(_) => s.(budgets := budgets)
  }

  function Run(cfg: Udp.Config, s: State, events: seq<Event>): Option<State>
    decreases |events|
  {
    if events == [] then Some(s)
    else
      match Run(cfg, s, Front(events))
      case None => None
      case Some(s1) => if Enabled(cfg, s1, Last(events)) then Some(Step(cfg, s1, Last(events))) else None
  }

  function Start(lines: seq<Udp.Line>, now: int): State {
    State(Udp.Start(lines, now), map[], IpBuckets.Init(now))
  }

  // ------------------------------------------------------------------ every part is a run of its own machine

  ghost predicate Inv(cfg: Udp.Config, s: State) {
    && UdpTheorems.Inv(s.udp)
    && IpTheorems.Inv(cfg.ipLimit, s.budgets)
    && (forall c <- s.conns :: TcpInvariants.Inv(s.conns[c].cfg, s.conns[c].s) && s.conns[c].cfg.ipLimit == cfg.ipLimit)
  }

  lemma {:induction false} LooksUdp(cfg: Udp.Config, s: State)
    requires UdpTheorems.Inv(s.udp)
    ensures var ev := Udp.OthersUseIps(Balances(s.budgets));
            && Udp.Enabled(s.udp, ev) && Udp.Step(cfg, s.udp, ev) == UdpLooks(s)
            && UdpTheorems.Inv(UdpLooks(s))
  {
    var ev := Udp.OthersUseIps(Balances(s.budgets));
    assert Udp.Step(cfg, s.udp, ev) == UdpLooks(s);
    hide UdpTheorems.Inv, Udp.Step, Udp.Enabled;
    UdpTheorems.StepInv(cfg, s.udp, ev);
  }

  lemma {:induction false} LooksTcp(s: State, c: nat)
    requires c in s.conns && TcpInvariants.Inv(s.conns[c].cfg, s.conns[c].s) && !s.conns[c].s.gone
    ensures TcpInvariants.Inv(s.conns[c].cfg, TcpLooks(s, c))
  {
    var k := s.conns[c];
    if k.addr in s.budgets.addrs {
      var ev := Tcp.OthersUseIp(s.budgets.addrs[k.addr].avail);
      assert Tcp.Step(k.cfg, k.s, ev) == TcpLooks(s, c);
      hide TcpInvariants.Inv, Tcp.Step;
      TcpTheorems.StepInv(k.cfg, k.s, ev);
    }
  }

  // ------------------------------------------------------------------ the fees are charged as the shared budgets allow

  /** A fee that the shared budgets accept from a holder, and that leaves these balances. */
  ghost predicate Fair(limits: Pair<int>, balance: Pair<int>, fee: Fee, after: Pair<int>) {
    && limits.At(fee.i) > 0 && balance.At(fee.i) >= 0 && 0 < fee.amount <= IpBuckets.LARGEST_CHARGE
    && after == balance.With(fee.i, balance.At(fee.i) - fee.amount)
  }

  lemma {:induction false} RunOneMore(limits: Pair<int>, b: IpBuckets.State, before: seq<IpBuckets.Event>, ev: IpBuckets.Event)
    ensures IpBuckets.Run(limits, b, before + [ev])
            == match IpBuckets.Run(limits, b, before)
               case None => None
               case Some(s) => if IpBuckets.Enabled(limits, s, ev) then Some(IpBuckets.Step(limits, s, ev)) else None
  {
    assert Front(before + [ev]) == before;
    hide IpBuckets.Enabled, IpBuckets.Step;
  }

  /** The charge of a fee keeps what holds of the budgets and is counted, to nothing else. */
  lemma {:induction false} ChargeCounted(limits: Pair<int>, b: IpBuckets.State, h: HolderId, fee: Fee)
    requires IpTheorems.Inv(limits, b) && Holds(b, h, fee.addr) && fee.addr in b.addrs
    requires limits.At(fee.i) > 0 && b.addrs[fee.addr].avail.At(fee.i) >= 0 && 0 < fee.amount <= IpBuckets.LARGEST_CHARGE
    ensures var ev := IpBuckets.Charge(h, fee.i, fee.amount);
            && IpBuckets.Enabled(limits, b, ev)
            && var b' := IpBuckets.Step(limits, b, ev);
               && IpTheorems.Inv(limits, b')
               && (forall a, i :: Spent(b', a, i) == Spent(b, a, i) + if a == fee.addr && i == fee.i then fee.amount else 0)
  {
    var ev := IpBuckets.Charge(h, fee.i, fee.amount);
    assert IpBuckets.Enabled(limits, b, ev);
    var b' := IpBuckets.Step(limits, b, ev);
    hide IpTheorems.Counted, IpTheorems.Passes, IpTheorems.Money, IpBuckets.Step;
    IpTheorems.StepCounted(limits, b, ev);
    IpTheorems.StepPasses(limits, b, ev);
    IpTheorems.StepMoney(limits, b, ev);
    forall a, i ensures Spent(b', a, i) == Spent(b, a, i) + if a == fee.addr && i == fee.i then fee.amount else 0 {
      IpTheorems.StepCharged(limits, b, ev, a, i);
    }
  }

  /** A fair fee is charged in full. */
  lemma {:induction false} FairCharge(limits: Pair<int>, b: IpBuckets.State, h: HolderId, fee: Fee, after: Pair<int>)
    requires IpTheorems.Inv(limits, b) && Holds(b, h, fee.addr)
    requires fee.addr in b.addrs ==> Fair(limits, b.addrs[fee.addr].avail, fee, after)
    ensures fee.addr in b.addrs && fee.addr in b.history
    ensures var b' := IpBuckets.Step(limits, b, IpBuckets.Charge(h, fee.i, fee.amount));
            b'.holders == b.holders && Balances(b') == Balances(b)[fee.addr := after]
  {
    assert IpBuckets.Live(b, b.holders[h]);
    hide IpTheorems.Money;
  }

  /** What has been charged to the budgets of an address, in all their lives. */
  function Spent(b: IpBuckets.State, a: IpBuckets.Addr, i: Side): int {
    if a in b.history then b.history[a].charged.At(i) else 0
  }

  /** What fees take from one direction of one client's budget. */
  function Sum(fees: seq<Fee>, a: IpBuckets.Addr, i: Side): nat
    decreases |fees|
  {
    if fees == [] then 0 else Sum(Front(fees), a, i) + if Last(fees).addr == a && Last(fees).i == i then Last(fees).amount else 0
  }

  /** The budgets b became b' by these fees, and nothing else about them has changed. */
  ghost predicate Billed(limits: Pair<int>, b: IpBuckets.State, fees: seq<Fee>, h: HolderId, b': IpBuckets.State) {
    && IpBuckets.Run(limits, b, Bills(fees, h)) == Some(b') && IpTheorems.Inv(limits, b') && b'.holders == b.holders
    && (forall a, i :: Spent(b', a, i) == Spent(b, a, i) + Sum(fees, a, i))
  }

  lemma {:induction false} NoFees(limits: Pair<int>, b: IpBuckets.State, h: HolderId)
    requires IpTheorems.Inv(limits, b)
    ensures Billed(limits, b, [], h, b)
  {
    assert Bills([], h) == [];
    hide IpTheorems.Inv;
  }

  lemma {:induction false} OneFee(limits: Pair<int>, b0: IpBuckets.State, fees: seq<Fee>, h: HolderId, b: IpBuckets.State, fee: Fee, after: Pair<int>)
      returns (b': IpBuckets.State)
    requires Billed(limits, b0, fees, h, b) && Holds(b, h, fee.addr)
    requires fee.addr in b.addrs ==> Fair(limits, b.addrs[fee.addr].avail, fee, after)
    ensures Billed(limits, b0, fees + [fee], h, b') && fee.addr in b.addrs && Balances(b') == Balances(b)[fee.addr := after]
  {
    var ev := IpBuckets.Charge(h, fee.i, fee.amount);
    FairCharge(limits, b, h, fee, after);
    ChargeCounted(limits, b, h, fee);
    b' := IpBuckets.Step(limits, b, ev);
    assert Bills(fees + [fee], h) == Bills(fees, h) + [ev];
    RunOneMore(limits, b0, Bills(fees, h), ev);
    assert Front(fees + [fee]) == fees;
    hide IpTheorems.Inv, IpBuckets.Step, IpBuckets.Enabled, IpBuckets.Run, Balances, Spent, Holds, Fair;
  }

  lemma {:induction false} UdpFair(cfg: Udp.Config, s: Udp.State, ev: Udp.Event)
    requires UdpInvariants.Sizes(s) && Udp.Enabled(s, ev) && !ev.OthersUseIps?
    ensures var fees, s' := UdpFees(cfg, s, ev), Udp.Step(cfg, s, ev);
            && (fees == [] ==> s'.ips == s.ips)
            && (fees != [] ==>
                  && fees == [fees[0]]
                  && (fees[0].addr in s.ips ==>
                        && fees[0].addr in s'.ips && s'.ips == s.ips[fees[0].addr := s'.ips[fees[0].addr]]
                        && Fair(cfg.ipLimit, s.ips[fees[0].addr], fees[0], s'.ips[fees[0].addr])))
  {
    if ev.Move? || ev.Send? {
      var k := s.phase.todo[0];
      assert UdpInvariants.SizesOk(s.epts[k], k);
      UdpCharges.StepIps(cfg, s, ev);
    } else {
      hide Udp.Got, Udp.Lose, Udp.Handled, Udp.Errored, Udp.RefillBoth, Udp.LoseAll, Udp.Store;
    }
    hide Udp.Step, UdpInvariants.Sizes;
  }

  /** Step of the table: the shared budgets are charged what it pays and show the balances that it works with. */
  lemma {:induction false} UdpBilled(cfg: Udp.Config, s: State, ev: Event)
    requires Inv(cfg, s) && Enabled(cfg, s, ev) && ev.OfUdp?
    ensures var b' := Charged(cfg.ipLimit, s.budgets, BudgetEvents(cfg, s, ev));
            && Billed(cfg.ipLimit, s.budgets, Fees(cfg, s, ev), ev.h, b')
            && Balances(b') == Udp.Step(cfg, UdpLooks(s), ev.udpEv).ips
  {
    var b, u, fees := s.budgets, UdpLooks(s), Fees(cfg, s, ev);
    LooksUdp(cfg, s);
    SizesOf(u);
    hide UdpTheorems.Inv, IpTheorems.Inv, TcpInvariants.Inv, Udp.Step, Udp.Enabled, UdpFees, Fair, Billed, Bills;
    UdpFair(cfg, u, ev.udpEv);
    NoFees(cfg.ipLimit, b, ev.h);
    BilledIs(cfg.ipLimit, b, fees, ev.h);
    if fees != [] {
      var fee := fees[0];
      assert [] + [fee] == fees;
      var b' := OneFee(cfg.ipLimit, b, [], ev.h, b, fee, if fee.addr in b.addrs then Udp.Step(cfg, u, ev.udpEv).ips[fee.addr] else Pair(0, 0));
      BilledIs(cfg.ipLimit, b, fees, ev.h);
    }
  }

  lemma {:induction false} SizesOf(s: Udp.State)
    requires UdpTheorems.Inv(s)
    ensures UdpInvariants.Sizes(s)
  {
  }

  /** There is one such outcome. */
  lemma {:induction false} BilledIs(limits: Pair<int>, b: IpBuckets.State, fees: seq<Fee>, h: HolderId)
    ensures forall b' | Billed(limits, b, fees, h, b') :: b' == Charged(limits, b, Bills(fees, h))
  {
    hide IpTheorems.Inv, Bills;
  }

  /** The fee for one direction, if there is one. */
  function SideFee(addr: IpBuckets.Addr, before: Pair<int>, after: Pair<int>, i: Side): seq<Fee> {
    if before.At(i) > after.At(i) then [Fee(addr, i, before.At(i) - after.At(i))] else []
  }

  /** The fee for one direction is fair, whatever the balance of the other one. */
  ghost predicate SideFair(limits: Pair<int>, addr: IpBuckets.Addr, before: Pair<int>, after: Pair<int>, i: Side) {
    var fees := SideFee(addr, before, after, i);
    && (fees == [] ==> after.At(i) == before.At(i))
    && (fees != [] ==> forall balance: Pair<int> | balance.At(i) == before.At(i) ::
          Fair(limits, balance, fees[0], balance.With(i, after.At(i))))
  }

  lemma {:induction false} LegalIsFair(limits: Pair<int>, addr: IpBuckets.Addr, before: Pair<int>, after: Pair<int>, i: Side)
    requires TcpTheorems.LegalCharge(limits.At(i), before.At(i), after.At(i))
    ensures SideFair(limits, addr, before, after, i)
  {
    if i == 0 {
    } else {
    }
  }

  lemma {:induction false} TcpFair(cfg: Tcp.Config, addr: IpBuckets.Addr, s: Tcp.State, ev: Tcp.Event, i: Side)
    requires TcpInvariants.Inv(cfg, s) && Tcp.Enabled(s, ev) && !ev.OthersUseIp?
    ensures SideFair(cfg.ipLimit, addr, s.ip, Tcp.Step(cfg, s, ev).ip, i)
  {
    hide Tcp.Step, Tcp.Enabled, SideFair, TcpTheorems.LegalCharge;
    TcpTheorems.ChargesAt(cfg, s, ev, i);
    LegalIsFair(cfg.ipLimit, addr, s.ip, Tcp.Step(cfg, s, ev).ip, i);
  }

  lemma {:induction false} SideBilled(limits: Pair<int>, b0: IpBuckets.State, fees: seq<Fee>, h: HolderId, b: IpBuckets.State,
                                      addr: IpBuckets.Addr, before: Pair<int>, after: Pair<int>, i: Side)
      returns (b': IpBuckets.State)
    requires Billed(limits, b0, fees, h, b) && addr in b.addrs && b.addrs[addr].avail.At(i) == before.At(i)
    requires SideFee(addr, before, after, i) != [] ==> Holds(b, h, addr)
    requires SideFair(limits, addr, before, after, i)
    ensures Billed(limits, b0, fees + SideFee(addr, before, after, i), h, b')
    ensures Balances(b') == Balances(b)[addr := b.addrs[addr].avail.With(i, after.At(i))]
  {
    var more := SideFee(addr, before, after, i);
    hide Billed, Fair, Holds;
    b' := b;
    if more != [] {
      var fee := more[0];
      assert fee.addr == addr && more == [fee];
      b' := OneFee(limits, b0, fees, h, b, fee, b.addrs[addr].avail.With(i, after.At(i)));
    } else {
      assert fees + more == fees;
    }
  }

  lemma {:induction false} TcpFeesAre(cfg: Tcp.Config, addr: IpBuckets.Addr, s: Tcp.State, ev: Tcp.Event)
    requires Tcp.Enabled(s, ev)
    ensures var s' := Tcp.Step(cfg, s, ev);
            TcpFees(cfg, addr, s, ev) == [] + SideFee(addr, s.ip, s'.ip, 0) + SideFee(addr, s.ip, s'.ip, 1)
  {
    hide Tcp.Step, Tcp.Enabled;
  }

  /** Whoever pays for a connection holds a pointer to a budget that is in the map. */
  lemma {:induction false} TcpHolder(cfg: Udp.Config, s: State, ev: Event)
    requires Inv(cfg, s) && Enabled(cfg, s, ev) && ev.OfTcp?
    ensures var k := s.conns[ev.c];
            Fees(cfg, s, ev) != [] ==> Holds(s.budgets, ev.h, k.addr) && k.addr in s.budgets.addrs
  {
    var fees := Fees(cfg, s, ev);
    if fees != [] {
      assert fees[0] in fees;
      assert IpBuckets.Live(s.budgets, s.budgets.holders[ev.h]);
    }
    hide UdpTheorems.Inv, TcpInvariants.Inv, Tcp.Step, Tcp.Enabled;
  }

  lemma {:induction false} BilledHolders(limits: Pair<int>, b: IpBuckets.State, fees: seq<Fee>, h: HolderId, b': IpBuckets.State)
    requires Billed(limits, b, fees, h, b')
    ensures forall a :: Holds(b', h, a) <==> Holds(b, h, a)
  {
    hide IpTheorems.Inv;
  }

  lemma {:induction false} BalanceIn(b: IpBuckets.State, a: IpBuckets.Addr)
    ensures a in Balances(b) <==> a in b.addrs
    ensures a in b.addrs ==> Balances(b)[a] == b.addrs[a].avail
  {
  }

  /** Both fees of a connection, one after the other. */
  lemma {:induction false} BothBilled(limits: Pair<int>, b: IpBuckets.State, h: HolderId, addr: IpBuckets.Addr, after: Pair<int>)
      returns (b': IpBuckets.State)
    requires IpTheorems.Inv(limits, b) && addr in b.addrs
    requires SideFair(limits, addr, b.addrs[addr].avail, after, 0) && SideFair(limits, addr, b.addrs[addr].avail, after, 1)
    requires var before := b.addrs[addr].avail;
             SideFee(addr, before, after, 0) + SideFee(addr, before, after, 1) != [] ==> Holds(b, h, addr)
    ensures var before := b.addrs[addr].avail;
            Billed(limits, b, [] + SideFee(addr, before, after, 0) + SideFee(addr, before, after, 1), h, b')
    ensures Balances(b') == Balances(b)[addr := after]
  {
    var before := b.addrs[addr].avail;
    var first := [] + SideFee(addr, before, after, 0);
    hide IpTheorems.Inv, Billed, SideFair, SideFee, Holds, Balances;
    NoFees(limits, b, h);
    var b1 := SideBilled(limits, b, [], h, b, addr, before, after, 0);
    BilledHolders(limits, b, first, h, b1);
    BalanceIn(b1, addr);
    b' := SideBilled(limits, b, first, h, b1, addr, before, after, 1);
  }

  /** Step of a connection: likewise, for the budget of its client. */
  lemma {:induction false} TcpBilled(cfg: Udp.Config, s: State, ev: Event)
    requires Inv(cfg, s) && Enabled(cfg, s, ev) && ev.OfTcp?
    ensures var k, b' := s.conns[ev.c], Charged(cfg.ipLimit, s.budgets, BudgetEvents(cfg, s, ev));
            && Billed(cfg.ipLimit, s.budgets, Fees(cfg, s, ev), ev.h, b')
            && (if k.addr in s.budgets.addrs
                then Balances(b') == Balances(s.budgets)[k.addr := Tcp.Step(k.cfg, TcpLooks(s, ev.c), ev.tcpEv).ip]
                else b' == s.budgets)
  {
    var b, k, fees, limits := s.budgets, s.conns[ev.c], Fees(cfg, s, ev), cfg.ipLimit;
    LooksTcp(s, ev.c);
    TcpHolder(cfg, s, ev);
    hide UdpTheorems.Inv, IpTheorems.Inv, TcpInvariants.Inv, Tcp.Step, Tcp.Enabled, TcpFees, Billed, Bills, SideFee, SideFair, Holds, Balances;
    BilledIs(limits, b, fees, ev.h);
    if k.addr in b.addrs {
      var t := TcpLooks(s, ev.c);
      TcpFeesAre(k.cfg, k.addr, t, ev.tcpEv);
      TcpFair(k.cfg, k.addr, t, ev.tcpEv, 0);
      TcpFair(k.cfg, k.addr, t, ev.tcpEv, 1);
      var b' := BothBilled(limits, b, ev.h, k.addr, Tcp.Step(k.cfg, t, ev.tcpEv).ip);
    } else {
      assert fees == [];
      NoFees(limits, b, ev.h);
    }
  }

  // ------------------------------------------------------------------ the invariant, and what is spent

  lemma {:induction false} BudgetStep(limits: Pair<int>, b: IpBuckets.State, ev: IpBuckets.Event)
    requires IpTheorems.Inv(limits, b) && IpBuckets.Enabled(limits, b, ev) && !ev.Charge?
    ensures var b' := IpBuckets.Step(limits, b, ev);
            && IpBuckets.Run(limits, b, [ev]) == Some(b') && Charged(limits, b, [ev]) == b' && IpTheorems.Inv(limits, b')
            && forall a, i :: Spent(b', a, i) == Spent(b, a, i)
  {
    IpTheorems.StepCounted(limits, b, ev);
    IpTheorems.StepPasses(limits, b, ev);
    IpTheorems.StepMoney(limits, b, ev);
    assert [] + [ev] == [ev];
    RunOneMore(limits, b, [], ev);
    forall a, i ensures Spent(IpBuckets.Step(limits, b, ev), a, i) == Spent(b, a, i) {
      IpTheorems.StepCharged(limits, b, ev, a, i);
    }
    hide IpTheorems.Counted, IpTheorems.Passes, IpTheorems.Money, IpBuckets.Step, IpBuckets.Enabled;
  }

  /** The budgets go on as their machine does, by the step's own charges, and what is charged is what the traffic pays. */
  lemma {:induction false} StepBudgets(cfg: Udp.Config, s: State, ev: Event)
    requires Inv(cfg, s) && Enabled(cfg, s, ev)
    ensures var b' := Step(cfg, s, ev).budgets;
            && IpBuckets.Run(cfg.ipLimit, s.budgets, BudgetEvents(cfg, s, ev)) == Some(b') && IpTheorems.Inv(cfg.ipLimit, b')
            && forall a, i :: Spent(b', a, i) == Spent(s.budgets, a, i) + Sum(Fees(cfg, s, ev), a, i)
  {
    match ev {
      case OfUdp(_, _) => UdpBilled(cfg, s, ev);
      case OfTcp(_, _, _) => TcpBilled(cfg, s, ev);
      case OfBudgets(e) => BudgetStep(cfg.ipLimit, s.budgets, e);
      case NewConn(_, _, _, _) =>
    }
    hide Enabled, UdpTheorems.Inv, IpTheorems.Inv, TcpInvariants.Inv, Udp.Step, Tcp.Step, IpBuckets.Step, Bills, Spent, Balances;
  }

  lemma {:induction false} StepConns(cfg: Udp.Config, s: State, ev: Event, c: nat)
    requires Inv(cfg, s) && Enabled(cfg, s, ev) && c in Step(cfg, s, ev).conns
    ensures var k := Step(cfg, s, ev).conns[c];
            TcpInvariants.Inv(k.cfg, k.s) && k.cfg.ipLimit == cfg.ipLimit
  {
    if ev.OfTcp? && ev.c == c {
      LooksTcp(s, c);
      hide TcpInvariants.Inv, Tcp.Step, Tcp.Enabled;
      TcpTheorems.StepInv(s.conns[c].cfg, TcpLooks(s, c), ev.tcpEv);
    } else if ev.NewConn? && ev.c == c {
      hide TcpInvariants.Inv, Tcp.Init;
      TcpTheorems.InitInv(ev.cfg, ev.now, Pair(0, 0));
    }
    hide UdpTheorems.Inv, IpTheorems.Inv, TcpInvariants.Inv, Udp.Step, Charged, Fees, BudgetEvents;
  }

  lemma {:induction false} StepInv(cfg: Udp.Config, s: State, ev: Event)
    requires Inv(cfg, s) && Enabled(cfg, s, ev)
    ensures Inv(cfg, Step(cfg, s, ev))
  {
    StepBudgets(cfg, s, ev);
    if ev.OfUdp? {
      LooksUdp(cfg, s);
      hide UdpTheorems.Inv, Udp.Step, Udp.Enabled;
      UdpTheorems.StepInv(cfg, UdpLooks(s), ev.udpEv);
    }
    forall c <- Step(cfg, s, ev).conns
      ensures TcpInvariants.Inv(Step(cfg, s, ev).conns[c].cfg, Step(cfg, s, ev).conns[c].s) && Step(cfg, s, ev).conns[c].cfg.ipLimit == cfg.ipLimit
    {
      StepConns(cfg, s, ev, c);
    }
    hide Enabled, UdpTheorems.Inv, IpTheorems.Inv, TcpInvariants.Inv, Udp.Step, Tcp.Step, Charged, Fees, BudgetEvents, Spent;
  }

  lemma {:induction false} RunInv(cfg: Udp.Config, lines: seq<Udp.Line>, now: int, events: seq<Event>)
    requires now > 0 && Run(cfg, Start(lines, now), events).Some?
    ensures Inv(cfg, Run(cfg, Start(lines, now), events).value)
    decreases |events|
  {
    hide Enabled, Step, UdpTheorems.Inv, IpTheorems.Inv, TcpInvariants.Inv, Udp.Start, Udp.Run, IpBuckets.Run;
    if events == [] {
      UdpTheorems.StartIs(lines, now);
      UdpTheorems.StartedInv(Udp.Start(lines, now), now);
      NoBudgets(cfg.ipLimit, now);
    } else {
      RunInv(cfg, lines, now, Front(events));
      hide Inv;
      StepInv(cfg, Run(cfg, Start(lines, now), Front(events)).value, Last(events));
    }
  }

  lemma {:induction false} NoBudgets(limits: Pair<int>, now: int)
    ensures IpTheorems.Inv(limits, IpBuckets.Init(now)) && IpBuckets.Run(limits, IpBuckets.Init(now), []) == Some(IpBuckets.Init(now))
  {
    IpTheorems.RunInv(limits, now, []);
  }

  // ------------------------------------------------------------------ whole runs

  /** What all the traffic of a run pays out of one direction of one client's budget. */
  function Paid(cfg: Udp.Config, s: State, events: seq<Event>, a: IpBuckets.Addr, i: Side): nat
    requires Run(cfg, s, events).Some?
    decreases |events|
  {
    if events == [] then 0
    else Paid(cfg, s, Front(events), a, i) + Sum(Fees(cfg, Run(cfg, s, Front(events)).value, Last(events)), a, i)
  }

  /** What happens to the shared budgets in a run. */
  function AllBudgetEvents(cfg: Udp.Config, s: State, events: seq<Event>): seq<IpBuckets.Event>
    requires Run(cfg, s, events).Some?
    decreases |events|
  {
    if events == [] then []
    else AllBudgetEvents(cfg, s, Front(events)) + BudgetEvents(cfg, Run(cfg, s, Front(events)).value, Last(events))
  }

  lemma {:induction false} JoinBudgets(limits: Pair<int>, b: IpBuckets.State, first: seq<IpBuckets.Event>, second: seq<IpBuckets.Event>)
    requires IpBuckets.Run(limits, b, first).Some?
    ensures IpBuckets.Run(limits, b, first + second) == IpBuckets.Run(limits, IpBuckets.Run(limits, b, first).value, second)
    decreases |second|
  {
    hide IpBuckets.Enabled, IpBuckets.Step;
    if second == [] {
      assert first + second == first;
    } else {
      JoinBudgets(limits, b, first, Front(second));
      assert Front(first + second) == first + Front(second);
    }
  }

  /** The budgets of a run of everything are those of a run of their own machine, in which exactly what is paid is charged. */
  lemma {:induction false} RunBudgets(cfg: Udp.Config, lines: seq<Udp.Line>, now: int, events: seq<Event>)
    requires now > 0 && Run(cfg, Start(lines, now), events).Some?
    ensures var s := Run(cfg, Start(lines, now), events).value;
            && IpBuckets.Run(cfg.ipLimit, IpBuckets.Init(now), AllBudgetEvents(cfg, Start(lines, now), events)) == Some(s.budgets)
            && forall a, i :: Spent(s.budgets, a, i) == Paid(cfg, Start(lines, now), events, a, i)
    decreases |events|
  {
    var s0 := Start(lines, now);
    hide Enabled, Step, Udp.Start, BudgetEvents, Fees, Sum, IpBuckets.Run;
    if events == [] {
      NoBudgets(cfg.ipLimit, now);
    } else {
      var s := Run(cfg, s0, Front(events)).value;
      RunBudgets(cfg, lines, now, Front(events));
      RunInv(cfg, lines, now, Front(events));
      hide Inv, Spent;
      StepBudgets(cfg, s, Last(events));
      JoinBudgets(cfg.ipLimit, IpBuckets.Init(now), AllBudgetEvents(cfg, s0, Front(events)), BudgetEvents(cfg, s, Last(events)));
    }
  }

  /**
   What all endpoints and all connections of one client address pay together, whatever the interleaving with each other, with
   budgets taken and given back, and with the routine thread of the budgets: the quota of the time since the last pass before
   the first budget, and one largest charge for every life of the budget.
   */
  lemma {:induction false} TotalRateBound(cfg: Udp.Config, lines: seq<Udp.Line>, now: int, events: seq<Event>, a: IpBuckets.Addr, i: Side)
    requires now > 0 && Run(cfg, Start(lines, now), events).Some?
    ensures var b := Run(cfg, Start(lines, now), events).value.budgets;
            var paid := Paid(cfg, Start(lines, now), events, a, i);
            if a in b.history && cfg.ipLimit.At(i) > 0 then
              && b.history[a].origin <= b.lastFlush
              && paid <= Quota(cfg.ipLimit.At(i), b.lastFlush - b.history[a].origin) + IpBuckets.LARGEST_CHARGE * b.history[a].lives
            else paid == 0
  {
    hide Run, IpBuckets.Run, Start, IpBuckets.Init, Paid, AllBudgetEvents, Quota, Spent;
    RunBudgets(cfg, lines, now, events);
    SpentBound(cfg.ipLimit, now, AllBudgetEvents(cfg, Start(lines, now), events), a, i);
  }

  lemma {:induction false} SpentBound(limits: Pair<int>, now: int, bills: seq<IpBuckets.Event>, a: IpBuckets.Addr, i: Side)
    requires IpBuckets.Run(limits, IpBuckets.Init(now), bills).Some?
    ensures var b := IpBuckets.Run(limits, IpBuckets.Init(now), bills).value;
            if a in b.history && limits.At(i) > 0 then
              && b.history[a].origin <= b.lastFlush
              && Spent(b, a, i) <= Quota(limits.At(i), b.lastFlush - b.history[a].origin) + IpBuckets.LARGEST_CHARGE * b.history[a].lives
            else Spent(b, a, i) <= 0
  {
    hide IpBuckets.Run, IpBuckets.Init, Quota;
    var b := IpBuckets.Run(limits, IpBuckets.Init(now), bills).value;
    if a in b.history {
      IpTheorems.SharedRateBound(limits, now, bills, a, i);
    }
  }

  // ------------------------------------------------------------------ every part is a run of its own machine

  /** The part of the table: before each of its steps it looks at the shared balances. */
  function UdpEvents(cfg: Udp.Config, s: State, events: seq<Event>): seq<Udp.Event>
    requires Run(cfg, s, events).Some?
    decreases |events|
  {
    if events == [] then []
    else
      var before, ev := UdpEvents(cfg, s, Front(events)), Last(events);
      if ev.OfUdp? then before + [Udp.OthersUseIps(Balances(Run(cfg, s, Front(events)).value.budgets))] + [ev.udpEv] else before
  }

  /** So what is proved of the table on its own holds of it here. */
  lemma {:induction false} UdpPart(cfg: Udp.Config, lines: seq<Udp.Line>, now: int, events: seq<Event>)
    requires now > 0 && Run(cfg, Start(lines, now), events).Some?
    ensures var es := UdpEvents(cfg, Start(lines, now), events);
            UdpTheorems.Runs(cfg, lines, now, es)
            && UdpTheorems.After(cfg, lines, now, es) == Run(cfg, Start(lines, now), events).value.udp
    decreases |events|
  {
    hide Udp.Start, Udp.Step, Udp.Enabled, Charged, Fees, BudgetEvents, Balances;
    if events != [] {
      UdpPart(cfg, lines, now, Front(events));
      var s, ev := Run(cfg, Start(lines, now), Front(events)).value, Last(events);
      if ev.OfUdp? {
        var before := UdpEvents(cfg, Start(lines, now), Front(events));
        LooksIs(cfg, s);
        var u := UdpTheorems.Chain(cfg, Udp.Start(lines, now), before, s.udp, Udp.OthersUseIps(Balances(s.budgets)));
        var u1 := UdpTheorems.Chain(cfg, Udp.Start(lines, now), before + [Udp.OthersUseIps(Balances(s.budgets))], u, ev.udpEv);
      }
    }
  }

  lemma {:induction false} LooksIs(cfg: Udp.Config, s: State)
    ensures var ev := Udp.OthersUseIps(Balances(s.budgets));
            Udp.Enabled(s.udp, ev) && Udp.Step(cfg, s.udp, ev) == UdpLooks(s)
  {
  }

  /** A connection's own run, from its start. */
  ghost predicate OwnRun(k: Conn, start: int, events: seq<Tcp.Event>) {
    Tcp.Run(k.cfg, Tcp.Init(k.cfg, start, Pair(0, 0)), events) == Some(k.s)
  }

  /** Likewise for every connection. */
  lemma {:induction false} TcpPart(cfg: Udp.Config, lines: seq<Udp.Line>, now: int, events: seq<Event>, c: nat)
      returns (start: int, es: seq<Tcp.Event>)
    requires Run(cfg, Start(lines, now), events).Some? && c in Run(cfg, Start(lines, now), events).value.conns
    ensures OwnRun(Run(cfg, Start(lines, now), events).value.conns[c], start, es)
    decreases |events|
  {
    hide Udp.Start, Udp.Step, Tcp.Step, Tcp.Init, Charged, Fees, BudgetEvents, IpBuckets.Enabled, Udp.Enabled;
    var s, ev := Run(cfg, Start(lines, now), Front(events)).value, Last(events);
    if ev.NewConn? && ev.c == c {
      start, es := ev.now, [];
    } else {
      start, es := TcpPart(cfg, lines, now, Front(events), c);
      if ev.OfTcp? && ev.c == c {
        es := OwnStep(s, c, start, es, ev.tcpEv);
      }
    }
  }

  lemma {:induction false} OwnOne(k: Conn, start: int, before: seq<Tcp.Event>, ev: Tcp.Event)
    requires OwnRun(k, start, before) && Tcp.Enabled(k.s, ev)
    ensures OwnRun(k.(s := Tcp.Step(k.cfg, k.s, ev)), start, before + [ev])
  {
    assert Front(before + [ev]) == before;
    hide Tcp.Step, Tcp.Init, Tcp.Enabled;
  }

  lemma {:induction false} TcpLooksIs(s: State, c: nat)
    requires c in s.conns && s.conns[c].addr in s.budgets.addrs && !s.conns[c].s.gone
    ensures var k, ev := s.conns[c], Tcp.OthersUseIp(s.budgets.addrs[s.conns[c].addr].avail);
            Tcp.Enabled(k.s, ev) && Tcp.Step(k.cfg, k.s, ev) == TcpLooks(s, c)
  {
  }

  lemma {:induction false} OwnStep(s: State, c: nat, start: int, before: seq<Tcp.Event>, ev: Tcp.Event) returns (es: seq<Tcp.Event>)
    requires c in s.conns && OwnRun(s.conns[c], start, before) && Tcp.Enabled(TcpLooks(s, c), ev)
    ensures OwnRun(s.conns[c].(s := Tcp.Step(s.conns[c].cfg, TcpLooks(s, c), ev)), start, es)
  {
    var k := s.conns[c];
    assert !k.s.gone;
    hide Tcp.Step, Tcp.Enabled, OwnRun;
    es := before;
    if k.addr in s.budgets.addrs {
      var looks := Tcp.OthersUseIp(s.budgets.addrs[k.addr].avail);
      TcpLooksIs(s, c);
      OwnOne(k, start, before, looks);
      es := before + [looks];
    }
    OwnOne(k.(s := TcpLooks(s, c)), start, es, ev);
    es := es + [ev];
  }
}
