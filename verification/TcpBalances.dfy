/** What the balances of a TCP connection are exactly, and how a debt is paid off. */
module TcpBalances {
  import opened Base
  import opened TokenBucket
  import opened Tcp
  import opened TcpInvariants
  import opened TcpTheorems
  import opened TcpExact

  /** What the bandwidth allows in the time of a tick. */
  function Allowed(cfg: Config, last: int, ev: Event): int {
    if ev.Tick? && last < ev.now && cfg.bandwidth > 0 then (ev.now - last) * cfg.bandwidth / 1000 else 0
  }

  // ------------------------------------------------------------------ what other steps do

  /** The balances of a connection and of its client. */
  ghost predicate SameMoney(s: State, s': State) {
    && s'.near.avail == s.near.avail && s'.far.avail == s.far.avail && s'.ip == s.ip
    && s'.near.ledger == s.near.ledger && s'.far.ledger == s.far.ledger
    && s'.near.writeOps == s.near.writeOps && s'.far.writeOps == s.far.writeOps
  }

  lemma {:induction false} ReadMoney(cfg: Config, s: State, r: Completion, data: seq<Byte>)
    requires CanFill(s, data)
    ensures SameMoney(s, ReadHandler(cfg, FinishRead(s, r, data), r, |data|)) && SameMoney(s, Fill(s, data))
  {
    var s1 := FinishRead(s, r, data);
    assert SameMoney(s, s1) && SameMoney(s, Fill(s, data)) by {
      hide Store;
    }
    HandlerMoney(cfg, s1, r, |data|);
    hide FinishRead, Fill, ReadHandler;
  }

  lemma {:induction false} HandlerMoney(cfg: Config, s: State, r: Completion, bytes: nat)
    ensures SameMoney(s, ReadHandler(cfg, s, r, bytes))
  {
    if r == Success {
      hide Push, AsyncRead;
      var s1 := Push(cfg, s, bytes);
      var s2 := s1.(near := s1.near.(reading := false));
      PushMoney(cfg, s, bytes);
      AsyncMoney(s1);
      assert SameMoney(s1, s2);
      hide SameMoney;
      SameMoneyTwice(s, s1, s2);
      SameMoneyTwice(s, s1, AsyncRead(s1));
    } else {
      hide Push, AsyncRead;
    }
  }

  lemma {:induction false} SameMoneyTwice(s: State, s1: State, s2: State)
    requires SameMoney(s, s1) && SameMoney(s1, s2)
    ensures SameMoney(s, s2)
  {
  }

  lemma {:induction false} AsyncMoney(s: State)
    ensures SameMoney(s, AsyncRead(s))
  {
    hide NewBuffer;
  }

  lemma {:induction false} PushMoney(cfg: Config, s: State, bytes: nat)
    ensures SameMoney(s, Push(cfg, s, bytes))
  {
  }

  lemma {:induction false} ConnectMoney(s: State, r: Completion)
    ensures SameMoney(s, HandleConnect(s, r))
  {
    hide AsyncRead;
    var s1 := s.(activeTime := s.now, fullOpen := true);
    AsyncMoney(s1);
    AsyncMoney(Flip(AsyncRead(s1)));
  }

  lemma {:induction false} FailedMoney(cfg: Config, s: State, index: Side, r: Completion)
    requires s.near.writeOps != [] && r != Success
    ensures var s' := WriteHandler(cfg, FinishWrite(s, r), index, r);
            && s'.ip == s.ip && s'.near.avail == s.near.avail && s'.far.avail == s.far.avail
            && s'.near.ledger == s.near.ledger && s'.far.ledger == s.far.ledger
  {
    hide TryWrite, Resume, Pop;
  }

  /** No balance changes, nor a ledger. */
  ghost predicate SameBalances(s: State, s': State) {
    && s'.ip == s.ip && s'.near.avail == s.near.avail && s'.far.avail == s.far.avail
    && s'.near.ledger == s.near.ledger && s'.far.ledger == s.far.ledger
  }

  ghost predicate SameWrites(s: State, s': State) {
    s'.near.writeOps == s.near.writeOps && s'.far.writeOps == s.far.writeOps
  }

  lemma {:induction false} MoneyMeans(s: State, s': State, i: Side)
    requires SameMoney(View(s, i), s')
    ensures SameBalances(s, View(s', i)) && SameWrites(s, View(s', i))
  {
    if i == 0 {
    } else {
    }
  }

  lemma {:induction false} FailedBalances(cfg: Config, s: State, i: Side, r: Completion)
    requires Enabled(s, WriteDone(i, r)) && r != Success
    ensures SameBalances(s, Step(cfg, s, WriteDone(i, r)))
  {
    FailedMoney(cfg, View(s, i), Other(i), r);
    hide WriteHandler, FinishWrite;
  }

  lemma {:induction false} ReadBalances(cfg: Config, s: State, ev: Event)
    requires Enabled(s, ev) && (ev.ReadDone? || ev.KernelFill?)
    ensures SameBalances(s, Step(cfg, s, ev)) && SameWrites(s, Step(cfg, s, ev))
  {
    hide ReadHandler, FinishRead, Fill, SameMoney, SameBalances, SameWrites;
    var v := View(s, ev.i);
    match ev
    case ReadDone(i, r, data) =>
      ReadMoney(cfg, v, r, data);
      MoneyMeans(s, ReadHandler(cfg, FinishRead(v, r, data), r, |data|), i);
    case KernelFill(i, data) =>
      ReadMoney(cfg, v, Success, data);
      MoneyMeans(s, Fill(v, data), i);
  }

  /** Chunks are started, and balances change, only when a write completes and at effective ticks. */
  lemma {:induction false} ChargesOnlyThen(cfg: Config, s: State, ev: Event)
    requires Enabled(s, ev) && !ev.OthersUseIp? && !(ev.WriteDone? && ev.r == Success) && !(ev.Tick? && s.lastFlush < ev.now)
    ensures SameBalances(s, Step(cfg, s, ev)) && (!ev.WriteDone? ==> SameWrites(s, Step(cfg, s, ev)))
  {
    match ev
    case WriteDone(i, r) => FailedBalances(cfg, s, i, r); hide Step, SameBalances;
    case ReadDone(i, r, data) => ReadBalances(cfg, s, ev); hide Step, SameBalances, SameWrites;
    case KernelFill(i, data) => ReadBalances(cfg, s, ev); hide Step, SameBalances, SameWrites;
    case ConnectDone(r) => ConnectMoney(s.(connecting := false, connected := r == Success), r); hide HandleConnect;
    case _ => hide FlushMsgs;
  }

  // ------------------------------------------------------------------ a debt is paid off

  /** What the bandwidth allows in the ticks of some events, the last tick before which was at time `last`. */
  function Allowance(cfg: Config, last: int, events: seq<Event>): int
    decreases |events|
  {
    if events == [] then 0
    else Allowance(cfg, last, Front(events)) + Allowed(cfg, LastTick(last, Front(events)), Last(events))
  }

  lemma {:induction false} LastTickJoin(start: int, events: seq<Event>, more: seq<Event>)
    ensures LastTick(start, events + more) == LastTick(LastTick(start, events), more)
    decreases |more|
  {
    if more == [] {
      assert events + more == events;
    } else {
      LastTickJoin(start, events, Front(more));
      assert Front(events + more) == events + Front(more) && Last(events + more) == Last(more);
    }
  }

  lemma {:induction false} AllowanceGrows(cfg: Config, last: int, events: seq<Event>)
    requires events != []
    ensures Allowance(cfg, last, Front(events)) <= Allowance(cfg, last, events)
  {
  }

  /** An open state had only open ones before it. */
  lemma {:induction false} OpenBefore(cfg: Config, s: State, ev: Event)
    requires Flags(cfg, s) && Enabled(s, ev) && !Step(cfg, s, ev).closed
    ensures !s.closed
  {
    hide WriteHandler, ReadHandler, FlushMsgs, FinishRead, FinishWrite, Fill, HandleConnect;
    match ev
    case WriteDone(i, r) => WriteLife(cfg, FinishWrite(View(s, i), r), Other(i), r); FinishWriteLife(View(s, i), r);
    case ReadDone(i, r, data) => ReadLife(cfg, View(s, i), r, data);
    case Tick(t) => FlushLife(cfg, s.(clock := t, now := t, lastFlush := t), (t - s.lastFlush) * cfg.bandwidth / 1000, t - cfg.timeout);
    case KernelFill(i, data) => FillLife(View(s, i), data);
    case ConnectDone(r) => ConnectLife(cfg, s, r);
    case _ =>
  }

  /** A direction that is overdrawn and stays so has got what the bandwidth allows, if it was a tick. */
  ghost predicate Repaid(cfg: Config, before: int, last: int, ev: Event, after: int) {
    before + Allowed(cfg, last, ev) < 0 ==> after == before + Allowed(cfg, last, ev)
  }

  lemma {:induction false} FlushedRepaid(cfg: Config, k: Sock, k': Sock, last: int, t: int, limit: int, ip: int, ip': int)
    requires Flushed(cfg, k, k', t - last, t, limit, ip, ip') && last < t && cfg.bandwidth > 0 && k.avail < 0
    ensures Repaid(cfg, k.avail, last, Tick(t), k'.avail)
  {
  }

  lemma {:induction false} ServedRepaid(cfg: Config, k: Sock, k': Sock, q: seq<Msg>, last: int, i: Side, now: int, limit: int, ip: int, ip': int)
    requires Served(cfg, k', q, k.avail, now, limit, ip, ip') && k.avail < 0
    ensures Repaid(cfg, k.avail, last, WriteDone(i, Success), k'.avail)
  {
  }

  lemma {:induction false} SameRepaid(cfg: Config, balance: int, last: int, ev: Event)
    requires !(ev.Tick? && last < ev.now)
    ensures Repaid(cfg, balance, last, ev, balance)
  {
  }

  lemma {:induction false} SameMoneyAt(s: State, s': State, i: Side)
    requires s'.near.avail == s.near.avail && s'.far.avail == s.far.avail
    ensures View(s', i).near.avail == View(s, i).near.avail
  {
  }

  /** One step of a connection that stays open, for a direction that is overdrawn. */
  lemma {:induction false} DebtStep(cfg: Config, start: int, ip: Pair<int>, events: seq<Event>, ev: Event, i: Side)
    requires Run(cfg, Init(cfg, start, ip), events).Some? && Enabled(Run(cfg, Init(cfg, start, ip), events).value, ev)
    requires !Step(cfg, Run(cfg, Init(cfg, start, ip), events).value, ev).closed
    requires View(Run(cfg, Init(cfg, start, ip), events).value, i).near.avail < 0 && cfg.bandwidth > 0
    ensures var s := Run(cfg, Init(cfg, start, ip), events).value;
            Repaid(cfg, View(s, i).near.avail, LastTick(start, events), ev, View(Step(cfg, s, ev), i).near.avail)
  {
    hide Run, Init, Step, Enabled, Flags, Streams, Stamps, Budgets, Life, Told, Repaid, Served, Flushed, View, LastTick;
    var s := Run(cfg, Init(cfg, start, ip), events).value;
    LastFlushIs(cfg, start, ip, events);
    if ev.Tick? && s.lastFlush < ev.now {
      TickExact(cfg, start, ip, events, ev.now, i);
      FlushedRepaid(cfg, View(s, i).near, View(Step(cfg, s, ev), i).near, LastTick(start, events), ev.now, cfg.ipLimit.At(Other(i)),
                    s.ip.At(Other(i)), Step(cfg, s, ev).ip.At(Other(i)));
    } else if ev.WriteDone? && ev.r == Success {
      DebtWrite(cfg, start, ip, events, ev.i, i);
    } else {
      if ev.OthersUseIp? {
        UseIp(cfg, s, ev);
      } else {
        ChargesOnlyThen(cfg, s, ev);
      }
      SameMoneyAt(s, Step(cfg, s, ev), i);
      SameRepaid(cfg, View(s, i).near.avail, LastTick(start, events), ev);
    }
  }

  lemma {:induction false} LastFlushIs(cfg: Config, start: int, ip: Pair<int>, events: seq<Event>)
    requires Run(cfg, Init(cfg, start, ip), events).Some?
    ensures Run(cfg, Init(cfg, start, ip), events).value.lastFlush == LastTick(start, events)
  {
    hide Init, Flags, Streams, Stamps, Budgets, Told;
    var s := Reached(cfg, start, ip, events, 0);
    RunTold(cfg, start, ip, events);
    TickAtLast(cfg, start, events, s);
    hide Run;
  }

  lemma {:induction false} DebtWrite(cfg: Config, start: int, ip: Pair<int>, events: seq<Event>, j: Side, i: Side)
    requires Run(cfg, Init(cfg, start, ip), events).Some? && Enabled(Run(cfg, Init(cfg, start, ip), events).value, WriteDone(j, Success))
    requires !Step(cfg, Run(cfg, Init(cfg, start, ip), events).value, WriteDone(j, Success)).closed
    requires View(Run(cfg, Init(cfg, start, ip), events).value, i).near.avail < 0
    ensures var s := Run(cfg, Init(cfg, start, ip), events).value;
            Repaid(cfg, View(s, i).near.avail, LastTick(start, events), WriteDone(j, Success), View(Step(cfg, s, WriteDone(j, Success)), i).near.avail)
  {
    hide Run, Init, Step, Enabled, Repaid, Served, LastTick;
    var s := Run(cfg, Init(cfg, start, ip), events).value;
    var s' := Step(cfg, s, WriteDone(j, Success));
    if i == j {
      WriteExact(cfg, start, ip, events, j);
      var k := View(s, i).near;
      ServedRepaid(cfg, k, View(s', i).near, k.queue[1..], LastTick(start, events), j, s.now, cfg.ipLimit.At(Other(i)),
                   s.ip.At(Other(i)), s'.ip.At(Other(i)));
    } else {
      OtherBalance(cfg, s, j);
      SameRepaid(cfg, View(s, i).near.avail, LastTick(start, events), WriteDone(j, Success));
    }
  }

  lemma {:induction false} UseIp(cfg: Config, s: State, ev: Event)
    requires ev.OthersUseIp? && Enabled(s, ev)
    ensures Step(cfg, s, ev) == s.(ip := ev.ip)
  {
  }

  /** A completed write leaves the opposite direction's balance. */
  lemma {:induction false} OtherBalance(cfg: Config, s: State, i: Side)
    requires Enabled(s, WriteDone(i, Success))
    ensures View(Step(cfg, s, WriteDone(i, Success)), i).far.avail == View(s, i).far.avail
  {
    WriteStep(cfg, s, i);
    var v := FinishWrite(View(s, i), Success);
    assert v.far == View(s, i).far;
    FarBalance(cfg, v, Other(i));
    hide Step, Enabled, FinishWrite, WriteHandler;
  }

  lemma {:induction false} FarBalance(cfg: Config, s: State, index: Side)
    ensures WriteHandler(cfg, s, index, Success).far.avail == s.far.avail
  {
    TryFar(cfg, s, index);
    if s.near.queue != [] {
      TryFar(cfg, Resume(Pop(s)), index);
      assert Resume(Pop(s)).far.avail == s.far.avail && Pop(s).far.avail == s.far.avail by {
        hide NewBuffer;
      }
    }
    hide TryWrite, Resume, Pop;
  }

  lemma {:induction false} TryFar(cfg: Config, s: State, index: Side)
    ensures TryWrite(cfg, s, index).far.avail == s.far.avail
  {
  }

  lemma {:induction false} Ends(events: seq<Event>, more: seq<Event>)
    requires more != []
    ensures Front(events + more) == events + Front(more) && Last(events + more) == Last(more) && events + more != []
  {
  }

  lemma {:induction false} Prefix(cfg: Config, s0: State, events: seq<Event>, more: seq<Event>)
    requires more != [] && Run(cfg, s0, events + more).Some?
    ensures Front(events + more) == events + Front(more) && Last(events + more) == Last(more)
    ensures Run(cfg, s0, events + Front(more)).Some? && Enabled(Run(cfg, s0, events + Front(more)).value, Last(more))
    ensures Run(cfg, s0, events + more).value == Step(cfg, Run(cfg, s0, events + Front(more)).value, Last(more))
  {
    hide Step, Enabled;
    Ends(events, more);
  }

  /**
   A debt is paid off by the ticks and by nothing else, and exactly. From a state in which a direction is overdrawn, and as
   long as what the bandwidth allows in the ticks since then is less than the debt, the balance is the old one plus that.
   */
  lemma {:induction false} DebtShrinks(cfg: Config, start: int, ip: Pair<int>, events: seq<Event>, more: seq<Event>, i: Side)
    requires Run(cfg, Init(cfg, start, ip), events).Some? && Run(cfg, Init(cfg, start, ip), events + more).Some?
    requires cfg.bandwidth > 0 && !Run(cfg, Init(cfg, start, ip), events + more).value.closed
    requires View(Run(cfg, Init(cfg, start, ip), events).value, i).near.avail + Allowance(cfg, LastTick(start, events), more) < 0
    ensures View(Run(cfg, Init(cfg, start, ip), events + more).value, i).near.avail
            == View(Run(cfg, Init(cfg, start, ip), events).value, i).near.avail + Allowance(cfg, LastTick(start, events), more)
    decreases |more|
  {
    var s0 := Init(cfg, start, ip);
    if more == [] {
      assert events + more == events;
    } else {
      Prefix(cfg, s0, events, more);
      var s := Reached(cfg, start, ip, events + Front(more), 0);
      AllowanceGrows(cfg, LastTick(start, events), more);
      LastTickJoin(start, events, Front(more));
      hide Init, Run, Step, Enabled, Flags, Streams, Stamps, Budgets, Life;
      OpenBefore(cfg, s, Last(more));
      DebtShrinks(cfg, start, ip, events, Front(more), i);
      DebtStep(cfg, start, ip, events + Front(more), Last(more), i);
    }
  }

  /** A direction whose balance has become b at a tick: an idle socket is served with it. */
  ghost predicate PaidOff(cfg: Config, k: Sock, k': Sock, b: int, now: int, limit: int, ip: int, ip': int) {
    if k.writing then k'.avail == b else Served(cfg, k', k.queue, b, now, limit, ip, ip')
  }

  /**
   The tick at which the debt is paid off finds the balance that is left over, and an idle socket's head is started then
   exactly if it is due and the client's own budget allows it.
   */
  lemma {:induction false} DebtPaid(cfg: Config, start: int, ip: Pair<int>, events: seq<Event>, more: seq<Event>, t: int, i: Side)
    requires Run(cfg, Init(cfg, start, ip), events).Some? && Run(cfg, Init(cfg, start, ip), events + (more + [Tick(t)])).Some?
    requires cfg.bandwidth > 0 && !Run(cfg, Init(cfg, start, ip), events + (more + [Tick(t)])).value.closed
    requires var b := View(Run(cfg, Init(cfg, start, ip), events).value, i).near.avail;
             && b + Allowance(cfg, LastTick(start, events), more) < 0
             && b + Allowance(cfg, LastTick(start, events), more + [Tick(t)]) >= 0
    ensures Run(cfg, Init(cfg, start, ip), events + more).Some?
    ensures var b := View(Run(cfg, Init(cfg, start, ip), events).value, i).near.avail + Allowance(cfg, LastTick(start, events), more + [Tick(t)]);
            var s := Run(cfg, Init(cfg, start, ip), events + more).value;
            var s' := Run(cfg, Init(cfg, start, ip), events + (more + [Tick(t)])).value;
            PaidOff(cfg, View(s, i).near, View(s', i).near, b, t, cfg.ipLimit.At(Other(i)), s.ip.At(Other(i)), s'.ip.At(Other(i)))
  {
    hide Init, Run, Step, Enabled, Served, Flushed, PaidOff, LastTick, View, Allowance, Allowed;
    var s0, all := Init(cfg, start, ip), more + [Tick(t)];
    Ends([], all);
    assert Front(all) == more;
    Prefix(cfg, s0, events, all);
    LastTickJoin(start, events, more);
    AllowanceLast(cfg, LastTick(start, events), more, Tick(t));
    OpenUntil(cfg, start, ip, events + more, Tick(t));
    DebtShrinks(cfg, start, ip, events, more, i);
    PaidAt(cfg, start, ip, events + more, t, i);
  }

  lemma {:induction false} AllowanceLast(cfg: Config, last: int, more: seq<Event>, ev: Event)
    ensures Allowance(cfg, last, more + [ev]) == Allowance(cfg, last, more) + Allowed(cfg, LastTick(last, more), ev)
  {
    assert Front(more + [ev]) == more;
  }

  lemma {:induction false} OpenUntil(cfg: Config, start: int, ip: Pair<int>, events: seq<Event>, ev: Event)
    requires Run(cfg, Init(cfg, start, ip), events).Some? && Enabled(Run(cfg, Init(cfg, start, ip), events).value, ev)
    requires !Step(cfg, Run(cfg, Init(cfg, start, ip), events).value, ev).closed
    ensures !Run(cfg, Init(cfg, start, ip), events).value.closed
  {
    hide Init, Step, Enabled, Flags, Streams, Stamps, Budgets, Life;
    var s := Reached(cfg, start, ip, events, 0);
    hide Run;
    OpenBefore(cfg, s, ev);
  }

  lemma {:induction false} PaidAt(cfg: Config, start: int, ip: Pair<int>, events: seq<Event>, t: int, i: Side)
    requires Run(cfg, Init(cfg, start, ip), events).Some? && Enabled(Run(cfg, Init(cfg, start, ip), events).value, Tick(t))
    requires !Step(cfg, Run(cfg, Init(cfg, start, ip), events).value, Tick(t)).closed && cfg.bandwidth > 0
    requires var b := View(Run(cfg, Init(cfg, start, ip), events).value, i).near.avail;
             b < 0 <= b + Allowed(cfg, LastTick(start, events), Tick(t))
    ensures var s := Run(cfg, Init(cfg, start, ip), events).value;
            var s' := Step(cfg, s, Tick(t));
            PaidOff(cfg, View(s, i).near, View(s', i).near, View(s, i).near.avail + Allowed(cfg, LastTick(start, events), Tick(t)), t,
                    cfg.ipLimit.At(Other(i)), s.ip.At(Other(i)), s'.ip.At(Other(i)))
  {
    hide Init, Run, Step, Enabled, Served, Flushed, PaidOff, LastTick, View;
    var s := Run(cfg, Init(cfg, start, ip), events).value;
    var s' := Step(cfg, s, Tick(t));
    TickExact(cfg, start, ip, events, t, i);
    FlushedPaid(cfg, View(s, i).near, View(s', i).near, LastTick(start, events), t, cfg.ipLimit.At(Other(i)), s.ip.At(Other(i)), s'.ip.At(Other(i)));
  }

  lemma {:induction false} FlushedPaid(cfg: Config, k: Sock, k': Sock, last: int, t: int, limit: int, ip: int, ip': int)
    requires Flushed(cfg, k, k', t - last, t, limit, ip, ip') && last < t && cfg.bandwidth > 0 && k.avail < 0
    ensures PaidOff(cfg, k, k', k.avail + Allowed(cfg, last, Tick(t)), t, limit, ip, ip')
  {
    hide Served;
  }
}
