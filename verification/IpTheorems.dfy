/** What holds of the budgets per client address over whole runs. */
module IpTheorems {
  import opened Base
  import opened TokenBucket
  import opened IpBuckets

  // ------------------------------------------------------------------ references

  function Holding(s: State, a: Addr): set<HolderId> {
    set h | h in s.holders && s.holders[h].addr == a
  }

  /** The count of a budget is the number of its holders, whose pointers all point to it. */
  ghost predicate Counted(s: State) {
    && (forall a <- s.addrs :: s.addrs[a].refCnt == |Holding(s, a)|)
    && (forall h <- s.holders :: Live(s, s.holders[h]))
    && !s.dangling
  }

  /** Every budget has a past, and the routine thread visits budgets once; those it will erase have no holders. */
  ghost predicate Passes(s: State) {
    && (forall a <- s.addrs :: a in s.history && s.history[a].lives == s.addrs[a].life > 0)
    && (s.phase.Computed? ==> s.phase.interval > 0)
    && (s.phase.Ticking? ==>
          && s.phase.interval > 0
          && (forall i, j | 0 <= i < j < |s.phase.todo| :: s.phase.todo[i] != s.phase.todo[j])
          && (forall i | 0 <= i < |s.phase.todo| :: s.phase.todo[i] in s.addrs)
          && (forall i | 0 <= i < |s.phase.doomed| ::
                s.phase.doomed[i] in s.addrs && s.addrs[s.phase.doomed[i]].refCnt == 0 && s.phase.doomed[i] !in s.phase.todo))
  }

  lemma {:induction false} StepPasses(cfg: Config, s: State, ev: Event)
    requires Counted(s) && Passes(s) && Enabled(cfg, s, ev)
    ensures Passes(Step(cfg, s, ev))
  {
    if ev.GiveBack? {
      var a := s.holders[ev.h].addr;
      assert ev.h in Holding(s, a);
    }
  }

  lemma {:induction false} HoldingTaken(s: State, h: HolderId, x: Addr, a: Addr)
    requires h !in s.holders
    ensures Holding(Taken(s, h, x), a) == if a == x then Holding(s, a) + {h} else Holding(s, a)
    ensures h !in Holding(s, a)
  {
  }

  lemma {:induction false} TakeCounted(s: State, h: HolderId, x: Addr)
    requires Counted(s) && h !in s.holders
    ensures Counted(Taken(s, h, x))
  {
    var s' := Taken(s, h, x);
    assert x !in s.addrs ==> Holding(s, x) == {};
    hide Holding;
    forall a <- s'.addrs ensures s'.addrs[a].refCnt == |Holding(s', a)| {
      HoldingTaken(s, h, x, a);
    }
  }

  lemma {:induction false} GiveBackCounted(s: State, h: HolderId)
    requires Counted(s) && h in s.holders
    ensures Counted(GivenBack(s, h)) && Holding(s, s.holders[h].addr) != {}
  {
    var s', x := GivenBack(s, h), s.holders[h].addr;
    assert h in Holding(s, x);
    forall a <- s'.addrs ensures Holding(s', a) == if a == x then Holding(s, a) - {h} else Holding(s, a) {
    }
    hide Holding;
  }

  /** A budget without holders may go; nothing else about holders, counts and lives changes. */
  lemma {:induction false} KeptCounted(s: State, s': State)
    requires Counted(s) && s'.holders == s.holders && s'.dangling == s.dangling
    requires forall a <- s'.addrs :: a in s.addrs && s'.addrs[a].refCnt == s.addrs[a].refCnt && s'.addrs[a].life == s.addrs[a].life
    requires forall a <- s.addrs | a !in s'.addrs :: s.addrs[a].refCnt == 0
    ensures Counted(s')
  {
    forall a <- s'.addrs ensures Holding(s', a) == Holding(s, a) {
    }
    forall h <- s'.holders ensures Live(s', s'.holders[h]) {
      assert h in Holding(s, s.holders[h].addr);
    }
  }

  lemma {:induction false} StepCounted(cfg: Config, s: State, ev: Event)
    requires Counted(s) && Passes(s) && Enabled(cfg, s, ev)
    ensures Counted(Step(cfg, s, ev))
  {
    match ev
    case Take(h, a) => TakeCounted(s, h, a);
    case GiveBack(h) => GiveBackCounted(s, h);
    case Charge(h, _, _) =>
      assert Live(s, s.holders[h]);
      KeptCounted(s, Step(cfg, s, ev));
    case Compute(_) => KeptCounted(s, Step(cfg, s, ev));
    case LockMap(_) => KeptCounted(s, Step(cfg, s, ev));
    case TickOne => KeptCounted(s, Step(cfg, s, ev));
    case EraseAll => KeptCounted(s, Step(cfg, s, ev));
    hide Counted;
  }

  // ------------------------------------------------------------------ money

  /** The time up to which the budget of an address has been refilled. */
  function RefilledUpTo(s: State, a: Addr): int {
    if s.phase.Computed? || (s.phase.Ticking? && a in s.phase.todo) then s.lastFlush - s.phase.interval else s.lastFlush
  }

  /** The debt that earlier lives left behind is at most one largest charge each. */
  ghost predicate MoneyAt(cfg: Config, s: State, a: Addr, i: Side)
    requires a in s.history
  {
    var past := s.history[a];
    && past.origin <= RefilledUpTo(s, a)
    && (if cfg.At(i) > 0 then
          && 0 <= past.refilled.At(i) <= Quota(cfg.At(i), RefilledUpTo(s, a) - past.origin)
          && past.charged.At(i) - past.refilled.At(i)
             <= (if a in s.addrs then LARGEST_CHARGE * (past.lives - 1) - s.addrs[a].avail.At(i) else LARGEST_CHARGE * past.lives)
        else past.charged.At(i) == 0 && past.refilled.At(i) == 0)
    && (a in s.addrs ==> 0 <= s.addrs[a].avail.At(i) + LARGEST_CHARGE && (cfg.At(i) <= 0 ==> s.addrs[a].avail.At(i) == 0))
  }

  ghost predicate Money(cfg: Config, s: State) {
    forall a <- s.history :: MoneyAt(cfg, s, a, 0) && MoneyAt(cfg, s, a, 1)
  }

  /** Time passes for a budget, or it is erased with its debt. */
  lemma {:induction false} MoneyKept(cfg: Config, s: State, s': State, a: Addr, i: Side)
    requires a in s.history && MoneyAt(cfg, s, a, i)
    requires a in s'.history && s'.history[a] == s.history[a] && RefilledUpTo(s, a) <= RefilledUpTo(s', a)
    requires a in s'.addrs ==> a in s.addrs && s'.addrs[a].avail == s.addrs[a].avail
    ensures MoneyAt(cfg, s', a, i)
  {
    if cfg.At(i) > 0 {
      QuotaMonotone(cfg.At(i), RefilledUpTo(s, a) - s.history[a].origin, RefilledUpTo(s', a) - s.history[a].origin);
    }
    hide Quota, RefilledUpTo;
  }

  lemma {:induction false} TakeMoney(cfg: Config, s: State, h: HolderId, x: Addr, a: Addr, i: Side)
    requires Passes(s) && a in Taken(s, h, x).history && !s.phase.Ticking? && (a in s.history ==> MoneyAt(cfg, s, a, i))
    ensures MoneyAt(cfg, Taken(s, h, x), a, i)
  {
    var s' := Taken(s, h, x);
    assert RefilledUpTo(s', a) == RefilledUpTo(s, a) == LastPass(s);
    if a != x || x in s.addrs {
      MoneyKept(cfg, s, s', a, i);
    }
    hide RefilledUpTo, LastPass;
  }

  lemma {:induction false} ChargeMoney(cfg: Config, s: State, h: HolderId, j: Side, amount: int, a: Addr, i: Side)
    requires h in s.holders && 0 < amount <= LARGEST_CHARGE
    requires a in s.history && MoneyAt(cfg, s, a, i)
    ensures MoneyAt(cfg, ChargedBy(cfg, s, h, j, amount), a, i)
  {
    assert RefilledUpTo(ChargedBy(cfg, s, h, j, amount), a) == RefilledUpTo(s, a);
    hide RefilledUpTo, Quota;
    if i == j {
    } else {
    }
  }

  lemma {:induction false} TickMoney(cfg: Config, s: State, a: Addr, i: Side)
    requires Passes(s) && s.phase.Ticking? && s.phase.todo != []
    requires a in s.history && MoneyAt(cfg, s, a, i)
    ensures MoneyAt(cfg, Ticked(cfg, s), a, i)
  {
    var s', interval := Ticked(cfg, s), s.phase.interval;
    var x := s.phase.todo[0];
    assert a != x ==> (a in s.phase.todo <==> a in s.phase.todo[1..]);
    assert x !in s.phase.todo[1..];
    if a != x || s.addrs[a].refCnt <= 0 {
      MoneyKept(cfg, s, s', a, i);
    } else {
      assert RefilledUpTo(s', a) == RefilledUpTo(s, a) + interval;
      if cfg.At(i) > 0 {
        assert Bytes(cfg, interval, i) == Quota(cfg.At(i), interval);
        QuotaAdds(cfg.At(i), RefilledUpTo(s, a) - s.history[a].origin, interval);
        assert Quota(cfg.At(i), RefilledUpTo(s', a) - s.history[a].origin)
               >= Quota(cfg.At(i), RefilledUpTo(s, a) - s.history[a].origin) + Bytes(cfg, interval, i);
      }
      RefillMoney(cfg, s, a, i);
    }
  }

  lemma {:induction false} RefillMoney(cfg: Config, s: State, a: Addr, i: Side)
    requires Passes(s) && s.phase.Ticking? && s.phase.todo != [] && a == s.phase.todo[0] && s.addrs[a].refCnt > 0
    requires a in s.history && MoneyAt(cfg, s, a, i)
    requires var s' := Ticked(cfg, s);
             && RefilledUpTo(s, a) <= RefilledUpTo(s', a)
             && (cfg.At(i) > 0 ==>
                   && 0 <= Bytes(cfg, s.phase.interval, i)
                   && Quota(cfg.At(i), RefilledUpTo(s, a) - s.history[a].origin) + Bytes(cfg, s.phase.interval, i)
                      <= Quota(cfg.At(i), RefilledUpTo(s', a) - s.history[a].origin))
    ensures MoneyAt(cfg, Ticked(cfg, s), a, i)
  {
    hide RefilledUpTo, Quota, Bytes;
    if i == 0 {
    } else {
    }
  }

  lemma {:induction false} AddrMoney(cfg: Config, s: State, ev: Event, a: Addr, i: Side)
    requires Passes(s) && Enabled(cfg, s, ev) && a in Step(cfg, s, ev).history
    requires a in s.history ==> MoneyAt(cfg, s, a, i)
    ensures MoneyAt(cfg, Step(cfg, s, ev), a, i)
  {
    match ev
    case Take(h, x) => TakeMoney(cfg, s, h, x, a, i);
    case Charge(h, j, amount) => ChargeMoney(cfg, s, h, j, amount, a, i);
    case TickOne => TickMoney(cfg, s, a, i);
    case GiveBack(_) => MoneyKept(cfg, s, Step(cfg, s, ev), a, i);
    case Compute(_) => MoneyKept(cfg, s, Step(cfg, s, ev), a, i);
    case LockMap(_) => MoneyKept(cfg, s, Step(cfg, s, ev), a, i);
    case EraseAll => MoneyKept(cfg, s, Step(cfg, s, ev), a, i);
    hide MoneyAt;
  }

  lemma {:induction false} StepMoney(cfg: Config, s: State, ev: Event)
    requires Passes(s) && Money(cfg, s) && Enabled(cfg, s, ev)
    ensures Money(cfg, Step(cfg, s, ev))
  {
    var s' := Step(cfg, s, ev);
    forall a <- s'.history ensures MoneyAt(cfg, s', a, 0) && MoneyAt(cfg, s', a, 1) {
      AddrMoney(cfg, s, ev, a, 0);
      AddrMoney(cfg, s, ev, a, 1);
    }
    hide Step, Enabled, Passes, MoneyAt;
  }

  // ------------------------------------------------------------------ over runs

  ghost predicate Inv(cfg: Config, s: State) {
    Counted(s) && Passes(s) && Money(cfg, s)
  }

  lemma {:induction false} RunInv(cfg: Config, now: int, events: seq<Event>)
    requires Run(cfg, Init(now), events).Some?
    ensures Inv(cfg, Run(cfg, Init(now), events).value)
    decreases |events|
  {
    if events == [] {
      assert forall a: Addr :: Holding(Init(now), a) == {};
    } else {
      RunInv(cfg, now, Front(events));
      var s := Run(cfg, Init(now), Front(events)).value;
      hide Step, Enabled, Counted, Passes, Money;
      StepCounted(cfg, s, Last(events));
      StepPasses(cfg, s, Last(events));
      StepMoney(cfg, s, Last(events));
    }
  }

  /** A budget is counted exactly, every holder's pointer is to a budget of the map, and none to an erased one is followed. */
  lemma {:induction false} ReferenceSafety(cfg: Config, now: int, events: seq<Event>)
    requires Run(cfg, Init(now), events).Some?
    ensures var s := Run(cfg, Init(now), events).value;
            && (forall a <- s.addrs :: s.addrs[a].refCnt == |Holding(s, a)|)
            && (forall h <- s.holders :: Live(s, s.holders[h]))
            && !s.dangling
  {
    RunInv(cfg, now, events);
    hide Run, Init, Passes, Money;
  }

  /** A budget that is erased has no holders at that moment. */
  lemma {:induction false} ErasedUnheld(cfg: Config, now: int, events: seq<Event>, ev: Event, a: Addr)
    requires Run(cfg, Init(now), events).Some? && Enabled(cfg, Run(cfg, Init(now), events).value, ev)
    requires var s := Run(cfg, Init(now), events).value; a in s.addrs && a !in Step(cfg, s, ev).addrs
    ensures var s := Run(cfg, Init(now), events).value; Holding(s, a) == {} && Holding(Step(cfg, s, ev), a) == {}
  {
    RunInv(cfg, now, events);
    hide Run, Init, Money;
    var s := Run(cfg, Init(now), events).value;
    assert s.addrs[a].refCnt == 0;
    assert |Holding(s, a)| == 0;
    assert Holding(Step(cfg, s, ev), a) == Holding(s, a);
  }

  /** No balance falls below minus one largest charge. */
  lemma {:induction false} BalanceBound(cfg: Config, now: int, events: seq<Event>, a: Addr, i: Side)
    requires Run(cfg, Init(now), events).Some? && a in Run(cfg, Init(now), events).value.addrs
    ensures -LARGEST_CHARGE <= Run(cfg, Init(now), events).value.addrs[a].avail.At(i)
  {
    RunInv(cfg, now, events);
    hide Run, Init, Counted;
    var s := Run(cfg, Init(now), events).value;
    assert a in s.history;
    assert MoneyAt(cfg, s, a, 0) && MoneyAt(cfg, s, a, 1);
  }

  /**
   The bound on what all connections and endpoints of one address are charged together, over all the lives of its
   budget: the quota of the time since the last pass before the first of them, and one largest charge for every life.
   */
  lemma {:induction false} SharedRateBound(cfg: Config, now: int, events: seq<Event>, a: Addr, i: Side)
    requires Run(cfg, Init(now), events).Some? && a in Run(cfg, Init(now), events).value.history
    ensures var s := Run(cfg, Init(now), events).value;
            var past := s.history[a];
            && past.origin <= s.lastFlush
            && past.charged.At(i) <= (if cfg.At(i) > 0 then Quota(cfg.At(i), s.lastFlush - past.origin) + LARGEST_CHARGE * past.lives else 0)
  {
    RunInv(cfg, now, events);
    hide Run, Init, Counted, Passes, MoneyAt, Quota;
    var s := Run(cfg, Init(now), events).value;
    if i == 0 {
      MoneyBounds(cfg, s, a, 0);
    } else {
      MoneyBounds(cfg, s, a, 1);
    }
  }

  lemma {:induction false} MoneyBounds(cfg: Config, s: State, a: Addr, i: Side)
    requires Passes(s) && a in s.history && MoneyAt(cfg, s, a, i)
    ensures var past := s.history[a];
            && past.origin <= s.lastFlush
            && past.charged.At(i) <= (if cfg.At(i) > 0 then Quota(cfg.At(i), s.lastFlush - past.origin) + LARGEST_CHARGE * past.lives else 0)
  {
    assert RefilledUpTo(s, a) <= s.lastFlush;
    if cfg.At(i) > 0 {
      QuotaMonotone(cfg.At(i), RefilledUpTo(s, a) - s.history[a].origin, s.lastFlush - s.history[a].origin);
    }
    hide Quota, RefilledUpTo;
  }

  /** The amounts of the charges that found a limit and a balance that was not negative, for one address and direction. */
  function ChargedIn(cfg: Config, now: int, events: seq<Event>, a: Addr, i: Side): nat
    requires Run(cfg, Init(now), events).Some?
    decreases |events|
  {
    if events == [] then 0
    else
      var s, ev := Run(cfg, Init(now), Front(events)).value, Last(events);
      ChargedIn(cfg, now, Front(events), a, i)
      + if ev.Charge? && ev.i == i && s.holders[ev.h].addr == a && cfg.At(i) > 0 && a in s.addrs && s.addrs[a].avail.At(i) >= 0
        then ev.amount else 0
  }

  /** What the bound above is about: exactly the charges that its holders were allowed to make. */
  lemma {:induction false} ChargesCounted(cfg: Config, now: int, events: seq<Event>, a: Addr, i: Side)
    requires Run(cfg, Init(now), events).Some?
    ensures var s := Run(cfg, Init(now), events).value;
            ChargedIn(cfg, now, events, a, i) == if a in s.history then s.history[a].charged.At(i) else 0
    decreases |events|
  {
    if events != [] {
      ChargesCounted(cfg, now, Front(events), a, i);
      RunInv(cfg, now, Front(events));
      var s := Run(cfg, Init(now), Front(events)).value;
      hide Run, Init, Money;
      if i == 0 {
        StepCharged(cfg, s, Last(events), a, 0);
      } else {
        StepCharged(cfg, s, Last(events), a, 1);
      }
    }
  }

  lemma {:induction false} StepCharged(cfg: Config, s: State, ev: Event, a: Addr, i: Side)
    requires Counted(s) && Passes(s) && Enabled(cfg, s, ev)
    ensures var before := if a in s.history then s.history[a].charged.At(i) else 0;
            var s' := Step(cfg, s, ev);
            (if a in s'.history then s'.history[a].charged.At(i) else 0)
            == before + if ev.Charge? && ev.i == i && s.holders[ev.h].addr == a && cfg.At(i) > 0 && a in s.addrs && s.addrs[a].avail.At(i) >= 0
                        then ev.amount else 0
  {
    if i == 0 {
    } else {
    }
  }

  // ------------------------------------------------------------------ forgiven debt

  /** One more step at the end of a run. */
  lemma {:induction false} Chain(cfg: Config, s0: State, before: seq<Event>, s: State, ev: Event) returns (s': State)
    requires Run(cfg, s0, before) == Some(s) && Enabled(cfg, s, ev)
    ensures Run(cfg, s0, before + [ev]) == Some(s') && s' == Step(cfg, s, ev)
  {
    assert Front(before + [ev]) == before;
    s' := Step(cfg, s, ev);
  }

  /**
   The term for the lives cannot be left out: when the last holder goes, the next pass erases the budget with its debt,
   and within one millisecond the same address can be charged another largest charge.
   */
  lemma {:induction false} DebtForgiven(bandwidth: nat, now: int, a: Addr) returns (events: seq<Event>)
    requires bandwidth > 0
    ensures Run(Pair(bandwidth, 0), Init(now), events).Some?
    ensures var s := Run(Pair(bandwidth, 0), Init(now), events).value;
            a in s.history && s.history[a].charged.At(0) == 2 * LARGEST_CHARGE && s.lastFlush == s.history[a].origin + 1
  {
    var cfg := Pair(bandwidth, 0);
    var s0 := Init(now);
    hide Step, Enabled;
    FirstLife(cfg, s0, a);
    var s1 := Chain(cfg, s0, [], s0, Take(0, a));
    var s2 := Chain(cfg, s0, [] + [Take(0, a)], s1, Charge(0, 0, LARGEST_CHARGE));
    var before := [] + [Take(0, a)] + [Charge(0, 0, LARGEST_CHARGE)];
    var s3 := Chain(cfg, s0, before, s2, GiveBack(0));
    ForgettingPass(cfg, s3, a);
    before := before + [GiveBack(0)];
    var s4 := Chain(cfg, s0, before, s3, Compute(now + 1));
    var s5 := Chain(cfg, s0, before + [Compute(now + 1)], s4, LockMap([a]));
    before := before + [Compute(now + 1)] + [LockMap([a])];
    var s6 := Chain(cfg, s0, before, s5, TickOne);
    var s7 := Chain(cfg, s0, before + [TickOne], s6, EraseAll);
    before := before + [TickOne] + [EraseAll];
    SecondLife(cfg, s7, a);
    var s8 := Chain(cfg, s0, before, s7, Take(0, a));
    var s9 := Chain(cfg, s0, before + [Take(0, a)], s8, Charge(0, 0, LARGEST_CHARGE));
    events := before + [Take(0, a)] + [Charge(0, 0, LARGEST_CHARGE)];
  }

  predicate Unused(s: State, a: Addr, charged: nat, origin: int) {
    && s.addrs == map[] && s.holders == map[] && s.phase == Idle
    && (a in s.history <==> charged > 0)
    && (a in s.history ==> s.history[a].charged == Pair(charged, 0) && s.history[a].origin == origin)
  }

  lemma {:induction false} FirstLife(cfg: Config, s: State, a: Addr)
    requires Unused(s, a, 0, 0) && cfg.At(0) > 0
    ensures Enabled(cfg, s, Take(0, a))
    ensures var s1 := Step(cfg, s, Take(0, a));
            && Enabled(cfg, s1, Charge(0, 0, LARGEST_CHARGE))
            && var s2 := Step(cfg, s1, Charge(0, 0, LARGEST_CHARGE));
               && Enabled(cfg, s2, GiveBack(0))
               && var s3 := Step(cfg, s2, GiveBack(0));
                  && s3.addrs == map[a := Bucket(Pair(-LARGEST_CHARGE, 0), 0, 1)] && s3.holders == map[]
                  && s3.history.Keys == s.history.Keys + {a} && s3.history[a].charged == Pair(LARGEST_CHARGE, 0)
                  && s3.history[a].origin == s.lastFlush == s3.lastFlush && s3.phase == Idle
  {
  }

  lemma {:induction false} ForgettingPass(cfg: Config, s: State, a: Addr)
    requires cfg.At(0) > 0 && s.addrs.Keys == {a} && s.addrs[a].refCnt == 0 && s.holders == map[] && s.phase == Idle
    requires a in s.history && s.history[a].charged == Pair(LARGEST_CHARGE, 0) && s.history[a].origin == s.lastFlush
    ensures Enabled(cfg, s, Compute(s.lastFlush + 1))
    ensures var s1 := Step(cfg, s, Compute(s.lastFlush + 1));
            && Enabled(cfg, s1, LockMap([a]))
            && var s2 := Step(cfg, s1, LockMap([a]));
               && Enabled(cfg, s2, TickOne)
               && var s3 := Step(cfg, s2, TickOne);
                  && Enabled(cfg, s3, EraseAll)
                  && var s4 := Step(cfg, s3, EraseAll);
                     Unused(s4, a, LARGEST_CHARGE, s.lastFlush) && s4.lastFlush == s.lastFlush + 1
  {
  }

  lemma {:induction false} SecondLife(cfg: Config, s: State, a: Addr)
    requires Unused(s, a, LARGEST_CHARGE, s.lastFlush - 1) && cfg.At(0) > 0
    ensures Enabled(cfg, s, Take(0, a))
    ensures var s1 := Step(cfg, s, Take(0, a));
            && Enabled(cfg, s1, Charge(0, 0, LARGEST_CHARGE))
            && var s2 := Step(cfg, s1, Charge(0, 0, LARGEST_CHARGE));
               && a in s2.history && s2.history[a].charged.At(0) == 2 * LARGEST_CHARGE
               && s2.history[a].origin + 1 == s.lastFlush == s2.lastFlush
  {
  }
}
