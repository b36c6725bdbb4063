/** What the balances of the shared budgets are exactly: what the passes owed them less what was charged. */
module IpBalances {
  import opened Base
  import opened IpBuckets
  import IpTheorems

  // ------------------------------------------------------------------ what a run says about passes

  /** The times of the passes of a run, the start of the program first. */
  function PassTimes(now: int, events: seq<Event>): (times: seq<int>)
    ensures times != []
    decreases |events|
  {
    if events == [] then [now]
    else
      var before := PassTimes(now, Front(events));
      if Last(events).Compute? && Last(events).t > Last(before) then before + [Last(events).t] else before
  }

  /** The time between the last two passes. */
  function Between(now: int, events: seq<Event>): int {
    var times := PassTimes(now, events);
    if |times| >= 2 then times[|times| - 1] - times[|times| - 2] else 0
  }

  predicate Held(s: State, a: Addr) {
    exists h :: h in s.holders && s.holders[h].addr == a
  }

  /** The routine thread's next visit is to a. */
  predicate Next(s: State, a: Addr) {
    s.phase.Ticking? && s.phase.todo != [] && s.phase.todo[0] == a
  }

  /** What the passes have owed to the present budget of a since it was made: only one that is overdrawn is owed anything. */
  function Owed(cfg: Config, now: int, events: seq<Event>, a: Addr, i: Side): int
    requires Run(cfg, Init(now), events).Some?
    decreases |events|
  {
    if events == [] then 0
    else
      var s, ev, before := Run(cfg, Init(now), Front(events)).value, Last(events), Owed(cfg, now, Front(events), a, i);
      if ev.Take? && ev.a == a && a !in s.addrs then 0
      else if ev.TickOne? && Next(s, a) && Held(s, a) && a in s.addrs && s.addrs[a].avail.At(i) < 0 then
        before + Between(now, Front(events)) * cfg.At(i) / 1000
      else before
  }

  /** What was charged to the present budget of a since it was made: nothing while it is overdrawn or without a limit. */
  function Spent(cfg: Config, now: int, events: seq<Event>, a: Addr, i: Side): int
    requires Run(cfg, Init(now), events).Some?
    decreases |events|
  {
    if events == [] then 0
    else
      var s, ev, before := Run(cfg, Init(now), Front(events)).value, Last(events), Spent(cfg, now, Front(events), a, i);
      if ev.Take? && ev.a == a && a !in s.addrs then 0
      else if ev.Charge? && ev.i == i && s.holders[ev.h].addr == a && cfg.At(i) > 0 && a in s.addrs && s.addrs[a].avail.At(i) >= 0 then
        before + ev.amount
      else before
  }

  // ------------------------------------------------------------------ passes

  /** The clock and the interval of the machine are those of the run's passes. */
  ghost predicate InTime(now: int, events: seq<Event>, s: State) {
    && s.lastFlush == Last(PassTimes(now, events))
    && (s.phase.Computed? || s.phase.Ticking? ==> |PassTimes(now, events)| >= 2 && s.phase.interval == Between(now, events))
  }

  lemma {:induction false} RunInTime(cfg: Config, now: int, events: seq<Event>)
    requires Run(cfg, Init(now), events).Some?
    ensures InTime(now, events, Run(cfg, Init(now), events).value)
    decreases |events|
  {
    if events != [] {
      RunInTime(cfg, now, Front(events));
      hide Taken, GivenBack, ChargedBy, Ticked, Erased, Run;
      StepInTime(cfg, now, events, Run(cfg, Init(now), Front(events)).value);
    }
  }

  lemma {:induction false} StepInTime(cfg: Config, now: int, events: seq<Event>, s: State)
    requires events != [] && InTime(now, Front(events), s) && Enabled(cfg, s, Last(events))
    ensures InTime(now, events, Step(cfg, s, Last(events)))
  {
  }

  // ------------------------------------------------------------------ one visit

  /**
   A visit of the routine thread. A budget that somebody holds gets, in each direction that is overdrawn, exactly the limit
   times the time between the last two passes; one that nobody holds is marked to be erased. Nothing else changes.
   */
  lemma {:induction false} VisitExact(cfg: Config, now: int, events: seq<Event>, a: Addr)
    requires Run(cfg, Init(now), events).Some? && Next(Run(cfg, Init(now), events).value, a)
    ensures var s := Run(cfg, Init(now), events).value;
            var s' := Step(cfg, s, TickOne);
            && a in s.addrs && s'.addrs.Keys == s.addrs.Keys
            && (forall x <- s.addrs | x != a :: s'.addrs[x] == s.addrs[x])
            && (forall i: Side :: s'.addrs[a].avail.At(i)
                  == var b := s.addrs[a].avail.At(i);
                     if Held(s, a) && b < 0 then b + Between(now, events) * cfg.At(i) / 1000 else b)
            && s'.phase.Ticking? && s'.phase.todo == s.phase.todo[1..]
            && s'.phase.doomed == (if Held(s, a) then s.phase.doomed else s.phase.doomed + [a])
  {
    var s := Run(cfg, Init(now), events).value;
    IpTheorems.RunInv(cfg, now, events);
    RunInTime(cfg, now, events);
    HeldIff(s, a);
    hide Run, IpTheorems.Money, IpTheorems.Counted, Held;
  }

  lemma {:induction false} HeldIff(s: State, a: Addr)
    requires IpTheorems.Counted(s) && a in s.addrs
    ensures s.addrs[a].refCnt > 0 <==> Held(s, a)
  {
    if Held(s, a) {
      var h :| h in s.holders && s.holders[h].addr == a;
      assert h in IpTheorems.Holding(s, a);
    } else {
      assert IpTheorems.Holding(s, a) == {};
    }
  }

  /** The pass ends: exactly the budgets that nobody held when they were visited go, and the others are as they were. */
  lemma {:induction false} EraseExact(cfg: Config, s: State)
    requires Enabled(cfg, s, EraseAll)
    ensures var s' := Step(cfg, s, EraseAll);
            && (forall a :: a in s'.addrs <==> a in s.addrs && a !in s.phase.doomed)
            && (forall a <- s'.addrs :: s'.addrs[a] == s.addrs[a])
            && s'.phase == Idle && s'.holders == s.holders
  {
  }

  // ------------------------------------------------------------------ the balance

  /** A balance is exactly what the passes have owed the budget since it was made, less what was charged to it since. */
  lemma {:induction false} BalanceExact(cfg: Config, now: int, events: seq<Event>, a: Addr, i: Side)
    requires Run(cfg, Init(now), events).Some? && a in Run(cfg, Init(now), events).value.addrs
    ensures Run(cfg, Init(now), events).value.addrs[a].avail.At(i) == Owed(cfg, now, events, a, i) - Spent(cfg, now, events, a, i)
    decreases |events|
  {
    var front, ev := Front(events), Last(events);
    var s := Run(cfg, Init(now), front).value;
    IpTheorems.RunInv(cfg, now, front);
    hide IpTheorems.Money, IpTheorems.Counted, IpTheorems.Passes;
    if a in s.addrs {
      BalanceExact(cfg, now, front, a, i);
    }
    if ev.TickOne? && s.phase.todo[0] == a {
      VisitExact(cfg, now, front, a);
    } else {
      OtherSteps(cfg, s, ev, a, i);
    }
    hide Run, Step, Enabled, Held, Between;
  }

  /** What a step other than a visit does to the balances of a. */
  lemma {:induction false} OtherSteps(cfg: Config, s: State, ev: Event, a: Addr, i: Side)
    requires IpTheorems.Counted(s) && IpTheorems.Passes(s) && Enabled(cfg, s, ev) && !(ev.TickOne? && s.phase.todo[0] == a)
    requires a in Step(cfg, s, ev).addrs
    ensures var b := Step(cfg, s, ev).addrs[a].avail.At(i);
            if a !in s.addrs then ev.Take? && ev.a == a && b == 0
            else b == s.addrs[a].avail.At(i)
                      - if ev.Charge? && ev.i == i && s.holders[ev.h].addr == a && cfg.At(i) > 0 && s.addrs[a].avail.At(i) >= 0
                        then ev.amount else 0
  {
    if i == 0 {
    } else {
    }
  }
}
