/** The steps of the UDP endpoint table keep the clients' budgets sound, and every endpoint its owner. */
module UdpBudgets {
  import opened TokenBucket
  import opened Udp
  import opened UdpInvariants
  import opened UdpSteps

  lemma {:induction false} TakeBudgets(e: Ept, now: int)
    requires BudgetsOk(e, now) && Small(e.recvQ) && e.recvQ != [] && e.recvAvail >= 0
    ensures BudgetsOk(TakeHead(e, now), now)
  {
    if Metered(e) {
      ChargeSound(e.rule.bandwidth, LARGEST_DATAGRAM, e.recvAvail, e.recvLedger, now, Cost(e.recvQ[0]));
    }
    hide Sound;
  }

  lemma {:induction false} SendBudgets(e: Ept, now: int)
    requires BudgetsOk(e, now) && Small(e.sendQ) && e.sendQ != [] && e.sendAvail >= 0
    ensures BudgetsOk(SendHead(e, now), now)
  {
    if Metered(e) {
      ChargeSound(e.rule.bandwidth, LARGEST_DATAGRAM, e.sendAvail, e.sendLedger, now, Cost(e.sendQ[0]));
    }
    hide Sound;
  }

  lemma {:induction false} RefillBudgets(e: Ept, last: int, now: int)
    requires BudgetsOk(e, last) && last <= now
    ensures BudgetsOk(RefillBoth(e, (now - last) * e.rule.bandwidth / 1000), now)
  {
    if Metered(e) {
      RefillSound(e.rule.bandwidth, LARGEST_DATAGRAM, e.recvAvail, e.recvLedger, last, now);
      RefillSound(e.rule.bandwidth, LARGEST_DATAGRAM, e.sendAvail, e.sendLedger, last, now);
    }
    hide Sound;
  }

  ghost predicate SameBudgets(e: Ept, r: Ept) {
    && r.rule == e.rule && r.server == e.server
    && r.recvAvail == e.recvAvail && r.sendAvail == e.sendAvail
    && r.recvLedger == e.recvLedger && r.sendLedger == e.sendLedger
  }

  lemma {:induction false} SameBudgetsKept(e: Ept, r: Ept, last: int)
    requires BudgetsOk(e, last) && SameBudgets(e, r)
    ensures BudgetsOk(r, last)
  {
  }

  /** A step refills the endpoint it enters and charges the one it takes from or sends for; no other budget changes. */
  lemma {:induction false} KeptBudgets(cfg: Config, s: State, ev: Event, a: Addr, last: int)
    requires Enabled(s, ev) && a in s.epts && BudgetsOk(s.epts[a], last) && SizesOk(s.epts[a], a)
    requires ev.Enter? && a == s.phase.todo[0] ==> last == s.now - s.phase.interval <= s.now
    requires ev.Move? && a == s.phase.todo[0] ==> last == s.now
    requires ev.Send? ==> last == s.now
    ensures BudgetsOk(Kept(cfg, s, ev, a), if ev.Enter? && a == s.phase.todo[0] then s.now else last)
  {
    var e := s.epts[a];
    var r := Kept(cfg, s, ev, a);
    hide BudgetsOk, Got, Lose, Handled, Errored, TakeHead, Break, RefillBoth, SendHead, Touch, Init, Given, Message, Small, Sane;
    if ev.Enter? && a == s.phase.todo[0] {
      RefillBudgets(e, last, s.now);
    } else if ev.Move? && Moves(cfg, s, ev) && a == s.phase.todo[0] {
      TakeBudgets(e, s.now);
    } else if ev.Send? && a == s.phase.todo[0] && MaySend(cfg, s, e, a) && ev.sent {
      SendBudgets(e, s.now);
    } else {
      hide Moves, MaySend;
      OthersSame(cfg, s, ev, a);
      SameBudgetsKept(e, r, last);
    }
  }

  lemma {:induction false} OthersSame(cfg: Config, s: State, ev: Event, a: Addr)
    requires Enabled(s, ev) && a in s.epts
    requires !(ev.Enter? && a == s.phase.todo[0]) && !(ev.Move? && Moves(cfg, s, ev) && a == s.phase.todo[0])
    requires !(ev.Send? && a == s.phase.todo[0] && MaySend(cfg, s, s.epts[a], a) && ev.sent)
    ensures SameBudgets(s.epts[a], Kept(cfg, s, ev, a))
  {
    hide Got, Lose, Handled, Errored, TakeHead, Break, RefillBoth, SendHead, Touch, Init, Given, Message, Moves, MaySend;
  }

  lemma {:induction false} MadeBudgets(cfg: Config, s: State, ev: Event, last: int)
    requires Enabled(s, ev) && Moves(cfg, s, ev)
    ensures BudgetsOk(Deliver(Made(cfg, s, ev), Head(s), s.phase.todo[0]), last)
  {
  }

  /** How far each budget has been refilled after a step. */
  lemma {:induction false} StepLastRefill(cfg: Config, s: State, ev: Event, a: Addr)
    requires Keys(s) && Visits(s) && Enabled(s, ev) && a in s.epts && !Evicts(cfg, s, ev, a)
    ensures LastRefill(Step(cfg, s, ev), a) == if ev.Enter? && a == s.phase.todo[0] then s.now else LastRefill(s, a)
    ensures ev.Enter? && a == s.phase.todo[0] ==> LastRefill(s, a) == s.now - s.phase.interval
    ensures (ev.Move? && a == s.phase.todo[0]) || ev.Send? ==> LastRefill(s, a) == s.now
  {
    StepRest(cfg, s, ev);
    StepPhase(cfg, s, ev);
    hide Step, Moves, Sends, MaySend, MayMove;
    if ev.BeginPass? {
      assert a in ev.order;
    } else if ev.Enter? || ev.Move? {
      hide Expired;
      InTodo(s, a);
    }
  }

  lemma {:induction false} InTodo(s: State, a: Addr)
    requires Visits(s) && s.phase.Moving? && s.phase.todo != []
    ensures a in s.phase.todo <==> a == s.phase.todo[0] || a in s.phase.todo[1..]
    ensures s.phase.todo[0] !in s.phase.todo[1..]
  {
  }

  lemma {:induction false} StepBudgets(cfg: Config, s: State, ev: Event)
    requires Keys(s) && Visits(s) && Sizes(s) && Budgets(s) && Enabled(s, ev)
    ensures Budgets(Step(cfg, s, ev))
  {
    var s' := Step(cfg, s, ev);
    hide BudgetsOk;
    forall a <- s'.epts ensures BudgetsOk(s'.epts[a], LastRefill(s', a)) {
      StepAt(cfg, s, ev, a);
      if Makes(cfg, s, ev, a) {
        MadeBudgets(cfg, s, ev, LastRefill(s', a));
      } else {
        StepLastRefill(cfg, s, ev, a);
        KeptBudgets(cfg, s, ev, a, LastRefill(s, a));
      }
    }
    hide Step, Kept, Made, LastRefill, Keys;
  }
}
