/**
 The classes IPProxy and IPProxies of src/ip_proxy.cpp as objects updated in place, proved to change as the functions of
 module IpBuckets say, and the turn of the routine thread, which is proved to be a run of that machine.
 */
module IpObjects {
  import opened Base
  import opened TokenBucket
  import opened IpBuckets
  import IpTheorems

  class IPProxy {
    var availBytes: Pair<int>
    var refCnt: int

    /** History: the number of this budget among those of its address. */
    ghost const life: nat

    ghost function Value(): Bucket
      reads this
    {
      Bucket(availBytes, refCnt, life)
    }

    constructor (ghost life: nat)
      ensures Value() == Bucket(Pair(0, 0), 0, life)
    {
      availBytes, refCnt, this.life := Pair(0, 0), 0, life;
    }

    method AddRef()
      modifies this
      ensures Value() == old(Value()).(refCnt := old(refCnt) + 1)
    {
      refCnt := refCnt + 1;
    }

    method Release()
      modifies this
      ensures Value() == old(Value()).(refCnt := old(refCnt) - 1)
    {
      refCnt := refCnt - 1;
    }

    /** The test and the subtraction under the budget's mutex. */
    method TryCharge(i: Side, amount: int) returns (ok: bool)
      modifies this
      ensures ok == (old(availBytes).At(i) >= 0)
      ensures Value() == old(Value()).(avail := if ok then old(availBytes).With(i, old(availBytes).At(i) - amount) else old(availBytes))
    {
      ok := availBytes.At(i) >= 0;
      if ok {
        availBytes := availBytes.With(i, availBytes.At(i) - amount);
      }
    }

    /** Lines 80-86. */
    method RefillBoth(bytes: Pair<int>)
      modifies this
      ensures Value() == old(Value()).(avail := Pair(Refill(old(availBytes).first, bytes.first), Refill(old(availBytes).second, bytes.second)))
    {
      for n := 0 to 2
        invariant refCnt == old(refCnt)
        invariant availBytes.first == if n > 0 then Refill(old(availBytes).first, bytes.first) else old(availBytes).first
        invariant availBytes.second == if n > 1 then Refill(old(availBytes).second, bytes.second) else old(availBytes).second
      {
        if availBytes.At(n) < 0 {
          availBytes := availBytes.With(n, availBytes.At(n) + bytes.At(n));
        }
      }
    }
  }

  class IPProxies {
    const bandwidth: Config
    var addrs: map<Addr, IPProxy>
    var lastFlush: int
    ghost var phase: Phase
    ghost var holders: map<HolderId, Holder>
    ghost var history: map<Addr, History>

    ghost predicate Valid()
      reads this
    {
      forall a, b | a in addrs && b in addrs && addrs[a] == addrs[b] :: a == b
    }

    ghost function Buckets(): map<Addr, Bucket>
      reads this, addrs.Values
    {
      map a | a in addrs :: addrs[a].Value()
    }

    ghost function Value(): State
      reads this, addrs.Values
    {
      State(Buckets(), holders, history, lastFlush, phase, false)
    }

    constructor (bandwidth: Config, now: int)
      ensures Valid() && this.bandwidth == bandwidth && Value() == Init(now) && addrs == map[]
    {
      this.bandwidth := bandwidth;
      addrs, lastFlush, phase, holders, history := map[], now, Idle, map[], map[];
    }

    /** History only. */
    ghost method Record(holders: map<HolderId, Holder>, history: map<Addr, History>)
      modifies this`holders, this`history
      ensures Value() == old(Value()).(holders := holders, history := history)
    {
      this.holders, this.history := holders, history;
      assert Buckets() == old(Buckets());
    }

    /** Line 39: the entry of the map, made if it is missing. */
    method Entry(a: Addr) returns (p: IPProxy)
      requires Valid()
      modifies this`addrs
      ensures Valid() && a in addrs && addrs[a] == p
      ensures addrs == if a in old(addrs) then old(addrs) else old(addrs)[a := p]
      ensures a !in old(addrs) ==> fresh(p)
      ensures var s := old(Value());
              Value() == if a in s.addrs then s else s.(addrs := s.addrs[a := Bucket(Pair(0, 0), 0, PastOf(s, a).lives + 1)])
    {
      hide IPProxy.Value;
      if a in addrs {
        p := addrs[a];
      } else {
        p := new IPProxy(PastOf(Value(), a).lives + 1);
        addrs := addrs[a := p];
        assert Buckets() == old(Buckets())[a := p.Value()];
      }
    }

    method CountUp(a: Addr)
      requires Valid() && a in addrs
      modifies addrs[a]
      ensures var s := old(Value());
              Value() == s.(addrs := s.addrs[a := s.addrs[a].(refCnt := s.addrs[a].refCnt + 1)])
    {
      addrs[a].AddRef();
      hide IPProxy.Value;
      assert Buckets() == old(Buckets())[a := addrs[a].Value()];
    }

    /** getIPProxy for the holder h; without limits there is no budget. */
    method GetIPProxy(a: Addr, ghost h: HolderId) returns (p: IPProxy?)
      requires Valid() && !phase.Ticking?
      modifies this`addrs, this`holders, this`history, addrs.Values
      ensures Valid() && (p == null <==> !Limited(bandwidth))
      ensures p == null ==> Value() == old(Value())
      ensures p != null ==> a in addrs && addrs[a] == p && Value() == Taken(old(Value()), h, a)
      ensures fresh(addrs.Values - old(addrs.Values))
    {
      if bandwidth.first == 0 && bandwidth.second == 0 {
        return null;
      }
      ghost var s := Value();
      hide Buckets, IPProxy.Value;
      p := Entry(a);
      CountUp(a);
      ghost var s1 := Taken(s, h, a);
      Record(s1.holders, s1.history);
    }

    /** The destructors of connections and endpoints, given the pointer they hold. */
    method GiveBack(p: IPProxy, ghost h: HolderId)
      requires Valid() && h in holders && Live(Value(), holders[h]) && p == addrs[holders[h].addr]
      modifies p, this`holders
      ensures Valid() && Value() == GivenBack(old(Value()), h)
    {
      p.Release();
      holders := holders - {h};
      hide IPProxy.Value;
      assert Buckets() == old(Buckets())[old(holders)[h].addr := p.Value()];
    }

    /** What the callers do before they write or send `amount` bytes; false makes them wait. */
    method MayCharge(p: IPProxy, i: Side, amount: int, ghost h: HolderId) returns (ok: bool)
      requires Valid() && h in holders && Live(Value(), holders[h]) && p == addrs[holders[h].addr] && holders[h].addr in history
      modifies p, this`history
      ensures Valid() && Value() == ChargedBy(bandwidth, old(Value()), h, i, amount)
      ensures ok == (bandwidth.At(i) <= 0 || old(p.availBytes).At(i) >= 0)
    {
      if bandwidth.At(i) <= 0 {
        return true;
      }
      ghost var s, a := Value(), holders[h].addr;
      assert s.addrs[a] == p.Value();
      ghost var s1 := ChargedBy(bandwidth, s, h, i, amount);
      assert s1 == s.(addrs := s1.addrs, history := s1.history);
      ok := p.TryCharge(i, amount);
      assert s1.addrs == s.addrs[a := p.Value()];
      hide IPProxy.Value, ChargedBy;
      history := s1.history;
      assert Buckets() == old(Buckets())[a := p.Value()];
    }

    // ---------------------------------------------------------------- the routine thread

    ghost predicate Ran(s0: State, trace: seq<Event>)
      reads this, addrs.Values
    {
      Valid() && IpTheorems.Inv(bandwidth, Value()) && Run(bandwidth, s0, trace) == Some(Value())
    }

    static lemma {:induction false} OneMore(cfg: Config, s0: State, trace: seq<Event>, s: State, ev: Event)
      requires Run(cfg, s0, trace) == Some(s) && IpTheorems.Inv(cfg, s) && Enabled(cfg, s, ev)
      ensures Run(cfg, s0, trace + [ev]) == Some(Step(cfg, s, ev)) && IpTheorems.Inv(cfg, Step(cfg, s, ev))
    {
      hide Step, Enabled, IpTheorems.Counted, IpTheorems.Passes, IpTheorems.Money;
      var s' := IpTheorems.Chain(cfg, s0, trace, s, ev);
      IpTheorems.StepCounted(cfg, s, ev);
      IpTheorems.StepPasses(cfg, s, ev);
      IpTheorems.StepMoney(cfg, s, ev);
    }

    ghost method SetPhase(phase: Phase)
      requires Valid()
      modifies this`phase
      ensures Valid() && Value() == old(Value()).(phase := phase) && this.phase == phase
    {
      this.phase := phase;
      assert Buckets() == old(Buckets());
    }

    method SetClock(t: int)
      requires Valid()
      modifies this`lastFlush
      ensures Valid() && Value() == old(Value()).(lastFlush := t) && lastFlush == t
    {
      lastFlush := t;
      assert Buckets() == old(Buckets());
    }

    /** Lines 55-67. */
    method ComputeBytes(t: int, ghost s0: State, ghost before: seq<Event>) returns (bytes: Pair<int>, ghost trace: seq<Event>)
      requires Ran(s0, before) && phase == Idle && lastFlush < t && (bandwidth.first > 0 || bandwidth.second > 0)
      modifies this`lastFlush, this`phase
      ensures Ran(s0, trace) && phase == Computed(t - old(lastFlush)) && lastFlush == t
      ensures bytes == Pair(Bytes(bandwidth, phase.interval, 0), Bytes(bandwidth, phase.interval, 1))
    {
      var interval := t - lastFlush;
      hide IpTheorems.Inv, Run, Valid, Buckets;
      OneMore(bandwidth, s0, before, Value(), Compute(t));
      trace := before + [Compute(t)];
      SetClock(t);
      SetPhase(Computed(interval));
      bytes := Pair(interval * bandwidth.first / 1000, interval * bandwidth.second / 1000);
    }

    /** The keys of the map in the order in which the loop visits them. */
    method KeysInOrder() returns (order: seq<Addr>)
      ensures forall i, j | 0 <= i < j < |order| :: order[i] != order[j]
      ensures forall k :: k in addrs <==> k in order
    {
      order := [];
      var rest := addrs.Keys;
      while rest != {}
        invariant rest <= addrs.Keys && forall i, j | 0 <= i < j < |order| :: order[i] != order[j]
        invariant forall k :: k in order <==> k in addrs && k !in rest
      {
        var k :| k in rest;
        order, rest := order + [k], rest - {k};
      }
    }

    /** Lines 80-86. */
    method RefillAt(a: Addr, bytes: Pair<int>)
      requires Valid() && a in addrs
      modifies addrs[a]
      ensures Valid()
      ensures var s, b := old(Value()), old(addrs[a].Value());
              Value() == s.(addrs := s.addrs[a := b.(avail := Pair(Refill(b.avail.first, bytes.first), Refill(b.avail.second, bytes.second)))])
    {
      addrs[a].RefillBoth(bytes);
      hide IPProxy.Value, Refill;
      assert Buckets() == old(Buckets())[a := addrs[a].Value()];
    }

    /** Lines 73-86: a budget without holders goes to the list of those to delete, any other is refilled. */
    method Tick(a: Addr, bytes: Pair<int>, doomed: seq<Addr>, ghost s0: State, ghost before: seq<Event>)
      returns (doomed': seq<Addr>, ghost trace: seq<Event>)
      requires Ran(s0, before) && phase.Ticking? && phase.todo != [] && phase.todo[0] == a && phase.doomed == doomed
      requires bytes == Pair(Bytes(bandwidth, phase.interval, 0), Bytes(bandwidth, phase.interval, 1))
      modifies addrs.Values, this`phase, this`history
      ensures Ran(s0, trace)
      ensures phase == old(phase).(todo := old(phase).todo[1..], doomed := doomed')
    {
      ghost var s := Value();
      ghost var s1 := Ticked(bandwidth, s);
      NextInMap(a);
      assert Enabled(bandwidth, s, TickOne);
      hide IpTheorems.Inv, Run, Valid, Buckets, IPProxy.Value, Bytes, Refill;
      OneMore(bandwidth, s0, before, s, TickOne);
      trace := before + [TickOne];
      if addrs[a].refCnt <= 0 {
        doomed' := doomed + [a];
      } else {
        doomed' := doomed;
        RefillAt(a, bytes);
        RecordHistory(s1.history);
      }
      SetPhase(s1.phase);
    }

    ghost method RecordHistory(history: map<Addr, History>)
      requires Valid()
      modifies this`history
      ensures Valid() && Value() == old(Value()).(history := history)
    {
      this.history := history;
      assert Buckets() == old(Buckets());
    }

    lemma {:induction false} NextInMap(a: Addr)
      requires IpTheorems.Inv(bandwidth, Value()) && phase.Ticking? && phase.todo != [] && phase.todo[0] == a
      ensures a in addrs && a in history && Value().addrs[a] == addrs[a].Value() && addrs[a].Value().refCnt == addrs[a].refCnt
    {
      assert a in Buckets();
    }

    /** Lines 88-91. */
    method EraseDoomed(doomed: seq<Addr>, ghost s0: State, ghost before: seq<Event>) returns (ghost trace: seq<Event>)
      requires Ran(s0, before) && phase.Ticking? && phase.todo == [] && phase.doomed == doomed
      modifies this`addrs, this`phase
      ensures Ran(s0, trace) && phase == Idle
    {
      ghost var s := Value();
      hide IpTheorems.Inv, Run;
      OneMore(bandwidth, s0, before, s, EraseAll);
      trace := before + [EraseAll];
      EraseKeys(doomed);
      SetPhase(Idle);
    }

    method EraseKeys(doomed: seq<Addr>)
      requires Valid()
      modifies this`addrs
      ensures Valid()
      ensures var s := old(Value());
              Value() == s.(addrs := map a | a in s.addrs && a !in doomed :: s.addrs[a])
    {
      hide IPProxy.Value;
      for i := 0 to |doomed|
        invariant forall a :: a in addrs <==> a in old(addrs) && a !in doomed[..i]
        invariant forall a <- addrs :: addrs[a] == old(addrs)[a]
      {
        addrs := addrs - {doomed[i]};
        assert doomed[..i + 1] == doomed[..i] + [doomed[i]];
      }
      assert doomed[..|doomed|] == doomed;
      assert Buckets() == map a | a in old(Buckets()) && a !in doomed :: old(Buckets())[a];
    }

    method LockMap(ghost order: seq<Addr>, ghost s0: State, ghost before: seq<Event>) returns (ghost trace: seq<Event>)
      requires Ran(s0, before) && phase.Computed?
      requires forall i, j | 0 <= i < j < |order| :: order[i] != order[j]
      requires forall k :: k in addrs <==> k in order
      modifies this`phase
      ensures Ran(s0, trace) && phase == Ticking(old(phase).interval, order, [])
    {
      assert IsOrder(Value(), order);
      hide IpTheorems.Inv, Run, Valid, Buckets, IsOrder;
      OneMore(bandwidth, s0, before, Value(), Event.LockMap(order));
      trace := before + [Event.LockMap(order)];
      SetPhase(Ticking(phase.interval, order, []));
    }

    // ---------------------------------------------------------------- others, between two steps of the routine thread

    lemma {:induction false} SomeHolder(a: Addr, s0: State, trace: seq<Event>) returns (h: HolderId)
      requires Ran(s0, trace) && a in addrs && addrs[a].refCnt > 0
      ensures h in holders && Live(Value(), holders[h]) && holders[h].addr == a && a in history
    {
      assert Value().addrs[a].refCnt == |IpTheorems.Holding(Value(), a)|;
      h :| h in IpTheorems.Holding(Value(), a);
    }

    /** Connections and endpoints are never too many for another one to come. */
    static lemma {:induction false} NewHolder(taken: set<HolderId>) returns (h: HolderId)
      ensures forall k <- taken :: k < h
      decreases taken
    {
      h := 0;
      if taken != {} {
        var k :| k in taken;
        var rest := NewHolder(taken - {k});
        h := if k < rest then rest else k + 1;
        assert forall j <- taken :: j == k || j in taken - {k};
      }
    }

    /** A connection or an endpoint is created. */
    method SomeTake(a: Addr, ghost s0: State, ghost before: seq<Event>) returns (ghost trace: seq<Event>)
      requires Ran(s0, before) && !phase.Ticking?
      modifies this`addrs, this`holders, this`history, addrs.Values
      ensures Ran(s0, trace) && fresh(addrs.Values - old(addrs.Values))
    {
      ghost var h := NewHolder(holders.Keys);
      trace := before;
      if bandwidth.first != 0 || bandwidth.second != 0 {
        hide IpTheorems.Inv, Run, Valid, Buckets, Taken;
        OneMore(bandwidth, s0, before, Value(), Take(h, a));
        trace := before + [Take(h, a)];
        var _ := GetIPProxy(a, h);
      }
    }

    /** Its destructor runs. */
    method SomeReturn(a: Addr, ghost s0: State, ghost before: seq<Event>) returns (ghost trace: seq<Event>)
      requires Ran(s0, before) && a in addrs && addrs[a].refCnt > 0
      modifies addrs.Values, this`holders
      ensures Ran(s0, trace)
    {
      ghost var h := SomeHolder(a, s0, before);
      hide IpTheorems.Inv, Run, Valid, Buckets, GivenBack;
      OneMore(bandwidth, s0, before, Value(), Event.GiveBack(h));
      trace := before + [Event.GiveBack(h)];
      GiveBack(addrs[a], h);
    }

    /** It charges the budget. */
    method SomeCharge(a: Addr, ghost s0: State, ghost before: seq<Event>) returns (ghost trace: seq<Event>)
      requires Ran(s0, before) && a in addrs && addrs[a].refCnt > 0
      modifies addrs.Values, this`history
      ensures Ran(s0, trace)
    {
      var second: bool, amount: int := *, *;
      var i: Side := if second then 1 else 0;
      trace := before;
      if 0 < amount <= LARGEST_CHARGE {
        ghost var h := SomeHolder(a, s0, before);
        hide IpTheorems.Inv, Run, Valid, Buckets, ChargedBy;
        OneMore(bandwidth, s0, before, Value(), Charge(h, i, amount));
        trace := before + [Charge(h, i, amount)];
        var _ := MayCharge(addrs[a], i, amount, h);
      }
    }

    method SomeUse(a: Addr, mapLocked: bool, ghost s0: State, ghost before: seq<Event>) returns (ghost trace: seq<Event>)
      requires Ran(s0, before) && (mapLocked <==> phase.Ticking?)
      modifies this`addrs, this`holders, this`history, addrs.Values
      ensures Ran(s0, trace) && fresh(addrs.Values - old(addrs.Values)) && (mapLocked ==> addrs == old(addrs))
    {
      var which: int := *;
      trace := before;
      hide Ran;
      if which == 0 && !mapLocked {
        trace := SomeTake(a, s0, before);
      } else if a in addrs && addrs[a].refCnt > 0 {
        if which == 1 {
          trace := SomeReturn(a, s0, before);
        } else {
          trace := SomeCharge(a, s0, before);
        }
      }
    }

    /** Any number of these; budgets are handed out only while the routine thread does not hold the mutex of the map. */
    method Meanwhile(mapLocked: bool, ghost s0: State, ghost before: seq<Event>) returns (ghost trace: seq<Event>)
      requires Ran(s0, before) && (mapLocked <==> phase.Ticking?)
      modifies this`addrs, this`holders, this`history, addrs.Values
      ensures Ran(s0, trace) && fresh(addrs.Values - old(addrs.Values)) && (mapLocked ==> addrs == old(addrs))
    {
      var n: int := *;
      trace := before;
      hide Ran;
      for i := 0 to if n < 0 then 0 else n
        invariant Ran(s0, trace) && fresh(addrs.Values - old(addrs.Values)) && (mapLocked ==> addrs == old(addrs))
      {
        var a: Addr := *;
        trace := SomeUse(a, mapLocked, s0, trace);
      }
    }

    // ---------------------------------------------------------------- a whole turn

    /**
     One turn of the loop of the routine thread, with others at work between its steps, is a run of the machine and keeps
     its invariant. When the clock has gone on, the run takes the time t, and to be idle again it has made a whole pass.
     */
    method RoutinePass(t: int) returns (ghost trace: seq<Event>)
      requires Valid() && IpTheorems.Inv(bandwidth, Value()) && phase == Idle
      requires bandwidth.first > 0 || bandwidth.second > 0
      modifies this, addrs.Values
      ensures Valid() && IpTheorems.Inv(bandwidth, Value()) && phase == Idle
      ensures Run(bandwidth, old(Value()), trace) == Some(Value())
      ensures if t <= old(lastFlush) then trace == [] else lastFlush == t
    {
      ghost var s0 := Value();
      trace := [];
      if t - lastFlush <= 0 {
        return;
      }
      trace := Pass(t, s0);
    }

    method Pass(t: int, ghost s0: State) returns (ghost trace: seq<Event>)
      requires Ran(s0, []) && phase == Idle && lastFlush < t && (bandwidth.first > 0 || bandwidth.second > 0)
      modifies this, addrs.Values
      ensures Ran(s0, trace) && phase == Idle && lastFlush == t
    {
      hide Ran, Bytes;
      var bytes;
      bytes, trace := ComputeBytes(t, s0, []);
      ghost var interval := phase.interval;
      trace := Meanwhile(false, s0, trace);
      var order := KeysInOrder();
      trace := LockMap(order, s0, trace);
      ghost var budgets := addrs;
      var doomed := [];
      for i := 0 to |order|
        invariant Ran(s0, trace) && phase == Ticking(interval, order[i..], doomed)
        invariant lastFlush == t && addrs == budgets && fresh(addrs.Values - old(addrs.Values))
      {
        trace := Meanwhile(true, s0, trace);
        doomed, trace := Tick(order[i], bytes, doomed, s0, trace);
      }
      trace := Meanwhile(true, s0, trace);
      trace := EraseDoomed(doomed, s0, trace);
    }
  }
}
