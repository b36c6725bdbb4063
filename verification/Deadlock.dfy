/**
 Deadlock freedom of the level discipline. `lock` blocks on the native mutex before it compares levels
 (src/xthread.cpp:49, 61), so the comparison cannot prevent a deadlock by itself: the theorem is about requests
 that are in order when they are made, and the last lemma shows what one request out of order can do.
 */
module Deadlock {
  import opened Base
  import opened Locks
  import opened LockOrder

  /** The mutex thread t is kept out of by another thread, if any. */
  function BlockedOn(s: System, t: ThreadId): Option<MutexId>
    requires t < |s.threads|
  {
    var st := s.threads[t].status;
    if (st.Locking? || st.Relocking?) && st.m < |s.cells| && !CanEnter(s.cells[st.m], t) then Some(st.m) else None
  }

  predicate Blocked(levels: seq<int>, s: System, t: ThreadId)
    requires |levels| == |s.cells|
  {
    && t < |s.threads|
    && BlockedOn(s, t).Some?
    && levels[BlockedOn(s, t).value] != NOCARE
  }

  /** t is blocked on a prioritised mutex that u holds. */
  predicate WaitsFor(levels: seq<int>, s: System, t: ThreadId, u: ThreadId)
    requires |levels| == |s.cells|
  {
    Blocked(levels, s, t) && s.cells[BlockedOn(s, t).value].owner == Some(u)
  }

  function PendingLevel(levels: seq<int>, s: System, t: ThreadId): int
    requires |levels| == |s.cells|
  {
    if Blocked(levels, s, t) then levels[BlockedOn(s, t).value] else NOCARE
  }

  /** A request for m by th respects the order of levels. */
  predicate InOrder(levels: seq<int>, th: Thread, m: MutexId) {
    m < |levels| && levels[m] != NOCARE && m !in th.frames ==> StackOf(th.tls) == [] || Last(StackOf(th.tls)) < levels[m]
  }

  ghost predicate PendingInOrder(levels: seq<int>, s: System) {
    forall t | 0 <= t < |s.threads| ::
      s.threads[t].status.Locking? ==> InOrder(levels, s.threads[t], s.threads[t].status.m)
  }

  ghost predicate WaitCycle(levels: seq<int>, s: System, c: seq<ThreadId>)
    requires |levels| == |s.cells|
  {
    && c != []
    && (forall i | 0 <= i < |c| - 1 :: WaitsFor(levels, s, c[i], c[i + 1]))
    && WaitsFor(levels, s, Last(c), c[0])
  }

  /** Along an edge of the wait-for graph the level waited for goes up. */
  lemma {:induction false} EdgeClimbs(levels: seq<int>, s: System, t: ThreadId, u: ThreadId)
    requires Inv(levels, s) && PendingInOrder(levels, s)
    requires WaitsFor(levels, s, t, u) && Blocked(levels, s, u)
    ensures PendingLevel(levels, s, t) < PendingLevel(levels, s, u)
  {
    var m, n, th := BlockedOn(s, t).value, BlockedOn(s, u).value, s.threads[u];
    assert CellOk(s, m) && ThreadOk(levels, th);
    assert Holds(th, m) && !Holds(th, n);
    var held := HeldLevels(levels, th.frames);
    HeldLevelsMembers(levels, th.frames, m);
    var i :| 0 <= i < |held| && held[i] == levels[m];
    if th.status.Locking? {
      assert InOrder(levels, th, n);
      assert held[i] <= Last(held);
    } else {
      HeldLevelsDistinct(levels, th.frames, m, n);
      assert held[i] <= Last(held) == levels[n];
    }
  }

  lemma {:induction false} PathClimbs(levels: seq<int>, s: System, c: seq<ThreadId>, k: nat)
    requires Inv(levels, s) && PendingInOrder(levels, s)
    requires WaitCycle(levels, s, c) && k < |c|
    ensures PendingLevel(levels, s, c[0]) <= PendingLevel(levels, s, c[k])
  {
    if k > 0 {
      PathClimbs(levels, s, c, k - 1);
      assert WaitsFor(levels, s, c[k - 1], c[k]);
      assert k < |c| - 1 ==> WaitsFor(levels, s, c[k], c[k + 1]);
      EdgeClimbs(levels, s, c[k - 1], c[k]);
    }
  }

  /** When every pending first acquisition is in level order, the wait-for graph has no cycle. */
  lemma {:induction false} NoCycle(levels: seq<int>, s: System, c: seq<ThreadId>)
    requires Inv(levels, s) && PendingInOrder(levels, s)
    ensures !WaitCycle(levels, s, c)
  {
    if WaitCycle(levels, s, c) {
      PathClimbs(levels, s, c, |c| - 1);
      assert |c| > 1 ==> WaitsFor(levels, s, c[0], c[1]);
      EdgeClimbs(levels, s, Last(c), c[0]);
    }
  }

  ghost predicate Bound(levels: seq<int>, b: int) {
    forall m | 0 <= m < |levels| :: levels[m] <= b
  }

  /** Following the wait-for graph from a blocked thread ends at a thread that holds a mutex and is not blocked. */
  lemma {:induction false} ChainEnds(levels: seq<int>, s: System, t: ThreadId, b: int) returns (u: ThreadId, v: ThreadId)
    requires Inv(levels, s) && PendingInOrder(levels, s) && Blocked(levels, s, t) && Bound(levels, b)
    ensures WaitsFor(levels, s, u, v) && v < |s.threads| && !Blocked(levels, s, v)
    decreases b - PendingLevel(levels, s, t)
  {
    var m := BlockedOn(s, t).value;
    assert CellOk(s, m);
    u, v := t, s.cells[m].owner.value;
    if Blocked(levels, s, v) {
      EdgeClimbs(levels, s, t, v);
      u, v := ChainEnds(levels, s, v, b);
    }
  }

  lemma {:induction false} BoundExists(levels: seq<int>) returns (b: int)
    ensures Bound(levels, b)
    decreases |levels|
  {
    if levels == [] {
      b := 0;
    } else {
      var c := BoundExists(Front(levels));
      b := if c < Last(levels) then Last(levels) else c;
      assert forall m | 0 <= m < |levels| - 1 :: Front(levels)[m] == levels[m];
    }
  }

  /** If some thread is blocked on a prioritised mutex, the holder of some such mutex is not. */
  lemma {:induction false} SomeHolderNotBlocked(levels: seq<int>, s: System, t: ThreadId)
    requires Inv(levels, s) && PendingInOrder(levels, s) && Blocked(levels, s, t)
    ensures exists u: ThreadId, v: ThreadId :: WaitsFor(levels, s, u, v) && v < |s.threads| && !Blocked(levels, s, v)
  {
    var b := BoundExists(levels);
    var u, v := ChainEnds(levels, s, t, b);
  }

  // ------------------------------------------------------------------ whole runs

  /** Every request of the run is in level order at the moment it is made. */
  ghost predicate Orderly(levels: seq<int>, s: System, events: seq<Event>)
    requires |levels| == |s.cells|
    decreases |events|
  {
    events != [] ==>
      && Orderly(levels, s, Front(events))
      && (Last(events).Request? && Last(events).t < |s.threads| && Run(levels, s, Front(events)).Some? ==>
            InOrder(levels, Run(levels, s, Front(events)).value.threads[Last(events).t], Last(events).m))
  }

  /** Waiting for admission, re-entrant locks and the re-lock inside wait keep pending requests in order. */
  lemma {:induction false} OrderlyKeepsPendingInOrder(levels: seq<int>, s: System, events: seq<Event>)
    requires Inv(levels, s) && PendingInOrder(levels, s)
    requires Run(levels, s, events).Some? && Orderly(levels, s, events)
    ensures PendingInOrder(levels, Run(levels, s, events).value)
    decreases |events|
  {
    if events != [] {
      OrderlyKeepsPendingInOrder(levels, s, Front(events));
    }
  }

  /** Deadlock freedom over all interleavings of any number of threads whose requests are in level order. */
  lemma {:induction false} DeadlockFreedom(levels: seq<int>, threads: nat, events: seq<Event>)
    requires Run(levels, Init(levels, threads), events).Some? && Orderly(levels, Init(levels, threads), events)
    ensures var s := Run(levels, Init(levels, threads), events).value;
            && (forall c :: !WaitCycle(levels, s, c))
            && ((exists t :: Blocked(levels, s, t)) ==>
                  exists u: ThreadId, v: ThreadId :: WaitsFor(levels, s, u, v) && v < threads && !Blocked(levels, s, v))
  {
    var init := Init(levels, threads);
    InitInv(levels, threads);
    RunInv(levels, init, events);
    OrderlyKeepsPendingInOrder(levels, init, events);
    var s := Run(levels, init, events).value;
    forall c
      ensures !WaitCycle(levels, s, c)
    {
      NoCycle(levels, s, c);
    }
    if t :| Blocked(levels, s, t) {
      SomeHolderNotBlocked(levels, s, t);
    }
  }

  /**
   The hypothesis is needed: for any two prioritised mutexes a and b where b is not above a, one thread asking for
   b inside a and another asking for a inside b end up waiting for each other, although the first of them
   would have been rejected had it been admitted.
   */
  lemma {:induction false} OutOfOrderRequestDeadlocks(levels: seq<int>, threads: nat, a: MutexId, b: MutexId)
    requires threads >= 2 && a < |levels| && b < |levels| && a != b
    requires NOCARE < levels[b] <= levels[a]
    ensures exists events ::
              && Run(levels, Init(levels, threads), events).Some?
              && WaitCycle(levels, Run(levels, Init(levels, threads), events).value, [0, 1])
  {
    var s0 := Init(levels, threads);
    var e1 := TakeFirst(levels, s0, [], 0, a);
    var s1 := Took(levels, s0, 0, a);
    var e2 := TakeFirst(levels, s0, e1, 1, b);
    var s2 := Took(levels, s1, 1, b);
    var s3 := Extend(levels, s0, e2, Request(0, b));
    var s4 := Extend(levels, s0, e2 + [Request(0, b)], Request(1, a));
    assert WaitsFor(levels, s4, 0, 1) && WaitsFor(levels, s4, 1, 0);
  }

  /** The state after the idle thread t took the free, prioritised mutex m. */
  function Took(levels: seq<int>, s: System, t: ThreadId, m: MutexId): System
    requires |levels| == |s.cells| && t < |s.threads| && m < |levels|
  {
    Update(s, t, Thread([m], Some([levels[m]]), Running), m, Cell(Some(t), 1, 1), true)
  }

  lemma {:induction false} TakeFirst(levels: seq<int>, s0: System, events: seq<Event>, t: ThreadId, m: MutexId)
      returns (longer: seq<Event>)
    requires |levels| == |s0.cells| && Run(levels, s0, events).Some? && t < |s0.threads| && m < |levels|
    requires var s := Run(levels, s0, events).value;
             s.threads[t] == IDLE && s.cells[m] == FREE && levels[m] != NOCARE
    ensures Run(levels, s0, longer) == Some(Took(levels, Run(levels, s0, events).value, t, m))
  {
    var s := Run(levels, s0, events).value;
    var s1 := Extend(levels, s0, events, Request(t, m));
    var s2 := Extend(levels, s0, events + [Request(t, m)], Grant(t));
    assert [] + [m] == [m] && [] + [levels[m]] == [levels[m]];
    assert s2.threads == Took(levels, s, t, m).threads;
    longer := events + [Request(t, m)] + [Grant(t)];
  }

  lemma {:induction false} Extend(levels: seq<int>, s: System, events: seq<Event>, e: Event) returns (s': System)
    requires |levels| == |s.cells| && Run(levels, s, events).Some?
    requires Enabled(levels, Run(levels, s, events).value, e)
    ensures Run(levels, s, events + [e]) == Some(s')
    ensures s' == Step(levels, Run(levels, s, events).value, e)
  {
    assert Front(events + [e]) == events;
    s' := Step(levels, Run(levels, s, events).value, e);
  }
}
