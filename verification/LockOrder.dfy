/**
 All threads and all mutexes together. Threads use the mutexes through `scoped_lock` (src/xthread.h:28-46), so
 each thread has a list of the scoped locks it is inside of, innermost last, and releases only the innermost.
 Every interleaving is a run of this machine.
 */
module LockOrder {
  import opened Base
  import opened Locks

  datatype Status =
    | Running
    | Locking(m: MutexId)                  // inside lock(), not yet admitted by the native mutex
    | Sleeping(m: MutexId, extra: nat)     // inside cond.wait, mutex released
    | Relocking(m: MutexId, extra: nat)    // woken, waiting to be admitted again

  datatype Thread = Thread(frames: seq<MutexId>, tls: Option<seq<int>>, status: Status)

  /** `fault` is set when an error branch of unlock, wait or the re-lock inside wait is taken. */
  datatype System = System(cells: seq<Cell>, threads: seq<Thread>, fault: bool)

  datatype Event =
    | Request(t: ThreadId, m: MutexId)
    | Grant(t: ThreadId)
    | Release(t: ThreadId)
    | Wait(t: ThreadId, m: MutexId)
    | Wake(t: ThreadId)
    | Regrant(t: ThreadId)

  const IDLE := Thread([], None, Running)

  function Init(levels: seq<int>, threads: nat): System {
    System(seq(|levels|, _ => FREE), seq(threads, _ => IDLE), false)
  }

  predicate Enabled(levels: seq<int>, s: System, e: Event)
    requires |levels| == |s.cells|
  {
    && e.t < |s.threads|
    && var th := s.threads[e.t];
       match e
       case Request(t, m) => th.status == Running && m < |levels|
       case Grant(t) => th.status.Locking? && th.status.m < |levels| && CanEnter(s.cells[th.status.m], t)
       case Release(t) => th.status == Running && th.frames != [] && Last(th.frames) < |levels|
       case Wait(t, m) => th.status == Running && m in th.frames && m < |levels| && s.cells[m].count >= 1
       case Wake(t) => th.status.Sleeping?
       case Regrant(t) => th.status.Relocking? && th.status.m < |levels| && CanEnter(s.cells[th.status.m], t)
  }

  function Step(levels: seq<int>, s: System, e: Event): System
    requires |levels| == |s.cells| && Enabled(levels, s, e)
  {
    var th := s.threads[e.t];
    match e
    case Request(t, m) => Put(s, t, th.(status := Locking(m)))
    case Grant(t) =>
      var m := th.status.m;
      var o := AfterLock(levels[m], s.cells[m], th.tls, t);
      Update(s, t, th.(status := Running, tls := o.tls, frames := if o.ok then th.frames + [m] else th.frames), m, o.cell, true)
    case Release(t) =>
      var m := Last(th.frames);
      var o := AfterUnlock(levels[m], s.cells[m], th.tls);
      Update(s, t, th.(tls := o.tls, frames := Front(th.frames)), m, o.cell, o.ok)
    case Wait(t, m) =>
      if !CheckPasses(levels[m], th.tls) then s
      else
        var o := BeforeSleep(levels[m], s.cells[m], th.tls);
        Update(s, t, th.(tls := o.tls, status := Sleeping(m, s.cells[m].count - 1)), m, o.cell, o.ok)
    case Wake(t) => Put(s, t, th.(status := Relocking(th.status.m, th.status.extra)))
    case Regrant(t) =>
      var m := th.status.m;
      var o := LockTimes(levels[m], s.cells[m], th.tls, t, th.status.extra + 1);
      Update(s, t, th.(tls := o.tls, status := Running), m, o.cell, o.ok)
  }

  function Put(s: System, t: ThreadId, th: Thread): System
    requires t < |s.threads|
  {
    s.(threads := s.threads[t := th])
  }

  function Update(s: System, t: ThreadId, th: Thread, m: MutexId, c: Cell, ok: bool): System
    requires t < |s.threads| && m < |s.cells|
  {
    System(s.cells[m := c], s.threads[t := th], s.fault || !ok)
  }

  /** The state after a run from s, or None when some event was not enabled. */
  function Run(levels: seq<int>, s: System, events: seq<Event>): (r: Option<System>)
    requires |levels| == |s.cells|
    ensures r.Some? ==> |r.value.cells| == |s.cells| && |r.value.threads| == |s.threads|
    decreases |events|
  {
    if events == [] then Some(s)
    else
      match Run(levels, s, Front(events))
      case None => None
      case Some(s1) => if Enabled(levels, s1, Last(events)) then Some(Step(levels, s1, Last(events))) else None
  }

  // ------------------------------------------------------------------ what the stack of levels should be

  function Count(frames: seq<MutexId>, m: MutexId): nat
    decreases |frames|
  {
    if frames == [] then 0
    else Count(Front(frames), m) + (if Last(frames) == m then 1 else 0)
  }

  ghost predicate InRange(levels: seq<int>, frames: seq<MutexId>) {
    forall i | 0 <= i < |frames| :: frames[i] < |levels|
  }

  /** The levels of the prioritised mutexes a thread is inside of, in the order it first acquired them. */
  ghost function HeldLevels(levels: seq<int>, frames: seq<MutexId>): seq<int>
    requires InRange(levels, frames)
    decreases |frames|
  {
    if frames == [] then []
    else
      var rest := HeldLevels(levels, Front(frames));
      var m := Last(frames);
      if levels[m] == NOCARE || m in Front(frames) then rest else rest + [levels[m]]
  }

  lemma {:induction false} CountIn(frames: seq<MutexId>, m: MutexId)
    ensures m in frames <==> Count(frames, m) > 0
    decreases |frames|
  {
    if frames != [] {
      CountIn(Front(frames), m);
      assert frames == Front(frames) + [Last(frames)];
    }
  }

  lemma {:induction false} HeldLevelsMembers(levels: seq<int>, frames: seq<MutexId>, m: MutexId)
    requires InRange(levels, frames)
    requires m in frames && levels[m] != NOCARE
    ensures levels[m] in HeldLevels(levels, frames)
    decreases |frames|
  {
    assert frames == Front(frames) + [Last(frames)];
    if m in Front(frames) {
      HeldLevelsMembers(levels, Front(frames), m);
    }
  }

  /** Two different prioritised mutexes of a thread have different levels when its levels are in order. */
  lemma {:induction false} HeldLevelsDistinct(levels: seq<int>, frames: seq<MutexId>, m: MutexId, n: MutexId)
    requires InRange(levels, frames)
    requires m in frames && n in frames && m != n && levels[m] != NOCARE && levels[n] != NOCARE
    requires StrictlyIncreasing(HeldLevels(levels, frames))
    ensures levels[m] != levels[n]
    decreases |frames|
  {
    var front, l := Front(frames), Last(frames);
    assert frames == front + [l];
    var held, rest := HeldLevels(levels, frames), HeldLevels(levels, front);
    assert rest == held[..|rest|];
    if m in front && n in front {
      HeldLevelsDistinct(levels, front, m, n);
    } else {
      var other := if m in front then m else n;
      HeldLevelsMembers(levels, front, other);
      var i :| 0 <= i < |rest| && rest[i] == levels[other];
      assert held[i] < held[|rest|];
    }
  }

  // ------------------------------------------------------------------ the invariant

  /** Thread t is between the acquisition and the release of m, and not inside a wait on m. */
  predicate Holds(th: Thread, m: MutexId) {
    && m in th.frames
    && ((th.status.Sleeping? || th.status.Relocking?) ==> th.status.m != m)
  }

  ghost predicate ThreadOk(levels: seq<int>, th: Thread) {
    && InRange(levels, th.frames)
    && var held := HeldLevels(levels, th.frames);
       && StrictlyIncreasing(held)
       && match th.status
          case Running => StackOf(th.tls) == held
          case Locking(m) => m < |levels| && StackOf(th.tls) == held
          case Sleeping(m, extra) => AsleepOk(levels, th, m, extra)
          case Relocking(m, extra) => AsleepOk(levels, th, m, extra)
  }

  ghost predicate AsleepOk(levels: seq<int>, th: Thread, m: MutexId, extra: nat)
    requires InRange(levels, th.frames)
  {
    && m in th.frames
    && Count(th.frames, m) == extra + 1
    && HeldLevels(levels, th.frames) == (if levels[m] == NOCARE then StackOf(th.tls) else StackOf(th.tls) + [levels[m]])
  }

  ghost predicate CellOk(s: System, m: MutexId)
    requires m < |s.cells|
  {
    var c := s.cells[m];
    match c.owner
    case None => c == FREE
    case Some(t) => t < |s.threads| && c.count == c.depth == Count(s.threads[t].frames, m) >= 1
  }

  /** A mutex is owned by exactly the thread that is inside a scoped lock on it. */
  ghost predicate Inv(levels: seq<int>, s: System) {
    && |levels| == |s.cells|
    && !s.fault
    && (forall t | 0 <= t < |s.threads| :: ThreadOk(levels, s.threads[t]))
    && (forall m | 0 <= m < |s.cells| :: CellOk(s, m))
    && (forall t, m | 0 <= t < |s.threads| && 0 <= m < |s.cells| ::
          Holds(s.threads[t], m) <==> s.cells[m].owner == Some(t))
  }

  lemma {:induction false} InitInv(levels: seq<int>, threads: nat)
    ensures Inv(levels, Init(levels, threads))
  {
  }

  /** Changing one thread and one mutex keeps the invariant when the changed parts fit together. */
  lemma {:induction false} UpdateInv(levels: seq<int>, s: System, t: ThreadId, th: Thread, m: MutexId, c: Cell)
    requires Inv(levels, s) && t < |s.threads| && m < |levels|
    requires ThreadOk(levels, th)
    requires CellOk(Update(s, t, th, m, c, true), m)
    requires CanEnter(s.cells[m], t) && CanEnter(c, t)
    requires Holds(th, m) <==> c.owner == Some(t)
    requires forall n | 0 <= n < |levels| && n != m :: Holds(th, n) <==> Holds(s.threads[t], n)
    requires forall n | 0 <= n < |levels| && n != m :: Count(th.frames, n) == Count(s.threads[t].frames, n)
    ensures Inv(levels, Update(s, t, th, m, c, true))
  {
    var s' := Update(s, t, th, m, c, true);
    forall n | 0 <= n < |levels|
      ensures CellOk(s', n)
    {
      if n != m {
        assert CellOk(s, n);
      }
    }
    forall u, n | 0 <= u < |s'.threads| && 0 <= n < |levels|
      ensures Holds(s'.threads[u], n) <==> s'.cells[n].owner == Some(u)
    {
      if u != t && n == m {
        assert Holds(s.threads[u], m) <==> s.cells[m].owner == Some(u);
      }
    }
  }

  /** Entering one more scoped lock on m extends the held levels exactly when it is a first, prioritised one. */
  lemma {:induction false} ThreadEnters(levels: seq<int>, th: Thread, m: MutexId, tls: Option<seq<int>>)
    requires ThreadOk(levels, th) && th.status == Locking(m)
    requires var stack := StackOf(th.tls);
             if levels[m] == NOCARE || m in th.frames then StackOf(tls) == stack
             else (stack == [] || Last(stack) < levels[m]) && StackOf(tls) == stack + [levels[m]]
    ensures ThreadOk(levels, Thread(th.frames + [m], tls, Running))
  {
    assert Front(th.frames + [m]) == th.frames;
    if levels[m] != NOCARE && m !in th.frames {
      PushedInOrder(StackOf(th.tls), levels[m]);
    }
    hide StrictlyIncreasing;
  }

  lemma {:induction false} GrantInv(levels: seq<int>, s: System, t: ThreadId)
    requires Inv(levels, s) && Enabled(levels, s, Grant(t))
    ensures Inv(levels, Step(levels, s, Grant(t)))
  {
    var th := s.threads[t];
    var m := th.status.m;
    assert CellOk(s, m) && ThreadOk(levels, th);
    assert Holds(th, m) <==> s.cells[m].owner == Some(t);
    LockRejectedIff(levels[m], s.cells[m], th.tls, t);
    CountIn(th.frames, m);
    var o := AfterLock(levels[m], s.cells[m], th.tls, t);
    if o.ok {
      var th' := Thread(th.frames + [m], o.tls, Running);
      ThreadEnters(levels, th, m, o.tls);
      assert Front(th'.frames) == th.frames;
      UpdateInv(levels, s, t, th', m, o.cell);
    } else {
      UpdateInv(levels, s, t, th.(status := Running), m, s.cells[m]);
    }
  }

  lemma {:induction false} ReleaseInv(levels: seq<int>, s: System, t: ThreadId)
    requires Inv(levels, s) && Enabled(levels, s, Release(t))
    ensures Inv(levels, Step(levels, s, Release(t)))
  {
    var th := s.threads[t];
    var m := Last(th.frames);
    var th' := Step(levels, s, Release(t)).threads[t];
    assert th.frames == Front(th.frames) + [m];
    assert ThreadOk(levels, th) && Holds(th, m) && CellOk(s, m);
    CountIn(th.frames, m);
    CountIn(th'.frames, m);
    var o := AfterUnlock(levels[m], s.cells[m], th.tls);
    assert forall n | 0 <= n < |levels| && n != m :: n in th'.frames <==> n in th.frames;
    var held, rest := HeldLevels(levels, th.frames), HeldLevels(levels, th'.frames);
    if m !in th'.frames && levels[m] != NOCARE {
      assert Front(held) == rest;
    }
    assert o.ok;
    UpdateInv(levels, s, t, th', m, o.cell);
  }

  /** When check passes, the mutex is the last of the thread's first acquisitions (or carries no level). */
  lemma {:induction false} WaitInv(levels: seq<int>, s: System, t: ThreadId, m: MutexId)
    requires Inv(levels, s) && Enabled(levels, s, Wait(t, m))
    ensures Inv(levels, Step(levels, s, Wait(t, m)))
  {
    var th := s.threads[t];
    assert ThreadOk(levels, th) && Holds(th, m) && CellOk(s, m);
    if CheckPasses(levels[m], th.tls) {
      var th' := Step(levels, s, Wait(t, m)).threads[t];
      BeforeSleepFrees(levels[m], s.cells[m], th.tls);
      if levels[m] != NOCARE {
        assert th.tls.value == Front(th.tls.value) + [levels[m]];
      }
      UpdateInv(levels, s, t, th', m, FREE);
    }
  }

  lemma {:induction false} RegrantInv(levels: seq<int>, s: System, t: ThreadId)
    requires Inv(levels, s) && Enabled(levels, s, Regrant(t))
    ensures Inv(levels, Step(levels, s, Regrant(t)))
  {
    var th := s.threads[t];
    var m := th.status.m;
    assert ThreadOk(levels, th) && CellOk(s, m);
    assert !Holds(th, m);
    var held := HeldLevels(levels, th.frames);
    if levels[m] != NOCARE {
      var stack := StackOf(th.tls);
      assert held[|stack|] == levels[m];
      assert stack != [] ==> held[|stack| - 1] == Last(stack);
    }
    LockTimesFree(levels[m], th.tls, t, th.status.extra + 1);
    UpdateInv(levels, s, t, Step(levels, s, Regrant(t)).threads[t], m, Step(levels, s, Regrant(t)).cells[m]);
  }

  lemma {:induction false} StepInv(levels: seq<int>, s: System, e: Event)
    requires Inv(levels, s) && Enabled(levels, s, e)
    ensures Inv(levels, Step(levels, s, e))
  {
    assert ThreadOk(levels, s.threads[e.t]);
    match e
    case Grant(t) => GrantInv(levels, s, t);
    case Release(t) => ReleaseInv(levels, s, t);
    case Wait(t, m) => WaitInv(levels, s, t, m);
    case Regrant(t) => RegrantInv(levels, s, t);
    case _ =>
      var s' := Step(levels, s, e);
      assert forall m | 0 <= m < |s.cells| :: CellOk(s, m) ==> CellOk(s', m);
  }

  lemma {:induction false} RunInv(levels: seq<int>, s: System, events: seq<Event>)
    requires Inv(levels, s) && Run(levels, s, events).Some?
    ensures Inv(levels, Run(levels, s, events).value)
    decreases |events|
  {
    if events != [] {
      RunInv(levels, s, Front(events));
      StepInv(levels, Run(levels, s, Front(events)).value, Last(events));
    }
  }

  // ------------------------------------------------------------------ what holds over whole runs

  /**
   Every thread's stack of levels is strictly increasing and is exactly the levels of the prioritised mutexes it
   is inside of, in first-acquisition order, without the one it is waiting on; no error branch is ever taken.
   */
  lemma {:induction false} StackIsExact(levels: seq<int>, threads: nat, events: seq<Event>, t: ThreadId)
    requires Run(levels, Init(levels, threads), events).Some? && t < threads
    ensures var s := Run(levels, Init(levels, threads), events).value;
            var th := s.threads[t];
            && !s.fault
            && InRange(levels, th.frames)
            && StrictlyIncreasing(StackOf(th.tls))
            && var waitsOn := if th.status.Sleeping? || th.status.Relocking? then Some(th.status.m) else None;
               HeldLevels(levels, th.frames)
               == StackOf(th.tls) + (if waitsOn.Some? && waitsOn.value < |levels| && levels[waitsOn.value] != NOCARE
                                     then [levels[waitsOn.value]] else [])
  {
    InitInv(levels, threads);
    RunInv(levels, Init(levels, threads), events);
    var th := Run(levels, Init(levels, threads), events).value.threads[t];
    assert ThreadOk(levels, th);
    var held, stack := HeldLevels(levels, th.frames), StackOf(th.tls);
    assert held[..|stack|] == stack;
  }

  /** With all levels below 1024 no thread's stack ever outgrows its 1024 slots. */
  lemma {:induction false} StackFits(levels: seq<int>, threads: nat, events: seq<Event>, t: ThreadId)
    requires forall m | 0 <= m < |levels| :: NOCARE <= levels[m] < MAX_STACK_ELEMENT
    requires Run(levels, Init(levels, threads), events).Some? && t < threads
    ensures |StackOf(Run(levels, Init(levels, threads), events).value.threads[t].tls)| <= MAX_STACK_ELEMENT
  {
    StackIsExact(levels, threads, events, t);
    var th := Run(levels, Init(levels, threads), events).value.threads[t];
    var held := HeldLevels(levels, th.frames);
    HeldLevelsInRange(levels, th.frames);
    var stack := StackOf(th.tls);
    assert forall i | 0 <= i < |stack| :: stack[i] == held[i];
    StackNeverOverflows(stack);
  }

  lemma {:induction false} HeldLevelsInRange(levels: seq<int>, frames: seq<MutexId>)
    requires InRange(levels, frames)
    requires forall m | 0 <= m < |levels| :: NOCARE <= levels[m] < MAX_STACK_ELEMENT
    ensures forall i | 0 <= i < |HeldLevels(levels, frames)| :: 0 <= HeldLevels(levels, frames)[i] < MAX_STACK_ELEMENT
    decreases |frames|
  {
    if frames != [] {
      HeldLevelsInRange(levels, Front(frames));
    }
  }

  /** A lock call that is rejected leaves every mutex and every thread's stack and scoped locks as they were. */
  lemma {:induction false} RejectedLockChangesNothing(levels: seq<int>, s: System, t: ThreadId)
    requires Inv(levels, s) && Enabled(levels, s, Grant(t))
    ensures var m, th := s.threads[t].status.m, s.threads[t];
            var rejected := levels[m] != NOCARE && m !in th.frames && StackOf(th.tls) != [] && Last(StackOf(th.tls)) >= levels[m];
            && (rejected ==> Step(levels, s, Grant(t)) == Put(s, t, th.(status := Running)))
            && (!rejected ==> Step(levels, s, Grant(t)).threads[t].frames == th.frames + [m])
  {
    var m, th := s.threads[t].status.m, s.threads[t];
    assert CellOk(s, m) && ThreadOk(levels, th);
    assert Holds(th, m) <==> s.cells[m].owner == Some(t);
    LockRejectedIff(levels[m], s.cells[m], th.tls, t);
  }

  // ------------------------------------------------------------------ waiting

  /** What other threads do never changes a thread's own stack, scoped locks or status. */
  lemma {:induction false} OthersLeaveThreadAlone(levels: seq<int>, s: System, events: seq<Event>, t: ThreadId)
    requires |levels| == |s.cells| && t < |s.threads| && Run(levels, s, events).Some?
    requires forall i | 0 <= i < |events| :: events[i].t != t
    ensures Run(levels, s, events).value.threads[t] == s.threads[t]
    decreases |events|
  {
    if events != [] {
      assert forall i | 0 <= i < |events| - 1 :: Front(events)[i] == events[i];
      OthersLeaveThreadAlone(levels, s, Front(events), t);
    }
  }

  /** The held levels are exactly those of the prioritised mutexes a thread is inside of. */
  lemma {:induction false} HeldLevelsAre(levels: seq<int>, frames: seq<MutexId>, level: int)
    requires InRange(levels, frames)
    ensures level in HeldLevels(levels, frames) <==> exists n :: n in frames && levels[n] == level && level != NOCARE
    decreases |frames|
  {
    if frames != [] {
      HeldLevelsAre(levels, Front(frames), level);
      assert frames == Front(frames) + [Last(frames)];
      if levels[Last(frames)] != NOCARE && Last(frames) in Front(frames) {
        HeldLevelsMembers(levels, Front(frames), Last(frames));
      }
    }
  }

  /** The last of the held levels is the greatest. */
  lemma {:induction false} GreatestHeld(levels: seq<int>, frames: seq<MutexId>, m: MutexId)
    requires InRange(levels, frames) && StrictlyIncreasing(HeldLevels(levels, frames)) && m in frames && levels[m] != NOCARE
    ensures HeldLevels(levels, frames) != []
    ensures Last(HeldLevels(levels, frames)) == levels[m] <==> forall n | n in frames && levels[n] != NOCARE :: levels[n] <= levels[m]
  {
    var held := HeldLevels(levels, frames);
    HeldLevelsMembers(levels, frames, m);
    forall n | n in frames && levels[n] != NOCARE ensures levels[n] <= Last(held) {
      HeldLevelsMembers(levels, frames, n);
      var j :| 0 <= j < |held| && held[j] == levels[n];
      assert j < |held| - 1 ==> held[j] < held[|held| - 1];
    }
    HeldLevelsAre(levels, frames, Last(held));
  }

  /**
   Who may wait. In every reachable state a thread that is inside a scoped lock on m and waits on m goes to sleep, with m
   free from then on, iff m has no level or its level is the greatest of those the thread holds; otherwise the call throws
   and nothing has changed.
   */
  lemma {:induction false} WaitAdmittedIff(levels: seq<int>, threads: nat, events: seq<Event>, t: ThreadId, m: MutexId)
    requires Run(levels, Init(levels, threads), events).Some? && t < threads && m < |levels|
    requires var th := Run(levels, Init(levels, threads), events).value.threads[t];
             th.status == Running && m in th.frames
    ensures var s := Run(levels, Init(levels, threads), events).value;
            var th := s.threads[t];
            && Enabled(levels, s, Wait(t, m)) && InRange(levels, th.frames)
            && var s' := Step(levels, s, Wait(t, m));
               if levels[m] == NOCARE || forall n | n in th.frames && levels[n] != NOCARE :: levels[n] <= levels[m]
               then s'.cells[m] == Cell(None, 0, 0) && s'.threads[t].status.Sleeping? && s'.threads[t].status.m == m && !s'.fault
               else s' == s
  {
    InitInv(levels, threads);
    RunInv(levels, Init(levels, threads), events);
    var s := Run(levels, Init(levels, threads), events).value;
    var th := s.threads[t];
    assert ThreadOk(levels, th) && Holds(th, m) && CellOk(s, m);
    WaitInv(levels, s, t, m);
    if levels[m] != NOCARE {
      GreatestHeld(levels, th.frames, m);
    }
    if CheckPasses(levels[m], th.tls) {
      BeforeSleepFrees(levels[m], s.cells[m], th.tls);
    }
    hide Run, Inv;
  }

  /**
   A whole wait under interference. Thread t waits on a mutex of its greatest level (or one without level), holding
   it to any depth. While it sleeps and while it waits to be readmitted the others do anything. The mutex is free the
   moment t sleeps, and when t is back it has the same depth, the same stack and the same scoped locks.
   */
  lemma {:induction false} WaitUnderInterference(levels: seq<int>, s: System, t: ThreadId, m: MutexId, during: seq<Event>, after: seq<Event>)
    requires Inv(levels, s) && Enabled(levels, s, Wait(t, m)) && CheckPasses(levels[m], s.threads[t].tls)
    requires forall i | 0 <= i < |during| :: during[i].t != t
    requires forall i | 0 <= i < |after| :: after[i].t != t
    requires var asleep := Step(levels, s, Wait(t, m));
             && Run(levels, asleep, during).Some?
             && var notified := Run(levels, asleep, during).value;
                && Enabled(levels, notified, Wake(t))
                && Run(levels, Step(levels, notified, Wake(t)), after).Some?
                && Enabled(levels, Run(levels, Step(levels, notified, Wake(t)), after).value, Regrant(t))
    ensures var asleep := Step(levels, s, Wait(t, m));
            var notified := Run(levels, asleep, during).value;
            var back := Step(levels, Run(levels, Step(levels, notified, Wake(t)), after).value, Regrant(t));
            && asleep.cells[m] == FREE
            && !back.fault
            && back.threads[t] == s.threads[t]
            && back.cells[m] == s.cells[m]
  {
    var asleep := Step(levels, s, Wait(t, m));
    StepInv(levels, s, Wait(t, m));
    OthersLeaveThreadAlone(levels, asleep, during, t);
    RunInv(levels, asleep, during);
    var waiting := Step(levels, Run(levels, asleep, during).value, Wake(t));
    StepInv(levels, Run(levels, asleep, during).value, Wake(t));
    OthersLeaveThreadAlone(levels, waiting, after, t);
    RunInv(levels, waiting, after);
    SleepThenRegrant(levels, s, t, m, Run(levels, waiting, after).value);
  }

  /** Readmission to m in any state reached while t was waiting on m undoes what going to sleep did. */
  lemma {:induction false} SleepThenRegrant(levels: seq<int>, s: System, t: ThreadId, m: MutexId, ready: System)
    requires Inv(levels, s) && Enabled(levels, s, Wait(t, m)) && CheckPasses(levels[m], s.threads[t].tls)
    requires Inv(levels, ready) && t < |ready.threads|
    requires ready.threads[t] == Step(levels, s, Wait(t, m)).threads[t].(status := Relocking(m, s.cells[m].count - 1))
    requires Enabled(levels, ready, Regrant(t))
    ensures Step(levels, s, Wait(t, m)).cells[m] == FREE
    ensures var back := Step(levels, ready, Regrant(t));
            !back.fault && back.threads[t] == s.threads[t] && back.cells[m] == s.cells[m]
  {
    var th := s.threads[t];
    assert ThreadOk(levels, th) && Holds(th, m) && CellOk(s, m);
    assert ThreadOk(levels, ready.threads[t]) && CellOk(ready, m);
    assert !Holds(ready.threads[t], m);
    WaitRestores(levels[m], s.cells[m], th.tls, t);
  }
}
