/**
 The recursive mutex with lock-order checking and its condition variable (src/xthread.cpp,
 src/xthread.h), as functions on values: what one call does to a mutex and to the calling
 thread's stack of levels.
 */
module Locks {
  import opened Base

  const NOCARE := -1
  const MAX_STACK_ELEMENT := 1024

  type ThreadId = nat
  type MutexId = nat

  /** The fields a call changes: owner and depth of the native recursive mutex, and `recursion_count`. */
  datatype Cell = Cell(owner: Option<ThreadId>, depth: nat, count: int)

  const FREE := Cell(None, 0, 0)

  /** The result of a call. `ok` is false where the program throws (lock, wait) or logs an error (unlock). */
  datatype Outcome = Outcome(ok: bool, cell: Cell, tls: Option<seq<int>>)

  predicate CanEnter(c: Cell, t: ThreadId) {
    c.owner == None || c.owner == Some(t)
  }

  /** A thread that never took a prioritised mutex has no stack object; it reads as an empty one. */
  function StackOf(tls: Option<seq<int>>): seq<int> {
    if tls.Some? then tls.value else []
  }

  /** `--recursion_count; mutex.unlock();` */
  function Leave(c: Cell): Cell {
    if c.depth <= 1 then Cell(None, 0, c.count - 1) else Cell(c.owner, c.depth - 1, c.count - 1)
  }

  /** `xrecursive_mutex::lock`, from the moment the native mutex admits thread t. */
  function AfterLock(level: int, c: Cell, tls: Option<seq<int>>, t: ThreadId): Outcome
    requires CanEnter(c, t)
  {
    var held := Cell(Some(t), c.depth + 1, c.count + 1);
    if level != NOCARE && held.count == 1 then
      var stack := StackOf(tls);
      if stack != [] && Last(stack) >= level then
        Outcome(false, Leave(held), Some(stack))
      else
        Outcome(true, held, Some(stack + [level]))
    else
      Outcome(true, held, tls)
  }

  /** `xrecursive_mutex::unlock`; unlocking a mutex nobody holds counts as an error too. */
  function AfterUnlock(level: int, c: Cell, tls: Option<seq<int>>): Outcome {
    if level != NOCARE && c.count == 1 && tls.Some? then
      if tls.value != [] && Last(tls.value) == level then
        Outcome(c.depth > 0, Leave(c), Some(Front(tls.value)))
      else
        Outcome(false, Leave(c), tls)
    else
      Outcome(c.depth > 0, Leave(c), tls)
  }

  /** n successive calls of `unlock`. */
  function UnlockTimes(level: int, c: Cell, tls: Option<seq<int>>, n: nat): Outcome
    decreases n
  {
    if n == 0 then Outcome(true, c, tls)
    else
      var o := AfterUnlock(level, c, tls);
      var r := UnlockTimes(level, o.cell, o.tls, n - 1);
      r.(ok := o.ok && r.ok)
  }

  /** n successive calls of `lock`; the first one that throws ends the series. */
  function LockTimes(level: int, c: Cell, tls: Option<seq<int>>, t: ThreadId, n: nat): Outcome
    requires CanEnter(c, t)
    decreases n
  {
    if n == 0 then Outcome(true, c, tls)
    else
      var o := AfterLock(level, c, tls, t);
      if o.ok then LockTimes(level, o.cell, o.tls, t, n - 1) else o
  }

  /** `condition_variable_recursive_mutex::check` */
  predicate CheckPasses(level: int, tls: Option<seq<int>>) {
    level != NOCARE ==> tls.Some? && tls.value != [] && Last(tls.value) == level
  }

  /** The part of `wait` before the thread sleeps: drop the extra recursion, then the last lock. */
  function BeforeSleep(level: int, c: Cell, tls: Option<seq<int>>): Outcome
    requires c.count >= 1
  {
    var dropped := UnlockTimes(level, c, tls, c.count - 1);
    var o := AfterUnlock(level, dropped.cell, dropped.tls);
    o.(ok := dropped.ok && dropped.cell.count == 1 && o.ok)
  }

  ghost predicate StrictlyIncreasing(s: seq<int>) {
    forall i, j | 0 <= i < j < |s| :: s[i] < s[j]
  }

  // ------------------------------------------------------------------ facts about single calls

  /**
   An unlock releases the native mutex once, whatever happens. The last one of a prioritised mutex takes the level off the
   caller's stack if it is on top; otherwise the stack stays, and that, if there is one, is an error.
   */
  lemma {:induction false} UnlockExact(level: int, c: Cell, tls: Option<seq<int>>)
    ensures var o := AfterUnlock(level, c, tls);
            var last := level != -1 && c.count == 1 && tls.Some?;
            var onTop := last && tls.value != [] && tls.value[|tls.value| - 1] == level;
            && o.cell.count == c.count - 1 && o.cell.depth == (if c.depth == 0 then 0 else c.depth - 1)
            && o.cell.owner == (if c.depth <= 1 then None else c.owner)
            && o.tls == (if onTop then Some(tls.value[..|tls.value| - 1]) else tls)
            && (o.ok <==> c.depth > 0 && (last ==> onTop))
  {
  }

  /** A lock call is rejected exactly when it is a first acquisition out of level order. */
  lemma {:induction false} LockRejectedIff(level: int, c: Cell, tls: Option<seq<int>>, t: ThreadId)
    requires CanEnter(c, t) && c.count == c.depth && (c.owner == None <==> c.depth == 0)
    ensures AfterLock(level, c, tls, t).ok <==>
            (level == NOCARE || c.owner == Some(t) || StackOf(tls) == [] || Last(StackOf(tls)) < level)
    ensures !AfterLock(level, c, tls, t).ok ==>
              AfterLock(level, c, tls, t).cell == c && AfterLock(level, c, tls, t).tls == tls
  {
  }

  lemma {:induction false} UnlockTimesKeepsStack(level: int, c: Cell, tls: Option<seq<int>>, n: nat)
    requires c.count == c.depth > n
    ensures UnlockTimes(level, c, tls, n) == Outcome(true, Cell(c.owner, c.depth - n, c.count - n), tls)
    decreases n
  {
    if n > 0 {
      UnlockTimesKeepsStack(level, Leave(c), tls, n - 1);
    }
  }

  lemma {:induction false} LockTimesReentrant(level: int, c: Cell, tls: Option<seq<int>>, t: ThreadId, n: nat)
    requires c.owner == Some(t) && c.count == c.depth > 0
    ensures LockTimes(level, c, tls, t, n) == Outcome(true, Cell(Some(t), c.depth + n, c.count + n), tls)
    decreases n
  {
    if n > 0 {
      LockTimesReentrant(level, Cell(Some(t), c.depth + 1, c.count + 1), tls, t, n - 1);
    }
  }

  /** Taking a free mutex in order, n times in a row, never fails and pushes its level once. */
  lemma {:induction false} LockTimesFree(level: int, tls: Option<seq<int>>, t: ThreadId, n: nat)
    requires n > 0
    requires level != NOCARE ==> StackOf(tls) == [] || Last(StackOf(tls)) < level
    ensures LockTimes(level, FREE, tls, t, n)
            == Outcome(true, Cell(Some(t), n, n), if level == NOCARE then tls else Some(StackOf(tls) + [level]))
  {
    var o := AfterLock(level, FREE, tls, t);
    LockTimesReentrant(level, o.cell, o.tls, t, n - 1);
  }

  /** What `wait` does before sleeping: whatever the recursion depth, the mutex ends up free and its level popped. */
  lemma {:induction false} BeforeSleepFrees(level: int, c: Cell, tls: Option<seq<int>>)
    requires c.count == c.depth >= 1 && CheckPasses(level, tls)
    ensures BeforeSleep(level, c, tls)
            == Outcome(true, FREE, if level == NOCARE then tls else Some(Front(tls.value)))
  {
    UnlockTimesKeepsStack(level, c, tls, c.count - 1);
  }

  /**
   `wait` restores what it found: for any recursion depth, going to sleep frees the mutex completely, and when
   it is free again the series of re-locks succeeds and gives back the same depth and the same stack of levels.
   */
  lemma {:induction false} WaitRestores(level: int, c: Cell, tls: Option<seq<int>>, t: ThreadId)
    requires c.owner == Some(t) && c.count == c.depth >= 1
    requires CheckPasses(level, tls) && StrictlyIncreasing(StackOf(tls))
    ensures var asleep := BeforeSleep(level, c, tls);
            && asleep.ok && asleep.cell == FREE
            && LockTimes(level, asleep.cell, asleep.tls, t, c.count) == Outcome(true, c, tls)
  {
    BeforeSleepFrees(level, c, tls);
    var asleep := BeforeSleep(level, c, tls);
    LockTimesFree(level, asleep.tls, t, c.count);
    if level != NOCARE {
      assert Front(tls.value) + [level] == tls.value;
    }
  }

  /** The same with nothing to drop: one unlock and one lock. */
  lemma {:induction false} WaitOnce(level: int, tls: Option<seq<int>>, t: ThreadId)
    requires CheckPasses(level, tls) && StrictlyIncreasing(StackOf(tls))
    ensures var held := Cell(Some(t), 1, 1);
            var o := AfterUnlock(level, held, tls);
            o.ok && o.cell == FREE && AfterLock(level, FREE, o.tls, t) == Outcome(true, held, tls)
  {
    var held := Cell(Some(t), 1, 1);
    WaitRestores(level, held, tls, t);
    BeforeSleepFrees(level, held, tls);
    assert UnlockTimes(level, held, tls, 0) == Outcome(true, held, tls);
  }

  /** A strictly increasing stack of levels below 1024 always has a free slot for a level above its top. */
  lemma {:induction false} StackNeverOverflows(s: seq<int>)
    requires StrictlyIncreasing(s) && forall i | 0 <= i < |s| :: 0 <= s[i]
    ensures forall i | 0 <= i < |s| :: i <= s[i]
    ensures s != [] && Last(s) < MAX_STACK_ELEMENT ==> |s| <= MAX_STACK_ELEMENT
  {
    if s != [] {
      StackNeverOverflows(Front(s));
      assert |s| >= 2 ==> Front(s)[|s| - 2] == s[|s| - 2];
      assert forall i | 0 <= i < |s| - 1 :: i <= Front(s)[i] == s[i];
    }
  }

  /** Pushing a level above the top keeps the order. */
  lemma {:induction false} PushedInOrder(s: seq<int>, level: int)
    requires StrictlyIncreasing(s) && (s == [] || Last(s) < level)
    ensures StrictlyIncreasing(s + [level])
  {
  }
}
