/**
 The classes of src/xthread.cpp and src/xthread.h as objects updated in place. Every method is proved to change its
 fields exactly as the functions of module Locks say.
 */
module LockObjects {
  import opened Base
  import opened Locks

  /** A thread's stack of levels in a fixed array of 1024 slots. */
  class QuickIntStack {
    const elements: array<int>
    var topPos: int

    ghost predicate Valid()
      reads this
    {
      elements.Length == MAX_STACK_ELEMENT && -1 <= topPos < MAX_STACK_ELEMENT
    }

    ghost function Contents(): seq<int>
      reads this, elements
      requires Valid()
    {
      elements[..topPos + 1]
    }

    constructor ()
      ensures Valid() && Contents() == [] && fresh(elements)
    {
      elements := new int[MAX_STACK_ELEMENT];
      topPos := -1;
    }

    method Empty() returns (b: bool)
      requires Valid()
      ensures b <==> Contents() == []
    {
      b := topPos == -1;
    }

    method Top() returns (i: int)
      requires Valid() && Contents() != []
      ensures i == Last(Contents())
    {
      i := elements[topPos];
    }

    method Push(i: int)
      requires Valid() && |Contents()| < MAX_STACK_ELEMENT
      modifies this, elements
      ensures Valid() && Contents() == old(Contents()) + [i]
    {
      topPos := topPos + 1;
      elements[topPos] := i;
    }

    method Pop()
      requires Valid() && Contents() != []
      modifies this
      ensures Valid() && Contents() == Front(old(Contents()))
    {
      topPos := topPos - 1;
    }
  }

  /** A thread with its thread-specific pointer `locks_hold_by_current_thread`. */
  class ThreadLocks {
    const id: ThreadId
    var levels: QuickIntStack?

    constructor (id: ThreadId)
      ensures Valid() && Tls() == None && this.id == id
    {
      this.id := id;
      levels := null;
    }

    ghost function Repr(): set<object>
      reads this
    {
      {this} + if levels == null then {} else {levels, levels.elements}
    }

    ghost predicate Valid()
      reads Repr()
    {
      levels != null ==> levels.Valid()
    }

    ghost function Tls(): Option<seq<int>>
      requires Valid()
      reads Repr()
    {
      if levels == null then None else Some(levels.Contents())
    }

    /** The levels are nonnegative and in order, as LockOrder.StackIsExact shows they always are. */
    ghost predicate Sorted()
      requires Valid()
      reads Repr()
    {
      var s := StackOf(Tls());
      StrictlyIncreasing(s) && forall i | 0 <= i < |s| :: 0 <= s[i]
    }
  }

  /** `owner` and `depth` stand for the native recursive mutex. */
  class XRecursiveMutex {
    var recursionCount: int
    const priLevel: int
    var owner: Option<ThreadId>
    var depth: nat

    /** History: what the mutex looked like each time a thread went to sleep on it. */
    ghost var sleeps: seq<Cell>

    constructor (priLevel: int)
      requires NOCARE <= priLevel
      ensures Value() == FREE && this.priLevel == priLevel
    {
      recursionCount := 0;
      this.priLevel := priLevel;
      owner := None;
      depth := 0;
      sleeps := [];
    }

    function Value(): Cell
      reads this
    {
      Cell(owner, depth, recursionCount)
    }

    /** When a call of Lock is going to push, the caller's array has a free slot; LockOrder.StackFits shows when it always has. */
    ghost predicate HasRoom(self: ThreadLocks)
      requires self.Valid()
      reads this, self.Repr()
    {
      var stack := StackOf(self.Tls());
      priLevel != NOCARE && recursionCount == 0 && (stack == [] || Last(stack) < priLevel) ==> |stack| < MAX_STACK_ELEMENT
    }

    /** Runs once the native mutex admits the caller; `ok` is false where the program throws. */
    method Lock(self: ThreadLocks) returns (ok: bool)
      requires self.Valid() && self.Sorted() && CanEnter(Value(), self.id)
      requires NOCARE <= priLevel && HasRoom(self)
      modifies this`owner, this`depth, this`recursionCount, self.Repr()
      ensures self.Valid() && fresh(self.Repr() - old(self.Repr()))
      ensures Outcome(ok, Value(), self.Tls()) == AfterLock(priLevel, old(Value()), old(self.Tls()), self.id)
      ensures self.Sorted()
    {
      hide StrictlyIncreasing;
      owner, depth := Some(self.id), depth + 1;
      recursionCount := recursionCount + 1;
      ok := true;
      if priLevel != NOCARE {
        if recursionCount == 1 {
          ok := PushLevel(self);
          if !ok {
            recursionCount := recursionCount - 1;
            NativeUnlock();
          }
        }
      }
    }

    /** Lines 55-67: false when the order is wrong. */
    method PushLevel(self: ThreadLocks) returns (ok: bool)
      requires self.Valid() && self.Sorted() && 0 <= priLevel
      requires var stack := StackOf(self.Tls()); (stack == [] || Last(stack) < priLevel) ==> |stack| < MAX_STACK_ELEMENT
      modifies self.Repr()
      ensures self.Valid() && self.Sorted() && fresh(self.Repr() - old(self.Repr()))
      ensures var stack := old(StackOf(self.Tls()));
              && (ok <==> stack == [] || Last(stack) < priLevel)
              && self.Tls() == Some(if ok then stack + [priLevel] else stack)
    {
      ghost var stack := StackOf(self.Tls());
      if self.levels == null {
        self.levels := new QuickIntStack();
      }
      var empty := self.levels.Empty();
      if !empty {
        var top := self.levels.Top();
        if top >= priLevel {
          return false;
        }
      }
      PushedInOrder(stack, priLevel);
      hide StrictlyIncreasing;
      self.levels.Push(priLevel);
      return true;
    }

    method NativeUnlock()
      modifies this`owner, this`depth
      ensures depth == (if old(depth) == 0 then 0 else old(depth) - 1)
      ensures owner == (if old(depth) <= 1 then None else old(owner))
    {
      if depth <= 1 {
        owner, depth := None, 0;
      } else {
        depth := depth - 1;
      }
    }

    /** `ok` is false where the program logs an error (or unlocks a mutex nobody holds). */
    method Unlock(self: ThreadLocks) returns (ok: bool)
      requires self.Valid()
      modifies this`owner, this`depth, this`recursionCount, self.levels
      ensures self.Valid()
      ensures Outcome(ok, Value(), self.Tls()) == AfterUnlock(priLevel, old(Value()), old(self.Tls()))
      ensures old(self.Sorted()) ==> self.Sorted()
    {
      ok := depth > 0;
      if priLevel != NOCARE && recursionCount == 1 && self.levels != null {
        var popped := PopLevel(self);
        ok := ok && popped;
      }
      recursionCount := recursionCount - 1;
      NativeUnlock();
    }

    /** Lines 75-87: false when the level on top is another one. */
    method PopLevel(self: ThreadLocks) returns (ok: bool)
      requires self.Valid() && self.levels != null
      modifies self.levels
      ensures self.Valid() && (old(self.Sorted()) ==> self.Sorted())
      ensures var stack := old(StackOf(self.Tls()));
              && (ok <==> stack != [] && Last(stack) == priLevel)
              && self.Tls() == Some(if ok then Front(stack) else stack)
    {
      var empty := self.levels.Empty();
      if empty {
        return false;
      }
      var top := self.levels.Top();
      ok := top == priLevel;
      if ok {
        self.levels.Pop();
      }
    }
  }

  /** What a mutex may look like while thread t sleeps. */
  predicate HeldByOthers(c: Cell, t: ThreadId) {
    && c.owner != Some(t)
    && c.count == c.depth
    && (c.owner == None <==> c.depth == 0)
  }

  /** `condition_variable_recursive_mutex`; its methods do not touch fields of the condition variable itself. */
  class ConditionVariable {
    constructor ()
    {
    }

    method Check(mtx: XRecursiveMutex, self: ThreadLocks) returns (ok: bool)
      requires self.Valid()
      ensures ok <==> CheckPasses(mtx.priLevel, self.Tls())
      ensures ok <==> mtx.priLevel == NOCARE || (StackOf(self.Tls()) != [] && Last(StackOf(self.Tls())) == mtx.priLevel)
    {
      ok := true;
      if mtx.priLevel != NOCARE {
        ok := false;
        if self.levels != null {
          var empty := self.levels.Empty();
          if !empty {
            var top := self.levels.Top();
            ok := top == mtx.priLevel;
          }
        }
      }
    }

    /**
     Either check throws and nothing changes, or the caller sleeps once, with the mutex free, and everything is given back,
     whatever other threads do with the mutex meanwhile.
     */
    method Wait(mtx: XRecursiveMutex, self: ThreadLocks) returns (ok: bool)
      requires self.Valid() && self.Sorted() && NOCARE <= mtx.priLevel
      requires mtx.owner == Some(self.id) && mtx.recursionCount == mtx.depth >= 1
      modifies mtx, self.Repr()
      ensures self.Valid()
      ensures ok <==> CheckPasses(mtx.priLevel, old(self.Tls()))
      ensures mtx.Value() == old(mtx.Value()) && self.Tls() == old(self.Tls())
      ensures mtx.sleeps == if ok then old(mtx.sleeps) + [FREE] else old(mtx.sleeps)
    {
      ok := Check(mtx, self);
      if !ok {
        return;
      }
      var extra := mtx.recursionCount - 1;
      DropExtra(mtx, self, extra);
      NativeWait(mtx, self);
      RetakeExtra(mtx, self, extra);
    }

    /** As Wait; also tells whether the thread was notified before the duration was over. */
    method TimedWait(mtx: XRecursiveMutex, self: ThreadLocks, wasNotified: bool) returns (ok: bool, notified: bool)
      requires self.Valid() && self.Sorted() && NOCARE <= mtx.priLevel
      requires mtx.owner == Some(self.id) && mtx.recursionCount == mtx.depth >= 1
      modifies mtx, self.Repr()
      ensures self.Valid()
      ensures ok <==> CheckPasses(mtx.priLevel, old(self.Tls()))
      ensures ok ==> notified == wasNotified
      ensures mtx.Value() == old(mtx.Value()) && self.Tls() == old(self.Tls())
      ensures mtx.sleeps == if ok then old(mtx.sleeps) + [FREE] else old(mtx.sleeps)
    {
      notified := false;
      ok := Check(mtx, self);
      if !ok {
        return;
      }
      var extra := mtx.recursionCount - 1;
      DropExtra(mtx, self, extra);
      NativeWait(mtx, self);
      notified := wasNotified;
      RetakeExtra(mtx, self, extra);
    }

    method DropExtra(mtx: XRecursiveMutex, self: ThreadLocks, extra: nat)
      requires self.Valid() && self.Sorted() && mtx.recursionCount == mtx.depth == extra + 1
      modifies mtx`owner, mtx`depth, mtx`recursionCount, self.levels
      ensures self.Valid() && self.Sorted() && self.Tls() == old(self.Tls())
      ensures mtx.Value() == Cell(old(mtx.owner), 1, 1)
    {
      for i := 0 to extra
        invariant self.Valid() && self.Sorted() && self.Tls() == old(self.Tls())
        invariant mtx.Value() == Cell(old(mtx.owner), extra + 1 - i, extra + 1 - i)
      {
        var _ := mtx.Unlock(self);
      }
    }

    /** Other threads lock and unlock the mutex any number of times, and then leave it so that the sleeper is admitted. */
    method OthersUse(mtx: XRecursiveMutex, self: ThreadLocks)
      requires mtx.Value() == FREE
      modifies mtx`owner, mtx`depth, mtx`recursionCount
      ensures mtx.Value() == FREE
    {
      var turns: int := *;
      for i := 0 to if turns < 0 then 0 else turns
        invariant HeldByOthers(mtx.Value(), self.id)
      {
        var t: ThreadId, locks: bool := *, *;
        if t != self.id && locks && CanEnter(mtx.Value(), t) {
          mtx.owner, mtx.depth, mtx.recursionCount := Some(t), mtx.depth + 1, mtx.recursionCount + 1;
        } else if mtx.depth > 0 {
          OtherUnlocks(mtx, self);
        }
      }
      while mtx.depth > 0
        invariant HeldByOthers(mtx.Value(), self.id)
        decreases mtx.depth
      {
        OtherUnlocks(mtx, self);
      }
    }

    method OtherUnlocks(mtx: XRecursiveMutex, self: ThreadLocks)
      requires HeldByOthers(mtx.Value(), self.id) && mtx.depth > 0
      modifies mtx`owner, mtx`depth, mtx`recursionCount
      ensures HeldByOthers(mtx.Value(), self.id) && mtx.depth == old(mtx.depth) - 1
    {
      mtx.recursionCount := mtx.recursionCount - 1;
      mtx.NativeUnlock();
    }

    /** The caller sleeps, and others go on. */
    method Sleep(mtx: XRecursiveMutex, self: ThreadLocks)
      requires self.Valid() && mtx.Value() == FREE
      modifies mtx
      ensures mtx.Value() == FREE && mtx.sleeps == old(mtx.sleeps) + [FREE]
      ensures self.Valid() && self.Tls() == old(self.Tls()) && (old(self.Sorted()) ==> self.Sorted())
    {
      mtx.sleeps := mtx.sleeps + [mtx.Value()];
      OthersUse(mtx, self);
    }

    method NativeWait(mtx: XRecursiveMutex, self: ThreadLocks)
      requires self.Valid() && self.Sorted() && NOCARE <= mtx.priLevel
      requires mtx.Value() == Cell(Some(self.id), 1, 1) && CheckPasses(mtx.priLevel, self.Tls())
      modifies mtx, self.Repr()
      ensures self.Valid() && self.Sorted() && fresh(self.Repr() - old(self.Repr()))
      ensures mtx.Value() == old(mtx.Value()) && self.Tls() == old(self.Tls())
      ensures mtx.sleeps == old(mtx.sleeps) + [FREE]
    {
      WaitOnce(mtx.priLevel, self.Tls(), self.id);
      hide AfterLock, AfterUnlock;
      var unlocked := mtx.Unlock(self);
      assert unlocked && mtx.Value() == FREE;
      Sleep(mtx, self);
      var locked := mtx.Lock(self);
      assert locked;
    }

    method RetakeExtra(mtx: XRecursiveMutex, self: ThreadLocks, extra: nat)
      requires self.Valid() && self.Sorted() && NOCARE <= mtx.priLevel
      requires mtx.Value() == Cell(Some(self.id), 1, 1)
      modifies mtx`owner, mtx`depth, mtx`recursionCount, self.Repr()
      ensures self.Valid() && fresh(self.Repr() - old(self.Repr())) && self.Tls() == old(self.Tls())
      ensures mtx.Value() == Cell(Some(self.id), extra + 1, extra + 1)
    {
      for i := 0 to extra
        invariant self.Valid() && self.Sorted() && fresh(self.Repr() - old(self.Repr())) && self.Tls() == old(self.Tls())
        invariant mtx.Value() == Cell(Some(self.id), i + 1, i + 1)
      {
        var _ := mtx.Lock(self);
      }
    }
  }
}
