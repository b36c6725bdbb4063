/**
 The class TcpConnection of src/tcp_proxy.cpp as an object whose handlers update its fields, proved to change them as
 the functions of module Tcp say.
 */
module TcpObjects {
  import opened Base
  import opened TokenBucket
  import opened Tcp

  /** Lines 117-129: the client's own budget after the head was charged to it, if that may be written. */
  function Asked(cfg: Config, s: State, index: Side): State {
    var limited := cfg.ipLimit.At(index) > 0;
    s.(ip := if MayWrite(cfg, s, index) && limited then s.ip.With(index, s.ip.At(index) - Cost(s.near.queue[0])) else s.ip,
       fault := s.fault || (HeadReady(s) && limited && !s.hasIp))
  }

  /** Lines 130-137: the write of m is under way and charged to the connection. */
  function Started(cfg: Config, s: State, m: Msg): State {
    var k := s.near;
    s.(near := if cfg.bandwidth > 0
               then k.(writeOps := k.writeOps + [m], writeOpen := !s.closed, avail := k.avail - Cost(m), ledger := Charged(k.ledger, Cost(m), s.now), writing := true)
               else k.(writeOps := k.writeOps + [m], writeOpen := !s.closed, writing := true))
  }

  /** Line 141. */
  function Idle(s: State): State {
    s.(near := s.near.(writing := false))
  }

  lemma {:induction false} TryWriteIs(cfg: Config, s: State, index: Side)
    ensures TryWrite(cfg, s, index)
            == if MayWrite(cfg, s, index) then Started(cfg, Asked(cfg, s, index), s.near.queue[0]) else Idle(Asked(cfg, s, index))
  {
  }

  class TcpConnection {
    const cfg: Config

    // the members of the class
    var closeFlag: bool
    var fullOpen: bool
    var activeTime: int
    var hasClientIp: bool
    var recvBuf: Pair<BufId>
    var msgQueue: Pair<seq<Msg>>
    var available: Pair<int>
    var writingFlag: Pair<bool>
    var readingFlag: Pair<bool>

    // the proxy's clock values, the sockets and the client's own budget
    var now: int
    var lastFlush: int
    var clock: int
    var connecting: bool
    var connected: bool
    var readOps: Pair<seq<BufId>>
    var writeOps: Pair<seq<Msg>>
    var writeOpen: Pair<bool>
    var ended: Pair<bool>
    var memory: seq<seq<Byte>>
    var ip: Pair<int>
    var gone: bool
    var fault: bool

    ghost var input: Pair<seq<seq<Byte>>>
    ghost var output: Pair<seq<seq<Byte>>>
    ghost var ledger: Pair<Ledger>

    ghost function SockOf(i: Side): Sock
      reads this`recvBuf, this`msgQueue, this`available, this`writingFlag, this`readingFlag, this`readOps, this`writeOps
      reads this`writeOpen, this`ended, this`input, this`output, this`ledger
    {
      Sock(recvBuf.At(i), msgQueue.At(i), available.At(i), writingFlag.At(i), readingFlag.At(i),
           readOps.At(i), writeOps.At(i), writeOpen.At(i), ended.At(i), input.At(i), output.At(i), ledger.At(i))
    }

    /** The connection as a value, seen from socket i. */
    ghost function From(i: Side): State
      reads this
    {
      State(SockOf(i), SockOf(Other(i)), closeFlag, fullOpen, activeTime, hasClientIp, now, lastFlush, clock,
            connecting, connected, memory, ip, gone, fault)
    }

    lemma {:induction false} FlipFrom()
      ensures From(1) == Flip(From(0)) && From(0) == Flip(From(1))
    {
    }

    constructor (cfg: Config, now: int, ip: Pair<int>)
      ensures this.cfg == cfg && From(0) == Init(cfg, now, ip)
    {
      this.cfg := cfg;
      closeFlag, fullOpen, activeTime, hasClientIp := false, false, now, Limited(cfg);
      recvBuf, msgQueue, available := Pair(0, 0), Pair([], []), Pair(0, 0);
      writingFlag, readingFlag := Pair(false, false), Pair(true, true);
      this.now, lastFlush, clock, connecting, connected := now, now, now, true, false;
      readOps, writeOps, writeOpen, ended, memory := Pair([], []), Pair([], []), Pair(true, true), Pair(false, false), [];
      this.ip, gone, fault := ip, false, false;
      input, output, ledger := Pair([], []), Pair([], []), Pair(NEW_LEDGER, NEW_LEDGER);
    }

    method Stop()
      modifies this
      ensures From(0) == Tcp.Stop(old(From(0))) && From(1) == Tcp.Stop(old(From(1)))
    {
      hide SockOf;
      closeFlag := true;
    }

    method AsyncRead(i: Side)
      modifies this
      ensures From(i) == Tcp.AsyncRead(old(From(i)))
    {
      recvBuf := recvBuf.With(i, |memory|);
      readOps := readOps.With(i, readOps.At(i) + [|memory|]);
      memory := memory + [NewBuffer()];
    }

    method SetWriting(i: Side, writing: bool)
      modifies this
      ensures From(i) == old(From(i)).(near := old(From(i)).near.(writing := writing))
    {
      writingFlag := writingFlag.With(i, writing);
      if i == 0 {
      } else {
      }
    }

    /** Line 135. */
    method Charge(i: Side, amount: int)
      modifies this
      ensures var k := old(From(i)).near;
              From(i) == old(From(i)).(near := k.(avail := k.avail - amount, ledger := Charged(k.ledger, amount, old(From(i)).now)))
    {
      available := available.With(i, available.At(i) - amount);
      ledger := ledger.With(i, Charged(ledger.At(i), amount, now));
      if i == 0 {
      } else {
      }
    }

    /** Lines 130-132. */
    method AsyncWrite(i: Side, m: Msg)
      modifies this
      ensures var k := old(From(i)).near;
              From(i) == old(From(i)).(near := k.(writeOps := k.writeOps + [m], writeOpen := !old(From(i)).closed))
    {
      ClosedFrom(i);
      hide From;
      AddWrite(i, m);
      MarkOpen(i, !closeFlag);
    }

    lemma {:induction false} ClosedFrom(i: Side)
      ensures From(i).closed == closeFlag
    {
    }

    method AddWrite(i: Side, m: Msg)
      modifies this`writeOps
      ensures var k := old(From(i)).near;
              From(i) == old(From(i)).(near := k.(writeOps := k.writeOps + [m]))
    {
      writeOps := writeOps.With(i, writeOps.At(i) + [m]);
      if i == 0 {
      } else {
      }
    }

    method MarkOpen(i: Side, open: bool)
      modifies this`writeOpen
      ensures From(i) == old(From(i)).(near := old(From(i)).near.(writeOpen := open))
    {
      writeOpen := writeOpen.With(i, open);
      if i == 0 {
      } else {
      }
    }

    /** Lines 117-129: ask the client's own budget, if it is limited, and charge it. */
    method AskClientBudget(i: Side, index: Side, amount: int) returns (ok: bool)
      modifies this`ip, this`fault
      ensures var s := old(From(i));
              var limited := cfg.ipLimit.At(index) > 0;
              && (ok <==> !limited || (s.hasIp && s.ip.At(index) >= 0))
              && From(i) == s.(ip := if ok && limited then s.ip.With(index, s.ip.At(index) - amount) else s.ip,
                               fault := s.fault || (limited && !s.hasIp))
    {
      hide SockOf;
      ok := true;
      if cfg.ipLimit.At(index) > 0 {
        if !hasClientIp {
          fault := true;
          ok := false;
        } else if ip.At(index) >= 0 {
          ip := ip.With(index, ip.At(index) - amount);
        } else {
          ok := false;
        }
      }
    }

    /** Lines 130-137. */
    method StartWrite(i: Side, m: Msg)
      modifies this
      ensures From(i) == Started(cfg, old(From(i)), m)
    {
      hide From, SockOf;
      AsyncWrite(i, m);
      if cfg.bandwidth > 0 {
        Charge(i, m.size + TCP_PACKET_EXTRA_OVERHEAD);
      }
      SetWriting(i, true);
    }

    /** Lines 112-142. */
    method WriteHead(i: Side)
      modifies this
      ensures From(i) == TryWrite(cfg, old(From(i)), Other(i))
    {
      QueueFrom(i);
      TryWriteIs(cfg, From(i), Other(i));
      hide From, TryWrite, MayWrite, Started, Idle, Asked;
      var go := AskBudgets(i);
      if go {
        StartWrite(i, msgQueue.At(i)[0]);
      } else {
        StopWriting(i);
      }
    }

    method StopWriting(i: Side)
      modifies this
      ensures From(i) == Idle(old(From(i)))
    {
      SetWriting(i, false);
    }

    /** Lines 112-129. */
    method AskBudgets(i: Side) returns (go: bool)
      modifies this
      ensures go == MayWrite(cfg, old(From(i)), Other(i))
      ensures msgQueue.At(i) == old(From(i)).near.queue && (go ==> msgQueue.At(i) != [])
      ensures From(i) == Asked(cfg, old(From(i)), Other(i))
    {
      var q := msgQueue.At(i);
      go := q != [] && available.At(i) >= 0 && q[0].due <= now;
      assert go == HeadReady(From(i)) && q == From(i).near.queue;
      hide SockOf;
      if go {
        go := AskClientBudget(i, Other(i), q[0].size + TCP_PACKET_EXTRA_OVERHEAD);
      }
      assert From(i).near.queue == q;
      QueueFrom(i);
    }

    lemma {:induction false} QueueFrom(i: Side)
      ensures From(i).near.queue == msgQueue.At(i)
    {
    }

    method HandleWrite(i: Side, r: Completion)
      modifies this
      ensures From(i) == WriteHandler(cfg, old(From(i)), Other(i), r)
    {
      if r != Success {
        if r == Failed {
          StopFrom(i);
        }
        return;
      }
      if writingFlag.At(i) {
        if msgQueue.At(i) == [] {
          fault := true;
          return;
        }
        PopFrom(i);
        if !fullOpen && msgQueue.At(i) == [] && msgQueue.At(Other(i)) == [] {
          StopFrom(i);
          return;
        }
        if !readingFlag.At(Other(i)) {
          ResumeFrom(i);
        }
      }
      WriteHead(i);
    }

    method StopFrom(i: Side)
      modifies this
      ensures From(i) == Tcp.Stop(old(From(i)))
    {
      Stop();
      hide SockOf;
    }

    method PopFrom(i: Side)
      requires msgQueue.At(i) != []
      modifies this
      ensures From(i) == Pop(old(From(i)))
    {
      msgQueue := msgQueue.With(i, msgQueue.At(i)[1..]);
      if i == 0 {
      } else {
      }
    }

    /** Lines 108-109. */
    method ResumeFrom(i: Side)
      requires !readingFlag.At(Other(i))
      modifies this
      ensures From(i) == Resume(old(From(i)))
    {
      readingFlag := readingFlag.With(Other(i), true);
      AsyncRead(Other(i));
      if i == 0 {
      } else {
      }
    }

    method Opens()
      modifies this`activeTime, this`fullOpen
      ensures From(0) == old(From(0)).(activeTime := old(now), fullOpen := true)
    {
      hide SockOf;
      activeTime, fullOpen := now, true;
    }

    method HandleConnect(r: Completion)
      modifies this
      ensures From(0) == Tcp.HandleConnect(old(From(0)), r)
    {
      if r != Success {
        if r == Failed {
          Stop();
        }
        return;
      }
      Opens();
      hide Tcp.AsyncRead, From;
      AsyncRead(0);
      FlipFrom();
      AsyncRead(1);
      FlipFrom();
    }

    method HandleRead(i: Side, r: Completion, bytes: nat)
      modifies this
      ensures From(i) == ReadHandler(cfg, old(From(i)), r, bytes)
    {
      if r != Success {
        if r == Failed {
          if msgQueue.At(Other(i)) != [] {
            fullOpen := false;
          } else {
            Stop();
          }
        }
        return;
      }
      PushFrom(i, bytes);
      if |msgQueue.At(Other(i))| > MAX_TCP_MSG_QUEUE_SIZE {
        StopReading(i);
        return;
      }
      AsyncRead(i);
    }

    /** Lines 182-187. */
    method PushFrom(i: Side, bytes: nat)
      modifies this
      ensures From(i) == Push(cfg, old(From(i)), bytes)
    {
      if fullOpen {
        activeTime := now;
      }
      var msg := Msg(activeTime + cfg.delay, recvBuf.At(i), bytes, clock, now, fullOpen);
      msgQueue := msgQueue.With(Other(i), msgQueue.At(Other(i)) + [msg]);
      if i == 0 {
      } else {
      }
    }

    method StopReading(i: Side)
      modifies this
      ensures From(i) == old(From(i)).(near := old(From(i)).near.(reading := false))
    {
      readingFlag := readingFlag.With(i, false);
      if i == 0 {
      } else {
      }
    }

    method FlushMsgs(bytes: int, expire: int) returns (alive: bool)
      modifies this
      ensures FlushResult(alive, From(0)) == Tcp.FlushMsgs(cfg, old(From(0)), bytes, expire)
    {
      if closeFlag {
        return false;
      }
      if activeTime < expire {
        Stop();
        return false;
      }
      if !fullOpen && msgQueue.At(0) == [] && msgQueue.At(1) == [] {
        return true;
      }
      hide FlushNear, From;
      FlushSide(0, bytes);
      FlipFrom();
      FlushSide(1, bytes);
      FlipFrom();
      return true;
    }

    /** TcpProxy::handleWait for this connection: lines 311-331. */
    method Tick(t: int)
      modifies this
      ensures From(0) == HandleTick(cfg, old(From(0)), t)
    {
      LastFlushFrom();
      hide From, SockOf, Tcp.FlushMsgs;
      var interval := t - lastFlush;
      SetClock(t);
      if interval > 0 {
        var alive := FlushMsgs(interval * cfg.bandwidth / 1000, t - cfg.timeout);
        SetGone(!alive);
      }
    }

    lemma {:induction false} LastFlushFrom()
      ensures From(0).lastFlush == lastFlush
    {
    }

    method SetClock(t: int)
      modifies this`now, this`lastFlush
      ensures From(0) == if t <= old(lastFlush) then old(From(0)).(now := t) else old(From(0)).(now := t, lastFlush := t)
    {
      hide SockOf;
      now := t;
      if t > lastFlush {
        lastFlush := t;
      }
    }

    method SetGone(gone: bool)
      modifies this
      ensures From(0) == old(From(0)).(gone := gone) && this.gone == gone
    {
      hide SockOf;
      this.gone := gone;
    }

    /** Lines 72-75. */
    method Refill(i: Side, bytes: int)
      modifies this
      ensures From(i) == RefillNear(cfg, old(From(i)), bytes)
    {
      if cfg.bandwidth > 0 && available.At(i) < 0 {
        ledger := ledger.With(i, Refilled(ledger.At(i), available.At(i), bytes));
        available := available.With(i, available.At(i) + bytes);
      }
      if i == 0 {
      } else {
      }
    }

    /** One turn of the loop in flushMsgs. */
    method FlushSide(i: Side, bytes: int)
      modifies this
      ensures From(i) == FlushNear(cfg, old(From(i)), Other(i), bytes)
    {
      Refill(i, bytes);
      ghost var refilled := From(i);
      if !writingFlag.At(i) {
        HandleWrite(i, Success);
        assert WriteHandler(cfg, refilled, Other(i), Success) == TryWrite(cfg, refilled, Other(i));
      }
    }
  }

  /** The elements of a list whose entry in `keep` is true, in order. */
  function Select<T>(s: seq<T>, keep: seq<bool>): seq<T>
    requires |s| == |keep|
    decreases |s|
  {
    if s == [] then []
    else Select(Front(s), Front(keep)) + if Last(keep) then [Last(s)] else []
  }

  /** The list of connections of a TcpProxy and its periodic tick (src/tcp_proxy.cpp:299-333). */
  class TcpProxy {
    const cfg: Config
    var connections: seq<TcpConnection>

    ghost predicate Valid()
      reads this, connections
    {
      && Unique(connections)
      && (forall j | 0 <= j < |connections| :: connections[j].cfg == cfg)
    }

    constructor (cfg: Config)
      ensures Valid() && connections == [] && this.cfg == cfg
    {
      this.cfg := cfg;
      connections := [];
    }

    /** Every connection takes one tick; those whose flush fails leave the list, the others keep their order. */
    method HandleWait(t: int) returns (ghost keep: seq<bool>)
      requires Valid()
      modifies this, connections
      ensures Valid()
      ensures |keep| == |old(connections)|
      ensures forall j | 0 <= j < |keep| ::
                && old(connections)[j].From(0) == HandleTick(cfg, old(connections[j].From(0)), t)
                && keep[j] == !old(connections)[j].gone
      ensures connections == Select(old(connections), keep)
    {
      var all := connections;
      var kept: seq<TcpConnection> := [];
      keep := [];
      hide HandleTick, TcpConnection.From, Select;
      SelectNothing(all);
      for j := 0 to |all|
        invariant |keep| == j && kept == Select(all[..j], keep)
        invariant forall k | 0 <= k < j :: Ticked(all[k], old(all[k].From(0)), t) && keep[k] == !all[k].gone
        invariant forall k | j <= k < |all| :: all[k].From(0) == old(all[k].From(0))
      {
        var c := all[j];
        assert forall k | 0 <= k < |all| && k != j :: all[k] != c;
        c.Tick(t);
        SelectNext(all, j, keep, !c.gone);
        keep := keep + [!c.gone];
        if !c.gone {
          kept := kept + [c];
        }
      }
      assert all[..|all|] == all;
      SelectSubset(all, keep);
      connections := kept;
      assert forall j | 0 <= j < |kept| :: kept[j] in kept;
    }

    /** c was s before its tick. */
    ghost predicate Ticked(c: TcpConnection, s: State, t: int)
      reads c
    {
      c.From(0) == HandleTick(cfg, s, t)
    }
  }

  predicate Unique<T(==)>(s: seq<T>) {
    forall j, k | 0 <= j < k < |s| :: s[j] != s[k]
  }

  lemma {:induction false} SelectNothing<T>(s: seq<T>)
    ensures Select(s[..0], []) == []
  {
    assert s[..0] == [];
  }

  lemma {:induction false} SelectNext<T>(s: seq<T>, j: nat, keep: seq<bool>, b: bool)
    requires |keep| == j < |s|
    ensures Select(s[..j + 1], keep + [b]) == Select(s[..j], keep) + if b then [s[j]] else []
  {
    assert Front(s[..j + 1]) == s[..j] && Front(keep + [b]) == keep;
  }

  /** What is selected was in the list, and is there once if everything in the list was. */
  lemma {:induction false} SelectSubset<T>(s: seq<T>, keep: seq<bool>)
    requires |s| == |keep|
    ensures forall x | x in Select(s, keep) :: x in s
    ensures Unique(s) ==> Unique(Select(s, keep))
    decreases |s|
  {
    if s != [] {
      SelectSubset(Front(s), Front(keep));
      assert s == Front(s) + [Last(s)];
      assert Unique(s) ==> Unique(Front(s)) && Last(s) !in Front(s);
    }
  }
}
