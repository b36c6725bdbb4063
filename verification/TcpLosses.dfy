/**
 What a closed connection can still deliver, and what is lost when the stream from one side ends while data for that side is
 still queued.
 */
module TcpLosses {
  import opened Base
  import opened Tcp
  import opened TcpInvariants
  import opened TcpTheorems
  import TcpFlags

  // ------------------------------------------------------------------ what a closed connection can still deliver

  /** How many chunks may at most have reached the near socket once the connection is closed. */
  function Reach(s: State): nat {
    |s.near.output| + if s.near.writeOps != [] && s.near.writeOpen then 1 else 0
  }

  ghost predicate NoFurther(s: State, s': State) {
    s'.closed && Reach(s') <= Reach(s) && Reach(Flip(s')) <= Reach(Flip(s))
  }

  lemma {:induction false} TryWriteReach(cfg: Config, s: State, index: Side)
    requires s.closed
    ensures NoFurther(s, TryWrite(cfg, s, index))
  {
  }

  /** Only these fields matter. */
  ghost predicate SameReach(s: State, s': State) {
    && s'.closed && s'.near.output == s.near.output && s'.far.output == s.far.output
    && s'.near.writeOps == s.near.writeOps && s'.far.writeOps == s.far.writeOps
    && s'.near.writeOpen == s.near.writeOpen && s'.far.writeOpen == s.far.writeOpen
  }

  lemma {:induction false} SameReachKept(s: State, s': State)
    requires SameReach(s, s')
    ensures NoFurther(s, s')
  {
  }

  lemma {:induction false} PopReach(s: State)
    requires s.closed && s.near.queue != []
    ensures SameReach(s, Resume(Pop(s))) && SameReach(s, Stop(Pop(s))) && Resume(Pop(s)).closed
  {
  }

  lemma {:induction false} NoFurtherTwice(s: State, s1: State, s2: State)
    requires NoFurther(s, s1) && NoFurther(s1, s2)
    ensures NoFurther(s, s2)
  {
  }

  lemma {:induction false} SameReachTwice(s: State, s1: State, s2: State)
    requires SameReach(s, s1) && SameReach(s1, s2)
    ensures SameReach(s, s2)
  {
  }

  lemma {:induction false} PlainReach(s: State)
    requires s.closed
    ensures NoFurther(s, s) && NoFurther(s, Stop(s)) && NoFurther(s, s.(fault := true))
  {
  }

  lemma {:induction false} WriteReach(cfg: Config, s: State, index: Side, r: Completion)
    requires s.closed
    ensures NoFurther(s, WriteHandler(cfg, s, index, r))
  {
    hide NoFurther, SameReach, TryWrite, Resume, Pop, Stop, Reach, Flip;
    PlainReach(s);
    TryWriteReach(cfg, s, index);
    if s.near.queue != [] {
      PopReach(s);
      SameReachKept(s, Resume(Pop(s)));
      SameReachKept(s, Stop(Pop(s)));
      TryWriteReach(cfg, Resume(Pop(s)), index);
      NoFurtherTwice(s, Resume(Pop(s)), TryWrite(cfg, Resume(Pop(s)), index));
    }
  }

  lemma {:induction false} FinishWriteReach(cfg: Config, s: State, r: Completion)
    requires s.closed && Flags(cfg, s) && s.near.writeOps != [] && (r == Success ==> s.near.writeOpen)
    ensures NoFurther(s, FinishWrite(s, r)) && FinishWrite(s, r).closed
  {
  }

  lemma {:induction false} FinishReadReach(s: State, r: Completion, data: seq<Byte>)
    requires s.closed && CanFill(s, data)
    ensures SameReach(s, FinishRead(s, r, data)) && FinishRead(s, r, data).closed
  {
  }

  lemma {:induction false} PushReach(cfg: Config, s: State, bytes: nat)
    requires s.closed
    ensures SameReach(s, Push(cfg, s, bytes)) && Push(cfg, s, bytes).closed
  {
  }

  lemma {:induction false} ReadReach(cfg: Config, s: State, r: Completion, bytes: nat)
    requires s.closed
    ensures SameReach(s, ReadHandler(cfg, s, r, bytes))
  {
    if r == Success {
      PushedReach(cfg, s, bytes);
      hide ReadHandler;
    }
  }

  lemma {:induction false} PushedReach(cfg: Config, s: State, bytes: nat)
    requires s.closed
    ensures SameReach(s, ReadHandler(cfg, s, Success, bytes))
  {
    hide Push;
    var s1 := Push(cfg, s, bytes);
    PushReach(cfg, s, bytes);
    var s2 := s1.(near := s1.near.(reading := false));
    assert SameReach(s1, s2) && SameReach(s1, AsyncRead(s1)) by {
      hide NewBuffer;
    }
    SameReachTwice(s, s1, s2);
    SameReachTwice(s, s1, AsyncRead(s1));
    hide SameReach, AsyncRead;
  }

  lemma {:induction false} OtherReach(cfg: Config, s: State, ev: Event)
    requires s.closed && Enabled(s, ev) && !ev.WriteDone? && !ev.ReadDone?
    ensures NoFurther(s, Step(cfg, s, ev))
  {
    hide FlushNear, HandleConnect, Store, NewBuffer;
    match ev
    case Tick(_) => SameReachKept(s, Step(cfg, s, ev));
    case ConnectDone(r) =>
      ConnectReach(s.(connecting := false, connected := r == Success), r);
      SameReachKept(s, Step(cfg, s, ev));
    case KernelFill(_, _) => SameReachKept(s, Step(cfg, s, ev));
    case OthersUseIp(_) => SameReachKept(s, Step(cfg, s, ev));
    case Passes(_) => SameReachKept(s, Step(cfg, s, ev));
    case ServerStop => SameReachKept(s, Step(cfg, s, ev));
  }

  lemma {:induction false} ConnectReach(s: State, r: Completion)
    requires s.closed
    ensures SameReach(s, HandleConnect(s, r))
  {
    hide NewBuffer;
    var s1 := AsyncRead(s.(activeTime := s.now, fullOpen := true));
    assert SameReach(s, s1);
  }

  lemma {:induction false} StepReach(cfg: Config, s: State, ev: Event)
    requires s.closed && Flags(cfg, s) && Enabled(s, ev)
    ensures NoFurther(s, Step(cfg, s, ev))
  {
    hide WriteHandler, ReadHandler, FinishRead, FinishWrite, Fill;
    match ev
    case WriteDone(i, r) =>
      var v := View(s, i);
      TcpFlags.ViewFlags(cfg, s, i);
      FinishWriteReach(cfg, v, r);
      hide Flags;
      WriteReach(cfg, FinishWrite(v, r), Other(i), r);
    case ReadDone(i, r, data) =>
      var v := View(s, i);
      var v1 := FinishRead(v, r, data);
      FinishReadReach(v, r, data);
      SameReachKept(v, v1);
      ReadReach(cfg, v1, r, |data|);
      SameReachKept(v1, ReadHandler(cfg, v1, r, |data|));
    case _ =>
      hide Flags;
      OtherReach(cfg, s, ev);
  }

  lemma {:induction false} RunReach(cfg: Config, s: State, events: seq<Event>)
    requires s.closed && Inv(cfg, s) && Run(cfg, s, events).Some?
    ensures NoFurther(s, Run(cfg, s, events).value)
    decreases |events|
  {
    if events != [] {
      hide Step, Enabled, Flags, Streams, Stamps, Budgets, Life, Reach;
      RunReach(cfg, s, Front(events));
      RunInv(cfg, s, Front(events));
      StepReach(cfg, Run(cfg, s, Front(events)).value, Last(events));
    }
  }

  /** A run followed by another is a run. */
  lemma {:induction false} Join(cfg: Config, s0: State, first: seq<Event>, second: seq<Event>)
    requires Run(cfg, s0, first).Some?
    ensures Run(cfg, s0, first + second) == Run(cfg, Run(cfg, s0, first).value, second)
    decreases |second|
  {
    hide Step, Enabled;
    if second == [] {
      assert first + second == first;
    } else {
      Join(cfg, s0, first, Front(second));
      assert Front(first + second) == first + Front(second);
    }
  }

  /** After a close, the outputs never grow beyond what the run up to it can reach. */
  lemma {:induction false} ClosedBounds(cfg: Config, now: int, ip: Pair<int>, events: seq<Event>, more: seq<Event>, i: Side)
    requires Run(cfg, Init(cfg, now, ip), events).Some? && Run(cfg, Init(cfg, now, ip), events).value.closed
    requires Run(cfg, Init(cfg, now, ip), events + more).Some?
    ensures |View(Run(cfg, Init(cfg, now, ip), events + more).value, i).near.output|
            <= Reach(View(Run(cfg, Init(cfg, now, ip), events).value, i))
  {
    var s := Run(cfg, Init(cfg, now, ip), events).value;
    hide Init, Step, Enabled, Flags, Streams, Stamps, Budgets, Life;
    Join(cfg, Init(cfg, now, ip), events, more);
    InitInv(cfg, now, ip);
    RunInv(cfg, Init(cfg, now, ip), events);
    RunReach(cfg, s, more);
    if i == 0 {
    } else {
    }
  }

  /** Everything that had been read by the time of state `then` has been written. */
  ghost predicate Delivered(s: State, before: State) {
    before.far.input <= s.near.output && before.near.input <= s.far.output
  }

  /** A read of socket i fails after the run; the states before and after it, seen from that socket. */
  ghost predicate ReadEnds(cfg: Config, now: int, ip: Pair<int>, events: seq<Event>, i: Side, data: seq<Byte>) {
    && Run(cfg, Init(cfg, now, ip), events).Some? && !Run(cfg, Init(cfg, now, ip), events).value.closed
    && Run(cfg, Init(cfg, now, ip), events + [ReadDone(i, Failed, data)]).Some?
  }

  lemma {:induction false} ReadEndStep(cfg: Config, now: int, ip: Pair<int>, events: seq<Event>, i: Side, data: seq<Byte>)
    requires ReadEnds(cfg, now, ip, events, i, data)
    ensures var b := View(Run(cfg, Init(cfg, now, ip), events).value, i);
            var a := View(Run(cfg, Init(cfg, now, ip), events + [ReadDone(i, Failed, data)]).value, i);
            && (a.closed <==> b.far.queue == [])
            && a.near.queue == b.near.queue && a.far.queue == b.far.queue && a.near.writeOps == b.near.writeOps
            && a.near.output == b.near.output && a.far.output == b.far.output
            && (a.near.writeOps != [] ==> a.near.writeOpen && a.near.queue != [] && a.near.writeOps == [a.near.queue[0]] && a.near.writing)
  {
    var all := events + [ReadDone(i, Failed, data)];
    assert Front(all) == events;
    var s0 := Reached(cfg, now, ip, events, i);
    assert WriteSide(s0);
    hide Streams, Stamps, Budgets, Flags, Life;
  }

  /** The one chunk whose write is under way may still arrive. */
  lemma {:induction false} LastArrives(cfg: Config, now: int, ip: Pair<int>, events: seq<Event>, i: Side)
    requires Run(cfg, Init(cfg, now, ip), events).Some?
    requires var a := View(Run(cfg, Init(cfg, now, ip), events).value, i);
             a.near.writeOps != [] && a.near.writeOpen && |a.near.queue| == 1 && a.near.writing && a.far.queue == [] && a.closed
             && !Run(cfg, Init(cfg, now, ip), events).value.gone
    ensures var all := events + [WriteDone(i, Success)];
            && Run(cfg, Init(cfg, now, ip), all).Some?
            && var a := View(Run(cfg, Init(cfg, now, ip), events).value, i);
               Delivered(View(Run(cfg, Init(cfg, now, ip), all).value, i), a)
  {
    var all := events + [WriteDone(i, Success)];
    assert Front(all) == events;
    var s := Run(cfg, Init(cfg, now, ip), events).value;
    LastWritten(cfg, View(s, i), Other(i));
    hide Step, WriteHandler, FinishWrite;
    var s' := Run(cfg, Init(cfg, now, ip), all).value;
    StreamIntegrity(cfg, now, ip, all, 0);
    StreamIntegrity(cfg, now, ip, all, 1);
    hide Init, Enabled;
    assert s' == View(WriteHandler(cfg, FinishWrite(View(s, i), Success), Other(i), Success), i) by {
      assert s' == Step(cfg, s, WriteDone(i, Success));
      StepOfWrite(cfg, s, i);
    }
  }

  lemma {:induction false} StepOfWrite(cfg: Config, s: State, i: Side)
    requires Enabled(s, WriteDone(i, Success))
    ensures Step(cfg, s, WriteDone(i, Success)) == View(WriteHandler(cfg, FinishWrite(View(s, i), Success), Other(i), Success), i)
  {
    hide WriteHandler, FinishWrite;
  }

  lemma {:induction false} LastWritten(cfg: Config, s: State, index: Side)
    requires s.near.writeOps != [] && |s.near.queue| == 1 && s.near.writing && s.far.queue == []
    ensures var s' := WriteHandler(cfg, FinishWrite(s, Success), index, Success);
            s'.near.queue == [] && s'.far.queue == [] && s'.near.input == s.near.input && s'.far.input == s.far.input
  {
    assert FinishWrite(s, Success).near.queue == s.near.queue && FinishWrite(s, Success).far.queue == [];
    LastPopped(cfg, FinishWrite(s, Success), index);
    hide WriteHandler;
  }

  lemma {:induction false} LastPopped(cfg: Config, s: State, index: Side)
    requires |s.near.queue| == 1 && s.near.writing && s.far.queue == []
    ensures var s' := WriteHandler(cfg, s, index, Success);
            s'.near.queue == [] && s'.far.queue == [] && s'.near.input == s.near.input && s'.far.input == s.far.input
  {
    hide Resume, Pop, TryWrite;
    PoppedSame(s);
    TriedSame(cfg, Resume(Pop(s)), index);
  }

  lemma {:induction false} PoppedSame(s: State)
    requires |s.near.queue| == 1 && s.far.queue == []
    ensures var s1 := Pop(s);
            s1.near.queue == [] && s1.far.queue == [] && s1.near.input == s.near.input && s1.far.input == s.far.input
    ensures var s1 := Resume(Pop(s));
            s1.near.queue == [] && s1.far.queue == [] && s1.near.input == s.near.input && s1.far.input == s.far.input
  {
  }

  lemma {:induction false} TriedSame(cfg: Config, s: State, index: Side)
    ensures var s1 := TryWrite(cfg, s, index);
            s1.near.queue == s.near.queue && s1.far == s.far && s1.near.input == s.near.input
  {
  }

  /**
   When a read fails (the peer has finished sending, say) on an open connection, the connection is closed at once exactly
   if nothing is queued the other way. What is queued for the failing socket can then still be delivered exactly if it is
   nothing, or one chunk whose write is already under way; otherwise it is lost, whatever happens afterwards.
   */
  lemma {:induction false} ReadEndLosesIff(cfg: Config, now: int, ip: Pair<int>, events: seq<Event>, i: Side, data: seq<Byte>)
    requires ReadEnds(cfg, now, ip, events, i, data)
    ensures var before := View(Run(cfg, Init(cfg, now, ip), events).value, i);
            var all := events + [ReadDone(i, Failed, data)];
            var after := View(Run(cfg, Init(cfg, now, ip), all).value, i);
            && (after.closed <==> before.far.queue == [])
            && (after.closed ==>
                  ((exists more :: Run(cfg, Init(cfg, now, ip), all + more).Some?
                                   && Delivered(View(Run(cfg, Init(cfg, now, ip), all + more).value, i), after))
                   <==> before.near.queue == [] || (|before.near.queue| == 1 && before.near.writeOps != [])))
  {
    var all := events + [ReadDone(i, Failed, data)];
    ReadEndStep(cfg, now, ip, events, i, data);
    var before := View(Run(cfg, Init(cfg, now, ip), events).value, i);
    var after := View(Run(cfg, Init(cfg, now, ip), all).value, i);
    if after.closed {
      StreamIntegrity(cfg, now, ip, all, 0);
      StreamIntegrity(cfg, now, ip, all, 1);
      NotGone(cfg, now, ip, events, i, data);
      hide Step, Enabled, Init, Run, Reach;
      assert |after.near.output| + |after.near.queue| == |after.far.input|;
      if before.near.queue == [] {
        assert all + [] == all;
        assert Delivered(View(Run(cfg, Init(cfg, now, ip), all + []).value, i), after);
      } else if |before.near.queue| == 1 && before.near.writeOps != [] {
        LastArrives(cfg, now, ip, all, i);
      } else {
        forall more | Run(cfg, Init(cfg, now, ip), all + more).Some?
          ensures !Delivered(View(Run(cfg, Init(cfg, now, ip), all + more).value, i), after)
        {
          ClosedBounds(cfg, now, ip, all, more, i);
          ReachIs(after);
        }
      }
    }
  }

  lemma {:induction false} ReachIs(s: State)
    ensures Reach(s) == |s.near.output| + if s.near.writeOps != [] && s.near.writeOpen then 1 else 0
  {
  }

  lemma {:induction false} NotGone(cfg: Config, now: int, ip: Pair<int>, events: seq<Event>, i: Side, data: seq<Byte>)
    requires ReadEnds(cfg, now, ip, events, i, data)
    ensures !Run(cfg, Init(cfg, now, ip), events + [ReadDone(i, Failed, data)]).value.gone
  {
    assert Front(events + [ReadDone(i, Failed, data)]) == events;
    hide Init;
  }

  // ------------------------------------------------------------------ the timeout

  lemma {:induction false} GoneIsFinal(cfg: Config, s: State, more: seq<Event>)
    requires s.gone && Run(cfg, s, more).Some?
    ensures more == []
    decreases |more|
  {
    if more != [] {
      GoneIsFinal(cfg, s, Front(more));
    }
    hide Step;
  }

  /** A tick that finds an open connection idle for too long closes and erases it; any other leaves it open. */
  lemma {:induction false} TickCloses(cfg: Config, s: State, t: int)
    requires !s.closed && !s.gone && Enabled(s, Tick(t))
    ensures var s' := Step(cfg, s, Tick(t));
            && (s'.closed <==> s.lastFlush < t && s.activeTime + cfg.timeout < t)
            && (s'.closed ==> s'.gone && s'.near.output == s.near.output && s'.far.output == s.far.output)
  {
    var s1 := s.(clock := t, now := t, lastFlush := t);
    hide FlushMsgs;
    FlushCloses(cfg, s1, (t - s.lastFlush) * cfg.bandwidth / 1000, t - cfg.timeout);
  }

  lemma {:induction false} FlushCloses(cfg: Config, s: State, bytes: int, expire: int)
    requires !s.closed
    ensures var r := FlushMsgs(cfg, s, bytes, expire);
            && (r.s.closed <==> s.activeTime < expire)
            && (r.s.closed ==> !r.alive && r.s.near.output == s.near.output && r.s.far.output == s.far.output)
  {
    FlushStaysOpen(cfg, s, 1, bytes);
    FlushStaysOpen(cfg, Flip(FlushNear(cfg, s, 1, bytes)), 0, bytes);
    hide FlushNear;
  }

  lemma {:induction false} FlushStaysOpen(cfg: Config, s: State, index: Side, bytes: int)
    ensures FlushNear(cfg, s, index, bytes).closed == s.closed
  {
  }

  /**
   When a tick finds that an open connection was last active longer ago than the timeout, half-closed or not, it is closed
   and erased, and no completion reaches it any more. What was read has then been written, in both directions, exactly if
   nothing was queued; whatever was, is lost.
   */
  lemma {:induction false} TickLosesIff(cfg: Config, now: int, ip: Pair<int>, events: seq<Event>, t: int)
    requires Run(cfg, Init(cfg, now, ip), events).Some? && !Run(cfg, Init(cfg, now, ip), events).value.closed
    requires Run(cfg, Init(cfg, now, ip), events + [Tick(t)]).Some?
    ensures var before := Run(cfg, Init(cfg, now, ip), events).value;
            var all := events + [Tick(t)];
            var after := Run(cfg, Init(cfg, now, ip), all).value;
            && (after.closed <==> before.lastFlush < t && before.activeTime + cfg.timeout < t)
            && (after.closed ==>
                  && after.near.output == before.near.output && after.far.output == before.far.output
                  && ((exists more :: Run(cfg, Init(cfg, now, ip), all + more).Some?
                                      && Delivered(Run(cfg, Init(cfg, now, ip), all + more).value, before))
                      <==> before.near.queue == [] && before.far.queue == []))
  {
    var s0 := Init(cfg, now, ip);
    var all := events + [Tick(t)];
    assert Front(all) == events && Last(all) == Tick(t);
    var before, after := Run(cfg, s0, events).value, Run(cfg, s0, all).value;
    StreamIntegrity(cfg, now, ip, events, 0);
    StreamIntegrity(cfg, now, ip, events, 1);
    TickCloses(cfg, before, t);
    OutputsExact(before);
    hide Init, Step, Enabled, Run, Payloads;
    if after.closed {
      forall more | Run(cfg, s0, all + more).Some? ensures Run(cfg, s0, all + more) == Some(after) {
        Join(cfg, s0, all, more);
        GoneIsFinal(cfg, after, more);
        assert all + [] == all;
      }
      assert all + [] == all;
      assert Run(cfg, s0, all + []) == Some(after);
    }
  }

  lemma {:induction false} OutputsExact(s: State)
    requires s.near.output + Payloads(s.memory, s.near.queue) == s.far.input
    requires s.far.output + Payloads(s.memory, s.far.queue) == s.near.input
    ensures Delivered(s, s) <==> s.near.queue == [] && s.far.queue == []
  {
    assert |s.far.input| == |s.near.output| + |s.near.queue| && |s.near.input| == |s.far.output| + |s.far.queue|;
    hide Payload;
  }

  /** A concrete loss: the server has answered, the client stops sending, and whatever happens, the answer never arrives. */
  lemma {:induction false} AnswerLost(cfg: Config, now: int, ip: Pair<int>, answer: Byte, more: seq<Event>)
    ensures var events := [ConnectDone(Success), ReadDone(1, Success, [answer]), ReadDone(0, Failed, [])];
            && Run(cfg, Init(cfg, now, ip), events).Some?
            && var s := Run(cfg, Init(cfg, now, ip), events).value;
               && s.closed && s.far.input == [[answer]] && s.near.output == []
               && (Run(cfg, Init(cfg, now, ip), events + more).Some? ==>
                     Run(cfg, Init(cfg, now, ip), events + more).value.near.output == [])
  {
    AnswerQueued(cfg, now, ip, answer);
    var events := [ConnectDone(Success), ReadDone(1, Success, [answer]), ReadDone(0, Failed, [])];
    hide Init, Step, Enabled, Run;
    if Run(cfg, Init(cfg, now, ip), events + more).Some? {
      ClosedBounds(cfg, now, ip, events, more, 0);
    }
  }

  lemma {:induction false} AnswerQueued(cfg: Config, now: int, ip: Pair<int>, answer: Byte)
    ensures var events := [ConnectDone(Success), ReadDone(1, Success, [answer]), ReadDone(0, Failed, [])];
            && Run(cfg, Init(cfg, now, ip), events).Some?
            && var s := Run(cfg, Init(cfg, now, ip), events).value;
               s.closed && s.far.input == [[answer]] && s.near.output == [] && s.near.writeOps == []
  {
    var e1, e2, e3 := ConnectDone(Success), ReadDone(1, Success, [answer]), ReadDone(0, Failed, []);
    assert Front([e1, e2, e3]) == [e1, e2] && Front([e1, e2]) == [e1] && Front([e1]) == [];
    var s0 := Init(cfg, now, ip);
    var s1 := Step(cfg, s0, e1);
    assert Run(cfg, s0, [e1]) == Some(s1);
    assert s1.near.readOps == [0] && s1.far.readOps == [1] && |s1.memory| == 2 && !s1.closed && !s1.gone;
    assert s1.near.queue == [] && s1.far.queue == [] && s1.near.output == [] && s1.far.input == [];
    var s2 := Step(cfg, s1, e2);
    assert Run(cfg, s0, [e1, e2]) == Some(s2);
    assert s2.near.readOps == [0] && |s2.near.queue| == 1 && s2.far.queue == [] && !s2.closed && !s2.gone && s2.far.input == [[answer]];
    assert Run(cfg, s0, [e1, e2, e3]) == Some(Step(cfg, s2, e3));
  }
}
