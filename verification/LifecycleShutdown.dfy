/** `shutdown` reaches the socket (net/TcpConnection.cpp, lines 109 to 120, 227 to 268 and 331 to
    339): from every state in order, in every continuation, the half-close has been made, or is
    queued, or waits for output that is still being written. */
module LifecycleShutdown {
  import opened Lifecycle
  import opened LifecycleDrive
  import opened LifecycleEnding
  import opened LifecycleHandOver
  import opened LifecycleInv
  import opened LifecycleLimits
  import opened LifecycleProof
  import opened LifecycleSteps
  import opened LifecycleTheorems
  import opened LifecycleTraffic
  import opened Machine
  import opened Polling
  import opened Seqs

  /** Connection c has been closed, or has had more than n half-closes, or will have: after its
      output, or by a functor of its own loop. */
  predicate HalfClosing(s: State, c: ConnId, n: nat) {
    && c in s.conns && s.conns[c].loop < |s.loops| && |s.conns[c].halfCloses| >= n
    && (|| s.conns[c].state == Disconnected
        || (&& s.conns[c].state == Disconnecting
            && (|s.conns[c].halfCloses| > n || s.conns[c].output != []
                || ShutdownLater(c) in s.loops[s.conns[c].loop].Todo())))
  }

  // ----- every step leaves it on its way

  /** Output disappears only into the socket, and the last of it releases the half-close. */
  lemma OutputReleases(s: State, t: State, e: Event, c: ConnId)
    requires c in s.conns && c in t.conns && ConnInv(s.conns[c]) && ConnInv(t.conns[c])
    requires Adds(s, t, c, TrafficBy(s, e, c)) && s.conns[c].state == Disconnecting
    requires s.conns[c].output != [] && t.conns[c].output == []
    ensures |t.conns[c].halfCloses| > |s.conns[c].halfCloses|
  {
    var x := TrafficBy(s, e, c);
    assert |x.drained| == |s.conns[c].output| + |x.put|;
  }

  lemma OutputStays(s: State, t: State, e: Event, c: ConnId)
    requires c in s.conns && c in t.conns && ConnInv(s.conns[c]) && ConnInv(t.conns[c])
    requires Adds(s, t, c, Silence)
    ensures t.conns[c].output == s.conns[c].output
  {
    PlusSilence(TrafficOf(s, c));
    var a, b := s.conns[c], t.conns[c];
    assert (a.drained + a.output)[|a.drained|..] == a.output && (b.drained + b.output)[|b.drained|..] == b.output;
  }

  /** A queued half-close that finds output being written leaves it to handleWrite. */
  lemma TurnOfShutdown(s: State, t: State, e: Event, c: ConnId)
    requires s.Known(c) && c in t.conns && ConnInv(s.conns[c]) && ConnInv(t.conns[c])
    requires TurnOf(s, e, s.conns[c].loop, ShutdownLater(c)) && Adds(s, t, c, TrafficBy(s, e, c))
    requires s.Chan(c).IsWriting() ==> s.conns[c].output != []
    ensures |t.conns[c].halfCloses| > |s.conns[c].halfCloses| || t.conns[c].output != []
  {
    if s.Chan(c).IsWriting() {
      OutputStays(s, t, e, c);
    }
  }

  lemma HalfClosingStep(s: State, c: ConnId, n: nat, e: Event)
    requires Inv(s) && HalfClosing(s, c, n) && Benign(e)
    ensures Step(s, e).Ok? && Inv(Step(s, e).state) && HalfClosing(Step(s, e).state, c, n)
  {
    StepKeepsInv(s, e);
    StepLater(s, e);
    StepCarries(s, e, c);
    var t := Step(s, e).state;
    HalfClosingLater(s, t, e, c, n);
  }

  lemma HalfClosingLater(s: State, t: State, e: Event, c: ConnId, n: nat)
    requires Inv(s) && HalfClosing(s, c, n) && Step(s, e) == Ok(t) && Inv(t) && Later(s, t)
    requires Adds(s, t, c, TrafficBy(s, e, c))
    ensures HalfClosing(t, c, n)
  {
    assert ConnLater(s.conns[c], t.conns[c]);
    OneConn(s, c);
    OneConn(t, c);
    var a, k := s.conns[c], s.conns[c].loop;
    if t.conns[c].state == Disconnecting && |a.halfCloses| <= n {
      if a.output != [] {
        if t.conns[c].output == [] { OutputReleases(s, t, e, c); }
      } else if TurnOf(s, e, k, ShutdownLater(c)) {
        TurnOfShutdown(s, t, e, c);
      } else {
        StillQueued(s, e, k, ShutdownLater(c));
      }
    }
  }

  lemma {:induction false} HalfClosingRun(s: State, c: ConnId, n: nat, es: seq<Event>)
    requires Inv(s) && HalfClosing(s, c, n) && AllBenign(es)
    ensures Run(Step, s, es).Ok? && Inv(Run(Step, s, es).state) && HalfClosing(Run(Step, s, es).state, c, n)
    decreases |es|
  {
    if es != [] {
      HalfClosingStep(s, c, n, es[0]);
      HalfClosingRun(Step(s, es[0]).state, c, n, es[1..]);
    }
  }

  // ----- the call

  lemma ShutdownCallIs(s: State, thread: Option<LoopId>, c: ConnId)
    requires s.Known(c) && Alive(s, c) && s.conns[c].state == Connected && MayCall(s, thread)
    ensures Step(s, Call(thread, c, Shutdown)) == Ok(CommitShutdown(s, c, thread == Some(s.conns[c].loop)))
  {
  }

  /** On the connection's own thread the half-close is made at once unless output is being written;
      from another thread it is queued. */
  lemma ShutdownEffect(s: State, c: ConnId, inLoop: bool)
    requires s.Known(c)
    ensures var t, conn := CommitShutdown(s, c, inLoop), s.conns[c];
            && c in t.conns && |t.loops| == |s.loops|
            && t.conns[c] == conn.(state := Disconnecting,
                                   halfCloses := conn.halfCloses +
                                     if inLoop && !s.Chan(c).IsWriting() then [HalfClose(Disconnecting, conn.output)] else [])
            && t.loops[conn.loop].pending == s.loops[conn.loop].pending + if inLoop then [] else [ShutdownLater(c)]
  {
    assert s.conns[c].halfCloses + [] == s.conns[c].halfCloses;
    assert s.loops[s.conns[c].loop].pending + [] == s.loops[s.conns[c].loop].pending;
  }

  lemma ShutdownIsHalfClosing(s: State, thread: Option<LoopId>, c: ConnId)
    requires Inv(s) && c in s.conns && s.conns[c].state == Connected && MayCall(s, thread)
    ensures var r := Step(s, Call(thread, c, Shutdown));
            r.Ok? && Inv(r.state) && HalfClosing(r.state, c, |s.conns[c].halfCloses|)
  {
    OneConn(s, c);
    AliveUntilGone(s, c);
    ShutdownCallIs(s, thread, c);
    var inLoop := thread == Some(s.conns[c].loop);
    CommitShutdownKeepsInv(s, c, inLoop);
    ShutdownEffect(s, c, inLoop);
    var t, k := CommitShutdown(s, c, inLoop), s.conns[c].loop;
    if !inLoop {
      assert t.loops[k].pending[|s.loops[k].pending|] == ShutdownLater(c);
    }
  }

  /** A `shutdown` is not lost: from every state in order, on every thread and in every
      continuation, while the connection stays open with nothing left to write and no half-close
      queued, the socket has been half-closed since the call. */
  lemma ShutdownReachesSocket(s: State, thread: Option<LoopId>, c: ConnId, es: seq<Event>)
    requires Inv(s) && c in s.conns && s.conns[c].state == Connected && MayCall(s, thread) && AllBenign(es)
    ensures var r := Run(Step, s, [Call(thread, c, Shutdown)] + es);
            && r.Ok? && c in r.state.conns && s.conns[c].loop < |r.state.loops|
            && var conn := r.state.conns[c];
               && IsOpen(conn.state) && conn.output == []
               && ShutdownLater(c) !in r.state.loops[s.conns[c].loop].Todo()
               ==> |conn.halfCloses| > |s.conns[c].halfCloses|
  {
    ShutdownIsHalfClosing(s, thread, c);
    var t, n := Step(s, Call(thread, c, Shutdown)).state, |s.conns[c].halfCloses|;
    StepLater(s, Call(thread, c, Shutdown));
    RunCons(Step, s, Call(thread, c, Shutdown), es);
    HalfClosingRun(t, c, n, es);
    SameHome(t, es, c);
  }

  lemma {:induction false} SameHome(s: State, es: seq<Event>, c: ConnId)
    requires Inv(s) && c in s.conns && AllBenign(es)
    ensures Run(Step, s, es).Ok? && c in Run(Step, s, es).state.conns
    ensures Run(Step, s, es).state.conns[c].loop == s.conns[c].loop
    decreases |es|
  {
    if es != [] {
      StepKeepsInv(s, es[0]);
      StepLater(s, es[0]);
      SameHome(Step(s, es[0]).state, es[1..], c);
    }
  }

  // ----- a writable socket

  lemma PlainWrite()
    ensures !ClosesAndReads(POLLOUT) && Callbacks(POLLOUT) == [WriteCb]
  {
    assert !MakesClose(POLLOUT) && !Has(POLLOUT, POLLERR | POLLNVAL) && !MakesRead(POLLOUT) && Has(POLLOUT, POLLOUT);
  }

  /** Loop k is told that c's socket is writable, and the write takes n bytes. */
  function Writable(k: LoopId, c: ConnId, n: int): seq<Event> {
    [Poll(k, [Ready(c, POLLOUT)]), NextChannel(k), RunCallback(k, n)]
  }

  lemma WriteDispatched(s: State, k: LoopId, c: ConnId, pending: seq<Functor>)
    requires At(s, k, Handling([Ready(c, POLLOUT)], 0, []), None, [], pending) && Step(s, NextChannel(k)).Ok?
    ensures var t := Step(s, NextChannel(k)).state;
            OnlyLoop(s, t, k) && At(t, k, Handling([], c, [WriteCb]), None, [], pending)
  {
    PlainWrite();
    assert s.loops[k].phase.active[1..] == [];
  }

  lemma WriteCallbackIs(s: State, k: LoopId, c: ConnId, n: nat)
    requires AtStage(s, c, k, Open) && n <= |s.conns[c].output|
    requires At(s, k, Handling([], c, [WriteCb]), None, [], s.loops[k].pending)
    ensures var p := PopCallback(s, k);
            && p.Known(c) && p.conns == s.conns && p.config == s.config && |p.loops| == |s.loops|
            && p.loops[k].pending == s.loops[k].pending && p.loops[k].world == s.loops[k].world
            && Step(s, RunCallback(k, n)) == WriteReady(p, c, n)
  {
    assert LoopOwns(s.loops[k], c);
    RunningCallbackIs(s, k, n);
  }

  lemma TookFrom(s: State, p: State, u: State, c: ConnId, n: nat)
    requires Took(p, u, c, n) && p.conns == s.conns && p.config == s.config && |p.loops| == |s.loops|
    requires p.loops[s.conns[c].loop].pending == s.loops[s.conns[c].loop].pending
    ensures Took(s, u, c, n)
  {
  }

  lemma WriteCallbackTakes(s: State, k: LoopId, c: ConnId, n: nat)
    requires Inv(s) && AtStage(s, c, k, Open) && 0 < n <= |s.conns[c].output|
    requires At(s, k, Handling([], c, [WriteCb]), None, [], s.loops[k].pending)
    ensures var r := Step(s, RunCallback(k, n)); r.Ok? && Took(s, r.state, c, n)
  {
    var p := PopCallback(s, k);
    WriteCallbackIs(s, k, c, n);
    PopCallbackKeepsInv(s, k);
    OneConn(p, c);
    WriteTakes(p, c, n);
    TookFrom(s, p, WriteReady(p, c, n).state, c, n);
  }

  lemma WriteReported(inv: State -> bool, s: State, k: LoopId, c: ConnId)
    requires k < |s.loops| && Safe(inv) && inv(s) && At(s, k, AtPoll, None, [], s.loops[k].pending)
    requires PossibleReady(s.loops[k].world, [Ready(c, POLLOUT)])
    ensures var poll := Poll(k, [Ready(c, POLLOUT)]);
            && Step(s, poll).Ok? && Step(Step(s, poll).state, NextChannel(k)).Ok?
            && var t := Step(Step(s, poll).state, NextChannel(k)).state;
               inv(t) && OnlyLoop(s, t, k) && At(t, k, Handling([], c, [WriteCb]), None, [], s.loops[k].pending)
  {
    PlainWrite();
    assert Benign(Poll(k, [Ready(c, POLLOUT)])) && Benign(NextChannel(k));
    Reported(s, k, [Ready(c, POLLOUT)], s.loops[k].pending);
    WriteDispatched(Step(s, Poll(k, [Ready(c, POLLOUT)])).state, k, c, s.loops[k].pending);
  }

  /** Whenever a loop polls an open connection with output, a report that its socket is writable
      and a write of n bytes move exactly the first n bytes of the output to the socket. */
  lemma WritableDrains(s: State, k: LoopId, c: ConnId, n: nat)
    requires Inv(s) && AtRest(s, k) && s.loops[k].phase == AtPoll && OnLoop(s, c, k) && IsOpen(s.conns[c].state)
    requires 0 < n <= |s.conns[c].output|
    ensures var r := Run(Step, s, Writable(k, c, n));
            && r.Ok? && c in r.state.conns && r.state.conns[c].output == s.conns[c].output[n..]
            && r.state.conns[c].sent == s.conns[c].sent + s.conns[c].output[..n]
            && r.state.conns[c].halfCloses == s.conns[c].halfCloses +
                 if n == |s.conns[c].output| && s.conns[c].state == Disconnecting then [HalfClose(Disconnecting, [])] else []
  {
    OpenMayBeReported(s, k, c, POLLOUT);
    InvIsSafe();
    assert LoopInv(s, k);
    WriteReported(t => Inv(t), s, k, c);
    var poll := Poll(k, [Ready(c, POLLOUT)]);
    WriteCallbackTakes(Step(Step(s, poll).state, NextChannel(k)).state, k, c, n);
    RunThree(Step, s, poll, NextChannel(k), RunCallback(k, n));
  }

  // ----- and it completes

  lemma LevelBelow(l: Loop, c: ConnId)
    requires Level(l, c, 3)
    ensures Level(l, c, 2)
  {
  }

  predicate PollingWithout(s: State, k: LoopId, c: ConnId) {
    && k < |s.loops| && s.loops[k].phase == AtPoll && s.loops[k].closing == None
    && forall i :: 0 <= i < |s.loops[k].Todo()| ==> s.loops[k].Todo()[i].c != c
  }

  lemma RanDownWithout(s: State, t: State, k: LoopId, c: ConnId)
    requires k < |s.loops| && RanDown(s, t, k, c, 3) && AllAllowed(s.loops[k].pending, c, 3)
    ensures PollingWithout(t, k, c)
  {
    assert t.loops[k].Todo() == t.loops[k].pending;
    assert forall i :: 0 <= i < |t.loops[k].pending| ==> Allowed(t.loops[k].pending[i], c, 3);
  }

  /** A loop that has forgotten connection c comes to poll. */
  lemma ToPoll(s: State, k: LoopId, c: ConnId) returns (es: seq<Event>)
    requires k < |s.loops| && Level(s.loops[k], c, 3)
    ensures AllBenign(es) && (Run(Step, s, es).Ok? ==> PollingWithout(Run(Step, s, es).state, k, c))
  {
    LevelBelow(s.loops[k], c);
    if s.loops[k].phase == Calling {
      es := RunDown(s, k, c, 3);
      if Run(Step, s, es).Ok? { RanDownWithout(s, Run(Step, s, es).state, k, c); }
    } else {
      es := SwapIn(s, k, c, 3);
      if Run(Step, s, es).Ok? {
        var t := Run(Step, s, es).state;
        var rest := RunDown(t, k, c, 3);
        RunConcat(Step, s, es, rest);
        if Run(Step, t, rest).Ok? { RanDownWithout(t, Run(Step, t, rest).state, k, c); }
        es := es + rest;
      }
    }
  }

  predicate HalfClosedOrGone(s: State, c: ConnId, n: nat) {
    c in s.conns && (s.conns[c].state == Disconnected || |s.conns[c].halfCloses| > n)
  }

  lemma WritableIsBenign(k: LoopId, c: ConnId, n: int)
    ensures AllBenign(Writable(k, c, n))
  {
    PlainWrite();
  }

  lemma OutputIsLeft(s: State, k: LoopId, c: ConnId, n: nat)
    requires HalfClosing(s, c, n) && s.conns[c].loop == k && PollingWithout(s, k, c)
    ensures HalfClosedOrGone(s, c, n) || (s.conns[c].state == Disconnecting && s.conns[c].output != [])
  {
    assert ShutdownLater(c) !in s.loops[k].Todo();
  }

  /** At poll, with nothing queued, one writable report with a write of the whole output is left. */
  lemma LastReport(s: State, k: LoopId, c: ConnId, n: nat) returns (es: seq<Event>)
    requires Inv(s) && HalfClosing(s, c, n) && s.conns[c].loop == k && PollingWithout(s, k, c)
    ensures AllBenign(es) && Run(Step, s, es).Ok? && HalfClosedOrGone(Run(Step, s, es).state, c, n)
  {
    es := [];
    OutputIsLeft(s, k, c, n);
    if !HalfClosedOrGone(s, c, n) {
      var size := |s.conns[c].output|;
      es := Writable(k, c, size);
      WritableIsBenign(k, c, size);
      WritableDrains(s, k, c, size);
    }
  }

  lemma HalfClosingEnds(s: State, c: ConnId, n: nat) returns (es: seq<Event>)
    requires Inv(s) && HalfClosing(s, c, n)
    ensures AllBenign(es) && Run(Step, s, es).Ok? && HalfClosedOrGone(Run(Step, s, es).state, c, n)
  {
    var k := s.conns[c].loop;
    var forget := Forget(s, c);
    HalfClosingRun(s, c, n, forget);
    SameHome(s, forget, c);
    var rest := ForgottenEnds(Run(Step, s, forget).state, k, c, n);
    RunConcat(Step, s, forget, rest);
    es := forget + rest;
  }

  lemma ForgottenEnds(s: State, k: LoopId, c: ConnId, n: nat) returns (es: seq<Event>)
    requires Inv(s) && HalfClosing(s, c, n) && s.conns[c].loop == k && Level(s.loops[k], c, 3)
    ensures AllBenign(es) && Run(Step, s, es).Ok? && HalfClosedOrGone(Run(Step, s, es).state, c, n)
  {
    var poll := ToPoll(s, k, c);
    HalfClosingRun(s, c, n, poll);
    SameHome(s, poll, c);
    var last := LastReport(Run(Step, s, poll).state, k, c, n);
    RunConcat(Step, s, poll, last);
    es := poll + last;
  }

  /** A `shutdown` completes: from every state in order and after any continuation, the loops only
      have to run on, and the socket to take what is left, for it to be half-closed, unless the
      connection is closed before. */
  lemma ShutdownCompletes(s: State, thread: Option<LoopId>, c: ConnId, before: seq<Event>) returns (es: seq<Event>)
    requires Inv(s) && c in s.conns && s.conns[c].state == Connected && MayCall(s, thread) && AllBenign(before)
    ensures AllBenign(es)
    ensures var r := Run(Step, s, [Call(thread, c, Shutdown)] + (before + es));
            r.Ok? && HalfClosedOrGone(r.state, c, |s.conns[c].halfCloses|)
  {
    ShutdownIsHalfClosing(s, thread, c);
    var t, n := Step(s, Call(thread, c, Shutdown)).state, |s.conns[c].halfCloses|;
    HalfClosingRun(t, c, n, before);
    es := HalfClosingEnds(Run(Step, t, before).state, c, n);
    RunConcat(Step, t, before, es);
    RunCons(Step, s, Call(thread, c, Shutdown), before + es);
  }
}
