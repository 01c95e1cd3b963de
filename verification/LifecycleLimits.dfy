/** Where the connection code does not do what it is evidently meant to, and exactly when it does. */
module LifecycleLimits {
  import opened Endian
  import opened Lifecycle
  import opened LifecycleInv
  import opened LifecycleProof
  import opened LifecycleSteps
  import opened LifecycleTheorems
  import opened Machine
  import opened Polling
  import opened Seqs

  // ----- sendInLoop

  /** What the peer will have received once the output buffer is drained. */
  function Stream(conn: Conn): seq<Byte> {
    conn.sent + conn.output
  }

  /** sendInLoop extends the stream by exactly its message if and only if the message is empty,
      or the connection is idle and the write takes nothing and does not fail: bytes the socket
      takes at once are made up for by bytes from beyond the message, and a message that finds
      the connection busy is dropped. */
  lemma SendConserves(conn: Conn, writing: bool, message: seq<Byte>, io: Io)
    requires PossibleSend(io, message)
    ensures Stream(SendConn(conn, writing, message, io).0) == Stream(conn) + message <==>
            || message == []
            || (conn.state != Disconnected && !writing && conn.output == [] && !io.fault && io.n <= 0)
  {
    var sent := SendConn(conn, writing, message, io).0;
    if message == [] {
      assert Stream(conn) + message == Stream(conn);
      assert io.n >= 0 ==> message[..io.n] == [];
      assert sent == conn.(sent := conn.sent + []) || sent == conn;
    } else if conn.state == Disconnected || writing || conn.output != [] || io.fault {
      assert |Stream(sent)| < |Stream(conn) + message|;
    } else if io.n > 0 {
      assert |Stream(sent)| > |Stream(conn) + message|;
    } else {
      assert sent.sent == conn.sent && sent.output == message;
    }
  }

  // ----- a hang-up that closes and reads

  function Dispatching(s: State, k: LoopId, c: ConnId, callbacks: seq<Callback>): State
    requires k < |s.loops|
  {
    SetLoop(s, k, s.loops[k].(phase := Handling([], c, callbacks)))
  }

  /** What is left to dispatch after the close callback. */
  function AfterClose(m: Mask): seq<Callback> {
    When(Has(m, POLLERR | POLLNVAL), ErrorCb) + [ReadCb] + When(Has(m, POLLOUT), WriteCb)
  }

  lemma HangUpCallbacks(m: Mask)
    requires ClosesAndReads(m)
    ensures Callbacks(m) == [CloseCb] + AfterClose(m)
  {
    ReadBits(m);
  }

  lemma HangUpReported(s: State, k: LoopId, c: ConnId, m: Mask)
    requires AtRest(s, k) && s.loops[k].phase == AtPoll && s.InMap(c)
    requires exists fd :: fd in s.loops[k].world.poller.kernel && s.loops[k].world.poller.kernel[fd].ptr == c
    ensures var t := Step(s, Poll(k, [Ready(c, m)]));
            t.Ok? && Step(t.state, NextChannel(k)) == Ok(Dispatching(s, k, c, Callbacks(m)))
  {
    var t := Step(s, Poll(k, [Ready(c, m)])).state;
    assert t == SetLoop(s, k, s.loops[k].(phase := Handling([Ready(c, m)], 0, [])));
    assert t.InMap(c) && Alive(t, c) && t.loops[k].phase.active[1..] == [];
    UpdateTwice(s.loops, k, t.loops[k], s.loops[k].(phase := Handling([], c, Callbacks(m))));
  }

  lemma FirstClose(s: State, k: LoopId, c: ConnId, rest: seq<Callback>, w: World<ConnId>)
    requires AtRest(s, k) && s.Known(c) && s.conns[c].loop == k && IsOpen(s.conns[c].state)
    requires SetMask(s.loops[k].world, c, NONE_EVENT) == Ok(w)
    ensures var t := Dispatching(s, k, c, rest);
            t.Known(c) && Step(Dispatching(s, k, c, [CloseCb] + rest), RunCallback(k, 0)) == Ok(Closed(t, c, w))
  {
    var d, t := Dispatching(s, k, c, [CloseCb] + rest), Dispatching(s, k, c, rest);
    assert LoopOwns(d.loops[k], c);
    RunningCallbackIs(d, k, 0);
    UpdateTwice(s.loops, k, d.loops[k], t.loops[k]);
    assert ([CloseCb] + rest)[1..] == rest;
    assert PopCallback(d, k) == t;
    CloseConnIs(t, c, w);
  }

  /** Loop k has still to dispatch `rest` to the connection it has closed. */
  predicate ClosedBefore(s: State, k: LoopId, c: ConnId, rest: seq<Callback>) {
    && AtRest(s, k) && s.loops[k].phase == Handling([], c, rest)
    && s.Known(c) && s.conns[c].loop == k && s.conns[c].state == Disconnected
  }

  lemma FirstCloseDone(s: State, k: LoopId, c: ConnId, rest: seq<Callback>)
    requires k < |s.loops| && s.loops[k].closing == Some(c) && s.loops[k].phase == Handling([], c, rest)
    requires s.Known(c) && s.conns[c].loop == k && s.InMap(c) && s.conns[c].state == Disconnected
    ensures var t := Step(s, FinishClose(k)); t.Ok? && ClosedBefore(t.state, k, c, rest)
  {
    assert LoopOwns(s.loops[k], c);
  }

  lemma ErrorSkipped(s: State, k: LoopId, c: ConnId, rest: seq<Callback>)
    requires ClosedBefore(s, k, c, [ErrorCb] + rest)
    ensures var t := Step(s, RunCallback(k, 0)); t.Ok? && ClosedBefore(t.state, k, c, rest)
  {
    assert LoopOwns(s.loops[k], c);
    assert ([ErrorCb] + rest)[1..] == rest;
    RunningCallbackIs(s, k, 0);
  }

  lemma SecondCloseAborts(s: State, k: LoopId, c: ConnId, rest: seq<Callback>)
    requires ClosedBefore(s, k, c, [ReadCb] + rest)
    ensures Step(s, RunCallback(k, 0)) == Abort("net/TcpConnection.cpp:295")
  {
    assert LoopOwns(s.loops[k], c);
    RunningCallbackIs(s, k, 0);
  }

  /** The dispatch after the close: over a possible error callback to the read. */
  function ReadAgain(k: LoopId, m: Mask): seq<Event> {
    if Has(m, POLLERR | POLLNVAL) then [RunCallback(k, 0), RunCallback(k, 0)] else [RunCallback(k, 0)]
  }

  lemma ReadAgainAborts(s: State, k: LoopId, c: ConnId, m: Mask)
    requires ClosedBefore(s, k, c, AfterClose(m))
    ensures Run(Step, s, ReadAgain(k, m)) == Abort("net/TcpConnection.cpp:295")
  {
    var write := When(Has(m, POLLOUT), WriteCb);
    if Has(m, POLLERR | POLLNVAL) {
      Assoc([ErrorCb], [ReadCb], write);
      ErrorSkipped(s, k, c, [ReadCb] + write);
      SecondCloseAborts(Step(s, RunCallback(k, 0)).state, k, c, write);
      RunTwo(Step, s, RunCallback(k, 0), RunCallback(k, 0));
    } else {
      assert AfterClose(m) == [ReadCb] + write;
      SecondCloseAborts(s, k, c, write);
      assert [RunCallback(k, 0)][1..] == [];
    }
  }

  predicate AllBenign(es: seq<Event>) {
    forall i :: 0 <= i < |es| ==> Benign(es[i])
  }

  function Report(k: LoopId, c: ConnId, m: Mask): seq<Event> {
    [Poll(k, [Ready(c, m)]), NextChannel(k)]
  }

  lemma HangUpAborts(s: State, k: LoopId, c: ConnId, m: Mask)
    requires Inv(s) && AtRest(s, k) && s.loops[k].phase == AtPoll && OnLoop(s, c, k) && IsOpen(s.conns[c].state)
    requires ClosesAndReads(m)
    ensures Run(Step, s, Report(k, c, m) + ([RunCallback(k, 0), FinishClose(k)] + ReadAgain(k, m)))
            == Abort("net/TcpConnection.cpp:295")
  {
    var w := OpenIsWatched(s, k, c);
    HangUpReported(s, k, c, m);
    HangUpCallbacks(m);
    RunTwo(Step, s, Poll(k, [Ready(c, m)]), NextChannel(k));
    var d := Dispatching(s, k, c, Callbacks(m));
    DispatchAborts(s, k, c, m, w);
    RunConcat(Step, s, Report(k, c, m), [RunCallback(k, 0), FinishClose(k)] + ReadAgain(k, m));
  }

  lemma DispatchAborts(s: State, k: LoopId, c: ConnId, m: Mask, w: World<ConnId>)
    requires AtRest(s, k) && s.Known(c) && s.conns[c].loop == k && IsOpen(s.conns[c].state) && s.InMap(c)
    requires SetMask(s.loops[k].world, c, NONE_EVENT) == Ok(w)
    ensures Run(Step, Dispatching(s, k, c, [CloseCb] + AfterClose(m)),
                [RunCallback(k, 0), FinishClose(k)] + ReadAgain(k, m)) == Abort("net/TcpConnection.cpp:295")
  {
    var d := Dispatching(s, k, c, [CloseCb] + AfterClose(m));
    FirstClose(s, k, c, AfterClose(m), w);
    var t := Closed(Dispatching(s, k, c, AfterClose(m)), c, w);
    FirstCloseDone(t, k, c, AfterClose(m));
    ReadAgainAborts(Step(t, FinishClose(k)).state, k, c, m);
    RunTwo(Step, d, RunCallback(k, 0), FinishClose(k));
    RunConcat(Step, d, [RunCallback(k, 0), FinishClose(k)], ReadAgain(k, m));
  }

  lemma OpenIsWatched(s: State, k: LoopId, c: ConnId) returns (w: World<ConnId>)
    requires Inv(s) && OnLoop(s, c, k) && IsOpen(s.conns[c].state)
    ensures s.Known(c) && s.InMap(c) && SetMask(s.loops[k].world, c, NONE_EVENT) == Ok(w) && c in w.chans
    ensures exists fd :: fd in s.loops[k].world.poller.kernel && s.loops[k].world.poller.kernel[fd].ptr == c
  {
    assert ConnInv(s.conns[c]) && (s.InMap(c) <==> Mapped(s.conns[c].stage));
    OneInterest(s, c);
    w := CloseWorlds(s, c);
  }

  /** From any state in order, benign events never abort. */
  lemma BenignRunsOn(s: State, es: seq<Event>)
    requires Inv(s) && AllBenign(es)
    ensures Run(Step, s, es).Ok? && Inv(Run(Step, s, es).state)
  {
    forall t, e | Inv(t) && Benign(e) ensures Step(t, e).Ok? && Inv(Step(t, e).state) {
      StepKeepsInv(t, e);
    }
    RunKeepsOn(Step, t => Inv(t), e => Benign(e), s, es);
  }

  /** The hypothesis on the kernel is exact, mask by mask: whenever a loop polls an open
      connection, reporting mask m can make handleClose's assertion fail, by whatever happens
      next, if and only if m makes one dispatch both close and read.  The hang-up closes the
      connection, and the read that finds the end of the stream closes it again. */
  lemma ReportAbortsIff(s: State, k: LoopId, c: ConnId, m: Mask)
    requires Inv(s) && AtRest(s, k) && s.loops[k].phase == AtPoll && OnLoop(s, c, k) && IsOpen(s.conns[c].state)
    ensures ClosesAndReads(m) <==>
            exists es :: AllBenign(es) && Run(Step, s, Report(k, c, m) + es) == Abort("net/TcpConnection.cpp:295")
  {
    if ClosesAndReads(m) {
      HangUpAborts(s, k, c, m);
      LaterIsBenign(k, m);
    } else {
      forall es | AllBenign(es) ensures Run(Step, s, Report(k, c, m) + es).Ok? {
        OtherwiseRunsOn(s, k, c, m, es);
      }
    }
  }

  lemma LaterIsBenign(k: LoopId, m: Mask)
    ensures AllBenign([RunCallback(k, 0), FinishClose(k)] + ReadAgain(k, m))
  {
  }

  lemma OtherwiseRunsOn(s: State, k: LoopId, c: ConnId, m: Mask, es: seq<Event>)
    requires Inv(s) && !ClosesAndReads(m) && AllBenign(es)
    ensures Run(Step, s, Report(k, c, m) + es).Ok?
  {
    assert AllBenign(Report(k, c, m) + es);
    BenignRunsOn(s, Report(k, c, m) + es);
  }
}
