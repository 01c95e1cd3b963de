/** The whole hand-over, once: what a peer's close does to an otherwise quiet server. */
module LifecycleHandOver {
  import opened Lifecycle
  import opened LifecycleInv
  import opened LifecycleProof
  import opened LifecycleSteps
  import opened LifecycleTheorems
  import opened Machine
  import opened Polling
  import opened Seqs

  /** Where loop k stands. */
  predicate At(s: State, k: LoopId, phase: Phase, closing: Option<ConnId>, batch: seq<Functor>, pending: seq<Functor>) {
    && k < |s.loops| && s.loops[k].phase == phase && s.loops[k].closing == closing
    && s.loops[k].batch == batch && s.loops[k].pending == pending
  }

  predicate AtStage(s: State, c: ConnId, k: LoopId, stage: Stage) {
    s.Known(c) && s.conns[c].loop == k && s.conns[c].stage == stage
  }

  /** Loop k alone moved, and touched no connection. */
  predicate OnlyLoop(s: State, t: State, k: LoopId) {
    && |t.loops| == |s.loops| && t.conns == s.conns && k < |s.loops| && t.loops[k].world == s.loops[k].world
    && forall j :: 0 <= j < |s.loops| && j != k ==> t.loops[j] == s.loops[j]
  }

  /** Connection c alone was touched. */
  predicate OnlyConn(s: State, t: State, c: ConnId) {
    && |t.loops| == |s.loops| && c in s.conns && c in t.conns
    && t.conns == s.conns[c := t.conns[c]] && t.conns[c].fd == s.conns[c].fd
  }

  // ----- the steps, one by one

  lemma PlainRead()
    ensures !ClosesAndReads(POLLIN) && Callbacks(POLLIN) == [ReadCb]
  {
    assert !MakesClose(POLLIN) && !Has(POLLIN, POLLERR | POLLNVAL) && MakesRead(POLLIN) && !Has(POLLIN, POLLOUT);
  }

  lemma Reported(s: State, k: LoopId, ready: seq<Ready>, pending: seq<Functor>)
    requires At(s, k, AtPoll, None, [], pending) && PossibleReady(s.loops[k].world, ready)
    ensures var t := Step(s, Poll(k, ready));
            t.Ok? && OnlyLoop(s, t.state, k) && At(t.state, k, Handling(ready, 0, []), None, [], pending)
  {
  }

  lemma Dispatched(s: State, k: LoopId, c: ConnId)
    requires At(s, k, Handling([Ready(c, POLLIN)], 0, []), None, [], []) && Step(s, NextChannel(k)).Ok?
    ensures var t := Step(s, NextChannel(k)).state;
            OnlyLoop(s, t, k) && At(t, k, Handling([], c, [ReadCb]), None, [], [])
  {
    PlainRead();
    assert s.loops[k].phase.active[1..] == [];
  }

  lemma StreamEnded(s: State, k: LoopId, c: ConnId)
    requires AtStage(s, c, k, Open) && At(s, k, Handling([], c, [ReadCb]), None, [], [])
    requires Step(s, RunCallback(k, 0)).Ok?
    ensures var t := Step(s, RunCallback(k, 0)).state;
            && OnlyConn(s, t, c) && AtStage(t, c, k, Closing) && At(t, k, Handling([], c, []), Some(c), [], [])
            && forall j :: 0 <= j < |s.loops| && j != k ==> t.loops[j] == s.loops[j]
  {
    assert LoopOwns(s.loops[k], c);
    RunningCallbackIs(s, k, 0);
    assert s.loops[k].phase.callbacks[1..] == [];
  }

  lemma HandedToBase(s: State, k: LoopId, c: ConnId)
    requires AtStage(s, c, k, Closing) && At(s, k, Handling([], c, []), Some(c), [], [])
    requires k != 0 && At(s, 0, AtPoll, None, [], [])
    ensures var t := Step(s, FinishClose(k));
            && t.Ok? && OnlyConn(s, t.state, c) && AtStage(t.state, c, k, Removing)
            && At(t.state, k, Handling([], c, []), None, [], []) && At(t.state, 0, AtPoll, None, [], [Remove(c)])
  {
    assert LoopOwns(s.loops[k], c);
    FinishIsHandOver(s, k, c);
    ClearedChanges(s, k, c);
    HandedOverChanges(Cleared(s, k, c), c);
  }

  lemma ErasedAtOnce(s: State, c: ConnId)
    requires AtStage(s, c, 0, Closing) && At(s, 0, Handling([], c, []), Some(c), [], []) && Step(s, FinishClose(0)).Ok?
    ensures var t := Step(s, FinishClose(0)).state;
            && OnlyConn(s, t, c) && AtStage(t, c, 0, Destroying)
            && At(t, 0, Handling([], c, []), None, [], [DestroyConn(c)])
  {
    FinishIsRemove(s, c);
    ClearedChanges(s, 0, c);
  }

  lemma BatchTaken(s: State, k: LoopId, current: ConnId, f: Functor)
    requires At(s, k, Handling([], current, []), None, [], [f])
    ensures var t := Step(s, EndHandling(k));
            t.Ok? && OnlyLoop(s, t.state, k) && At(t.state, k, Calling, None, [f], [])
  {
  }

  lemma Erased(s: State, k: LoopId, c: ConnId, io: Io)
    requires AtStage(s, c, k, Removing) && At(s, 0, Calling, None, [Remove(c)], [])
    requires k != 0 && At(s, k, Handling([], c, []), None, [], []) && Step(s, RunFunctor(0, io)).Ok?
    ensures var t := Step(s, RunFunctor(0, io)).state;
            && OnlyConn(s, t, c) && AtStage(t, c, k, Destroying)
            && At(t, 0, Calling, None, [], []) && At(t, k, Handling([], c, []), None, [], [DestroyConn(c)])
  {
    RunningFunctorIs(s, 0, io);
    assert s.loops[0].batch[1..] == [];
  }

  lemma Destroyed(s: State, k: LoopId, c: ConnId, io: Io)
    requires AtStage(s, c, k, Destroying) && At(s, k, Calling, None, [DestroyConn(c)], [])
    requires Step(s, RunFunctor(k, io)).Ok?
    ensures var t := Step(s, RunFunctor(k, io)).state;
            OnlyConn(s, t, c) && t.conns[c].loop == k && t.conns[c].stage == Gone && At(t, k, Calling, None, [], [])
  {
    RunningFunctorIs(s, k, io);
    assert s.loops[k].batch[1..] == [];
  }

  // ----- the run

  ghost predicate Safe(inv: State -> bool) {
    forall s, e :: inv(s) && Benign(e) ==> Step(s, e).Ok? && inv(Step(s, e).state)
  }

  /** The connection's loop reads the end of the stream and closes the connection. */
  function CloseEvents(k: LoopId, c: ConnId): seq<Event> {
    [Poll(k, [Ready(c, POLLIN)]), NextChannel(k), RunCallback(k, 0), FinishClose(k)]
  }

  /** The base loop erases it. */
  function EraseEvents(io: Io): seq<Event> {
    [Poll(0, []), EndHandling(0), RunFunctor(0, io)]
  }

  /** Its own loop destroys it. */
  function DestroyEvents(k: LoopId, io: Io): seq<Event> {
    [EndHandling(k), RunFunctor(k, io)]
  }

  /** On the base loop itself the close callback erases the connection at once. */
  function PeerClose(k: LoopId, c: ConnId, io: Io): seq<Event> {
    if k == 0 then CloseEvents(k, c) + DestroyEvents(k, io)
    else CloseEvents(k, c) + EraseEvents(io) + DestroyEvents(k, io)
  }

  lemma ReadRun(inv: State -> bool, s: State, k: LoopId, c: ConnId)
    requires Safe(inv) && inv(s) && AtStage(s, c, k, Open) && PossibleReady(s.loops[k].world, [Ready(c, POLLIN)])
    requires At(s, k, AtPoll, None, [], [])
    ensures var r := Step(s, Poll(k, [Ready(c, POLLIN)]));
            && r.Ok? && Step(r.state, NextChannel(k)).Ok?
            && var t := Step(r.state, NextChannel(k)).state;
               inv(t) && OnlyLoop(s, t, k) && At(t, k, Handling([], c, [ReadCb]), None, [], [])
  {
    PlainRead();
    assert Benign(Poll(k, [Ready(c, POLLIN)])) && Benign(NextChannel(k));
    Reported(s, k, [Ready(c, POLLIN)], []);
    Dispatched(Step(s, Poll(k, [Ready(c, POLLIN)])).state, k, c);
  }

  lemma ClosingRun(inv: State -> bool, s: State, k: LoopId, c: ConnId)
    requires Safe(inv) && inv(s) && AtStage(s, c, k, Open)
    requires k != 0 && At(s, k, Handling([], c, [ReadCb]), None, [], []) && At(s, 0, AtPoll, None, [], [])
    ensures var r := Step(s, RunCallback(k, 0));
            && r.Ok? && Step(r.state, FinishClose(k)).Ok?
            && var t := Step(r.state, FinishClose(k)).state;
               && inv(t) && OnlyConn(s, t, c) && AtStage(t, c, k, Removing)
               && At(t, k, Handling([], c, []), None, [], []) && At(t, 0, AtPoll, None, [], [Remove(c)])
  {
    assert Benign(RunCallback(k, 0)) && Benign(FinishClose(k));
    StreamEnded(s, k, c);
    HandedToBase(Step(s, RunCallback(k, 0)).state, k, c);
  }

  lemma CloseRun(inv: State -> bool, s: State, k: LoopId, c: ConnId)
    requires Safe(inv) && inv(s) && AtStage(s, c, k, Open) && PossibleReady(s.loops[k].world, [Ready(c, POLLIN)])
    requires k != 0 && At(s, k, AtPoll, None, [], []) && At(s, 0, AtPoll, None, [], [])
    ensures var r := Run(Step, s, CloseEvents(k, c));
            && r.Ok? && inv(r.state) && OnlyConn(s, r.state, c) && AtStage(r.state, c, k, Removing)
            && At(r.state, k, Handling([], c, []), None, [], []) && At(r.state, 0, AtPoll, None, [], [Remove(c)])
  {
    ReadRun(inv, s, k, c);
    var t := Step(Step(s, Poll(k, [Ready(c, POLLIN)])).state, NextChannel(k)).state;
    ClosingRun(inv, t, k, c);
    RunFour(Step, s, Poll(k, [Ready(c, POLLIN)]), NextChannel(k), RunCallback(k, 0), FinishClose(k));
  }

  lemma BaseClosingRun(inv: State -> bool, s: State, c: ConnId)
    requires Safe(inv) && inv(s) && AtStage(s, c, 0, Open) && At(s, 0, Handling([], c, [ReadCb]), None, [], [])
    ensures var r := Step(s, RunCallback(0, 0));
            && r.Ok? && Step(r.state, FinishClose(0)).Ok?
            && var t := Step(r.state, FinishClose(0)).state;
               && inv(t) && OnlyConn(s, t, c) && AtStage(t, c, 0, Destroying)
               && At(t, 0, Handling([], c, []), None, [], [DestroyConn(c)])
  {
    assert Benign(RunCallback(0, 0)) && Benign(FinishClose(0));
    StreamEnded(s, 0, c);
    ErasedAtOnce(Step(s, RunCallback(0, 0)).state, c);
  }

  lemma BaseCloseRun(inv: State -> bool, s: State, c: ConnId)
    requires Safe(inv) && inv(s) && AtStage(s, c, 0, Open) && PossibleReady(s.loops[0].world, [Ready(c, POLLIN)])
    requires At(s, 0, AtPoll, None, [], [])
    ensures var r := Run(Step, s, CloseEvents(0, c));
            && r.Ok? && inv(r.state) && OnlyConn(s, r.state, c) && AtStage(r.state, c, 0, Destroying)
            && At(r.state, 0, Handling([], c, []), None, [], [DestroyConn(c)])
  {
    ReadRun(inv, s, 0, c);
    var t := Step(Step(s, Poll(0, [Ready(c, POLLIN)])).state, NextChannel(0)).state;
    BaseClosingRun(inv, t, c);
    RunFour(Step, s, Poll(0, [Ready(c, POLLIN)]), NextChannel(0), RunCallback(0, 0), FinishClose(0));
  }

  lemma EraseRun(inv: State -> bool, s: State, k: LoopId, c: ConnId, io: Io)
    requires Safe(inv) && inv(s) && AtStage(s, c, k, Removing)
    requires k != 0 && At(s, k, Handling([], c, []), None, [], []) && At(s, 0, AtPoll, None, [], [Remove(c)])
    ensures var r := Run(Step, s, EraseEvents(io));
            && r.Ok? && inv(r.state) && OnlyConn(s, r.state, c) && AtStage(r.state, c, k, Destroying)
            && At(r.state, 0, Calling, None, [], []) && At(r.state, k, Handling([], c, []), None, [], [DestroyConn(c)])
  {
    var es := EraseEvents(io);
    assert Benign(es[0]) && Benign(es[1]) && Benign(es[2]);
    Reported(s, 0, [], [Remove(c)]);
    var s1 := Step(s, es[0]).state;
    BatchTaken(s1, 0, 0, Remove(c));
    var s2 := Step(s1, es[1]).state;
    Erased(s2, k, c, io);
    RunThree(Step, s, es[0], es[1], es[2]);
  }

  lemma DestroyRun(inv: State -> bool, s: State, k: LoopId, c: ConnId, io: Io)
    requires Safe(inv) && inv(s) && AtStage(s, c, k, Destroying)
    requires At(s, k, Handling([], c, []), None, [], [DestroyConn(c)])
    ensures var r := Run(Step, s, DestroyEvents(k, io));
            && r.Ok? && inv(r.state) && OnlyConn(s, r.state, c) && r.state.conns[c].stage == Gone
  {
    var es := DestroyEvents(k, io);
    assert Benign(es[0]) && Benign(es[1]);
    BatchTaken(s, k, c, DestroyConn(c));
    var s1 := Step(s, es[0]).state;
    Destroyed(s1, k, c, io);
    RunTwo(Step, s, es[0], es[1]);
  }

  lemma BaseWholeRun(inv: State -> bool, s: State, c: ConnId, io: Io)
    requires Safe(inv) && inv(s) && AtStage(s, c, 0, Open) && PossibleReady(s.loops[0].world, [Ready(c, POLLIN)])
    requires At(s, 0, AtPoll, None, [], [])
    ensures var r := Run(Step, s, PeerClose(0, c, io));
            r.Ok? && inv(r.state) && OnlyConn(s, r.state, c) && r.state.conns[c].stage == Gone
  {
    BaseCloseRun(inv, s, c);
    DestroyRun(inv, Run(Step, s, CloseEvents(0, c)).state, 0, c, io);
    RunConcat(Step, s, CloseEvents(0, c), DestroyEvents(0, io));
  }

  lemma WholeRun(inv: State -> bool, s: State, k: LoopId, c: ConnId, io: Io)
    requires Safe(inv) && inv(s) && AtStage(s, c, k, Open) && PossibleReady(s.loops[k].world, [Ready(c, POLLIN)])
    requires k != 0 && At(s, k, AtPoll, None, [], []) && At(s, 0, AtPoll, None, [], [])
    ensures var r := Run(Step, s, PeerClose(k, c, io));
            r.Ok? && inv(r.state) && OnlyConn(s, r.state, c) && r.state.conns[c].stage == Gone
  {
    CloseRun(inv, s, k, c);
    var t := Run(Step, s, CloseEvents(k, c)).state;
    EraseRun(inv, t, k, c, io);
    var u := Run(Step, t, EraseEvents(io)).state;
    DestroyRun(inv, u, k, c, io);
    RunConcat(Step, s, CloseEvents(k, c), EraseEvents(io));
    RunConcat(Step, s, CloseEvents(k, c) + EraseEvents(io), DestroyEvents(k, io));
  }

  /** The hand-over completes: whenever the base loop and the connection's loop are polling with
      nothing queued, the end of an open connection's stream leads, through both loops, to a
      connection that was reported up and down once, has left the map, the poller and every
      queue, and can be freed; no other connection has changed. */
  lemma PeerCloseCompletes(s: State, k: LoopId, c: ConnId, io: Io)
    requires Inv(s) && OnLoop(s, c, k) && IsOpen(s.conns[c].state)
    requires At(s, k, AtPoll, None, [], []) && At(s, 0, AtPoll, None, [], [])
    ensures var r := Run(Step, s, PeerClose(k, c, io));
            && r.Ok? && OnlyConn(s, r.state, c)
            && !r.state.InMap(c) && r.state.Known(c) && r.state.Chan(c) == NewChan(s.conns[c].fd)
            && r.state.conns[c].trace == [Up, Down] && r.state.conns[c].closes == 1 && r.state.conns[c].destroys == 1
            && forall j, i :: 0 <= j < |r.state.loops| && 0 <= i < |r.state.loops[j].Todo()| ==>
                 r.state.loops[j].Todo()[i].c != c
  {
    OpenMayBeReported(s, k, c, POLLIN);
    InvIsSafe();
    if k == 0 {
      BaseWholeRun(t => Inv(t), s, c, io);
    } else {
      WholeRun(t => Inv(t), s, k, c, io);
    }
    GoneEverywhere(Run(Step, s, PeerClose(k, c, io)).state, c);
  }

  lemma InvIsSafe()
    ensures Safe(t => Inv(t))
  {
    forall s, e | Inv(s) && Benign(e) ensures Step(s, e).Ok? && Inv(Step(s, e).state) {
      StepKeepsInv(s, e);
    }
  }

  lemma OpenMayBeReported(s: State, k: LoopId, c: ConnId, m: Mask)
    requires WorldsInv(s) && ConnsInv(s) && OnLoop(s, c, k) && IsOpen(s.conns[c].state)
    ensures AtStage(s, c, k, Open) && PossibleReady(s.loops[k].world, [Ready(c, m)])
  {
    assert ConnInv(s.conns[c]);
    OneInterest(s, c);
  }

  lemma GoneEverywhere(s: State, c: ConnId)
    requires Inv(s) && c in s.conns && s.conns[c].stage == Gone
    ensures !s.InMap(c) && s.Known(c) && s.Chan(c) == NewChan(s.conns[c].fd)
    ensures s.conns[c].trace == [Up, Down] && s.conns[c].closes == 1 && s.conns[c].destroys == 1
    ensures forall j, i :: 0 <= j < |s.loops| && 0 <= i < |s.loops[j].Todo()| ==> s.loops[j].Todo()[i].c != c
  {
    OneConn(s, c);
    assert s.InMap(c) <==> Mapped(s.conns[c].stage);
    forall j, i | 0 <= j < |s.loops| && 0 <= i < |s.loops[j].Todo()| ensures s.loops[j].Todo()[i].c != c {
      assert MineOk(s, j, c);
      NoneMine(s.loops[j].Todo(), c, i);
    }
  }
}
