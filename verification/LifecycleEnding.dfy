/** No close is lost: a `forceClose`, a hang-up or the end of the stream (net/TcpConnection.cpp,
    lines 122 to 131, 270 to 305 and 341 to 349).  From every state in order, whatever else is
    queued or going on, the connection stays on its way to the end, and the loops running on
    bring it there. */
module LifecycleEnding {
  import opened Lifecycle
  import opened LifecycleBeside
  import opened LifecycleDrive
  import opened LifecycleHandOver
  import opened LifecycleInv
  import opened LifecycleLateSend
  import opened LifecycleLimits
  import opened LifecycleProof
  import opened LifecycleSteps
  import opened LifecycleTheorems
  import opened Machine
  import opened Polling
  import opened Seqs

  /** Connection c is closed, or will be by a functor of its own loop. */
  ghost predicate Ending(s: State, c: ConnId) {
    && Inv(s) && c in s.conns && s.conns[c].loop < |s.loops|
    && (s.conns[c].state == Disconnected
        || (s.conns[c].state == Disconnecting && ForceClose(c) in s.loops[s.conns[c].loop].Todo()))
  }

  /** Connection c has come to its end: reported up and down once, removed and destroyed once,
      detached from its poller, and freed. */
  predicate Ended(s: State, c: ConnId) {
    && s.Known(c) && !Alive(s, c) && s.conns[c].state == Disconnected && s.conns[c].trace == [Up, Down]
    && s.conns[c].closes == 1 && s.conns[c].destroys == 1 && s.Chan(c) == NewChan(s.conns[c].fd)
  }

  // ----- every step leaves it on its way

  lemma KeptQueued(l: Loop, m: Loop, f: Functor)
    requires QueueKept(l, m) && f in l.Todo()
    ensures f in m.Todo()
  {
    if f !in l.batch {
      assert m.pending[..|l.pending|] == l.pending;
    }
  }

  lemma PopQueued(s: State, j: LoopId, k: LoopId, f: Functor)
    requires HasFunctor(s, j) && k < |s.loops| && f in s.loops[k].Todo() && !(j == k && s.loops[j].batch[0] == f)
    ensures f in PopFunctor(s, j).loops[k].Todo()
  {
    if j == k {
      assert s.loops[k].Todo() == [s.loops[k].batch[0]] + PopFunctor(s, j).loops[k].Todo();
    }
  }

  /** The forced close runs and closes. */
  lemma ForceCloses(s: State, k: LoopId, io: Io, c: ConnId)
    requires RunsFunctor(s, k, io) && s.loops[k].batch[0] == ForceClose(c) && RunningFunctor(s, k, io).Ok?
    requires c in s.conns && s.conns[c].state == Disconnecting
    ensures c in RunningFunctor(s, k, io).state.conns && RunningFunctor(s, k, io).state.conns[c].state == Disconnected
  {
    RunningFunctorIs(s, k, io);
  }

  lemma SwapKeepsTodo(s: State, e: Event, k: LoopId)
    requires (e.EndHandling? || e.EndBatch?) && Step(s, e).Ok? && k < |s.loops| && Collected(s.loops[k])
    ensures |Step(s, e).state.loops| == |s.loops| && Step(s, e).state.loops[k].Todo() == s.loops[k].Todo()
  {
  }

  /** Event e runs functor f on loop k. */
  predicate TurnOf(s: State, e: Event, k: LoopId, f: Functor) {
    e.RunFunctor? && e.l == k && RunsFunctor(s, k, e.io) && s.loops[k].batch[0] == f
  }

  /** A queued functor stays queued until its turn. */
  lemma StillQueued(s: State, e: Event, k: LoopId, f: Functor)
    requires MapInv(s) && LoopsInv(s) && Step(s, e).Ok? && k < |s.loops| && f.c in s.conns
    requires f in s.loops[k].Todo() && !TurnOf(s, e, k, f)
    ensures k < |Step(s, e).state.loops| && f in Step(s, e).state.loops[k].Todo()
  {
    var u := Step(s, e).state;
    if Passing(e) {
      PassingStep(s, e, f.c);
      KeptQueued(s.loops[k], u.loops[k], f);
    } else if e.RunFunctor? {
      if RunsFunctor(s, e.l, e.io) {
        FunctorStage(s, e.l, e.io, f.c);
        PopQueued(s, e.l, k, f);
        KeptQueued(PopFunctor(s, e.l).loops[k], u.loops[k], f);
      }
    } else {
      assert LoopInv(s, k);
      SwapKeepsTodo(s, e, k);
    }
  }

  lemma EndingStep(s: State, c: ConnId, e: Event)
    requires Ending(s, c) && Benign(e)
    ensures Step(s, e).Ok? && Ending(Step(s, e).state, c)
  {
    StepKeepsInv(s, e);
    StepLater(s, e);
    assert ConnLater(s.conns[c], Step(s, e).state.conns[c]);
    OneConn(Step(s, e).state, c);
    if s.conns[c].state == Disconnecting {
      if TurnOf(s, e, s.conns[c].loop, ForceClose(c)) {
        ForceCloses(s, e.l, e.io, c);
      } else {
        StillQueued(s, e, s.conns[c].loop, ForceClose(c));
      }
    }
  }

  lemma {:induction false} EndingRun(s: State, c: ConnId, es: seq<Event>)
    requires Ending(s, c) && AllBenign(es)
    ensures Run(Step, s, es).Ok? && Ending(Run(Step, s, es).state, c)
    decreases |es|
  {
    if es != [] {
      EndingStep(s, c, es[0]);
      EndingRun(Step(s, es[0]).state, c, es[1..]);
    }
  }

  // ----- and where nothing mentions it any more, it has ended

  lemma NoneLeft(l: Loop, c: ConnId, f: Functor)
    requires Level(l, c, 3) && f.c == c
    ensures f !in l.Todo() && !LoopOwns(l, c)
  {
    assert forall i :: 0 <= i < |l.Todo()| ==> Allowed(l.Todo()[i], c, 3);
  }

  lemma UnmentionedIsGone(s: State, c: ConnId)
    requires Ending(s, c) && AllLevel(s, c, 3)
    ensures s.conns[c].stage == Gone
  {
    var k := s.conns[c].loop;
    OneConn(s, c);
    NoneLeft(s.loops[k], c, ForceClose(c));
    NoneLeft(s.loops[k], c, DestroyConn(c));
    NoneLeft(s.loops[0], c, Remove(c));
    assert MineOk(s, k, c) && MineOk(s, 0, c);
    if s.conns[c].stage == Removing {
      MineIsQueued(s.loops[0].Todo(), c, Remove(c));
    } else if s.conns[c].stage == Destroying {
      MineIsQueued(s.loops[k].Todo(), c, DestroyConn(c));
    }
  }

  lemma UnmentionedHasEnded(s: State, c: ConnId)
    requires Ending(s, c) && AllLevel(s, c, 3) && c !in s.held
    ensures Ended(s, c)
  {
    UnmentionedIsGone(s, c);
    GoneEverywhere(s, c);
    OneConn(s, c);
    forall k | 0 <= k < |s.loops| ensures !LoopOwns(s.loops[k], c) {
      NoneLeft(s.loops[k], c, DestroyConn(c));
    }
  }

  lemma ReleaseIs(s: State, c: ConnId)
    ensures Benign(Release(c)) && Step(s, Release(c)).Ok? && c !in Step(s, Release(c)).state.held
  {
  }

  lemma ReleasedEnds(s: State, c: ConnId) returns (es: seq<Event>)
    requires Ending(s, c) && c !in s.held
    ensures AllBenign(es) && Run(Step, s, es).Ok? && Ended(Run(Step, s, es).state, c)
  {
    es := Forget(s, c);
    EndingRun(s, c, es);
    UnmentionedHasEnded(Run(Step, s, es).state, c);
  }

  /** Let go by the user, with the loops running on, a connection on its way comes to its end. */
  lemma EndingEnds(s: State, c: ConnId) returns (es: seq<Event>)
    requires Ending(s, c)
    ensures AllBenign(es) && Run(Step, s, es).Ok? && Ended(Run(Step, s, es).state, c)
  {
    ReleaseIs(s, c);
    EndingStep(s, c, Release(c));
    var rest := ReleasedEnds(Step(s, Release(c)).state, c);
    RunCons(Step, s, Release(c), rest);
    es := [Release(c)] + rest;
  }

  // ----- what begins the end

  /** A user thread, or a loop thread inside a callback, may call. */
  predicate MayCall(s: State, thread: Option<LoopId>) {
    thread.Some? ==> thread.value < |s.loops| && s.loops[thread.value].phase != AtPoll
  }

  /** The event closes connection c or queues its close: a `forceClose`, a hang-up, or a read that
      finds the end of the stream. */
  predicate Closes(s: State, e: Event, c: ConnId) {
    match e
    case Call(thread, d, Force) => d == c && c in s.conns && IsOpen(s.conns[c].state) && MayCall(s, thread)
    case RunCallback(k, n) =>
      && AtRest(s, k) && HasCallback(s, k) && s.loops[k].phase.current == c
      && (s.loops[k].phase.callbacks[0] == CloseCb || (s.loops[k].phase.callbacks[0] == ReadCb && n == 0))
    case _ => false
  }

  lemma ForceCallIs(s: State, thread: Option<LoopId>, c: ConnId)
    requires s.Known(c) && Alive(s, c) && IsOpen(s.conns[c].state) && MayCall(s, thread)
    ensures Step(s, Call(thread, c, Force)) == Ok(CommitForce(s, c))
  {
  }

  lemma ForceIsQueued(s: State, c: ConnId)
    requires s.Known(c)
    ensures var t, k := CommitForce(s, c), s.conns[c].loop;
            && c in t.conns && t.conns[c].loop == k && k < |t.loops| && t.conns[c].state == Disconnecting
            && ForceClose(c) in t.loops[k].Todo()
  {
    assert CommitForce(s, c).loops[s.conns[c].loop].pending[|s.loops[s.conns[c].loop].pending|] == ForceClose(c);
  }

  lemma ForceIsEnding(s: State, thread: Option<LoopId>, c: ConnId)
    requires Inv(s) && Closes(s, Call(thread, c, Force), c)
    ensures var r := Step(s, Call(thread, c, Force)); r.Ok? && Ending(r.state, c)
  {
    OneConn(s, c);
    AliveUntilGone(s, c);
    ForceCallIs(s, thread, c);
    ForceCallKeepsInv(s, c);
    ForceIsQueued(s, c);
  }

  lemma CallbackCloses(s: State, k: LoopId, n: int, c: ConnId)
    requires Closes(s, RunCallback(k, n), c) && Step(s, RunCallback(k, n)).Ok?
    ensures c in Step(s, RunCallback(k, n)).state.conns
    ensures Step(s, RunCallback(k, n)).state.conns[c].state == Disconnected
  {
    RunningCallbackIs(s, k, n);
  }

  lemma ClosesIsEnding(s: State, e: Event, c: ConnId)
    requires Inv(s) && Closes(s, e, c)
    ensures Step(s, e).Ok? && Ending(Step(s, e).state, c)
  {
    if e.Call? {
      ForceIsEnding(s, e.thread, c);
    } else {
      StepKeepsInv(s, e);
      CallbackCloses(s, e.l, e.n, c);
      OneConn(Step(s, e).state, c);
    }
  }

  /** A close is not lost, from every state in order and in every continuation: the connection is
      closed or its close is queued, and once nothing mentions it and nobody holds it, it has
      ended. */
  lemma CloseIsNotLost(s: State, e: Event, c: ConnId, es: seq<Event>)
    requires Inv(s) && Closes(s, e, c) && AllBenign(es)
    ensures var r := Run(Step, s, [e] + es);
            && r.Ok? && Ending(r.state, c)
            && (AllLevel(r.state, c, 3) && c !in r.state.held ==> Ended(r.state, c))
  {
    ClosesIsEnding(s, e, c);
    var t := Step(s, e).state;
    RunCons(Step, s, e, es);
    EndingRun(t, c, es);
    if AllLevel(Run(Step, t, es).state, c, 3) && c !in Run(Step, t, es).state.held {
      UnmentionedHasEnded(Run(Step, t, es).state, c);
    }
  }

  /** A close completes, from every state in order and after any continuation: the user only has
      to let go and the loops to run on. */
  lemma CloseCompletes(s: State, e: Event, c: ConnId, before: seq<Event>) returns (es: seq<Event>)
    requires Inv(s) && Closes(s, e, c) && AllBenign(before)
    ensures AllBenign(es)
    ensures var r := Run(Step, s, [e] + before + es); r.Ok? && Ended(r.state, c)
  {
    CloseIsNotLost(s, e, c, before);
    es := EndingEnds(Run(Step, s, [e] + before).state, c);
    RunConcat(Step, s, [e] + before, es);
  }
}
