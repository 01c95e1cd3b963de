/** `send` tests the state and queues a functor with a raw `this` in two steps
    (net/TcpConnection.cpp, lines 73 to 107).  What follows when the connection was closed, removed
    or destroyed in between. */
module LifecycleLateSend {
  import opened Endian
  import opened Lifecycle
  import opened LifecycleBeside
  import opened LifecycleDrive
  import opened LifecycleInv
  import opened LifecycleLimits
  import opened LifecycleProof
  import opened LifecycleRaces
  import opened LifecycleSteps
  import opened LifecycleTheorems
  import opened Machine
  import opened Polling
  import opened Seqs

  // ----- a late send that does no harm

  function Ahead(l: Loop, r: Rider): seq<Functor>
    requires HasRoom(l, r)
  {
    if r.inBatch then l.batch[..r.at] else l.batch + l.pending[..r.at]
  }

  /** The connection will be established, and will not be gone without trace, when the rider runs. */
  predicate Harmless(s: State, k: LoopId, r: Rider, c: ConnId) {
    && Onboard(s, k, r) && r.f.SendLater? && r.f.c == c && c in s.conns && s.conns[c].loop == k
    && (!r.inBatch ==> s.conns[c].stage != Gone && DestroyConn(c) !in s.loops[k].batch)
    && (r.inBatch && s.conns[c].stage == Gone ==> DestroyConn(c) in s.loops[k].ran)
    && (s.conns[c].stage == Born ==> Establish(c) in Ahead(s.loops[k], r))
  }

  predicate StageKept(s: State, u: State, c: ConnId) {
    && c in s.conns && c in u.conns && u.conns[c].loop == s.conns[c].loop
    && (u.conns[c].stage == Gone ==> s.conns[c].stage == Gone)
    && (u.conns[c].stage == Born ==> s.conns[c].stage == Born)
  }

  predicate QueueKept(l: Loop, m: Loop) {
    m.batch == l.batch && m.ran == l.ran && l.pending <= m.pending
  }

  predicate QueuesKept(s: State, u: State) {
    |u.loops| == |s.loops| && forall k :: 0 <= k < |s.loops| ==> QueueKept(s.loops[k], u.loops[k])
  }

  lemma TouchesQueues(s: State, u: State, d: ConnId)
    requires Touches(s, u, d)
    ensures QueuesKept(s, u)
  {
    forall k | 0 <= k < |s.loops| ensures QueueKept(s.loops[k], u.loops[k]) {
      assert Queues(s.loops[k], u.loops[k]);
    }
  }

  /** Which functors end a connection's first or enter its last stage. */
  lemma FunctorStage(s: State, j: LoopId, io: Io, c: ConnId)
    requires RunsFunctor(s, j, io) && RunningFunctor(s, j, io).Ok? && c in s.conns
    ensures var f, u := s.loops[j].batch[0], RunningFunctor(s, j, io).state;
            && QueuesKept(PopFunctor(s, j), u) && c in u.conns && u.conns[c].loop == s.conns[c].loop
            && (f != DestroyConn(c) ==> StageKept(s, u, c))
            && (f == Establish(c) ==> u.conns[c].stage == Open)
            && (f == DestroyConn(c) ==> s.conns[c].loop == j && u.conns[c].stage == Gone)
  {
    RunningFunctorIs(s, j, io);
    var p, u := PopFunctor(s, j), RunningFunctor(s, j, io).state;
    match s.loops[j].batch[0]
    case Establish(d) => EstablishingTouches(p, d); TouchesQueues(p, u, d);
    case SendLater(d, message) => SendTouches(p, d, message, io); TouchesQueues(p, u, d);
    case ShutdownLater(d) => ShutdownNowTouches(p, d); TouchesQueues(p, u, d);
    case ForceClose(d) => if IsOpen(p.conns[d].state) { CloseTouches(p, d); TouchesQueues(p, u, d); }
    case WriteComplete(_) =>
    case HighWater(_, _) =>
    case Remove(d) => RemoveTouches(p, d); TouchesQueues(p, u, d);
    case DestroyConn(d) => DestroyTouches(p, j, d); TouchesQueues(p, u, d);
  }

  lemma WriteStage(s: State, d: ConnId, n: int)
    requires s.Known(d) && n <= |s.conns[d].output| && WriteReady(s, d, n).Ok?
    ensures d in WriteReady(s, d, n).state.conns && WriteReady(s, d, n).state.conns[d].stage == s.conns[d].stage
  {
  }

  lemma CallbackStage(s: State, j: LoopId, n: int, c: ConnId)
    requires AtRest(s, j) && HasCallback(s, j) && WriteFits(s, j, n) && RunningCallback(s, j, n).Ok? && c in s.conns
    ensures var u := RunningCallback(s, j, n).state; QueuesKept(s, u) && StageKept(s, u, c)
  {
    var p, u, d := PopCallback(s, j), RunningCallback(s, j, n).state, s.loops[j].phase.current;
    if s.loops[j].phase.callbacks[0] != ErrorCb {
      RunningCallbackIs(s, j, n);
      match s.loops[j].phase.callbacks[0]
      case CloseCb => CloseTouches(p, d); TouchesQueues(p, u, d);
      case ReadCb => if n == 0 { CloseTouches(p, d); TouchesQueues(p, u, d); }
      case WriteCb => WriteTouches(p, d, n); TouchesQueues(p, u, d); WriteStage(p, d, n);
    }
  }

  lemma FinishStage(s: State, j: LoopId, c: ConnId)
    requires Step(s, FinishClose(j)).Ok? && c in s.conns
    ensures var u := Step(s, FinishClose(j)).state; QueuesKept(s, u) && StageKept(s, u, c)
  {
    if j < |s.loops| && s.loops[j].closing.Some? {
      var d := s.loops[j].closing.value;
      FinishCloseIs(s, j, d);
      var u := FinishClosing(s, j, d).state;
      if j == 0 { FinishInline(s, d); } else { FinishQueued(s, j, d); }
      TouchesQueues(s, u, d);
    }
  }

  lemma UserStage(s: State, d: ConnId, call: UserCall, inLoop: bool, c: ConnId)
    requires s.Known(d) && UserStep(s, d, call, inLoop).Ok? && c in s.conns
    ensures var u := UserStep(s, d, call, inLoop).state; QueuesKept(s, u) && StageKept(s, u, c)
  {
    UserTouches(s, d, call, inLoop);
    TouchesQueues(s, UserStep(s, d, call, inLoop).state, d);
  }

  lemma AcceptStage(s: State, fd: int, c: ConnId)
    requires (|s.loops| == 1 || s.nextLoop + 1 < |s.loops|) && AcceptConn(s, fd).Ok? && c in s.conns && c != s.nextConnId
    ensures var u := AcceptConn(s, fd).state; QueuesKept(s, u) && StageKept(s, u, c)
  {
  }

  /** Steps that run no functor and swap no queue. */
  predicate Passing(e: Event) {
    !e.RunFunctor? && !e.EndHandling? && !e.EndBatch?
  }

  lemma QuietPassing(s: State, e: Event, c: ConnId)
    requires (e.Poll? || e.NextChannel? || e.Hold? || e.Release?) && Step(s, e).Ok? && c in s.conns
    ensures QueuesKept(s, Step(s, e).state) && StageKept(s, Step(s, e).state, c)
  {
  }

  lemma PassingStep(s: State, e: Event, c: ConnId)
    requires MapInv(s) && Passing(e) && Step(s, e).Ok? && c in s.conns
    ensures QueuesKept(s, Step(s, e).state) && StageKept(s, Step(s, e).state, c)
  {
    match e
    case Accept(fd) => if Step(s, e).state != s { AcceptStage(s, fd, c); }
    case RunCallback(j, n) => if AtRest(s, j) && HasCallback(s, j) && WriteFits(s, j, n) { CallbackStage(s, j, n, c); }
    case FinishClose(j) => FinishStage(s, j, c);
    case Call(thread, d, call) => if Step(s, e).state != s { UserStage(s, d, call, thread == Some(s.conns[d].loop), c); }
    case _ => QuietPassing(s, e, c);
  }

  lemma HarmlessPassing(s: State, k: LoopId, r: Rider, c: ConnId, u: State)
    requires Harmless(s, k, r, c) && QueuesKept(s, u) && StageKept(s, u, c) && Onboard(u, k, r)
    ensures Harmless(u, k, r, c)
  {
    var l, m := s.loops[k], u.loops[k];
    assert QueueKept(l, m);
    assert Ahead(m, r) == Ahead(l, r) by {
      if !r.inBatch { assert m.pending[..r.at] == l.pending[..r.at]; }
    }
  }

  lemma HarmlessFunctor(s: State, k: LoopId, r: Rider, c: ConnId, j: LoopId, io: Io)
    requires Harmless(s, k, r, c) && RunsFunctor(s, j, io) && RunningFunctor(s, j, io).Ok?
    requires !(j == k && r.inBatch && r.at == 0) && Onboard(RunningFunctor(s, j, io).state, k, Popped(k, r, j))
    ensures Harmless(RunningFunctor(s, j, io).state, k, Popped(k, r, j), c)
  {
    var f, p, u := s.loops[j].batch[0], PopFunctor(s, j), RunningFunctor(s, j, io).state;
    FunctorStage(s, j, io, c);
    assert QueueKept(p.loops[k], u.loops[k]);
    if j == k {
      PoppedAhead(s, k, r);
    }
    var q := Popped(k, r, j);
    assert Ahead(u.loops[k], q) == Ahead(p.loops[k], q) by {
      if !q.inBatch { assert u.loops[k].pending[..q.at] == p.loops[k].pending[..q.at]; }
    }
  }

  lemma PoppedAhead(s: State, k: LoopId, r: Rider)
    requires Fits(s, k, r) && HasFunctor(s, k) && !(r.inBatch && r.at == 0)
    ensures Fits(PopFunctor(s, k), k, Popped(k, r, k))
    ensures Ahead(s.loops[k], r) == [s.loops[k].batch[0]] + Ahead(PopFunctor(s, k).loops[k], Popped(k, r, k))
  {
  }

  lemma HarmlessSwap(s: State, k: LoopId, r: Rider, c: ConnId)
    requires Harmless(s, k, r, c) && EndsHandling(s, k) && s.loops[k].batch == []
    ensures Harmless(Step(s, EndHandling(k)).state, k, r.(inBatch := true), c)
  {
    assert Ahead(s.loops[k], r) == s.loops[k].pending[..r.at];
  }

  /** Nothing but its own turn makes a harmless rider harmful. */
  lemma HarmlessStep(s: State, k: LoopId, r: Rider, c: ConnId, e: Event)
    requires Inv(s) && Harmless(s, k, r, c) && !ItsTurn(k, r, e) && Benign(e)
    ensures Step(s, e).Ok? && Inv(Step(s, e).state) && Beside(s, k, r, e)
    ensures Harmless(Step(s, e).state, k, Carried(s, k, r, e), c)
  {
    StepKeepsInv(s, e);
    StepBeside(s, k, r, e);
    HarmlessCarried(s, k, r, c, e);
  }

  lemma HarmlessCarried(s: State, k: LoopId, r: Rider, c: ConnId, e: Event)
    requires MapInv(s) && LoopsInv(s) && Harmless(s, k, r, c) && !ItsTurn(k, r, e) && Step(s, e).Ok?
    requires Onboard(Step(s, e).state, k, Carried(s, k, r, e))
    ensures Harmless(Step(s, e).state, k, Carried(s, k, r, e), c)
  {
    var u := Step(s, e).state;
    if Passing(e) {
      PassingStep(s, e, c);
      HarmlessPassing(s, k, r, c, u);
    } else if e.RunFunctor? {
      if RunsFunctor(s, e.l, e.io) {
        HarmlessFunctor(s, k, r, c, e.l, e.io);
      }
    } else if e == EndHandling(k) {
      assert LoopInv(s, k);
      if EndsHandling(s, k) {
        HarmlessSwap(s, k, r, c);
      }
    }
  }

  // ----- its turn

  /** What is left of the rider once it has run. */
  function Left(s: State, k: LoopId, r: Rider): State
    requires k < |s.loops|
  {
    SetLoop(s, k, s.loops[k].(ran := s.loops[k].ran + [r.f]))
  }

  lemma LeftInv(s: State, k: LoopId, r: Rider)
    requires Inv(s) && k < |s.loops| && s.loops[k].phase == Calling
    ensures Inv(Left(s, k, r))
  {
    assert LoopInv(s, k);
    LoopStepKeepsInv(s, k, s.loops[k].(ran := s.loops[k].ran + [r.f]));
  }

  lemma PopRider(s: State, k: LoopId, r: Rider)
    requires Fits(s, k, r) && r.inBatch && r.at == 0
    ensures HasFunctor(WithRider(s, k, r), k) && WithRider(s, k, r).loops[k].batch[0] == r.f
    ensures PopFunctor(WithRider(s, k, r), k) == Left(s, k, r)
  {
    assert Inserted(s.loops[k].batch, 0, r.f)[1..] == s.loops[k].batch;
    assert PopFunctor(WithRider(s, k, r), k).loops == Left(s, k, r).loops;
  }

  lemma HarmlessAlive(s: State, k: LoopId, r: Rider, c: ConnId)
    requires Inv(s) && Harmless(s, k, r, c) && r.inBatch
    ensures s.Known(c) && Alive(s, c)
  {
    OneConn(s, c);
    if s.conns[c].stage == Gone {
      var i :| 0 <= i < |s.loops[k].ran| && s.loops[k].ran[i] == DestroyConn(c);
      assert Owns(s.loops[k].ran, c);
    } else {
      AliveUntilGone(s, c);
    }
  }

  lemma RiderRunIs(s: State, k: LoopId, r: Rider, c: ConnId, io: Io)
    requires Onboard(s, k, r) && r.inBatch && r.at == 0 && r.f.SendLater? && r.f.c == c
    requires s.Known(c) && s.conns[c].loop == k && AtRest(s, k) && PossibleSend(io, r.f.message) && Alive(s, c)
    ensures Left(s, k, r).Known(c)
    ensures Step(WithRider(s, k, r), RunFunctor(k, io)) == SendNow(Left(s, k, r), c, r.f.message, io)
  {
    PopRider(s, k, r);
    SameAlive(s, k, r, c);
    RunningFunctorIs(WithRider(s, k, r), k, io);
  }

  lemma HarmlessTurn(s: State, k: LoopId, r: Rider, c: ConnId, e: Event)
    requires Inv(s) && Harmless(s, k, r, c) && ItsTurn(k, r, e)
    ensures var t := WithRider(s, k, r); Step(t, e).Ok? && (Step(t, e).state == t || Inv(Step(t, e).state))
  {
    var t := WithRider(s, k, r);
    HarmlessAlive(s, k, r, c);
    if e.RunFunctor? {
      PopRider(s, k, r);
      if AtRest(s, k) && PossibleSend(e.io, r.f.message) {
        RiderRunIs(s, k, r, c, e.io);
        LeftInv(s, k, r);
        SendNowKeepsInv(Left(s, k, r), c, r.f.message, e.io);
      }
    }
  }

  /** A harmless late send leads to no abort. */
  lemma {:induction false} HarmlessRun(s: State, k: LoopId, r: Rider, c: ConnId, es: seq<Event>)
    requires Inv(s) && Harmless(s, k, r, c) && AllBenign(es)
    ensures Run(Step, WithRider(s, k, r), es).Ok?
    decreases |es|
  {
    if es != [] {
      var e, rest := es[0], es[1..];
      if ItsTurn(k, r, e) {
        HarmlessTurn(s, k, r, c, e);
        if Step(WithRider(s, k, r), e).state == WithRider(s, k, r) {
          HarmlessRun(s, k, r, c, rest);
        } else {
          BenignRunsOn(Step(WithRider(s, k, r), e).state, rest);
        }
      } else {
        HarmlessStep(s, k, r, c, e);
        HarmlessRun(Step(s, e).state, k, Carried(s, k, r, e), c, rest);
      }
    }
  }

  // ----- nothing queues the destruction of a connection that has left the map

  predicate NoneQueued(s: State, u: State, f: Functor) {
    |u.loops| == |s.loops| && forall j :: 0 <= j < |s.loops| && f in u.loops[j].pending ==> f in s.loops[j].pending
  }

  lemma FunctorQueues(s: State, j: LoopId, io: Io, c: ConnId)
    requires RunsFunctor(s, j, io) && RunningFunctor(s, j, io).Ok? && s.Name(c) !in s.connections
    ensures NoneQueued(s, RunningFunctor(s, j, io).state, DestroyConn(c))
  {
    RunningFunctorIs(s, j, io);
    var p := PopFunctor(s, j);
    match s.loops[j].batch[0]
    case SendLater(d, message) => SendQueues(p, d, message, io, c);
    case _ =>
  }

  lemma SendQueues(s: State, d: ConnId, message: seq<Byte>, io: Io, c: ConnId)
    requires s.Known(d) && PossibleSend(io, message) && SendNow(s, d, message, io).Ok?
    ensures NoneQueued(s, SendNow(s, d, message, io).state, DestroyConn(c))
  {
  }

  lemma WriteQueues(s: State, d: ConnId, n: int, c: ConnId)
    requires s.Known(d) && n <= |s.conns[d].output| && WriteReady(s, d, n).Ok?
    ensures NoneQueued(s, WriteReady(s, d, n).state, DestroyConn(c))
  {
  }

  lemma CallbackQueues(s: State, j: LoopId, n: int, c: ConnId)
    requires HasCallback(s, j) && WriteFits(s, j, n) && RunningCallback(s, j, n).Ok?
    ensures NoneQueued(s, RunningCallback(s, j, n).state, DestroyConn(c))
  {
    if s.loops[j].phase.callbacks[0] != ErrorCb {
      RunningCallbackIs(s, j, n);
      if s.loops[j].phase.callbacks[0] == WriteCb {
        WriteQueues(PopCallback(s, j), s.loops[j].phase.current, n, c);
      }
    }
  }

  lemma FinishQueues(s: State, j: LoopId, c: ConnId)
    requires Step(s, FinishClose(j)).Ok? && s.Name(c) !in s.connections
    ensures NoneQueued(s, Step(s, FinishClose(j)).state, DestroyConn(c))
  {
    if j < |s.loops| && s.loops[j].closing.Some? {
      FinishCloseIs(s, j, s.loops[j].closing.value);
    }
  }

  lemma UserQueues(s: State, d: ConnId, call: UserCall, inLoop: bool, c: ConnId)
    requires s.Known(d) && UserStep(s, d, call, inLoop).Ok?
    ensures NoneQueued(s, UserStep(s, d, call, inLoop).state, DestroyConn(c))
  {
    match call
    case Send(message, io) =>
      if s.conns[d].state == Connected && inLoop && PossibleSend(io, message) { SendQueues(s, d, message, io, c); }
    case _ =>
  }

  lemma AcceptQueues(s: State, fd: int, c: ConnId)
    requires (|s.loops| == 1 || s.nextLoop + 1 < |s.loops|) && AcceptConn(s, fd).Ok?
    ensures NoneQueued(s, AcceptConn(s, fd).state, DestroyConn(c))
  {
  }

  lemma StepQueues(s: State, e: Event, c: ConnId)
    requires Step(s, e).Ok? && s.Name(c) !in s.connections
    ensures NoneQueued(s, Step(s, e).state, DestroyConn(c))
  {
    match e
    case Accept(fd) => if Step(s, e).state != s { AcceptQueues(s, fd, c); }
    case RunCallback(j, n) => if AtRest(s, j) && HasCallback(s, j) && WriteFits(s, j, n) { CallbackQueues(s, j, n, c); }
    case RunFunctor(j, io) => if RunsFunctor(s, j, io) { FunctorQueues(s, j, io, c); }
    case FinishClose(j) => FinishQueues(s, j, c);
    case Call(thread, d, call) => if Step(s, e).state != s { UserQueues(s, d, call, thread == Some(s.conns[d].loop), c); }
    case _ =>
  }

  // ----- a late send that does harm

  /** The connection is out of the map, and its destruction is past the queue. */
  ghost predicate Orphan(s: State, k: LoopId, c: ConnId) {
    && Inv(s) && k < |s.loops| && c in s.conns && s.conns[c].loop == k
    && !s.InMap(c) && DestroyConn(c) !in s.loops[k].pending
  }

  lemma OrphanStep(s: State, k: LoopId, c: ConnId, e: Event)
    requires Orphan(s, k, c) && Benign(e)
    ensures Step(s, e).Ok? && Orphan(Step(s, e).state, k, c)
  {
    StepKeepsInv(s, e);
    StepLater(s, e);
    UnmappedName(s, c);
    StepQueues(s, e, c);
  }

  lemma {:induction false} OrphanRun(s: State, k: LoopId, c: ConnId, es: seq<Event>)
    requires Orphan(s, k, c) && AllBenign(es)
    ensures Run(Step, s, es).Ok? && Orphan(Run(Step, s, es).state, k, c)
    decreases |es|
  {
    if es != [] {
      OrphanStep(s, k, c, es[0]);
      OrphanRun(Step(s, es[0]).state, k, c, es[1..]);
    }
  }

  /** While no queue is swapped, a pending rider stays where it is. */
  lemma {:induction false} RunBeside(s: State, k: LoopId, r: Rider, c: ConnId, es: seq<Event>)
    requires Orphan(s, k, c) && Onboard(s, k, r) && !r.inBatch && AllBenign(es) && NoSwap(es)
    ensures Run(Step, s, es).Ok? && Onboard(Run(Step, s, es).state, k, r)
    ensures Run(Step, WithRider(s, k, r), es) == Ok(WithRider(Run(Step, s, es).state, k, r))
    decreases |es|
  {
    if es != [] {
      OrphanStep(s, k, c, es[0]);
      StepBeside(s, k, r, es[0]);
      RunBeside(Step(s, es[0]).state, k, r, c, es[1..]);
    }
  }

  /** An orphan whose destruction is not queued any more is gone, and in no queue. */
  lemma OrphanIsGone(s: State, k: LoopId, c: ConnId)
    requires Orphan(s, k, c) && DestroyConn(c) !in s.loops[k].batch
    ensures s.conns[c].stage == Gone
    ensures forall j, i :: 0 <= j < |s.loops| && 0 <= i < |s.loops[j].Todo()| ==> s.loops[j].Todo()[i].c != c
  {
    assert s.InMap(c) <==> Mapped(s.conns[c].stage);
    if s.conns[c].stage == Destroying {
      assert MineOk(s, k, c);
      MineIsQueued(s.loops[k].Todo(), c, DestroyConn(c));
    }
    forall j, i | 0 <= j < |s.loops| && 0 <= i < |s.loops[j].Todo()| ensures s.loops[j].Todo()[i].c != c {
      assert MineOk(s, j, c);
      NoneMine(s.loops[j].Todo(), c, i);
    }
  }

  // ----- the run that does it

  predicate RanBefore(s: State, k: LoopId, i: nat) {
    forall j :: 0 <= j < |s.loops| && j < i && j != k ==> s.loops[j].ran == []
  }

  /** Loop i runs its batch down, and lets go of what it ran. */
  lemma ClearOne(s: State, k: LoopId, c: ConnId, i: nat) returns (es: seq<Event>)
    requires Orphan(s, k, c) && i < |s.loops| && RanBefore(s, k, i)
    ensures AllBenign(es) && NoSwap(es) && Run(Step, s, es).Ok?
    ensures var t := Run(Step, s, es).state; SameShape(s, t) && RanBefore(t, k, i + 1)
  {
    if i != k && s.loops[i].phase == Calling {
      es := RunDown(s, i, c, 1);
      OrphanRun(s, k, c, es);
      StillClear(s, Run(Step, s, es).state, k, c, i);
    } else {
      es := [];
      NotCallingNotRan(s, k, i);
    }
  }

  lemma StillClear(s: State, t: State, k: LoopId, c: ConnId, i: nat)
    requires i < |s.loops| && RanDown(s, t, i, c, 1) && RanBefore(s, k, i)
    ensures RanBefore(t, k, i + 1)
  {
    forall j | 0 <= j < |t.loops| && j < i + 1 && j != k ensures t.loops[j].ran == [] {
      assert j != i ==> Aside(s.loops[j], t.loops[j]);
    }
  }

  lemma NotCallingNotRan(s: State, k: LoopId, i: nat)
    requires LoopsInv(s) && i < |s.loops| && RanBefore(s, k, i) && (i == k || s.loops[i].phase != Calling)
    ensures RanBefore(s, k, i + 1)
  {
    assert LoopInv(s, i);
  }

  /** The other loops run their batches down. */
  lemma ClearRan(s: State, k: LoopId, c: ConnId, i: nat) returns (es: seq<Event>)
    requires Orphan(s, k, c) && i <= |s.loops| && RanBefore(s, k, i)
    ensures AllBenign(es) && NoSwap(es) && Run(Step, s, es).Ok?
    ensures var t := Run(Step, s, es).state; SameShape(s, t) && RanBefore(t, k, |t.loops|)
    decreases |s.loops| - i
  {
    es := [];
    if i < |s.loops| {
      es := ClearOne(s, k, c, i);
      OrphanRun(s, k, c, es);
      var rest := ClearRan(Run(Step, s, es).state, k, c, i + 1);
      RunConcat(Step, s, es, rest);
      es := es + rest;
    }
  }

  /** Its own loop gets ready to swap. */
  predicate Poised(t: State, k: LoopId, c: ConnId) {
    && k < |t.loops| && c !in t.held && RanBefore(t, k, |t.loops|)
    && t.loops[k].phase != Calling && DispatchLeft(t.loops[k]) == 0
  }

  lemma KeptRan(s: State, t: State, k: LoopId, c: ConnId, n: nat)
    requires Kept(s, t, k, c, n) && RanBefore(s, k, |s.loops|)
    ensures RanBefore(t, k, |t.loops|)
  {
    forall j | 0 <= j < |t.loops| && j != k ensures t.loops[j].ran == [] {
      assert Aside(s.loops[j], t.loops[j]);
    }
  }

  lemma GetPoised(s: State, k: LoopId, c: ConnId) returns (es: seq<Event>)
    requires Orphan(s, k, c) && c !in s.held && RanBefore(s, k, |s.loops|) && s.loops[k].phase != Calling
    ensures AllBenign(es) && NoSwap(es) && Run(Step, s, es).Ok? && Poised(Run(Step, s, es).state, k, c)
  {
    es := DispatchAll(s, k, c, 1);
    OrphanRun(s, k, c, es);
    KeptRan(s, Run(Step, s, es).state, k, c, 1);
  }

  lemma FinishBatch(s: State, k: LoopId, c: ConnId) returns (es: seq<Event>)
    requires Orphan(s, k, c) && c !in s.held && RanBefore(s, k, |s.loops|)
    ensures AllBenign(es) && NoSwap(es) && Run(Step, s, es).Ok? && Poised(Run(Step, s, es).state, k, c)
  {
    if s.loops[k].phase == Calling {
      es := RunDown(s, k, c, 1);
      OrphanRun(s, k, c, es);
      var t := Run(Step, s, es).state;
      KeptRan(s, t, k, c, 1);
      var rest := GetPoised(t, k, c);
      RunConcat(Step, s, es, rest);
      es := es + rest;
    } else {
      es := GetPoised(s, k, c);
    }
  }

  lemma PrepareReleased(s: State, k: LoopId, c: ConnId) returns (es: seq<Event>)
    requires Orphan(s, k, c) && c !in s.held
    ensures AllBenign(es) && NoSwap(es) && Run(Step, s, es).Ok? && Poised(Run(Step, s, es).state, k, c)
  {
    es := ClearRan(s, k, c, 0);
    OrphanRun(s, k, c, es);
    var rest := FinishBatch(Run(Step, s, es).state, k, c);
    RunConcat(Step, s, es, rest);
    es := es + rest;
  }

  lemma Prepare(s: State, k: LoopId, c: ConnId) returns (es: seq<Event>)
    requires Orphan(s, k, c)
    ensures AllBenign(es) && NoSwap(es) && Run(Step, s, es).Ok? && Poised(Run(Step, s, es).state, k, c)
  {
    OrphanReleased(s, k, c);
    var rest := PrepareReleased(s.(held := s.held - {c}), k, c);
    RunCons(Step, s, Release(c), rest);
    es := [Release(c)] + rest;
  }

  lemma OrphanReleased(s: State, k: LoopId, c: ConnId)
    requires Orphan(s, k, c)
    ensures Step(s, Release(c)) == Ok(s.(held := s.held - {c})) && Orphan(s.(held := s.held - {c}), k, c)
  {
    HeldKeepsInv(s, s.held - {c});
    assert s.(held := s.held - {c}).InMap(c) == s.InMap(c);
  }

  /** Nothing owns the connection any more, and its loop has swapped. */
  ghost predicate Forsaken(s: State, k: LoopId, c: ConnId) {
    && Orphan(s, k, c) && c !in s.held && s.loops[k].phase == Calling && DestroyConn(c) !in s.loops[k].batch
    && RanBefore(s, k, |s.loops|) && forall i :: 0 <= i < |s.loops[k].ran| ==> s.loops[k].ran[i].c != c
  }

  lemma ForsakenIsDead(s: State, k: LoopId, c: ConnId)
    requires Forsaken(s, k, c)
    ensures !Alive(s, c)
  {
    OrphanIsGone(s, k, c);
    forall j | 0 <= j < |s.loops| ensures !LoopOwns(s.loops[j], c) {
      assert LoopInv(s, j);
      NotQueuedNotOwned(s.loops[j], c);
    }
  }

  lemma NotQueuedNotOwned(l: Loop, c: ConnId)
    requires forall i :: 0 <= i < |l.Todo()| ==> l.Todo()[i].c != c
    ensures !Owns(l.batch, c) && !Owns(l.pending, c)
  {
    assert forall i :: 0 <= i < |l.batch| ==> l.batch[i] == l.Todo()[i];
    assert forall i :: 0 <= i < |l.pending| ==> l.pending[i] == l.Todo()[|l.batch| + i];
  }

  lemma SwapIs(s: State, k: LoopId, c: ConnId)
    requires Poised(s, k, c) && LoopInv(s, k)
    ensures EndsHandling(s, k) && s.loops[k].ran == []
    ensures Step(s, EndHandling(k))
            == Ok(SetLoop(s, k, s.loops[k].(phase := Calling, batch := s.loops[k].pending, pending := [])))
  {
  }

  lemma Swapped(s: State, k: LoopId, c: ConnId)
    requires Orphan(s, k, c) && Poised(s, k, c)
    ensures EndsHandling(s, k) && Step(s, EndHandling(k)).Ok? && Forsaken(Step(s, EndHandling(k)).state, k, c)
  {
    SwapIs(s, k, c);
    OrphanStep(s, k, c, EndHandling(k));
  }

  lemma WorkedForsaken(s: State, p: State, t: State, k: LoopId, c: ConnId)
    requires Forsaken(s, k, c) && Orphan(t, k, c) && Worked(p, t, k, c, 1) && p.held == s.held && |p.loops| == |s.loops|
    requires p.loops[k].phase == Calling && DestroyConn(c) !in p.loops[k].batch
    requires forall j :: 0 <= j < |s.loops| && j != k ==> p.loops[j] == s.loops[j]
    requires forall i :: 0 <= i < |p.loops[k].ran| ==> p.loops[k].ran[i].c != c
    ensures Forsaken(t, k, c)
  {
    forall j | 0 <= j < |t.loops| ensures Extends(p.loops[j], t.loops[j], c, 1) {
    }
  }

  lemma FinishForsaken(s: State, k: LoopId, c: ConnId)
    requires Forsaken(s, k, c) && s.loops[k].closing.Some?
    ensures Step(s, FinishClose(k)).Ok? && Forsaken(Step(s, FinishClose(k)).state, k, c)
    ensures Step(s, FinishClose(k)).state.loops[k].closing == None
  {
    OrphanStep(s, k, c, FinishClose(k));
    FinishStepWorked(s, k, c, 1);
    WorkedForsaken(s, s, Step(s, FinishClose(k)).state, k, c);
  }

  lemma HeadIsNotC(s: State, k: LoopId, c: ConnId)
    requires Forsaken(s, k, c) && HasFunctor(s, k)
    ensures s.loops[k].batch[0].c != c
  {
    OrphanIsGone(s, k, c);
    assert s.loops[k].Todo()[0] == s.loops[k].batch[0];
  }

  lemma FunctorForsaken(s: State, k: LoopId, c: ConnId)
    requires Forsaken(s, k, c) && AtRest(s, k) && HasFunctor(s, k)
    ensures Step(s, RunFunctor(k, WOULD_BLOCK)).Ok? && Forsaken(Step(s, RunFunctor(k, WOULD_BLOCK)).state, k, c)
  {
    HeadIsNotC(s, k, c);
    OrphanStep(s, k, c, RunFunctor(k, WOULD_BLOCK));
    FunctorWorked(s, k, c, 1);
    WorkedForsaken(s, PopFunctor(s, k), Step(s, RunFunctor(k, WOULD_BLOCK)).state, k, c);
  }

  function RideLeft(l: Loop, r: Rider): nat {
    2 * r.at + if l.closing.Some? then 1 else 0
  }

  lemma TurnAborts(s: State, k: LoopId, r: Rider, c: ConnId)
    requires Forsaken(s, k, c) && Onboard(s, k, r) && r.inBatch && r.at == 0 && r.f.SendLater? && r.f.c == c && AtRest(s, k)
    ensures Step(WithRider(s, k, r), RunFunctor(k, WOULD_BLOCK)) == Abort("functor on a destroyed connection")
  {
    ForsakenIsDead(s, k, c);
    SameAlive(s, k, r, c);
    PopRider(s, k, r);
  }

  function RideEvent(l: Loop, k: LoopId): Event {
    if l.closing.Some? then FinishClose(k) else RunFunctor(k, WOULD_BLOCK)
  }

  lemma CarriedOn(s: State, k: LoopId, r: Rider)
    requires Onboard(s, k, r) && r.inBatch && r.at > 0 && AtRest(s, k)
    ensures HasFunctor(s, k) && RunsFunctor(s, k, WOULD_BLOCK)
    ensures Carried(s, k, r, RunFunctor(k, WOULD_BLOCK)) == r.(at := r.at - 1)
  {
  }

  lemma RideFunctor(s: State, k: LoopId, r: Rider, c: ConnId)
    requires Forsaken(s, k, c) && Onboard(s, k, r) && r.inBatch && r.at > 0 && AtRest(s, k)
    ensures var e := RunFunctor(k, WOULD_BLOCK);
            && Step(s, e).Ok? && Forsaken(Step(s, e).state, k, c) && Beside(s, k, r, e)
            && Carried(s, k, r, e) == r.(at := r.at - 1)
  {
    CarriedOn(s, k, r);
    FunctorForsaken(s, k, c);
    StepBeside(s, k, r, RunFunctor(k, WOULD_BLOCK));
  }

  lemma RideFinish(s: State, k: LoopId, r: Rider, c: ConnId)
    requires Forsaken(s, k, c) && Onboard(s, k, r) && r.inBatch && s.loops[k].closing.Some?
    ensures var e := FinishClose(k);
            && Step(s, e).Ok? && Forsaken(Step(s, e).state, k, c) && Beside(s, k, r, e)
            && Carried(s, k, r, e) == r && Step(s, e).state.loops[k].closing == None
  {
    FinishForsaken(s, k, c);
    StepBeside(s, k, r, FinishClose(k));
  }

  lemma RideOn(s: State, k: LoopId, r: Rider, c: ConnId)
    requires Forsaken(s, k, c) && Onboard(s, k, r) && r.inBatch && RideLeft(s.loops[k], r) > 0
    ensures var e := RideEvent(s.loops[k], k);
            && Step(s, e).Ok? && Forsaken(Step(s, e).state, k, c) && Beside(s, k, r, e)
            && Carried(s, k, r, e).inBatch && Carried(s, k, r, e).f == r.f
            && RideLeft(Step(s, e).state.loops[k], Carried(s, k, r, e)) < RideLeft(s.loops[k], r)
  {
    if s.loops[k].closing.Some? { RideFinish(s, k, r, c); } else { RideFunctor(s, k, r, c); }
  }

  /** The batch runs up to the late functor, which finds its connection destroyed. */
  lemma RideOut(s: State, k: LoopId, r: Rider, c: ConnId) returns (es: seq<Event>)
    requires Forsaken(s, k, c) && Onboard(s, k, r) && r.inBatch && r.f.SendLater? && r.f.c == c
    ensures AllBenign(es) && Run(Step, WithRider(s, k, r), es) == Abort("functor on a destroyed connection")
    decreases RideLeft(s.loops[k], r)
  {
    var e := RideEvent(s.loops[k], k);
    es := [e];
    RunOne(Step, WithRider(s, k, r), e);
    if RideLeft(s.loops[k], r) == 0 {
      TurnAborts(s, k, r, c);
    } else {
      RideOn(s, k, r, c);
      var rest := RideOut(Step(s, e).state, k, Carried(s, k, r, e), c);
      RunCons(Step, WithRider(s, k, r), e, rest);
      es := [e] + rest;
    }
  }

  /** A late send to an orphan leads to a functor on a destroyed connection. */
  lemma OrphanAborts(s: State, k: LoopId, r: Rider, c: ConnId) returns (es: seq<Event>)
    requires Orphan(s, k, c) && Onboard(s, k, r) && !r.inBatch && r.f.SendLater? && r.f.c == c
    ensures AllBenign(es) && Run(Step, WithRider(s, k, r), es) == Abort("functor on a destroyed connection")
  {
    var before := Prepare(s, k, c);
    OrphanRun(s, k, c, before);
    RunBeside(s, k, r, c, before);
    var s1 := Run(Step, s, before).state;
    var rest := SwapAndRide(s1, k, r, c);
    RunConcat(Step, WithRider(s, k, r), before, rest);
    es := before + rest;
  }

  lemma SwapAndRide(s: State, k: LoopId, r: Rider, c: ConnId) returns (es: seq<Event>)
    requires Orphan(s, k, c) && Poised(s, k, c) && Onboard(s, k, r) && !r.inBatch && r.f.SendLater? && r.f.c == c
    ensures AllBenign(es) && Run(Step, WithRider(s, k, r), es) == Abort("functor on a destroyed connection")
  {
    Swapped(s, k, c);
    StepBeside(s, k, r, EndHandling(k));
    var ride := RideOut(Step(s, EndHandling(k)).state, k, r.(inBatch := true), c);
    RunCons(Step, WithRider(s, k, r), EndHandling(k), ride);
    es := [EndHandling(k)] + ride;
  }

  // ----- the whole condition

  lemma QueuedLast(s: State, k: LoopId, f: Functor)
    requires k < |s.loops|
    ensures Enqueue(s, k, f) == WithRider(s, k, Rider(f, false, |s.loops[k].pending|))
  {
    var p := s.loops[k].pending;
    assert Inserted(p, |p|, f) == p + [f];
  }

  lemma DestroyNotTwice(s: State, k: LoopId, c: ConnId)
    requires QueueInv(s) && k < |s.loops| && c in s.conns
    requires s.conns[c].stage != Destroying || DestroyConn(c) in s.loops[k].pending
    ensures DestroyConn(c) !in s.loops[k].batch
  {
    var l := s.loops[k];
    if DestroyConn(c) in l.batch {
      var i :| 0 <= i < |l.batch| && l.batch[i] == DestroyConn(c);
      assert l.Todo()[i] == DestroyConn(c);
      QueuedShape(s, k, i);
      DestroyShape(s.conns[c].stage, c, s.conns[c].loop, k, Mine(l.Todo(), c));
      var j :| 0 <= j < |l.pending| && l.pending[j] == DestroyConn(c);
      assert l.Todo()[|l.batch| + j] == DestroyConn(c);
      DestroyedLastHolds(s, c);
    }
  }

  lemma PendingDestroyStage(s: State, k: LoopId, c: ConnId)
    requires QueueInv(s) && k < |s.loops| && DestroyConn(c) in s.loops[k].pending
    ensures c in s.conns && s.conns[c].stage == Destroying
  {
    var l := s.loops[k];
    var j :| 0 <= j < |l.pending| && l.pending[j] == DestroyConn(c);
    assert l.Todo()[|l.batch| + j] == DestroyConn(c);
    QueuedShape(s, k, |l.batch| + j);
    DestroyShape(s.conns[c].stage, c, s.conns[c].loop, k, Mine(l.Todo(), c));
  }

  lemma BornIsQueued(s: State, k: LoopId, c: ConnId)
    requires QueueInv(s) && k < |s.loops| && c in s.conns && s.conns[c].loop == k && s.conns[c].stage == Born
    ensures Establish(c) in s.loops[k].Todo()
  {
    assert MineOk(s, k, c);
    MineIsQueued(s.loops[k].Todo(), c, Establish(c));
  }

  lemma LateSendHarmless(s: State, c: ConnId, f: Functor)
    requires QueueInv(s) && MapInv(s) && c in s.conns && s.conns[c].loop < |s.loops| && f.SendLater? && f.c == c
    requires s.InMap(c) || DestroyConn(c) in s.loops[s.conns[c].loop].pending
    ensures Harmless(s, s.conns[c].loop, Rider(f, false, |s.loops[s.conns[c].loop].pending|), c)
  {
    var k := s.conns[c].loop;
    assert s.InMap(c) <==> Mapped(s.conns[c].stage);
    if DestroyConn(c) in s.loops[k].pending {
      PendingDestroyStage(s, k, c);
    }
    DestroyNotTwice(s, k, c);
    if s.conns[c].stage == Born {
      BornIsQueued(s, k, c);
    }
    assert s.loops[k].pending[..|s.loops[k].pending|] == s.loops[k].pending;
  }

  /** The rest of `send` from another thread, queueing a functor with a raw `this`, is safe in
      every continuation if and only if the connection is still in the map, or its
      connectDestroyed is still pending on its loop: then both functors share a batch, whose
      vector keeps the connection alive.  Otherwise the functor can find it destroyed. */
  lemma SendNeedsALiveQueue(s: State, c: ConnId, message: seq<Byte>)
    requires Inv(s) && c in s.conns
    ensures s.Known(c)
    ensures s.InMap(c) || DestroyConn(c) in s.loops[s.conns[c].loop].pending <==>
            forall es :: AllBenign(es) ==> Run(Step, Enqueue(s, s.conns[c].loop, SendLater(c, message)), es).Ok?
  {
    OneConn(s, c);
    var k, f := s.conns[c].loop, SendLater(c, message);
    var r := Rider(f, false, |s.loops[k].pending|);
    QueuedLast(s, k, f);
    if s.InMap(c) || DestroyConn(c) in s.loops[k].pending {
      LateSendHarmless(s, c, f);
      forall es | AllBenign(es) ensures Run(Step, Enqueue(s, k, f), es).Ok? {
        HarmlessRun(s, k, r, c, es);
      }
    } else {
      var es := OrphanAborts(s, k, r, c);
    }
  }
}
