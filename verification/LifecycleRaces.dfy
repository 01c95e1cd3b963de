/** `forceClose` and `shutdown` test the state and act on it in two steps (net/TcpConnection.cpp,
    lines 109 to 131).  What follows when the connection was closed in between. */
module LifecycleRaces {
  import opened Endian
  import opened Lifecycle
  import opened LifecycleDrive
  import opened LifecycleInv
  import opened LifecycleLimits
  import opened LifecycleProof
  import opened LifecycleSteps
  import opened LifecycleTheorems
  import opened Machine
  import opened Names
  import opened Polling
  import opened Seqs

  // ----- removals to come

  function Count(l: Loop, f: Functor): nat {
    multiset(l.Todo())[f]
  }

  /** The removals of c that are on their way: a close callback to come, and queued removals. */
  function Removals(s: State, c: ConnId): nat
    requires |s.loops| > 0 && c in s.conns && s.conns[c].loop < |s.loops|
  {
    (if s.loops[s.conns[c].loop].closing == Some(c) then 1 else 0) + Count(s.loops[0], Remove(c))
  }

  /** One more than `connections_` can take. */
  function TooMany(s: State, c: ConnId): nat {
    if s.Name(c) in s.connections then 2 else 1
  }

  predicate Batched(s: State) {
    forall k :: 0 <= k < |s.loops| && s.loops[k].phase != Calling ==> s.loops[k].batch == []
  }

  predicate Placed(s: State, c: ConnId) {
    && |s.config.ipPort| <= 51 && 1 <= c < s.nextConnId <= INT_MAX + 1
    && |s.loops| > 0 && c in s.conns && s.conns[c].loop < |s.loops| && Batched(s)
  }

  /** A connection that was made Disconnecting again after its close: it stays so, or it is closed
      again, and then more removals are on their way than the map can take. */
  predicate Condemned(s: State, c: ConnId) {
    && Placed(s, c)
    && match s.conns[c].state
       case Disconnecting => Removals(s, c) + 1 >= TooMany(s, c)
       case Disconnected => Removals(s, c) >= TooMany(s, c)
       case _ => false
  }

  /** Its second close is queued. */
  predicate ForcePending(s: State, c: ConnId)
    requires Placed(s, c)
  {
    s.conns[c].state == Disconnecting ==> Count(s.loops[s.conns[c].loop], ForceClose(c)) > 0
  }

  // ----- steps that leave all this alone

  predicate Steady(s: State, t: State, c: ConnId) {
    Placed(s, c) ==>
      && Placed(t, c) && t.config == s.config && |t.loops| == |s.loops|
      && t.conns[c].loop == s.conns[c].loop && t.conns[c].state == s.conns[c].state
      && (s.loops[s.conns[c].loop].closing == Some(c) ==> t.loops[s.conns[c].loop].closing == Some(c))
      && Count(t.loops[0], Remove(c)) >= Count(s.loops[0], Remove(c))
      && Count(t.loops[s.conns[c].loop], ForceClose(c)) >= Count(s.loops[s.conns[c].loop], ForceClose(c))
      && (s.Name(c) in t.connections ==> s.Name(c) in s.connections)
  }

  lemma SteadyKeeps(s: State, t: State, c: ConnId)
    requires Condemned(s, c) && Steady(s, t, c)
    ensures Condemned(t, c) && (ForcePending(s, c) ==> ForcePending(t, c))
  {
  }

  /** The loop lost no functor. */
  predicate Queues(l: Loop, m: Loop) {
    m.phase == l.phase && m.batch == l.batch && m.ran == l.ran && l.pending <= m.pending
  }

  lemma QueuesCount(l: Loop, m: Loop, f: Functor)
    requires Queues(l, m)
    ensures Count(m, f) >= Count(l, f)
  {
    var x := m.pending[|l.pending|..];
    assert m.pending == l.pending + x;
    Assoc(l.batch, l.pending, x);
    assert m.Todo() == l.Todo() + x;
  }

  /** An operation on connection d: queues only grow, other connections stay. */
  predicate Touches(s: State, t: State, d: ConnId) {
    && |t.loops| == |s.loops| && t.config == s.config && t.nextConnId == s.nextConnId
    && d in s.conns && d in t.conns && t.conns == s.conns[d := t.conns[d]] && t.conns[d].loop == s.conns[d].loop
    && (forall k :: 0 <= k < |s.loops| ==> Queues(s.loops[k], t.loops[k]))
    && (forall n :: n in t.connections ==> n in s.connections)
  }

  /** The loops that close something go on closing it. */
  predicate ClosingStays(s: State, t: State) {
    && |t.loops| == |s.loops|
    && forall k :: 0 <= k < |s.loops| && s.loops[k].closing.Some? ==> t.loops[k].closing == s.loops[k].closing
  }

  predicate StillClosing(s: State, t: State, c: ConnId) {
    && |t.loops| == |s.loops|
    && forall k :: 0 <= k < |s.loops| && s.loops[k].closing == Some(c) ==> t.loops[k].closing == Some(c)
  }

  lemma TouchesSteady(s: State, t: State, d: ConnId, c: ConnId)
    requires Touches(s, t, d) && StillClosing(s, t, c) && (d == c ==> t.conns[c].state == s.conns[c].state)
    ensures Steady(s, t, c)
  {
    if Placed(s, c) {
      QueuesCount(s.loops[0], t.loops[0], Remove(c));
      QueuesCount(s.loops[s.conns[c].loop], t.loops[s.conns[c].loop], ForceClose(c));
      forall k | 0 <= k < |t.loops| && t.loops[k].phase != Calling ensures t.loops[k].batch == [] {
        assert Queues(s.loops[k], t.loops[k]);
      }
    }
  }

  // ----- operations

  lemma EstablishingTouches(s: State, d: ConnId)
    requires s.Known(d) && Establishing(s, d).Ok?
    ensures Touches(s, Establishing(s, d).state, d) && ClosingStays(s, Establishing(s, d).state)
  {
  }

  lemma CloseTouches(s: State, d: ConnId)
    requires s.Known(d) && CloseConn(s, d).Ok? && s.loops[s.conns[d].loop].closing == None
    ensures Touches(s, CloseConn(s, d).state, d) && ClosingStays(s, CloseConn(s, d).state)
  {
  }

  lemma RemoveTouches(s: State, d: ConnId)
    requires s.Known(d) && RemoveConn(s, d).Ok?
    ensures Touches(s, RemoveConn(s, d).state, d) && ClosingStays(s, RemoveConn(s, d).state)
    ensures RemoveConn(s, d).state.conns[d].state == s.conns[d].state
    ensures s.Name(d) in s.connections && s.Name(d) !in RemoveConn(s, d).state.connections
  {
  }

  lemma DestroyTouches(s: State, k: LoopId, d: ConnId)
    requires s.Known(d) && k < |s.loops| && DestroyNow(s, k, d).Ok?
    ensures Touches(s, DestroyNow(s, k, d).state, d) && ClosingStays(s, DestroyNow(s, k, d).state)
    ensures s.conns[d].state != Connected ==> DestroyNow(s, k, d).state.conns[d].state == s.conns[d].state
  {
  }

  lemma ShutdownNowTouches(s: State, d: ConnId)
    requires s.Known(d)
    ensures Touches(s, ShutdownNow(s, d), d) && ClosingStays(s, ShutdownNow(s, d))
    ensures ShutdownNow(s, d).conns[d].state == s.conns[d].state
  {
    assert s.conns[d := s.conns[d]] == s.conns;
  }

  lemma SendTouches(s: State, d: ConnId, message: seq<Byte>, io: Io)
    requires s.Known(d) && PossibleSend(io, message) && SendNow(s, d, message, io).Ok?
    ensures var t := SendNow(s, d, message, io).state;
            Touches(s, t, d) && ClosingStays(s, t) && t.conns[d].state == s.conns[d].state
  {
  }

  lemma TouchesTransitive(s: State, t: State, u: State, d: ConnId)
    requires Touches(s, t, d) && Touches(t, u, d)
    ensures Touches(s, u, d)
  {
    forall k | 0 <= k < |s.loops| ensures Queues(s.loops[k], u.loops[k]) {
      assert Queues(s.loops[k], t.loops[k]) && Queues(t.loops[k], u.loops[k]);
    }
  }

  lemma SameTouches(s: State, d: ConnId)
    requires d in s.conns
    ensures Touches(s, s, d) && ClosingStays(s, s)
  {
    assert s.conns[d := s.conns[d]] == s.conns;
  }

  lemma DrainedTouches(s: State, d: ConnId)
    requires s.Known(d) && Drained(s, d).Ok?
    ensures var t := Drained(s, d).state;
            Touches(s, t, d) && ClosingStays(s, t) && t.conns[d].state == s.conns[d].state
  {
  }

  lemma WriteTouches(s: State, d: ConnId, n: int)
    requires s.Known(d) && n <= |s.conns[d].output| && WriteReady(s, d, n).Ok?
    ensures var t := WriteReady(s, d, n).state;
            Touches(s, t, d) && ClosingStays(s, t) && t.conns[d].state == s.conns[d].state
  {
    SameTouches(s, d);
    ShutdownNowTouches(s, d);
    if s.Chan(d).IsWriting() && n > 0 && n == |s.conns[d].output| {
      var t := Drained(s, d).state;
      DrainedTouches(s, d);
      ShutdownNowTouches(t, d);
      TouchesTransitive(s, t, ShutdownNow(t, d), d);
    }
  }

  lemma UserTouches(s: State, d: ConnId, call: UserCall, inLoop: bool)
    requires s.Known(d) && UserStep(s, d, call, inLoop).Ok?
    ensures var t := UserStep(s, d, call, inLoop).state;
            && Touches(s, t, d) && ClosingStays(s, t)
            && (s.conns[d].state != Connected ==> t.conns[d].state == s.conns[d].state)
  {
    SameTouches(s, d);
    match call
    case Send(message, io) =>
      if s.conns[d].state == Connected && inLoop && PossibleSend(io, message) {
        SendTouches(s, d, message, io);
      }
    case Shutdown =>
    case Force =>
  }

  // ----- the exceptions

  /** The second close. */
  lemma CloseCondemned(s: State, c: ConnId)
    requires Condemned(s, c) && s.Known(c) && CloseConn(s, c).Ok? && s.loops[s.conns[c].loop].closing == None
    ensures Condemned(CloseConn(s, c).state, c) && CloseConn(s, c).state.conns[c].state == Disconnected
  {
    var t := CloseConn(s, c).state;
    CloseTouches(s, c);
    QueuesCount(s.loops[0], t.loops[0], Remove(c));
    forall k | 0 <= k < |t.loops| && t.loops[k].phase != Calling ensures t.loops[k].batch == [] {
      assert Queues(s.loops[k], t.loops[k]);
    }
  }

  /** A removal of c uses up a place in the map. */
  lemma RemoveCondemned(s: State, t: State, c: ConnId)
    requires Condemned(s, c) && Placed(t, c) && t.config == s.config
    requires s.Name(c) in s.connections && s.Name(c) !in t.connections
    requires t.conns[c].state == s.conns[c].state && Removals(t, c) + 1 >= Removals(s, c)
    ensures Condemned(t, c)
  {
  }

  lemma FinishQueued(s: State, k: LoopId, d: ConnId)
    requires s.Known(d) && 0 < k < |s.loops| && FinishClosing(s, k, d).Ok?
    ensures var t := FinishClosing(s, k, d).state;
            && Touches(s, t, d) && t.connections == s.connections && t.conns[d].state == s.conns[d].state
            && t.loops[0].pending == s.loops[0].pending + [Remove(d)]
            && forall j :: 0 <= j < |s.loops| && j != k ==> t.loops[j].closing == s.loops[j].closing
  {
  }

  lemma FinishInline(s: State, d: ConnId)
    requires s.Known(d) && |s.loops| > 0 && FinishClosing(s, 0, d).Ok?
    ensures var t := FinishClosing(s, 0, d).state;
            && Touches(s, t, d) && t.conns[d].state == s.conns[d].state
            && s.Name(d) in s.connections && s.Name(d) !in t.connections
            && forall j :: 0 < j < |s.loops| ==> t.loops[j].closing == s.loops[j].closing
  {
  }

  lemma OneMore(l: Loop, m: Loop, f: Functor)
    requires Queues(l, m) && m.pending == l.pending + [f]
    ensures Count(m, f) == Count(l, f) + 1
  {
    Assoc(l.batch, l.pending, [f]);
    assert m.Todo() == l.Todo() + [f];
  }

  /** Everything the invariant of a condemned connection needs, and perhaps the forced close. */
  predicate Fated(s: State, c: ConnId, force: bool) {
    Condemned(s, c) && (force ==> ForcePending(s, c))
  }

  lemma SteadyFated(s: State, t: State, c: ConnId, force: bool)
    requires Fated(s, c, force) && Steady(s, t, c)
    ensures Fated(t, c, force)
  {
    SteadyKeeps(s, t, c);
  }

  lemma TouchesPlaced(s: State, t: State, d: ConnId, c: ConnId)
    requires Touches(s, t, d) && Placed(s, c)
    ensures Placed(t, c)
  {
    forall k | 0 <= k < |t.loops| && t.loops[k].phase != Calling ensures t.loops[k].batch == [] {
      assert Queues(s.loops[k], t.loops[k]);
    }
  }

  lemma FinishOwnFated(s: State, k: LoopId, c: ConnId, force: bool)
    requires Fated(s, c, force) && s.Known(c) && k < |s.loops| && s.loops[k].closing == Some(c)
    requires FinishClosing(s, k, c).Ok?
    ensures Fated(FinishClosing(s, k, c).state, c, force)
  {
    var t, home := FinishClosing(s, k, c).state, s.conns[c].loop;
    if k == 0 {
      FinishInline(s, c);
      TouchesPlaced(s, t, c, c);
      QueuesCount(s.loops[0], t.loops[0], Remove(c));
      QueuesCount(s.loops[home], t.loops[home], ForceClose(c));
      RemoveCondemned(s, t, c);
    } else {
      FinishQueued(s, k, c);
      TouchesPlaced(s, t, c, c);
      OneMore(s.loops[0], t.loops[0], Remove(c));
      QueuesCount(s.loops[home], t.loops[home], ForceClose(c));
    }
  }

  lemma FinishOtherFated(s: State, k: LoopId, d: ConnId, c: ConnId, force: bool)
    requires Fated(s, c, force) && s.Known(d) && d != c && k < |s.loops| && s.loops[k].closing == Some(d)
    requires FinishClosing(s, k, d).Ok?
    ensures Fated(FinishClosing(s, k, d).state, c, force)
  {
    if k == 0 {
      FinishInline(s, d);
    } else {
      FinishQueued(s, k, d);
    }
    TouchesSteady(s, FinishClosing(s, k, d).state, d, c);
    SteadyFated(s, FinishClosing(s, k, d).state, c, force);
  }

  // ----- functors

  lemma PopCount(s: State, k: LoopId, f: Functor)
    requires HasFunctor(s, k)
    ensures Count(s.loops[k], f) == Count(PopFunctor(s, k).loops[k], f) + if s.loops[k].batch[0] == f then 1 else 0
  {
    var l, m := s.loops[k], PopFunctor(s, k).loops[k];
    assert l.Todo() == [l.batch[0]] + m.Todo();
  }

  lemma PopSteady(s: State, k: LoopId, c: ConnId)
    requires HasFunctor(s, k) && s.loops[k].phase == Calling
    requires s.loops[k].batch[0] != Remove(c) && s.loops[k].batch[0] != ForceClose(c)
    ensures Steady(s, PopFunctor(s, k), c)
  {
    PopCount(s, k, Remove(c));
    PopCount(s, k, ForceClose(c));
  }

  lemma TouchFated(s: State, t: State, d: ConnId, c: ConnId, force: bool)
    requires Fated(s, c, force) && Touches(s, t, d) && ClosingStays(s, t)
    requires d == c ==> t.conns[c].state == s.conns[c].state
    ensures Fated(t, c, force)
  {
    TouchesSteady(s, t, d, c);
    SteadyFated(s, t, c, force);
  }

  lemma RemoveOwnFated(s: State, c: ConnId, force: bool)
    requires Fated(s, c, force) && HasFunctor(s, 0) && s.loops[0].phase == Calling && s.loops[0].batch[0] == Remove(c)
    requires PopFunctor(s, 0).Known(c) && RemoveConn(PopFunctor(s, 0), c).Ok?
    ensures Fated(RemoveConn(PopFunctor(s, 0), c).state, c, force)
  {
    var u, home := PopFunctor(s, 0), s.conns[c].loop;
    var t := RemoveConn(u, c).state;
    PopCount(s, 0, Remove(c));
    PopCount(s, 0, ForceClose(c));
    RemoveTouches(u, c);
    TouchesPlaced(u, t, c, c);
    QueuesCount(u.loops[0], t.loops[0], Remove(c));
    QueuesCount(u.loops[home], t.loops[home], ForceClose(c));
    RemoveCondemned(s, t, c);
  }

  lemma ForceOwnFated(s: State, k: LoopId, c: ConnId, force: bool)
    requires Fated(s, c, force) && AtRest(s, k) && HasFunctor(s, k) && s.loops[k].phase == Calling
    requires s.loops[k].batch[0] == ForceClose(c) && s.conns[c].loop == k && PopFunctor(s, k).Known(c)
    ensures var u := PopFunctor(s, k);
            && (u.conns[c].state == Disconnecting && CloseConn(u, c).Ok? ==> Fated(CloseConn(u, c).state, c, force))
            && (u.conns[c].state == Disconnected ==> Fated(u, c, force))
  {
    var u := PopFunctor(s, k);
    PopCount(s, k, Remove(c));
    assert Condemned(u, c);
    if u.conns[c].state == Disconnecting && CloseConn(u, c).Ok? {
      CloseCondemned(u, c);
    }
  }

  lemma FunctorFated(s: State, k: LoopId, io: Io, c: ConnId, force: bool)
    requires Fated(s, c, force) && AtRest(s, k) && HasFunctor(s, k) && s.loops[k].phase == Calling && IoFits(s, k, io)
    requires RunningFunctor(s, k, io).Ok?
    ensures Fated(RunningFunctor(s, k, io).state, c, force)
  {
    RunningFunctorIs(s, k, io);
    var f, u := s.loops[k].batch[0], PopFunctor(s, k);
    if f == Remove(c) {
      RemoveOwnFated(s, c, force);
    } else if f == ForceClose(c) {
      ForceOwnFated(s, k, c, force);
    } else {
      PopSteady(s, k, c);
      SteadyFated(s, u, c, force);
      OtherFunctorFated(s, k, io, c, force);
    }
  }

  lemma OtherFunctorFated(s: State, k: LoopId, io: Io, c: ConnId, force: bool)
    requires AtRest(s, k) && HasFunctor(s, k) && s.loops[k].phase == Calling && IoFits(s, k, io)
    requires s.loops[k].batch[0] != Remove(c) && s.loops[k].batch[0] != ForceClose(c)
    requires Fated(PopFunctor(s, k), c, force) && RunningFunctor(s, k, io).Ok?
    ensures Fated(RunningFunctor(s, k, io).state, c, force)
  {
    RunningFunctorIs(s, k, io);
    var u, t := PopFunctor(s, k), RunningFunctor(s, k, io).state;
    match s.loops[k].batch[0]
    case Establish(d) =>
      EstablishingTouches(u, d);
      TouchFated(u, t, d, c, force);
    case SendLater(d, message) =>
      SendTouches(u, d, message, io);
      TouchFated(u, t, d, c, force);
    case ShutdownLater(d) =>
      ShutdownNowTouches(u, d);
      TouchFated(u, t, d, c, force);
    case ForceClose(d) =>
      if IsOpen(u.conns[d].state) {
        CloseTouches(u, d);
        TouchFated(u, t, d, c, force);
      }
    case WriteComplete(_) =>
    case HighWater(_, _) =>
    case Remove(d) =>
      RemoveTouches(u, d);
      TouchFated(u, t, d, c, force);
    case DestroyConn(d) =>
      DestroyTouches(u, k, d);
      TouchFated(u, t, d, c, force);
  }

  // ----- callbacks

  lemma LoopSteady(s: State, k: LoopId, l: Loop, c: ConnId)
    requires k < |s.loops| && l.closing == s.loops[k].closing && l.Todo() == s.loops[k].Todo()
    requires l.phase != Calling ==> l.batch == []
    ensures Steady(s, SetLoop(s, k, l), c)
  {
  }

  lemma CallbackFated(s: State, k: LoopId, n: int, c: ConnId, force: bool)
    requires Fated(s, c, force) && AtRest(s, k) && HasCallback(s, k) && WriteFits(s, k, n)
    requires RunningCallback(s, k, n).Ok?
    ensures Fated(RunningCallback(s, k, n).state, c, force)
  {
    var u, d := PopCallback(s, k), s.loops[k].phase.current;
    LoopSteady(s, k, u.loops[k], c);
    SteadyFated(s, u, c, force);
    if s.loops[k].phase.callbacks[0] != ErrorCb {
      RunningCallbackIs(s, k, n);
      match s.loops[k].phase.callbacks[0]
      case CloseCb => ClosedFated(u, k, d, c, force);
      case ReadCb => if n == 0 { ClosedFated(u, k, d, c, force); }
      case WriteCb =>
        WriteTouches(u, d, n);
        TouchFated(u, WriteReady(u, d, n).state, d, c, force);
    }
  }

  lemma ClosedFated(s: State, k: LoopId, d: ConnId, c: ConnId, force: bool)
    requires Fated(s, c, force) && AtRest(s, k) && s.Known(d) && s.conns[d].loop == k && CloseConn(s, d).Ok?
    ensures Fated(CloseConn(s, d).state, c, force)
  {
    if d == c {
      CloseCondemned(s, c);
    } else {
      CloseTouches(s, d);
      TouchFated(s, CloseConn(s, d).state, d, c, force);
    }
  }

  // ----- every step

  lemma RegisteredSteady(s: State, fd: int, c: ConnId)
    requires NextHome(s) < |s.loops| && s.nextConnId <= INT_MAX
    ensures Steady(s, Registered(s, fd), c)
  {
    if Placed(s, c) {
      NamesInjective(s.config.server, s.config.ipPort, c, s.nextConnId);
    }
  }

  lemma AcceptFated(s: State, fd: int, c: ConnId, force: bool)
    requires Fated(s, c, force) && (|s.loops| == 1 || s.nextLoop + 1 < |s.loops|) && s.nextConnId <= INT_MAX
    requires AcceptConn(s, fd).Ok?
    ensures Fated(AcceptConn(s, fd).state, c, force)
  {
    var t, d := Registered(s, fd), s.nextConnId;
    RegisteredSteady(s, fd, c);
    SteadyFated(s, t, c, force);
    AcceptIs(s, fd);
    if NextHome(s) == 0 {
      EstablishingTouches(t, d);
      TouchFated(t, AcceptConn(s, fd).state, d, c, force);
    } else {
      SameTouches(t, d);
      TouchFated(t, Enqueue(t, NextHome(s), Establish(d)), d, c, force);
    }
  }

  lemma LoopStepFated(s: State, e: Event, c: ConnId, force: bool)
    requires Fated(s, c, force) && (e.Poll? || e.NextChannel? || e.EndHandling? || e.EndBatch?) && Step(s, e).Ok?
    ensures Fated(Step(s, e).state, c, force)
  {
    var t := Step(s, e).state;
    if t != s {
      assert t == SetLoop(s, e.l, t.loops[e.l]);
      assert [] + s.loops[e.l].pending == s.loops[e.l].pending + [];
      LoopSteady(s, e.l, t.loops[e.l], c);
      SteadyFated(s, t, c, force);
    }
  }

  lemma FinishFated(s: State, k: LoopId, c: ConnId, force: bool)
    requires Fated(s, c, force) && Step(s, FinishClose(k)).Ok?
    ensures Fated(Step(s, FinishClose(k)).state, c, force)
  {
    if k < |s.loops| && s.loops[k].closing.Some? {
      var d := s.loops[k].closing.value;
      FinishCloseIs(s, k, d);
      if d == c {
        FinishOwnFated(s, k, c, force);
      } else {
        FinishOtherFated(s, k, d, c, force);
      }
    }
  }

  /** Whatever any thread does next, a condemned connection stays condemned, or the step aborts. */
  lemma StepFated(s: State, e: Event, c: ConnId, force: bool)
    requires Fated(s, c, force) && Step(s, e).Ok?
    ensures Fated(Step(s, e).state, c, force)
  {
    match e
    case Accept(fd) => if Step(s, e).state != s { AcceptFated(s, fd, c, force); }
    case RunCallback(k, n) => if AtRest(s, k) && HasCallback(s, k) && WriteFits(s, k, n) { CallbackFated(s, k, n, c, force); }
    case RunFunctor(k, io) =>
      if AtRest(s, k) && s.loops[k].phase == Calling && HasFunctor(s, k) && IoFits(s, k, io) { FunctorFated(s, k, io, c, force); }
    case FinishClose(k) => FinishFated(s, k, c, force);
    case Call(thread, d, call) =>
      if Step(s, e).state != s {
        UserTouches(s, d, call, thread == Some(s.conns[d].loop));
        TouchFated(s, Step(s, e).state, d, c, force);
      }
    case Hold(_) => SteadyFated(s, Step(s, e).state, c, force);
    case Release(_) => SteadyFated(s, Step(s, e).state, c, force);
    case _ => LoopStepFated(s, e, c, force);
  }

  lemma {:induction false} RunFated(s: State, es: seq<Event>, c: ConnId, force: bool)
    requires Fated(s, c, force) && Run(Step, s, es).Ok?
    ensures Fated(Run(Step, s, es).state, c, force)
    decreases |es|
  {
    if es != [] {
      StepFated(s, es[0], c, force);
      RunFated(Step(s, es[0]).state, es[1..], c, force);
    }
  }

  /** A condemned connection that nothing owns any more died Disconnecting. */
  lemma DiesDisconnecting(s: State, c: ConnId)
    requires Condemned(s, c) && !Alive(s, c)
    ensures s.conns[c].state == Disconnecting
  {
    var home := s.conns[c].loop;
    assert !LoopOwns(s.loops[home], c) && !LoopOwns(s.loops[0], c);
    if Count(s.loops[0], Remove(c)) > 0 {
      QueuedOwns(s.loops[0], Remove(c));
    }
  }

  // ----- the late part of a call

  function Reopened(s: State, c: ConnId): State
    requires c in s.conns
  {
    SetConn(s, c, s.conns[c].(state := Disconnecting))
  }

  lemma UnmappedName(s: State, c: ConnId)
    requires MapInv(s) && c in s.conns && !s.InMap(c)
    ensures s.Name(c) !in s.connections
  {
    if s.Name(c) in s.connections {
      NamesInjective(s.config.server, s.config.ipPort, c, s.connections[s.Name(c)]);
    }
  }

  lemma QueuedRemoval(s: State, c: ConnId)
    requires QueueInv(s) && |s.loops| > 0 && c in s.conns && s.conns[c].stage == Removing && s.conns[c].loop != 0
    ensures Count(s.loops[0], Remove(c)) > 0
  {
    assert MineOk(s, 0, c);
    MineIsQueued(s.loops[0].Todo(), c, Remove(c));
  }

  /** A closed connection in the map has its removal on the way. */
  lemma RemovalOnItsWay(s: State, c: ConnId)
    requires QueueInv(s) && MapInv(s) && LoopsInv(s) && s.Known(c) && ConnInv(s.conns[c])
    requires s.conns[c].state == Disconnected
    ensures Removals(s, c) + 1 >= TooMany(s, c)
  {
    assert s.InMap(c) <==> Mapped(s.conns[c].stage);
    if s.conns[c].stage == Removing {
      QueuedRemoval(s, c);
    } else if s.conns[c].stage != Closing {
      UnmappedName(s, c);
    }
  }

  lemma ReopenedIsCondemned(s: State, c: ConnId)
    requires Inv(s) && c in s.conns && s.conns[c].state == Disconnected
    ensures s.Known(c) && Condemned(Reopened(s, c), c)
  {
    assert s.Known(c) && ConnInv(s.conns[c]);
    RemovalOnItsWay(s, c);
    forall k | 0 <= k < |s.loops| && s.loops[k].phase != Calling ensures s.loops[k].batch == [] {
      assert LoopInv(s, k);
    }
  }

  lemma LateForceFated(s: State, c: ConnId)
    requires s.Known(c) && Condemned(Reopened(s, c), c)
    ensures Fated(CommitForce(s, c), c, true)
  {
    var u, t, home := Reopened(s, c), CommitForce(s, c), s.conns[c].loop;
    SameTouches(u, c);
    TouchesSteady(u, t, c, c);
    SteadyKeeps(u, t, c);
    OneMore(u.loops[home], t.loops[home], ForceClose(c));
  }

  lemma LateShutdownFated(s: State, c: ConnId, inLoop: bool)
    requires s.Known(c) && Condemned(Reopened(s, c), c)
    ensures Condemned(CommitShutdown(s, c, inLoop), c)
  {
    var u, t := Reopened(s, c), CommitShutdown(s, c, inLoop);
    SameTouches(u, c);
    ShutdownNowTouches(u, c);
    TouchesSteady(u, t, c, c);
    SteadyKeeps(u, t, c);
  }

  /** Once nothing mentions it, no removal is left. */
  lemma ForgottenRemovals(s: State, c: ConnId)
    requires Placed(s, c) && AllLevel(s, c, 3)
    ensures Removals(s, c) == 0 && Count(s.loops[s.conns[c].loop], ForceClose(c)) == 0
  {
    var home := s.conns[c].loop;
    assert Level(s.loops[home], c, 3) && Level(s.loops[0], c, 3);
    NothingQueued(s.loops[0], c, Remove(c));
    NothingQueued(s.loops[home], c, ForceClose(c));
  }

  lemma NothingQueued(l: Loop, c: ConnId, f: Functor)
    requires Level(l, c, 3) && f.c == c
    ensures Count(l, f) == 0
  {
    assert forall i :: 0 <= i < |l.Todo()| ==> Allowed(l.Todo()[i], c, 3);
  }

  /** The rest of a `forceClose` whose connection was closed meanwhile leads to an abort: its
      second close sends a second removal to the server. */
  lemma LateForceAborts(s: State, c: ConnId) returns (es: seq<Event>)
    requires Inv(s) && c in s.conns && s.conns[c].state == Disconnected
    ensures s.Known(c) && AllBenign(es) && Run(Step, CommitForce(s, c), es).Abort?
  {
    ReopenedIsCondemned(s, c);
    LateForceFated(s, c);
    var t := CommitForce(s, c);
    es := Forget(t, c);
    if Run(Step, t, es).Ok? {
      RunFated(t, es, c, true);
      ForgottenRemovals(Run(Step, t, es).state, c);
    }
  }

  /** The rest of `forceClose` is safe in every continuation if and only if the connection is
      still open when it is done.  (The test has passed once, and states only move forward, so
      the connection is not Connecting.) */
  lemma ForceNeedsItsCheck(s: State, c: ConnId)
    requires Inv(s) && c in s.conns && s.conns[c].state != Connecting
    ensures s.Known(c)
    ensures IsOpen(s.conns[c].state) <==> forall es :: AllBenign(es) ==> Run(Step, CommitForce(s, c), es).Ok?
  {
    assert s.Known(c) && ConnInv(s.conns[c]);
    if IsOpen(s.conns[c].state) {
      ForceCallKeepsInv(s, c);
      forall es | AllBenign(es) ensures Run(Step, CommitForce(s, c), es).Ok? {
        BenignRunsOn(CommitForce(s, c), es);
      }
    } else {
      var es := LateForceAborts(s, c);
    }
  }

  /** After the rest of a `shutdown` whose connection was closed meanwhile, no continuation, of
      any kind, lets the connection die in good order: a run that does not abort ends with it
      alive, or dead and Disconnecting, where the destructor's assertion fails. */
  lemma LateShutdownNeverRecovers(s: State, c: ConnId, inLoop: bool, es: seq<Event>)
    requires Inv(s) && c in s.conns && s.conns[c].state == Disconnected
    ensures s.Known(c)
    ensures var r := Run(Step, CommitShutdown(s, c, inLoop), es);
            r.Ok? ==> c in r.state.conns && (Alive(r.state, c) || r.state.conns[c].state == Disconnecting)
  {
    ReopenedIsCondemned(s, c);
    LateShutdownFated(s, c, inLoop);
    var t := CommitShutdown(s, c, inLoop);
    if Run(Step, t, es).Ok? {
      RunFated(t, es, c, false);
      if !Alive(Run(Step, t, es).state, c) {
        DiesDisconnecting(Run(Step, t, es).state, c);
      }
    }
  }

  /** An abort, or a destructor that finds its connection not Disconnected. */
  predicate Fails(r: Outcome<State>, c: ConnId) {
    r.Abort? || (c in r.state.conns && !Alive(r.state, c) && r.state.conns[c].state != Disconnected)
  }

  /** A condemned connection that nothing mentions and nobody holds is dead. */
  lemma ForgottenIsDead(s: State, c: ConnId)
    requires Condemned(s, c) && AllLevel(s, c, 3) && c !in s.held
    ensures !Alive(s, c) && s.conns[c].state == Disconnecting
  {
    ForgottenRemovals(s, c);
    forall k | 0 <= k < |s.loops| ensures !LoopOwns(s.loops[k], c) {
      assert Level(s.loops[k], c, 3);
    }
  }

  /** Its references let go and its loops run on, a condemned connection comes to a bad end. */
  lemma CondemnedFails(s: State, c: ConnId) returns (es: seq<Event>)
    requires Condemned(s, c)
    ensures AllBenign(es) && Fails(Run(Step, s, es), c)
  {
    var t := s.(held := s.held - {c});
    assert Step(s, Release(c)) == Ok(t);
    StepFated(s, Release(c), c, false);
    var rest := Forget(t, c);
    es := [Release(c)] + rest;
    RunCons(Step, s, Release(c), rest);
    if Run(Step, t, rest).Ok? {
      RunFated(t, rest, c, false);
      ForgottenIsDead(Run(Step, t, rest).state, c);
    }
  }

  lemma LateShutdownFails(s: State, c: ConnId, inLoop: bool) returns (es: seq<Event>)
    requires Inv(s) && c in s.conns && s.conns[c].state == Disconnected
    ensures s.Known(c) && AllBenign(es) && Fails(Run(Step, CommitShutdown(s, c, inLoop), es), c)
  {
    ReopenedIsCondemned(s, c);
    LateShutdownFated(s, c, inLoop);
    es := CondemnedFails(CommitShutdown(s, c, inLoop), c);
  }

  lemma InOrderNeverFails(s: State, c: ConnId, es: seq<Event>)
    requires Inv(s) && AllBenign(es)
    ensures !Fails(Run(Step, s, es), c)
  {
    BenignRunsOn(s, es);
    var t := Run(Step, s, es).state;
    if c in t.conns && !Alive(t, c) {
      DeadIsGone(t, c);
    }
  }

  /** The rest of `shutdown` is safe in every continuation, destructor included, if and only if
      the connection is still open when it is done. */
  lemma ShutdownNeedsItsCheck(s: State, c: ConnId, inLoop: bool)
    requires Inv(s) && c in s.conns && s.conns[c].state != Connecting
    ensures s.Known(c)
    ensures IsOpen(s.conns[c].state) <==>
            forall es :: AllBenign(es) ==> !Fails(Run(Step, CommitShutdown(s, c, inLoop), es), c)
  {
    assert s.Known(c) && ConnInv(s.conns[c]);
    if IsOpen(s.conns[c].state) {
      CommitShutdownKeepsInv(s, c, inLoop);
      forall es | AllBenign(es) ensures !Fails(Run(Step, CommitShutdown(s, c, inLoop), es), c) {
        InOrderNeverFails(CommitShutdown(s, c, inLoop), c, es);
      }
    } else {
      var es := LateShutdownFails(s, c, inLoop);
    }
  }
}
