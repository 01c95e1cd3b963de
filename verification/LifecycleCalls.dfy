/** What the user's calls and the accepting of a connection do, and who gets which connection. */
module LifecycleCalls {
  import opened Endian
  import opened Lifecycle
  import opened LifecycleBeside
  import opened LifecycleEnding
  import opened LifecycleInv
  import opened LifecycleLateSend
  import opened LifecycleSteps
  import opened LifecycleTheorems
  import opened LifecycleTraffic
  import opened Machine
  import opened Names
  import opened Polling
  import opened Seqs

  // ----- user calls

  /** One functor was queued on loop k, and perhaps connection c changed its state. */
  predicate Queued(s: State, t: State, c: ConnId, state: ConnState, k: LoopId, f: Functor) {
    && c in s.conns && k < |s.loops| && t == s.(conns := t.conns, loops := t.loops)
    && t.conns == s.conns[c := s.conns[c].(state := state)]
    && t.loops == s.loops[k := s.loops[k].(pending := s.loops[k].pending + [f])]
  }

  /** From another thread a call on a connection in the right state queues exactly its functor on
      the connection's loop; forceClose does so on every thread. */
  lemma CallQueues(s: State, thread: Option<LoopId>, c: ConnId, call: UserCall)
    requires s.Known(c) && Alive(s, c) && MayCall(s, thread) && (thread != Some(s.conns[c].loop) || call.Force?)
    ensures Step(s, Call(thread, c, call)).Ok?
    ensures var t, state, k := Step(s, Call(thread, c, call)).state, s.conns[c].state, s.conns[c].loop;
            match call
            case Send(message, _) =>
              if state == Connected then Queued(s, t, c, Connected, k, SendLater(c, message)) else t == s
            case Shutdown =>
              if state == Connected then Queued(s, t, c, Disconnecting, k, ShutdownLater(c)) else t == s
            case Force =>
              if IsOpen(state) then Queued(s, t, c, Disconnecting, k, ForceClose(c)) else t == s
  {
    assert s.conns[c := s.conns[c]] == s.conns;
    assert s.conns[c] == s.conns[c].(state := s.conns[c].state);
  }

  /** On the connection's own thread `send` and `shutdown` act at once, on a Connected connection
      only. */
  lemma CallActs(s: State, c: ConnId, call: UserCall)
    requires s.Known(c) && Alive(s, c) && s.loops[s.conns[c].loop].phase != AtPoll && !call.Force?
    ensures var r := Step(s, Call(Some(s.conns[c].loop), c, call));
            && (s.conns[c].state != Connected ==> r == Ok(s))
            && (r.Ok? ==> Adds(s, r.state, c, TrafficBy(s, Call(Some(s.conns[c].loop), c, call), c)))
            && (s.conns[c].state == Connected && call.Shutdown? ==>
                  r.Ok? && c in r.state.conns && r.state.conns[c].state == Disconnecting)
  {
    if Step(s, Call(Some(s.conns[c].loop), c, call)).Ok? {
      CallStepCarries(s, Some(s.conns[c].loop), c, call, c);
    }
  }

  // ----- the loop thread

  /** Loop k alone moved, and touched no connection. */
  predicate Moved(s: State, t: State, k: LoopId, l: Loop) {
    k < |s.loops| && t == s.(loops := s.loops[k := l])
  }

  /** The loop thread takes the reported channels, and the functors of its batch, in order: poll
      hands over what the kernel reports, each dispatch takes the first channel that is left and
      makes all of its callbacks, and a swap takes everything pending. */
  lemma LoopThreadSteps(s: State, k: LoopId, ready: seq<Ready>)
    requires Inv(s) && AtRest(s, k)
    ensures var l := s.loops[k];
            && (l.phase == AtPoll && PossibleReady(l.world, ready) ==>
                  Step(s, Poll(k, ready)).Ok? && Moved(s, Step(s, Poll(k, ready)).state, k, l.(phase := Handling(ready, 0, []))))
            && (l.phase.Handling? && l.phase.callbacks == [] && l.phase.active != [] ==>
                  && Step(s, NextChannel(k)).Ok?
                  && var next := l.phase.active[0];
                     Moved(s, Step(s, NextChannel(k)).state, k,
                           l.(phase := Handling(l.phase.active[1..], next.c, Callbacks(next.revents)))))
            && (l.phase.Handling? && l.phase.callbacks == [] && l.phase.active == [] ==>
                  && Step(s, EndHandling(k)).Ok?
                  && Moved(s, Step(s, EndHandling(k)).state, k, l.(phase := Calling, batch := l.pending, pending := [])))
            && (l.phase == Calling && l.batch == [] ==>
                  Step(s, EndBatch(k)).Ok? && Moved(s, Step(s, EndBatch(k)).state, k, l.(phase := AtPoll, ran := [])))
  {
    if s.loops[k].phase.Handling? && s.loops[k].phase.callbacks == [] && s.loops[k].phase.active != [] {
      StepKeepsInv(s, NextChannel(k));
    }
  }

  /** A read that is not the end of the stream, and an error, change no connection. */
  lemma OtherCallbacks(s: State, k: LoopId, n: int)
    requires Inv(s) && AtRest(s, k) && HasCallback(s, k)
    requires var cb := s.loops[k].phase.callbacks[0]; cb == ErrorCb || (cb == ReadCb && n != 0)
    ensures var l := s.loops[k];
            && Step(s, RunCallback(k, n)).Ok?
            && Moved(s, Step(s, RunCallback(k, n)).state, k, l.(phase := l.phase.(callbacks := l.phase.callbacks[1..])))
  {
    StepKeepsInv(s, RunCallback(k, n));
  }

  /** Functors run from the front of the batch, and stay owned by it until it ends. */
  lemma FunctorsInOrder(s: State, k: LoopId, io: Io)
    requires Inv(s) && RunsFunctor(s, k, io)
    ensures Step(s, RunFunctor(k, io)).Ok?
    ensures var l, t := s.loops[k], Step(s, RunFunctor(k, io)).state;
            && k < |t.loops| && t.loops[k].batch == l.batch[1..] && t.loops[k].ran == l.ran + [l.batch[0]]
            && l.pending <= t.loops[k].pending
  {
    RunFunctorIs(s, k, io);
    RunningFunctorKeepsInv(s, k, io);
    FunctorFindsConn(s, k);
    FunctorStage(s, k, io, s.loops[k].batch[0].c);
    PoppedKept(s, Step(s, RunFunctor(k, io)).state, k);
  }

  lemma RunFunctorIs(s: State, k: LoopId, io: Io)
    requires RunsFunctor(s, k, io)
    ensures Step(s, RunFunctor(k, io)) == RunningFunctor(s, k, io)
  {
  }

  lemma PoppedKept(s: State, t: State, k: LoopId)
    requires HasFunctor(s, k) && QueuesKept(PopFunctor(s, k), t)
    ensures var l := s.loops[k];
            && k < |t.loops| && t.loops[k].batch == l.batch[1..] && t.loops[k].ran == l.ran + [l.batch[0]]
            && l.pending <= t.loops[k].pending
  {
    assert QueueKept(PopFunctor(s, k).loops[k], t.loops[k]);
  }

  // ----- what no step but its own changes

  /** Ids, loops in turn, homes and references are as they were. */
  predicate Framed(s: State, t: State) {
    && t.nextConnId == s.nextConnId && t.nextLoop == s.nextLoop && |t.loops| == |s.loops| && t.held == s.held
    && t.conns.Keys == s.conns.Keys && forall c :: c in s.conns ==> t.conns[c].loop == s.conns[c].loop
  }

  lemma EstablishingFramed(s: State, c: ConnId)
    requires s.Known(c) && Establishing(s, c).Ok?
    ensures Framed(s, Establishing(s, c).state)
  {
  }

  lemma CloseFramed(s: State, c: ConnId)
    requires s.Known(c) && CloseConn(s, c).Ok?
    ensures Framed(s, CloseConn(s, c).state)
  {
  }

  lemma RemoveFramed(s: State, c: ConnId)
    requires s.Known(c) && RemoveConn(s, c).Ok?
    ensures Framed(s, RemoveConn(s, c).state)
  {
  }

  lemma DestroyFramed(s: State, k: LoopId, c: ConnId)
    requires s.Known(c) && k < |s.loops| && DestroyNow(s, k, c).Ok?
    ensures Framed(s, DestroyNow(s, k, c).state)
  {
  }

  lemma SendFramed(s: State, c: ConnId, message: seq<Byte>, io: Io)
    requires s.Known(c) && PossibleSend(io, message) && SendNow(s, c, message, io).Ok?
    ensures Framed(s, SendNow(s, c, message, io).state)
  {
  }

  lemma WriteFramed(s: State, c: ConnId, n: int)
    requires s.Known(c) && n <= |s.conns[c].output| && WriteReady(s, c, n).Ok?
    ensures Framed(s, WriteReady(s, c, n).state)
  {
  }

  lemma FinishFramed(s: State, k: LoopId)
    requires Step(s, FinishClose(k)).Ok?
    ensures Framed(s, Step(s, FinishClose(k)).state)
  {
    if k < |s.loops| && s.loops[k].closing.Some? {
      FinishCloseIs(s, k, s.loops[k].closing.value);
    }
  }

  lemma UserFramed(s: State, c: ConnId, call: UserCall, inLoop: bool)
    requires s.Known(c) && UserStep(s, c, call, inLoop).Ok?
    ensures Framed(s, UserStep(s, c, call, inLoop).state)
  {
    match call
    case Send(message, io) =>
      if s.conns[c].state == Connected && inLoop && PossibleSend(io, message) { SendFramed(s, c, message, io); }
    case _ =>
  }

  lemma FunctorFramed(s: State, k: LoopId, io: Io)
    requires HasFunctor(s, k) && IoFits(s, k, io) && RunningFunctor(s, k, io).Ok?
    ensures Framed(s, RunningFunctor(s, k, io).state)
  {
    RunningFunctorIs(s, k, io);
    var p := PopFunctor(s, k);
    match s.loops[k].batch[0]
    case Establish(d) => EstablishingFramed(p, d);
    case SendLater(d, message) => SendFramed(p, d, message, io);
    case ShutdownLater(d) =>
    case ForceClose(d) => if IsOpen(p.conns[d].state) { CloseFramed(p, d); }
    case WriteComplete(_) =>
    case HighWater(_, _) =>
    case Remove(d) => RemoveFramed(p, d);
    case DestroyConn(d) => DestroyFramed(p, k, d);
  }

  lemma CallbackFramed(s: State, k: LoopId, n: int)
    requires HasCallback(s, k) && WriteFits(s, k, n) && RunningCallback(s, k, n).Ok?
    ensures Framed(s, RunningCallback(s, k, n).state)
  {
    var p, d := PopCallback(s, k), s.loops[k].phase.current;
    if s.loops[k].phase.callbacks[0] != ErrorCb {
      RunningCallbackIs(s, k, n);
      match s.loops[k].phase.callbacks[0]
      case CloseCb => CloseFramed(p, d);
      case ReadCb => if n == 0 { CloseFramed(p, d); }
      case WriteCb => WriteFramed(p, d, n);
    }
  }

  lemma LoopStepFramed(s: State, e: Event)
    requires (e.Poll? || e.NextChannel? || e.EndHandling? || e.EndBatch?) && Step(s, e).Ok?
    ensures Framed(s, Step(s, e).state)
  {
  }

  lemma StepFramed(s: State, e: Event)
    requires !e.Accept? && !e.Hold? && !e.Release? && Step(s, e).Ok?
    ensures Framed(s, Step(s, e).state)
  {
    match e
    case RunCallback(k, n) => if AtRest(s, k) && HasCallback(s, k) && WriteFits(s, k, n) { CallbackFramed(s, k, n); }
    case RunFunctor(k, io) =>
      if AtRest(s, k) && s.loops[k].phase == Calling && HasFunctor(s, k) && IoFits(s, k, io) { FunctorFramed(s, k, io); }
    case FinishClose(k) => FinishFramed(s, k);
    case Call(thread, d, call) => CallFramed(s, thread, d, call);
    case _ => LoopStepFramed(s, e);
  }

  lemma CallFramed(s: State, thread: Option<LoopId>, d: ConnId, call: UserCall)
    requires Step(s, Call(thread, d, call)).Ok?
    ensures Framed(s, Step(s, Call(thread, d, call)).state)
  {
    if s.Known(d) && Alive(s, d) && MayCall(s, thread) {
      UserFramed(s, d, call, thread == Some(s.conns[d].loop));
    }
  }

  lemma AcceptHolds(s: State, fd: int)
    requires Step(s, Accept(fd)).Ok?
    ensures Step(s, Accept(fd)).state.held == s.held
  {
  }

  /** A connection that the user takes hold of stays alive until it is released, whatever else
      happens. */
  lemma HoldKeepsAlive(s: State, c: ConnId, es: seq<Event>)
    requires c in s.conns && Alive(s, c) && Release(c) !in es && Run(Step, s, [Hold(c)] + es).Ok?
    ensures Alive(Run(Step, s, [Hold(c)] + es).state, c)
  {
    var t := s.(held := s.held + {c});
    assert Step(s, Hold(c)) == Ok(t);
    RunCons(Step, s, Hold(c), es);
    HeldUntilReleased(t, c, es);
  }

  lemma {:induction false} HeldUntilReleased(s: State, c: ConnId, es: seq<Event>)
    requires c in s.held && Release(c) !in es && Run(Step, s, es).Ok?
    ensures Alive(Run(Step, s, es).state, c) && c in Run(Step, s, es).state.held
    decreases |es|
  {
    if es != [] {
      assert es[0] in es && forall e :: e in es[1..] ==> e in es;
      StillHeld(s, c, es[0]);
      HeldUntilReleased(Step(s, es[0]).state, c, es[1..]);
    }
  }

  lemma StillHeld(s: State, c: ConnId, e: Event)
    requires c in s.held && e != Release(c) && Step(s, e).Ok?
    ensures c in Step(s, e).state.held
  {
    match e
    case Accept(fd) => AcceptHolds(s, fd);
    case Hold(_) =>
    case Release(_) =>
    case _ => StepFramed(s, e);
  }

  // ----- newConnection

  /** The base loop is about to take the next active channel, which is the listening socket's. */
  predicate MayAccept(s: State, fd: int) {
    && AtRest(s, 0) && s.loops[0].phase.Handling? && s.loops[0].phase.callbacks == []
    && s.nextConnId <= INT_MAX && FdFree(s, fd)
  }

  /** The home of the c-th connection over n I/O loops. */
  function HomeOf(c: ConnId, n: nat): LoopId {
    if n == 0 || c == 0 then 0 else 1 + (c - 1) % n
  }

  /** Connections are numbered from 1, and each has the loop whose turn it was. */
  ghost predicate InTurn(s: State, n: nat) {
    && |s.loops| == 1 + n && s.nextConnId >= 1 && (n > 0 ==> s.nextLoop == (s.nextConnId - 1) % n)
    && (forall c :: c in s.conns <==> 1 <= c < s.nextConnId)
    && (forall c :: c in s.conns ==> s.conns[c].loop == HomeOf(c, n))
  }

  lemma NextTurn(m: nat, n: nat)
    requires n > 0
    ensures Advance(m % n, n) == (m + 1) % n
  {
    NextIsModulo(m, n);
    NextIsModulo(m + 1, n);
  }

  /** A connection is entered under the next id and a name the map does not have, with the loop
      whose turn it is; on the base loop it is established at once, else its establishment is
      queued on that loop.  No other connection changes. */
  lemma AcceptEffect(s: State, n: nat, fd: int)
    requires Inv(s) && InTurn(s, n) && MayAccept(s, fd)
    ensures Step(s, Accept(fd)).Ok?
    ensures var t, c, k := Step(s, Accept(fd)).state, s.nextConnId, HomeOf(s.nextConnId, n);
            && t.nextConnId == c + 1 && c !in s.conns && c in t.conns && t.conns == s.conns[c := t.conns[c]]
            && s.Name(c) !in s.connections && t.connections == s.connections[s.Name(c) := c]
            && t.conns[c].loop == k && t.conns[c].fd == fd && t.held == s.held && |t.loops| == |s.loops|
            && (if k == 0 then t.conns[c].state == Connected && t.conns[c].trace == [Up]
                else t.conns[c].state == Connecting && t.loops[k].pending == s.loops[k].pending + [Establish(c)])
  {
    AcceptKeepsInv(s, fd);
    FreshName(s);
    AcceptRecord(s, fd);
  }

  lemma FreshName(s: State)
    requires MapInv(s) && s.nextConnId <= INT_MAX
    ensures s.Name(s.nextConnId) !in s.connections
  {
    if s.Name(s.nextConnId) in s.connections {
      NamesInjective(s.config.server, s.config.ipPort, s.nextConnId, s.connections[s.Name(s.nextConnId)]);
    }
  }

  lemma AcceptRecord(s: State, fd: int)
    requires (|s.loops| == 1 || s.nextLoop + 1 < |s.loops|) && AcceptConn(s, fd).Ok?
    ensures var t, c, k := AcceptConn(s, fd).state, s.nextConnId, NextHome(s);
            && t.nextConnId == c + 1 && c in t.conns && t.conns == s.conns[c := t.conns[c]]
            && t.nextLoop == Advance(s.nextLoop, |s.loops| - 1)
            && t.connections == s.connections[s.Name(c) := c]
            && t.conns[c].loop == k && t.conns[c].fd == fd && t.held == s.held && |t.loops| == |s.loops|
            && (if k == 0 then t.conns[c].state == Connected && t.conns[c].trace == [Up]
                else t.conns[c].state == Connecting && t.loops[k].pending == s.loops[k].pending + [Establish(c)])
  {
    AcceptIs(s, fd);
  }

  lemma AcceptInTurn(s: State, n: nat, fd: int)
    requires InTurn(s, n) && (|s.loops| == 1 || s.nextLoop + 1 < |s.loops|) && AcceptConn(s, fd).Ok?
    ensures InTurn(AcceptConn(s, fd).state, n)
  {
    AcceptRecord(s, fd);
    if n > 0 {
      NextTurn(s.nextConnId - 1, n);
    }
  }

  lemma StepInTurn(s: State, n: nat, e: Event)
    requires InTurn(s, n) && Step(s, e).Ok?
    ensures InTurn(Step(s, e).state, n)
  {
    var t := Step(s, e).state;
    if t != s {
      match e
      case Accept(fd) => AcceptInTurn(s, n, fd);
      case Hold(_) =>
      case Release(_) =>
      case _ => StepFramed(s, e);
    }
  }

  /** In every run connections are numbered in the order they are accepted, and the c-th gets the
      base loop, or, with n I/O loops, loop 1 + (c - 1) mod n. */
  lemma HomesInTurn(config: Config, ioLoops: nat, events: seq<Event>)
    requires Admissible(config, events)
    ensures After(config, ioLoops, events).Ok? && InTurn(After(config, ioLoops, events).state, ioLoops)
  {
    NoRunAborts(config, ioLoops, events);
    RunInTurn(Init(config, ioLoops), ioLoops, events);
  }

  lemma {:induction false} RunInTurn(s: State, n: nat, es: seq<Event>)
    requires InTurn(s, n) && Run(Step, s, es).Ok?
    ensures InTurn(Run(Step, s, es).state, n)
    decreases |es|
  {
    if es != [] {
      StepInTurn(s, n, es[0]);
      RunInTurn(Step(s, es[0]).state, n, es[1..]);
    }
  }
}
