/** A functor that rides in a loop's queue and owns nothing: until its own turn, every step of
    every thread does what it does without it. */
module LifecycleBeside {
  import opened Endian
  import opened Lifecycle
  import opened LifecycleProof
  import opened LifecycleRaces
  import opened LifecycleSteps
  import opened LifecycleTheorems
  import opened Machine
  import opened Names
  import opened Polling
  import opened Seqs

  /** A functor at a place of a loop's batch, or of its pending functors. */
  datatype Rider = Rider(f: Functor, inBatch: bool, at: nat)

  function Inserted(fs: seq<Functor>, at: nat, f: Functor): seq<Functor>
    requires at <= |fs|
  {
    fs[..at] + ([f] + fs[at..])
  }

  predicate HasRoom(l: Loop, r: Rider) {
    r.at <= if r.inBatch then |l.batch| else |l.pending|
  }

  function Boarded(l: Loop, r: Rider): Loop
    requires HasRoom(l, r)
  {
    if r.inBatch then l.(batch := Inserted(l.batch, r.at, r.f)) else l.(pending := Inserted(l.pending, r.at, r.f))
  }

  predicate Fits(s: State, k: LoopId, r: Rider) {
    k < |s.loops| && HasRoom(s.loops[k], r)
  }

  function WithRider(s: State, k: LoopId, r: Rider): State
    requires Fits(s, k, r)
  {
    SetLoop(s, k, Boarded(s.loops[k], r))
  }

  // ----- the rider keeps nothing alive

  lemma OwnsInserted(fs: seq<Functor>, at: nat, f: Functor, c: ConnId)
    requires at <= |fs| && !f.Owning()
    ensures Owns(Inserted(fs, at, f), c) <==> Owns(fs, c)
  {
    var gs := Inserted(fs, at, f);
    if Owns(fs, c) {
      var i :| 0 <= i < |fs| && fs[i].c == c && fs[i].Owning();
      assert gs[if i < at then i else i + 1] == fs[i];
    }
    if Owns(gs, c) {
      var i :| 0 <= i < |gs| && gs[i].c == c && gs[i].Owning();
      assert gs[i] == fs[if i < at then i else i - 1];
    }
  }

  lemma BoardedOwns(l: Loop, r: Rider, c: ConnId)
    requires HasRoom(l, r) && !r.f.Owning()
    ensures LoopOwns(Boarded(l, r), c) <==> LoopOwns(l, c)
  {
    if r.inBatch {
      OwnsInserted(l.batch, r.at, r.f, c);
    } else {
      OwnsInserted(l.pending, r.at, r.f, c);
    }
  }

  lemma SameAlive(s: State, k: LoopId, r: Rider, c: ConnId)
    requires Fits(s, k, r) && !r.f.Owning()
    ensures Alive(WithRider(s, k, r), c) <==> Alive(s, c)
  {
    var t := WithRider(s, k, r);
    BoardedOwns(s.loops[k], r, c);
    assert t.InMap(c) <==> s.InMap(c);
    if Alive(s, c) && !(c in s.held || s.InMap(c)) {
      var j :| 0 <= j < |s.loops| && LoopOwns(s.loops[j], c);
      assert LoopOwns(t.loops[j], c);
    }
    if Alive(t, c) && !(c in s.held || s.InMap(c)) {
      var j :| 0 <= j < |t.loops| && LoopOwns(t.loops[j], c);
      assert LoopOwns(s.loops[j], c);
    }
  }

  // ----- operations do the same beside it

  lemma InsertedQueue(fs: seq<Functor>, at: nat, f: Functor, x: seq<Functor>)
    requires at <= |fs|
    ensures Inserted(fs, at, f) + x == Inserted(fs + x, at, f)
  {
  }

  /** A loop that had functors queued, and its place otherwise kept, carries the rider along. */
  lemma BoardedQueue(l: Loop, r: Rider, x: seq<Functor>)
    requires HasRoom(l, r)
    ensures HasRoom(l.(pending := l.pending + x), r)
    ensures Boarded(l.(pending := l.pending + x), r) == Boarded(l, r).(pending := Boarded(l, r).pending + x)
  {
    if !r.inBatch {
      InsertedQueue(l.pending, r.at, r.f, x);
    }
  }

  /** What a loop becomes beside the rider. */
  function Seen(j: LoopId, l: Loop, k: LoopId, r: Rider): Loop
    requires j == k ==> HasRoom(l, r)
  {
    if j == k then Boarded(l, r) else l
  }

  lemma SetLoopBeside(s: State, k: LoopId, r: Rider, j: LoopId, l: Loop)
    requires Fits(s, k, r) && j < |s.loops| && (j == k ==> HasRoom(l, r))
    ensures Fits(SetLoop(s, j, l), k, r)
    ensures SetLoop(WithRider(s, k, r), j, Seen(j, l, k, r)) == WithRider(SetLoop(s, j, l), k, r)
  {
    assert SetLoop(WithRider(s, k, r), j, Seen(j, l, k, r)).loops == WithRider(SetLoop(s, j, l), k, r).loops;
  }

  lemma CommitBeside(s: State, k: LoopId, r: Rider, d: ConnId, conn: Conn, l: Loop)
    requires Fits(s, k, r) && conn.loop < |s.loops| && (conn.loop == k ==> HasRoom(l, r))
    ensures Fits(Commit(s, d, conn, l), k, r)
    ensures Commit(WithRider(s, k, r), d, conn, Seen(conn.loop, l, k, r)) == WithRider(Commit(s, d, conn, l), k, r)
  {
    SetLoopBeside(s, k, r, conn.loop, l);
  }

  lemma EstablishingBeside(s: State, k: LoopId, r: Rider, d: ConnId)
    requires Fits(s, k, r) && s.Known(d) && Establishing(s, d).Ok?
    ensures var u := Establishing(s, d).state;
            && Fits(u, k, r) && WithRider(s, k, r).Known(d)
            && Establishing(WithRider(s, k, r), d) == Ok(WithRider(u, k, r))
  {
    var u := Establishing(s, d).state;
    CommitBeside(s, k, r, d, u.conns[d], u.loops[s.conns[d].loop]);
  }

  lemma CloseBeside(s: State, k: LoopId, r: Rider, d: ConnId)
    requires Fits(s, k, r) && s.Known(d) && CloseConn(s, d).Ok?
    ensures var u := CloseConn(s, d).state;
            && Fits(u, k, r) && WithRider(s, k, r).Known(d)
            && CloseConn(WithRider(s, k, r), d) == Ok(WithRider(u, k, r))
  {
    var u := CloseConn(s, d).state;
    CommitBeside(s, k, r, d, u.conns[d], u.loops[s.conns[d].loop]);
  }

  lemma RemoveBeside(s: State, k: LoopId, r: Rider, d: ConnId)
    requires Fits(s, k, r) && s.Known(d) && RemoveConn(s, d).Ok?
    ensures var u := RemoveConn(s, d).state;
            && Fits(u, k, r) && WithRider(s, k, r).Known(d)
            && RemoveConn(WithRider(s, k, r), d) == Ok(WithRider(u, k, r))
  {
    var u := RemoveConn(s, d).state;
    BoardedQueue(s.loops[k], r, [DestroyConn(d)]);
    CommitBeside(s, k, r, d, u.conns[d], u.loops[s.conns[d].loop]);
  }

  lemma SendBeside(s: State, k: LoopId, r: Rider, d: ConnId, message: seq<Byte>, io: Io)
    requires Fits(s, k, r) && s.Known(d) && PossibleSend(io, message) && SendNow(s, d, message, io).Ok?
    ensures var u := SendNow(s, d, message, io).state;
            && Fits(u, k, r) && WithRider(s, k, r).Known(d)
            && SendNow(WithRider(s, k, r), d, message, io) == Ok(WithRider(u, k, r))
  {
    var u, l := SendNow(s, d, message, io).state, s.loops[s.conns[d].loop];
    var x := SendNotices(s.config, d, s.conns[d], s.Chan(d).IsWriting(), message, io);
    if s.conns[d].loop == k {
      BoardedQueue(l.(world := u.loops[k].world), r, x);
    }
    CommitBeside(s, k, r, d, u.conns[d], u.loops[s.conns[d].loop]);
  }

  lemma EnqueueBeside(s: State, k: LoopId, r: Rider, j: LoopId, f: Functor)
    requires Fits(s, k, r) && j < |s.loops|
    ensures Fits(Enqueue(s, j, f), k, r) && Enqueue(WithRider(s, k, r), j, f) == WithRider(Enqueue(s, j, f), k, r)
  {
    BoardedQueue(s.loops[k], r, [f]);
    SetLoopBeside(s, k, r, j, s.loops[j].(pending := s.loops[j].pending + [f]));
  }

  lemma ClearedBeside(s: State, k: LoopId, r: Rider, j: LoopId, d: ConnId)
    requires Fits(s, k, r) && j < |s.loops| && d in s.conns
    ensures Fits(Cleared(s, j, d), k, r) && Cleared(WithRider(s, k, r), j, d) == WithRider(Cleared(s, j, d), k, r)
  {
    SetLoopBeside(s, k, r, j, s.loops[j].(closing := None));
  }

  lemma FinishBeside(s: State, k: LoopId, r: Rider, j: LoopId, d: ConnId)
    requires Fits(s, k, r) && s.Known(d) && j < |s.loops| && FinishClosing(s, j, d).Ok?
    ensures var u := FinishClosing(s, j, d).state;
            && Fits(u, k, r) && WithRider(s, k, r).Known(d)
            && FinishClosing(WithRider(s, k, r), j, d) == Ok(WithRider(u, k, r))
  {
    var t, u := WithRider(s, k, r), Cleared(s, j, d);
    ClearedBeside(s, k, r, j, d);
    if j == 0 {
      FinishIsRemove(s, d);
      FinishIsRemove(t, d);
      RemoveBeside(u, k, r, d);
    } else {
      FinishIsHandOver(s, j, d);
      FinishIsHandOver(t, j, d);
      EnqueueBeside(SetConn(u, d, u.conns[d].(stage := Removing)), k, r, 0, Remove(d));
    }
  }

  lemma DestroyBeside(s: State, k: LoopId, r: Rider, j: LoopId, d: ConnId)
    requires Fits(s, k, r) && s.Known(d) && j < |s.loops| && DestroyNow(s, j, d).Ok?
    ensures var u := DestroyNow(s, j, d).state;
            && Fits(u, k, r) && WithRider(s, k, r).Known(d)
            && DestroyNow(WithRider(s, k, r), j, d) == Ok(WithRider(u, k, r))
  {
    var u := DestroyNow(s, j, d).state;
    CommitBeside(s, k, r, d, u.conns[d], u.loops[s.conns[d].loop]);
  }

  lemma ShutdownNowBeside(s: State, k: LoopId, r: Rider, d: ConnId)
    requires Fits(s, k, r) && s.Known(d)
    ensures Fits(ShutdownNow(s, d), k, r) && WithRider(s, k, r).Known(d)
    ensures ShutdownNow(WithRider(s, k, r), d) == WithRider(ShutdownNow(s, d), k, r)
  {
  }

  lemma TouchedBeside(s: State, k: LoopId, r: Rider, d: ConnId, conn: Conn, w: World<ConnId>, x: seq<Functor>)
    requires Fits(s, k, r) && conn.loop < |s.loops|
    ensures Fits(Touched(s, d, conn, w, x), k, r)
    ensures Touched(WithRider(s, k, r), d, conn, w, x) == WithRider(Touched(s, d, conn, w, x), k, r)
  {
    var l := s.loops[conn.loop].(world := w);
    if conn.loop == k {
      BoardedQueue(l, r, x);
    }
    CommitBeside(s, k, r, d, conn, l.(pending := l.pending + x));
  }

  lemma DrainedToBeside(s: State, k: LoopId, r: Rider, d: ConnId, events: Mask)
    requires Fits(s, k, r) && s.Known(d) && DrainedTo(s, d, events).Ok?
    ensures var u := DrainedTo(s, d, events).state;
            && Fits(u, k, r) && WithRider(s, k, r).Known(d)
            && DrainedTo(WithRider(s, k, r), d, events) == Ok(WithRider(u, k, r))
  {
    var x := if s.config.writeComplete then [WriteComplete(d)] else [];
    var w := SetMask(s.loops[s.conns[d].loop].world, d, events).state;
    TouchedBeside(s, k, r, d, Drain(s.conns[d], |s.conns[d].output|), w, x);
  }

  /** disableWriting asks for the same mask of the same channel. */
  lemma SameMask(s: State, t: State, d: ConnId) returns (events: Mask)
    requires s.Known(d) && t.Known(d) && t.Chan(d) == s.Chan(d)
    ensures Drained(s, d) == DrainedTo(s, d, events) && Drained(t, d) == DrainedTo(t, d, events)
  {
    events := s.Chan(d).events & !WRITE_EVENT;
  }

  lemma DrainedBeside(s: State, k: LoopId, r: Rider, d: ConnId)
    requires Fits(s, k, r) && s.Known(d) && Drained(s, d).Ok?
    ensures var u := Drained(s, d).state;
            Fits(u, k, r) && WithRider(s, k, r).Known(d) && Drained(WithRider(s, k, r), d) == Ok(WithRider(u, k, r))
  {
    var events := SameMask(s, WithRider(s, k, r), d);
    DrainedToBeside(s, k, r, d, events);
  }

  lemma WriteBeside(s: State, k: LoopId, r: Rider, d: ConnId, n: int)
    requires Fits(s, k, r) && s.Known(d) && n <= |s.conns[d].output| && WriteReady(s, d, n).Ok?
    ensures var u := WriteReady(s, d, n).state;
            && Fits(u, k, r) && WithRider(s, k, r).Known(d)
            && WriteReady(WithRider(s, k, r), d, n) == Ok(WithRider(u, k, r))
  {
    ShutdownNowBeside(s, k, r, d);
    if s.Chan(d).IsWriting() && n > 0 && n == |s.conns[d].output| {
      DrainedBeside(s, k, r, d);
      ShutdownNowBeside(Drained(s, d).state, k, r, d);
    }
  }

  lemma UserBeside(s: State, k: LoopId, r: Rider, d: ConnId, call: UserCall, inLoop: bool)
    requires Fits(s, k, r) && s.Known(d) && UserStep(s, d, call, inLoop).Ok?
    ensures var u := UserStep(s, d, call, inLoop).state;
            && Fits(u, k, r) && WithRider(s, k, r).Known(d)
            && UserStep(WithRider(s, k, r), d, call, inLoop) == Ok(WithRider(u, k, r))
  {
    var conn := s.conns[d];
    var reopened := Reopened(s, d);
    match call
    case Send(message, io) =>
      if conn.state == Connected {
        EnqueueBeside(s, k, r, conn.loop, SendLater(d, message));
        if inLoop && PossibleSend(io, message) {
          SendBeside(s, k, r, d, message, io);
        }
      }
    case Shutdown =>
      ShutdownNowBeside(reopened, k, r, d);
      EnqueueBeside(reopened, k, r, conn.loop, ShutdownLater(d));
    case Force => EnqueueBeside(reopened, k, r, conn.loop, ForceClose(d));
  }

  lemma AcceptBeside(s: State, k: LoopId, r: Rider, fd: int)
    requires Fits(s, k, r) && (|s.loops| == 1 || s.nextLoop + 1 < |s.loops|) && AcceptConn(s, fd).Ok?
    ensures var u := AcceptConn(s, fd).state;
            Fits(u, k, r) && AcceptConn(WithRider(s, k, r), fd) == Ok(WithRider(u, k, r))
  {
    var t, u, c := WithRider(s, k, r), Registered(s, fd), s.nextConnId;
    AcceptIs(s, fd);
    AcceptIs(t, fd);
    SetLoopBeside(s, k, r, NextHome(s), WithChannel(s.loops[NextHome(s)], c, fd));
    assert Registered(t, fd) == WithRider(u, k, r);
    if NextHome(s) == 0 {
      EstablishingBeside(u, k, r, c);
    } else {
      EnqueueBeside(u, k, r, NextHome(s), Establish(c));
    }
  }

  // ----- steps do the same beside it

  predicate Onboard(s: State, k: LoopId, r: Rider) {
    Fits(s, k, r) && !r.f.Owning() && (r.inBatch ==> s.loops[k].phase == Calling)
  }

  /** The rider's own turn, or the end of a batch that it holds up. */
  predicate ItsTurn(k: LoopId, r: Rider, e: Event) {
    r.inBatch && ((e.RunFunctor? && e.l == k && r.at == 0) || e == EndBatch(k))
  }

  predicate RunsFunctor(s: State, k: LoopId, io: Io) {
    AtRest(s, k) && s.loops[k].phase == Calling && HasFunctor(s, k) && IoFits(s, k, io)
  }

  predicate EndsHandling(s: State, k: LoopId) {
    AtRest(s, k) && s.loops[k].phase.Handling? && s.loops[k].phase.callbacks == [] && s.loops[k].phase.active == []
  }

  /** Where the rider is after a step that is not its own. */
  function Carried(s: State, k: LoopId, r: Rider, e: Event): Rider {
    if e == EndHandling(k) && EndsHandling(s, k) then r.(inBatch := true)
    else if r.inBatch && r.at > 0 && e.RunFunctor? && e.l == k && RunsFunctor(s, k, e.io) then r.(at := r.at - 1)
    else r
  }

  /** The step of `s` is the step beside it. */
  predicate Beside(s: State, k: LoopId, r: Rider, e: Event)
    requires Fits(s, k, r) && Step(s, e).Ok?
  {
    && Onboard(Step(s, e).state, k, Carried(s, k, r, e))
    && Step(WithRider(s, k, r), e) == Ok(WithRider(Step(s, e).state, k, Carried(s, k, r, e)))
  }

  function Popped(k: LoopId, r: Rider, j: LoopId): Rider {
    if j == k && r.inBatch && r.at > 0 then r.(at := r.at - 1) else r
  }

  lemma PopBeside(s: State, k: LoopId, r: Rider, j: LoopId)
    requires Fits(s, k, r) && HasFunctor(s, j) && !(j == k && r.inBatch && r.at == 0)
    ensures var t := WithRider(s, k, r);
            && HasFunctor(t, j) && t.loops[j].batch[0] == s.loops[j].batch[0]
            && Fits(PopFunctor(s, j), k, Popped(k, r, j))
            && PopFunctor(t, j) == WithRider(PopFunctor(s, j), k, Popped(k, r, j))
  {
    var l := s.loops[j];
    if j == k && r.inBatch {
      assert Inserted(l.batch, r.at, r.f)[1..] == Inserted(l.batch[1..], r.at - 1, r.f);
    }
    assert PopFunctor(WithRider(s, k, r), j).loops == WithRider(PopFunctor(s, j), k, Popped(k, r, j)).loops;
  }

  lemma FunctorBeside(s: State, k: LoopId, r: Rider, j: LoopId, io: Io)
    requires Fits(s, k, r) && !r.f.Owning() && HasFunctor(s, j) && IoFits(s, j, io) && !(j == k && r.inBatch && r.at == 0)
    requires RunningFunctor(s, j, io).Ok?
    ensures var t, u := WithRider(s, k, r), RunningFunctor(s, j, io).state;
            && HasFunctor(t, j) && IoFits(t, j, io) && Fits(u, k, Popped(k, r, j))
            && RunningFunctor(t, j, io) == Ok(WithRider(u, k, Popped(k, r, j)))
  {
    var f, t, p := s.loops[j].batch[0], WithRider(s, k, r), Popped(k, r, j);
    var u := PopFunctor(s, j);
    PopBeside(s, k, r, j);
    SameAlive(s, k, r, f.c);
    RunningFunctorIs(s, j, io);
    RunningFunctorIs(t, j, io);
    match f
    case Establish(d) => EstablishingBeside(u, k, p, d);
    case SendLater(d, message) => SendBeside(u, k, p, d, message, io);
    case ShutdownLater(d) => ShutdownNowBeside(u, k, p, d);
    case ForceClose(d) => if IsOpen(u.conns[d].state) { CloseBeside(u, k, p, d); }
    case WriteComplete(_) =>
    case HighWater(_, _) =>
    case Remove(d) => RemoveBeside(u, k, p, d);
    case DestroyConn(d) => DestroyBeside(u, k, p, j, d);
  }

  lemma PopCallbackBeside(s: State, k: LoopId, r: Rider, j: LoopId)
    requires Fits(s, k, r) && HasCallback(s, j)
    ensures HasCallback(WithRider(s, k, r), j) && Fits(PopCallback(s, j), k, r)
    ensures PopCallback(WithRider(s, k, r), j) == WithRider(PopCallback(s, j), k, r)
  {
    SetLoopBeside(s, k, r, j, PopCallback(s, j).loops[j]);
  }

  lemma CallbackBeside(s: State, k: LoopId, r: Rider, j: LoopId, n: int)
    requires Fits(s, k, r) && !r.f.Owning() && HasCallback(s, j) && WriteFits(s, j, n) && RunningCallback(s, j, n).Ok?
    ensures var t, u := WithRider(s, k, r), RunningCallback(s, j, n).state;
            && HasCallback(t, j) && WriteFits(t, j, n) && Fits(u, k, r)
            && RunningCallback(t, j, n) == Ok(WithRider(u, k, r))
  {
    var t, u, d := WithRider(s, k, r), PopCallback(s, j), s.loops[j].phase.current;
    PopCallbackBeside(s, k, r, j);
    SameAlive(s, k, r, d);
    if s.loops[j].phase.callbacks[0] != ErrorCb {
      RunningCallbackIs(s, j, n);
      RunningCallbackIs(t, j, n);
      match s.loops[j].phase.callbacks[0]
      case CloseCb => CloseBeside(u, k, r, d);
      case ReadCb => if n == 0 { CloseBeside(u, k, r, d); }
      case WriteCb => WriteBeside(u, k, r, d, n);
    }
  }

  // ----- event by event

  lemma RunFunctorBeside(s: State, k: LoopId, r: Rider, j: LoopId, io: Io)
    requires Onboard(s, k, r) && !ItsTurn(k, r, RunFunctor(j, io)) && Step(s, RunFunctor(j, io)).Ok?
    ensures Beside(s, k, r, RunFunctor(j, io))
  {
    if RunsFunctor(s, j, io) {
      FunctorBeside(s, k, r, j, io);
      FunctorPhases(s, j, io);
    }
  }

  /** A functor leaves every loop in its phase. */
  lemma FunctorPhases(s: State, j: LoopId, io: Io)
    requires RunsFunctor(s, j, io) && RunningFunctor(s, j, io).Ok?
    ensures SamePhases(s, RunningFunctor(s, j, io).state)
  {
    RunningFunctorIs(s, j, io);
  }

  predicate SamePhases(s: State, u: State) {
    |u.loops| == |s.loops| && forall k :: 0 <= k < |s.loops| ==> u.loops[k].phase == s.loops[k].phase
  }

  lemma WritePhases(s: State, d: ConnId, n: int)
    requires s.Known(d) && n <= |s.conns[d].output| && WriteReady(s, d, n).Ok?
    ensures SamePhases(s, WriteReady(s, d, n).state)
  {
    WriteTouches(s, d, n);
    forall k | 0 <= k < |s.loops| ensures WriteReady(s, d, n).state.loops[k].phase == s.loops[k].phase {
      assert Queues(s.loops[k], WriteReady(s, d, n).state.loops[k]);
    }
  }

  lemma CallbackPhases(s: State, j: LoopId, n: int)
    requires HasCallback(s, j) && WriteFits(s, j, n) && RunningCallback(s, j, n).Ok?
    ensures SamePhases(PopCallback(s, j), RunningCallback(s, j, n).state)
  {
    if s.loops[j].phase.callbacks[0] != ErrorCb {
      RunningCallbackIs(s, j, n);
      if s.loops[j].phase.callbacks[0] == WriteCb {
        WritePhases(PopCallback(s, j), s.loops[j].phase.current, n);
      }
    }
  }

  lemma RunCallbackBeside(s: State, k: LoopId, r: Rider, j: LoopId, n: int)
    requires Onboard(s, k, r) && Step(s, RunCallback(j, n)).Ok?
    ensures Beside(s, k, r, RunCallback(j, n))
  {
    if AtRest(s, j) && HasCallback(s, j) && WriteFits(s, j, n) {
      CallbackBeside(s, k, r, j, n);
      CallbackPhases(s, j, n);
    }
  }

  lemma PollBeside(s: State, k: LoopId, r: Rider, j: LoopId, ready: seq<Ready>)
    requires Onboard(s, k, r)
    ensures Step(s, Poll(j, ready)).Ok? && Beside(s, k, r, Poll(j, ready))
  {
    if AtRest(s, j) && s.loops[j].phase == AtPoll {
      SetLoopBeside(s, k, r, j, s.loops[j].(phase := Handling(ready, 0, [])));
    }
  }

  lemma NextChannelBeside(s: State, k: LoopId, r: Rider, j: LoopId)
    requires Onboard(s, k, r) && Step(s, NextChannel(j)).Ok?
    ensures Beside(s, k, r, NextChannel(j))
  {
    if AtRest(s, j) && s.loops[j].phase.Handling? && s.loops[j].phase.callbacks == [] && s.loops[j].phase.active != [] {
      var active := s.loops[j].phase.active;
      SameAlive(s, k, r, active[0].c);
      SetLoopBeside(s, k, r, j, s.loops[j].(phase := Handling(active[1..], active[0].c, Callbacks(active[0].revents))));
    }
  }

  lemma EndHandlingBeside(s: State, k: LoopId, r: Rider, j: LoopId)
    requires Onboard(s, k, r)
    ensures Step(s, EndHandling(j)).Ok? && Beside(s, k, r, EndHandling(j))
  {
    if EndsHandling(s, j) {
      var l := s.loops[j].(phase := Calling, batch := s.loops[j].pending, pending := []);
      if j == k {
        assert Step(WithRider(s, k, r), EndHandling(k)).state.loops
               == WithRider(Step(s, EndHandling(k)).state, k, r.(inBatch := true)).loops;
      } else {
        SetLoopBeside(s, k, r, j, l);
      }
    }
  }

  lemma EndBatchBeside(s: State, k: LoopId, r: Rider, j: LoopId)
    requires Onboard(s, k, r) && !ItsTurn(k, r, EndBatch(j))
    ensures Step(s, EndBatch(j)).Ok? && Beside(s, k, r, EndBatch(j))
  {
    if AtRest(s, j) && s.loops[j].phase == Calling && s.loops[j].batch == [] {
      SetLoopBeside(s, k, r, j, s.loops[j].(phase := AtPoll, ran := []));
    }
  }

  lemma FinishPhases(s: State, j: LoopId, d: ConnId)
    requires s.Known(d) && j < |s.loops| && FinishClosing(s, j, d).Ok?
    ensures SamePhases(s, FinishClosing(s, j, d).state)
  {
  }

  lemma FinishCloseBeside(s: State, k: LoopId, r: Rider, j: LoopId)
    requires Onboard(s, k, r) && Step(s, FinishClose(j)).Ok?
    ensures Beside(s, k, r, FinishClose(j))
  {
    if j < |s.loops| && s.loops[j].closing.Some? {
      var d := s.loops[j].closing.value;
      FinishCloseIs(s, j, d);
      FinishCloseIs(WithRider(s, k, r), j, d);
      FinishBeside(s, k, r, j, d);
      FinishPhases(s, j, d);
    }
  }

  lemma UserPhases(s: State, d: ConnId, call: UserCall, inLoop: bool)
    requires s.Known(d) && UserStep(s, d, call, inLoop).Ok?
    ensures SamePhases(s, UserStep(s, d, call, inLoop).state)
  {
    UserTouches(s, d, call, inLoop);
    forall k | 0 <= k < |s.loops| ensures UserStep(s, d, call, inLoop).state.loops[k].phase == s.loops[k].phase {
      assert Queues(s.loops[k], UserStep(s, d, call, inLoop).state.loops[k]);
    }
  }

  lemma CallBeside(s: State, k: LoopId, r: Rider, thread: Option<LoopId>, d: ConnId, call: UserCall)
    requires Onboard(s, k, r) && Step(s, Call(thread, d, call)).Ok?
    ensures Beside(s, k, r, Call(thread, d, call))
  {
    SameAlive(s, k, r, d);
    if s.Known(d) && Alive(s, d) && (thread.Some? ==> thread.value < |s.loops| && s.loops[thread.value].phase != AtPoll) {
      UserBeside(s, k, r, d, call, thread == Some(s.conns[d].loop));
      UserPhases(s, d, call, thread == Some(s.conns[d].loop));
    }
  }

  lemma SameFdFree(s: State, k: LoopId, r: Rider, fd: int)
    requires Fits(s, k, r) && !r.f.Owning()
    ensures FdFree(WithRider(s, k, r), fd) <==> FdFree(s, fd)
  {
    forall c ensures Alive(WithRider(s, k, r), c) <==> Alive(s, c) {
      SameAlive(s, k, r, c);
    }
  }

  lemma AcceptPhases(s: State, fd: int)
    requires (|s.loops| == 1 || s.nextLoop + 1 < |s.loops|) && AcceptConn(s, fd).Ok?
    ensures SamePhases(s, AcceptConn(s, fd).state)
  {
  }

  lemma AcceptEventBeside(s: State, k: LoopId, r: Rider, fd: int)
    requires Onboard(s, k, r) && Step(s, Accept(fd)).Ok?
    ensures Beside(s, k, r, Accept(fd))
  {
    SameFdFree(s, k, r, fd);
    if && AtRest(s, 0) && s.loops[0].phase.Handling? && s.loops[0].phase.callbacks == []
       && s.nextConnId <= INT_MAX && (|s.loops| == 1 || s.nextLoop + 1 < |s.loops|) && FdFree(s, fd) {
      AcceptBeside(s, k, r, fd);
      AcceptPhases(s, fd);
    }
  }

  lemma ReferencesBeside(s: State, k: LoopId, r: Rider, e: Event)
    requires Onboard(s, k, r) && (e.Hold? || e.Release?)
    ensures Step(s, e).Ok? && Beside(s, k, r, e)
  {
    SameAlive(s, k, r, e.c);
  }

  /** Whatever happens, it happens beside the rider, until the rider's own turn. */
  lemma StepBeside(s: State, k: LoopId, r: Rider, e: Event)
    requires Onboard(s, k, r) && !ItsTurn(k, r, e) && Step(s, e).Ok?
    ensures Beside(s, k, r, e)
  {
    match e
    case Accept(fd) => AcceptEventBeside(s, k, r, fd);
    case Poll(j, ready) => PollBeside(s, k, r, j, ready);
    case NextChannel(j) => NextChannelBeside(s, k, r, j);
    case RunCallback(j, n) => RunCallbackBeside(s, k, r, j, n);
    case EndHandling(j) => EndHandlingBeside(s, k, r, j);
    case RunFunctor(j, io) => RunFunctorBeside(s, k, r, j, io);
    case EndBatch(j) => EndBatchBeside(s, k, r, j);
    case FinishClose(j) => FinishCloseBeside(s, k, r, j);
    case Call(thread, d, call) => CallBeside(s, k, r, thread, d, call);
    case Hold(_) => ReferencesBeside(s, k, r, e);
    case Release(_) => ReferencesBeside(s, k, r, e);
  }
}
