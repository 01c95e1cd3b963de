/** What goes over the socket.  The bytes given to it, the bytes that pass through outputBuffer_ and
    the half-closes of a connection are, in every run, what the single write(2) calls took and what
    the single calls of `send` and `shutdown` asked for. */
module LifecycleTraffic {
  import opened Endian
  import opened Lifecycle
  import opened LifecycleInv
  import opened LifecycleProof
  import opened LifecycleSteps
  import opened LifecycleTheorems
  import opened Machine
  import opened Polling
  import opened Seqs

  // ----- handleWrite

  /** The first n bytes of the output have gone to the socket.  With the last of them the notice
      is queued, and a half-close that was waiting for it is made. */
  predicate Took(s: State, t: State, c: ConnId, n: nat) {
    && c in s.conns && c in t.conns && s.conns[c].loop < |s.loops| == |t.loops| && n <= |s.conns[c].output|
    && var conn, emptied := s.conns[c], 0 < n == |s.conns[c].output|;
       && t.conns[c] == conn.(output := conn.output[n..], drained := conn.drained + conn.output[..n],
                              sent := conn.sent + conn.output[..n],
                              halfCloses := conn.halfCloses +
                                if emptied && conn.state == Disconnecting then [HalfClose(Disconnecting, [])] else [])
       && t.loops[conn.loop].pending ==
          s.loops[conn.loop].pending + if emptied && s.config.writeComplete then [WriteComplete(c)] else []
  }

  lemma NothingTaken(s: State, c: ConnId, n: int)
    requires s.Known(c) && n <= |s.conns[c].output| && (s.Chan(c).IsWriting() ==> n <= 0)
    ensures WriteReady(s, c, n) == Ok(s) && Took(s, s, c, 0)
  {
    var conn := s.conns[c];
    assert conn.output[..0] == [] && conn.output[0..] == conn.output;
    assert conn.drained + [] == conn.drained && conn.sent + [] == conn.sent && conn.halfCloses + [] == conn.halfCloses;
    assert s.loops[conn.loop].pending + [] == s.loops[conn.loop].pending;
  }

  lemma SomeTaken(s: State, c: ConnId, n: int)
    requires s.Known(c) && s.Chan(c).IsWriting() && 0 < n < |s.conns[c].output|
    ensures WriteReady(s, c, n).Ok? && Took(s, WriteReady(s, c, n).state, c, n)
  {
    assert s.conns[c].halfCloses + [] == s.conns[c].halfCloses;
    assert s.loops[s.conns[c].loop].pending + [] == s.loops[s.conns[c].loop].pending;
  }

  lemma DrainedRecord(s: State, t: State, c: ConnId, w: World<ConnId>)
    requires s.Known(c) && t == Touched(s, c, Drain(s.conns[c], |s.conns[c].output|), w,
                                        if s.config.writeComplete then [WriteComplete(c)] else [])
    requires s.conns[c].output != [] && t.Known(c) && !t.Chan(c).IsWriting()
    ensures Took(s, if t.conns[c].state == Disconnecting then ShutdownNow(t, c) else t, c, |s.conns[c].output|)
  {
    var conn := s.conns[c];
    assert conn.halfCloses + [] == conn.halfCloses;
  }

  lemma AllTaken(s: State, c: ConnId)
    requires Inv(s) && c in s.conns && s.conns[c].stage == Open && s.conns[c].output != []
    ensures s.Known(c) && WriteReady(s, c, |s.conns[c].output|).Ok?
    ensures Took(s, WriteReady(s, c, |s.conns[c].output|).state, c, |s.conns[c].output|)
  {
    OneConn(s, c);
    var w := DrainedFits(s, c);
    DrainedIs(s, c, w);
    DrainedKeepsInv(s, c);
    OneConn(Drained(s, c).state, c);
    DrainedRecord(s, Drained(s, c).state, c, w);
  }

  /** For every write result: exactly the bytes that the socket took leave the output for it. */
  lemma WriteTakes(s: State, c: ConnId, n: int)
    requires Inv(s) && c in s.conns && n <= |s.conns[c].output|
    ensures s.Known(c) && WriteReady(s, c, n).Ok?
    ensures Took(s, WriteReady(s, c, n).state, c, if s.Chan(c).IsWriting() && n > 0 then n else 0)
  {
    OneConn(s, c);
    if !s.Chan(c).IsWriting() || n <= 0 {
      NothingTaken(s, c, n);
    } else if n < |s.conns[c].output| {
      SomeTaken(s, c, n);
    } else {
      AllTaken(s, c);
    }
  }

  // ----- sendInLoop

  predicate Idle(s: State, c: ConnId)
    requires s.Known(c)
  {
    s.conns[c].state != Disconnected && !s.Chan(c).IsWriting() && s.conns[c].output == []
  }

  /** What write(2) took of the message, and what is appended to the output: as many bytes as the
      message has, starting after those taken. */
  function TakenAtOnce(message: seq<Byte>, io: Io): seq<Byte> {
    if 0 <= io.n <= |message| then message[..io.n] else []
  }

  function LeftOver(message: seq<Byte>, io: Io): seq<Byte> {
    var n := if io.n < 0 then 0 else io.n;
    if io.fault || n + |message| > |message + io.beyond| then [] else (message + io.beyond)[n..n + |message|]
  }

  /** sendInLoop gives an idle connection's message to the socket and the rest to the output, says
      "write complete" exactly when the socket took nothing, and "high water" when the output jumps
      to the mark or beyond; a busy or closed connection ignores it. */
  lemma SendEffect(s: State, c: ConnId, message: seq<Byte>, io: Io)
    requires s.Known(c) && PossibleSend(io, message) && SendNow(s, c, message, io).Ok?
    ensures var t, conn := SendNow(s, c, message, io).state, s.conns[c];
            && c in t.conns && conn.loop < |t.loops|
            && (!Idle(s, c) ==> t.conns[c] == conn && t.loops[conn.loop] == s.loops[conn.loop])
            && (Idle(s, c) ==>
                  && t.conns[c] == conn.(sent := conn.sent + TakenAtOnce(message, io),
                                         output := LeftOver(message, io), put := conn.put + LeftOver(message, io))
                  && t.loops[conn.loop].pending == s.loops[conn.loop].pending
                       + (if io.n == 0 && s.config.writeComplete then [WriteComplete(c)] else [])
                       + (if && !io.fault && message != [] && s.config.highWater
                             && 0 < s.config.highWaterMark <= |message|
                          then [HighWater(c, |message|)] else []))
  {
    var conn, l := s.conns[c], s.loops[s.conns[c].loop];
    if Idle(s, c) {
      IdleRecord(conn, message, io);
      IdleNotices(s.config, c, conn, message, io, l.pending);
    } else {
      assert l.pending + [] == l.pending;
    }
  }

  lemma IdleRecord(conn: Conn, message: seq<Byte>, io: Io)
    requires conn.state != Disconnected && conn.output == [] && PossibleSend(io, message)
    ensures SendConn(conn, false, message, io) ==
            (conn.(sent := conn.sent + TakenAtOnce(message, io), output := LeftOver(message, io),
                   put := conn.put + LeftOver(message, io)),
             !io.fault && message != [])
  {
    var n := if io.n < 0 then 0 else io.n;
    assert (message + io.beyond)[n..n + |message|] == message[n..] + io.beyond;
    assert message == [] ==> LeftOver(message, io) == [];
    assert conn.put + [] == conn.put && conn.sent + [] == conn.sent;
    assert message[0..] + [] == message;
    assert [] + LeftOver(message, io) == LeftOver(message, io);
  }

  lemma IdleNotices(config: Config, c: ConnId, conn: Conn, message: seq<Byte>, io: Io, pending: seq<Functor>)
    requires conn.state != Disconnected && conn.output == []
    ensures pending + SendNotices(config, c, conn, false, message, io) ==
            pending + (if io.n == 0 && config.writeComplete then [WriteComplete(c)] else [])
            + (if && !io.fault && message != [] && config.highWater && 0 < config.highWaterMark <= |message|
               then [HighWater(c, |message|)] else [])
  {
  }

  // ----- the traffic of one step

  datatype Traffic = Traffic(sent: seq<Byte>, drained: seq<Byte>, put: seq<Byte>, halfCloses: seq<HalfClose>) {
    function Plus(more: Traffic): Traffic {
      Traffic(sent + more.sent, drained + more.drained, put + more.put, halfCloses + more.halfCloses)
    }
  }

  const Silence := Traffic([], [], [], [])

  /** The record of connection c so far. */
  function TrafficOf(s: State, c: ConnId): Traffic {
    if c in s.conns then Traffic(s.conns[c].sent, s.conns[c].drained, s.conns[c].put, s.conns[c].halfCloses)
    else Silence
  }

  function SendTraffic(s: State, c: ConnId, message: seq<Byte>, io: Io): Traffic
    requires s.Known(c)
  {
    if Idle(s, c) && PossibleSend(io, message) then Traffic(TakenAtOnce(message, io), [], LeftOver(message, io), [])
    else Silence
  }

  function WriteTraffic(s: State, c: ConnId, n: int): Traffic
    requires s.Known(c)
  {
    var conn := s.conns[c];
    if s.Chan(c).IsWriting() && 0 < n <= |conn.output| then
      Traffic(conn.output[..n], conn.output[..n], [],
              if n == |conn.output| && conn.state == Disconnecting then [HalfClose(Disconnecting, [])] else [])
    else Silence
  }

  /** The half-close of a `shutdown`, unless output is being written. */
  function HalfCloseTraffic(s: State, c: ConnId, state: ConnState): Traffic
    requires s.Known(c)
  {
    if s.Chan(c).IsWriting() then Silence else Traffic([], [], [], [HalfClose(state, s.conns[c].output)])
  }

  /** What event e adds to it: a report that the socket is writable, a queued send or half-close
      whose turn it is, or a call of the user on the connection's own thread. */
  function TrafficBy(s: State, e: Event, c: ConnId): Traffic {
    if !s.Known(c) then Silence
    else
      match e
      case RunCallback(k, n) =>
        if && AtRest(s, k) && s.loops[k].phase.Handling? && s.loops[k].phase.callbacks != []
           && s.loops[k].phase.callbacks[0] == WriteCb && s.loops[k].phase.current == c
        then WriteTraffic(s, c, n) else Silence
      case RunFunctor(k, io) =>
        if AtRest(s, k) && s.loops[k].phase == Calling && s.loops[k].batch != [] && s.loops[k].batch[0].c == c then
          match s.loops[k].batch[0]
          case SendLater(_, message) => SendTraffic(s, c, message, io)
          case ShutdownLater(_) => HalfCloseTraffic(s, c, s.conns[c].state)
          case _ => Silence
        else Silence
      case Call(thread, d, call) =>
        if && d == c && Alive(s, c) && thread == Some(s.conns[c].loop) && s.loops[s.conns[c].loop].phase != AtPoll
           && s.conns[c].state == Connected
        then
          match call
          case Send(message, io) => SendTraffic(s, c, message, io)
          case Shutdown => HalfCloseTraffic(s, c, Disconnecting)
          case Force => Silence
        else Silence
      case _ => Silence
  }

  // ----- operations

  /** Connection d has had some traffic, the others none. */
  ghost predicate Carries(s: State, t: State, d: ConnId, more: Traffic) {
    forall c :: TrafficOf(t, c) == if c == d then TrafficOf(s, c).Plus(more) else TrafficOf(s, c)
  }

  ghost predicate Quiet(s: State, t: State) {
    forall c :: TrafficOf(t, c) == TrafficOf(s, c)
  }

  lemma PlusSilence(x: Traffic)
    ensures x.Plus(Silence) == x
  {
    assert x.sent + [] == x.sent && x.drained + [] == x.drained && x.put + [] == x.put && x.halfCloses + [] == x.halfCloses;
  }

  lemma QuietCarries(s: State, t: State, d: ConnId)
    requires Quiet(s, t)
    ensures Carries(s, t, d, Silence)
  {
    PlusSilence(TrafficOf(s, d));
  }

  lemma SendCarries(s: State, c: ConnId, message: seq<Byte>, io: Io)
    requires s.Known(c) && PossibleSend(io, message) && SendNow(s, c, message, io).Ok?
    ensures Carries(s, SendNow(s, c, message, io).state, c, SendTraffic(s, c, message, io))
  {
    SendEffect(s, c, message, io);
    PlusSilence(TrafficOf(s, c));
    var conn := s.conns[c];
    assert conn.drained + [] == conn.drained && conn.halfCloses + [] == conn.halfCloses;
  }

  lemma WriteCarries(s: State, c: ConnId, n: int)
    requires Inv(s) && c in s.conns && n <= |s.conns[c].output|
    ensures s.Known(c) && WriteReady(s, c, n).Ok? && Carries(s, WriteReady(s, c, n).state, c, WriteTraffic(s, c, n))
  {
    WriteTakes(s, c, n);
    WriteAlone(s, c, n);
    PlusSilence(TrafficOf(s, c));
    var conn := s.conns[c];
    assert conn.put + [] == conn.put && conn.output[..0] == [];
    assert conn.drained + [] == conn.drained && conn.sent + [] == conn.sent;
  }

  lemma WriteAlone(s: State, c: ConnId, n: int)
    requires s.Known(c) && n <= |s.conns[c].output| && WriteReady(s, c, n).Ok?
    ensures var t := WriteReady(s, c, n).state; forall d :: d != c ==> TrafficOf(t, d) == TrafficOf(s, d)
  {
  }

  lemma ShutdownCarries(s: State, c: ConnId)
    requires s.Known(c)
    ensures Carries(s, ShutdownNow(s, c), c, HalfCloseTraffic(s, c, s.conns[c].state))
  {
    PlusSilence(TrafficOf(s, c));
  }

  lemma EstablishingQuiet(s: State, c: ConnId)
    requires s.Known(c) && Establishing(s, c).Ok?
    ensures Quiet(s, Establishing(s, c).state)
  {
  }

  lemma CloseQuiet(s: State, c: ConnId)
    requires s.Known(c) && CloseConn(s, c).Ok?
    ensures Quiet(s, CloseConn(s, c).state)
  {
  }

  lemma RemoveQuiet(s: State, c: ConnId)
    requires s.Known(c) && RemoveConn(s, c).Ok?
    ensures Quiet(s, RemoveConn(s, c).state)
  {
  }

  lemma DestroyQuiet(s: State, k: LoopId, c: ConnId)
    requires s.Known(c) && k < |s.loops| && DestroyNow(s, k, c).Ok?
    ensures Quiet(s, DestroyNow(s, k, c).state)
  {
  }

  lemma FinishQuiet(s: State, k: LoopId, c: ConnId)
    requires s.Known(c) && k < |s.loops| && FinishClosing(s, k, c).Ok?
    ensures Quiet(s, FinishClosing(s, k, c).state)
  {
  }

  lemma AcceptQuiet(s: State, fd: int)
    requires (|s.loops| == 1 || s.nextLoop + 1 < |s.loops|) && AcceptConn(s, fd).Ok? && s.nextConnId !in s.conns
    ensures Quiet(s, AcceptConn(s, fd).state)
  {
    AcceptIs(s, fd);
    var t := Registered(s, fd);
    assert Quiet(s, t);
    if NextHome(s) == 0 {
      EstablishingQuiet(t, s.nextConnId);
    }
  }

  // ----- steps

  predicate Adds(s: State, t: State, c: ConnId, more: Traffic) {
    TrafficOf(t, c) == TrafficOf(s, c).Plus(more)
  }

  /** s and p have the same connections and channels. */
  predicate SameChannels(s: State, p: State) {
    && p.conns == s.conns && |p.loops| == |s.loops|
    && forall k :: 0 <= k < |s.loops| ==> p.loops[k].world == s.loops[k].world
  }

  lemma CarriesAdds(s: State, p: State, t: State, d: ConnId, more: Traffic, c: ConnId)
    requires SameChannels(s, p) && Carries(p, t, d, more)
    ensures Adds(s, t, c, if c == d then more else Silence)
  {
    assert TrafficOf(p, c) == TrafficOf(s, c);
    PlusSilence(TrafficOf(s, c));
  }

  lemma FunctorCarries(s: State, k: LoopId, io: Io, c: ConnId)
    requires AtRest(s, k) && s.loops[k].phase == Calling && HasFunctor(s, k) && IoFits(s, k, io)
    requires RunningFunctor(s, k, io).Ok?
    ensures Adds(s, RunningFunctor(s, k, io).state, c, TrafficBy(s, RunFunctor(k, io), c))
  {
    RunningFunctorIs(s, k, io);
    var f, p, t := s.loops[k].batch[0], PopFunctor(s, k), RunningFunctor(s, k, io).state;
    assert SameChannels(s, p) && s.Known(f.c);
    var d := f.c;
    if f.SendLater? {
      SendCarries(p, d, f.message, io);
      CarriesAdds(s, p, t, d, SendTraffic(p, d, f.message, io), c);
    } else if f.ShutdownLater? {
      ShutdownCarries(p, d);
      CarriesAdds(s, p, t, d, HalfCloseTraffic(p, d, p.conns[d].state), c);
    } else {
      FunctorQuiet(p, k, f, t);
      QuietCarries(p, t, d);
      CarriesAdds(s, p, t, d, Silence, c);
    }
  }

  lemma FunctorQuiet(p: State, k: LoopId, f: Functor, t: State)
    requires p.Known(f.c) && k < |p.loops|
    requires Ok(t) ==
             match f
             case Establish(d) => Establishing(p, d)
             case ForceClose(d) => if IsOpen(p.conns[d].state) then CloseConn(p, d) else Ok(p)
             case Remove(d) => RemoveConn(p, d)
             case DestroyConn(d) => DestroyNow(p, k, d)
             case _ => Ok(p)
    ensures Quiet(p, t)
  {
    match f
    case Establish(d) => EstablishingQuiet(p, d);
    case ForceClose(d) => if IsOpen(p.conns[d].state) { CloseQuiet(p, d); }
    case Remove(d) => RemoveQuiet(p, d);
    case DestroyConn(d) => DestroyQuiet(p, k, d);
    case _ =>
  }

  lemma WriteCallbackCarries(s: State, k: LoopId, n: int, c: ConnId)
    requires Inv(s) && AtRest(s, k) && HasCallback(s, k) && WriteFits(s, k, n) && RunningCallback(s, k, n).Ok?
    requires s.loops[k].phase.callbacks[0] == WriteCb
    ensures Adds(s, RunningCallback(s, k, n).state, c, TrafficBy(s, RunCallback(k, n), c))
  {
    var d, p := s.loops[k].phase.current, PopCallback(s, k);
    RunningCallbackIs(s, k, n);
    PopCallbackKeepsInv(s, k);
    WriteCarries(p, d, n);
    SameWrite(s, p, d, n);
    CarriesAdds(s, p, RunningCallback(s, k, n).state, d, WriteTraffic(p, d, n), c);
  }

  lemma SameWrite(s: State, p: State, d: ConnId, n: int)
    requires s.Known(d) && SameChannels(s, p)
    ensures p.Known(d) && WriteTraffic(p, d, n) == WriteTraffic(s, d, n)
  {
  }

  lemma OtherCallbackCarries(s: State, k: LoopId, n: int, c: ConnId)
    requires AtRest(s, k) && HasCallback(s, k) && WriteFits(s, k, n) && RunningCallback(s, k, n).Ok?
    requires s.loops[k].phase.callbacks[0] != WriteCb
    ensures Adds(s, RunningCallback(s, k, n).state, c, Silence)
  {
    var cb, d, p := s.loops[k].phase.callbacks[0], s.loops[k].phase.current, PopCallback(s, k);
    var t := RunningCallback(s, k, n).state;
    if cb != ErrorCb {
      RunningCallbackIs(s, k, n);
      if cb == CloseCb || n == 0 {
        CloseQuiet(p, d);
      }
    }
    QuietCarries(p, t, d);
    CarriesAdds(s, p, t, d, Silence, c);
  }

  lemma CallCarries(s: State, d: ConnId, call: UserCall, inLoop: bool)
    requires s.Known(d) && UserStep(s, d, call, inLoop).Ok?
    ensures var more :=
              if !inLoop || s.conns[d].state != Connected then Silence
              else match call
                   case Send(message, io) => SendTraffic(s, d, message, io)
                   case Shutdown => HalfCloseTraffic(s, d, Disconnecting)
                   case Force => Silence;
            Carries(s, UserStep(s, d, call, inLoop).state, d, more)
  {
    var t := UserStep(s, d, call, inLoop).state;
    PlusSilence(TrafficOf(s, d));
    match call
    case Send(message, io) =>
      if s.conns[d].state == Connected && inLoop && PossibleSend(io, message) {
        SendCarries(s, d, message, io);
      }
    case Shutdown =>
      if s.conns[d].state == Connected {
        var u := SetConn(s, d, s.conns[d].(state := Disconnecting));
        assert Quiet(s, u);
        ShutdownCarries(u, d);
      }
    case Force =>
  }

  lemma CallStepCarries(s: State, thread: Option<LoopId>, d: ConnId, call: UserCall, c: ConnId)
    requires Step(s, Call(thread, d, call)).Ok?
    ensures Adds(s, Step(s, Call(thread, d, call)).state, c, TrafficBy(s, Call(thread, d, call), c))
  {
    PlusSilence(TrafficOf(s, c));
    if s.Known(d) && Alive(s, d) && (thread.Some? ==> thread.value < |s.loops| && s.loops[thread.value].phase != AtPoll) {
      CallCarries(s, d, call, thread == Some(s.conns[d].loop));
    }
  }

  lemma CallbackStepCarries(s: State, k: LoopId, n: int, c: ConnId)
    requires Inv(s) && Step(s, RunCallback(k, n)).Ok?
    ensures Adds(s, Step(s, RunCallback(k, n)).state, c, TrafficBy(s, RunCallback(k, n), c))
  {
    PlusSilence(TrafficOf(s, c));
    if AtRest(s, k) && HasCallback(s, k) && WriteFits(s, k, n) {
      if s.loops[k].phase.callbacks[0] == WriteCb {
        WriteCallbackCarries(s, k, n, c);
      } else {
        OtherCallbackCarries(s, k, n, c);
      }
    }
  }

  lemma FunctorStepCarries(s: State, k: LoopId, io: Io, c: ConnId)
    requires Step(s, RunFunctor(k, io)).Ok?
    ensures Adds(s, Step(s, RunFunctor(k, io)).state, c, TrafficBy(s, RunFunctor(k, io), c))
  {
    PlusSilence(TrafficOf(s, c));
    if AtRest(s, k) && s.loops[k].phase == Calling && HasFunctor(s, k) && IoFits(s, k, io) {
      FunctorCarries(s, k, io, c);
    }
  }

  lemma AcceptStepQuiet(s: State, fd: int)
    requires MapInv(s) && Step(s, Accept(fd)).Ok?
    ensures Quiet(s, Step(s, Accept(fd)).state)
  {
    if Step(s, Accept(fd)).state != s {
      AcceptQuiet(s, fd);
    }
  }

  lemma FinishStepQuiet(s: State, k: LoopId)
    requires Step(s, FinishClose(k)).Ok?
    ensures Quiet(s, Step(s, FinishClose(k)).state)
  {
    if k < |s.loops| && s.loops[k].closing.Some? {
      FinishCloseIs(s, k, s.loops[k].closing.value);
      FinishQuiet(s, k, s.loops[k].closing.value);
    }
  }

  /** The four histories of every connection grow by exactly the traffic of the step. */
  lemma StepCarries(s: State, e: Event, c: ConnId)
    requires Inv(s) && Step(s, e).Ok?
    ensures Adds(s, Step(s, e).state, c, TrafficBy(s, e, c))
  {
    PlusSilence(TrafficOf(s, c));
    match e
    case Accept(fd) => AcceptStepQuiet(s, fd);
    case RunCallback(k, n) => CallbackStepCarries(s, k, n, c);
    case RunFunctor(k, io) => FunctorStepCarries(s, k, io, c);
    case FinishClose(k) => FinishStepQuiet(s, k);
    case Call(thread, d, call) => CallStepCarries(s, thread, d, call, c);
    case _ => ConnsUntouched(s, e);
  }

  lemma ConnsUntouched(s: State, e: Event)
    requires e.Poll? || e.NextChannel? || e.EndHandling? || e.EndBatch? || e.Hold? || e.Release?
    requires Step(s, e).Ok?
    ensures Step(s, e).state.conns == s.conns
  {
  }

  // ----- runs

  function SentBy(c: ConnId): (State, Event) -> seq<Byte> {
    (s, e) => TrafficBy(s, e, c).sent
  }

  function DrainedBy(c: ConnId): (State, Event) -> seq<Byte> {
    (s, e) => TrafficBy(s, e, c).drained
  }

  function PutBy(c: ConnId): (State, Event) -> seq<Byte> {
    (s, e) => TrafficBy(s, e, c).put
  }

  function HalfClosedBy(c: ConnId): (State, Event) -> seq<HalfClose> {
    (s, e) => TrafficBy(s, e, c).halfCloses
  }

  /** From any state in order, a history of connection c is what the steps of the run add to it. */
  lemma RunCarries<T>(s: State, events: seq<Event>, c: ConnId, history: Traffic -> seq<T>, part: (State, Event) -> seq<T>)
    requires Inv(s) && Run(Step, s, events).Ok? && forall i :: 0 <= i < |events| ==> Benign(events[i])
    requires forall t, e :: part(t, e) == history(TrafficBy(t, e, c))
    requires forall x: Traffic, y: Traffic :: history(x.Plus(y)) == history(x) + history(y)
    ensures history(TrafficOf(Run(Step, s, events).state, c)) ==
            history(TrafficOf(s, c)) + Gathered(Step, part, s, events)
  {
    forall t, e | Inv(t) && Benign(e) && Step(t, e).Ok?
      ensures Inv(Step(t, e).state)
      ensures history(TrafficOf(Step(t, e).state, c)) == history(TrafficOf(t, c)) + part(t, e)
    {
      StepKeepsInv(t, e);
      StepCarries(t, e, c);
    }
    RunGathers(Step, t => Inv(t), e => Benign(e), t => history(TrafficOf(t, c)), part, s, events);
  }

  /** In every run, for every connection: the socket got exactly what the write(2) calls took, in
      order; outputBuffer_ got exactly what the sends left over; the half-closes are exactly those
      of the calls that found nothing being written and of the writes that emptied the output. */
  lemma SocketGets(config: Config, ioLoops: nat, events: seq<Event>, c: ConnId)
    requires Admissible(config, events)
    ensures After(config, ioLoops, events).Ok?
    ensures var start, end := Init(config, ioLoops), TrafficOf(After(config, ioLoops, events).state, c);
            && end.sent == Gathered(Step, SentBy(c), start, events)
            && end.drained == Gathered(Step, DrainedBy(c), start, events)
            && end.put == Gathered(Step, PutBy(c), start, events)
            && end.halfCloses == Gathered(Step, HalfClosedBy(c), start, events)
  {
    NoRunAborts(config, ioLoops, events);
    InitInv(config, ioLoops);
    BytesCarried(Init(config, ioLoops), events, c);
    PassedThrough(Init(config, ioLoops), events, c);
  }

  lemma BytesCarried(s: State, events: seq<Event>, c: ConnId)
    requires Inv(s) && Run(Step, s, events).Ok? && forall i :: 0 <= i < |events| ==> Benign(events[i])
    ensures var start, end := TrafficOf(s, c), TrafficOf(Run(Step, s, events).state, c);
            && end.sent == start.sent + Gathered(Step, SentBy(c), s, events)
            && end.halfCloses == start.halfCloses + Gathered(Step, HalfClosedBy(c), s, events)
  {
    RunCarries(s, events, c, (x: Traffic) => x.sent, SentBy(c));
    RunCarries(s, events, c, (x: Traffic) => x.halfCloses, HalfClosedBy(c));
  }

  lemma PassedThrough(s: State, events: seq<Event>, c: ConnId)
    requires Inv(s) && Run(Step, s, events).Ok? && forall i :: 0 <= i < |events| ==> Benign(events[i])
    ensures var start, end := TrafficOf(s, c), TrafficOf(Run(Step, s, events).state, c);
            && end.drained == start.drained + Gathered(Step, DrainedBy(c), s, events)
            && end.put == start.put + Gathered(Step, PutBy(c), s, events)
  {
    RunCarries(s, events, c, (x: Traffic) => x.drained, DrainedBy(c));
    RunCarries(s, events, c, (x: Traffic) => x.put, PutBy(c));
  }
}
