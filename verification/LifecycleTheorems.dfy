/** What the connection life cycle guarantees in every run. */
module LifecycleTheorems {
  import opened Endian
  import opened Lifecycle
  import opened LifecycleInv
  import opened LifecycleProof
  import opened LifecycleSteps
  import opened Machine
  import opened Names
  import opened Polling
  import opened Seqs

  /** A server started on an address no longer than any address it can format, and a kernel
      that reports no hang-up making one dispatch both close and read. */
  predicate Admissible(config: Config, events: seq<Event>) {
    |config.ipPort| <= 51 && forall i :: 0 <= i < |events| ==> Benign(events[i])
  }

  function After(config: Config, ioLoops: nat, events: seq<Event>): Outcome<State> {
    Run(Step, Init(config, ioLoops), events)
  }

  /** In every interleaving no assertion fails, no functor or callback reaches a destroyed
      connection, and the invariant holds. */
  lemma NoRunAborts(config: Config, ioLoops: nat, events: seq<Event>)
    requires Admissible(config, events)
    ensures After(config, ioLoops, events).Ok? && Inv(After(config, ioLoops, events).state)
  {
    InitInv(config, ioLoops);
    forall s, e | Inv(s) && Benign(e) ensures Step(s, e).Ok? && Inv(Step(s, e).state) {
      StepKeepsInv(s, e);
    }
    RunKeepsOn(Step, s => Inv(s), e => Benign(e), Init(config, ioLoops), events);
  }

  // ----- connections_

  /** A connection is in the map until connectDestroyed is queued for it, which happens at most
      once and only after it is Disconnected; nothing else is in the map. */
  lemma MappedUntilDestroyed(config: Config, ioLoops: nat, events: seq<Event>)
    requires Admissible(config, events)
    ensures After(config, ioLoops, events).Ok?
    ensures var s := After(config, ioLoops, events).state;
            forall c :: c in s.conns ==>
              && (s.InMap(c) <==> s.conns[c].destroys == 0)
              && (s.conns[c].destroys == 0 || (s.conns[c].destroys == 1 && s.conns[c].state == Disconnected))
    ensures var s := After(config, ioLoops, events).state;
            forall n :: n in s.connections ==> s.connections[n] in s.conns && n == s.Name(s.connections[n])
  {
    NoRunAborts(config, ioLoops, events);
    var s := After(config, ioLoops, events).state;
    forall c | c in s.conns
      ensures s.InMap(c) <==> s.conns[c].destroys == 0
      ensures s.conns[c].destroys == 0 || (s.conns[c].destroys == 1 && s.conns[c].state == Disconnected)
    {
      assert s.InMap(c) <==> Mapped(s.conns[c].stage);
      assert ConnInv(s.conns[c]);
    }
  }

  // ----- lifetime

  lemma {:induction false} NoneMine(fs: seq<Functor>, c: ConnId, i: nat)
    requires i < |fs| && Mine(fs, c) == []
    ensures fs[i].c != c
  {
    if i > 0 {
      NoneMine(fs[1..], c, i - 1);
    }
  }

  lemma {:induction false} DestroyIsLast(fs: seq<Functor>, c: ConnId, i: nat, j: nat)
    requires var mine := Mine(fs, c); mine != [] && AllPlain(mine[..|mine| - 1])
    requires i < |fs| && j < |fs| && fs[i] == DestroyConn(c) && fs[j].c == c
    ensures j <= i
  {
    var mine, rest := Mine(fs, c), Mine(fs[1..], c);
    assert |mine| > 1 ==> mine[..|mine| - 1][0] == mine[0];
    if i == 0 {
      if j > 0 {
        NoneMine(fs[1..], c, j - 1);
      }
    } else if j > 0 {
      assert rest != [] by {
        if rest == [] { NoneMine(fs[1..], c, i - 1); }
      }
      var skip := if fs[0].c == c then 1 else 0;
      forall x | 0 <= x < |rest| - 1 ensures rest[x].Plain() {
        assert rest[x] == mine[x + skip] == mine[..|mine| - 1][x + skip];
      }
      DestroyIsLast(fs[1..], c, i - 1, j - 1);
    }
  }

  /** connectDestroyed waits on the connection's own loop behind all its other functors, and no
      other loop holds any of them. */
  ghost predicate DestroyedLast(s: State, c: ConnId) {
    forall k, i :: 0 <= k < |s.loops| && 0 <= i < |s.loops[k].Todo()| && s.loops[k].Todo()[i] == DestroyConn(c) ==>
      && c in s.conns && s.conns[c].loop == k
      && forall m, j :: 0 <= m < |s.loops| && 0 <= j < |s.loops[m].Todo()| && s.loops[m].Todo()[j].c == c ==>
           m == k && j <= i
  }

  lemma QueuedShape(s: State, k: LoopId, i: nat)
    requires QueueInv(s) && k < |s.loops| && i < |s.loops[k].Todo()|
    ensures var c, mine := s.loops[k].Todo()[i].c, Mine(s.loops[k].Todo(), s.loops[k].Todo()[i].c);
            && c in s.conns && mine != [] && s.loops[k].Todo()[i] in mine
            && Shape(s.conns[c].stage, c, s.conns[c].loop, k, mine)
  {
    var todo := s.loops[k].Todo();
    assert MineOk(s, k, todo[i].c);
    InMine(todo, i);
  }

  lemma {:induction false} InMine(fs: seq<Functor>, i: nat)
    requires i < |fs|
    ensures fs[i] in Mine(fs, fs[i].c)
  {
    if i > 0 {
      InMine(fs[1..], i - 1);
    }
  }

  lemma DestroyShape(stage: Stage, c: ConnId, home: LoopId, k: LoopId, mine: seq<Functor>)
    requires Shape(stage, c, home, k, mine) && DestroyConn(c) in mine
    ensures k == home && stage == Destroying && mine != [] && AllPlain(mine[..|mine| - 1])
  {
    var i :| 0 <= i < |mine| && mine[i] == DestroyConn(c);
    assert !mine[i].Plain();
  }

  lemma DestroyedLastHolds(s: State, c: ConnId)
    requires QueueInv(s)
    ensures DestroyedLast(s, c)
  {
    forall k, i | 0 <= k < |s.loops| && 0 <= i < |s.loops[k].Todo()| && s.loops[k].Todo()[i] == DestroyConn(c)
      ensures c in s.conns && s.conns[c].loop == k
      ensures forall m, j :: 0 <= m < |s.loops| && 0 <= j < |s.loops[m].Todo()| && s.loops[m].Todo()[j].c == c ==>
                m == k && j <= i
    {
      QueuedShape(s, k, i);
      DestroyShape(s.conns[c].stage, c, s.conns[c].loop, k, Mine(s.loops[k].Todo(), c));
      forall m, j | 0 <= m < |s.loops| && 0 <= j < |s.loops[m].Todo()| && s.loops[m].Todo()[j].c == c
        ensures m == k && j <= i
      {
        QueuedShape(s, m, j);
        DestroyIsLast(s.loops[k].Todo(), c, i, j);
      }
    }
  }

  /** No queue, batch or dispatch mentions the connection. */
  ghost predicate Forgotten(s: State, c: ConnId) {
    forall k :: 0 <= k < |s.loops| ==>
      && (forall i :: 0 <= i < |s.loops[k].Todo()| ==> s.loops[k].Todo()[i].c != c)
      && (s.loops[k].phase.Handling? ==>
            && (forall i :: 0 <= i < |s.loops[k].phase.active| ==> s.loops[k].phase.active[i].c != c)
            && (s.loops[k].phase.callbacks != [] ==> s.loops[k].phase.current != c))
  }

  lemma GoneIsForgotten(s: State, c: ConnId)
    requires QueueInv(s) && LoopsInv(s) && c in s.conns && s.conns[c].stage == Gone && !Alive(s, c)
    ensures Forgotten(s, c)
  {
    forall k, i | 0 <= k < |s.loops| && 0 <= i < |s.loops[k].Todo()| ensures s.loops[k].Todo()[i].c != c {
      assert MineOk(s, k, c);
      NoneMine(s.loops[k].Todo(), c, i);
    }
    forall k | 0 <= k < |s.loops| ensures !LoopOwns(s.loops[k], c) && LoopInv(s, k) {
    }
  }

  /** When the last shared_ptr goes, the destructors' assertions hold: the connection is
      Disconnected, its channel is out of the poller and the loop, and nothing queued (with or
      without a shared_ptr of its own) or being dispatched refers to it.  Until then
      connectDestroyed, once queued, is the last of its functors to run. */
  lemma DestructorSafe(config: Config, ioLoops: nat, events: seq<Event>)
    requires Admissible(config, events)
    ensures After(config, ioLoops, events).Ok?
    ensures var s := After(config, ioLoops, events).state;
            forall c :: c in s.conns && !Alive(s, c) ==>
              && s.conns[c].state == Disconnected && s.Known(c)
              && s.Chan(c).index == KNew && !s.Chan(c).addedToLoop && Forgotten(s, c)
    ensures var s := After(config, ioLoops, events).state; forall c: ConnId :: DestroyedLast(s, c)
  {
    NoRunAborts(config, ioLoops, events);
    var s := After(config, ioLoops, events).state;
    forall c | c in s.conns && !Alive(s, c)
      ensures s.conns[c].state == Disconnected && s.Known(c)
      ensures s.Chan(c).index == KNew && !s.Chan(c).addedToLoop && Forgotten(s, c)
    {
      DeadIsGone(s, c);
    }
    forall c: ConnId ensures DestroyedLast(s, c) {
      DestroyedLastHolds(s, c);
    }
  }

  lemma DeadIsGone(s: State, c: ConnId)
    requires Inv(s) && c in s.conns && !Alive(s, c)
    ensures s.conns[c].state == Disconnected && s.Known(c) && s.Chan(c) == NewChan(s.conns[c].fd) && Forgotten(s, c)
  {
    if s.conns[c].stage != Gone {
      AliveUntilGone(s, c);
    }
    OneConn(s, c);
    GoneIsForgotten(s, c);
  }

  // ----- callbacks, interest and output

  function TraceOf(state: ConnState): seq<Note> {
    match state
    case Connecting => []
    case Connected => [Up]
    case Disconnecting => [Up]
    case Disconnected => [Up, Down]
  }

  /** The user sees a prefix of [up, down], in step with the state, and the close callback runs
      at most once. */
  lemma CallbackTrace(config: Config, ioLoops: nat, events: seq<Event>)
    requires Admissible(config, events)
    ensures After(config, ioLoops, events).Ok?
    ensures var s := After(config, ioLoops, events).state;
            forall c :: c in s.conns ==>
              && s.conns[c].trace == TraceOf(s.conns[c].state)
              && s.conns[c].closes <= (if s.conns[c].state == Disconnected then 1 else 0)
  {
    NoRunAborts(config, ioLoops, events);
    var s := After(config, ioLoops, events).state;
    forall c | c in s.conns
      ensures s.conns[c].trace == TraceOf(s.conns[c].state)
      ensures s.conns[c].closes <= (if s.conns[c].state == Disconnected then 1 else 0)
    {
      OneTrace(s.conns[c]);
    }
  }

  lemma OneTrace(conn: Conn)
    requires ConnInv(conn)
    ensures conn.trace == TraceOf(conn.state) && conn.closes <= (if conn.state == Disconnected then 1 else 0)
  {
  }

  predicate IsOpen(state: ConnState) {
    state == Connected || state == Disconnecting
  }

  /** A connection has a non-empty interest mask exactly while it is Connected or
      Disconnecting, and then the kernel watches its descriptor with that mask. */
  lemma InterestIffOpen(config: Config, ioLoops: nat, events: seq<Event>)
    requires Admissible(config, events)
    ensures After(config, ioLoops, events).Ok?
    ensures var s := After(config, ioLoops, events).state;
            forall c :: c in s.conns ==>
              && s.Known(c)
              && (!s.Chan(c).IsNoneEvent() <==> IsOpen(s.conns[c].state))
              && var kernel, fd := s.loops[s.conns[c].loop].world.poller.kernel, s.conns[c].fd;
                 fd in kernel && kernel[fd] == Interest(s.Chan(c).events, c) <==> IsOpen(s.conns[c].state)
  {
    NoRunAborts(config, ioLoops, events);
    var s := After(config, ioLoops, events).state;
    forall c | c in s.conns
      ensures s.Known(c) && (!s.Chan(c).IsNoneEvent() <==> IsOpen(s.conns[c].state))
      ensures var kernel, fd := s.loops[s.conns[c].loop].world.poller.kernel, s.conns[c].fd;
              fd in kernel && kernel[fd] == Interest(s.Chan(c).events, c) <==> IsOpen(s.conns[c].state)
    {
      OneInterest(s, c);
    }
  }

  lemma OneInterest(s: State, c: ConnId)
    requires WorldsInv(s) && c in s.conns && ConnInv(s.conns[c])
    ensures s.Known(c) && (!s.Chan(c).IsNoneEvent() <==> IsOpen(s.conns[c].state))
    ensures var kernel, fd := s.loops[s.conns[c].loop].world.poller.kernel, s.conns[c].fd;
            fd in kernel && kernel[fd] == Interest(s.Chan(c).events, c) <==> IsOpen(s.conns[c].state)
  {
    assert s.Known(c) && ChanOk(s.conns[c], s.Chan(c)) && LoopWorldInv(s, s.conns[c].loop);
    MaskBits();
  }

  /** What handleWrite gave to the socket, followed by outputBuffer_, is everything put into
      outputBuffer_.  While the connection is open, writing interest is on exactly when output
      is left, so no half-close of an open connection was ever issued over undrained output. */
  lemma OutputDrains(config: Config, ioLoops: nat, events: seq<Event>)
    requires Admissible(config, events)
    ensures After(config, ioLoops, events).Ok?
    ensures var s := After(config, ioLoops, events).state;
            forall c :: c in s.conns ==>
              && s.conns[c].drained + s.conns[c].output == s.conns[c].put
              && s.Known(c)
              && (IsOpen(s.conns[c].state) ==> (s.Chan(c).IsWriting() <==> s.conns[c].output != []))
              && forall i :: 0 <= i < |s.conns[c].halfCloses| && s.conns[c].halfCloses[i].state != Disconnected ==>
                   s.conns[c].halfCloses[i].undrained == []
  {
    NoRunAborts(config, ioLoops, events);
    var s := After(config, ioLoops, events).state;
    forall c | c in s.conns
      ensures ConnInv(s.conns[c]) && s.Known(c)
      ensures IsOpen(s.conns[c].state) ==> (s.Chan(c).IsWriting() <==> s.conns[c].output != [])
    {
      OneConn(s, c);
    }
  }

  // ----- forward only

  function Rank(state: ConnState): nat {
    match state
    case Connecting => 0
    case Connected => 1
    case Disconnecting => 2
    case Disconnected => 3
  }

  /** The same connection, later. */
  predicate ConnLater(a: Conn, b: Conn) {
    && b.loop == a.loop && b.fd == a.fd && Rank(a.state) <= Rank(b.state)
    && a.trace <= b.trace && a.closes <= b.closes && a.destroys <= b.destroys && a.halfCloses <= b.halfCloses
    && a.put <= b.put && a.drained <= b.drained && a.sent <= b.sent
  }

  ghost predicate Later(s: State, t: State) {
    && t.config == s.config
    && forall c :: c in s.conns ==> c in t.conns && ConnLater(s.conns[c], t.conns[c]) && (t.InMap(c) ==> s.InMap(c))
  }

  /** Only connection c moved, and the map lost at most names. */
  lemma OneLater(s: State, t: State, c: ConnId)
    requires t.config == s.config
    requires forall n :: n in t.connections ==> n in s.connections && t.connections[n] == s.connections[n]
    requires c in s.conns && c in t.conns && t.conns == s.conns[c := t.conns[c]] && ConnLater(s.conns[c], t.conns[c])
    ensures Later(s, t)
  {
  }

  lemma SameLater(s: State, t: State)
    requires t.config == s.config && t.connections == s.connections && t.conns == s.conns
    ensures Later(s, t)
  {
  }

  lemma LaterTransitive(s: State, t: State, u: State)
    requires Later(s, t) && Later(t, u)
    ensures Later(s, u)
  {
  }

  lemma EstablishingLater(s: State, c: ConnId)
    requires s.Known(c) && Establishing(s, c).Ok?
    ensures Later(s, Establishing(s, c).state)
  {
    OneLater(s, Establishing(s, c).state, c);
  }

  lemma CloseLater(s: State, c: ConnId)
    requires s.Known(c) && CloseConn(s, c).Ok?
    ensures Later(s, CloseConn(s, c).state)
  {
    OneLater(s, CloseConn(s, c).state, c);
  }

  lemma RemoveLater(s: State, c: ConnId)
    requires s.Known(c) && RemoveConn(s, c).Ok?
    ensures Later(s, RemoveConn(s, c).state)
  {
    OneLater(s, RemoveConn(s, c).state, c);
  }

  lemma DestroyLater(s: State, k: LoopId, c: ConnId)
    requires s.Known(c) && k < |s.loops| && DestroyNow(s, k, c).Ok?
    ensures Later(s, DestroyNow(s, k, c).state)
  {
    OneLater(s, DestroyNow(s, k, c).state, c);
  }

  lemma ShutdownNowLater(s: State, c: ConnId)
    requires s.Known(c)
    ensures Later(s, ShutdownNow(s, c))
  {
    SameLater(s, s);
    if !s.Chan(c).IsWriting() {
      OneLater(s, ShutdownNow(s, c), c);
    }
  }

  lemma SendLaterOn(s: State, c: ConnId, message: seq<Byte>, io: Io)
    requires s.Known(c) && PossibleSend(io, message) && SendNow(s, c, message, io).Ok?
    ensures Later(s, SendNow(s, c, message, io).state)
  {
    OneLater(s, SendNow(s, c, message, io).state, c);
  }

  lemma WriteLater(s: State, c: ConnId, n: int)
    requires s.Known(c) && n <= |s.conns[c].output| && WriteReady(s, c, n).Ok?
    ensures Later(s, WriteReady(s, c, n).state)
  {
    SameLater(s, s);
    if s.Chan(c).IsWriting() {
      if n <= 0 {
        ShutdownNowLater(s, c);
      } else if n < |s.conns[c].output| {
        OneLater(s, SetConn(s, c, Drain(s.conns[c], n)), c);
      } else {
        var t := Drained(s, c).state;
        OneLater(s, t, c);
        ShutdownNowLater(t, c);
        LaterTransitive(s, t, ShutdownNow(t, c));
      }
    }
  }

  lemma FinishClosingLater(s: State, k: LoopId, c: ConnId)
    requires s.Known(c) && k < |s.loops| && FinishClosing(s, k, c).Ok?
    ensures Later(s, FinishClosing(s, k, c).state)
  {
    OneLater(s, FinishClosing(s, k, c).state, c);
  }

  lemma UserLater(s: State, c: ConnId, call: UserCall, inLoop: bool)
    requires s.Known(c) && UserStep(s, c, call, inLoop).Ok?
    ensures Later(s, UserStep(s, c, call, inLoop).state)
  {
    var conn := s.conns[c];
    SameLater(s, s);
    match call
    case Send(message, io) =>
      SameLater(s, Enqueue(s, conn.loop, SendLater(c, message)));
      if conn.state == Connected && inLoop && PossibleSend(io, message) {
        SendLaterOn(s, c, message, io);
      }
    case Shutdown =>
      if conn.state == Connected {
        OneLater(s, CommitShutdown(s, c, inLoop), c);
      }
    case Force =>
      if conn.state == Connected || conn.state == Disconnecting {
        OneLater(s, CommitForce(s, c), c);
      }
  }

  /** A new connection takes a name that no other connection has. */
  lemma AcceptLater(s: State, fd: int)
    requires MapInv(s) && LoopsInv(s) && s.nextConnId <= INT_MAX && AcceptConn(s, fd).Ok?
    ensures Later(s, AcceptConn(s, fd).state)
  {
    var c, t := s.nextConnId, Registered(s, fd);
    AcceptIs(s, fd);
    forall d | d in s.conns && t.InMap(d) ensures s.InMap(d) {
      NamesInjective(s.config.server, s.config.ipPort, c, d);
    }
    assert Later(s, t);
    if NextHome(s) == 0 {
      EstablishingLater(t, c);
      LaterTransitive(s, t, Establishing(t, c).state);
    } else {
      SameLater(t, Enqueue(t, NextHome(s), Establish(c)));
      LaterTransitive(s, t, Enqueue(t, NextHome(s), Establish(c)));
    }
  }

  lemma CallbackLater(s: State, k: LoopId, n: int)
    requires Inv(s) && AtRest(s, k) && HasCallback(s, k) && WriteFits(s, k, n) && RunningCallback(s, k, n).Ok?
    ensures Later(s, RunningCallback(s, k, n).state)
  {
    PopCallbackKeepsInv(s, k);
    RunningCallbackIs(s, k, n);
    var t, c := PopCallback(s, k), s.loops[k].phase.current;
    SameLater(s, t);
    match s.loops[k].phase.callbacks[0]
    case CloseCb => CloseLater(t, c);
    case ErrorCb =>
    case ReadCb => if n == 0 { CloseLater(t, c); }
    case WriteCb => WriteLater(t, c, n);
    SameLater(t, t);
    LaterTransitive(s, t, RunningCallback(s, k, n).state);
  }

  lemma FunctorLater(s: State, k: LoopId, io: Io)
    requires Inv(s) && HasFunctor(s, k) && IoFits(s, k, io) && RunningFunctor(s, k, io).Ok?
    ensures Later(s, RunningFunctor(s, k, io).state)
  {
    FunctorFindsConn(s, k);
    RunningFunctorIs(s, k, io);
    var t := PopFunctor(s, k);
    SameLater(s, t);
    SameLater(t, t);
    match s.loops[k].batch[0]
    case Establish(c) => EstablishingLater(t, c);
    case SendLater(c, message) => SendLaterOn(t, c, message, io);
    case ShutdownLater(c) => ShutdownNowLater(t, c);
    case ForceClose(c) => if IsOpen(t.conns[c].state) { CloseLater(t, c); }
    case WriteComplete(_) =>
    case HighWater(_, _) =>
    case Remove(c) => RemoveLater(t, c);
    case DestroyConn(c) => DestroyLater(t, k, c);
    LaterTransitive(s, t, RunningFunctor(s, k, io).state);
  }

  /** Steps of a loop thread, and references taken or dropped, leave the connections alone. */
  lemma QuietStep(s: State, e: Event)
    requires e.Poll? || e.NextChannel? || e.EndHandling? || e.EndBatch? || e.Hold? || e.Release?
    requires Step(s, e).Ok?
    ensures Later(s, Step(s, e).state)
  {
    SameLater(s, Step(s, e).state);
  }

  lemma StepLater(s: State, e: Event)
    requires Inv(s) && Step(s, e).Ok?
    ensures Later(s, Step(s, e).state)
  {
    SameLater(s, s);
    var t := Step(s, e).state;
    if t != s {
      match e
      case Accept(fd) => AcceptLater(s, fd);
      case RunCallback(k, n) => CallbackLater(s, k, n);
      case RunFunctor(k, io) => FunctorLater(s, k, io);
      case FinishClose(k) => FinishClosingLater(s, k, s.loops[k].closing.value);
      case Call(thread, c, call) => UserLater(s, c, call, thread == Some(s.conns[c].loop));
      case _ => QuietStep(s, e);
    }
  }

  /** Over every run, from every state of every run: a connection's state only moves forward,
      its histories only grow, its loop and descriptor stay, and once it is out of the map it
      never returns. */
  lemma OnlyForward(config: Config, ioLoops: nat, before: seq<Event>, events: seq<Event>)
    requires Admissible(config, before + events)
    ensures After(config, ioLoops, before).Ok? && After(config, ioLoops, before + events).Ok?
    ensures Later(After(config, ioLoops, before).state, After(config, ioLoops, before + events).state)
  {
    assert forall i :: 0 <= i < |before| ==> before[i] == (before + events)[i];
    assert forall i :: 0 <= i < |events| ==> events[i] == (before + events)[|before| + i];
    NoRunAborts(config, ioLoops, before);
    var s := After(config, ioLoops, before).state;
    forall t, e | (Inv(t) && Later(s, t)) && Benign(e)
      ensures Step(t, e).Ok? && Inv(Step(t, e).state) && Later(s, Step(t, e).state)
    {
      StepKeepsInv(t, e);
      StepLater(t, e);
      LaterTransitive(s, t, Step(t, e).state);
    }
    SameLater(s, s);
    RunKeepsOn(Step, t => Inv(t) && Later(s, t), e => Benign(e), s, events);
    RunConcat(Step, Init(config, ioLoops), before, events);
  }
}
