/**
 The life of a connection across threads: net/TcpServer.cpp, net/TcpConnection.cpp and the
 functor queues of net/EventLoop.cpp.  Loop 0 is the server's base loop, the others are the
 I/O loops.  A connection is created on the base loop, established and closed on its own
 loop, erased from `connections_` on the base loop and destroyed on its own loop again.

 Loop threads and user threads interleave freely; a step is one callback, one functor, one
 half of handleClose, or one user call with its state check.
 */
module Lifecycle {
  import opened Endian
  import opened Machine
  import opened Names
  import opened Polling
  import opened Seqs

  type LoopId = nat
  type ConnId = nat

  datatype ConnState = Connecting | Connected | Disconnecting | Disconnected

  /** What the user's connection callback is told. */
  datatype Note = Up | Down

  /** Where the hand-over stands.  Steps record it; no step looks at it. */
  datatype Stage = Born | Open | Closing | Removing | Destroying | Gone

  datatype Functor =
    | Establish(c: ConnId)
    | SendLater(c: ConnId, message: seq<Byte>)   // binds a raw `this`
    | ShutdownLater(c: ConnId)                   // binds a raw `this`
    | ForceClose(c: ConnId)
    | WriteComplete(c: ConnId)
    | HighWater(c: ConnId, size: nat)
    | Remove(c: ConnId)
    | DestroyConn(c: ConnId)
  {
    /** Does the functor hold a shared_ptr to the connection? */
    predicate Owning() {
      !SendLater? && !ShutdownLater?
    }

    /** Does the loop thread pass the functor's assertInLoopThread?  User callbacks have none. */
    predicate RunsOn(l: LoopId, home: LoopId) {
      match this
      case WriteComplete(_) => true
      case HighWater(_, _) => true
      case Remove(_) => l == 0
      case _ => l == home
    }

    /** Functors that leave the hand-over where it is, or start it. */
    predicate Plain() {
      !Establish? && !Remove? && !DestroyConn?
    }
  }

  datatype HalfClose = HalfClose(state: ConnState, undrained: seq<Byte>)

  datatype Conn = Conn(
    loop: LoopId,
    fd: int,
    state: ConnState,
    output: seq<Byte>,              // outputBuffer_
    // history
    put: seq<Byte>,                 // everything appended to outputBuffer_
    drained: seq<Byte>,             // everything handleWrite gave to the socket
    sent: seq<Byte>,                // everything given to the socket
    trace: seq<Note>,               // connection callbacks
    closes: nat,                    // close callbacks
    halfCloses: seq<HalfClose>,     // shutdownWrite calls
    destroys: nat,                  // times connectDestroyed was queued
    stage: Stage
  )

  datatype Ready = Ready(c: ConnId, revents: Mask)

  datatype Phase =
    | AtPoll
    | Handling(active: seq<Ready>, current: ConnId, callbacks: seq<Callback>)
    | Calling

  datatype Loop = Loop(
    world: World<ConnId>,
    phase: Phase,
    closing: Option<ConnId>,        // between connectionCallback_ and closeCallback_ of handleClose
    pending: seq<Functor>,
    batch: seq<Functor>,            // not yet run
    ran: seq<Functor>               // run, but still held by the vector of doPendingFunctors
  ) {
    function Todo(): seq<Functor> {
      batch + pending
    }
  }

  datatype Config = Config(server: string, ipPort: string, writeComplete: bool, highWater: bool, highWaterMark: nat)

  datatype State = State(
    config: Config,
    loops: seq<Loop>,
    conns: map<ConnId, Conn>,             // every connection ever accepted
    connections: map<string, ConnId>,
    nextConnId: nat,
    nextLoop: nat,
    held: set<ConnId>                     // user code holds a shared_ptr
  ) {
    function Name(c: ConnId): string {
      ConnName(config.server, config.ipPort, c)
    }

    predicate InMap(c: ConnId) {
      Name(c) in connections && connections[Name(c)] == c
    }

    predicate Known(c: ConnId) {
      c in conns && conns[c].loop < |loops| && c in loops[conns[c].loop].world.chans
    }

    function Chan(c: ConnId): Chan
      requires Known(c)
    {
      loops[conns[c].loop].world.chans[c]
    }
  }

  function NewLoop(): Loop {
    Loop(Empty(), AtPoll, None, [], [], [])
  }

  /** A started server with `ioLoops` I/O loops, each about to poll. */
  function Init(config: Config, ioLoops: nat): State {
    State(config, seq(1 + ioLoops, _ => NewLoop()), map[], map[], 1, 0, {})
  }

  // ----- references

  predicate Owns(fs: seq<Functor>, c: ConnId) {
    exists i :: 0 <= i < |fs| && fs[i].c == c && fs[i].Owning()
  }

  predicate LoopOwns(l: Loop, c: ConnId) {
    || l.closing == Some(c)
    || (l.phase.Handling? && l.phase.callbacks != [] && l.phase.current == c)
    || Owns(l.ran, c) || Owns(l.batch, c) || Owns(l.pending, c)
  }

  /** Some shared_ptr to the connection exists. */
  predicate Alive(s: State, c: ConnId) {
    c in s.held || s.InMap(c) || exists k :: 0 <= k < |s.loops| && LoopOwns(s.loops[k], c)
  }

  // ----- pieces of steps

  function SetLoop(s: State, k: LoopId, l: Loop): State
    requires k < |s.loops|
  {
    s.(loops := s.loops[k := l])
  }

  function Enqueue(s: State, k: LoopId, f: Functor): State
    requires k < |s.loops|
  {
    SetLoop(s, k, s.loops[k].(pending := s.loops[k].pending + [f]))
  }

  function SetConn(s: State, c: ConnId, conn: Conn): State {
    s.(conns := s.conns[c := conn])
  }

  /** One connection and its own loop change together. */
  function Commit(s: State, c: ConnId, conn: Conn, l: Loop): State
    requires conn.loop < |s.loops|
  {
    s.(conns := s.conns[c := conn], loops := s.loops[conn.loop := l])
  }

  // ----- what each operation does to a connection's record

  function FirstRecord(k: LoopId, fd: int): Conn {
    Conn(k, fd, Connecting, [], [], [], [], [], 0, [], 0, Born)
  }

  function Established(conn: Conn): Conn {
    conn.(state := Connected, trace := conn.trace + [Up], stage := Open)
  }

  function ClosedConn(conn: Conn): Conn {
    conn.(state := Disconnected, trace := conn.trace + [Down], stage := Closing)
  }

  function Doomed(conn: Conn): Conn {
    conn.(destroys := conn.destroys + 1, stage := Destroying)
  }

  function HalfClosed(conn: Conn): Conn {
    conn.(halfCloses := conn.halfCloses + [HalfClose(conn.state, conn.output)])
  }

  /** connectDestroyed on a connection that was never closed still reports it down. */
  function DestroyedConn(conn: Conn): Conn {
    if conn.state == Connected then conn.(state := Disconnected, trace := conn.trace + [Down], stage := Gone)
    else conn.(stage := Gone)
  }

  // ----- the operations

  /** TcpConnection::connectEstablished. */
  function Establishing(s: State, c: ConnId): Outcome<State>
    requires s.Known(c)
  {
    var conn := s.conns[c];
    var l := s.loops[conn.loop];
    :- Check(conn.state == Connecting, "net/TcpConnection.cpp:387");
    var w :- SetMask(l.world, c, s.Chan(c).events | READ_EVENT);
    Ok(Commit(s, c, Established(conn), l.(world := w)))
  }

  /** TcpConnection::handleClose up to its connection callback. */
  function CloseConn(s: State, c: ConnId): Outcome<State>
    requires s.Known(c)
  {
    var conn := s.conns[c];
    var l := s.loops[conn.loop];
    :- Check(conn.state == Connected || conn.state == Disconnecting, "net/TcpConnection.cpp:295");
    var w :- SetMask(l.world, c, NONE_EVENT);
    Ok(Commit(s, c, ClosedConn(conn), l.(world := w, closing := Some(c))))
  }

  /** TcpServer::removeConnectionInLoop. */
  function RemoveConn(s: State, c: ConnId): Outcome<State>
    requires s.Known(c)
  {
    var conn := s.conns[c];
    var l := s.loops[conn.loop];
    :- Check(s.Name(c) in s.connections, "net/TcpServer.cpp:92");
    Ok(Commit(s, c, Doomed(conn), l.(pending := l.pending + [DestroyConn(c)]))
       .(connections := s.connections - {s.Name(c)}))
  }

  /** The close callback: TcpServer::removeConnection, from the connection's loop. */
  function FinishClosing(s: State, l: LoopId, c: ConnId): Outcome<State>
    requires s.Known(c) && l < |s.loops|
  {
    var conn := s.conns[c].(closes := s.conns[c].closes + 1);
    var s := SetLoop(s, l, s.loops[l].(closing := None));
    if l == 0 then RemoveConn(SetConn(s, c, conn), c)
    else Ok(Enqueue(SetConn(s, c, conn.(stage := Removing)), 0, Remove(c)))
  }

  /** TcpConnection::connectDestroyed.  Outside event handling the assertion of
      EventLoop::removeChannel holds whatever activeChannels_ still lists. */
  function DestroyNow(s: State, l: LoopId, c: ConnId): Outcome<State>
    requires s.Known(c) && l < |s.loops|
  {
    var conn := s.conns[c];
    var home := s.loops[conn.loop];
    var w :- if conn.state == Connected then SetMask(home.world, c, NONE_EVENT) else Ok(home.world);
    :- Check(!s.loops[l].phase.Handling?, "net/EventLoop.cpp:211-214");
    var w :- Detach(w, c);
    Ok(Commit(s, c, DestroyedConn(conn), home.(world := w)))
  }

  /** TcpConnection::shutdownInLoop. */
  function ShutdownNow(s: State, c: ConnId): State
    requires s.Known(c)
  {
    if s.Chan(c).IsWriting() then s else SetConn(s, c, HalfClosed(s.conns[c]))
  }

  /** What one write(2) did: bytes accepted or -1, whether the error is EPIPE or ECONNRESET,
      and the bytes that happen to follow the message in memory. */
  datatype Io = Io(n: int, fault: bool, beyond: seq<Byte>)

  predicate PossibleSend(io: Io, message: seq<Byte>) {
    -1 <= io.n <= |message| && (io.fault ==> io.n < 0) && |io.beyond| == if io.n < 0 then 0 else io.n
  }

  /** What sendInLoop appends to outputBuffer_: `remaining` stays at the full length, so the
      copy starts after the bytes written and runs past the end of the message. */
  function Appended(io: Io, message: seq<Byte>): seq<Byte>
    requires PossibleSend(io, message)
  {
    if io.n < 0 then message else message[io.n..] + io.beyond
  }

  /** TcpConnection::sendInLoop on the connection record; the flag asks for enableWriting. */
  function SendConn(conn: Conn, writing: bool, message: seq<Byte>, io: Io): (r: (Conn, bool))
    requires PossibleSend(io, message)
    ensures r.0.loop == conn.loop
  {
    if conn.state == Disconnected || writing || conn.output != [] then (conn, false)
    else
      var conn := conn.(sent := conn.sent + if io.n < 0 then [] else message[..io.n]);
      if io.fault || message == [] then (conn, false)
      else (conn.(output := conn.output + Appended(io, message), put := conn.put + Appended(io, message)), true)
  }

  /** The callbacks sendInLoop queues. */
  function SendNotices(config: Config, c: ConnId, conn: Conn, writing: bool, message: seq<Byte>, io: Io): seq<Functor> {
    if conn.state == Disconnected || writing || conn.output != [] then []
    else
      (if io.n == 0 && config.writeComplete then [WriteComplete(c)] else [])
      + (if !io.fault && message != [] && config.highWater
            && |message| >= config.highWaterMark && config.highWaterMark > 0
         then [HighWater(c, |message|)] else [])
  }

  function SendNow(s: State, c: ConnId, message: seq<Byte>, io: Io): Outcome<State>
    requires s.Known(c) && PossibleSend(io, message)
  {
    var l := s.loops[s.conns[c].loop];
    var notices := SendNotices(s.config, c, s.conns[c], s.Chan(c).IsWriting(), message, io);
    var (conn, enable) := SendConn(s.conns[c], s.Chan(c).IsWriting(), message, io);
    var w :- if enable then SetMask(l.world, c, s.Chan(c).events | WRITE_EVENT) else Ok(l.world);
    Ok(Commit(s, c, conn, l.(world := w, pending := l.pending + notices)))
  }

  /** The socket took the first n bytes of outputBuffer_. */
  function Drain(conn: Conn, n: nat): (r: Conn)
    requires n <= |conn.output|
    ensures r.loop == conn.loop
  {
    var gone := conn.output[..n];
    conn.(output := conn.output[n..], drained := conn.drained + gone, sent := conn.sent + gone)
  }

  /** handleWrite after the last byte: disableWriting and the write-complete callback. */
  function Drained(s: State, c: ConnId): (r: Outcome<State>)
    requires s.Known(c)
    ensures r.Ok? ==> r.state.Known(c)
  {
    DrainedTo(s, c, s.Chan(c).events & !WRITE_EVENT)
  }

  function DrainedTo(s: State, c: ConnId, events: Mask): (r: Outcome<State>)
    requires s.Known(c)
    ensures r.Ok? ==> r.state.Known(c)
  {
    var conn := s.conns[c];
    var l := s.loops[conn.loop];
    var w :- SetMask(l.world, c, events);
    Ok(Commit(s, c, Drain(conn, |conn.output|),
              l.(world := w, pending := l.pending + if s.config.writeComplete then [WriteComplete(c)] else [])))
  }

  /** TcpConnection::handleWrite, when write(2) returned n. */
  function WriteReady(s: State, c: ConnId, n: int): Outcome<State>
    requires s.Known(c) && n <= |s.conns[c].output|
  {
    if !s.Chan(c).IsWriting() then Ok(s)
    else if n <= 0 then Ok(if s.conns[c].state == Disconnecting then ShutdownNow(s, c) else s)
    else if n < |s.conns[c].output| then Ok(SetConn(s, c, Drain(s.conns[c], n)))
    else
      var s :- Drained(s, c);
      Ok(if s.conns[c].state == Disconnecting then ShutdownNow(s, c) else s)
  }

  // ----- user calls

  datatype UserCall = Send(message: seq<Byte>, io: Io) | Shutdown | Force

  /** A call on connection c by a thread: the state check and what follows are one step.
      `inLoop` says that the thread is the connection's loop thread. */
  function UserStep(s: State, c: ConnId, call: UserCall, inLoop: bool): Outcome<State>
    requires s.Known(c)
  {
    var conn := s.conns[c];
    match call
    case Send(message, io) =>
      if conn.state != Connected then Ok(s)
      else if !inLoop then Ok(Enqueue(s, conn.loop, SendLater(c, message)))
      else if PossibleSend(io, message) then SendNow(s, c, message, io) else Ok(s)
    case Shutdown => if conn.state == Connected then Ok(CommitShutdown(s, c, inLoop)) else Ok(s)
    case Force => if conn.state == Connected || conn.state == Disconnecting then Ok(CommitForce(s, c)) else Ok(s)
  }

  /** What `shutdown` does once its check has passed. */
  function CommitShutdown(s: State, c: ConnId, inLoop: bool): State
    requires s.Known(c)
  {
    var s := SetConn(s, c, s.conns[c].(state := Disconnecting));
    if inLoop then ShutdownNow(s, c) else Enqueue(s, s.conns[c].loop, ShutdownLater(c))
  }

  /** What `forceClose` does once its check has passed. */
  function CommitForce(s: State, c: ConnId): State
    requires s.Known(c)
  {
    Enqueue(SetConn(s, c, s.conns[c].(state := Disconnecting)), s.conns[c].loop, ForceClose(c))
  }

  // ----- steps

  datatype Event =
    | Accept(fd: int)
    | Poll(l: LoopId, ready: seq<Ready>)
    | NextChannel(l: LoopId)
    | RunCallback(l: LoopId, n: int)
    | EndHandling(l: LoopId)
    | RunFunctor(l: LoopId, io: Io)
    | EndBatch(l: LoopId)
    | FinishClose(l: LoopId)
    | Call(thread: Option<LoopId>, c: ConnId, call: UserCall)
    | Hold(c: ConnId)
    | Release(c: ConnId)

  /** The kernel reports no hang-up that makes one dispatch both close and read. */
  predicate Benign(e: Event) {
    e.Poll? ==> forall i :: 0 <= i < |e.ready| ==> !ClosesAndReads(e.ready[i].revents)
  }

  /** TcpServer::newConnection on the base loop. */
  function AcceptConn(s: State, fd: int): Outcome<State>
    requires |s.loops| == 1 || s.nextLoop + 1 < |s.loops|
  {
    var k := if |s.loops| == 1 then 0 else 1 + s.nextLoop;
    var c := s.nextConnId;
    var w := s.loops[k].world;
    var s := SetLoop(s, k, s.loops[k].(world := w.(chans := w.chans[c := NewChan(fd)])));
    var s := s.(conns := s.conns[c := FirstRecord(k, fd)], connections := s.connections[s.Name(c) := c],
                nextConnId := c + 1, nextLoop := Advance(s.nextLoop, |s.loops| - 1));
    if k == 0 then Establishing(s, c) else Ok(Enqueue(s, k, Establish(c)))
  }

  /** The kernel does not hand out a descriptor that an existing connection still has open. */
  predicate FdFree(s: State, fd: int) {
    forall c :: c in s.conns && Alive(s, c) ==> s.conns[c].fd != fd
  }

  /** epoll_wait reports distinct channels of its interest set. */
  predicate PossibleReady(w: World<ConnId>, ready: seq<Ready>) {
    && (forall i :: 0 <= i < |ready| ==> exists fd :: fd in w.poller.kernel && w.poller.kernel[fd].ptr == ready[i].c)
    && (forall i, j :: 0 <= i < j < |ready| ==> ready[i].c != ready[j].c)
  }

  /** Loop l has a callback to make. */
  predicate HasCallback(s: State, l: LoopId) {
    l < |s.loops| && s.loops[l].phase.Handling? && s.loops[l].phase.callbacks != []
  }

  /** write(2) returns no more than it was given. */
  predicate WriteFits(s: State, l: LoopId, n: int)
    requires HasCallback(s, l)
  {
    s.loops[l].phase.callbacks[0] == WriteCb && s.loops[l].phase.current in s.conns ==>
      n <= |s.conns[s.loops[l].phase.current].output|
  }

  function RunningCallback(s: State, l: LoopId, n: int): Outcome<State>
    requires HasCallback(s, l) && WriteFits(s, l, n)
  {
    var phase := s.loops[l].phase;
    var c := phase.current;
    :- Check(s.Known(c) && Alive(s, c), "callback of a destroyed connection");
    :- Check(phase.callbacks[0] == ErrorCb || s.conns[c].loop == l, "callback in the wrong thread");
    var s := SetLoop(s, l, s.loops[l].(phase := phase.(callbacks := phase.callbacks[1..])));
    match phase.callbacks[0]
    case CloseCb => CloseConn(s, c)
    case ErrorCb => Ok(s)
    case ReadCb => if n == 0 then CloseConn(s, c) else Ok(s)
    case WriteCb => WriteReady(s, c, n)
  }

  /** Loop l has a functor to run. */
  predicate HasFunctor(s: State, l: LoopId) {
    l < |s.loops| && s.loops[l].batch != []
  }

  predicate IoFits(s: State, l: LoopId, io: Io)
    requires HasFunctor(s, l)
  {
    s.loops[l].batch[0].SendLater? ==> PossibleSend(io, s.loops[l].batch[0].message)
  }

  function RunningFunctor(s: State, l: LoopId, io: Io): Outcome<State>
    requires HasFunctor(s, l) && IoFits(s, l, io)
  {
    var f := s.loops[l].batch[0];
    var c := f.c;
    :- Check(s.Known(c) && Alive(s, c), "functor on a destroyed connection");
    :- Check(f.RunsOn(l, s.conns[c].loop), "functor in the wrong thread");
    var s := PopFunctor(s, l);
    match f
    case Establish(_) => Establishing(s, c)
    case SendLater(_, message) => SendNow(s, c, message, io)
    case ShutdownLater(_) => Ok(ShutdownNow(s, c))
    case ForceClose(_) =>
      if s.conns[c].state == Connected || s.conns[c].state == Disconnecting then CloseConn(s, c) else Ok(s)
    case WriteComplete(_) => Ok(s)
    case HighWater(_, _) => Ok(s)
    case Remove(_) => RemoveConn(s, c)
    case DestroyConn(_) => DestroyNow(s, l, c)
  }

  function PopFunctor(s: State, l: LoopId): State
    requires l < |s.loops| && s.loops[l].batch != []
  {
    var loop := s.loops[l];
    SetLoop(s, l, loop.(batch := loop.batch[1..], ran := loop.ran + [loop.batch[0]]))
  }

  /** Loop thread l is between two of its own steps, not inside handleClose. */
  predicate AtRest(s: State, l: LoopId) {
    l < |s.loops| && s.loops[l].closing == None
  }

  /** An event that cannot happen in `s` leaves it unchanged. */
  function Step(s: State, e: Event): Outcome<State> {
    match e
    case Accept(fd) =>
      if && AtRest(s, 0) && s.loops[0].phase.Handling? && s.loops[0].phase.callbacks == []
         && s.nextConnId <= INT_MAX && (|s.loops| == 1 || s.nextLoop + 1 < |s.loops|) && FdFree(s, fd)
      then AcceptConn(s, fd) else Ok(s)
    case Poll(l, ready) =>
      if AtRest(s, l) && s.loops[l].phase == AtPoll && PossibleReady(s.loops[l].world, ready)
      then Ok(SetLoop(s, l, s.loops[l].(phase := Handling(ready, 0, [])))) else Ok(s)
    case NextChannel(l) =>
      if AtRest(s, l) && s.loops[l].phase.Handling? && s.loops[l].phase.callbacks == [] && s.loops[l].phase.active != [] then
        var active := s.loops[l].phase.active;
        :- Check(Alive(s, active[0].c), "dispatch through a destroyed channel");
        Ok(SetLoop(s, l, s.loops[l].(phase := Handling(active[1..], active[0].c, Callbacks(active[0].revents)))))
      else Ok(s)
    case RunCallback(l, n) =>
      if AtRest(s, l) && HasCallback(s, l) && WriteFits(s, l, n)
      then RunningCallback(s, l, n) else Ok(s)
    case EndHandling(l) =>
      if AtRest(s, l) && s.loops[l].phase.Handling? && s.loops[l].phase.callbacks == [] && s.loops[l].phase.active == []
      then Ok(SetLoop(s, l, s.loops[l].(phase := Calling, batch := s.loops[l].pending, pending := []))) else Ok(s)
    case RunFunctor(l, io) =>
      if AtRest(s, l) && s.loops[l].phase == Calling && HasFunctor(s, l) && IoFits(s, l, io)
      then RunningFunctor(s, l, io) else Ok(s)
    case EndBatch(l) =>
      if AtRest(s, l) && s.loops[l].phase == Calling && s.loops[l].batch == []
      then Ok(SetLoop(s, l, s.loops[l].(phase := AtPoll, ran := []))) else Ok(s)
    case FinishClose(l) =>
      if l < |s.loops| && s.loops[l].closing.Some? then
        var c := s.loops[l].closing.value;
        :- Check(s.Known(c) && Alive(s, c), "close callback of a destroyed connection");
        FinishClosing(s, l, c)
      else Ok(s)
    case Call(thread, c, call) =>
      if s.Known(c) && Alive(s, c) && (thread.Some? ==> thread.value < |s.loops| && s.loops[thread.value].phase != AtPoll)
      then UserStep(s, c, call, thread == Some(s.conns[c].loop)) else Ok(s)
    case Hold(c) => if c in s.conns && Alive(s, c) then Ok(s.(held := s.held + {c})) else Ok(s)
    case Release(c) => Ok(s.(held := s.held - {c}))
  }
}
