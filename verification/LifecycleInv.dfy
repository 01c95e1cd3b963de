/** The invariant of the connection life cycle. */
module LifecycleInv {
  import opened Lifecycle
  import opened Names
  import opened Polling
  import opened Seqs

  // ----- the functors of one connection

  /** The functors of connection c, in queue order. */
  function Mine(fs: seq<Functor>, c: ConnId): seq<Functor> {
    if fs == [] then [] else (if fs[0].c == c then [fs[0]] else []) + Mine(fs[1..], c)
  }

  predicate AllPlain(fs: seq<Functor>) {
    forall i :: 0 <= i < |fs| ==> fs[i].Plain()
  }

  /** What loop k holds of connection c, whose own loop is `home`. */
  predicate Shape(stage: Stage, c: ConnId, home: LoopId, k: LoopId, mine: seq<Functor>) {
    if k == home then
      match stage
      case Born => mine == [Establish(c)]
      case Destroying => mine != [] && mine[|mine| - 1] == DestroyConn(c) && AllPlain(mine[..|mine| - 1])
      case Gone => mine == []
      case _ => AllPlain(mine)
    else if k == 0 && stage == Removing then mine == [Remove(c)]
    else mine == []
  }

  ghost predicate MineOk(s: State, k: LoopId, c: ConnId)
    requires k < |s.loops|
  {
    var mine := Mine(s.loops[k].Todo(), c);
    if c in s.conns then Shape(s.conns[c].stage, c, s.conns[c].loop, k, mine) else mine == []
  }

  ghost predicate QueueInv(s: State) {
    forall k, c :: 0 <= k < |s.loops| ==> MineOk(s, k, c)
  }

  // ----- connections_

  predicate Mapped(stage: Stage) {
    stage != Destroying && stage != Gone
  }

  ghost predicate MapInv(s: State) {
    && |s.config.ipPort| <= 51
    && 1 <= s.nextConnId <= INT_MAX + 1
    && (forall c :: c in s.conns ==> 1 <= c < s.nextConnId && (s.InMap(c) <==> Mapped(s.conns[c].stage)))
    && (forall n :: n in s.connections ==> s.connections[n] in s.conns && n == s.Name(s.connections[n]))
  }

  // ----- channels

  predicate ChanOk(conn: Conn, ch: Chan) {
    match conn.stage
    case Born => ch == NewChan(conn.fd)
    case Open => ch == Chan(conn.fd, if conn.output == [] then READ_EVENT else READ_EVENT | WRITE_EVENT, KAdded, true)
    case Gone => ch == NewChan(conn.fd)
    case _ => ch == Chan(conn.fd, NONE_EVENT, KDeleted, true)
  }

  ghost predicate LoopWorldInv(s: State, k: LoopId)
    requires k < |s.loops|
  {
    && Agrees(s.loops[k].world)
    && (forall c :: c in s.loops[k].world.chans <==> c in s.conns && s.conns[c].loop == k)
  }

  ghost predicate WorldsInv(s: State) {
    && (forall k :: 0 <= k < |s.loops| ==> LoopWorldInv(s, k))
    && (forall c :: c in s.conns ==> s.Known(c) && ChanOk(s.conns[c], s.Chan(c)))
  }

  predicate SameFd(a: Conn, b: Conn) {
    a.stage != Gone && b.stage != Gone && a.fd == b.fd
  }

  ghost predicate FdInv(s: State) {
    forall c, d :: c in s.conns && d in s.conns && SameFd(s.conns[c], s.conns[d]) ==> c == d
  }

  // ----- loops

  predicate Closer(cb: Callback) {
    cb == CloseCb || cb == ReadCb
  }

  predicate CanClose(cbs: seq<Callback>) {
    exists i :: 0 <= i < |cbs| && Closer(cbs[i])
  }

  predicate Tame(cbs: seq<Callback>) {
    forall i, j :: 0 <= i < j < |cbs| ==> !(Closer(cbs[i]) && Closer(cbs[j]))
  }

  ghost predicate OnLoop(s: State, c: ConnId, k: LoopId) {
    c in s.conns && s.conns[c].loop == k
  }

  ghost predicate PhaseInv(s: State, k: LoopId, phase: Phase) {
    phase.Handling? ==>
      && (forall i :: 0 <= i < |phase.active| ==>
            && OnLoop(s, phase.active[i].c, k) && s.conns[phase.active[i].c].stage == Open
            && !ClosesAndReads(phase.active[i].revents))
      && (forall i, j :: 0 <= i < j < |phase.active| ==> phase.active[i].c != phase.active[j].c)
      && Tame(phase.callbacks)
      && (phase.callbacks != [] ==> OnLoop(s, phase.current, k))
      && (CanClose(phase.callbacks) ==>
            && s.conns[phase.current].stage == Open
            && forall i :: 0 <= i < |phase.active| ==> phase.active[i].c != phase.current)
  }

  /** Outside doPendingFunctors there is no swapped vector. */
  predicate Collected(l: Loop) {
    l.phase != Calling ==> l.batch == [] && l.ran == []
  }

  ghost predicate LoopInv(s: State, k: LoopId)
    requires k < |s.loops|
  {
    && Collected(s.loops[k])
    && (s.loops[k].closing.Some? ==>
          OnLoop(s, s.loops[k].closing.value, k) && s.conns[s.loops[k].closing.value].stage == Closing)
    && PhaseInv(s, k, s.loops[k].phase)
  }

  ghost predicate LoopsInv(s: State) {
    && |s.loops| > 0
    && (|s.loops| == 1 || s.nextLoop + 1 < |s.loops|)
    && (forall k :: 0 <= k < |s.loops| ==> LoopInv(s, k))
    && (forall c :: c in s.conns && s.conns[c].stage == Closing ==>
          s.conns[c].loop < |s.loops| && s.loops[s.conns[c].loop].closing == Some(c))
  }

  // ----- connections

  ghost predicate ConnInv(conn: Conn) {
    && conn.put == conn.drained + conn.output
    && (forall i :: 0 <= i < |conn.halfCloses| ==>
          conn.halfCloses[i].state == Disconnected || conn.halfCloses[i].undrained == [])
    && conn.destroys == (if conn.stage == Destroying || conn.stage == Gone then 1 else 0)
    && match conn.stage
       case Born => conn.state == Connecting && conn.trace == [] && conn.closes == 0 && conn.output == []
       case Open => (conn.state == Connected || conn.state == Disconnecting) && conn.trace == [Up] && conn.closes == 0
       case Closing => conn.state == Disconnected && conn.trace == [Up, Down] && conn.closes == 0
       case Removing => conn.loop != 0 && conn.state == Disconnected && conn.trace == [Up, Down] && conn.closes == 1
       case _ => conn.state == Disconnected && conn.trace == [Up, Down] && conn.closes == 1
  }

  ghost predicate ConnsInv(s: State) {
    forall c :: c in s.conns ==> ConnInv(s.conns[c])
  }

  ghost predicate Inv(s: State) {
    QueueInv(s) && MapInv(s) && WorldsInv(s) && FdInv(s) && LoopsInv(s) && ConnsInv(s)
  }
}
