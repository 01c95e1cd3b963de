/** Every step of the connection life cycle keeps the invariant. */
module LifecycleProof {
  import opened Endian
  import opened Lifecycle
  import opened LifecycleInv
  import opened Machine
  import opened Names
  import opened Polling
  import opened Seqs

  lemma {:induction false} MineConcat(fs: seq<Functor>, gs: seq<Functor>, c: ConnId)
    ensures Mine(fs + gs, c) == Mine(fs, c) + Mine(gs, c)
  {
    if fs == [] {
      assert fs + gs == gs;
    } else {
      var head := if fs[0].c == c then [fs[0]] else [];
      assert (fs + gs)[1..] == fs[1..] + gs;
      MineConcat(fs[1..], gs, c);
      assert Mine(fs + gs, c) == head + Mine(fs[1..] + gs, c);
      Assoc(head, Mine(fs[1..], c), Mine(gs, c));
    }
  }

  lemma {:induction false} MineAll(fs: seq<Functor>, c: ConnId, d: ConnId)
    requires forall i :: 0 <= i < |fs| ==> fs[i].c == c
    ensures Mine(fs, d) == if c == d then fs else []
  {
    if fs != [] {
      MineAll(fs[1..], c, d);
      assert fs == [fs[0]] + fs[1..];
    }
  }

  lemma InitInv(config: Config, ioLoops: nat)
    requires |config.ipPort| <= 51
    ensures Inv(Init(config, ioLoops))
  {
  }

  // ----- one connection changes

  /** Everything but connection c and the loops is as before, and c keeps its loop and fd. */
  ghost predicate Changes(s: State, t: State, c: ConnId) {
    && c in s.conns && c in t.conns && t.conns == s.conns[c := t.conns[c]]
    && t.conns[c].loop == s.conns[c].loop && t.conns[c].fd == s.conns[c].fd
    && |t.loops| == |s.loops| && t.config == s.config
    && t.nextConnId == s.nextConnId && t.nextLoop == s.nextLoop
  }

  /** World w of connection c's loop differs from the one in s at most in c's channel. */
  ghost predicate WorldOk(s: State, c: ConnId, conn: Conn, w: World<ConnId>) {
    && conn.loop < |s.loops|
    && c in w.chans && ChanOk(conn, w.chans[c])
    && Agrees(w) && w.chans == s.loops[conn.loop].world.chans[c := w.chans[c]]
  }

  lemma WorldsChange(s: State, t: State, c: ConnId)
    requires WorldsInv(s) && Changes(s, t, c)
    requires t.conns[c].loop < |t.loops| && WorldOk(s, c, t.conns[c], t.loops[t.conns[c].loop].world)
    requires forall k :: 0 <= k < |s.loops| && k != s.conns[c].loop ==> t.loops[k].world == s.loops[k].world
    ensures WorldsInv(t)
  {
    forall k | 0 <= k < |t.loops| ensures LoopWorldInv(t, k) {
      assert LoopWorldInv(s, k);
    }
    forall d | d in t.conns ensures t.Known(d) && ChanOk(t.conns[d], t.Chan(d)) {
      assert s.Known(d) && ChanOk(s.conns[d], s.Chan(d));
    }
  }

  lemma ConnsChange(s: State, t: State, c: ConnId)
    requires FdInv(s) && Changes(s, t, c) && ConnInv(t.conns[c])
    requires forall d :: d in s.conns && d != c ==> ConnInv(s.conns[d])
    requires s.conns[c].stage == Gone ==> t.conns[c].stage == Gone
    ensures FdInv(t) && ConnsInv(t)
  {
    forall d, e | d in t.conns && e in t.conns && SameFd(t.conns[d], t.conns[e]) ensures d == e {
      assert SameFd(s.conns[d], s.conns[e]);
    }
  }

  lemma MapChange(s: State, t: State, c: ConnId)
    requires MapInv(s) && Changes(s, t, c)
    requires t.connections == s.connections && Mapped(t.conns[c].stage) == Mapped(s.conns[c].stage)
    ensures MapInv(t)
  {
    forall d | d in t.conns ensures t.InMap(d) <==> Mapped(t.conns[d].stage) {
      assert s.InMap(d) <==> Mapped(s.conns[d].stage);
    }
  }

  /** `popped` leaves the front of a queue and `pushed` joins its end, all of connection c. */
  ghost predicate Edited(l: Loop, m: Loop, popped: seq<Functor>, pushed: seq<Functor>, c: ConnId) {
    && l.Todo() + pushed == popped + m.Todo()
    && (forall i :: 0 <= i < |popped| ==> popped[i].c == c)
    && (forall i :: 0 <= i < |pushed| ==> pushed[i].c == c)
  }

  lemma EditedMine(l: Loop, m: Loop, popped: seq<Functor>, pushed: seq<Functor>, c: ConnId, d: ConnId)
    requires Edited(l, m, popped, pushed, c)
    ensures d != c ==> Mine(m.Todo(), d) == Mine(l.Todo(), d)
    ensures Mine(l.Todo(), c) + pushed == popped + Mine(m.Todo(), c)
  {
    MineConcat(l.Todo(), pushed, d);
    MineConcat(popped, m.Todo(), d);
    MineConcat(l.Todo(), pushed, c);
    MineConcat(popped, m.Todo(), c);
    MineAll(popped, c, d);
    MineAll(pushed, c, d);
    MineAll(popped, c, c);
    MineAll(pushed, c, c);
    if d != c {
      assert Mine(l.Todo(), d) + [] == Mine(l.Todo(), d);
      assert [] + Mine(m.Todo(), d) == Mine(m.Todo(), d);
    }
  }

  ghost predicate OthersQueued(s: State, c: ConnId) {
    forall k, d :: 0 <= k < |s.loops| && d != c ==> MineOk(s, k, d)
  }

  /** The queues of every other connection are as before. */
  lemma QueueChange(s: State, t: State, c: ConnId)
    requires OthersQueued(s, c) && Changes(s, t, c)
    requires forall k, d :: 0 <= k < |s.loops| && d != c ==> Mine(t.loops[k].Todo(), d) == Mine(s.loops[k].Todo(), d)
    requires forall k :: 0 <= k < |t.loops| ==> MineOk(t, k, c)
    ensures QueueInv(t)
  {
    forall k, d | 0 <= k < |t.loops| ensures MineOk(t, k, d) {
      if d != c {
        assert MineOk(s, k, d);
      }
    }
  }

  /** Queue edits on one loop. */
  lemma QueueEdit(s: State, t: State, c: ConnId, k: LoopId, popped: seq<Functor>, pushed: seq<Functor>, mine: seq<Functor>)
    requires OthersQueued(s, c) && Changes(s, t, c) && k < |s.loops|
    requires Edited(s.loops[k], t.loops[k], popped, pushed, c)
    requires forall j :: 0 <= j < |s.loops| && j != k ==> t.loops[j].Todo() == s.loops[j].Todo()
    requires forall j :: 0 <= j < |s.loops| && j != k ==>
               Shape(t.conns[c].stage, c, t.conns[c].loop, j, Mine(s.loops[j].Todo(), c))
    requires Mine(s.loops[k].Todo(), c) + pushed == popped + mine && Shape(t.conns[c].stage, c, t.conns[c].loop, k, mine)
    ensures QueueInv(t)
  {
    forall j, d | 0 <= j < |s.loops| && d != c ensures Mine(t.loops[j].Todo(), d) == Mine(s.loops[j].Todo(), d) {
      EditedMine(s.loops[k], t.loops[k], popped, pushed, c, d);
    }
    EditedMine(s.loops[k], t.loops[k], popped, pushed, c, c);
    assert Mine(t.loops[k].Todo(), c) == (popped + mine)[|popped|..] == mine;
    QueueChange(s, t, c);
  }

  /** The phase invariant looks only at loops and stages. */
  lemma SamePhase(s: State, t: State, k: LoopId, phase: Phase)
    requires PhaseInv(s, k, phase)
    requires forall c :: c in s.conns ==>
               c in t.conns && t.conns[c].loop == s.conns[c].loop && t.conns[c].stage == s.conns[c].stage
    ensures PhaseInv(t, k, phase)
  {
  }

  // ----- steps that leave the hand-over where it is

  /** One connection, its channel and the tail of its loop's queue. */
  function Touched(s: State, c: ConnId, conn: Conn, w: World<ConnId>, extra: seq<Functor>): State
    requires conn.loop < |s.loops|
  {
    var l := s.loops[conn.loop];
    Commit(s, c, conn, l.(world := w, pending := l.pending + extra))
  }

  /** The connection stays where it is in the hand-over; only plain functors are added. */
  predicate InPlace(s: State, c: ConnId, conn: Conn, extra: seq<Functor>) {
    && c in s.conns && conn.loop < |s.loops|
    && conn.loop == s.conns[c].loop && conn.fd == s.conns[c].fd && conn.stage == s.conns[c].stage
    && AllPlain(extra) && (forall i :: 0 <= i < |extra| ==> extra[i].c == c)
    && (extra == [] || conn.stage == Open || conn.stage == Closing || conn.stage == Removing)
  }

  lemma InPlaceQueue(s: State, c: ConnId, conn: Conn, w: World<ConnId>, extra: seq<Functor>)
    requires QueueInv(s) && InPlace(s, c, conn, extra)
    ensures QueueInv(Touched(s, c, conn, w, extra))
  {
    var k := conn.loop;
    var t := Touched(s, c, conn, w, extra);
    Assoc(s.loops[k].batch, s.loops[k].pending, extra);
    forall j | 0 <= j < |s.loops| && j != k ensures Shape(conn.stage, c, k, j, Mine(s.loops[j].Todo(), c)) {
      assert MineOk(s, j, c);
    }
    var mine := Mine(s.loops[k].Todo(), c) + extra;
    assert MineOk(s, k, c) && [] + mine == mine;
    QueueEdit(s, t, c, k, [], extra, mine);
  }

  lemma InPlaceLoops(s: State, c: ConnId, conn: Conn, w: World<ConnId>, extra: seq<Functor>)
    requires LoopsInv(s) && InPlace(s, c, conn, extra)
    ensures LoopsInv(Touched(s, c, conn, w, extra))
  {
    var t := Touched(s, c, conn, w, extra);
    forall k | 0 <= k < |t.loops| ensures LoopInv(t, k) {
      assert LoopInv(s, k);
      SamePhase(s, t, k, s.loops[k].phase);
    }
  }

  lemma InPlaceKeepsInv(s: State, c: ConnId, conn: Conn, w: World<ConnId>, extra: seq<Functor>)
    requires Inv(s) && InPlace(s, c, conn, extra) && WorldOk(s, c, conn, w) && ConnInv(conn)
    ensures Inv(Touched(s, c, conn, w, extra))
  {
    InPlaceQueue(s, c, conn, w, extra);
    InPlaceLoops(s, c, conn, w, extra);
    InPlaceWorlds(s, c, conn, w, extra);
    InPlaceRecords(s, c, conn, w, extra);
  }

  lemma InPlaceWorlds(s: State, c: ConnId, conn: Conn, w: World<ConnId>, extra: seq<Functor>)
    requires WorldsInv(s) && InPlace(s, c, conn, extra) && WorldOk(s, c, conn, w)
    ensures WorldsInv(Touched(s, c, conn, w, extra))
  {
    WorldsChange(s, Touched(s, c, conn, w, extra), c);
  }

  lemma InPlaceRecords(s: State, c: ConnId, conn: Conn, w: World<ConnId>, extra: seq<Functor>)
    requires FdInv(s) && ConnsInv(s) && MapInv(s) && InPlace(s, c, conn, extra) && ConnInv(conn)
    ensures var t := Touched(s, c, conn, w, extra); FdInv(t) && ConnsInv(t) && MapInv(t)
  {
    var t := Touched(s, c, conn, w, extra);
    ConnsChange(s, t, c);
    MapChange(s, t, c);
  }

  // ----- masks

  lemma MaskBits()
    ensures READ_EVENT & WRITE_EVENT == 0 && (READ_EVENT | WRITE_EVENT) & WRITE_EVENT != 0
    ensures (READ_EVENT | WRITE_EVENT) & !WRITE_EVENT == READ_EVENT && NONE_EVENT | READ_EVENT == READ_EVENT
    ensures NONE_EVENT & WRITE_EVENT == 0 && READ_EVENT != NONE_EVENT && READ_EVENT | WRITE_EVENT != NONE_EVENT
  {
  }

  /** Writing interest is on exactly while an open connection has output to drain. */
  lemma WritingIffUndrained(s: State, c: ConnId)
    requires WorldsInv(s) && c in s.conns
    ensures s.Known(c) && (s.Chan(c).IsWriting() <==> s.conns[c].stage == Open && s.conns[c].output != [])
  {
    MaskBits();
  }

  /** An open connection's mask can be changed, and the world stays in order. */
  lemma OpenMask(s: State, c: ConnId, conn: Conn, events: Mask)
    requires WorldsInv(s) && c in s.conns && s.conns[c].stage == Open && conn.stage == Open
    requires conn.loop == s.conns[c].loop && conn.fd == s.conns[c].fd
    requires events == if conn.output == [] then READ_EVENT else READ_EVENT | WRITE_EVENT
    ensures s.Known(c)
    ensures var w := SetMask(s.loops[conn.loop].world, c, events);
            w.Ok? && WorldOk(s, c, conn, w.state)
  {
    assert s.Known(c) && ChanOk(s.conns[c], s.Chan(c)) && LoopWorldInv(s, conn.loop);
    MaskBits();
    var w := s.loops[conn.loop].world;
    SetMaskEffect(w, c, events);
    SetMaskKeepsAgreement(w, c, events);
  }

  lemma SameWorld(s: State, c: ConnId, conn: Conn)
    requires WorldsInv(s) && c in s.conns && conn.loop == s.conns[c].loop
    requires s.Known(c) && ChanOk(conn, s.Chan(c))
    ensures WorldOk(s, c, conn, s.loops[conn.loop].world)
  {
    assert LoopWorldInv(s, conn.loop);
  }

  // ----- plain operations

  /** What the invariant says about one connection. */
  lemma OneConn(s: State, c: ConnId)
    requires Inv(s) && c in s.conns
    ensures s.Known(c) && ChanOk(s.conns[c], s.Chan(c)) && ConnInv(s.conns[c])
    ensures s.Chan(c).IsWriting() <==> s.conns[c].stage == Open && s.conns[c].output != []
  {
    WritingIffUndrained(s, c);
  }

  /** Replacing a connection's record, its channel staying as it is. */
  lemma RecordKeepsInv(s: State, c: ConnId, conn: Conn)
    requires Inv(s) && InPlace(s, c, conn, []) && ConnInv(conn) && s.Known(c) && ChanOk(conn, s.Chan(c))
    ensures Inv(SetConn(s, c, conn))
  {
    SameWorld(s, c, conn);
    InPlaceKeepsInv(s, c, conn, s.loops[conn.loop].world, []);
    TouchedNothing(s, c, conn);
  }

  lemma TouchedNothing(s: State, c: ConnId, conn: Conn)
    requires conn.loop < |s.loops|
    ensures Touched(s, c, conn, s.loops[conn.loop].world, []) == SetConn(s, c, conn)
  {
    var l := s.loops[conn.loop];
    assert l.pending + [] == l.pending;
    assert s.loops[conn.loop := l] == s.loops;
  }

  lemma HalfCloseInv(conn: Conn)
    requires ConnInv(conn) && (conn.stage == Open ==> conn.output == [])
    ensures ConnInv(HalfClosed(conn))
  {
  }

  lemma ShutdownNowKeepsInv(s: State, c: ConnId)
    requires Inv(s) && c in s.conns
    ensures s.Known(c) && Inv(ShutdownNow(s, c))
  {
    OneConn(s, c);
    var conn := s.conns[c];
    if !s.Chan(c).IsWriting() {
      HalfCloseInv(conn);
      RecordKeepsInv(s, c, HalfClosed(conn));
    }
  }

  /** A plain functor queued, perhaps with a change of state, on an open connection. */
  lemma QueueKeepsInv(s: State, c: ConnId, state: ConnState, f: Functor)
    requires Inv(s) && c in s.conns && s.conns[c].stage == Open && f.Plain() && f.c == c
    requires state == Connected || state == Disconnecting
    ensures s.Known(c) && Inv(Enqueue(SetConn(s, c, s.conns[c].(state := state)), s.conns[c].loop, f))
  {
    OneConn(s, c);
    var conn := s.conns[c].(state := state);
    var w := s.loops[conn.loop].world;
    assert InPlace(s, c, conn, [f]) && ConnInv(conn);
    assert WorldOk(s, c, conn, w) by { SameWorld(s, c, conn); }
    InPlaceKeepsInv(s, c, conn, w, [f]);
    TouchedQueue(s, c, conn, f);
  }

  lemma TouchedQueue(s: State, c: ConnId, conn: Conn, f: Functor)
    requires conn.loop < |s.loops|
    ensures Touched(s, c, conn, s.loops[conn.loop].world, [f]) == Enqueue(SetConn(s, c, conn), conn.loop, f)
  {
  }

  lemma SendConnInv(conn: Conn, message: seq<Byte>, io: Io)
    requires ConnInv(conn) && conn.stage != Born && PossibleSend(io, message)
    ensures var (conn', enable) := SendConn(conn, conn.stage == Open && conn.output != [], message, io);
            && ConnInv(conn')
            && conn'.loop == conn.loop && conn'.fd == conn.fd && conn'.stage == conn.stage
            && (enable ==> conn.stage == Open && conn'.output != [])
            && (!enable ==> conn'.output == conn.output)
  {
    Assoc(conn.drained, conn.output, Appended(io, message));
  }

  function Notices(s: State, c: ConnId, message: seq<Byte>, io: Io): seq<Functor>
    requires s.Known(c)
  {
    SendNotices(s.config, c, s.conns[c], s.Chan(c).IsWriting(), message, io)
  }

  lemma NoticesPlain(s: State, c: ConnId, message: seq<Byte>, io: Io)
    requires s.Known(c)
    ensures var fs := Notices(s, c, message, io);
            && AllPlain(fs) && (forall i :: 0 <= i < |fs| ==> fs[i].c == c)
            && (s.conns[c].state == Disconnected ==> fs == [])
  {
  }

  lemma SendNowIs(s: State, c: ConnId, message: seq<Byte>, io: Io, w: World<ConnId>)
    requires s.Known(c) && PossibleSend(io, message)
    requires var (conn, enable) := SendConn(s.conns[c], s.Chan(c).IsWriting(), message, io);
             if enable then SetMask(s.loops[conn.loop].world, c, s.Chan(c).events | WRITE_EVENT) == Ok(w)
             else w == s.loops[conn.loop].world
    ensures SendNow(s, c, message, io) ==
            Ok(Touched(s, c, SendConn(s.conns[c], s.Chan(c).IsWriting(), message, io).0, w, Notices(s, c, message, io)))
  {
  }

  /** The new record and channel of a connection after sendInLoop are in order. */
  lemma SendFits(s: State, c: ConnId, message: seq<Byte>, io: Io) returns (w: World<ConnId>)
    requires Inv(s) && c in s.conns && s.conns[c].stage != Born && PossibleSend(io, message)
    ensures s.Known(c)
    ensures var (conn, enable) := SendConn(s.conns[c], s.Chan(c).IsWriting(), message, io);
            && InPlace(s, c, conn, Notices(s, c, message, io)) && ConnInv(conn) && WorldOk(s, c, conn, w)
            && if enable then SetMask(s.loops[conn.loop].world, c, s.Chan(c).events | WRITE_EVENT) == Ok(w)
               else w == s.loops[conn.loop].world
  {
    OneConn(s, c);
    SendConnInv(s.conns[c], message, io);
    NoticesPlain(s, c, message, io);
    MaskBits();
    var (conn, enable) := SendConn(s.conns[c], s.Chan(c).IsWriting(), message, io);
    w := s.loops[conn.loop].world;
    if enable {
      OpenMask(s, c, conn, READ_EVENT | WRITE_EVENT);
      w := SetMask(w, c, READ_EVENT | WRITE_EVENT).state;
    } else {
      SameWorld(s, c, conn);
    }
  }

  lemma SendNowKeepsInv(s: State, c: ConnId, message: seq<Byte>, io: Io)
    requires Inv(s) && c in s.conns && s.conns[c].stage != Born && PossibleSend(io, message)
    ensures s.Known(c) && SendNow(s, c, message, io).Ok? && Inv(SendNow(s, c, message, io).state)
  {
    var w := SendFits(s, c, message, io);
    SendNowIs(s, c, message, io, w);
    InPlaceKeepsInv(s, c, SendConn(s.conns[c], s.Chan(c).IsWriting(), message, io).0, w, Notices(s, c, message, io));
  }

  lemma DrainInv(conn: Conn, n: nat)
    requires ConnInv(conn) && conn.stage == Open && n <= |conn.output|
    ensures ConnInv(Drain(conn, n))
  {
    Assoc(conn.drained, conn.output[..n], conn.output[n..]);
    assert conn.output == conn.output[..n] + conn.output[n..];
  }

  /** The drained record and its channel are in order. */
  lemma DrainedFits(s: State, c: ConnId) returns (w: World<ConnId>)
    requires WorldsInv(s) && ConnsInv(s) && c in s.conns && s.conns[c].stage == Open && s.conns[c].output != []
    ensures s.Known(c) && SetMask(s.loops[s.conns[c].loop].world, c, s.Chan(c).events & !WRITE_EVENT) == Ok(w)
    ensures var conn := Drain(s.conns[c], |s.conns[c].output|); WorldOk(s, c, conn, w) && ConnInv(conn)
  {
    assert s.Known(c) && ChanOk(s.conns[c], s.Chan(c)) && ConnInv(s.conns[c]);
    MaskBits();
    var conn := s.conns[c];
    DrainInv(conn, |conn.output|);
    OpenMask(s, c, Drain(conn, |conn.output|), READ_EVENT);
    w := SetMask(s.loops[conn.loop].world, c, READ_EVENT).state;
  }

  lemma DrainedKeepsInv(s: State, c: ConnId)
    requires Inv(s) && c in s.conns && s.conns[c].stage == Open && s.conns[c].output != []
    ensures s.Known(c) && Drained(s, c).Ok? && Inv(Drained(s, c).state)
  {
    var w := DrainedFits(s, c);
    DrainedIs(s, c, w);
    var notice := if s.config.writeComplete then [WriteComplete(c)] else [];
    InPlaceKeepsInv(s, c, Drain(s.conns[c], |s.conns[c].output|), w, notice);
  }

  /** The last write of the output, and the half-close it may release. */
  lemma LastWriteKeepsInv(s: State, c: ConnId)
    requires Inv(s) && c in s.conns && s.conns[c].stage == Open && s.conns[c].output != []
    ensures s.Known(c) && WriteReady(s, c, |s.conns[c].output|).Ok? && Inv(WriteReady(s, c, |s.conns[c].output|).state)
  {
    OneConn(s, c);
    DrainedKeepsInv(s, c);
    ShutdownNowKeepsInv(Drained(s, c).state, c);
  }

  lemma DrainedIs(s: State, c: ConnId, w: World<ConnId>)
    requires s.Known(c) && SetMask(s.loops[s.conns[c].loop].world, c, s.Chan(c).events & !WRITE_EVENT) == Ok(w)
    ensures Drained(s, c) ==
            Ok(Touched(s, c, Drain(s.conns[c], |s.conns[c].output|), w,
                       if s.config.writeComplete then [WriteComplete(c)] else []))
  {
  }

  lemma ShortWriteKeepsInv(s: State, c: ConnId, n: nat)
    requires Inv(s) && c in s.conns && s.conns[c].stage == Open && n < |s.conns[c].output|
    ensures Inv(SetConn(s, c, Drain(s.conns[c], n)))
  {
    OneConn(s, c);
    DrainInv(s.conns[c], n);
    RecordKeepsInv(s, c, Drain(s.conns[c], n));
  }

  lemma WriteReadyKeepsInv(s: State, c: ConnId, n: int)
    requires Inv(s) && c in s.conns && n <= |s.conns[c].output|
    ensures s.Known(c) && WriteReady(s, c, n).Ok? && Inv(WriteReady(s, c, n).state)
  {
    OneConn(s, c);
    var conn := s.conns[c];
    if s.Chan(c).IsWriting() {
      if n <= 0 {
        ShutdownNowKeepsInv(s, c);
      } else if n < |conn.output| {
        ShortWriteKeepsInv(s, c, n);
      } else {
        LastWriteKeepsInv(s, c);
      }
    }
  }

  // ----- user calls

  lemma CommitShutdownKeepsInv(s: State, c: ConnId, inLoop: bool)
    requires Inv(s) && c in s.conns && s.conns[c].stage == Open
    ensures s.Known(c) && Inv(CommitShutdown(s, c, inLoop))
  {
    OneConn(s, c);
    if inLoop {
      var conn := s.conns[c].(state := Disconnecting);
      RecordKeepsInv(s, c, conn);
      ShutdownNowKeepsInv(SetConn(s, c, conn), c);
    } else {
      QueueKeepsInv(s, c, Disconnecting, ShutdownLater(c));
    }
  }

  lemma SetSame(s: State, c: ConnId)
    requires c in s.conns
    ensures SetConn(s, c, s.conns[c].(state := s.conns[c].state)) == s
  {
    assert s.conns[c := s.conns[c]] == s.conns;
  }

  lemma SendLaterKeepsInv(s: State, c: ConnId, message: seq<Byte>)
    requires Inv(s) && c in s.conns && s.conns[c].state == Connected
    ensures s.Known(c) && Inv(Enqueue(s, s.conns[c].loop, SendLater(c, message)))
  {
    OneConn(s, c);
    SetSame(s, c);
    QueueKeepsInv(s, c, Connected, SendLater(c, message));
  }

  lemma SendCallKeepsInv(s: State, c: ConnId, message: seq<Byte>, io: Io, inLoop: bool)
    requires Inv(s) && s.Known(c) && s.conns[c].state == Connected
    ensures UserStep(s, c, Send(message, io), inLoop).Ok? && Inv(UserStep(s, c, Send(message, io), inLoop).state)
  {
    if !inLoop {
      SendLaterKeepsInv(s, c, message);
    } else if PossibleSend(io, message) {
      assert ConnInv(s.conns[c]);
      SendNowKeepsInv(s, c, message, io);
    }
  }

  lemma ForceCallKeepsInv(s: State, c: ConnId)
    requires Inv(s) && s.Known(c) && s.conns[c].stage == Open
    ensures Inv(CommitForce(s, c))
  {
    QueueKeepsInv(s, c, Disconnecting, ForceClose(c));
  }

  lemma UserStepKeepsInv(s: State, c: ConnId, call: UserCall, inLoop: bool)
    requires Inv(s) && c in s.conns
    ensures s.Known(c) && UserStep(s, c, call, inLoop).Ok? && Inv(UserStep(s, c, call, inLoop).state)
  {
    var conn := s.conns[c];
    assert s.Known(c) && ConnInv(conn);
    match call
    case Send(message, io) => if conn.state == Connected { SendCallKeepsInv(s, c, message, io, inLoop); }
    case Shutdown => if conn.state == Connected { CommitShutdownKeepsInv(s, c, inLoop); }
    case Force => if conn.state == Connected || conn.state == Disconnecting { ForceCallKeepsInv(s, c); }
  }

  // ----- steps of a loop thread that touch no connection

  lemma LoopStepKeepsInv(s: State, k: LoopId, l: Loop)
    requires Inv(s) && k < |s.loops| && PhaseInv(s, k, l.phase)
    requires l.world == s.loops[k].world && l.Todo() == s.loops[k].Todo() && l.closing == s.loops[k].closing
    requires Collected(l)
    ensures Inv(SetLoop(s, k, l))
  {
    LoopStepQueue(s, k, l);
    LoopStepLoops(s, k, l);
    LoopStepWorlds(s, k, l);
    LoopStepMap(s, k, l);
  }

  lemma LoopStepMap(s: State, k: LoopId, l: Loop)
    requires MapInv(s) && k < |s.loops|
    ensures MapInv(SetLoop(s, k, l))
  {
    var t := SetLoop(s, k, l);
    forall c | c in t.conns ensures t.InMap(c) <==> Mapped(t.conns[c].stage) {
      assert s.InMap(c) <==> Mapped(s.conns[c].stage);
    }
  }

  lemma LoopStepQueue(s: State, k: LoopId, l: Loop)
    requires QueueInv(s) && k < |s.loops| && l.Todo() == s.loops[k].Todo()
    ensures QueueInv(SetLoop(s, k, l))
  {
    forall j, c | 0 <= j < |s.loops| ensures MineOk(SetLoop(s, k, l), j, c) {
      assert MineOk(s, j, c);
    }
  }

  lemma LoopStepLoops(s: State, k: LoopId, l: Loop)
    requires LoopsInv(s) && k < |s.loops| && PhaseInv(s, k, l.phase) && l.closing == s.loops[k].closing
    requires Collected(l)
    ensures LoopsInv(SetLoop(s, k, l))
  {
    var t := SetLoop(s, k, l);
    forall j | 0 <= j < |t.loops| ensures LoopInv(t, j) {
      assert LoopInv(s, j);
      SamePhase(s, t, j, t.loops[j].phase);
    }
  }

  lemma LoopStepWorlds(s: State, k: LoopId, l: Loop)
    requires WorldsInv(s) && k < |s.loops| && l.world == s.loops[k].world
    ensures WorldsInv(SetLoop(s, k, l))
  {
    var t := SetLoop(s, k, l);
    forall j | 0 <= j < |t.loops| ensures LoopWorldInv(t, j) {
      assert LoopWorldInv(s, j);
    }
    forall d | d in t.conns ensures t.Known(d) && ChanOk(t.conns[d], t.Chan(d)) {
      assert s.Known(d) && ChanOk(s.conns[d], s.Chan(d));
    }
  }

  /** Everything the kernel can report belongs to an open connection of this loop. */
  lemma ReadyIsOpen(s: State, k: LoopId, ready: seq<Ready>)
    requires Inv(s) && k < |s.loops| && PossibleReady(s.loops[k].world, ready)
    requires forall i :: 0 <= i < |ready| ==> !ClosesAndReads(ready[i].revents)
    ensures PhaseInv(s, k, Handling(ready, 0, []))
  {
    var w := s.loops[k].world;
    assert LoopWorldInv(s, k);
    forall i | 0 <= i < |ready| ensures OnLoop(s, ready[i].c, k) && s.conns[ready[i].c].stage == Open {
      var fd :| fd in w.poller.kernel && w.poller.kernel[fd].ptr == ready[i].c;
      assert w.chans[ready[i].c].index == KAdded;
      assert ChanOk(s.conns[ready[i].c], s.Chan(ready[i].c));
    }
  }

  lemma TameCallbacks(revents: Mask)
    requires !ClosesAndReads(revents)
    ensures Tame(Callbacks(revents))
  {
    AtMostOneOfCloseAndRead(revents);
    var cbs := Callbacks(revents);
    forall i, j | 0 <= i < j < |cbs| ensures !(Closer(cbs[i]) && Closer(cbs[j])) {
      if Closer(cbs[i]) && Closer(cbs[j]) {
        assert cbs[i] in cbs && cbs[j] in cbs;
        var error, write := Has(revents, POLLERR | POLLNVAL), Has(revents, POLLOUT);
        OrderedCallbacks(MakesClose(revents), error, MakesRead(revents), write, i, j);
      }
    }
  }

  lemma OrderedCallbacks(a: bool, b: bool, c: bool, d: bool, i: nat, j: nat)
    requires i < j < |When(a, CloseCb) + When(b, ErrorCb) + When(c, ReadCb) + When(d, WriteCb)|
    ensures var cbs := When(a, CloseCb) + When(b, ErrorCb) + When(c, ReadCb) + When(d, WriteCb); cbs[i] != cbs[j]
  {
  }

  lemma NextChannelPhase(s: State, k: LoopId, active: seq<Ready>, current: ConnId)
    requires PhaseInv(s, k, Handling(active, current, [])) && active != []
    ensures PhaseInv(s, k, Handling(active[1..], active[0].c, Callbacks(active[0].revents)))
  {
    TameCallbacks(active[0].revents);
  }

  lemma PopCallbackPhase(s: State, k: LoopId, phase: Phase)
    requires PhaseInv(s, k, phase) && phase.Handling? && phase.callbacks != []
    ensures PhaseInv(s, k, phase.(callbacks := phase.callbacks[1..]))
    ensures Closer(phase.callbacks[0]) ==>
              && !CanClose(phase.callbacks[1..])
              && s.conns[phase.current].stage == Open
              && forall i :: 0 <= i < |phase.active| ==> phase.active[i].c != phase.current
  {
    var cbs := phase.callbacks;
    if CanClose(cbs[1..]) {
      var i :| 0 <= i < |cbs[1..]| && Closer(cbs[1..][i]);
      assert Closer(cbs[i + 1]);
    }
  }

  // ----- handleClose

  /** A change of mask that suits the connection's next stage. */
  lemma MaskFits(s: State, c: ConnId, conn: Conn, events: Mask)
    requires WorldsInv(s) && c in s.conns && conn.loop == s.conns[c].loop
    requires s.Known(c) && MayUpdate(s.loops[conn.loop].world, c)
    requires ChanOk(conn, UpdatedChan(s.Chan(c), events))
    ensures var w := SetMask(s.loops[conn.loop].world, c, events);
            w.Ok? && WorldOk(s, c, conn, w.state)
  {
    assert LoopWorldInv(s, conn.loop);
    SetMaskEffect(s.loops[conn.loop].world, c, events);
    SetMaskKeepsAgreement(s.loops[conn.loop].world, c, events);
  }

  /** The connection's loop thread is not about to dispatch to it again. */
  ghost predicate Undispatched(phase: Phase, c: ConnId) {
    phase.Handling? ==>
      && (CanClose(phase.callbacks) ==> phase.current != c)
      && forall i :: 0 <= i < |phase.active| ==> phase.active[i].c != c
  }

  lemma CloseLoops(s: State, c: ConnId, w: World<ConnId>)
    requires LoopsInv(s) && c in s.conns && s.conns[c].loop < |s.loops| && s.conns[c].stage == Open
    requires s.loops[s.conns[c].loop].closing == None && Undispatched(s.loops[s.conns[c].loop].phase, c)
    ensures LoopsInv(Closed(s, c, w))
  {
    var t := Closed(s, c, w);
    forall k | 0 <= k < |t.loops| ensures LoopInv(t, k) {
      assert LoopInv(s, k);
      StageLeavesPhase(s, t, c, k, s.loops[k].phase);
    }
  }

  /** A connection that no phase is about to dispatch to may change stage. */
  lemma StageLeavesPhase(s: State, t: State, c: ConnId, k: LoopId, phase: Phase)
    requires PhaseInv(s, k, phase) && c in s.conns
    requires forall d :: d in s.conns ==> d in t.conns && t.conns[d].loop == s.conns[d].loop
    requires forall d :: d in s.conns && d != c ==> t.conns[d].stage == s.conns[d].stage
    requires s.conns[c].loop == k ==> Undispatched(phase, c)
    ensures PhaseInv(t, k, phase)
  {
  }

  function Closed(s: State, c: ConnId, w: World<ConnId>): State
    requires c in s.conns && s.conns[c].loop < |s.loops|
  {
    Commit(s, c, ClosedConn(s.conns[c]), s.loops[s.conns[c].loop].(world := w, closing := Some(c)))
  }

  lemma CloseConnIs(s: State, c: ConnId, w: World<ConnId>)
    requires s.Known(c) && (s.conns[c].state == Connected || s.conns[c].state == Disconnecting)
    requires SetMask(s.loops[s.conns[c].loop].world, c, NONE_EVENT) == Ok(w)
    ensures CloseConn(s, c) == Ok(Closed(s, c, w))
  {
  }

  lemma ClosedChanges(s: State, c: ConnId, w: World<ConnId>)
    requires s.Known(c)
    ensures var t := Closed(s, c, w);
            && Changes(s, t, c) && t.connections == s.connections && t.conns[c] == ClosedConn(s.conns[c])
            && t.loops[s.conns[c].loop].world == w
            && (forall k :: 0 <= k < |s.loops| && k != s.conns[c].loop ==> t.loops[k].world == s.loops[k].world)
            && (forall k :: 0 <= k < |s.loops| ==> t.loops[k].Todo() == s.loops[k].Todo())
  {
  }

  lemma CloseWorlds(s: State, c: ConnId) returns (w: World<ConnId>)
    requires WorldsInv(s) && c in s.conns && s.conns[c].stage == Open
    ensures s.Known(c) && SetMask(s.loops[s.conns[c].loop].world, c, NONE_EVENT) == Ok(w)
    ensures WorldsInv(Closed(s, c, w))
  {
    assert s.Known(c) && ChanOk(s.conns[c], s.Chan(c));
    MaskFits(s, c, ClosedConn(s.conns[c]), NONE_EVENT);
    w := SetMask(s.loops[s.conns[c].loop].world, c, NONE_EVENT).state;
    ClosedChanges(s, c, w);
    WorldsChange(s, Closed(s, c, w), c);
  }

  lemma CloseRecords(s: State, c: ConnId, w: World<ConnId>)
    requires FdInv(s) && ConnsInv(s) && MapInv(s) && s.Known(c) && s.conns[c].stage == Open
    ensures FdInv(Closed(s, c, w)) && ConnsInv(Closed(s, c, w)) && MapInv(Closed(s, c, w))
  {
    assert ConnInv(s.conns[c]);
    ClosedChanges(s, c, w);
    ConnsChange(s, Closed(s, c, w), c);
    MapChange(s, Closed(s, c, w), c);
  }

  lemma CloseQueues(s: State, c: ConnId, w: World<ConnId>)
    requires QueueInv(s) && s.Known(c) && s.conns[c].stage == Open
    ensures QueueInv(Closed(s, c, w))
  {
    ClosedChanges(s, c, w);
    forall k, d | 0 <= k < |s.loops| ensures MineOk(Closed(s, c, w), k, d) {
      assert MineOk(s, k, d);
    }
  }

  lemma CloseConnKeepsInv(s: State, c: ConnId)
    requires Inv(s) && c in s.conns && s.conns[c].stage == Open && s.Known(c)
    requires s.loops[s.conns[c].loop].closing == None && Undispatched(s.loops[s.conns[c].loop].phase, c)
    ensures CloseConn(s, c).Ok? && Inv(CloseConn(s, c).state)
  {
    var w := CloseWorlds(s, c);
    CloseRecords(s, c, w);
    CloseQueues(s, c, w);
    CloseLoops(s, c, w);
    assert ConnInv(s.conns[c]);
    CloseConnIs(s, c, w);
  }

  // ----- the close callback and removal from connections_

  /** Between two queues: c is closed and in the map, but its next functor is not queued yet. */
  ghost predicate Between(s: State, c: ConnId) {
    && c in s.conns && (s.conns[c].stage == Closing || s.conns[c].stage == Removing)
    && OthersQueued(s, c) && PlainAtHome(s, c)
    && MapInv(s) && WorldsInv(s) && FdInv(s)
    && LoopsBut(s, c)
    && (forall d :: d in s.conns && d != c ==> ConnInv(s.conns[d]))
    && ConnInv(Doomed(s.conns[c]))
  }

  ghost predicate PlainAtHome(s: State, c: ConnId) {
    c in s.conns && forall k :: 0 <= k < |s.loops| ==> PlainOn(s, k, c)
  }

  ghost predicate PlainOn(s: State, k: LoopId, c: ConnId)
    requires k < |s.loops| && c in s.conns
  {
    var mine := Mine(s.loops[k].Todo(), c);
    if k == s.conns[c].loop then AllPlain(mine) else mine == []
  }

  ghost predicate LoopsBut(s: State, c: ConnId) {
    && |s.loops| > 0
    && (|s.loops| == 1 || s.nextLoop + 1 < |s.loops|)
    && (forall k :: 0 <= k < |s.loops| ==> LoopInv(s, k) && s.loops[k].closing != Some(c))
    && (forall d :: d in s.conns && d != c && s.conns[d].stage == Closing ==>
          s.conns[d].loop < |s.loops| && s.loops[s.conns[d].loop].closing == Some(d))
  }

  /** A closed connection may change stage without any loop noticing. */
  lemma MovedOn(s: State, t: State, c: ConnId)
    requires LoopsBut(s, c) && Changes(s, t, c)
    requires s.conns[c].stage != Open && t.conns[c].stage != Closing
    requires forall k :: 0 <= k < |s.loops| ==>
               && t.loops[k].phase == s.loops[k].phase && t.loops[k].closing == s.loops[k].closing
               && Collected(t.loops[k])
    ensures LoopsInv(t)
  {
    forall k | 0 <= k < |t.loops| ensures LoopInv(t, k) {
      assert LoopInv(s, k) && PhaseInv(s, k, s.loops[k].phase);
      assert s.conns[c].loop == k ==> Undispatched(s.loops[k].phase, c);
      StageLeavesPhase(s, t, c, k, s.loops[k].phase);
    }
  }

  lemma Unmap(s: State, t: State, c: ConnId)
    requires MapInv(s) && Changes(s, t, c) && Mapped(s.conns[c].stage) && t.conns[c].stage == Destroying
    requires t.connections == s.connections - {s.Name(c)}
    ensures MapInv(t) && s.Name(c) in s.connections
  {
    assert s.InMap(c);
    forall d | d in t.conns ensures t.InMap(d) <==> Mapped(t.conns[d].stage) {
      assert s.InMap(d) <==> Mapped(s.conns[d].stage);
      NamesInjective(s.config.server, s.config.ipPort, c, d);
    }
  }

  /** The state after removeConnectionInLoop. */
  function Unmapped(s: State, c: ConnId): State
    requires c in s.conns && s.conns[c].loop < |s.loops|
  {
    var l := s.loops[s.conns[c].loop];
    Commit(s, c, Doomed(s.conns[c]), l.(pending := l.pending + [DestroyConn(c)]))
    .(connections := s.connections - {s.Name(c)})
  }

  lemma UnmappedChanges(s: State, c: ConnId)
    requires s.Known(c)
    ensures var t := Unmapped(s, c);
            && Changes(s, t, c) && t.conns[c] == Doomed(s.conns[c])
            && t.connections == s.connections - {s.Name(c)}
            && Edited(s.loops[s.conns[c].loop], t.loops[s.conns[c].loop], [], [DestroyConn(c)], c)
            && (forall k :: 0 <= k < |s.loops| && k != s.conns[c].loop ==> t.loops[k] == s.loops[k])
            && (forall k :: 0 <= k < |s.loops| ==>
                  && t.loops[k].phase == s.loops[k].phase && t.loops[k].closing == s.loops[k].closing
                  && t.loops[k].batch == s.loops[k].batch && t.loops[k].ran == s.loops[k].ran
                  && t.loops[k].world == s.loops[k].world)
  {
    var l := s.loops[s.conns[c].loop];
    Assoc(l.batch, l.pending, [DestroyConn(c)]);
  }

  lemma UnmappedQueue(s: State, c: ConnId)
    requires OthersQueued(s, c) && PlainAtHome(s, c) && s.Known(c)
    ensures QueueInv(Unmapped(s, c))
  {
    UnmappedChanges(s, c);
    var k := s.conns[c].loop;
    var plain := Mine(s.loops[k].Todo(), c);
    assert PlainOn(s, k, c);
    var mine := plain + [DestroyConn(c)];
    assert mine[..|mine| - 1] == plain && [] + mine == mine;
    forall j | 0 <= j < |s.loops| && j != k ensures Shape(Destroying, c, k, j, Mine(s.loops[j].Todo(), c)) {
      assert PlainOn(s, j, c);
    }
    QueueEdit(s, Unmapped(s, c), c, k, [], [DestroyConn(c)], mine);
  }

  lemma UnmappedRecords(s: State, c: ConnId)
    requires MapInv(s) && FdInv(s) && s.Known(c) && Mapped(s.conns[c].stage)
    requires ConnInv(Doomed(s.conns[c]))
    requires forall d :: d in s.conns && d != c ==> ConnInv(s.conns[d])
    ensures var t := Unmapped(s, c); MapInv(t) && FdInv(t) && ConnsInv(t) && s.Name(c) in s.connections
  {
    UnmappedChanges(s, c);
    Unmap(s, Unmapped(s, c), c);
    ConnsChange(s, Unmapped(s, c), c);
  }

  lemma UnmappedWorlds(s: State, c: ConnId)
    requires WorldsInv(s) && c in s.conns && (s.conns[c].stage == Closing || s.conns[c].stage == Removing)
    ensures s.Known(c) && WorldsInv(Unmapped(s, c))
  {
    assert s.Known(c) && ChanOk(s.conns[c], s.Chan(c));
    UnmappedChanges(s, c);
    SameWorld(s, c, Doomed(s.conns[c]));
    WorldsChange(s, Unmapped(s, c), c);
  }

  lemma RemoveConnIs(s: State, c: ConnId)
    requires s.Known(c) && s.Name(c) in s.connections
    ensures RemoveConn(s, c) == Ok(Unmapped(s, c))
  {
  }

  lemma UnmappedLoops(s: State, c: ConnId)
    requires LoopsBut(s, c) && s.Known(c) && s.conns[c].stage != Open
    ensures LoopsInv(Unmapped(s, c))
  {
    UnmappedChanges(s, c);
    forall k | 0 <= k < |s.loops| ensures Collected(s.loops[k]) {
      assert LoopInv(s, k);
    }
    MovedOn(s, Unmapped(s, c), c);
  }

  /** Erasing a closed connection always finds it, and queues its destruction. */
  lemma RemoveConnKeepsInv(s: State, c: ConnId)
    requires Between(s, c)
    ensures s.Known(c) && RemoveConn(s, c).Ok? && Inv(RemoveConn(s, c).state)
  {
    UnmappedWorlds(s, c);
    UnmappedQueue(s, c);
    UnmappedRecords(s, c);
    UnmappedLoops(s, c);
    RemoveConnIs(s, c);
  }

  /** The state after the removal has been queued on the base loop. */
  function HandedOver(s: State, c: ConnId): State
    requires c in s.conns && |s.loops| > 0
  {
    Enqueue(SetConn(s, c, s.conns[c].(stage := Removing)), 0, Remove(c))
  }

  lemma HandedOverChanges(s: State, c: ConnId)
    requires c in s.conns && |s.loops| > 0
    ensures var t := HandedOver(s, c);
            && Changes(s, t, c) && t.conns[c] == s.conns[c].(stage := Removing) && t.connections == s.connections
            && Edited(s.loops[0], t.loops[0], [], [Remove(c)], c)
            && (forall k :: 0 < k < |s.loops| ==> t.loops[k] == s.loops[k])
            && (forall k :: 0 <= k < |s.loops| ==>
                  && t.loops[k].phase == s.loops[k].phase && t.loops[k].closing == s.loops[k].closing
                  && t.loops[k].batch == s.loops[k].batch && t.loops[k].ran == s.loops[k].ran
                  && t.loops[k].world == s.loops[k].world)
  {
    Assoc(s.loops[0].batch, s.loops[0].pending, [Remove(c)]);
  }

  lemma HandOverKeepsInv(s: State, c: ConnId)
    requires Between(s, c) && s.conns[c].loop != 0
    ensures Inv(HandedOver(s, c))
  {
    HandOverQueue(s, c);
    HandOverWorlds(s, c);
    HandOverRecords(s, c);
    HandOverLoops(s, c);
  }

  lemma HandOverLoops(s: State, c: ConnId)
    requires LoopsBut(s, c) && c in s.conns && s.conns[c].stage != Open
    ensures LoopsInv(HandedOver(s, c))
  {
    HandedOverChanges(s, c);
    forall k | 0 <= k < |s.loops| ensures Collected(s.loops[k]) {
      assert LoopInv(s, k);
    }
    MovedOn(s, HandedOver(s, c), c);
  }

  lemma HandOverRecords(s: State, c: ConnId)
    requires MapInv(s) && FdInv(s) && c in s.conns && |s.loops| > 0 && s.conns[c].loop != 0
    requires s.conns[c].stage == Closing || s.conns[c].stage == Removing
    requires ConnInv(Doomed(s.conns[c]))
    requires forall d :: d in s.conns && d != c ==> ConnInv(s.conns[d])
    ensures var t := HandedOver(s, c); MapInv(t) && FdInv(t) && ConnsInv(t)
  {
    HandedOverChanges(s, c);
    ConnsChange(s, HandedOver(s, c), c);
    MapChange(s, HandedOver(s, c), c);
  }

  lemma HandOverQueue(s: State, c: ConnId)
    requires OthersQueued(s, c) && PlainAtHome(s, c) && s.conns[c].loop != 0 && |s.loops| > 0
    ensures QueueInv(HandedOver(s, c))
  {
    HandedOverChanges(s, c);
    assert PlainOn(s, 0, c);
    forall j | 0 <= j < |s.loops| && j != 0
      ensures Shape(Removing, c, s.conns[c].loop, j, Mine(s.loops[j].Todo(), c))
    {
      assert PlainOn(s, j, c);
    }
    QueueEdit(s, HandedOver(s, c), c, 0, [], [Remove(c)], [Remove(c)]);
  }

  lemma HandOverWorlds(s: State, c: ConnId)
    requires WorldsInv(s) && |s.loops| > 0 && c in s.conns && (s.conns[c].stage == Closing || s.conns[c].stage == Removing)
    ensures WorldsInv(HandedOver(s, c))
  {
    assert s.Known(c) && ChanOk(s.conns[c], s.Chan(c));
    HandedOverChanges(s, c);
    SameWorld(s, c, s.conns[c].(stage := Removing));
    WorldsChange(s, HandedOver(s, c), c);
  }

  /** handleClose is over but for the close callback's own work. */
  function Cleared(s: State, k: LoopId, c: ConnId): State
    requires c in s.conns && k < |s.loops|
  {
    SetConn(SetLoop(s, k, s.loops[k].(closing := None)), c, s.conns[c].(closes := s.conns[c].closes + 1))
  }

  lemma ClearedChanges(s: State, k: LoopId, c: ConnId)
    requires c in s.conns && k < |s.loops|
    ensures var t := Cleared(s, k, c);
            && Changes(s, t, c) && t.connections == s.connections
            && t.conns[c] == s.conns[c].(closes := s.conns[c].closes + 1)
            && forall j :: 0 <= j < |s.loops| ==>
                 t.loops[j].world == s.loops[j].world && t.loops[j].Todo() == s.loops[j].Todo()
  {
  }

  lemma ClearClosing(s: State, k: LoopId, c: ConnId)
    requires Inv(s) && k < |s.loops| && s.loops[k].closing == Some(c)
    ensures c in s.conns && s.conns[c].loop == k && s.Known(c) && Between(Cleared(s, k, c), c)
  {
    assert LoopInv(s, k);
    ClearedQueues(s, k, c);
    ClearedLoops(s, k, c);
    ClearedWorlds(s, k, c);
    ClearedFds(s, k, c);
    ClearedMap(s, k, c);
    ClearedConns(s, k, c);
  }

  lemma ClearedConns(s: State, k: LoopId, c: ConnId)
    requires ConnsInv(s) && c in s.conns && k < |s.loops| && s.conns[c].stage == Closing
    ensures var t := Cleared(s, k, c);
            ConnInv(Doomed(t.conns[c])) && forall d :: d in t.conns && d != c ==> ConnInv(t.conns[d])
  {
    assert ConnInv(s.conns[c]);
  }

  lemma ClearedWorlds(s: State, k: LoopId, c: ConnId)
    requires WorldsInv(s) && c in s.conns && k < |s.loops| && s.conns[c].stage == Closing
    ensures s.Known(c) && WorldsInv(Cleared(s, k, c))
  {
    assert s.Known(c) && ChanOk(s.conns[c], s.Chan(c));
    ClearedChanges(s, k, c);
    SameWorld(s, c, Cleared(s, k, c).conns[c]);
    WorldsChange(s, Cleared(s, k, c), c);
  }

  lemma ClearedMap(s: State, k: LoopId, c: ConnId)
    requires MapInv(s) && c in s.conns && k < |s.loops|
    ensures MapInv(Cleared(s, k, c))
  {
    ClearedChanges(s, k, c);
    MapChange(s, Cleared(s, k, c), c);
  }

  lemma ClearedFds(s: State, k: LoopId, c: ConnId)
    requires FdInv(s) && c in s.conns && k < |s.loops|
    ensures FdInv(Cleared(s, k, c))
  {
    var t := Cleared(s, k, c);
    forall d, e | d in t.conns && e in t.conns && SameFd(t.conns[d], t.conns[e]) ensures d == e {
      assert SameFd(s.conns[d], s.conns[e]);
    }
  }

  lemma ClearedQueues(s: State, k: LoopId, c: ConnId)
    requires QueueInv(s) && c in s.conns && k < |s.loops| && s.conns[c].stage == Closing
    ensures OthersQueued(Cleared(s, k, c), c) && PlainAtHome(Cleared(s, k, c), c)
  {
    var t := Cleared(s, k, c);
    ClearedChanges(s, k, c);
    forall j, d | 0 <= j < |t.loops| && d != c ensures MineOk(t, j, d) {
      assert MineOk(s, j, d);
    }
    forall j | 0 <= j < |t.loops| ensures PlainOn(t, j, c) {
      assert MineOk(s, j, c);
    }
  }

  lemma ClearedLoops(s: State, k: LoopId, c: ConnId)
    requires LoopsInv(s) && c in s.conns && k < |s.loops| && s.loops[k].closing == Some(c)
    ensures LoopsBut(Cleared(s, k, c), c)
  {
    var t := Cleared(s, k, c);
    forall j | 0 <= j < |t.loops| ensures LoopInv(t, j) && t.loops[j].closing != Some(c) {
      assert LoopInv(s, j) && LoopInv(s, k);
      SamePhase(s, t, j, s.loops[j].phase);
    }
  }

  lemma FinishClosingKeepsInv(s: State, k: LoopId, c: ConnId)
    requires Inv(s) && k < |s.loops| && s.loops[k].closing == Some(c)
    ensures s.Known(c) && FinishClosing(s, k, c).Ok? && Inv(FinishClosing(s, k, c).state)
  {
    ClearClosing(s, k, c);
    if k == 0 {
      RemoveConnKeepsInv(Cleared(s, k, c), c);
      FinishIsRemove(s, c);
    } else {
      HandOverKeepsInv(Cleared(s, k, c), c);
      FinishIsHandOver(s, k, c);
    }
  }

  lemma FinishIsRemove(s: State, c: ConnId)
    requires s.Known(c) && |s.loops| > 0 && Cleared(s, 0, c).Known(c)
    ensures FinishClosing(s, 0, c) == RemoveConn(Cleared(s, 0, c), c)
  {
  }

  lemma FinishIsHandOver(s: State, k: LoopId, c: ConnId)
    requires s.Known(c) && 0 < k < |s.loops|
    ensures FinishClosing(s, k, c) == Ok(HandedOver(Cleared(s, k, c), c))
  {
    var conn := s.conns[c].(closes := s.conns[c].closes + 1);
    assert s.conns[c := conn][c := conn.(stage := Removing)] == s.conns[c := conn.(stage := Removing)];
  }

  // ----- lifetime

  lemma {:induction false} MineIsQueued(fs: seq<Functor>, c: ConnId, f: Functor)
    requires f in Mine(fs, c)
    ensures f in fs && f.c == c
  {
    if fs != [] && !(fs[0].c == c && f == fs[0]) {
      MineIsQueued(fs[1..], c, f);
    }
  }

  lemma QueuedOwns(l: Loop, f: Functor)
    requires f in l.Todo() && f.Owning()
    ensures LoopOwns(l, f.c)
  {
    var i :| 0 <= i < |l.Todo()| && l.Todo()[i] == f;
    if i < |l.batch| {
      assert l.batch[i] == f;
    } else {
      assert l.pending[i - |l.batch|] == f;
    }
  }

  /** Until it is gone, something owns the connection. */
  lemma AliveUntilGone(s: State, c: ConnId)
    requires Inv(s) && c in s.conns && s.conns[c].stage != Gone
    ensures Alive(s, c)
  {
    var stage, k := s.conns[c].stage, s.conns[c].loop;
    assert s.InMap(c) <==> Mapped(stage);
    if stage == Destroying {
      assert s.Known(c) && MineOk(s, k, c);
      MineIsQueued(s.loops[k].Todo(), c, DestroyConn(c));
      QueuedOwns(s.loops[k], DestroyConn(c));
    }
  }

  // ----- taking a functor from the batch

  /** What the first of a connection's functors tells about it. */
  lemma HeadShape(stage: Stage, c: ConnId, home: LoopId, k: LoopId, mine: seq<Functor>)
    requires Shape(stage, c, home, k, mine) && mine != [] && mine[0].c == c
    ensures mine[0].Establish? ==> k == home && stage == Born && mine[1..] == []
    ensures mine[0].Remove? ==> k == 0 && home != 0 && stage == Removing && mine[1..] == []
    ensures mine[0].DestroyConn? ==> k == home && stage == Destroying && mine[1..] == []
    ensures mine[0].Plain() ==> k == home && stage != Born && stage != Gone && Shape(stage, c, home, k, mine[1..])
  {
    if k == home && stage == Destroying && |mine| > 1 {
      assert mine[..|mine| - 1][0].Plain();
      assert mine[1..][..|mine| - 2] == mine[..|mine| - 1][1..];
    }
  }

  lemma PopMine(s: State, k: LoopId, c: ConnId)
    requires k < |s.loops| && s.loops[k].batch != []
    ensures var f, t := s.loops[k].batch[0], PopFunctor(s, k);
            Mine(s.loops[k].Todo(), c) == (if f.c == c then [f] else []) + Mine(t.loops[k].Todo(), c)
  {
    var l, m := s.loops[k], PopFunctor(s, k).loops[k];
    assert l.Todo()[0] == l.batch[0] && l.Todo()[1..] == m.Todo();
  }

  lemma PopHead(s: State, k: LoopId)
    requires QueueInv(s) && k < |s.loops| && s.loops[k].batch != []
    ensures var f := s.loops[k].batch[0];
            var mine := Mine(s.loops[k].Todo(), f.c);
            && f.c in s.conns && mine != [] && mine[0] == f
            && mine[1..] == Mine(PopFunctor(s, k).loops[k].Todo(), f.c)
            && Shape(s.conns[f.c].stage, f.c, s.conns[f.c].loop, k, mine)
  {
    PopMine(s, k, s.loops[k].batch[0].c);
    assert MineOk(s, k, s.loops[k].batch[0].c);
  }

  lemma PopOthers(s: State, k: LoopId)
    requires QueueInv(s) && k < |s.loops| && s.loops[k].batch != []
    ensures OthersQueued(PopFunctor(s, k), s.loops[k].batch[0].c)
  {
    var t, c := PopFunctor(s, k), s.loops[k].batch[0].c;
    forall j, d | 0 <= j < |t.loops| && d != c ensures MineOk(t, j, d) {
      assert MineOk(s, j, d);
      PopMine(s, k, d);
      assert Mine(t.loops[j].Todo(), d) == Mine(s.loops[j].Todo(), d);
    }
  }

  lemma PopRest(s: State, k: LoopId)
    requires Inv(s) && k < |s.loops| && s.loops[k].phase == Calling && s.loops[k].batch != []
    ensures var t := PopFunctor(s, k); WorldsInv(t) && LoopsInv(t) && MapInv(t) && FdInv(t) && ConnsInv(t)
  {
    var l := PopFunctor(s, k).loops[k];
    LoopStepWorlds(s, k, l);
    LoopStepLoops(s, k, l);
    LoopStepMap(s, k, l);
  }

  lemma PopPlainQueue(s: State, k: LoopId)
    requires QueueInv(s) && k < |s.loops| && s.loops[k].batch != [] && s.loops[k].batch[0].Plain()
    ensures QueueInv(PopFunctor(s, k))
    ensures var c := s.loops[k].batch[0].c;
            c in s.conns && s.conns[c].loop == k && s.conns[c].stage != Born && s.conns[c].stage != Gone
  {
    var t, c := PopFunctor(s, k), s.loops[k].batch[0].c;
    PopHead(s, k);
    PopOthers(s, k);
    HeadShape(s.conns[c].stage, c, s.conns[c].loop, k, Mine(s.loops[k].Todo(), c));
    forall j, d | 0 <= j < |t.loops| ensures MineOk(t, j, d) {
      if d == c && j != k {
        assert MineOk(s, j, d);
      }
    }
  }

  lemma PopPlainKeepsInv(s: State, k: LoopId)
    requires Inv(s) && k < |s.loops| && s.loops[k].phase == Calling
    requires s.loops[k].batch != [] && s.loops[k].batch[0].Plain()
    ensures Inv(PopFunctor(s, k))
    ensures var c := s.loops[k].batch[0].c;
            c in s.conns && s.conns[c].loop == k && s.conns[c].stage != Born && s.conns[c].stage != Gone
  {
    PopPlainQueue(s, k);
    PopRest(s, k);
  }

  /** A removal reaches the base loop: the connection is between queues. */
  lemma PopRemove(s: State, k: LoopId, c: ConnId)
    requires Inv(s) && k < |s.loops| && s.loops[k].phase == Calling
    requires s.loops[k].batch != [] && s.loops[k].batch[0] == Remove(c)
    ensures Between(PopFunctor(s, k), c)
  {
    PopHead(s, k);
    HeadShape(s.conns[c].stage, c, s.conns[c].loop, k, Mine(s.loops[k].Todo(), c));
    PopRemoveQueue(s, k, c);
    PopRest(s, k);
    NotClosing(PopFunctor(s, k), c);
  }

  lemma NotClosing(s: State, c: ConnId)
    requires LoopsInv(s) && ConnsInv(s) && c in s.conns && s.conns[c].stage != Closing
    ensures LoopsBut(s, c)
    ensures s.conns[c].stage == Removing ==> ConnInv(Doomed(s.conns[c]))
  {
    assert ConnInv(s.conns[c]);
    forall k | 0 <= k < |s.loops| ensures LoopInv(s, k) && s.loops[k].closing != Some(c) {
      assert LoopInv(s, k);
    }
  }

  lemma PopRemoveQueue(s: State, k: LoopId, c: ConnId)
    requires QueueInv(s) && k < |s.loops| && s.loops[k].batch != [] && s.loops[k].batch[0] == Remove(c)
    ensures OthersQueued(PopFunctor(s, k), c) && PlainAtHome(PopFunctor(s, k), c)
  {
    var t := PopFunctor(s, k);
    PopHead(s, k);
    PopOthers(s, k);
    HeadShape(s.conns[c].stage, c, s.conns[c].loop, k, Mine(s.loops[k].Todo(), c));
    forall j | 0 <= j < |t.loops| ensures PlainOn(t, j, c) {
      assert MineOk(s, j, c);
    }
  }
}
