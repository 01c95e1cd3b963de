/** Establishing, accepting and destroying a connection, and every whole step. */
module LifecycleSteps {
  import opened Lifecycle
  import opened LifecycleInv
  import opened LifecycleProof
  import opened Machine
  import opened Names
  import opened Polling
  import opened Seqs

  // ----- a connection that no queue mentions

  ghost predicate Unqueued(s: State, c: ConnId) {
    && c in s.conns && OthersQueued(s, c)
    && (forall k :: 0 <= k < |s.loops| ==> Mine(s.loops[k].Todo(), c) == [])
    && MapInv(s) && WorldsInv(s) && FdInv(s) && LoopsInv(s) && ConnsInv(s)
  }

  lemma PopLastQueue(s: State, k: LoopId, c: ConnId)
    requires QueueInv(s) && k < |s.loops| && s.loops[k].batch != []
    requires s.loops[k].batch[0] == Establish(c) || s.loops[k].batch[0] == DestroyConn(c)
    ensures c in s.conns && s.conns[c].loop == k
    ensures s.conns[c].stage == if s.loops[k].batch[0].Establish? then Born else Destroying
    ensures OthersQueued(PopFunctor(s, k), c)
    ensures forall j :: 0 <= j < |s.loops| ==> Mine(PopFunctor(s, k).loops[j].Todo(), c) == []
  {
    PopHead(s, k);
    PopOthers(s, k);
    HeadShape(s.conns[c].stage, c, s.conns[c].loop, k, Mine(s.loops[k].Todo(), c));
    forall j | 0 <= j < |s.loops| ensures Mine(PopFunctor(s, k).loops[j].Todo(), c) == [] {
      assert MineOk(s, j, c);
    }
  }

  /** Establishment and destruction are the last of the connection's queued functors. */
  lemma PopLast(s: State, k: LoopId, c: ConnId)
    requires Inv(s) && k < |s.loops| && s.loops[k].phase == Calling && s.loops[k].batch != []
    requires s.loops[k].batch[0] == Establish(c) || s.loops[k].batch[0] == DestroyConn(c)
    ensures Unqueued(PopFunctor(s, k), c) && s.conns[c].loop == k
    ensures s.conns[c].stage == if s.loops[k].batch[0].Establish? then Born else Destroying
  {
    PopLastQueue(s, k, c);
    PopRest(s, k);
  }

  /** A connection and its channel move on together; the queues stay as they are. */
  function Advanced(s: State, c: ConnId, conn: Conn, w: World<ConnId>): State
    requires conn.loop < |s.loops|
  {
    Commit(s, c, conn, s.loops[conn.loop].(world := w))
  }

  lemma AdvancedChanges(s: State, c: ConnId, conn: Conn, w: World<ConnId>)
    requires c in s.conns && conn.loop < |s.loops| && conn.loop == s.conns[c].loop && conn.fd == s.conns[c].fd
    ensures var t := Advanced(s, c, conn, w);
            && Changes(s, t, c) && t.connections == s.connections && t.conns[c] == conn
            && t.loops[conn.loop].world == w
            && (forall k :: 0 <= k < |s.loops| && k != conn.loop ==> t.loops[k] == s.loops[k])
            && (forall k :: 0 <= k < |s.loops| ==>
                  && t.loops[k].phase == s.loops[k].phase && t.loops[k].closing == s.loops[k].closing
                  && t.loops[k].batch == s.loops[k].batch && t.loops[k].ran == s.loops[k].ran
                  && t.loops[k].Todo() == s.loops[k].Todo())
  {
  }

  lemma AdvancedQueue(s: State, c: ConnId, conn: Conn, w: World<ConnId>)
    requires OthersQueued(s, c) && (forall k :: 0 <= k < |s.loops| ==> Mine(s.loops[k].Todo(), c) == [])
    requires c in s.conns && conn.loop < |s.loops| && conn.loop == s.conns[c].loop && conn.fd == s.conns[c].fd
    requires conn.stage == Open || conn.stage == Gone
    ensures QueueInv(Advanced(s, c, conn, w))
  {
    AdvancedChanges(s, c, conn, w);
    QueueChange(s, Advanced(s, c, conn, w), c);
  }

  lemma AdvancedRest(s: State, c: ConnId, conn: Conn, w: World<ConnId>)
    requires c in s.conns && conn.loop == s.conns[c].loop && conn.fd == s.conns[c].fd
    requires MapInv(s) && FdInv(s) && LoopsInv(s) && ConnsInv(s) && ConnInv(conn) && conn.loop < |s.loops|
    requires (s.conns[c].stage == Born && conn.stage == Open) || (s.conns[c].stage == Destroying && conn.stage == Gone)
    ensures var t := Advanced(s, c, conn, w); MapInv(t) && FdInv(t) && LoopsInv(t) && ConnsInv(t)
  {
    var t := Advanced(s, c, conn, w);
    AdvancedChanges(s, c, conn, w);
    MapChange(s, t, c);
    ConnsChange(s, t, c);
    NotClosing(s, c);
    AdvancedLoops(s, c, conn, w);
  }

  lemma AdvancedLoops(s: State, c: ConnId, conn: Conn, w: World<ConnId>)
    requires c in s.conns && conn.loop == s.conns[c].loop && conn.fd == s.conns[c].fd && conn.loop < |s.loops|
    requires LoopsBut(s, c) && s.conns[c].stage != Open && conn.stage != Closing
    ensures LoopsInv(Advanced(s, c, conn, w))
  {
    var t := Advanced(s, c, conn, w);
    AdvancedChanges(s, c, conn, w);
    forall k | 0 <= k < |s.loops| ensures Collected(t.loops[k]) {
      assert LoopInv(s, k);
    }
    MovedOn(s, t, c);
  }

  lemma AdvancedKeepsInv(s: State, c: ConnId, conn: Conn, w: World<ConnId>)
    requires Unqueued(s, c) && conn.loop == s.conns[c].loop && conn.fd == s.conns[c].fd
    requires ConnInv(conn) && WorldOk(s, c, conn, w)
    requires (s.conns[c].stage == Born && conn.stage == Open) || (s.conns[c].stage == Destroying && conn.stage == Gone)
    ensures Inv(Advanced(s, c, conn, w))
  {
    AdvancedQueue(s, c, conn, w);
    AdvancedRest(s, c, conn, w);
    AdvancedChanges(s, c, conn, w);
    WorldsChange(s, Advanced(s, c, conn, w), c);
  }

  // ----- connectEstablished

  /** No other channel of the loop is indexed under a new connection's descriptor. */
  lemma BornMayUpdate(s: State, c: ConnId)
    requires WorldsInv(s) && FdInv(s) && c in s.conns && s.conns[c].stage == Born
    ensures s.Known(c) && MayUpdate(s.loops[s.conns[c].loop].world, c)
  {
    assert s.Known(c) && ChanOk(s.conns[c], s.Chan(c));
    var k := s.conns[c].loop;
    var w := s.loops[k].world;
    assert LoopWorldInv(s, k);
    var fd := w.chans[c].fd;
    if fd in w.poller.channels {
      var d := w.poller.channels[fd];
      assert s.Known(d) && ChanOk(s.conns[d], s.Chan(d));
      assert SameFd(s.conns[c], s.conns[d]);
    }
  }

  lemma EstablishingIs(s: State, c: ConnId, w: World<ConnId>)
    requires s.Known(c) && s.conns[c].state == Connecting
    requires SetMask(s.loops[s.conns[c].loop].world, c, s.Chan(c).events | READ_EVENT) == Ok(w)
    ensures Establishing(s, c) == Ok(Advanced(s, c, Established(s.conns[c]), w))
  {
  }

  lemma EstablishedFits(s: State, c: ConnId) returns (w: World<ConnId>)
    requires WorldsInv(s) && FdInv(s) && ConnsInv(s) && c in s.conns && s.conns[c].stage == Born
    ensures s.Known(c) && s.conns[c].state == Connecting
    ensures SetMask(s.loops[s.conns[c].loop].world, c, s.Chan(c).events | READ_EVENT) == Ok(w)
    ensures ConnInv(Established(s.conns[c])) && WorldOk(s, c, Established(s.conns[c]), w)
  {
    BornMayUpdate(s, c);
    MaskBits();
    assert ConnInv(s.conns[c]) && ChanOk(s.conns[c], s.Chan(c));
    MaskFits(s, c, Established(s.conns[c]), READ_EVENT);
    w := SetMask(s.loops[s.conns[c].loop].world, c, READ_EVENT).state;
  }

  lemma EstablishingKeepsInv(s: State, c: ConnId)
    requires Unqueued(s, c) && s.conns[c].stage == Born
    ensures s.Known(c) && Establishing(s, c).Ok? && Inv(Establishing(s, c).state)
  {
    var w := EstablishedFits(s, c);
    EstablishingIs(s, c, w);
    AdvancedKeepsInv(s, c, Established(s.conns[c]), w);
  }

  // ----- connectDestroyed

  lemma DestroyNowIs(s: State, k: LoopId, c: ConnId, w: World<ConnId>)
    requires s.Known(c) && k < |s.loops| && s.conns[c].state == Disconnected && !s.loops[k].phase.Handling?
    requires Detach(s.loops[s.conns[c].loop].world, c) == Ok(w)
    ensures DestroyNow(s, k, c) == Ok(Advanced(s, c, s.conns[c].(stage := Gone), w))
  {
  }

  lemma DetachFits(s: State, c: ConnId) returns (w: World<ConnId>)
    requires WorldsInv(s) && c in s.conns && s.conns[c].stage == Destroying
    ensures s.Known(c) && Detach(s.loops[s.conns[c].loop].world, c) == Ok(w)
    ensures WorldOk(s, c, s.conns[c].(stage := Gone), w)
  {
    assert s.Known(c) && ChanOk(s.conns[c], s.Chan(c));
    var v := s.loops[s.conns[c].loop].world;
    assert LoopWorldInv(s, s.conns[c].loop);
    DetachEffect(v, c);
    RemovedAgrees(v, c);
    w := Removed(v, c);
  }

  lemma DestroyNowKeepsInv(s: State, k: LoopId, c: ConnId)
    requires Unqueued(s, c) && s.conns[c].stage == Destroying && k < |s.loops| && s.loops[k].phase == Calling
    ensures s.Known(c) && DestroyNow(s, k, c).Ok? && Inv(DestroyNow(s, k, c).state)
  {
    assert ConnInv(s.conns[c]);
    var w := DetachFits(s, c);
    DestroyNowIs(s, k, c, w);
    AdvancedKeepsInv(s, c, s.conns[c].(stage := Gone), w);
  }

  // ----- newConnection

  function NextHome(s: State): LoopId {
    if |s.loops| == 1 then 0 else 1 + s.nextLoop
  }

  function WithChannel(l: Loop, c: ConnId, fd: int): Loop {
    l.(world := l.world.(chans := l.world.chans[c := NewChan(fd)]))
  }

  /** The new connection is in the map and has its channel, but nothing is queued. */
  function Registered(s: State, fd: int): State
    requires NextHome(s) < |s.loops|
  {
    var k, c := NextHome(s), s.nextConnId;
    SetLoop(s, k, WithChannel(s.loops[k], c, fd))
    .(conns := s.conns[c := FirstRecord(k, fd)], connections := s.connections[s.Name(c) := c],
      nextConnId := c + 1, nextLoop := Advance(s.nextLoop, |s.loops| - 1))
  }

  lemma AcceptIs(s: State, fd: int)
    requires |s.loops| == 1 || s.nextLoop + 1 < |s.loops|
    ensures var t, c := Registered(s, fd), s.nextConnId;
            && t.Known(c)
            && AcceptConn(s, fd) ==
               if NextHome(s) == 0 then Establishing(t, c) else Ok(Enqueue(t, NextHome(s), Establish(c)))
  {
  }

  lemma RegisteredQueues(s: State, fd: int)
    requires QueueInv(s) && NextHome(s) < |s.loops| && s.nextConnId !in s.conns
    ensures var t, c := Registered(s, fd), s.nextConnId;
            OthersQueued(t, c) && forall k :: 0 <= k < |t.loops| ==> Mine(t.loops[k].Todo(), c) == []
  {
    var t, c := Registered(s, fd), s.nextConnId;
    forall k, d | 0 <= k < |t.loops| && d != c ensures MineOk(t, k, d) {
      assert MineOk(s, k, d);
      assert t.loops[k].Todo() == s.loops[k].Todo();
    }
    forall k | 0 <= k < |t.loops| ensures Mine(t.loops[k].Todo(), c) == [] {
      assert MineOk(s, k, c);
      assert t.loops[k].Todo() == s.loops[k].Todo();
    }
  }

  lemma RegisteredMap(s: State, fd: int)
    requires MapInv(s) && NextHome(s) < |s.loops| && s.nextConnId <= INT_MAX
    ensures MapInv(Registered(s, fd))
  {
    var t, c := Registered(s, fd), s.nextConnId;
    forall d | d in t.conns ensures 1 <= d < t.nextConnId && (t.InMap(d) <==> Mapped(t.conns[d].stage)) {
      if d != c {
        assert s.InMap(d) <==> Mapped(s.conns[d].stage);
        NamesInjective(s.config.server, s.config.ipPort, c, d);
      }
    }
  }

  lemma RegisteredWorlds(s: State, fd: int)
    requires WorldsInv(s) && NextHome(s) < |s.loops| && s.nextConnId !in s.conns
    ensures WorldsInv(Registered(s, fd))
  {
    var t, c := Registered(s, fd), s.nextConnId;
    assert LoopWorldInv(s, NextHome(s));
    ChannelAgrees(s.loops[NextHome(s)].world, c, fd);
    forall k | 0 <= k < |t.loops| ensures LoopWorldInv(t, k) {
      assert LoopWorldInv(s, k);
    }
    RegisteredChans(s, fd);
  }

  lemma RegisteredChans(s: State, fd: int)
    requires NextHome(s) < |s.loops| && s.nextConnId !in s.conns
    requires forall d :: d in s.conns ==> s.Known(d) && ChanOk(s.conns[d], s.Chan(d))
    ensures var t := Registered(s, fd); forall d :: d in t.conns ==> t.Known(d) && ChanOk(t.conns[d], t.Chan(d))
  {
    var t, c := Registered(s, fd), s.nextConnId;
    forall d | d in t.conns ensures t.Known(d) && ChanOk(t.conns[d], t.Chan(d)) {
      assert d != c ==> s.Known(d) && ChanOk(s.conns[d], s.Chan(d));
    }
  }

  lemma ChannelAgrees(w: World<ConnId>, c: ConnId, fd: int)
    requires Agrees(w) && c !in w.chans
    ensures Agrees(w.(chans := w.chans[c := NewChan(fd)]))
  {
  }

  /** No connection that still has its descriptor open shares it with the new one. */
  lemma RegisteredFds(s: State, fd: int)
    requires Inv(s) && NextHome(s) < |s.loops| && s.nextConnId !in s.conns && FdFree(s, fd)
    ensures FdInv(Registered(s, fd)) && ConnsInv(Registered(s, fd))
  {
    var t, c := Registered(s, fd), s.nextConnId;
    forall d | d in s.conns && s.conns[d].stage != Gone ensures s.conns[d].fd != fd {
      AliveUntilGone(s, d);
    }
    FreshFd(s, t, c, fd);
  }

  lemma FreshFd(s: State, t: State, c: ConnId, fd: int)
    requires FdInv(s) && ConnsInv(s) && c !in s.conns
    requires forall d :: d in s.conns && s.conns[d].stage != Gone ==> s.conns[d].fd != fd
    requires exists k :: t.conns == s.conns[c := FirstRecord(k, fd)]
    ensures FdInv(t) && ConnsInv(t)
  {
    forall d, e | d in t.conns && e in t.conns && SameFd(t.conns[d], t.conns[e]) ensures d == e {
      if d != c && e != c {
        assert SameFd(s.conns[d], s.conns[e]);
      }
    }
  }

  lemma RegisteredLoops(s: State, fd: int)
    requires LoopsInv(s) && s.nextConnId !in s.conns
    ensures LoopsInv(Registered(s, fd))
  {
    var t := Registered(s, fd);
    forall k | 0 <= k < |t.loops| ensures LoopInv(t, k) {
      assert LoopInv(s, k);
      SamePhase(s, t, k, s.loops[k].phase);
    }
  }

  lemma RegisterKeepsInv(s: State, fd: int)
    requires Inv(s) && s.nextConnId <= INT_MAX && FdFree(s, fd)
    ensures NextHome(s) < |s.loops| && Unqueued(Registered(s, fd), s.nextConnId)
  {
    assert s.nextConnId !in s.conns;
    RegisteredQueues(s, fd);
    RegisteredMap(s, fd);
    RegisteredWorlds(s, fd);
    RegisteredFds(s, fd);
    RegisteredLoops(s, fd);
  }

  lemma QueueEstablishKeepsInv(s: State, c: ConnId)
    requires Unqueued(s, c) && s.conns[c].stage == Born
    ensures s.Known(c) && Inv(Enqueue(s, s.conns[c].loop, Establish(c)))
  {
    assert s.Known(c) && LoopInv(s, s.conns[c].loop);
    var k := s.conns[c].loop;
    var l := s.loops[k].(pending := s.loops[k].pending + [Establish(c)]);
    EstablishQueue(s, c);
    LoopStepLoops(s, k, l);
    LoopStepWorlds(s, k, l);
    LoopStepMap(s, k, l);
  }

  lemma EstablishQueue(s: State, c: ConnId)
    requires c in s.conns && s.conns[c].loop < |s.loops| && OthersQueued(s, c) && s.conns[c].stage == Born
    requires forall k :: 0 <= k < |s.loops| ==> Mine(s.loops[k].Todo(), c) == []
    ensures QueueInv(Enqueue(s, s.conns[c].loop, Establish(c)))
  {
    var k := s.conns[c].loop;
    var t := Enqueue(s, k, Establish(c));
    Assoc(s.loops[k].batch, s.loops[k].pending, [Establish(c)]);
    assert s.conns[c := s.conns[c]] == s.conns;
    QueueEdit(s, t, c, k, [], [Establish(c)], [Establish(c)]);
  }

  lemma AcceptKeepsInv(s: State, fd: int)
    requires Inv(s) && s.nextConnId <= INT_MAX && FdFree(s, fd)
    ensures |s.loops| == 1 || s.nextLoop + 1 < |s.loops|
    ensures AcceptConn(s, fd).Ok? && Inv(AcceptConn(s, fd).state)
  {
    var c := s.nextConnId;
    RegisterKeepsInv(s, fd);
    AcceptIs(s, fd);
    EstablishingKeepsInv(Registered(s, fd), c);
    QueueEstablishKeepsInv(Registered(s, fd), c);
  }

  // ----- whole steps

  lemma PollKeepsInv(s: State, k: LoopId, ready: seq<Ready>)
    requires Inv(s) && k < |s.loops| && s.loops[k].phase == AtPoll && PossibleReady(s.loops[k].world, ready)
    requires Benign(Poll(k, ready))
    ensures Inv(SetLoop(s, k, s.loops[k].(phase := Handling(ready, 0, []))))
  {
    assert LoopInv(s, k);
    ReadyIsOpen(s, k, ready);
    LoopStepKeepsInv(s, k, s.loops[k].(phase := Handling(ready, 0, [])));
  }

  /** The channel about to be dispatched belongs to a live connection. */
  lemma NextChannelKeepsInv(s: State, k: LoopId)
    requires Inv(s) && k < |s.loops| && s.loops[k].phase.Handling?
    requires s.loops[k].phase.callbacks == [] && s.loops[k].phase.active != []
    ensures var active := s.loops[k].phase.active;
            && Alive(s, active[0].c)
            && Inv(SetLoop(s, k, s.loops[k].(phase := Handling(active[1..], active[0].c, Callbacks(active[0].revents)))))
  {
    assert LoopInv(s, k);
    var l, phase := s.loops[k], s.loops[k].phase;
    AliveUntilGone(s, phase.active[0].c);
    NextChannelPhase(s, k, phase.active, phase.current);
    LoopStepKeepsInv(s, k, l.(phase := Handling(phase.active[1..], phase.active[0].c, Callbacks(phase.active[0].revents))));
  }

  lemma EndHandlingKeepsInv(s: State, k: LoopId)
    requires Inv(s) && k < |s.loops| && s.loops[k].phase.Handling?
    ensures Inv(SetLoop(s, k, s.loops[k].(phase := Calling, batch := s.loops[k].pending, pending := [])))
  {
    assert LoopInv(s, k);
    var l := s.loops[k];
    assert l.pending + [] == [] + l.pending;
    LoopStepKeepsInv(s, k, l.(phase := Calling, batch := l.pending, pending := []));
  }

  lemma EndBatchKeepsInv(s: State, k: LoopId)
    requires Inv(s) && k < |s.loops| && s.loops[k].phase == Calling && s.loops[k].batch == []
    ensures Inv(SetLoop(s, k, s.loops[k].(phase := AtPoll, ran := [])))
  {
    LoopStepKeepsInv(s, k, s.loops[k].(phase := AtPoll, ran := []));
  }

  /** What a dispatch to a connection starts from. */
  lemma PopCallbackKeepsInv(s: State, k: LoopId)
    requires Inv(s) && AtRest(s, k) && s.loops[k].phase.Handling? && s.loops[k].phase.callbacks != []
    ensures var phase := s.loops[k].phase;
            var t := PopCallback(s, k);
            && OnLoop(s, phase.current, k) && s.Known(phase.current) && Alive(s, phase.current)
            && Inv(t) && t.conns == s.conns && AtRest(t, k)
            && (Closer(phase.callbacks[0]) ==>
                  s.conns[phase.current].stage == Open && Undispatched(t.loops[k].phase, phase.current))
  {
    assert LoopInv(s, k);
    var phase := s.loops[k].phase;
    assert LoopOwns(s.loops[k], phase.current);
    OneConn(s, phase.current);
    PopCallbackPhase(s, k, phase);
    LoopStepKeepsInv(s, k, s.loops[k].(phase := phase.(callbacks := phase.callbacks[1..])));
  }

  function PopCallback(s: State, k: LoopId): State
    requires k < |s.loops| && s.loops[k].phase.Handling? && s.loops[k].phase.callbacks != []
  {
    var phase := s.loops[k].phase;
    SetLoop(s, k, s.loops[k].(phase := phase.(callbacks := phase.callbacks[1..])))
  }

  lemma RunningCallbackIs(s: State, k: LoopId, n: int)
    requires HasCallback(s, k) && WriteFits(s, k, n)
    requires s.Known(s.loops[k].phase.current) && Alive(s, s.loops[k].phase.current)
    requires s.conns[s.loops[k].phase.current].loop == k
    ensures var t, c := PopCallback(s, k), s.loops[k].phase.current;
            && t.Known(c)
            && RunningCallback(s, k, n) ==
               match s.loops[k].phase.callbacks[0]
               case CloseCb => CloseConn(t, c)
               case ErrorCb => Ok(t)
               case ReadCb => if n == 0 then CloseConn(t, c) else Ok(t)
               case WriteCb => WriteReady(t, c, n)
  {
  }

  lemma DispatchClose(s: State, k: LoopId)
    requires Inv(s) && AtRest(s, k) && s.loops[k].phase.Handling? && s.loops[k].phase.callbacks != []
    requires Closer(s.loops[k].phase.callbacks[0])
    ensures var t, c := PopCallback(s, k), s.loops[k].phase.current;
            t.Known(c) && CloseConn(t, c).Ok? && Inv(CloseConn(t, c).state)
  {
    PopCallbackKeepsInv(s, k);
    OneConn(PopCallback(s, k), s.loops[k].phase.current);
    CloseConnKeepsInv(PopCallback(s, k), s.loops[k].phase.current);
  }

  lemma RunningCallbackKeepsInv(s: State, k: LoopId, n: int)
    requires Inv(s) && AtRest(s, k) && HasCallback(s, k) && WriteFits(s, k, n)
    ensures RunningCallback(s, k, n).Ok? && Inv(RunningCallback(s, k, n).state)
  {
    PopCallbackKeepsInv(s, k);
    RunningCallbackIs(s, k, n);
    var t, c := PopCallback(s, k), s.loops[k].phase.current;
    match s.loops[k].phase.callbacks[0]
    case CloseCb => DispatchClose(s, k);
    case ErrorCb =>
    case ReadCb => DispatchClose(s, k);
    case WriteCb => WriteReadyKeepsInv(t, c, n);
  }

  lemma BatchOwns(s: State, k: LoopId)
    requires k < |s.loops| && s.loops[k].batch != [] && s.loops[k].batch[0].Owning()
    ensures Alive(s, s.loops[k].batch[0].c)
  {
    assert s.loops[k].Todo()[0] == s.loops[k].batch[0];
    QueuedOwns(s.loops[k], s.loops[k].batch[0]);
  }

  /** A functor that binds a raw `this` still finds its connection alive. */
  lemma FunctorFindsConn(s: State, k: LoopId)
    requires Inv(s) && HasFunctor(s, k)
    ensures s.Known(s.loops[k].batch[0].c) && Alive(s, s.loops[k].batch[0].c)
    ensures s.loops[k].batch[0].RunsOn(k, s.conns[s.loops[k].batch[0].c].loop)
  {
    var c := s.loops[k].batch[0].c;
    PopHead(s, k);
    OneConn(s, c);
    HeadShape(s.conns[c].stage, c, s.conns[c].loop, k, Mine(s.loops[k].Todo(), c));
    if s.loops[k].batch[0].Owning() {
      BatchOwns(s, k);
    } else {
      AliveUntilGone(s, c);
    }
  }

  /** What RunningFunctor does once the functor is off the batch. */
  lemma RunningFunctorIs(s: State, k: LoopId, io: Io)
    requires HasFunctor(s, k) && IoFits(s, k, io)
    requires s.Known(s.loops[k].batch[0].c) && Alive(s, s.loops[k].batch[0].c)
    requires s.loops[k].batch[0].RunsOn(k, s.conns[s.loops[k].batch[0].c].loop)
    ensures var t, c := PopFunctor(s, k), s.loops[k].batch[0].c;
            && t.Known(c)
            && RunningFunctor(s, k, io) ==
               match s.loops[k].batch[0]
               case Establish(_) => Establishing(t, c)
               case SendLater(_, message) => SendNow(t, c, message, io)
               case ShutdownLater(_) => Ok(ShutdownNow(t, c))
               case ForceClose(_) =>
                 if t.conns[c].state == Connected || t.conns[c].state == Disconnecting then CloseConn(t, c) else Ok(t)
               case WriteComplete(_) => Ok(t)
               case HighWater(_, _) => Ok(t)
               case Remove(_) => RemoveConn(t, c)
               case DestroyConn(_) => DestroyNow(t, k, c)
  {
  }

  lemma ForceCloseKeepsInv(s: State, k: LoopId, c: ConnId)
    requires Inv(s) && AtRest(s, k) && s.loops[k].phase == Calling && c in s.conns && s.conns[c].loop == k
    ensures s.Known(c)
    ensures s.conns[c].state == Connected || s.conns[c].state == Disconnecting ==>
              CloseConn(s, c).Ok? && Inv(CloseConn(s, c).state)
  {
    OneConn(s, c);
    if s.conns[c].stage == Open {
      CloseConnKeepsInv(s, c);
    }
  }

  lemma RunningPlainKeepsInv(s: State, k: LoopId, io: Io)
    requires Inv(s) && AtRest(s, k) && s.loops[k].phase == Calling
    requires HasFunctor(s, k) && IoFits(s, k, io) && s.loops[k].batch[0].Plain()
    ensures RunningFunctor(s, k, io).Ok? && Inv(RunningFunctor(s, k, io).state)
  {
    FunctorFindsConn(s, k);
    RunningFunctorIs(s, k, io);
    PopPlainKeepsInv(s, k);
    var f, t := s.loops[k].batch[0], PopFunctor(s, k);
    match f
    case SendLater(c, message) => SendNowKeepsInv(t, c, message, io);
    case ShutdownLater(c) => ShutdownNowKeepsInv(t, c);
    case ForceClose(c) => ForceCloseKeepsInv(t, k, c);
    case WriteComplete(_) =>
    case HighWater(_, _) =>
  }

  lemma PopEstablish(s: State, k: LoopId, c: ConnId)
    requires Inv(s) && k < |s.loops| && s.loops[k].phase == Calling && s.loops[k].batch != []
    requires s.loops[k].batch[0] == Establish(c)
    ensures var t := PopFunctor(s, k); t.Known(c) && Establishing(t, c).Ok? && Inv(Establishing(t, c).state)
  {
    PopLast(s, k, c);
    EstablishingKeepsInv(PopFunctor(s, k), c);
  }

  lemma PopDestroy(s: State, k: LoopId, c: ConnId)
    requires Inv(s) && k < |s.loops| && s.loops[k].phase == Calling && s.loops[k].batch != []
    requires s.loops[k].batch[0] == DestroyConn(c)
    ensures var t := PopFunctor(s, k); t.Known(c) && DestroyNow(t, k, c).Ok? && Inv(DestroyNow(t, k, c).state)
  {
    PopLast(s, k, c);
    DestroyNowKeepsInv(PopFunctor(s, k), k, c);
  }

  lemma PopRemoval(s: State, k: LoopId, c: ConnId)
    requires Inv(s) && k < |s.loops| && s.loops[k].phase == Calling && s.loops[k].batch != []
    requires s.loops[k].batch[0] == Remove(c)
    ensures var t := PopFunctor(s, k); t.Known(c) && RemoveConn(t, c).Ok? && Inv(RemoveConn(t, c).state)
  {
    PopRemove(s, k, c);
    RemoveConnKeepsInv(PopFunctor(s, k), c);
  }

  lemma RunningFunctorKeepsInv(s: State, k: LoopId, io: Io)
    requires Inv(s) && AtRest(s, k) && s.loops[k].phase == Calling && HasFunctor(s, k) && IoFits(s, k, io)
    ensures RunningFunctor(s, k, io).Ok? && Inv(RunningFunctor(s, k, io).state)
  {
    FunctorFindsConn(s, k);
    RunningFunctorIs(s, k, io);
    match s.loops[k].batch[0]
    case Establish(c) => PopEstablish(s, k, c);
    case Remove(c) => PopRemoval(s, k, c);
    case DestroyConn(c) => PopDestroy(s, k, c);
    case _ => RunningPlainKeepsInv(s, k, io);
  }

  lemma HeldQueueMap(s: State, held: set<ConnId>)
    requires QueueInv(s) && MapInv(s)
    ensures QueueInv(s.(held := held)) && MapInv(s.(held := held))
  {
    var t := s.(held := held);
    forall k, c | 0 <= k < |t.loops| ensures MineOk(t, k, c) {
      assert MineOk(s, k, c);
    }
    forall c | c in t.conns ensures t.InMap(c) <==> Mapped(t.conns[c].stage) {
      assert s.InMap(c) <==> Mapped(s.conns[c].stage);
    }
  }

  lemma HeldLoops(s: State, held: set<ConnId>)
    requires WorldsInv(s) && LoopsInv(s)
    ensures WorldsInv(s.(held := held)) && LoopsInv(s.(held := held))
  {
    var t := s.(held := held);
    forall k | 0 <= k < |t.loops| ensures LoopInv(t, k) && LoopWorldInv(t, k) {
      assert LoopInv(s, k) && LoopWorldInv(s, k);
      SamePhase(s, t, k, s.loops[k].phase);
    }
    forall c | c in t.conns ensures t.Known(c) && ChanOk(t.conns[c], t.Chan(c)) {
      assert s.Known(c) && ChanOk(s.conns[c], s.Chan(c));
    }
  }

  lemma HeldKeepsInv(s: State, held: set<ConnId>)
    requires Inv(s)
    ensures Inv(s.(held := held))
  {
    HeldQueueMap(s, held);
    HeldLoops(s, held);
  }

  lemma FinishCloseIs(s: State, k: LoopId, c: ConnId)
    requires k < |s.loops| && s.loops[k].closing == Some(c) && s.Known(c)
    ensures Step(s, FinishClose(k)) == FinishClosing(s, k, c)
  {
    assert LoopOwns(s.loops[k], c);
  }

  lemma FinishCloseKeepsInv(s: State, k: LoopId)
    requires Inv(s)
    ensures Step(s, FinishClose(k)).Ok? && Inv(Step(s, FinishClose(k)).state)
  {
    if k < |s.loops| && s.loops[k].closing.Some? {
      var c := s.loops[k].closing.value;
      FinishClosingKeepsInv(s, k, c);
      FinishCloseIs(s, k, c);
    }
  }

  lemma HandlingStepKeepsInv(s: State, e: Event)
    requires Inv(s) && Benign(e) && (e.Poll? || e.NextChannel? || e.RunCallback? || e.EndHandling?)
    ensures Step(s, e).Ok? && Inv(Step(s, e).state)
  {
    var k := e.l;
    if AtRest(s, k) {
      var phase := s.loops[k].phase;
      match e
      case Poll(_, ready) => if phase == AtPoll && PossibleReady(s.loops[k].world, ready) { PollKeepsInv(s, k, ready); }
      case NextChannel(_) => if phase.Handling? && phase.callbacks == [] && phase.active != [] { NextChannelKeepsInv(s, k); }
      case RunCallback(_, n) => if HasCallback(s, k) && WriteFits(s, k, n) { RunningCallbackKeepsInv(s, k, n); }
      case EndHandling(_) => if phase.Handling? { EndHandlingKeepsInv(s, k); }
    }
  }

  lemma CallingStepKeepsInv(s: State, e: Event)
    requires Inv(s) && (e.RunFunctor? || e.EndBatch?)
    ensures Step(s, e).Ok? && Inv(Step(s, e).state)
  {
    var k := e.l;
    if AtRest(s, k) && s.loops[k].phase == Calling {
      if s.loops[k].batch == [] {
        EndBatchKeepsInv(s, k);
      } else if e.RunFunctor? && IoFits(s, k, e.io) {
        RunningFunctorKeepsInv(s, k, e.io);
      }
    }
  }

  /** No step of any thread fails an assertion or touches a destroyed connection, and every
      step keeps the invariant. */
  lemma StepKeepsInv(s: State, e: Event)
    requires Inv(s) && Benign(e)
    ensures Step(s, e).Ok? && Inv(Step(s, e).state)
  {
    match e
    case Accept(fd) => if s.nextConnId <= INT_MAX && FdFree(s, fd) { AcceptKeepsInv(s, fd); }
    case FinishClose(k) => FinishCloseKeepsInv(s, k);
    case Call(thread, c, call) => if c in s.conns { UserStepKeepsInv(s, c, call, thread == Some(s.conns[c].loop)); }
    case Hold(c) => HeldKeepsInv(s, s.held + {c});
    case Release(c) => HeldKeepsInv(s, s.held - {c});
    case RunFunctor(_, _) => CallingStepKeepsInv(s, e);
    case EndBatch(_) => CallingStepKeepsInv(s, e);
    case _ => HandlingStepKeepsInv(s, e);
  }
}
