/** The objects of net/TcpConnection.cpp and net/TcpServer.cpp, updated in place.  `Valid` ties a
    connection to its channel and its poller, and the server's map to its connections; the
    assertions of the operations are proved from it.  Each method is proved to do to its object
    what the life-cycle model does to the connection's record. */
module Connections {
  import opened Endian
  import opened EventLoops
  import opened Lifecycle
  import opened LifecycleInv
  import opened LifecycleProof
  import opened LifecycleTraffic
  import opened Names
  import opened Polling

  type IoLoop = EventLoop<Lifecycle.Functor>

  // ----- what each change of mask makes of a channel that suits its connection

  lemma EstablishedSuits(conn: Conn, ch: Chan)
    requires ConnInv(conn) && ChanOk(conn, ch) && conn.state == Connecting
    ensures ConnInv(Established(conn))
    ensures var after := UpdatedChan(ch, Changed(ch.events, EnableReading));
            after.events == READ_EVENT && ChanOk(Established(conn), after)
  {
    MaskBits();
  }

  lemma ClosedSuits(conn: Conn, ch: Chan)
    requires ConnInv(conn) && ChanOk(conn, ch) && (conn.state == Connected || conn.state == Disconnecting)
    ensures conn.stage == Open && ch.index == KAdded
    ensures ConnInv(ClosedConn(conn)) && ChanOk(ClosedConn(conn), Chan(conn.fd, NONE_EVENT, KDeleted, true))
  {
  }

  lemma HandedOnSuits(conn: Conn, ch: Chan)
    requires ConnInv(conn) && ChanOk(conn, ch) && conn.stage == Closing
    ensures var called := conn.(closes := conn.closes + 1);
            && ConnInv(Doomed(called)) && ChanOk(Doomed(called), ch)
            && (conn.loop != 0 ==> ConnInv(called.(stage := Removing)) && ChanOk(called.(stage := Removing), ch))
  {
  }

  lemma SentSuits(conn: Conn, ch: Chan, message: seq<Byte>, io: Io)
    requires ConnInv(conn) && ChanOk(conn, ch) && PossibleSend(io, message) && conn.stage == Open && conn.output == []
    ensures var (after, enable) := SendConn(conn, false, message, io);
            var asked := UpdatedChan(ch, Changed(ch.events, EnableWriting));
            && ConnInv(after) && ChanOk(after, if enable then asked else ch)
            && (enable ==> asked.events == READ_EVENT | WRITE_EVENT)
  {
    MaskBits();
    SendConnInv(conn, message, io);
  }

  lemma DrainedSuits(ch: Chan)
    requires ch.events == READ_EVENT | WRITE_EVENT && ch.index == KAdded
    ensures UpdatedChan(ch, Changed(ch.events, DisableWriting)) == Chan(ch.fd, READ_EVENT, KAdded, true)
  {
    MaskBits();
  }

  class TcpConnection {
    const id: ConnId
    const home: LoopId
    const fd: int
    const name: string
    const config: Config
    const loop: IoLoop
    const poller: Epoller
    const channel: Channel
    var state: ConnState
    var output: seq<Byte>
    ghost var put: seq<Byte>
    ghost var drained: seq<Byte>
    ghost var sent: seq<Byte>
    ghost var trace: seq<Note>
    ghost var closes: nat
    ghost var halfCloses: seq<HalfClose>
    ghost var destroys: nat
    ghost var stage: Stage

    ghost function Value(): Conn
      reads this
    {
      Conn(home, fd, state, output, put, drained, sent, trace, closes, halfCloses, destroys, stage)
    }

    /** The poller agrees with the kernel and has the channel as it is, the channel suits the
        connection, and until the end the poller may take an update of it. */
    ghost predicate Valid()
      reads this, channel, poller
    {
      && channel.fd == fd && ConnInv(Value()) && ChanOk(Value(), channel.Value())
      && poller.Valid() && channel.Registered(poller) && (stage != Gone ==> MayUpdate(poller.View(), channel))
    }

    predicate IsWriting()
      reads this, channel
    {
      channel.events & WRITE_EVENT != 0
    }

    /** Nothing is queued and nothing waits for the socket. */
    predicate Idle()
      reads this, channel
    {
      state != Disconnected && !IsWriting() && output == []
    }

    constructor (id: ConnId, home: LoopId, fd: int, name: string, config: Config, loop: IoLoop, poller: Epoller)
      requires poller.Valid() && fd !in poller.channels
      modifies poller`chans
      ensures Valid() && fresh(channel) && poller.chans == old(poller.chans)[channel := NewChan(fd)]
      ensures this.id == id && this.home == home && this.fd == fd && this.name == name && this.config == config
      ensures this.loop == loop && this.poller == poller
      ensures Value() == FirstRecord(home, fd)
    {
      this.id, this.home, this.fd, this.name, this.config := id, home, fd, name, config;
      this.loop, this.poller := loop, poller;
      state, output := Connecting, [];
      put, drained, sent, trace, closes, halfCloses, destroys, stage := [], [], [], [], 0, [], 0, Born;
      var ch := new Channel(fd);
      channel := ch;
      new;
      NewChannelAgrees(poller.View(), channel, fd);
      poller.chans := poller.chans[channel := NewChan(fd)];
    }

    static lemma NewChannelAgrees<C>(w: World<C>, c: C, fd: int)
      requires Agrees(w) && (c in w.chans ==> w.chans[c].index == KNew)
      ensures Agrees(w.(chans := w.chans[c := NewChan(fd)]))
    {
    }

    method ConnectEstablished()
      requires Valid() && state == Connecting
      modifies this, channel, poller
      ensures Valid() && Value() == Established(old(Value()))
      ensures state == Connected && trace == old(trace) + [Up] && output == old(output)
      ensures channel.events == READ_EVENT && poller.View() == Updated(old(poller.View()), channel, channel.Value())
    {
      EstablishedSuits(Value(), channel.Value());
      state := Connected;
      trace, stage := trace + [Up], Open;
      channel.SetInterest(EnableReading, poller);
    }

    /** channel_->disableAll() of a watched channel. */
    method StopWatching()
      requires channel.fd == fd && channel.index == KAdded
      requires poller.Valid() && channel.Registered(poller) && MayUpdate(poller.View(), channel)
      modifies channel, poller
      ensures poller.Valid() && channel.Registered(poller) && MayUpdate(poller.View(), channel)
      ensures channel.Value() == Chan(fd, NONE_EVENT, KDeleted, true)
      ensures poller.View() == Updated(old(poller.View()), channel, channel.Value())
    {
      channel.SetInterest(DisableAll, poller);
    }

    /** setState, and what the connection callback will report. */
    method MarkClosed()
      modifies this`state, this`trace, this`stage
      ensures Value() == ClosedConn(old(Value()))
    {
      state := Disconnected;
      trace, stage := trace + [Down], Closing;
    }

    /** Up to the close callback. */
    method HandleClose()
      requires Valid() && (state == Connected || state == Disconnecting)
      modifies this, channel, poller
      ensures Valid() && Value() == ClosedConn(old(Value()))
      ensures state == Disconnected && trace == old(trace) + [Down] && output == old(output)
      ensures channel.events == NONE_EVENT && poller.View() == Updated(old(poller.View()), channel, channel.Value())
    {
      ClosedSuits(Value(), channel.Value());
      MarkClosed();
      assert poller.Valid() && channel.Registered(poller) && MayUpdate(poller.View(), channel);
      StopWatching();
    }

    method ForceCloseInLoop() returns (closed: bool)
      requires Valid()
      modifies this, channel, poller
      ensures Valid() && closed == (old(state) == Connected || old(state) == Disconnecting)
      ensures closed ==> Value() == ClosedConn(old(Value())) && channel.events == NONE_EVENT
      ensures !closed ==>
                Value() == old(Value()) && channel.Value() == old(channel.Value()) && poller.View() == old(poller.View())
    {
      closed := state == Connected || state == Disconnecting;
      if closed {
        HandleClose();
      }
    }

    /** What a connection that is not writing has drained. */
    lemma NotWriting()
      requires Valid()
      ensures IsWriting() <==> stage == Open && output != []
    {
      MaskBits();
    }

    method ShutdownInLoop()
      requires Valid()
      modifies this`halfCloses
      ensures Valid() && Value() == if IsWriting() then old(Value()) else HalfClosed(old(Value()))
      ensures halfCloses == old(halfCloses) + if IsWriting() then [] else [HalfClose(state, output)]
    {
      if !IsWriting() {
        NotWriting();
        HalfCloseInv(Value());
        halfCloses := halfCloses + [HalfClose(state, output)];
      }
    }

    /** The callbacks that an idle connection's sendInLoop queues. */
    method QueueNotices(message: seq<Byte>, io: Io)
      requires Idle()
      modifies loop`pendingFunctors, loop`counter
      ensures loop.pendingFunctors == old(loop.pendingFunctors) + SendNotices(config, id, Value(), IsWriting(), message, io)
    {
      if io.n == 0 && config.writeComplete {
        loop.QueueInLoop(WriteComplete(id), true);
      }
      var oldLen, remaining := |output|, |message|;
      if !io.fault && remaining > 0 && config.highWater
         && oldLen + remaining >= config.highWaterMark && oldLen < config.highWaterMark {
        loop.QueueInLoop(HighWater(id, oldLen + remaining), true);
      }
    }

    /** The record of an idle connection after write(2): append(message + nwrote, remaining), where
        `remaining` is still the whole length. */
    method WriteOrAppend(message: seq<Byte>, io: Io) returns (enable: bool)
      requires Idle() && PossibleSend(io, message)
      modifies this`output, this`put, this`sent
      ensures (Value(), enable) == SendConn(old(Value()), false, message, io)
    {
      var nwrote := if io.n < 0 then 0 else io.n;
      sent := sent + message[..nwrote];
      enable := !io.fault && message != [];
      if enable {
        assert (message + io.beyond)[nwrote..nwrote + |message|] == Appended(io, message);
        output := output + (message + io.beyond)[nwrote..nwrote + |message|];
        put := put + Appended(io, message);
      }
    }

    /** Called by `send`, at once or as a functor.  `io` is what write(2) did, if it is called, and
        what follows the message in memory.  The `send` overload without a state check may come
        before connectEstablished: the poller keeps its agreement with the kernel, but watches a
        connection that is not established. */
    method SendInLoop(message: seq<Byte>, io: Io)
      requires Valid() && (Idle() ==> PossibleSend(io, message))
      modifies this, channel, poller, loop`pendingFunctors, loop`counter
      ensures old(state) != Connecting ==> Valid()
      ensures poller.Valid() && channel.Registered(poller) && (stage != Gone ==> MayUpdate(poller.View(), channel))
      ensures !old(Idle()) ==>
                && Value() == old(Value()) && channel.Value() == old(channel.Value())
                && poller.View() == old(poller.View()) && loop.pendingFunctors == old(loop.pendingFunctors)
      ensures old(Idle()) ==>
                && sent == old(sent) + TakenAtOnce(message, io) && output == LeftOver(message, io)
                && put == old(put) + LeftOver(message, io)
      ensures old(Idle()) ==>
                var (conn, enable) := SendConn(old(Value()), false, message, io);
                && Value() == conn
                && loop.pendingFunctors == old(loop.pendingFunctors)
                     + (if io.n == 0 && config.writeComplete then [WriteComplete(id)] else [])
                     + (if && !io.fault && message != [] && config.highWater && 0 < config.highWaterMark <= |message|
                        then [HighWater(id, |message|)] else [])
                && channel.events == (if enable then old(channel.events) | WRITE_EVENT else old(channel.events))
                && poller.View() ==
                   if enable then Updated(old(poller.View()), channel, channel.Value()) else old(poller.View())
    {
      if state != Disconnected && !IsWriting() && output == [] {
        NotWriting();
        IdleRecord(Value(), message, io);
        IdleNotices(config, id, Value(), message, io, loop.pendingFunctors);
        if stage == Open {
          SentSuits(Value(), channel.Value(), message, io);
        }
        QueueNotices(message, io);
        var enable := WriteOrAppend(message, io);
        if enable {
          channel.SetInterest(EnableWriting, poller);
        }
      }
    }

    /** handleWrite once the output is empty. */
    method OutputDone()
      requires channel.fd == fd && ConnInv(Value()) && stage == Open && output == []
      requires poller.Valid() && channel.Registered(poller) && MayUpdate(poller.View(), channel)
      requires channel.Value() == Chan(fd, READ_EVENT | WRITE_EVENT, KAdded, true)
      modifies this`halfCloses, channel, poller, loop`pendingFunctors, loop`counter
      ensures Valid() && Value() == if state == Disconnecting then HalfClosed(old(Value())) else old(Value())
      ensures halfCloses == old(halfCloses) + if state == Disconnecting then [HalfClose(Disconnecting, [])] else []
      ensures channel.events == READ_EVENT && poller.View() == Updated(old(poller.View()), channel, channel.Value())
      ensures loop.pendingFunctors == old(loop.pendingFunctors) + if config.writeComplete then [WriteComplete(id)] else []
    {
      DrainedSuits(channel.Value());
      channel.SetInterest(DisableWriting, poller);
      if config.writeComplete {
        loop.QueueInLoop(WriteComplete(id), true);
      }
      if state == Disconnecting {
        ShutdownInLoop();
      }
    }

    /** `n` is what write(2) returned, if it is called. */
    method HandleWrite(n: int)
      requires Valid() && (IsWriting() ==> n <= |output|)
      modifies this, channel, poller, loop`pendingFunctors, loop`counter
      ensures Valid()
      ensures !old(IsWriting()) || n <= 0 ==> Value() == old(Value())
      ensures old(IsWriting()) && n > 0 ==>
                && output == old(output)[n..] && drained == old(drained) + old(output)[..n]
                && sent == old(sent) + old(output)[..n] && put == old(put)
                && state == old(state) && trace == old(trace) && closes == old(closes)
      ensures halfCloses == old(halfCloses)
                + if old(IsWriting()) && 0 < n == |old(output)| && state == Disconnecting
                  then [HalfClose(Disconnecting, [])] else []
      ensures old(IsWriting()) && 0 < n == |old(output)| ==>
                && channel.events == READ_EVENT && poller.View() == Updated(old(poller.View()), channel, channel.Value())
                && loop.pendingFunctors ==
                   old(loop.pendingFunctors) + if config.writeComplete then [WriteComplete(id)] else []
      ensures !(old(IsWriting()) && 0 < n == |old(output)|) ==>
                && channel.Value() == old(channel.Value()) && poller.View() == old(poller.View())
                && loop.pendingFunctors == old(loop.pendingFunctors)
    {
      NotWriting();
      if IsWriting() {
        if n > 0 {
          DrainInv(Value(), n);
          drained, sent := drained + output[..n], sent + output[..n];
          output := output[n..];
          if output == [] {
            OutputDone();
          }
        } else if state == Disconnecting {
          ShutdownInLoop();
        }
      }
    }

    /** The state-checked `send` overloads. */
    method Send(message: seq<Byte>, io: Io, isInLoopThread: bool)
      requires Valid() && (state == Connected && isInLoopThread && Idle() ==> PossibleSend(io, message))
      modifies this, channel, poller, loop`pendingFunctors, loop`counter
      ensures Valid()
      ensures old(state) == Connected && isInLoopThread && old(Idle()) ==>
                && Value() == SendConn(old(Value()), false, message, io).0
                && sent == old(sent) + TakenAtOnce(message, io) && output == LeftOver(message, io)
      ensures old(state) == Connected && isInLoopThread && old(Idle()) ==>
                loop.pendingFunctors ==
                old(loop.pendingFunctors) + SendNotices(config, id, old(Value()), false, message, io)
      ensures !(old(state) == Connected && isInLoopThread && old(Idle())) ==>
                && Value() == old(Value()) && channel.Value() == old(channel.Value())
                && loop.pendingFunctors == old(loop.pendingFunctors)
                     + if old(state) == Connected && !isInLoopThread then [SendLater(id, message)] else []
    {
      if state == Connected {
        if isInLoopThread {
          if Idle() { IdleNotices(config, id, Value(), message, io, loop.pendingFunctors); }
          SendInLoop(message, io);
        } else {
          var inline := loop.RunInLoop(SendLater(id, message), false);
        }
      }
    }

    method Shutdown(isInLoopThread: bool)
      requires Valid()
      modifies this`state, this`halfCloses, loop`pendingFunctors, loop`counter
      ensures Valid()
      ensures old(state) != Connected ==> Value() == old(Value()) && loop.pendingFunctors == old(loop.pendingFunctors)
      ensures old(state) == Connected ==>
                var conn := old(Value()).(state := Disconnecting);
                && Value() == conn.(halfCloses := old(halfCloses)
                     + if isInLoopThread && !IsWriting() then [HalfClose(Disconnecting, output)] else [])
                && loop.pendingFunctors ==
                   old(loop.pendingFunctors) + if isInLoopThread then [] else [ShutdownLater(id)]
    {
      if state == Connected {
        state := Disconnecting;
        if isInLoopThread {
          ShutdownInLoop();
        } else {
          var inline := loop.RunInLoop(ShutdownLater(id), false);
        }
      }
    }

    method ForceClose(isInLoopThread: bool)
      requires Valid()
      modifies this`state, loop`pendingFunctors, loop`counter
      ensures Valid()
      ensures var passed := old(state) == Connected || old(state) == Disconnecting;
              && Value() == (if passed then old(Value()).(state := Disconnecting) else old(Value()))
              && loop.pendingFunctors == old(loop.pendingFunctors) + if passed then [Lifecycle.ForceClose(id)] else []
    {
      if state == Connected || state == Disconnecting {
        state := Disconnecting;
        loop.QueueInLoop(Lifecycle.ForceClose(id), isInLoopThread);
      }
    }

    /** A connection that was never closed is reported down. */
    method ReportDown()
      requires Valid() && state == Connected
      modifies this`state, this`trace, channel, poller
      ensures Value() == old(Value()).(state := Disconnected, trace := old(trace) + [Down])
      ensures poller.Valid() && channel.Registered(poller) && channel.Value() == Chan(fd, NONE_EVENT, KDeleted, true)
    {
      ClosedSuits(Value(), channel.Value());
      state := Disconnected;
      trace := trace + [Down];
      StopWatching();
    }

    /** The assertions down to Epoller::removeChannel hold of a connection that is Connected, or
        closed and not destroyed before. */
    method ConnectDestroyed()
      requires Valid() && (state == Connected || state == Disconnected) && stage != Gone
      modifies this, channel, poller
      ensures Value() == DestroyedConn(old(Value())) && channel.Value() == NewChan(fd)
      ensures state == Disconnected && trace == old(trace) + if old(state) == Connected then [Down] else []
      ensures poller.Valid() && fd !in poller.kernel && fd !in poller.channels
      ensures old(stage) == Destroying ==> Valid()
    {
      if state == Connected {
        ReportDown();
      }
      stage := Gone;
      channel.Remove(poller);
    }
  }

  class TcpServer {
    const config: Config
    const pool: EventLoopThreadPool
    const ioLoops: seq<IoLoop>      // ioLoops[0] is the base loop
    const pollers: seq<Epoller>
    var connections: map<string, TcpConnection>
    var nextConnId: nat
    ghost var accepted: set<TcpConnection>
    ghost var erased: set<TcpConnection>

    /** Ids are handed out once, and names are built from them. */
    ghost predicate Named()
      reads this`nextConnId, this`accepted
    {
      && |config.ipPort| <= 51 && 1 <= nextConnId <= INT_MAX + 1
      && (forall c :: c in accepted ==>
            1 <= c.id < nextConnId && c.name == ConnName(config.server, config.ipPort, c.id)
            && c.home < |ioLoops| && c.loop == ioLoops[c.home])
      && (forall c, d :: c in accepted && d in accepted && c.id == d.id ==> c == d)
    }

    /** The map holds exactly the accepted connections that have not been erased. */
    ghost predicate Mapping()
      reads this
    {
      && erased <= accepted
      && (forall n :: n in connections ==> connections[n] in accepted && connections[n].name == n)
      && (forall c :: c in accepted ==> (c !in erased <==> c.name in connections && connections[c.name] == c))
    }

    ghost predicate Valid()
      reads this, pool
    {
      && pool.Valid() && |ioLoops| == |pollers| == 1 + |pool.loops|
      && (forall i :: 0 <= i < |pool.loops| ==> pool.loops[i] == 1 + i)
      && Named() && Mapping()
    }

    constructor (config: Config, pool: EventLoopThreadPool, ioLoops: seq<IoLoop>, pollers: seq<Epoller>)
      requires |config.ipPort| <= 51 && pool.Valid() && |ioLoops| == |pollers| == 1 + |pool.loops|
      requires forall i :: 0 <= i < |pool.loops| ==> pool.loops[i] == 1 + i
      ensures Valid() && this.config == config && this.pool == pool && connections == map[] && nextConnId == 1
    {
      this.config, this.pool, this.ioLoops, this.pollers := config, pool, ioLoops, pollers;
      connections, nextConnId, accepted, erased := map[], 1, {}, {};
    }

    function Base(): IoLoop
      requires |ioLoops| > 0
    {
      ioLoops[0]
    }

    /** The loop the next connection will get. */
    ghost function NextHome(): (k: LoopId)
      requires Valid()
      reads this, pool
      ensures k < |ioLoops|
    {
      if |pool.loops| == 0 then 0 else 1 + pool.calls % |pool.loops|
    }

    ghost function NextLoop(): IoLoop
      requires Valid()
      reads this, pool
    {
      ioLoops[NextHome()]
    }

    ghost function NextPoller(): Epoller
      requires Valid()
      reads this, pool
    {
      pollers[NextHome()]
    }

    /** No accepted connection has the next name. */
    lemma NextNameIsNew()
      requires Named() && nextConnId <= INT_MAX
      ensures forall c :: c in accepted ==> c.name != ConnName(config.server, config.ipPort, nextConnId)
    {
      forall c | c in accepted ensures c.name != ConnName(config.server, config.ipPort, nextConnId) {
        NamesInjective(config.server, config.ipPort, c.id, nextConnId);
      }
    }

    lemma NamesDiffer(conn: TcpConnection)
      requires Named() && conn in accepted
      ensures forall c :: c in accepted && c.name == conn.name ==> c == conn
    {
      forall c | c in accepted && c.name == conn.name ensures c == conn {
        NamesInjective(config.server, config.ipPort, c.id, conn.id);
      }
    }

    /** The new connection enters the map under its name. */
    method Enter(conn: TcpConnection)
      requires Valid() && nextConnId <= INT_MAX && conn !in accepted && conn.id == nextConnId
      requires conn.name == ConnName(config.server, config.ipPort, nextConnId)
      requires conn.home < |ioLoops| && conn.loop == ioLoops[conn.home]
      modifies this`connections, this`nextConnId, this`accepted
      ensures Valid() && nextConnId == old(nextConnId) + 1 && accepted == old(accepted) + {conn}
      ensures connections == old(connections)[conn.name := conn] && conn.name !in old(connections)
    {
      NextNameIsNew();
      assert conn.name !in connections;
      nextConnId := nextConnId + 1;
      connections := connections[conn.name := conn];
      accepted := accepted + {conn};
      assert Named();
    }

    /** newConnection up to its runInLoop. */
    method Create(fd: int) returns (conn: TcpConnection)
      requires Valid() && nextConnId <= INT_MAX && NextPoller().Valid() && fd !in NextPoller().channels
      modifies this, pool, NextPoller()`chans
      ensures Valid() && fresh(conn) && conn.Valid() && conn.Value() == FirstRecord(old(NextHome()), fd)
      ensures conn.id == old(nextConnId) && nextConnId == old(nextConnId) + 1 && accepted == old(accepted) + {conn}
      ensures connections == old(connections)[conn.name := conn] && conn.name !in old(connections)
      ensures pool.calls == old(pool.calls) + 1
      ensures conn.home == old(NextHome()) && conn.loop == old(NextLoop()) && conn.poller == old(NextPoller())
    {
      var k := pool.GetNextLoop();
      var name := ConnName(config.server, config.ipPort, nextConnId);
      conn := new TcpConnection(nextConnId, k, fd, name, config, ioLoops[k], pollers[k]);
      Enter(conn);
    }

    /** The whole of newConnection; `inline` asks for connectEstablished at once when the
        connection's loop is the base loop. */
    method NewConnection(fd: int) returns (conn: TcpConnection, inline: seq<Lifecycle.Functor>)
      requires Valid() && nextConnId <= INT_MAX && NextPoller().Valid() && fd !in NextPoller().channels
      modifies this, pool, NextPoller()`chans, NextLoop()`pendingFunctors, NextLoop()`counter
      ensures Valid() && fresh(conn) && conn.Valid() && conn.Value() == FirstRecord(old(NextHome()), fd)
      ensures conn.id == old(nextConnId) && nextConnId == old(nextConnId) + 1 && accepted == old(accepted) + {conn}
      ensures connections == old(connections)[conn.name := conn] && conn.name !in old(connections)
      ensures pool.calls == old(pool.calls) + 1
      ensures inline == if old(NextHome()) == 0 then [Establish(conn.id)] else []
      ensures conn.loop == old(NextLoop()) && conn.poller == old(NextPoller())
      ensures conn.loop.pendingFunctors + inline == old(NextLoop().pendingFunctors) + [Establish(conn.id)]
    {
      conn := Create(fd);
      inline := conn.loop.RunInLoop(Establish(conn.id), conn.home == 0);
    }

    /** The assertion n == 1 holds of a connection that has not been erased before. */
    method RemoveConnectionInLoop(conn: TcpConnection)
      requires Valid() && conn in accepted && conn !in erased
      modifies this`connections, this`erased, conn`destroys, conn`stage, conn.loop`pendingFunctors, conn.loop`counter
      ensures Valid() && erased == old(erased) + {conn}
      ensures conn.name in old(connections) && connections == old(connections) - {conn.name}
      ensures conn.Value() == Doomed(old(conn.Value()))
      ensures conn.loop.pendingFunctors == old(conn.loop.pendingFunctors) + [DestroyConn(conn.id)]
    {
      NamesDiffer(conn);
      assert conn.name in connections;
      connections, erased := connections - {conn.name}, erased + {conn};
      conn.destroys, conn.stage := conn.destroys + 1, Destroying;
      conn.loop.QueueInLoop(DestroyConn(conn.id), conn.home == 0);
    }

    /** The close callback on the base loop. */
    method RemoveAtOnce(conn: TcpConnection)
      requires Valid() && conn in accepted && conn !in erased && conn.Valid() && conn.stage == Closing && conn.home == 0
      modifies this`connections, this`erased, conn`destroys, conn`stage, conn`closes
      modifies Base()`pendingFunctors, Base()`counter
      ensures Valid() && conn.Valid() && connections == old(connections) - {conn.name}
      ensures conn.Value() == Doomed(old(conn.Value()).(closes := old(conn.closes) + 1))
      ensures Base().pendingFunctors == old(Base().pendingFunctors) + [DestroyConn(conn.id)]
    {
      HandedOnSuits(conn.Value(), conn.channel.Value());
      conn.closes := conn.closes + 1;
      RemoveConnectionInLoop(conn);
    }

    /** The close callback on an I/O loop. */
    method RemoveLater(conn: TcpConnection)
      requires Valid() && conn in accepted && conn !in erased && conn.Valid() && conn.stage == Closing && conn.home != 0
      modifies conn`stage, conn`closes, Base()`pendingFunctors, Base()`counter
      ensures Valid() && conn.Valid()
      ensures conn.Value() == old(conn.Value()).(closes := old(conn.closes) + 1, stage := Removing)
      ensures Base().pendingFunctors == old(Base().pendingFunctors) + [Lifecycle.Remove(conn.id)]
    {
      HandedOnSuits(conn.Value(), conn.channel.Value());
      conn.closes, conn.stage := conn.closes + 1, Removing;
      var inline := Base().RunInLoop(Lifecycle.Remove(conn.id), false);
    }

    /** The close callback, from the connection's own loop. */
    method RemoveConnection(conn: TcpConnection)
      requires Valid() && conn in accepted && conn !in erased && conn.Valid() && conn.stage == Closing
      modifies this`connections, this`erased, conn`destroys, conn`stage, conn`closes
      modifies Base()`pendingFunctors, Base()`counter
      ensures Valid() && conn.Valid()
      ensures conn.home == 0 ==>
                && connections == old(connections) - {conn.name}
                && conn.Value() == Doomed(old(conn.Value()).(closes := old(conn.closes) + 1))
                && Base().pendingFunctors == old(Base().pendingFunctors) + [DestroyConn(conn.id)]
      ensures conn.home != 0 ==>
                && connections == old(connections)
                && conn.Value() == old(conn.Value()).(closes := old(conn.closes) + 1, stage := Removing)
                && Base().pendingFunctors == old(Base().pendingFunctors) + [Lifecycle.Remove(conn.id)]
    {
      if conn.home == 0 {
        RemoveAtOnce(conn);
      } else {
        RemoveLater(conn);
      }
    }

    /** The whole of handleClose, close callback included: the connection's assertion and the
        server's both hold. */
    method CloseConnection(conn: TcpConnection)
      requires Valid() && conn in accepted && conn !in erased
      requires conn.Valid() && (conn.state == Connected || conn.state == Disconnecting)
      modifies this`connections, this`erased, conn, conn.channel, conn.poller, Base()`pendingFunctors, Base()`counter
      ensures Valid() && conn.Valid() && conn.state == Disconnected && conn.closes == 1 && conn.trace == [Up, Down]
      ensures conn.name in connections <==> conn.home != 0
      ensures Base().pendingFunctors == old(Base().pendingFunctors)
                + [if conn.home == 0 then DestroyConn(conn.id) else Lifecycle.Remove(conn.id)]
    {
      conn.HandleClose();
      RemoveConnection(conn);
    }
  }
}
