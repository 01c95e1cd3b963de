/** The assertions bind: each operation fails exactly when the state is one that the source asserts
    it is not.  `NoRunAborts` says that no run in order gets there. */
module LifecycleAsserts {
  import opened Lifecycle
  import opened Polling

  /** The poller of connection c's loop agrees with the kernel and may take an update of it. */
  ghost predicate InPoller(s: State, c: ConnId) {
    s.Known(c) && Agrees(s.loops[s.conns[c].loop].world) && MayUpdate(s.loops[s.conns[c].loop].world, c)
  }

  /** connectEstablished asserts Connecting, and handleClose Connected or Disconnecting. */
  lemma StateAssertions(s: State, c: ConnId)
    requires InPoller(s, c)
    ensures Establishing(s, c).Ok? <==> s.conns[c].state == Connecting
    ensures CloseConn(s, c).Ok? <==> s.conns[c].state == Connected || s.conns[c].state == Disconnecting
  {
    SetMaskEffect(s.loops[s.conns[c].loop].world, c, s.Chan(c).events | READ_EVENT);
    SetMaskEffect(s.loops[s.conns[c].loop].world, c, NONE_EVENT);
  }

  /** removeConnectionInLoop asserts that it erased the name. */
  lemma MapAssertion(s: State, c: ConnId)
    requires s.Known(c)
    ensures RemoveConn(s, c).Ok? <==> s.Name(c) in s.connections
  {
  }

  /** connectDestroyed asserts, as the model has it, a loop that is not handling events, and, of a
      connection that is not Connected, a channel that was added and has no interest. */
  lemma RemovalAssertions(s: State, k: LoopId, c: ConnId)
    requires InPoller(s, c) && k < |s.loops|
    ensures DestroyNow(s, k, c).Ok? <==>
            && !s.loops[k].phase.Handling?
            && (s.conns[c].state != Connected ==> s.Chan(c).events == 0 && s.Chan(c).index != KNew)
  {
    var w := s.loops[s.conns[c].loop].world;
    var ch := UpdatedChan(w.chans[c], NONE_EVENT);
    SetMaskEffect(w, c, NONE_EVENT);
    UpdatedAgrees(w, c, ch);
    DetachEffect(w, c);
    DetachEffect(Updated(w, c, ch), c);
  }

  /** Functors and callbacks assert their thread and need a connection that exists; so do dispatch
      and the close callback. */
  lemma ThreadAndLifetime(s: State, k: LoopId, io: Io, n: int)
    ensures HasFunctor(s, k) && IoFits(s, k, io) && RunningFunctor(s, k, io).Ok? ==>
              var f := s.loops[k].batch[0];
              && f.c in s.conns && Alive(s, f.c)
              && (f.Remove? ==> k == 0) && (!f.Remove? && !f.WriteComplete? && !f.HighWater? ==> k == s.conns[f.c].loop)
    ensures HasCallback(s, k) && WriteFits(s, k, n) && RunningCallback(s, k, n).Ok? ==>
              var c := s.loops[k].phase.current;
              c in s.conns && Alive(s, c) && (s.loops[k].phase.callbacks[0] != ErrorCb ==> k == s.conns[c].loop)
    ensures && AtRest(s, k) && s.loops[k].phase.Handling? && s.loops[k].phase.callbacks == []
            && s.loops[k].phase.active != [] && Step(s, NextChannel(k)).Ok? ==>
              Alive(s, s.loops[k].phase.active[0].c)
    ensures k < |s.loops| && s.loops[k].closing.Some? && Step(s, FinishClose(k)).Ok? ==>
              s.loops[k].closing.value in s.conns && Alive(s, s.loops[k].closing.value)
  {
  }
}
