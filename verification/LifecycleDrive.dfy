/** Driving loop threads, from any state at all, until nothing mentions a given connection any
    more.  A step on the way may abort: the lemmas say that the run aborts or gets there. */
module LifecycleDrive {
  import opened Endian
  import opened Lifecycle
  import opened LifecycleLimits
  import opened LifecycleSteps
  import opened Machine
  import opened Polling
  import opened Seqs

  /** write(2) would block. */
  const WOULD_BLOCK: Io := Io(-1, false, [])

  /** The next step of loop thread k when nothing more arrives from outside. */
  function NextEvent(s: State, k: LoopId): Event
    requires k < |s.loops|
  {
    var l := s.loops[k];
    if l.closing.Some? then FinishClose(k)
    else
      match l.phase
      case AtPoll => Poll(k, [])
      case Handling(active, _, callbacks) =>
        if callbacks != [] then RunCallback(k, -1) else if active != [] then NextChannel(k) else EndHandling(k)
      case Calling => if l.batch != [] then RunFunctor(k, WOULD_BLOCK) else EndBatch(k)
  }

  // ----- how far connection c has been forgotten

  /** The functors of c that may still be queued at each level: at 1 no more sends and forced
      closes, at 2 no more removals, at 3 none. */
  predicate Allowed(f: Functor, c: ConnId, n: nat) {
    f.c == c ==>
      && (n >= 1 ==> !f.SendLater? && !f.ForceClose?)
      && (n >= 2 ==> !f.Remove?)
      && n < 3
  }

  predicate AllAllowed(fs: seq<Functor>, c: ConnId, n: nat) {
    forall i :: 0 <= i < |fs| ==> Allowed(fs[i], c, n)
  }

  /** The loop neither closes connection c nor is about to dispatch to it. */
  predicate Undisturbed(l: Loop, c: ConnId) {
    && l.closing != Some(c)
    && (l.phase.Handling? ==>
          && (forall i :: 0 <= i < |l.phase.active| ==> l.phase.active[i].c != c)
          && (l.phase.callbacks != [] ==> l.phase.current != c))
  }

  predicate Level(l: Loop, c: ConnId, n: nat) {
    && AllAllowed(l.batch, c, n) && AllAllowed(l.pending, c, n)
    && (n >= 1 ==> Undisturbed(l, c))
    && (n >= 3 ==> AllAllowed(l.ran, c, n))
  }

  predicate AllLevel(s: State, c: ConnId, n: nat) {
    forall k :: 0 <= k < |s.loops| ==> Level(s.loops[k], c, n)
  }

  // ----- what one operation leaves behind

  /** More is pending, of what level n allows; the loop is otherwise where it was. */
  predicate Extends(l: Loop, m: Loop, c: ConnId, n: nat) {
    && m.phase == l.phase && m.batch == l.batch && m.ran == l.ran && l.pending <= m.pending
    && forall i :: |l.pending| <= i < |m.pending| ==> Allowed(m.pending[i], c, n)
  }

  /** An operation of loop thread k. */
  predicate Worked(s: State, t: State, k: LoopId, c: ConnId, n: nat) {
    && |t.loops| == |s.loops| && t.held == s.held && k < |s.loops|
    && (forall j :: 0 <= j < |s.loops| ==> Extends(s.loops[j], t.loops[j], c, n))
    && (forall j :: 0 <= j < |s.loops| && j != k ==> t.loops[j].closing == s.loops[j].closing)
    && (n >= 2 && s.loops[k].closing != Some(c) ==> t.loops[k].closing != Some(c))
  }

  lemma NothingWorked(s: State, k: LoopId, c: ConnId, n: nat)
    requires k < |s.loops|
    ensures Worked(s, s, k, c, n)
  {
  }

  lemma EstablishingWorked(s: State, k: LoopId, d: ConnId, c: ConnId, n: nat)
    requires s.Known(d) && s.conns[d].loop == k && Establishing(s, d).Ok?
    ensures Worked(s, Establishing(s, d).state, k, c, n)
  {
  }

  lemma CloseWorked(s: State, k: LoopId, d: ConnId, c: ConnId, n: nat)
    requires s.Known(d) && s.conns[d].loop == k && CloseConn(s, d).Ok? && (n >= 2 ==> d != c)
    ensures Worked(s, CloseConn(s, d).state, k, c, n)
  {
  }

  lemma RemoveWorked(s: State, k: LoopId, d: ConnId, c: ConnId, n: nat)
    requires s.Known(d) && k < |s.loops| && RemoveConn(s, d).Ok? && (n >= 3 ==> d != c)
    ensures Worked(s, RemoveConn(s, d).state, k, c, n)
  {
  }

  lemma FinishWorked(s: State, k: LoopId, d: ConnId, c: ConnId, n: nat)
    requires s.Known(d) && k < |s.loops| && FinishClosing(s, k, d).Ok? && (n >= 2 ==> d != c)
    ensures Worked(s, FinishClosing(s, k, d).state, k, c, n) && FinishClosing(s, k, d).state.loops[k].closing == None
  {
  }

  lemma DestroyWorked(s: State, k: LoopId, d: ConnId, c: ConnId, n: nat)
    requires s.Known(d) && s.conns[d].loop == k && DestroyNow(s, k, d).Ok?
    ensures Worked(s, DestroyNow(s, k, d).state, k, c, n)
  {
  }

  lemma SendWorked(s: State, k: LoopId, d: ConnId, message: seq<Byte>, io: Io, c: ConnId, n: nat)
    requires s.Known(d) && s.conns[d].loop == k && PossibleSend(io, message) && SendNow(s, d, message, io).Ok?
    requires n >= 2 ==> d != c
    ensures Worked(s, SendNow(s, d, message, io).state, k, c, n)
  {
  }

  lemma WriteWorked(s: State, k: LoopId, d: ConnId, bytes: int, c: ConnId, n: nat)
    requires s.Known(d) && s.conns[d].loop == k && bytes <= |s.conns[d].output| && WriteReady(s, d, bytes).Ok?
    requires n >= 2 ==> d != c
    ensures Worked(s, WriteReady(s, d, bytes).state, k, c, n)
  {
  }

  // ----- one step of loop thread k

  /** The other loops only had functors queued. */
  predicate Aside(l: Loop, m: Loop) {
    m.phase == l.phase && m.closing == l.closing && m.batch == l.batch && m.ran == l.ran && l.pending <= m.pending
  }

  /** Levels n - 1 and n of the other loops, and level n - 1 of loop k, are as good as before. */
  predicate Kept(s: State, t: State, k: LoopId, c: ConnId, n: nat) {
    && n >= 1 && k < |s.loops| && |t.loops| == |s.loops| && t.held == s.held
    && (forall j :: 0 <= j < |s.loops| && j != k ==> Aside(s.loops[j], t.loops[j]))
    && (forall j :: 0 <= j < |s.loops| && j != k && Level(s.loops[j], c, n) ==> Level(t.loops[j], c, n))
    && (forall j :: 0 <= j < |s.loops| && Level(s.loops[j], c, n - 1) ==> Level(t.loops[j], c, n - 1))
  }

  lemma KeptTransitive(s: State, t: State, u: State, k: LoopId, c: ConnId, n: nat)
    requires Kept(s, t, k, c, n) && Kept(t, u, k, c, n)
    ensures Kept(s, u, k, c, n)
  {
    forall j | 0 <= j < |s.loops| && j != k ensures Aside(s.loops[j], u.loops[j]) {
      assert Aside(s.loops[j], t.loops[j]) && Aside(t.loops[j], u.loops[j]);
    }
  }

  lemma ExtendsLevel(l: Loop, m: Loop, c: ConnId, n: nat, at: nat)
    requires Extends(l, m, c, n) && at <= n && Level(l, c, at) && (at >= 1 ==> m.closing != Some(c))
    ensures Level(m, c, at)
  {
  }

  lemma WorkedKeeps(s: State, t: State, k: LoopId, c: ConnId, n: nat)
    requires Worked(s, t, k, c, n) && n >= 1
    ensures Kept(s, t, k, c, n)
  {
    forall j | 0 <= j < |s.loops|
      ensures j != k && Level(s.loops[j], c, n) ==> Level(t.loops[j], c, n)
      ensures Level(s.loops[j], c, n - 1) ==> Level(t.loops[j], c, n - 1)
    {
      if j != k && Level(s.loops[j], c, n) {
        ExtendsLevel(s.loops[j], t.loops[j], c, n, n);
      }
      if Level(s.loops[j], c, n - 1) {
        ExtendsLevel(s.loops[j], t.loops[j], c, n, n - 1);
      }
    }
  }

  /** A step that changes loop k alone, without making its level worse. */
  lemma OwnKeeps(s: State, k: LoopId, l: Loop, c: ConnId, n: nat)
    requires k < |s.loops| && n >= 1 && (Level(s.loops[k], c, n - 1) ==> Level(l, c, n - 1))
    ensures Kept(s, SetLoop(s, k, l), k, c, n)
  {
  }

  lemma FunctorWorked(s: State, k: LoopId, c: ConnId, n: nat)
    requires AtRest(s, k) && s.loops[k].phase == Calling && HasFunctor(s, k)
    requires 1 <= n <= 3 && Level(s.loops[k], c, n - 1) && Step(s, RunFunctor(k, WOULD_BLOCK)).Ok?
    ensures Worked(PopFunctor(s, k), Step(s, RunFunctor(k, WOULD_BLOCK)).state, k, c, n)
  {
    var f, t := s.loops[k].batch[0], PopFunctor(s, k);
    assert Allowed(f, c, n - 1);
    RunningFunctorIs(s, k, WOULD_BLOCK);
    NothingWorked(t, k, c, n);
    match f
    case Establish(d) => EstablishingWorked(t, k, d, c, n);
    case SendLater(d, message) => SendWorked(t, k, d, message, WOULD_BLOCK, c, n);
    case ShutdownLater(d) =>
    case ForceClose(d) => if CloseConn(t, d).Ok? { CloseWorked(t, k, d, c, n); }
    case WriteComplete(_) =>
    case HighWater(_, _) =>
    case Remove(d) => RemoveWorked(t, k, d, c, n);
    case DestroyConn(d) => DestroyWorked(t, k, d, c, n);
  }

  lemma CallbackWorked(s: State, k: LoopId, c: ConnId, n: nat)
    requires AtRest(s, k) && HasCallback(s, k)
    requires 1 <= n <= 3 && Level(s.loops[k], c, n - 1) && Step(s, RunCallback(k, -1)).Ok?
    ensures Worked(PopCallback(s, k), Step(s, RunCallback(k, -1)).state, k, c, n)
  {
    var t, d := PopCallback(s, k), s.loops[k].phase.current;
    NothingWorked(t, k, c, n);
    assert n >= 2 ==> d != c;
    match s.loops[k].phase.callbacks[0]
    case ErrorCb =>
    case CloseCb =>
      RunningCallbackIs(s, k, -1);
      CloseWorked(t, k, d, c, n);
    case ReadCb => RunningCallbackIs(s, k, -1);
    case WriteCb =>
      RunningCallbackIs(s, k, -1);
      WriteWorked(t, k, d, -1, c, n);
  }

  lemma FinishStepWorked(s: State, k: LoopId, c: ConnId, n: nat)
    requires k < |s.loops| && s.loops[k].closing.Some?
    requires 1 <= n <= 3 && Level(s.loops[k], c, n - 1) && Step(s, FinishClose(k)).Ok?
    ensures Worked(s, Step(s, FinishClose(k)).state, k, c, n) && Step(s, FinishClose(k)).state.loops[k].closing == None
  {
    var d := s.loops[k].closing.value;
    FinishCloseIs(s, k, d);
    FinishWorked(s, k, d, c, n);
  }

  // ----- to the end of the batch

  /** How much of its batch loop k has still to run. */
  function BatchLeft(l: Loop): nat {
    2 * |l.batch| + if l.closing.Some? then 1 else 0
  }

  lemma CallingStep(s: State, k: LoopId, c: ConnId, n: nat)
    requires k < |s.loops| && s.loops[k].phase == Calling && BatchLeft(s.loops[k]) > 0
    requires 1 <= n <= 3 && Level(s.loops[k], c, n - 1) && Step(s, NextEvent(s, k)).Ok?
    ensures var t := Step(s, NextEvent(s, k)).state;
            && Kept(s, t, k, c, n) && t.loops[k].phase == Calling && BatchLeft(t.loops[k]) < BatchLeft(s.loops[k])
            && (AllAllowed(s.loops[k].pending, c, n) ==> AllAllowed(t.loops[k].pending, c, n))
  {
    var t := Step(s, NextEvent(s, k)).state;
    if s.loops[k].closing.Some? {
      FinishStepWorked(s, k, c, n);
      WorkedKeeps(s, t, k, c, n);
    } else {
      var u := PopFunctor(s, k);
      FunctorWorked(s, k, c, n);
      OwnKeeps(s, k, u.loops[k], c, n);
      WorkedKeeps(u, t, k, c, n);
      KeptTransitive(s, u, t, k, c, n);
    }
  }

  /** Loop k has run its batch and is about to poll; what is pending came while it ran. */
  predicate RanDown(s: State, t: State, k: LoopId, c: ConnId, n: nat) {
    && Kept(s, t, k, c, n) && t.loops[k].phase == AtPoll && t.loops[k].closing == None
    && t.loops[k].batch == [] && t.loops[k].ran == []
    && (AllAllowed(s.loops[k].pending, c, n) ==> AllAllowed(t.loops[k].pending, c, n))
  }

  lemma BatchEnds(s: State, k: LoopId, c: ConnId, n: nat)
    requires k < |s.loops| && s.loops[k].phase == Calling && BatchLeft(s.loops[k]) == 0 && 1 <= n <= 3
    ensures Step(s, NextEvent(s, k)).Ok? && RanDown(s, Step(s, NextEvent(s, k)).state, k, c, n)
  {
    OwnKeeps(s, k, s.loops[k].(phase := AtPoll, ran := []), c, n);
  }

  /** No loop swaps its queue. */
  predicate NoSwap(es: seq<Event>) {
    forall i :: 0 <= i < |es| ==> !es[i].EndHandling?
  }

  lemma RunDown(s: State, k: LoopId, c: ConnId, n: nat) returns (es: seq<Event>)
    requires k < |s.loops| && s.loops[k].phase == Calling && 1 <= n <= 3 && Level(s.loops[k], c, n - 1)
    ensures AllBenign(es) && NoSwap(es) && (Run(Step, s, es).Ok? ==> RanDown(s, Run(Step, s, es).state, k, c, n))
    decreases BatchLeft(s.loops[k])
  {
    var e := NextEvent(s, k);
    es := [e];
    RunOne(Step, s, e);
    if BatchLeft(s.loops[k]) == 0 {
      BatchEnds(s, k, c, n);
    } else if Step(s, e).Ok? {
      CallingStep(s, k, c, n);
      var t := Step(s, e).state;
      var rest := RunDown(t, k, c, n);
      es := [e] + rest;
      RunCons(Step, s, e, rest);
      if Run(Step, s, es).Ok? {
        KeptTransitive(s, t, Run(Step, s, es).state, k, c, n);
      }
    }
  }

  // ----- to the start of the next batch

  function DispatchLeft(l: Loop): nat {
    (if l.closing.Some? then 1 else 0) +
    match l.phase
    case AtPoll => 2
    case Handling(active, _, callbacks) => 2 * (5 * |active| + |callbacks|)
    case Calling => 0
  }

  lemma DispatchStep(s: State, k: LoopId, c: ConnId, n: nat)
    requires k < |s.loops| && s.loops[k].phase != Calling && DispatchLeft(s.loops[k]) > 0
    requires 1 <= n <= 3 && Level(s.loops[k], c, n - 1) && Step(s, NextEvent(s, k)).Ok?
    ensures var t := Step(s, NextEvent(s, k)).state;
            && Kept(s, t, k, c, n) && t.loops[k].phase != Calling
            && DispatchLeft(t.loops[k]) < DispatchLeft(s.loops[k])
  {
    var l, t := s.loops[k], Step(s, NextEvent(s, k)).state;
    if l.closing.Some? {
      FinishStepWorked(s, k, c, n);
      WorkedKeeps(s, t, k, c, n);
    } else if l.phase == AtPoll {
      OwnKeeps(s, k, l.(phase := Handling([], 0, [])), c, n);
    } else if l.phase.callbacks != [] {
      var u := PopCallback(s, k);
      CallbackWorked(s, k, c, n);
      OwnKeeps(s, k, u.loops[k], c, n);
      WorkedKeeps(u, t, k, c, n);
      KeptTransitive(s, u, t, k, c, n);
    } else {
      var active := l.phase.active;
      OwnKeeps(s, k, l.(phase := Handling(active[1..], active[0].c, Callbacks(active[0].revents))), c, n);
    }
  }

  /** Loop k has taken everything that was pending into its batch. */
  predicate SwappedIn(s: State, t: State, k: LoopId, c: ConnId, n: nat) {
    Kept(s, t, k, c, n) && t.loops[k].phase == Calling && t.loops[k].pending == []
  }

  lemma HandlingEnds(s: State, k: LoopId, c: ConnId, n: nat)
    requires k < |s.loops| && s.loops[k].phase != Calling && DispatchLeft(s.loops[k]) == 0 && 1 <= n <= 3
    ensures Step(s, NextEvent(s, k)).Ok? && SwappedIn(s, Step(s, NextEvent(s, k)).state, k, c, n)
  {
    OwnKeeps(s, k, s.loops[k].(phase := Calling, batch := s.loops[k].pending, pending := []), c, n);
  }

  /** Loop k has dispatched everything and is about to swap. */
  predicate AllDispatched(s: State, t: State, k: LoopId, c: ConnId, n: nat) {
    Kept(s, t, k, c, n) && t.loops[k].phase != Calling && DispatchLeft(t.loops[k]) == 0
  }

  lemma DispatchAll(s: State, k: LoopId, c: ConnId, n: nat) returns (es: seq<Event>)
    requires k < |s.loops| && s.loops[k].phase != Calling && 1 <= n <= 3 && Level(s.loops[k], c, n - 1)
    ensures AllBenign(es) && NoSwap(es)
    ensures Run(Step, s, es).Ok? ==> AllDispatched(s, Run(Step, s, es).state, k, c, n)
    decreases DispatchLeft(s.loops[k])
  {
    es := [];
    if DispatchLeft(s.loops[k]) > 0 {
      var e := NextEvent(s, k);
      es := [e];
      RunOne(Step, s, e);
      if Step(s, e).Ok? {
        DispatchStep(s, k, c, n);
        var t := Step(s, e).state;
        var rest := DispatchAll(t, k, c, n);
        es := [e] + rest;
        RunCons(Step, s, e, rest);
        if Run(Step, s, es).Ok? {
          KeptTransitive(s, t, Run(Step, s, es).state, k, c, n);
        }
      }
    }
  }

  lemma SwapIn(s: State, k: LoopId, c: ConnId, n: nat) returns (es: seq<Event>)
    requires k < |s.loops| && s.loops[k].phase != Calling && 1 <= n <= 3 && Level(s.loops[k], c, n - 1)
    ensures AllBenign(es) && (Run(Step, s, es).Ok? ==> SwappedIn(s, Run(Step, s, es).state, k, c, n))
  {
    es := DispatchAll(s, k, c, n);
    if Run(Step, s, es).Ok? {
      var t := Run(Step, s, es).state;
      HandlingEnds(t, k, c, n);
      RunOne(Step, t, EndHandling(k));
      RunConcat(Step, s, es, [EndHandling(k)]);
      KeptTransitive(s, t, Step(t, EndHandling(k)).state, k, c, n);
      es := es + [EndHandling(k)];
    }
  }

  // ----- sweeps

  /** One more level for loop k. */
  predicate Flushed(s: State, t: State, k: LoopId, c: ConnId, n: nat) {
    Kept(s, t, k, c, n) && Level(t.loops[k], c, n)
  }

  lemma FlushFromPoll(s: State, k: LoopId, c: ConnId, n: nat) returns (es: seq<Event>)
    requires k < |s.loops| && s.loops[k].phase != Calling && 1 <= n <= 3 && Level(s.loops[k], c, n - 1)
    ensures AllBenign(es) && (Run(Step, s, es).Ok? ==> Flushed(s, Run(Step, s, es).state, k, c, n))
  {
    es := SwapIn(s, k, c, n);
    if Run(Step, s, es).Ok? {
      var t := Run(Step, s, es).state;
      var rest := RunDown(t, k, c, n);
      RunConcat(Step, s, es, rest);
      if Run(Step, t, rest).Ok? {
        KeptTransitive(s, t, Run(Step, t, rest).state, k, c, n);
      }
      es := es + rest;
    }
  }

  lemma Flush(s: State, k: LoopId, c: ConnId, n: nat) returns (es: seq<Event>)
    requires k < |s.loops| && 1 <= n <= 3 && Level(s.loops[k], c, n - 1)
    ensures AllBenign(es) && (Run(Step, s, es).Ok? ==> Flushed(s, Run(Step, s, es).state, k, c, n))
  {
    if s.loops[k].phase == Calling {
      es := RunDown(s, k, c, n);
      if Run(Step, s, es).Ok? {
        var t := Run(Step, s, es).state;
        var rest := FlushFromPoll(t, k, c, n);
        RunConcat(Step, s, es, rest);
        if Run(Step, t, rest).Ok? {
          KeptTransitive(s, t, Run(Step, t, rest).state, k, c, n);
        }
        es := es + rest;
      }
    } else {
      es := FlushFromPoll(s, k, c, n);
    }
  }

  predicate SameShape(s: State, t: State) {
    |t.loops| == |s.loops| && t.held == s.held
  }

  lemma SweepFrom(s: State, c: ConnId, n: nat, i: nat) returns (es: seq<Event>)
    requires i <= |s.loops| && 1 <= n <= 3 && AllLevel(s, c, n - 1)
    requires forall j :: 0 <= j < i ==> Level(s.loops[j], c, n)
    ensures AllBenign(es)
    ensures Run(Step, s, es).Ok? ==> SameShape(s, Run(Step, s, es).state) && AllLevel(Run(Step, s, es).state, c, n)
    decreases |s.loops| - i
  {
    es := [];
    if i < |s.loops| {
      es := Flush(s, i, c, n);
      if Run(Step, s, es).Ok? {
        var t := Run(Step, s, es).state;
        var rest := SweepFrom(t, c, n, i + 1);
        RunConcat(Step, s, es, rest);
        es := es + rest;
      }
    }
  }

  /** From any state: the loop threads abort, or come to where nothing mentions connection c. */
  lemma Forget(s: State, c: ConnId) returns (es: seq<Event>)
    ensures AllBenign(es)
    ensures Run(Step, s, es).Ok? ==> SameShape(s, Run(Step, s, es).state) && AllLevel(Run(Step, s, es).state, c, 3)
  {
    es := SweepFrom(s, c, 1, 0);
    if Run(Step, s, es).Ok? {
      var t := Run(Step, s, es).state;
      var two := SweepFrom(t, c, 2, 0);
      RunConcat(Step, s, es, two);
      es := es + two;
      if Run(Step, t, two).Ok? {
        var u := Run(Step, t, two).state;
        var three := SweepFrom(u, c, 3, 0);
        RunConcat(Step, s, es, three);
        es := es + three;
      }
    }
  }
}
