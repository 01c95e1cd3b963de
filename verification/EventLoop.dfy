/**
 The pending-functor queue and the eventfd wake-up of net/EventLoop.cpp.  The loop
 thread and any number of other threads interleave; each mutex-protected block, each
 eventfd read or write and each atomic flag access is one step.
 */
module EventLoops {
  import opened Machine
  import opened Seqs

  type Tid = nat
  type Functor = nat

  /** The largest value an eventfd counter holds; a write beyond it fails. */
  const MAX_COUNTER: nat := 0xffff_ffff_ffff_fffe

  /** Where the loop thread is. */
  datatype Pc =
    | Outside      // not in loop()
    | Testing      // at `while (!quit_)`
    | AtPoll       // in poller_->poll
    | Handling     // running channel callbacks, eventHandling_ set
    | Swapping     // callingPendingFunctors_ set, mutex not yet taken
    | Calling      // running the swapped batch

  datatype Loop = Loop(
    pc: Pc,
    quit: bool,
    iteration: nat,
    counter: nat,              // the eventfd
    wakeupActive: bool,        // the wakeup channel is in activeChannels_
    pending: seq<Functor>,     // pendingFunctors_
    batch: seq<Functor>,       // what is left of the swapped vector
    owing: set<Tid>,           // other threads between their push (or quit_ = true) and wakeup()
    selfOwing: bool,           // the loop thread is there
    silent: bool,              // pending holds a functor its own thread queued outside loop()
    queued: seq<Functor>,      // history: functors pushed, in lock order
    executed: seq<Functor>     // history: queued functors run
  ) {
    predicate CallingPendingFunctors() {
      pc == Swapping || pc == Calling
    }
  }

  function Created(): Loop {
    Loop(Outside, false, 0, 0, false, [], [], {}, false, false, [], [])
  }

  datatype Event =
    | OtherPush(t: Tid, f: Functor)  // queneInLoop from another thread, up to the unlock
    | OtherQuit(t: Tid)              // quit from another thread, up to wakeup()
    | OtherWake(t: Tid)              // the wakeup() of either
    | OwnPush(f: Functor)            // queneInLoop from the loop's own thread, up to the unlock
    | OwnWake                        // its wakeup()
    | OwnQuit
    | LoopStart
    | TestQuit
    | PollReturn(wakeup: bool)
    | HandleRead
    | EndHandling
    | Swap
    | RunFunctor
    | EndBatch

  function Wakeup(l: Loop): Loop {
    l.(counter := if l.counter < MAX_COUNTER then l.counter + 1 else l.counter)
  }

  function Push(l: Loop, f: Functor): Loop {
    l.(pending := l.pending + [f], queued := l.queued + [f])
  }

  /** User code runs on the loop's own thread: inside callbacks, or outside loop(). */
  predicate OwnThreadFree(l: Loop) {
    (l.pc == Outside || l.pc == Handling || l.pc == Calling) && !l.selfOwing
  }

  predicate Enabled(l: Loop, e: Event) {
    match e
    case OtherPush(t, _) => t !in l.owing
    case OtherQuit(t) => t !in l.owing
    case OtherWake(t) => t in l.owing
    case OwnPush(_) => OwnThreadFree(l)
    case OwnWake => l.selfOwing
    case OwnQuit => OwnThreadFree(l)
    case LoopStart => l.pc == Outside && !l.selfOwing
    case TestQuit => l.pc == Testing
    case PollReturn(wakeup) => l.pc == AtPoll && (wakeup ==> l.counter > 0)
    case HandleRead => l.pc == Handling && l.wakeupActive && !l.selfOwing
    case EndHandling => l.pc == Handling && !l.selfOwing
    case Swap => l.pc == Swapping
    case RunFunctor => l.pc == Calling && !l.selfOwing && l.batch != []
    case EndBatch => l.pc == Calling && !l.selfOwing && l.batch == []
  }

  function Step(l: Loop, e: Event): Outcome<Loop> {
    if !Enabled(l, e) then Ok(l)
    else
      match e
      case OtherPush(t, f) => Ok(Push(l, f).(owing := l.owing + {t}))
      case OtherQuit(t) => Ok(l.(quit := true, owing := l.owing + {t}))
      case OtherWake(t) => Ok(Wakeup(l).(owing := l.owing - {t}))
      case OwnPush(f) =>
        // wakeup() follows only if callingPendingFunctors_
        Ok(Push(l, f).(selfOwing := l.CallingPendingFunctors(), silent := l.silent || l.pc == Outside))
      case OwnWake => Ok(Wakeup(l).(selfOwing := false))
      case OwnQuit => Ok(l.(quit := true))
      case LoopStart => Ok(l.(pc := Testing, quit := false))
      case TestQuit => Ok(l.(pc := if l.quit then Outside else AtPoll))
      case PollReturn(wakeup) => Ok(l.(pc := Handling, iteration := l.iteration + 1, wakeupActive := wakeup))
      case HandleRead => Ok(l.(counter := 0, wakeupActive := false))
      case EndHandling => Ok(l.(pc := Swapping))
      case Swap => Ok(l.(pc := Calling, batch := l.pending, pending := [], silent := false))
      case RunFunctor => Ok(l.(batch := l.batch[1..], executed := l.executed + [l.batch[0]]))
      case EndBatch => Ok(l.(pc := Testing))
  }

  /** A wake-up is stored in the eventfd or about to be. */
  predicate Stirring(l: Loop) {
    l.counter > 0 || l.owing != {} || l.selfOwing
  }

  /** The loop thread sleeps on queued work: nothing but a timeout or an unrelated event
      will make poll return. */
  predicate LostWakeup(l: Loop) {
    l.pc == AtPoll && l.pending != [] && !Stirring(l)
  }

  ghost predicate Inv(l: Loop) {
    && l.executed + l.batch + l.pending == l.queued
    && (l.pc != Calling ==> l.batch == [])
    && (l.selfOwing ==> l.pc == Calling)
    && (l.pc != Handling && l.pc != Swapping && l.pending != [] ==> Stirring(l) || l.silent)
    && (l.pc == AtPoll && l.quit ==> Stirring(l))
  }

  lemma StepKeepsInv(l: Loop, e: Event)
    requires Inv(l)
    ensures Step(l, e).Ok? && Inv(Step(l, e).state)
  {
    if Enabled(l, e) {
      match e
      case OtherPush(t, f) =>
        assert l.executed + l.batch + (l.pending + [f]) == l.queued + [f];
      case OwnPush(f) =>
        assert l.executed + l.batch + (l.pending + [f]) == l.queued + [f];
      case Swap =>
        assert l.executed + l.pending + [] == l.executed + [] + l.pending;
      case RunFunctor =>
        assert l.executed + [l.batch[0]] + l.batch[1..] == l.executed + l.batch;
      case OtherQuit(t) =>
      case OtherWake(t) =>
      case OwnWake =>
      case OwnQuit =>
      case LoopStart =>
      case TestQuit =>
      case PollReturn(_) =>
      case HandleRead =>
      case EndHandling =>
      case EndBatch =>
    }
  }

  lemma ReachableInv(es: seq<Event>)
    ensures Run(Step, Created(), es).Ok? && Inv(Run(Step, Created(), es).state)
  {
    forall l, e | Inv(l) ensures Step(l, e).Ok? && Inv(Step(l, e).state) {
      StepKeepsInv(l, e);
    }
    RunKeeps(Step, Inv, Created(), es);
  }

  /** In every interleaving, a loop thread in poll with functors pending has a positive
      eventfd counter or a thread on its way to make it so, unless its own thread queued a
      functor outside loop() since the last swap.  A `quit` is never slept on. */
  lemma NoLostWakeup(es: seq<Event>)
    ensures Run(Step, Created(), es).Ok?
    ensures var l := Run(Step, Created(), es).state;
            && (LostWakeup(l) ==> l.silent)
            && (l.pc == AtPoll && l.quit ==> Stirring(l))
  {
    ReachableInv(es);
  }

  /** The exception is real, and this is all of it: a functor queued by the loop's own
      thread outside loop() is slept on by the next poll exactly when no wake-up happens to
      be stored or on its way. */
  lemma QueueOutsideLoop(l: Loop, f: Functor)
    requires Inv(l) && l.pc == Outside
    ensures var r := Run(Step, l, [OwnPush(f), LoopStart, TestQuit]);
            r.Ok? && (LostWakeup(r.state) <==> !Stirring(l))
  {
    var pushed := Push(l, f).(silent := true);
    assert Step(l, OwnPush(f)) == Ok(pushed);
    StartsPolling(pushed);
    assert [OwnPush(f), LoopStart, TestQuit] == [OwnPush(f)] + [LoopStart, TestQuit];
    RunCons(Step, l, OwnPush(f), [LoopStart, TestQuit]);
    assert l.pending + [f] != [];
  }

  lemma StartsPolling(l: Loop)
    requires l.pc == Outside && !l.selfOwing
    ensures Run(Step, l, [LoopStart, TestQuit]) == Ok(l.(pc := AtPoll, quit := false))
  {
    var started := l.(pc := Testing, quit := false);
    assert Step(l, LoopStart) == Ok(started);
    assert Step(started, TestQuit) == Ok(l.(pc := AtPoll, quit := false));
    RunTwo(Step, l, LoopStart, TestQuit);
  }

  // ----- quit

  /** A call of `quit`: by user code on the loop's own thread, or by a thread that is not inside
      another call. */
  predicate CallsQuit(l: Loop, e: Event) {
    match e
    case OwnQuit => !l.selfOwing && (l.pc == Outside || l.pc == Handling || l.pc == Calling)
    case OtherQuit(t) => t !in l.owing
    case _ => false
  }

  /** The run takes the loop thread from the test of quit_ to another poll, without loop()
      returning before. */
  predicate PollsAgain(l: Loop, es: seq<Event>)
    decreases |es|
  {
    es != [] && Step(l, es[0]).Ok? &&
    var m := Step(l, es[0]).state;
    (l.pc == Testing && m.pc == AtPoll) || (!(l.pc != Outside && m.pc == Outside) && PollsAgain(m, es[1..]))
  }

  /** Whatever happens next, the loop thread does not poll again before loop() returns. */
  ghost predicate PollsNoMore(l: Loop) {
    forall es :: !PollsAgain(l, es)
  }

  lemma {:induction false} QuitEndsLoop(l: Loop, es: seq<Event>)
    requires l.pc != Outside && l.quit
    ensures !PollsAgain(l, es)
    decreases |es|
  {
    if es != [] && Step(l, es[0]).Ok? && Step(l, es[0]).state.pc != Outside {
      QuitEndsLoop(Step(l, es[0]).state, es[1..]);
    }
  }

  lemma EarlyQuitIsErased(l: Loop)
    requires l.pc == Outside && !l.selfOwing
    ensures !PollsNoMore(l)
  {
    var es := [LoopStart, TestQuit];
    assert es[1..] == [TestQuit];
    var started := Step(l, LoopStart).state;
    assert Step(started, [TestQuit][0]).state.pc == AtPoll;
    assert PollsAgain(started, [TestQuit]);
    assert PollsAgain(l, es);
  }

  /** A `quit`, by the loop's own thread or another, is obeyed, whatever happens next, if and only
      if it is made inside loop(): the loop does not poll again before it returns.  One made
      before is erased when loop() starts. */
  lemma QuitObeyedIffInsideLoop(l: Loop, e: Event)
    requires Inv(l) && CallsQuit(l, e)
    ensures Step(l, e).Ok?
    ensures l.pc != Outside <==> PollsNoMore(Step(l, e).state)
  {
    var m := Step(l, e).state;
    if l.pc != Outside {
      forall es ensures !PollsAgain(m, es) {
        QuitEndsLoop(m, es);
      }
    } else {
      EarlyQuitIsErased(m);
    }
  }

  // ----- the eventfd is read

  /** `m` is on its way from the handling of `l` to the next poll, or past it, and has not lost
      what was pending in `l`. */
  ghost predicate OnTheWay(l: Loop, m: Loop) {
    && Inv(m) && l.iteration <= m.iteration
    && (m.iteration == l.iteration ==>
          if m.pc == Handling || m.pc == Swapping then m.executed == l.executed && l.pending <= m.pending
          else l.executed + l.pending <= m.executed + m.batch)
  }

  lemma OnTheWayStep(l: Loop, m: Loop, e: Event)
    requires OnTheWay(l, m)
    ensures Step(m, e).Ok? && OnTheWay(l, Step(m, e).state)
  {
    StepKeepsInv(m, e);
    if e == RunFunctor && Enabled(m, e) {
      assert m.executed + [m.batch[0]] + m.batch[1..] == m.executed + m.batch;
    }
  }

  /** Clearing the eventfd counter loses no work, in any interleaving: when the loop next comes to
      poll, it has run everything that was pending when the counter was read. */
  lemma ClearedCounterIsSafe(l: Loop, es: seq<Event>)
    requires Inv(l) && l.pc == Handling && l.wakeupActive
    ensures Step(l, HandleRead).Ok? && Step(l, HandleRead).state.counter == 0
    ensures Run(Step, Step(l, HandleRead).state, es).Ok?
    ensures var m := Run(Step, Step(l, HandleRead).state, es).state;
            m.pc == AtPoll && m.iteration == l.iteration ==> l.executed + l.pending <= m.executed
  {
    StepKeepsInv(l, HandleRead);
    forall m, e | OnTheWay(l, m) ensures Step(m, e).Ok? && OnTheWay(l, Step(m, e).state) {
      OnTheWayStep(l, m, e);
    }
    RunKeeps(Step, m => OnTheWay(l, m), Step(l, HandleRead).state, es);
  }

  // ----- every functor once, in order

  /** The functor that a call of queneInLoop pushes in this step, if it can be made. */
  function PushedBy(l: Loop, e: Event): seq<Functor> {
    match e
    case OtherPush(t, f) => if t in l.owing then [] else [f]
    case OwnPush(f) => if l.selfOwing || l.pc == Testing || l.pc == AtPoll || l.pc == Swapping then [] else [f]
    case _ => []
  }

  lemma StepPushes(l: Loop, e: Event)
    requires Step(l, e).Ok?
    ensures Step(l, e).state.queued == l.queued + PushedBy(l, e)
  {
  }

  /** Queued functors run exactly once, in the order they were queued: in every run, those that
      ran, the rest of the batch and what is pending are those that were pushed. */
  lemma FifoExactlyOnce(es: seq<Event>)
    ensures Run(Step, Created(), es).Ok?
    ensures var l := Run(Step, Created(), es).state;
            l.executed + l.batch + l.pending == Gathered(Step, PushedBy, Created(), es)
  {
    ReachableInv(es);
    forall l, e | Step(l, e).Ok? ensures Step(l, e).state.queued == l.queued + PushedBy(l, e) {
      StepPushes(l, e);
    }
    RunGathers(Step, _ => true, _ => true, (l: Loop) => l.queued, PushedBy, Created(), es);
  }

  /** The steps of the loop thread through one iteration with n functors pending. */
  function Iteration(wakeup: bool, n: nat): seq<Event> {
    [PollReturn(wakeup), HandleRead, EndHandling, Swap] + (RunFunctors(n) + [EndBatch, TestQuit])
  }

  function RunFunctors(n: nat): seq<Event> {
    if n == 0 then [] else [RunFunctor] + RunFunctors(n - 1)
  }

  lemma {:induction false} BatchRuns(l: Loop)
    requires l.pc == Calling && !l.selfOwing
    ensures Run(Step, l, RunFunctors(|l.batch|)) == Ok(l.(batch := [], executed := l.executed + l.batch))
    decreases |l.batch|
  {
    if l.batch != [] {
      var m := l.(batch := l.batch[1..], executed := l.executed + [l.batch[0]]);
      assert Step(l, RunFunctor) == Ok(m);
      RunCons(Step, l, RunFunctor, RunFunctors(|l.batch| - 1));
      BatchRuns(m);
      assert l.executed + [l.batch[0]] + l.batch[1..] == l.executed + l.batch;
    } else {
      assert l.executed + l.batch == l.executed;
    }
  }

  lemma BatchEnds(l: Loop)
    requires l.pc == Calling && !l.selfOwing
    ensures Run(Step, l, RunFunctors(|l.batch|) + [EndBatch, TestQuit]) ==
            Ok(l.(pc := if l.quit then Outside else AtPoll, batch := [], executed := l.executed + l.batch))
  {
    BatchRuns(l);
    var m := l.(batch := [], executed := l.executed + l.batch);
    RunConcat(Step, l, RunFunctors(|l.batch|), [EndBatch, TestQuit]);
    assert Step(m, EndBatch) == Ok(m.(pc := Testing));
    RunTwo(Step, m, EndBatch, TestQuit);
  }

  lemma SwappedIn(l: Loop, wakeup: bool)
    requires Inv(l) && l.pc == AtPoll && (wakeup ==> l.counter > 0)
    ensures Run(Step, l, [PollReturn(wakeup), HandleRead, EndHandling, Swap]) ==
            Ok(l.(pc := Calling, iteration := l.iteration + 1, counter := if wakeup then 0 else l.counter,
                  wakeupActive := false, batch := l.pending, pending := [], silent := false))
  {
    var returned := l.(pc := Handling, iteration := l.iteration + 1, wakeupActive := wakeup);
    assert Step(l, PollReturn(wakeup)) == Ok(returned);
    var read := returned.(counter := if wakeup then 0 else l.counter, wakeupActive := false);
    assert Step(returned, HandleRead) == Ok(read);
    assert Step(read, EndHandling) == Ok(read.(pc := Swapping));
    RunFour(Step, l, PollReturn(wakeup), HandleRead, EndHandling, Swap);
  }

  /** One iteration runs everything that was pending when poll returned, and comes back to poll, or
      leaves loop() if quit_ is set. */
  lemma IterationRunsPending(l: Loop, wakeup: bool)
    requires Inv(l) && l.pc == AtPoll && (wakeup ==> l.counter > 0)
    ensures var r := Run(Step, l, Iteration(wakeup, |l.pending|));
            && r.Ok? && r.state.executed == l.executed + l.pending && r.state.pending == [] && r.state.batch == []
            && r.state.pc == (if l.quit then Outside else AtPoll) && r.state.quit == l.quit
            && r.state.iteration == l.iteration + 1 && r.state.queued == l.queued
            && r.state.counter == if wakeup then 0 else l.counter
  {
    SwappedIn(l, wakeup);
    var start := [PollReturn(wakeup), HandleRead, EndHandling, Swap];
    BatchEnds(Run(Step, l, start).state);
    RunConcat(Step, l, start, RunFunctors(|l.pending|) + [EndBatch, TestQuit]);
  }

  /** A wake-up on its way can be made: the thread's write leaves a positive counter and nothing
      else changes. */
  lemma WakeEffect(l: Loop, e: Event)
    requires (e.OtherWake? && e.t in l.owing) || (e.OwnWake? && l.selfOwing)
    ensures Step(l, e).Ok?
    ensures var m := Step(l, e).state;
            && m.counter > 0 && m.counter >= l.counter
            && m == l.(counter := m.counter, owing := if e.OtherWake? then l.owing - {e.t} else l.owing,
                       selfOwing := l.selfOwing && !e.OwnWake?)
  {
  }

  /** A loop that is not sleeping for good gets its work done: from every state in poll with a
      wake-up stored or on its way, a wake-up and one iteration run everything that is pending. */
  lemma PendingWorkRuns(l: Loop) returns (es: seq<Event>)
    requires Inv(l) && l.pc == AtPoll && Stirring(l)
    ensures var r := Run(Step, l, es);
            && r.Ok? && r.state.executed == l.executed + l.pending && r.state.pending == []
            && r.state.pc == if l.quit then Outside else AtPoll
  {
    es := Iteration(true, |l.pending|);
    if l.counter > 0 {
      IterationRunsPending(l, true);
    } else {
      var t :| t in l.owing;
      WakeEffect(l, OtherWake(t));
      var m := Step(l, OtherWake(t)).state;
      StepKeepsInv(l, OtherWake(t));
      IterationRunsPending(m, true);
      RunCons(Step, l, OtherWake(t), es);
      es := [OtherWake(t)] + es;
    }
  }

  /** `m` is in the batch that `l` was running, or past its iteration. */
  ghost predicate SameBatch(l: Loop, m: Loop) {
    && Inv(m)
    && l.iteration <= m.iteration
    && (m.iteration == l.iteration ==>
          && m.pc != Handling && m.pc != Swapping
          && l.executed <= m.executed
          && m.executed + m.batch == l.executed + l.batch)
  }

  lemma SameBatchStep(l: Loop, m: Loop, e: Event)
    requires SameBatch(l, m)
    ensures Step(m, e).Ok? && SameBatch(l, Step(m, e).state)
  {
    StepKeepsInv(m, e);
    if e == RunFunctor && Enabled(m, e) {
      assert m.executed + [m.batch[0]] + m.batch[1..] == m.executed + m.batch;
    }
  }

  /** A batch is fixed at the swap: whatever is queued while it runs, by functors that
      re-queue themselves or by other threads, the current iteration executes only what is
      left of the batch, in order. */
  lemma BatchIsFixed(l: Loop, es: seq<Event>)
    requires Inv(l) && l.pc == Calling
    ensures Run(Step, l, es).Ok?
    ensures var m := Run(Step, l, es).state;
            m.iteration == l.iteration ==> l.executed <= m.executed <= l.executed + l.batch
  {
    forall m, e | SameBatch(l, m) ensures Step(m, e).Ok? && SameBatch(l, Step(m, e).state) {
      SameBatchStep(l, m, e);
    }
    RunKeeps(Step, m => SameBatch(l, m), l, es);
    var m := Run(Step, l, es).state;
    assert m.iteration == l.iteration ==> m.executed <= m.executed + m.batch;
  }

  // ----- the object

  class EventLoop<F> {
    var callingPendingFunctors: bool
    var quit: bool
    var counter: nat
    var pendingFunctors: seq<F>
    ghost var executed: seq<F>

    constructor ()
      ensures !callingPendingFunctors && !quit && counter == 0 && pendingFunctors == [] && executed == []
    {
      callingPendingFunctors, quit, counter, pendingFunctors, executed := false, false, 0, [], [];
    }

    method Wakeup()
      modifies this`counter
      ensures counter > 0
      ensures counter == old(counter) + 1 || counter == old(counter) >= MAX_COUNTER
    {
      if counter < MAX_COUNTER {
        counter := counter + 1;
      }
    }

    method Quit(isInLoopThread: bool)
      modifies this`quit, this`counter
      ensures quit
      ensures if isInLoopThread then counter == old(counter) else counter > 0
    {
      quit := true;
      if !isInLoopThread {
        Wakeup();
      }
    }

    method QueueInLoop(f: F, isInLoopThread: bool)
      modifies this`pendingFunctors, this`counter
      ensures pendingFunctors == old(pendingFunctors) + [f]
      ensures !isInLoopThread || callingPendingFunctors ==> counter > 0
      ensures isInLoopThread && !callingPendingFunctors ==> counter == old(counter)
    {
      pendingFunctors := pendingFunctors + [f];
      if !isInLoopThread || callingPendingFunctors {
        Wakeup();
      }
    }

    /** On the loop's own thread the functor runs at once, ahead of everything queued. */
    method RunInLoop(f: F, isInLoopThread: bool) returns (inline: seq<F>)
      modifies this`pendingFunctors, this`counter
      ensures inline == if isInLoopThread then [f] else []
      ensures pendingFunctors + inline == old(pendingFunctors) + [f]
      ensures isInLoopThread ==> counter == old(counter)
      ensures !isInLoopThread ==> counter > 0
    {
      if isInLoopThread {
        inline := [f];
      } else {
        QueueInLoop(f, false);
        inline := [];
      }
    }

    /** `during[i]` are the functors queued while the i-th functor of the batch runs, by it or by
        other threads, in lock order; the last entry are those queued after the last of them. */
    method DoPendingFunctors(during: seq<seq<F>>)
      requires |during| == |pendingFunctors| + 1
      modifies this`callingPendingFunctors, this`pendingFunctors, this`executed, this`counter
      ensures executed == old(executed) + old(pendingFunctors)
      ensures pendingFunctors == Flatten(during)
      ensures pendingFunctors != [] ==> counter > 0
      ensures !callingPendingFunctors
    {
      callingPendingFunctors := true;
      var functors := pendingFunctors;
      pendingFunctors := [];
      for i := 0 to |functors|
        invariant callingPendingFunctors
        invariant executed == old(executed) + functors[..i]
        invariant pendingFunctors == Flatten(during[..i])
        invariant pendingFunctors != [] ==> counter > 0
      {
        executed := executed + [functors[i]];
        QueueAll(during[i]);
        FlattenSnoc(during[..i], during[i]);
        assert during[..i + 1] == during[..i] + [during[i]];
        assert functors[..i + 1] == functors[..i] + [functors[i]];
      }
      assert functors[..|functors|] == functors;
      QueueAll(during[|functors|]);
      FlattenSnoc(during[..|functors|], during[|functors|]);
      assert during == during[..|functors|] + [during[|functors|]];
      callingPendingFunctors := false;
    }

    /** Calls of queneInLoop by any threads while functors are being called. */
    method QueueAll(fs: seq<F>)
      requires callingPendingFunctors && (pendingFunctors != [] ==> counter > 0)
      modifies this`pendingFunctors, this`counter
      ensures pendingFunctors == old(pendingFunctors) + fs
      ensures pendingFunctors != [] ==> counter > 0
    {
      for j := 0 to |fs|
        invariant pendingFunctors == old(pendingFunctors) + fs[..j]
        invariant pendingFunctors != [] ==> counter > 0
      {
        var isInLoopThread: bool := *;
        QueueInLoop(fs[j], isInLoopThread);
        assert fs[..j + 1] == fs[..j] + [fs[j]];
      }
      assert fs[..|fs|] == fs;
    }
  }
}
