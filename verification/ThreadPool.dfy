/**
 The bounded task queue of net/ThreadPool.cpp: a monitor with two condition
 variables, Mesa semantics, single-waiter `notify` and spurious wake-ups.  Each
 stretch of code that holds the mutex is one step.
 */
module TaskPool {
  import opened Machine

  type Tid = nat
  type Task = nat

  /** The threads inside `wait` on one condition variable: `waiting` ones have not
      been signalled, `signalled` and `spurious` ones are awake and must reacquire
      the mutex and test the loop condition again. */
  datatype Condition = Condition(waiting: set<Tid>, signalled: set<Tid>, spurious: set<Tid>) {
    predicate Disjoint() {
      waiting !! signalled && waiting !! spurious && signalled !! spurious
    }

    predicate Inside(t: Tid) {
      t in waiting || t in signalled || t in spurious
    }

    predicate Awake(t: Tid) {
      t in signalled || t in spurious
    }

    function Wait(t: Tid): Condition {
      Leave(t).(waiting := waiting + {t})
    }

    function Leave(t: Tid): Condition {
      Condition(waiting - {t}, signalled - {t}, spurious - {t})
    }

    /** `notify`: the scheduler picks one unsignalled waiter; without one the signal is lost. */
    function Notify(pick: Tid): Condition {
      if pick in waiting then this.(waiting := waiting - {pick}, signalled := signalled + {pick}) else this
    }

    function NotifyAll(): Condition {
      this.(waiting := {}, signalled := signalled + waiting)
    }

    function WakeSpuriously(t: Tid): Condition
    {
      if t in waiting then this.(waiting := waiting - {t}, spurious := spurious + {t}) else this
    }

    /** `pick` is a choice the scheduler can make for `notify`. */
    predicate CanPick(pick: Tid) {
      waiting != {} ==> pick in waiting
    }
  }

  datatype Pool = Pool(
    maxQueueSize: nat,
    workers: set<Tid>,
    running: bool,
    queue: seq<Task>,
    notEmpty: Condition,          // workers blocked in `take`
    notFull: Condition,           // producers blocked in `run`
    offering: map<Tid, Task>,     // the task each blocked producer holds
    exited: set<Tid>,             // workers that left `runInThread`
    submitted: seq<Task>,         // history: tasks pushed, in lock order
    taken: seq<Task>              // history: tasks popped, in lock order
  ) {
    predicate IsFull() {
      maxQueueSize > 0 && |queue| >= maxQueueSize
    }
  }

  const Nobody := Condition({}, {}, {})

  /** `workers` threads already run `runInThread`. */
  function Start(workers: set<Tid>, maxQueueSize: nat): Pool {
    Pool(maxQueueSize, workers, true, [], Nobody, Nobody, map[], {}, [], [])
  }

  datatype Event =
    | RunEnter(t: Tid, task: Task, pick: Tid)   // `run`: lock, test isFull, wait or push
    | RunResume(t: Tid, pick: Tid)              // back from notFull_.wait: test again
    | TakeEnter(t: Tid, pick: Tid)              // `take`: lock, test, wait or pop
    | TakeResume(t: Tid, pick: Tid)             // back from notEmpty_.wait: test again
    | SpuriousProducer(t: Tid)
    | SpuriousWorker(t: Tid)
    | Exit(t: Tid)                              // `runInThread` sees running_ false
    | Stop

  /** One evaluation of `while (isFull()) wait()` in `run` and, if it ends, the push.  Without
      worker threads the caller runs the task itself. */
  function PushOrWait(p: Pool, t: Tid, task: Task, pick: Tid): Outcome<Pool> {
    if p.workers == {} then
      Ok(p.(submitted := p.submitted + [task], taken := p.taken + [task]))
    else if p.IsFull() then
      Ok(p.(notFull := p.notFull.Wait(t), offering := p.offering[t := task]))
    else
      :- Check(!p.IsFull(), "net/ThreadPool.cpp:58");
      Ok(p.(notFull := p.notFull.Leave(t), offering := p.offering - {t},
            queue := p.queue + [task], submitted := p.submitted + [task],
            notEmpty := p.notEmpty.Notify(pick)))
  }

  /** One evaluation of `while (queue_.empty() && running_) wait()` in `take` and, if it ends, the pop. */
  function PopOrWait(p: Pool, t: Tid, pick: Tid): Pool {
    if p.queue == [] && p.running then
      p.(notEmpty := p.notEmpty.Wait(t))
    else if p.queue == [] then
      p.(notEmpty := p.notEmpty.Leave(t))
    else
      p.(notEmpty := p.notEmpty.Leave(t),
         queue := p.queue[1..], taken := p.taken + [p.queue[0]],
         notFull := if p.maxQueueSize > 0 then p.notFull.Notify(pick) else p.notFull)
  }

  /** An event that is not possible in `p` leaves it unchanged. */
  predicate Enabled(p: Pool, e: Event) {
    match e
    case RunEnter(t, _, pick) =>
      t !in p.exited && !p.notFull.Inside(t) && !p.notEmpty.Inside(t) && p.notEmpty.CanPick(pick)
    case RunResume(t, pick) => p.notFull.Awake(t) && t in p.offering && p.notEmpty.CanPick(pick)
    case TakeEnter(t, pick) =>
      t in p.workers && t !in p.exited && !p.notEmpty.Inside(t) && !p.notFull.Inside(t) && p.notFull.CanPick(pick)
    case TakeResume(t, pick) => p.notEmpty.Awake(t) && p.notFull.CanPick(pick)
    case SpuriousProducer(t) => t in p.notFull.waiting
    case SpuriousWorker(t) => t in p.notEmpty.waiting
    case Exit(t) => !p.running && t in p.workers && !p.notEmpty.Inside(t) && !p.notFull.Inside(t)
    case Stop => true
  }

  function Step(p: Pool, e: Event): Outcome<Pool> {
    if !Enabled(p, e) then Ok(p)
    else
      match e
      case RunEnter(t, task, pick) => PushOrWait(p, t, task, pick)
      case RunResume(t, pick) => PushOrWait(p, t, p.offering[t], pick)
      case TakeEnter(t, pick) => Ok(PopOrWait(p, t, pick))
      case TakeResume(t, pick) => Ok(PopOrWait(p, t, pick))
      case SpuriousProducer(t) => Ok(p.(notFull := p.notFull.WakeSpuriously(t)))
      case SpuriousWorker(t) => Ok(p.(notEmpty := p.notEmpty.WakeSpuriously(t)))
      case Exit(t) => Ok(p.(exited := p.exited + {t}))
      case Stop => Ok(p.(running := false, notEmpty := p.notEmpty.NotifyAll()))
  }

  /** Every unsignalled waiter is accounted for: the units on offer are no more than the
      signalled threads already on their way to them. */
  predicate Covered(c: Condition, units: int) {
    c.waiting != {} ==> units <= |c.signalled|
  }

  /** No lost wake-up on either side, first-in first-out hand-over, and the bound. */
  ghost predicate Inv(p: Pool) {
    && p.notEmpty.Disjoint() && p.notFull.Disjoint()
    && (forall t :: p.notEmpty.Inside(t) ==> t in p.workers && t !in p.exited)
    && (forall t :: p.notFull.Inside(t) <==> t in p.offering)
    && (forall t :: p.notEmpty.Inside(t) ==> !p.notFull.Inside(t))
    && (p.workers == {} ==> p.queue == [] && p.offering == map[])
    && (p.offering != map[] ==> p.maxQueueSize > 0)
    && (p.running ==> p.exited == {})
    && Covered(p.notEmpty, |p.queue|)
    && Covered(p.notFull, p.maxQueueSize - |p.queue|)
    && (!p.running ==> p.notEmpty.waiting == {})
    && (p.maxQueueSize > 0 ==> |p.queue| <= p.maxQueueSize)
    && p.taken + p.queue == p.submitted
  }

  // ----- one condition variable at a time

  lemma NotifyCovers(c: Condition, pick: Tid, units: int)
    requires c.Disjoint() && c.CanPick(pick) && Covered(c, units)
    ensures c.Notify(pick).Disjoint() && Covered(c.Notify(pick), units + 1)
    ensures forall t :: c.Notify(pick).Inside(t) <==> c.Inside(t)
  {
    if pick in c.waiting {
      assert |c.signalled + {pick}| == |c.signalled| + 1;
    }
  }

  lemma NotifyInside(c: Condition, pick: Tid, t: Tid)
    ensures c.Notify(pick).Inside(t) <==> c.Inside(t)
  {
  }

  lemma OneLess(s: set<Tid>, t: Tid)
    ensures |s - {t}| >= |s| - 1
  {
    if t in s {
      assert |s - {t}| == |s| - 1;
    } else {
      assert s - {t} == s;
    }
  }

  lemma LeaveInside(c: Condition, t: Tid)
    requires c.Disjoint()
    ensures c.Leave(t).Disjoint()
    ensures forall u :: c.Leave(t).Inside(u) <==> c.Inside(u) && u != t
  {
  }

  /** A thread that leaves takes at most its own signal with it. */
  lemma LeaveCovers(c: Condition, t: Tid, units: int)
    requires c.Disjoint() && t !in c.waiting && Covered(c, units)
    ensures c.Leave(t).Disjoint() && Covered(c.Leave(t), units - 1)
    ensures forall u :: c.Leave(t).Inside(u) <==> c.Inside(u) && u != t
  {
    LeaveInside(c, t);
    OneLess(c.signalled, t);
  }

  lemma WaitInside(c: Condition, t: Tid)
    requires c.Disjoint()
    ensures c.Wait(t).Disjoint()
    ensures forall u :: c.Wait(t).Inside(u) <==> c.Inside(u) || u == t
  {
  }

  lemma WokenInside(c: Condition, t: Tid, units: int)
    requires c.Disjoint() && Covered(c, units) && t in c.waiting
    ensures c.WakeSpuriously(t).Disjoint() && Covered(c.WakeSpuriously(t), units)
    ensures forall u :: c.WakeSpuriously(t).Inside(u) <==> c.Inside(u)
  {
  }

  // ----- one step at a time

  lemma WaitForRoomKeepsInv(p: Pool, t: Tid, task: Task)
    requires Inv(p) && t !in p.notFull.waiting && !p.notEmpty.Inside(t) && p.IsFull()
    ensures Inv(p.(notFull := p.notFull.Wait(t), offering := p.offering[t := task]))
  {
    WaitInside(p.notFull, t);
  }

  lemma PushKeepsInv(p: Pool, t: Tid, task: Task, pick: Tid)
    requires Inv(p) && t !in p.notFull.waiting && p.notEmpty.CanPick(pick) && !p.IsFull() && p.workers != {}
    ensures Inv(p.(notFull := p.notFull.Leave(t), offering := p.offering - {t},
                   queue := p.queue + [task], submitted := p.submitted + [task],
                   notEmpty := p.notEmpty.Notify(pick)))
  {
    LeaveCovers(p.notFull, t, p.maxQueueSize - |p.queue|);
    NotifyCovers(p.notEmpty, pick, |p.queue|);
    assert p.taken + (p.queue + [task]) == p.submitted + [task];
  }

  lemma PushOrWaitKeepsInv(p: Pool, t: Tid, task: Task, pick: Tid)
    requires Inv(p) && t !in p.notFull.waiting && !p.notEmpty.Inside(t) && p.notEmpty.CanPick(pick)
    ensures PushOrWait(p, t, task, pick).Ok? && Inv(PushOrWait(p, t, task, pick).state)
  {
    if p.workers == {} {
      assert p.taken + [task] + p.queue == p.submitted + [task];
    } else if p.IsFull() {
      WaitForRoomKeepsInv(p, t, task);
    } else {
      PushKeepsInv(p, t, task, pick);
    }
  }

  lemma PopOrWaitKeepsInv(p: Pool, t: Tid, pick: Tid)
    requires Inv(p) && t in p.workers && t !in p.exited && p.notFull.CanPick(pick)
    requires t !in p.notEmpty.waiting && !p.notFull.Inside(t)
    ensures Inv(PopOrWait(p, t, pick))
  {
    if p.queue == [] && p.running {
      WaitInside(p.notEmpty, t);
    } else {
      LeaveCovers(p.notEmpty, t, |p.queue|);
      if p.queue != [] {
        NotifyCovers(p.notFull, pick, p.maxQueueSize - |p.queue|);
        assert p.taken + [p.queue[0]] + p.queue[1..] == p.submitted;
      }
    }
  }

  lemma StepKeepsInv(p: Pool, e: Event)
    requires Inv(p)
    ensures Step(p, e).Ok? && Inv(Step(p, e).state)
  {
    if Enabled(p, e) {
      match e
      case RunEnter(t, task, pick) => PushOrWaitKeepsInv(p, t, task, pick);
      case RunResume(t, pick) => PushOrWaitKeepsInv(p, t, p.offering[t], pick);
      case TakeEnter(t, pick) => PopOrWaitKeepsInv(p, t, pick);
      case TakeResume(t, pick) => PopOrWaitKeepsInv(p, t, pick);
      case _ => QuietStepKeepsInv(p, e);
    }
  }

  /** Steps that leave the queue alone. */
  lemma QuietStepKeepsInv(p: Pool, e: Event)
    requires Inv(p) && Enabled(p, e) && (e.SpuriousProducer? || e.SpuriousWorker? || e.Exit? || e.Stop?)
    ensures Step(p, e).Ok? && Inv(Step(p, e).state)
  {
    match e
    case SpuriousProducer(t) => WokenInside(p.notFull, t, p.maxQueueSize - |p.queue|);
    case SpuriousWorker(t) => WokenInside(p.notEmpty, t, |p.queue|);
    case Exit(t) =>
    case Stop =>
  }

  // ----- every run

  lemma ReachableInv(workers: set<Tid>, maxQueueSize: nat, es: seq<Event>)
    ensures Run(Step, Start(workers, maxQueueSize), es).Ok?
    ensures Inv(Run(Step, Start(workers, maxQueueSize), es).state)
  {
    forall p, e | Inv(p) ensures Step(p, e).Ok? && Inv(Step(p, e).state) {
      StepKeepsInv(p, e);
    }
    RunKeeps(Step, Inv, Start(workers, maxQueueSize), es);
  }

  /** In every interleaving of any producers (workers among them) with the workers, with
      spurious wake-ups and stealing, no assertion fails and no wake-up is lost: while a worker
      waits unsignalled there are no more tasks than signalled workers, while a producer waits
      unsignalled there are no more free slots than signalled producers, and after `stop` no
      worker waits unsignalled.  Tasks are taken in the order they were submitted, and the
      queue keeps its bound. */
  lemma NoLostWakeup(workers: set<Tid>, maxQueueSize: nat, es: seq<Event>)
    ensures Run(Step, Start(workers, maxQueueSize), es).Ok?
    ensures var p := Run(Step, Start(workers, maxQueueSize), es).state;
            && (p.notEmpty.waiting != {} ==> |p.queue| <= |p.notEmpty.signalled|)
            && (p.notFull.waiting != {} ==> p.maxQueueSize - |p.queue| <= |p.notFull.signalled|)
            && (!p.running ==> p.notEmpty.waiting == {})
            && (p.maxQueueSize > 0 ==> |p.queue| <= p.maxQueueSize)
            && p.taken + p.queue == p.submitted
  {
    ReachableInv(workers, maxQueueSize, es);
  }

  // ----- what each step does to the queue

  /** Thread t waits nowhere and has not left. */
  predicate Free(p: Pool, t: Tid) {
    t !in p.exited && !p.notEmpty.Inside(t) && !p.notFull.Inside(t)
  }

  /** There is room, or nobody to queue for. */
  predicate Accepts(p: Pool) {
    p.workers == {} || p.maxQueueSize == 0 || |p.queue| < p.maxQueueSize
  }

  /** The task that a step of a call of `run` hands over, if it is one. */
  function SubmittedBy(p: Pool, e: Event): seq<Task> {
    match e
    case RunEnter(t, task, pick) =>
      if Free(p, t) && (p.notEmpty.waiting == {} || pick in p.notEmpty.waiting) && Accepts(p) then [task] else []
    case RunResume(t, pick) =>
      if && t in p.notFull.signalled + p.notFull.spurious && t in p.offering
         && (p.notEmpty.waiting == {} || pick in p.notEmpty.waiting) && Accepts(p)
      then [p.offering[t]] else []
    case _ => []
  }

  /** The task that a step takes, in `take` or, without workers, in `run`: the oldest one, whether
      the pool is running or stopped. */
  function TakenBy(p: Pool, e: Event): seq<Task> {
    match e
    case TakeEnter(t, pick) =>
      if && t in p.workers && Free(p, t) && (p.notFull.waiting == {} || pick in p.notFull.waiting) && p.queue != []
      then [p.queue[0]] else []
    case TakeResume(t, pick) =>
      if && t in p.notEmpty.signalled + p.notEmpty.spurious
         && (p.notFull.waiting == {} || pick in p.notFull.waiting) && p.queue != []
      then [p.queue[0]] else []
    case _ => if p.workers == {} then SubmittedBy(p, e) else []
  }

  lemma StepSubmits(p: Pool, e: Event)
    requires Step(p, e).Ok?
    ensures Step(p, e).state.submitted == p.submitted + SubmittedBy(p, e)
  {
  }

  lemma StepTakes(p: Pool, e: Event)
    requires Step(p, e).Ok?
    ensures Step(p, e).state.taken == p.taken + TakenBy(p, e)
  {
  }

  /** Every task once, in order: over every run the tasks taken, then the queue, are the tasks that
      the calls of `run` handed over. */
  lemma TasksInOrder(workers: set<Tid>, maxQueueSize: nat, es: seq<Event>)
    ensures var p := Start(workers, maxQueueSize);
            && Run(Step, p, es).Ok?
            && Gathered(Step, TakenBy, p, es) + Run(Step, p, es).state.queue == Gathered(Step, SubmittedBy, p, es)
  {
    var p := Start(workers, maxQueueSize);
    ReachableInv(workers, maxQueueSize, es);
    forall q, e | Step(q, e).Ok?
      ensures Step(q, e).state.submitted == q.submitted + SubmittedBy(q, e)
      ensures Step(q, e).state.taken == q.taken + TakenBy(q, e)
    {
      StepSubmits(q, e);
      StepTakes(q, e);
    }
    RunGathers(Step, _ => true, _ => true, (q: Pool) => q.submitted, SubmittedBy, p, es);
    RunGathers(Step, _ => true, _ => true, (q: Pool) => q.taken, TakenBy, p, es);
    assert [] + Gathered(Step, TakenBy, p, es) == Gathered(Step, TakenBy, p, es);
    assert [] + Gathered(Step, SubmittedBy, p, es) == Gathered(Step, SubmittedBy, p, es);
  }

  /** A worker that evaluates its wait loop: it takes the oldest task, stopped or not, and wakes a
      blocked producer; it waits on an empty queue of a running pool; it returns empty-handed
      exactly from an empty queue of a stopped one. */
  lemma TakeEffect(p: Pool, e: Event)
    requires Inv(p) && (e.TakeEnter? || e.TakeResume?) && Enabled(p, e)
    ensures Step(p, e).Ok?
    ensures var q := Step(p, e).state;
            && (p.queue != [] ==>
                  && q.queue == p.queue[1..] && q.taken == p.taken + [p.queue[0]] && Free(q, e.t)
                  && (p.maxQueueSize > 0 && p.notFull.waiting != {} ==>
                        q.notFull.waiting == p.notFull.waiting - {e.pick} && e.pick in q.notFull.signalled))
            && (p.queue == [] ==> q.queue == [] && q.taken == p.taken && q.notFull == p.notFull)
            && (e.t in q.notEmpty.waiting <==> p.queue == [] && p.running)
            && (Free(q, e.t) && q.taken == p.taken <==> p.queue == [] && !p.running)
  {
    var q := PopOrWait(p, e.t, e.pick);
    assert Step(p, e) == Ok(q);
    assert p.queue != [] ==> |q.taken| == |p.taken| + 1;
    NotifyInside(p.notFull, e.pick, e.t);
    assert !p.notFull.Inside(e.t);
  }

  /** A spurious wake-up is possible for every waiting thread, and uses up no signal. */
  lemma SpuriousEffect(p: Pool, t: Tid)
    requires Inv(p)
    ensures Step(p, SpuriousWorker(t)).Ok? && Step(p, SpuriousProducer(t)).Ok?
    ensures t in p.notEmpty.waiting ==>
              Step(p, SpuriousWorker(t)).state == p.(notEmpty := Condition(
                p.notEmpty.waiting - {t}, p.notEmpty.signalled, p.notEmpty.spurious + {t}))
    ensures t in p.notFull.waiting ==>
              Step(p, SpuriousProducer(t)).state == p.(notFull := Condition(
                p.notFull.waiting - {t}, p.notFull.signalled, p.notFull.spurious + {t}))
  {
  }

  /** A caller that evaluates its wait loop: with room it pushes its task at the back and wakes a
      waiting worker; on a full queue it waits with its task in hand. */
  lemma RunEffect(p: Pool, e: Event)
    requires Inv(p) && (e.RunEnter? || e.RunResume?) && Enabled(p, e) && p.workers != {}
    ensures Step(p, e).Ok?
    ensures var q, task := Step(p, e).state, if e.RunEnter? then e.task else p.offering[e.t];
            && (e.t in q.notFull.waiting <==> p.maxQueueSize > 0 && |p.queue| >= p.maxQueueSize)
            && (e.t in q.notFull.waiting ==> q.offering == p.offering[e.t := task] && q.queue == p.queue)
            && (e.t !in q.notFull.waiting ==>
                  && q.queue == p.queue + [task] && !q.notFull.Inside(e.t) && e.t !in q.offering
                  && (p.notEmpty.waiting != {} ==>
                        q.notEmpty.waiting == p.notEmpty.waiting - {e.pick} && e.pick in q.notEmpty.signalled))
  {
    StepKeepsInv(p, e);
  }

  lemma StepUnchanging(p: Pool, e: Event)
    requires Step(p, e).Ok?
    ensures Step(p, e).state.workers == p.workers && Step(p, e).state.maxQueueSize == p.maxQueueSize
  {
  }

  ghost predicate SamePool(p: Pool, workers: set<Tid>, maxQueueSize: nat) {
    Inv(p) && p.workers == workers && p.maxQueueSize == maxQueueSize
  }

  lemma Unchanging(p: Pool, es: seq<Event>)
    requires Inv(p)
    ensures Run(Step, p, es).Ok?
    ensures Run(Step, p, es).state.workers == p.workers && Run(Step, p, es).state.maxQueueSize == p.maxQueueSize
  {
    var (workers, size) := (p.workers, p.maxQueueSize);
    forall q, e | SamePool(q, workers, size) ensures Step(q, e).Ok? && SamePool(Step(q, e).state, workers, size) {
      StepKeepsInv(q, e);
      StepUnchanging(q, e);
    }
    RunKeeps(Step, q => SamePool(q, workers, size), p, es);
  }

  // ----- is anybody awake?

  /** The event is not a call of `run` by a worker, that is, from inside a task. */
  predicate NotFromTask(workers: set<Tid>, e: Event) {
    e.RunEnter? ==> e.t !in workers
  }

  /** Tasks are queued, and every worker sleeps unsignalled. */
  predicate AllAsleep(p: Pool) {
    p.running && p.queue != [] && forall t :: t in p.workers ==> t in p.notEmpty.waiting || t in p.notFull.waiting
  }

  predicate AwakeWorker(p: Pool, t: Tid) {
    t in p.workers && t !in p.notEmpty.waiting && t !in p.notFull.waiting && t !in p.exited
  }

  /** A worker asleep on notEmpty_ beside queued tasks has a colleague on the way to them. */
  lemma SignalledColleague(p: Pool)
    requires Inv(p) && p.workers != {} && p.queue != [] && p.running
    requires p.notEmpty.waiting != {} || p.notFull.waiting !! p.workers
    ensures exists t :: AwakeWorker(p, t)
  {
    if p.notEmpty.waiting != {} {
      assert p.notEmpty.signalled != {};
      var t :| t in p.notEmpty.signalled;
      assert p.notEmpty.Inside(t);
      assert AwakeWorker(p, t);
    } else {
      var t :| t in p.workers;
      assert AwakeWorker(p, t);
    }
  }

  ghost predicate Outsiders(p: Pool, workers: set<Tid>) {
    Inv(p) && p.workers == workers && forall t :: p.notFull.Inside(t) ==> t !in workers
  }

  lemma OutsidersStep(p: Pool, workers: set<Tid>, e: Event)
    requires Outsiders(p, workers) && NotFromTask(workers, e)
    ensures Step(p, e).Ok? && Outsiders(Step(p, e).state, workers)
  {
    StepKeepsInv(p, e);
    if e.RunEnter? && Enabled(p, e) && p.workers != {} && p.IsFull() {
      WaitInside(p.notFull, e.t);
    }
  }

  /** While the pool runs with tasks queued some worker is awake or signalled, in every run in
      which no task calls `run`, and in every run at all if the queue is unbounded. */
  lemma SomeWorkerAwake(workers: set<Tid>, maxQueueSize: nat, es: seq<Event>)
    requires workers != {}
    requires maxQueueSize == 0 || forall i :: 0 <= i < |es| ==> NotFromTask(workers, es[i])
    ensures Run(Step, Start(workers, maxQueueSize), es).Ok?
    ensures var p := Run(Step, Start(workers, maxQueueSize), es).state;
            && p.workers == workers
            && (p.running && p.queue != [] ==> exists t :: AwakeWorker(p, t))
  {
    var s := Start(workers, maxQueueSize);
    ReachableInv(workers, maxQueueSize, es);
    Unchanging(s, es);
    var p := Run(Step, s, es).state;
    if maxQueueSize > 0 {
      forall q, e | Outsiders(q, workers) && NotFromTask(workers, e)
        ensures Step(q, e).Ok? && Outsiders(Step(q, e).state, workers)
      {
        OutsidersStep(q, workers, e);
      }
      RunKeepsOn(Step, q => Outsiders(q, workers), e => NotFromTask(workers, e), s, es);
    }
    if p.running && p.queue != [] {
      assert forall t :: t in p.notFull.waiting ==> p.notFull.Inside(t);
      SignalledColleague(p);
    }
  }

  /** Two blocked sides never wait for each other unsignalled. */
  lemma OneSideSignalled(workers: set<Tid>, maxQueueSize: nat, es: seq<Event>)
    ensures Run(Step, Start(workers, maxQueueSize), es).Ok?
    ensures var p := Run(Step, Start(workers, maxQueueSize), es).state;
            p.notEmpty.waiting != {} && p.notFull.waiting != {} ==> p.notEmpty.signalled + p.notFull.signalled != {}
  {
    ReachableInv(workers, maxQueueSize, es);
    var p := Run(Step, Start(workers, maxQueueSize), es).state;
    if p.notFull.waiting != {} {
      var t :| t in p.notFull.waiting;
      assert p.notFull.Inside(t);
    }
  }

  // ----- stuck

  /** The queue is full, and every worker has left or is itself blocked in `run`. */
  ghost predicate Stuck(p: Pool) {
    Inv(p) && p.workers != {} && p.IsFull() && forall t :: t in p.workers ==> t in p.exited || p.notFull.Inside(t)
  }

  /** `q` has every blocked call of `p`, and nothing has moved through the queue. */
  predicate StillBlocked(p: Pool, q: Pool) {
    && q.queue == p.queue && q.submitted == p.submitted && q.taken == p.taken
    && forall t :: t in p.offering ==> t in q.offering && q.offering[t] == p.offering[t]
  }

  lemma StuckStep(p: Pool, e: Event)
    requires Stuck(p)
    ensures Step(p, e).Ok? && Stuck(Step(p, e).state) && StillBlocked(p, Step(p, e).state)
  {
    StepKeepsInv(p, e);
    if Enabled(p, e) {
      match e
      case RunEnter(t, _, _) => WaitInside(p.notFull, t);
      case RunResume(t, _) => WaitInside(p.notFull, t);
      case TakeResume(t, _) => assert p.notEmpty.Inside(t);
      case _ =>
    }
  }

  /** From there no continuation, however long, moves a task or lets a blocked call finish. */
  lemma StuckForever(p: Pool, es: seq<Event>)
    requires Stuck(p)
    ensures Run(Step, p, es).Ok? && Stuck(Run(Step, p, es).state) && StillBlocked(p, Run(Step, p, es).state)
  {
    forall q, e | Stuck(q) && StillBlocked(p, q)
      ensures Step(q, e).Ok? && Stuck(Step(q, e).state) && StillBlocked(p, Step(q, e).state)
    {
      StuckStep(q, e);
    }
    RunKeeps(Step, q => Stuck(q) && StillBlocked(p, q), p, es);
  }

  // ----- runs that get stuck

  /** Thread u, not busy with this pool, submits tasks until the queue is full. */
  lemma FillUp(p: Pool, u: Tid) returns (es: seq<Event>)
    requires Inv(p) && p.workers != {} && p.maxQueueSize > 0 && p.notEmpty.waiting == {}
    requires u !in p.exited && !p.notFull.Inside(u) && !p.notEmpty.Inside(u)
    ensures forall i :: 0 <= i < |es| ==> es[i].RunEnter? && es[i].t == u
    ensures Run(Step, p, es).Ok?
    ensures var q := Run(Step, p, es).state;
            Inv(q) && q.IsFull() && q == p.(queue := q.queue, submitted := q.submitted)
    decreases p.maxQueueSize - |p.queue|
  {
    es := [];
    if !p.IsFull() {
      var e := RunEnter(u, 0, 0);
      StepKeepsInv(p, e);
      assert u !in p.offering;
      PushIs(p, u);
      var rest := FillUp(Step(p, e).state, u);
      RunCons(Step, p, e, rest);
      es := [e] + rest;
    }
  }

  lemma PushIs(p: Pool, u: Tid)
    requires p.workers != {} && !p.IsFull() && p.notEmpty.waiting == {}
    requires u !in p.exited && !p.notFull.Inside(u) && !p.notEmpty.Inside(u) && u !in p.offering
    ensures Step(p, RunEnter(u, 0, 0)) == Ok(p.(queue := p.queue + [0], submitted := p.submitted + [0]))
  {
    LeavingUnseen(p.notFull, u);
    assert p.offering - {u} == p.offering;
  }

  lemma LeavingUnseen(c: Condition, u: Tid)
    requires !c.Inside(u)
    ensures c.Leave(u) == c
  {
  }

  /** Nobody waits anywhere. */
  predicate Calm(p: Pool) {
    p.running && p.notEmpty == Nobody && p.notFull == Nobody
  }

  /** An outsider feeds each worker of ws one task to be busy with. */
  lemma MakeBusy(p: Pool, ws: set<Tid>, u: Tid) returns (es: seq<Event>)
    requires Inv(p) && Calm(p) && p.queue == [] && p.maxQueueSize > 0 && ws <= p.workers && u !in p.workers
    ensures Run(Step, p, es).Ok?
    ensures var q := Run(Step, p, es).state;
            Inv(q) && Calm(q) && q.queue == [] && q.maxQueueSize == p.maxQueueSize && q.workers == p.workers
    decreases ws
  {
    es := [];
    if ws != {} {
      var w :| w in ws;
      var q := BusyOne(p, w, u);
      var rest := MakeBusy(q, ws - {w}, u);
      RunConcat(Step, p, [RunEnter(u, 0, 0), TakeEnter(w, 0)], rest);
      es := [RunEnter(u, 0, 0), TakeEnter(w, 0)] + rest;
    }
  }

  lemma BusyOne(p: Pool, w: Tid, u: Tid) returns (q: Pool)
    requires Inv(p) && Calm(p) && p.queue == [] && p.maxQueueSize > 0 && w in p.workers && u !in p.workers
    ensures Run(Step, p, [RunEnter(u, 0, 0), TakeEnter(w, 0)]) == Ok(q)
    ensures Inv(q) && Calm(q) && q.queue == [] && q.maxQueueSize == p.maxQueueSize && q.workers == p.workers
  {
    assert u !in p.offering by { assert !p.notFull.Inside(u); }
    PushIs(p, u);
    var r := Step(p, RunEnter(u, 0, 0)).state;
    StepKeepsInv(p, RunEnter(u, 0, 0));
    StepKeepsInv(r, TakeEnter(w, 0));
    assert Nobody.Leave(w) == Nobody;
    q := Step(r, TakeEnter(w, 0)).state;
    RunTwo(Step, p, RunEnter(u, 0, 0), TakeEnter(w, 0));
  }

  /** On a full queue each worker of ws submits from inside its task, and blocks. */
  lemma BlockAll(p: Pool, ws: set<Tid>) returns (es: seq<Event>)
    requires Inv(p) && p.running && p.IsFull() && ws <= p.workers && p.notEmpty == Nobody
    requires forall t :: t in p.workers ==> t in ws || t in p.notFull.waiting
    requires forall t :: t in ws ==> !p.notFull.Inside(t)
    ensures Run(Step, p, es).Ok?
    ensures var q := Run(Step, p, es).state;
            && Inv(q) && q.running && q.IsFull() && q.workers == p.workers
            && forall t :: t in q.workers ==> t in q.notFull.waiting
    decreases ws
  {
    es := [];
    if ws != {} {
      var w :| w in ws;
      var e := RunEnter(w, 0, 0);
      StepKeepsInv(p, e);
      var rest := BlockAll(Step(p, e).state, ws - {w});
      RunCons(Step, p, e, rest);
      es := [e] + rest;
    }
  }

  lemma {:induction false} Above(s: set<Tid>) returns (u: Tid)
    ensures forall t :: t in s ==> t < u
    decreases s
  {
    u := 0;
    if s != {} {
      var t :| t in s;
      var v := Above(s - {t});
      u := if v <= t then t + 1 else v;
      assert forall x :: x in s ==> x == t || x in s - {t};
    }
  }

  /** Tasks that submit tasks can put a bounded pool to sleep for good: every worker takes a
      task, the queue fills up, and every worker calls `run`. */
  lemma TasksCanDeadlock(workers: set<Tid>, maxQueueSize: nat) returns (es: seq<Event>)
    requires workers != {} && maxQueueSize > 0
    ensures Run(Step, Start(workers, maxQueueSize), es).Ok?
    ensures var p := Run(Step, Start(workers, maxQueueSize), es).state; AllAsleep(p) && Stuck(p)
  {
    var s := Start(workers, maxQueueSize);
    var u := Above(workers);
    ReachableInv(workers, maxQueueSize, []);
    var busy := MakeBusy(s, workers, u);
    var p := Run(Step, s, busy).state;
    var fill := FillUp(p, u);
    var q := Run(Step, p, fill).state;
    var block := BlockAll(q, workers);
    RunConcat(Step, s, busy, fill);
    RunConcat(Step, s, busy + fill, block);
    es := busy + fill + block;
  }

  /** Everybody can be asleep beside queued tasks exactly on a bounded queue, and then only by
      tasks that submit tasks (SomeWorkerAwake). */
  lemma AllAsleepIffBounded(workers: set<Tid>, maxQueueSize: nat)
    requires workers != {}
    ensures maxQueueSize > 0 <==>
            exists es :: var r := Run(Step, Start(workers, maxQueueSize), es); r.Ok? && AllAsleep(r.state)
  {
    if maxQueueSize > 0 {
      var es := TasksCanDeadlock(workers, maxQueueSize);
    } else {
      forall es | Run(Step, Start(workers, 0), es).Ok? ensures !AllAsleep(Run(Step, Start(workers, 0), es).state) {
        SomeWorkerAwake(workers, 0, es);
      }
    }
  }

  // ----- `stop` does not signal notFull_

  predicate IsCall(e: Event, t: Tid) {
    e.RunEnter? && e.t == t
  }

  /** Thread t makes no new call of `run`. */
  predicate NoNewCall(es: seq<Event>, t: Tid) {
    forall i :: 0 <= i < |es| ==> !IsCall(es[i], t)
  }

  predicate Retired(p: Pool, w: Tid) {
    w in p.exited || p.notFull.Inside(w)
  }

  /** After `stop`, what leads from p to q left every blocked call and every retired worker. */
  ghost predicate Retiring(p: Pool, q: Pool) {
    && Inv(q) && !q.running && q.workers == p.workers && q.maxQueueSize == p.maxQueueSize && q.offering == p.offering
    && q.exited <= p.exited + p.workers && forall w :: Retired(p, w) ==> Retired(q, w)
  }

  /** A worker that `stop` has woken takes what it finds and leaves, unless it is blocked in `run`. */
  lemma Retire(p: Pool, w: Tid, t: Tid) returns (es: seq<Event>)
    requires Inv(p) && !p.running && w in p.workers
    ensures NoNewCall(es, t) && Run(Step, p, es).Ok?
    ensures Retiring(p, Run(Step, p, es).state) && Retired(Run(Step, p, es).state, w)
  {
    es := [];
    if !Retired(p, w) {
      if p.notEmpty.Inside(w) {
        var pick := 0;
        if p.notFull.waiting != {} {
          pick :| pick in p.notFull.waiting;
        }
        es := [TakeResume(w, pick), Exit(w)];
        TakeAndLeave(p, w, pick);
      } else {
        es := [Exit(w)];
        StepKeepsInv(p, Exit(w));
        RunOne(Step, p, Exit(w));
      }
    }
  }

  lemma TakeAndLeave(p: Pool, w: Tid, pick: Tid)
    requires Inv(p) && !p.running && w in p.workers && w !in p.exited
    requires p.notEmpty.Inside(w) && p.notFull.CanPick(pick)
    ensures Run(Step, p, [TakeResume(w, pick), Exit(w)]).Ok?
    ensures var q := Run(Step, p, [TakeResume(w, pick), Exit(w)]).state; Retiring(p, q) && Retired(q, w)
  {
    StepKeepsInv(p, TakeResume(w, pick));
    var q := Step(p, TakeResume(w, pick)).state;
    StepKeepsInv(q, Exit(w));
    RunTwo(Step, p, TakeResume(w, pick), Exit(w));
  }

  lemma RetireAll(p: Pool, ws: set<Tid>, t: Tid) returns (es: seq<Event>)
    requires Inv(p) && !p.running && ws <= p.workers && forall w :: w in p.workers ==> w in ws || Retired(p, w)
    ensures NoNewCall(es, t) && Run(Step, p, es).Ok?
    ensures var q := Run(Step, p, es).state; Retiring(p, q) && forall w :: w in q.workers ==> Retired(q, w)
    decreases ws
  {
    es := [];
    if ws != {} {
      var w :| w in ws;
      var one := Retire(p, w, t);
      var q := Run(Step, p, one).state;
      var rest := RetireAll(q, ws - {w}, t);
      RunConcat(Step, p, one, rest);
      es := one + rest;
    }
  }

  /** A call of `stop` can strand a producer's call for good exactly if that call is blocked
      when `stop` is made: the woken workers leave, another producer takes the last slot, and
      nobody will ever signal notFull_ again. */
  lemma StopStrandsIffBlocked(p: Pool, t: Tid)
    requires Inv(p) && p.running
    ensures t in p.offering <==>
            exists es :: NoNewCall(es, t) && Run(Step, p, [Stop] + es).Ok?
                         && Stuck(Run(Step, p, [Stop] + es).state) && t in Run(Step, p, [Stop] + es).state.offering
  {
    if t in p.offering {
      var es := Strand(p, t);
    } else {
      forall es | NoNewCall(es, t) && Run(Step, p, [Stop] + es).Ok?
        ensures t !in Run(Step, p, [Stop] + es).state.offering
      {
        NeverOffers(p, t, [Stop] + es);
      }
    }
  }

  ghost predicate NotOffering(p: Pool, t: Tid) {
    Inv(p) && t !in p.offering
  }

  lemma NeverOffers(p: Pool, t: Tid, es: seq<Event>)
    requires NotOffering(p, t) && NoNewCall(es, t)
    ensures Run(Step, p, es).Ok? && t !in Run(Step, p, es).state.offering
  {
    forall q, e | NotOffering(q, t) && !IsCall(e, t) ensures Step(q, e).Ok? && NotOffering(Step(q, e).state, t) {
      StepKeepsInv(q, e);
      OffersOnlyOnCall(q, t, e);
    }
    RunKeepsOn(Step, q => NotOffering(q, t), e => !IsCall(e, t), p, es);
  }

  lemma OffersOnlyOnCall(p: Pool, t: Tid, e: Event)
    requires Step(p, e).Ok? && t !in p.offering && !IsCall(e, t)
    ensures t !in Step(p, e).state.offering
  {
  }

  lemma Strand(p: Pool, t: Tid) returns (es: seq<Event>)
    requires Inv(p) && p.running && t in p.offering
    ensures NoNewCall(es, t) && Run(Step, p, [Stop] + es).Ok?
    ensures var q := Run(Step, p, [Stop] + es).state; Stuck(q) && t in q.offering
  {
    StepKeepsInv(p, Stop);
    var p1 := Step(p, Stop).state;
    var leave := RetireAll(p1, p1.workers, t);
    var p2 := Run(Step, p1, leave).state;
    var u := Above(p2.workers + p2.exited + p2.offering.Keys);
    assert p2.notFull.Inside(t) && t != u && u !in p2.offering;
    var fill := FillUp(p2, u);
    RunConcat(Step, p1, leave, fill);
    es := leave + fill;
    RunCons(Step, p, Stop, es);
  }

  /** Once the workers have left, a blocked producer can finish exactly when the queue is not full. */
  lemma StrandedIffFull(p: Pool, t: Tid)
    requires Inv(p) && !p.running && p.exited == p.workers && t in p.offering
    ensures !p.IsFull() <==>
            exists es :: Run(Step, p, es).Ok? && Run(Step, p, es).state.submitted == p.submitted + [p.offering[t]]
  {
    if p.IsFull() {
      forall es | Run(Step, p, es).Ok? ensures Run(Step, p, es).state.submitted != p.submitted + [p.offering[t]] {
        StuckForever(p, es);
      }
    } else {
      var es := Finish(p, t);
    }
  }

  /** A blocked producer wakes and finds room. */
  lemma Finish(p: Pool, t: Tid) returns (es: seq<Event>)
    requires Inv(p) && !p.IsFull() && t in p.offering && p.notEmpty.CanPick(0)
    ensures Run(Step, p, es).Ok? && Run(Step, p, es).state.submitted == p.submitted + [p.offering[t]]
  {
    assert p.notFull.Inside(t);
    if t in p.notFull.waiting {
      es := [SpuriousProducer(t), RunResume(t, 0)];
      RunTwo(Step, p, SpuriousProducer(t), RunResume(t, 0));
    } else {
      es := [RunResume(t, 0)];
      RunOne(Step, p, RunResume(t, 0));
    }
  }

  // ----- the object

  /** The fields of the C++ class, changed in place.  A thread that would block in `wait`
      returns with `blocked` set and calls the same method again once it is awake. */
  class ThreadPool {
    const maxQueueSize: nat
    const workers: set<Tid>
    var running: bool
    var queue: seq<Task>
    var notEmpty: Condition
    var notFull: Condition
    var offering: map<Tid, Task>
    var exited: set<Tid>
    ghost var submitted: seq<Task>
    ghost var taken: seq<Task>

    ghost function View(): Pool
      reads this
    {
      Pool(maxQueueSize, workers, running, queue, notEmpty, notFull, offering, exited, submitted, taken)
    }

    constructor (workers: set<Tid>, maxQueueSize: nat)
      ensures View() == Start(workers, maxQueueSize) && Inv(View())
    {
      this.maxQueueSize, this.workers, running, queue := maxQueueSize, workers, true, [];
      notEmpty, notFull, offering, exited := Nobody, Nobody, map[], {};
      submitted, taken := [], [];
    }

    predicate IsFull()
      reads this
    {
      maxQueueSize > 0 && |queue| >= maxQueueSize
    }

    method RunTask(t: Tid, task: Task, pick: Tid) returns (blocked: bool)
      requires Inv(View())
      requires t !in notFull.waiting && !notEmpty.Inside(t) && notEmpty.CanPick(pick)
      modifies this
      ensures Inv(View()) && PushOrWait(old(View()), t, task, pick) == Ok(View())
      ensures blocked <==> workers != {} && maxQueueSize > 0 && old(|queue|) >= maxQueueSize
      ensures !blocked ==> submitted == old(submitted) + [task]
      ensures blocked ==> queue == old(queue) && t in notFull.waiting && offering == old(offering)[t := task]
      ensures !blocked && workers != {} ==>
                && queue == old(queue) + [task]
                && (old(notEmpty).waiting != {} ==>
                      notEmpty.waiting == old(notEmpty).waiting - {pick} && pick in notEmpty.signalled)
      ensures workers == {} ==> queue == old(queue) && taken == old(taken) + [task]
    {
      blocked := PushUnlessFull(t, task, pick);
      PushOrWaitKeepsInv(old(View()), t, task, pick);
    }

    method PushUnlessFull(t: Tid, task: Task, pick: Tid) returns (blocked: bool)
      modifies this
      ensures PushOrWait(old(View()), t, task, pick) == Ok(View())
      ensures blocked <==> workers != {} && old(IsFull())
      ensures !blocked ==> submitted == old(submitted) + [task]
    {
      if workers == {} {
        submitted, taken := submitted + [task], taken + [task];
        return false;
      }
      blocked := IsFull();
      if blocked {
        notFull := notFull.Wait(t);
        offering := offering[t := task];
        return;
      }
      assert !IsFull();
      notFull := notFull.Leave(t);
      offering := offering - {t};
      queue := queue + [task];
      submitted := submitted + [task];
      notEmpty := notEmpty.Notify(pick);
    }

    method Take(t: Tid, pick: Tid) returns (blocked: bool, task: seq<Task>)
      requires Inv(View())
      requires t in workers && t !in exited && t !in notEmpty.waiting && !notFull.Inside(t) && notFull.CanPick(pick)
      modifies this
      ensures Inv(View()) && View() == PopOrWait(old(View()), t, pick)
      ensures blocked <==> old(queue) == [] && running
      ensures old(queue) != [] ==> task == [old(queue)[0]] && queue == old(queue)[1..]
      ensures old(queue) == [] ==> task == [] && queue == []
      ensures taken == old(taken) + task
      ensures old(queue) != [] && maxQueueSize > 0 && old(notFull).waiting != {} ==>
                notFull.waiting == old(notFull).waiting - {pick} && pick in notFull.signalled
      ensures t in notEmpty.waiting <==> blocked
    {
      blocked, task := PopUnlessEmpty(t, pick);
      PopOrWaitKeepsInv(old(View()), t, pick);
    }

    method PopUnlessEmpty(t: Tid, pick: Tid) returns (blocked: bool, task: seq<Task>)
      modifies this
      ensures View() == PopOrWait(old(View()), t, pick)
      ensures blocked <==> old(queue) == [] && running
      ensures task == (if old(queue) == [] then [] else [old(queue)[0]]) && taken == old(taken) + task
    {
      blocked, task := false, [];
      if queue == [] && running {
        notEmpty := notEmpty.Wait(t);
        blocked := true;
        return;
      }
      notEmpty := notEmpty.Leave(t);
      if queue != [] {
        task := [queue[0]];
        taken := taken + task;
        queue := queue[1..];
        if maxQueueSize > 0 {
          notFull := notFull.Notify(pick);
        }
      }
    }

    method Stop()
      requires Inv(View())
      modifies this
      ensures Inv(View()) && Ok(View()) == Step(old(View()), Event.Stop)
      ensures !running && queue == old(queue) && notFull == old(notFull)
      ensures notEmpty.waiting == {} && notEmpty.signalled == old(notEmpty).waiting + old(notEmpty).signalled
    {
      StepKeepsInv(View(), Event.Stop);
      running := false;
      notEmpty := notEmpty.NotifyAll();
    }
  }
}
