/** What the writer of src/AsyncLogging.cpp gets and what it does with it: how much is waiting when
    it drops buffers, what one round of it writes, and what `stop` leaves behind. */
module LogRounds {
  import opened AsyncLog
  import opened Machine
  import opened Seqs

  // ----- the backlog

  /** The bytes held by some buffers. */
  function Bytes(bs: seq<Buf>): nat {
    if bs == [] then 0 else Bytes(bs[..|bs| - 1]) + Length(bs[|bs| - 1])
  }

  lemma BytesSnoc(bs: seq<Buf>, b: Buf)
    ensures Bytes(bs + [b]) == Bytes(bs) + Length(b)
  {
    assert (bs + [b])[..|bs|] == bs;
  }

  lemma LengthSnoc(b: Buf, m: Message)
    ensures Length(b + [m]) == Length(b) + |m| && Length([m]) == |m| && Length([]) == 0
  {
    FlattenSnoc(b, m);
    assert Flatten([m]) == m + Flatten([]);
  }

  /** The bytes that an event, and a run, offers in messages too long for any buffer. */
  function RefusedBy(e: Event): nat {
    if e.Append? && |e.message| >= 4_000_000 then |e.message| else 0
  }

  function Refused(es: seq<Event>): nat {
    if es == [] then 0 else RefusedBy(es[0]) + Refused(es[1..])
  }

  /** n buffers were put aside by messages that did not fit: each such message is at the start of
      the next buffer, or was refused. */
  predicate Justified(n: int, aside: nat, current: nat, refused: nat) {
    4_000_000 * n <= 2 * aside + current + 2 * refused
  }

  predicate Backed(l: Logger, refused: nat) {
    && Justified(|l.buffers|, Bytes(l.buffers), Length(l.current), refused)
    && (l.pc == Swapped ==> Justified(|l.toWrite| - 1, Bytes(l.toWrite), 0, refused))
  }

  lemma AppendBacked(l: Logger, m: Message, refused: nat)
    requires Shape(l) && Backed(l, refused)
    ensures Backed(AppendMessage(l, m), refused + RefusedBy(Append(m)))
  {
    AppendCases(l, m);
    LengthSnoc(l.current, m);
    BytesSnoc(l.buffers, l.current);
  }

  lemma SwapBacked(l: Logger, refused: nat)
    requires Shape(l) && (l.pc == Locking || l.pc == Waiting) && Backed(l, refused)
    ensures SwapBuffers(l).Ok? && Backed(SwapBuffers(l).state, refused)
  {
    SwapKeepsShape(l);
    BytesSnoc(l.buffers, l.current);
  }

  lemma StepBacked(l: Logger, e: Event, refused: nat)
    requires Shape(l) && Backed(l, refused) && Step(l, e).Ok?
    ensures Backed(Step(l, e).state, refused + RefusedBy(e))
  {
    match e
    case Append(m) => AppendBacked(l, m, refused);
    case Lock => if l.pc == Locking && l.buffers != [] { SwapBacked(l, refused); }
    case WaitReturns => if l.pc == Waiting { SwapBacked(l, refused); }
    case _ => OtherStep(l, e);
  }

  /** Steps that store nothing and swap nothing. */
  lemma OtherStep(l: Logger, e: Event)
    requires !e.Append? && e != Lock && e != WaitReturns && Step(l, e).Ok?
    ensures Step(l, e).state.buffers == l.buffers && Step(l, e).state.current == l.current
    ensures Step(l, e).state.pc == Swapped ==> l.pc == Swapped && Step(l, e).state.toWrite == l.toWrite
  {
  }

  lemma {:induction false} RunBacked(l: Logger, es: seq<Event>, refused: nat)
    requires Inv(l) && Backed(l, refused) && Run(Step, l, es).Ok?
    ensures Backed(Run(Step, l, es).state, refused + Refused(es))
    decreases |es|
  {
    if es != [] {
      StepKeepsInv(l, es[0]);
      StepBacked(l, es[0], refused);
      RunBacked(Step(l, es[0]).state, es[1..], refused + RefusedBy(es[0]));
    }
  }

  /** The drop branch is taken only under a real backlog: in every run, a batch of more than 25
      buffers holds 50 million bytes, or that much less what was refused as too long. */
  lemma DropNeedsBacklog(es: seq<Event>)
    requires Run(Step, Started(), es).Ok?
    ensures var l := Run(Step, Started(), es).state;
            l.pc == Swapped && |l.toWrite| > 25 ==> Bytes(l.toWrite) + Refused(es) >= 50_000_000
  {
    StartedInv();
    RunBacked(Started(), es, 0);
  }

  /** Refused bytes do count: each message too long for a buffer puts the current buffer aside,
      even an empty one, and stores nothing. */
  lemma {:induction false} OversizedRotate(l: Logger, m: Message, n: nat)
    requires Shape(l) && 4_000_000 <= |m| < 0x8000_0000
    ensures var r := Run(Step, l, seq(n, _ => Append(m)));
            && r.Ok? && |r.state.buffers| == |l.buffers| + n && Buffered(r.state) == Buffered(l)
            && r.state.pc == l.pc && Shape(r.state)
    decreases n
  {
    if n > 0 {
      var t := AppendMessage(l, m);
      AppendRotates(l, m);
      AppendEffect(l, m);
      AppendKeepsShape(l, m);
      OversizedRotate(t, m, n - 1);
      assert seq(n, _ => Append(m)) == [Append(m)] + seq(n - 1, _ => Append(m));
      RunCons(Step, l, Append(m), seq(n - 1, _ => Append(m)));
      assert Buffered(l) + [] == Buffered(l);
    }
  }

  /** Buffer a was left because the first message of buffer b did not fit it. */
  predicate Overflows(a: Buf, b: Buf) {
    b != [] && Length(a) + |b[0]| >= 4_000_000
  }

  predicate Packed(bs: seq<Buf>) {
    forall i, j :: 0 <= i && j == i + 1 < |bs| ==> Overflows(bs[i], bs[j])
  }

  predicate AllPacked(l: Logger) {
    Packed(l.buffers + [l.current]) && (l.pc == Swapped ==> Packed(l.toWrite))
  }

  lemma PackedExtends(bs: seq<Buf>, b: Buf, m: Message)
    requires Packed(bs + [b])
    ensures Packed(bs + [b + [m]])
    ensures Length(b) + |m| >= 4_000_000 ==> Packed(bs + [b] + [[m]])
  {
    var old_, longer := bs + [b], bs + [b + [m]];
    forall i, j | 0 <= i && j == i + 1 < |longer| ensures Overflows(longer[i], longer[j]) {
      assert Overflows(old_[i], old_[j]);
    }
    var more := old_ + [[m]];
    if Length(b) + |m| >= 4_000_000 {
      forall i, j | 0 <= i && j == i + 1 < |more| ensures Overflows(more[i], more[j]) {
        assert j < |old_| ==> Overflows(old_[i], old_[j]);
      }
    }
  }

  lemma AppendPacked(l: Logger, m: Message)
    requires Shape(l) && AllPacked(l) && |m| < 4_000_000
    ensures AllPacked(AppendMessage(l, m))
  {
    AppendCases(l, m);
    PackedExtends(l.buffers, l.current, m);
  }

  lemma SwapPacked(l: Logger)
    requires Shape(l) && (l.pc == Locking || l.pc == Waiting) && AllPacked(l)
    ensures SwapBuffers(l).Ok? && AllPacked(SwapBuffers(l).state)
  {
    SwapKeepsShape(l);
  }

  lemma StepPacked(l: Logger, e: Event)
    requires Shape(l) && AllPacked(l) && Step(l, e).Ok? && RefusedBy(e) == 0
    ensures AllPacked(Step(l, e).state)
  {
    match e
    case Append(m) => AppendPacked(l, m);
    case Lock => if l.pc == Locking && l.buffers != [] { SwapPacked(l); }
    case WaitReturns => if l.pc == Waiting { SwapPacked(l); }
    case _ => OtherStep(l, e);
  }

  lemma {:induction false} RunPacked(l: Logger, es: seq<Event>)
    requires Inv(l) && AllPacked(l) && Run(Step, l, es).Ok? && Refused(es) == 0
    ensures AllPacked(Run(Step, l, es).state)
    decreases |es|
  {
    if es != [] {
      StepKeepsInv(l, es[0]);
      StepPacked(l, es[0]);
      RunPacked(Step(l, es[0]).state, es[1..]);
    }
  }

  /** In every run of messages shorter than a buffer, each buffer that was put aside, waiting or in
      the writer's batch, would have overflowed with the first message of the next. */
  lemma BuffersArePacked(es: seq<Event>)
    requires Run(Step, Started(), es).Ok? && Refused(es) == 0
    ensures AllPacked(Run(Step, Started(), es).state)
  {
    StartedInv();
    RunPacked(Started(), es);
  }

  // ----- one round of the writer

  /** The writer waits exactly for an empty queue, and otherwise, or when the wait is over, takes
      everything the producers have stored. */
  lemma LockTakesEverything(l: Logger, e: Event)
    requires Shape(l) && ((e == Lock && l.pc == Locking) || (e == WaitReturns && l.pc == Waiting))
    ensures Step(l, e).Ok?
    ensures var l' := Step(l, e).state;
            if e == Lock && l.buffers == [] then l' == l.(pc := Waiting)
            else l'.pc == Swapped && l'.toWrite == l.buffers + [l.current] && Buffered(l') == []
                 && l'.file == l.file && l'.accepted == l.accepted
  {
    assert Flatten<Message>([]) == [];
  }

  /** The batch as it is written: whole up to 25 buffers, else its first two. */
  function Kept(bs: seq<Buf>): seq<Buf> {
    if |bs| <= 25 then bs else bs[..2]
  }

  function Writes(n: nat): seq<Event> {
    if n == 0 then [] else [Write] + Writes(n - 1)
  }

  /** `m` has written bufs since `l`, and changed nothing else. */
  predicate Wrote(l: Logger, m: Logger, bufs: seq<Buf>) {
    && Logged(m.file) == Logged(l.file) + Flatten(bufs)
    && m == l.(pc := m.pc, file := m.file, settled := m.settled)
  }

  lemma WriteEffect(l: Logger)
    requires l.pc.Writing? && l.pc.next < |l.toWrite|
    ensures Step(l, Write) == Ok(WriteOne(l)) && Wrote(l, WriteOne(l), [l.toWrite[l.pc.next]])
    ensures WriteOne(l).pc == Writing(l.pc.next + 1)
  {
    var b := l.toWrite[l.pc.next];
    LoggedSnoc(l.file, Log(b));
    assert Flatten([b]) == b + Flatten([]);
  }

  lemma WroteMore(l: Logger, m: Logger, n: Logger, b: Buf, bufs: seq<Buf>)
    requires Wrote(l, m, [b]) && Wrote(m, n, bufs)
    ensures Wrote(l, n, [b] + bufs)
  {
    FlattenConcat([b], bufs);
    Assoc(Logged(l.file), Flatten([b]), Flatten(bufs));
  }

  lemma {:induction false} WritesRun(l: Logger, i: nat)
    requires l.pc == Writing(i) && i <= |l.toWrite|
    ensures var r := Run(Step, l, Writes(|l.toWrite| - i));
            r.Ok? && r.state.pc == Writing(|l.toWrite|) && Wrote(l, r.state, l.toWrite[i..])
    decreases |l.toWrite| - i
  {
    var n := |l.toWrite| - i;
    if n > 0 {
      WriteEffect(l);
      var m := WriteOne(l);
      WritesRun(m, i + 1);
      RunCons(Step, l, Write, Writes(n - 1));
      assert l.toWrite[i..] == [l.toWrite[i]] + m.toWrite[i + 1..];
      WroteMore(l, m, Run(Step, m, Writes(n - 1)).state, l.toWrite[i], m.toWrite[i + 1..]);
    } else {
      assert l.toWrite[i..] == [] && Logged(l.file) + [] == Logged(l.file);
    }
  }

  lemma DropEffect(l: Logger)
    requires Shape(l) && l.pc == Swapped
    ensures Step(l, Drop).Ok? && Shape(Step(l, Drop).state)
    ensures var l' := Step(l, Drop).state;
            && l'.pc == Writing(0) && l'.toWrite == Kept(l.toWrite) && Logged(l'.file) == Logged(l.file)
            && l' == l.(pc := l'.pc, toWrite := l'.toWrite, condemned := l'.condemned, file := l'.file)
            && (|l.toWrite| <= 25 ==> l'.file == l.file && l'.condemned == [])
  {
    DropKeepsShape(l);
    NoticeIsNoMessage(l.file);
  }

  lemma NoticeIsNoMessage(file: seq<Chunk>)
    ensures Logged(file + [DropNotice]) == Logged(file)
  {
    LoggedSnoc(file, DropNotice);
  }

  /** From the swap to the next test: a batch of at most 25 buffers is written whole, of a larger
      one the first two; the producers are not disturbed, and the spares are back. */
  lemma BatchIsWritten(l: Logger)
    requires Shape(l) && l.pc == Swapped
    ensures var r := Run(Step, l, [Drop] + (Writes(|Kept(l.toWrite)|) + [Recycle]));
            && r.Ok? && r.state.pc == Testing && Shape(r.state) && Buffered(r.state) == Buffered(l)
            && Logged(r.state.file) == Logged(l.file) + Flatten(Kept(l.toWrite))
  {
    DropEffect(l);
    var a := Step(l, Drop).state;
    WriteThenRecycle(a);
    RunCons(Step, l, Drop, Writes(|a.toWrite|) + [Recycle]);
  }

  lemma WriteThenRecycle(l: Logger)
    requires Shape(l) && l.pc == Writing(0)
    ensures var r := Run(Step, l, Writes(|l.toWrite|) + [Recycle]);
            && r.Ok? && r.state.pc == Testing && Shape(r.state) && Buffered(r.state) == Buffered(l)
            && Logged(r.state.file) == Logged(l.file) + Flatten(l.toWrite)
  {
    WritesRun(l, 0);
    assert l.toWrite[0..] == l.toWrite;
    var m := Run(Step, l, Writes(|l.toWrite|)).state;
    RunSnoc(Step, l, Writes(|l.toWrite|), Recycle);
    WroteShape(l, m, l.toWrite);
    RecycleEffect(m);
  }

  lemma WroteShape(l: Logger, m: Logger, bufs: seq<Buf>)
    requires Shape(l) && l.pc.Writing? && Wrote(l, m, bufs) && m.pc == Writing(|l.toWrite|)
    ensures Shape(m) && Buffered(m) == Buffered(l)
  {
  }

  lemma RecycleEffect(l: Logger)
    requires Shape(l) && l.pc == Writing(|l.toWrite|)
    ensures Step(l, Recycle).Ok? && Shape(Step(l, Recycle).state) && Step(l, Recycle).state.pc == Testing
    ensures Step(l, Recycle).state.file == l.file && Buffered(Step(l, Recycle).state) == Buffered(l)
  {
    RecycleKeepsShape(l);
  }

  /** The steps of the writer from one test of running_ to the next, when n buffers are kept. */
  function Round(n: nat): seq<Event> {
    [Test, Lock, WaitReturns] + ([Drop] + (Writes(n) + [Recycle]))
  }

  lemma TestPasses(l: Logger)
    requires Shape(l) && l.pc == Testing && l.running
    ensures Step(l, Test) == Ok(l.(pc := Locking)) && Shape(l.(pc := Locking))
  {
  }

  lemma LockThenWait(l: Logger)
    requires Shape(l) && l.pc == Locking
    ensures var a := Step(l, Lock);
            && a.Ok? && Step(a.state, WaitReturns).Ok?
            && var m := Step(a.state, WaitReturns).state;
               && m.pc == Swapped && Shape(m) && m.toWrite == l.buffers + [l.current]
               && Buffered(m) == [] && m.file == l.file
  {
    LockTakesEverything(l, Lock);
    if l.buffers == [] {
      var waiting := l.(pc := Waiting);
      LockTakesEverything(waiting, WaitReturns);
      SwapKeepsShape(waiting);
    } else {
      SwapKeepsShape(l);
    }
  }

  lemma RoundStarts(l: Logger)
    requires Inv(l) && l.pc == Testing && l.running
    ensures var r := Run(Step, l, [Test, Lock, WaitReturns]);
            && r.Ok? && r.state.pc == Swapped && Shape(r.state) && r.state.toWrite == l.buffers + [l.current]
            && Buffered(r.state) == [] && r.state.file == l.file
  {
    TestPasses(l);
    LockThenWait(l.(pc := Locking));
    RunThree(Step, l, Test, Lock, WaitReturns);
  }

  /** A round of the writer, with nothing in between: everything that the producers have stored is
      in the file, in order, if that is at most 25 buffers, and otherwise the first two are. */
  lemma RoundWritesEverything(l: Logger)
    requires Inv(l) && l.pc == Testing && l.running
    ensures var batch := l.buffers + [l.current];
            var r := Run(Step, l, Round(|Kept(batch)|));
            && r.Ok? && r.state.pc == Testing && Buffered(r.state) == []
            && Logged(r.state.file) == Logged(l.file) + Flatten(Kept(batch))
            && (|batch| <= 25 ==> Logged(r.state.file) == Logged(l.file) + Buffered(l))
  {
    var batch := l.buffers + [l.current];
    RoundStarts(l);
    BatchIsWritten(Run(Step, l, [Test, Lock, WaitReturns]).state);
    RunConcat(Step, l, [Test, Lock, WaitReturns], [Drop] + (Writes(|Kept(batch)|) + [Recycle]));
    FlattenSnoc(l.buffers, l.current);
  }

  // ----- stop

  predicate Stopped(l: Logger) {
    !l.running && (l.pc == Testing || l.pc == Done)
  }

  lemma StoppedStep(l: Logger, e: Event)
    requires Stopped(l)
    ensures Step(l, e).Ok? && Stopped(Step(l, e).state) && Step(l, e).state.file == l.file
    ensures e == Test ==> Step(l, e).state.pc == Done
  {
  }

  /** A stopped writer at its test leaves, and whatever is still in the buffers stays out of the
      file for good. */
  lemma {:induction false} StoppedWritesNoMore(l: Logger, es: seq<Event>)
    requires Stopped(l)
    ensures Run(Step, l, es).Ok? && Stopped(Run(Step, l, es).state) && Run(Step, l, es).state.file == l.file
    ensures Test in es || l.pc == Done ==> Run(Step, l, es).state.pc == Done
    decreases |es|
  {
    if es != [] {
      StoppedStep(l, es[0]);
      HeadAndRest(es, Test);
      StoppedWritesNoMore(Step(l, es[0]).state, es[1..]);
    }
  }

  // ----- the assertions bind

  /** Each step of the writer fails exactly when an assertion does, or a pointer it moves from is
      null, or a vector it takes the back of is empty. */
  lemma WriterAssertions(l: Logger, e: Event)
    ensures Step(l, e).Ok? <==>
            match e
            case Enter => l.pc == Entering ==> l.running
            case Test =>
              l.pc == Testing && l.running ==>
                l.newBuffer1 == Some([]) && l.newBuffer2 == Some([]) && l.toWrite == []
            case Lock =>
              l.pc == Locking && l.buffers != [] ==> l.newBuffer1.Some? && (l.next.None? ==> l.newBuffer2.Some?)
            case WaitReturns => l.pc == Waiting ==> l.newBuffer1.Some? && (l.next.None? ==> l.newBuffer2.Some?)
            case Drop => l.pc == Swapped ==> l.toWrite != []
            case Recycle =>
              l.pc.Writing? && l.pc.next >= |l.toWrite| ==>
                |l.toWrite| >= (if l.newBuffer1.None? then 1 else 0) + (if l.newBuffer2.None? then 1 else 0)
            case _ => true
  {
  }
}
