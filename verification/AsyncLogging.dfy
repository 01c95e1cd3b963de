/**
 The double buffering of src/AsyncLogging.cpp and the buffer of src/FixedBuffer.h.
 Producers call `append` under the mutex; one writer thread rotates the buffers.
 A `unique_ptr<Buffer>` is modelled by what it owns: an `Option` of a buffer value.
 */
module AsyncLog {
  import opened Machine
  import opened Seqs

  type Byte = bv8
  type Message = seq<Byte>
  /** A FixedBuffer's contents, kept as the whole messages it holds. */
  type Buf = seq<Message>

  const K_LARGE_BUFFER: nat := 4000 * 1000

  function Length(b: Buf): nat {
    |Flatten(b)|
  }

  function Avail(b: Buf): int {
    K_LARGE_BUFFER - Length(b)
  }

  /** FixedBuffer::append: a message that does not fit is ignored. */
  function BufAppend(b: Buf, m: Message): Buf {
    if Avail(b) > |m| then b + [m] else b
  }

  /** `static_cast<int>` of a size_t. */
  function ToInt32(n: nat): int {
    var low := n % 0x1_0000_0000;
    if low < 0x8000_0000 then low else low - 0x1_0000_0000
  }

  datatype Chunk = Log(buf: Buf) | DropNotice

  /** What became of a buffer that has left the rotation. */
  datatype Fate = Fate(written: bool, buf: Buf)

  datatype WriterPc =
    | Entering   // threadFunc not yet past its first assertion
    | Testing    // at `while (running_)`
    | Locking    // about to take the mutex
    | Waiting    // inside cond_.waitForSeconds
    | Swapped    // mutex released, batch in hand
    | Writing(next: nat)
    | Done

  datatype Logger = Logger(
    running: bool,
    current: Buf,
    next: Option<Buf>,
    buffers: seq<Buf>,
    // the writer thread
    pc: WriterPc,
    newBuffer1: Option<Buf>,
    newBuffer2: Option<Buf>,
    toWrite: seq<Buf>,
    file: seq<Chunk>,
    // history
    accepted: seq<Message>,    // messages shorter than a buffer, in lock order
    condemned: seq<Buf>,       // buffers of this batch erased by the drop branch
    settled: seq<Fate>
  )

  /** After `start()`, before the writer thread runs. */
  function Started(): Logger {
    Logger(true, [], Some([]), [], Entering, Some([]), Some([]), [], [], [], [], [])
  }

  datatype Event = Append(message: Message) | Stop | Enter | Test | Lock | WaitReturns | Drop | Write | Recycle

  function AppendMessage(l: Logger, m: Message): Logger {
    var l := l.(accepted := if |m| < K_LARGE_BUFFER then l.accepted + [m] else l.accepted);
    if Avail(l.current) > ToInt32(|m|) then
      l.(current := BufAppend(l.current, m))
    else
      var l := l.(buffers := l.buffers + [l.current]);
      match l.next
      case Some(b) => l.(current := BufAppend(b, m), next := None)
      case None => l.(current := BufAppend([], m))
  }

  /** src/AsyncLogging.cpp:99-105, with the mutex held. */
  function SwapBuffers(l: Logger): Outcome<Logger> {
    var filled := l.buffers + [l.current];
    :- Check(l.newBuffer1.Some?, "src/AsyncLogging.cpp:100");
    var l := l.(buffers := filled, current := l.newBuffer1.value, newBuffer1 := None);
    var l := l.(toWrite := l.buffers, buffers := l.toWrite);
    if l.next.None? then
      :- Check(l.newBuffer2.Some?, "src/AsyncLogging.cpp:104");
      Ok(l.(next := l.newBuffer2, newBuffer2 := None, pc := Swapped))
    else
      Ok(l.(pc := Swapped))
  }

  function DropExcess(l: Logger): Outcome<Logger> {
    var excess := |l.toWrite| > 25;
    :- Check(l.toWrite != [], "src/AsyncLogging.cpp:108");
    if excess then
      Ok(l.(file := l.file + [DropNotice], condemned := l.toWrite[2..], toWrite := l.toWrite[..2], pc := Writing(0)))
    else
      Ok(l.(pc := Writing(0)))
  }

  function DropAll(bs: seq<Buf>): seq<Fate> {
    if bs == [] then [] else DropAll(bs[..|bs| - 1]) + [Fate(false, bs[|bs| - 1])]
  }

  function WriteOne(l: Logger): Logger
    requires l.pc.Writing? && l.pc.next < |l.toWrite|
  {
    var b := l.toWrite[l.pc.next];
    l.(file := l.file + [Log(b)], settled := l.settled + [Fate(true, b)], pc := Writing(l.pc.next + 1))
  }

  /** src/AsyncLogging.cpp:121-141: keep at most two written buffers and empty them for reuse. */
  function RecycleBuffers(l: Logger): Outcome<Logger> {
    var l := l.(settled := l.settled + DropAll(l.condemned), condemned := []);
    var l := if |l.toWrite| > 2 then l.(toWrite := l.toWrite[..2]) else l;
    var l :-
      if l.newBuffer1.None? then
        :- Check(l.toWrite != [], "src/AsyncLogging.cpp:128");
        Ok(l.(newBuffer1 := Some([]), toWrite := l.toWrite[..|l.toWrite| - 1]))
      else Ok(l);
    var l :-
      if l.newBuffer2.None? then
        :- Check(l.toWrite != [], "src/AsyncLogging.cpp:135");
        Ok(l.(newBuffer2 := Some([]), toWrite := l.toWrite[..|l.toWrite| - 1]))
      else Ok(l);
    Ok(l.(toWrite := [], pc := Testing))
  }

  function Step(l: Logger, e: Event): Outcome<Logger> {
    match e
    case Append(m) => Ok(AppendMessage(l, m))
    case Stop => Ok(l.(running := false))
    case Enter =>
      if l.pc == Entering then
        :- Check(l.running, "src/AsyncLogging.cpp:69");
        Ok(l.(pc := Testing))
      else Ok(l)
    case Test =>
      if l.pc == Testing then
        if !l.running then Ok(l.(pc := Done))
        else
          :- Check(l.newBuffer1 == Some([]), "src/AsyncLogging.cpp:85");
          :- Check(l.newBuffer2 == Some([]), "src/AsyncLogging.cpp:86");
          :- Check(l.toWrite == [], "src/AsyncLogging.cpp:87");
          Ok(l.(pc := Locking))
      else Ok(l)
    case Lock =>
      if l.pc == Locking then
        if l.buffers == [] then Ok(l.(pc := Waiting)) else SwapBuffers(l)
      else Ok(l)
    case WaitReturns => if l.pc == Waiting then SwapBuffers(l) else Ok(l)
    case Drop => if l.pc == Swapped then DropExcess(l) else Ok(l)
    case Write => if l.pc.Writing? && l.pc.next < |l.toWrite| then Ok(WriteOne(l)) else Ok(l)
    case Recycle => if l.pc.Writing? && l.pc.next >= |l.toWrite| then RecycleBuffers(l) else Ok(l)
  }

  // ----- what is in the log

  /** The messages of settled buffers, in order. */
  function Messages(fs: seq<Fate>): seq<Message> {
    if fs == [] then [] else Messages(fs[..|fs| - 1]) + fs[|fs| - 1].buf
  }

  /** Those of the buffers that were written. */
  function Written(fs: seq<Fate>): seq<Message> {
    if fs == [] then []
    else Written(fs[..|fs| - 1]) + if fs[|fs| - 1].written then fs[|fs| - 1].buf else []
  }

  /** The messages in the log file, in order. */
  function Logged(file: seq<Chunk>): seq<Message> {
    if file == [] then []
    else Logged(file[..|file| - 1]) + match file[|file| - 1] case Log(b) => b case DropNotice => []
  }

  /** The part of the writer's batch that is not in the file yet. */
  function Unwritten(l: Logger): seq<Buf> {
    if l.pc.Writing? && l.pc.next <= |l.toWrite| then l.toWrite[l.pc.next..] else l.toWrite
  }

  /** What the producers side holds: buffers_, then currentBuffer_. */
  function Buffered(l: Logger): seq<Message> {
    Flatten(l.buffers) + l.current
  }

  /** Everything accepted and not yet settled, oldest first. */
  function InFlight(l: Logger): seq<Message> {
    Flatten(Unwritten(l)) + Flatten(l.condemned) + Buffered(l)
  }

  ghost predicate Ready(b: Option<Buf>) {
    b == Some([])
  }

  /** The writer's spare buffers, by where it is.  The one that is not obvious: with
      newBuffer2 gone, the batch holds two buffers to make spares from. */
  ghost predicate Spares(l: Logger) {
    match l.pc
    case Swapped =>
      && l.newBuffer1.None? && l.condemned == []
      && 1 <= |l.toWrite| && (Ready(l.newBuffer2) || (l.newBuffer2.None? && 2 <= |l.toWrite|))
    case Writing(i) =>
      && l.newBuffer1.None? && i <= |l.toWrite|
      && 1 <= |l.toWrite| && (Ready(l.newBuffer2) || (l.newBuffer2.None? && 2 <= |l.toWrite|))
    case _ => Ready(l.newBuffer1) && Ready(l.newBuffer2) && l.toWrite == [] && l.condemned == []
  }

  /** Pointers are where the code expects them; a null nextBuffer_ implies non-empty buffers_. */
  ghost predicate Shape(l: Logger) {
    && Spares(l) && Length(l.current) < K_LARGE_BUFFER
    && (l.next.None? ==> l.buffers != [])
    && (l.next.Some? ==> Ready(l.next))
  }

  ghost predicate Accounts(l: Logger) {
    && Messages(l.settled) + InFlight(l) == l.accepted
    && Logged(l.file) == Written(l.settled)
    && (DropNotice !in l.file ==> l.condemned == [] && AllWritten(l.settled))
  }

  ghost predicate Inv(l: Logger) {
    Shape(l) && Accounts(l)
  }

  predicate AllWritten(fs: seq<Fate>) {
    forall i :: 0 <= i < |fs| ==> fs[i].written
  }

  // ----- facts about the histories

  lemma SettleOne(fs: seq<Fate>, f: Fate)
    ensures Messages(fs + [f]) == Messages(fs) + f.buf
    ensures Written(fs + [f]) == Written(fs) + if f.written then f.buf else []
  {
    assert (fs + [f])[..|fs|] == fs;
  }

  lemma {:induction false} SettleDropped(fs: seq<Fate>, bs: seq<Buf>)
    ensures Messages(fs + DropAll(bs)) == Messages(fs) + Flatten(bs)
    ensures Written(fs + DropAll(bs)) == Written(fs)
    ensures bs == [] ==> fs + DropAll(bs) == fs
  {
    if bs == [] {
      assert fs + DropAll(bs) == fs;
      assert Messages(fs) + Flatten(bs) == Messages(fs);
    } else {
      var front, b := bs[..|bs| - 1], bs[|bs| - 1];
      SettleDropped(fs, front);
      SettleOneMore(fs, front, b);
      FlattenSnoc(front, b);
      assert bs == front + [b];
      Assoc(Messages(fs), Flatten(front), b);
    }
  }

  lemma SettleOneMore(fs: seq<Fate>, front: seq<Buf>, b: Buf)
    ensures Messages(fs + DropAll(front + [b])) == Messages(fs + DropAll(front)) + b
    ensures Written(fs + DropAll(front + [b])) == Written(fs + DropAll(front))
  {
    assert (front + [b])[..|front|] == front;
    assert fs + DropAll(front + [b]) == fs + DropAll(front) + [Fate(false, b)];
    SettleOne(fs + DropAll(front), Fate(false, b));
  }

  lemma {:induction false} WrittenAll(fs: seq<Fate>)
    requires AllWritten(fs)
    ensures Written(fs) == Messages(fs)
  {
    if fs != [] {
      WrittenAll(fs[..|fs| - 1]);
    }
  }

  lemma LoggedSnoc(file: seq<Chunk>, c: Chunk)
    ensures Logged(file + [c]) == Logged(file) + match c case Log(b) => b case DropNotice => []
  {
    assert (file + [c])[..|file|] == file;
  }

  // ----- each step

  lemma AppendKeepsShape(l: Logger, m: Message)
    requires Shape(l)
    ensures Shape(AppendMessage(l, m))
  {
    BufAppendFits(l.current, m);
    BufAppendFits([], m);
  }

  /** A buffer never gets full. */
  lemma BufAppendFits(b: Buf, m: Message)
    ensures Length(b) < K_LARGE_BUFFER ==> Length(BufAppend(b, m)) < K_LARGE_BUFFER
    ensures Length([]) == 0
  {
    FlattenSnoc(b, m);
  }

  /** The messages an append stores: those shorter than a buffer, whatever the casts do. */
  function Stored(m: Message): seq<Message> {
    if |m| < K_LARGE_BUFFER then [m] else []
  }

  lemma AppendEffect(l: Logger, m: Message)
    requires Shape(l)
    ensures var l' := AppendMessage(l, m);
            && l' == l.(accepted := l.accepted + Stored(m), current := l'.current, buffers := l'.buffers, next := l'.next)
            && Buffered(l') == Buffered(l) + Stored(m)
  {
    var l' := AppendMessage(l, m);
    assert Flatten<Byte>([]) == [];
    if l'.buffers == l.buffers {
      assert l'.current == l.current + Stored(m);
    } else {
      FlattenSnoc(l.buffers, l.current);
      assert l'.current == Stored(m);
      assert l'.buffers == l.buffers + [l.current];
    }
  }

  lemma BufferedGrows(l: Logger, l': Logger, x: seq<Message>)
    requires Accounts(l) && Buffered(l') == Buffered(l) + x
    requires l' == l.(accepted := l.accepted + x, current := l'.current, buffers := l'.buffers, next := l'.next)
    ensures Accounts(l')
  {
    Assoc(Flatten(Unwritten(l)) + Flatten(l.condemned), Buffered(l), x);
    Assoc(Messages(l.settled), InFlight(l), x);
  }

  lemma AppendKeepsAccounts(l: Logger, m: Message)
    requires Shape(l) && Accounts(l)
    ensures Accounts(AppendMessage(l, m))
  {
    AppendEffect(l, m);
    BufferedGrows(l, AppendMessage(l, m), Stored(m));
  }

  /** The state after the swap: the whole queue is in the writer's hands. */
  function AfterSwap(l: Logger): Logger {
    l.(toWrite := l.buffers + [l.current], buffers := [], current := [], newBuffer1 := None,
       next := Some([]), newBuffer2 := if l.next.None? then None else l.newBuffer2, pc := Swapped)
  }

  lemma SwapKeepsShape(l: Logger)
    requires Shape(l) && (l.pc == Locking || l.pc == Waiting)
    ensures SwapBuffers(l) == Ok(AfterSwap(l)) && Shape(AfterSwap(l))
  {
    assert Flatten<Byte>([]) == [];
  }

  lemma SwapKeepsAccounts(l: Logger)
    requires Shape(l) && Accounts(l) && (l.pc == Locking || l.pc == Waiting)
    ensures Accounts(AfterSwap(l))
  {
    FlattenSnoc(l.buffers, l.current);
    assert Flatten<Message>([]) == [];
    assert InFlight(l) == Buffered(l);
    assert InFlight(AfterSwap(l)) == Buffered(l);
  }

  lemma DropKeepsShape(l: Logger)
    requires Shape(l) && l.pc == Swapped
    ensures DropExcess(l).Ok? && Shape(DropExcess(l).state)
  {
  }

  lemma DropKeepsFlight(l: Logger)
    requires Shape(l) && l.pc == Swapped
    ensures DropExcess(l).Ok? && InFlight(DropExcess(l).state) == InFlight(l)
  {
    var l' := DropExcess(l).state;
    assert Unwritten(l') == l'.toWrite;
    assert Flatten(l.toWrite) + Flatten<Message>([]) == Flatten(l.toWrite);
    if |l.toWrite| > 25 {
      FlattenSplit(l.toWrite, 2);
    }
  }

  lemma DropKeepsAccounts(l: Logger)
    requires Shape(l) && Accounts(l) && l.pc == Swapped
    ensures DropExcess(l).Ok? && Accounts(DropExcess(l).state)
  {
    DropKeepsFlight(l);
    if |l.toWrite| > 25 {
      LoggedSnoc(l.file, DropNotice);
      assert DropNotice in DropExcess(l).state.file;
    }
  }

  lemma WriteKeepsShape(l: Logger)
    requires Shape(l) && l.pc.Writing? && l.pc.next < |l.toWrite|
    ensures Shape(WriteOne(l))
  {
  }

  lemma WriteKeepsAccounts(l: Logger)
    requires Shape(l) && Accounts(l) && l.pc.Writing? && l.pc.next < |l.toWrite|
    ensures Accounts(WriteOne(l))
  {
    var l' := WriteOne(l);
    var b := l.toWrite[l.pc.next];
    assert Unwritten(l) == [b] + Unwritten(l');
    Assoc(b, Flatten(Unwritten(l')), Flatten(l.condemned));
    Assoc(b, Flatten(Unwritten(l')) + Flatten(l.condemned), Buffered(l));
    assert InFlight(l) == b + InFlight(l');
    Assoc(Messages(l.settled), b, InFlight(l'));
    SettleOne(l.settled, Fate(true, b));
    LoggedSnoc(l.file, Log(b));
  }

  /** The state after recycling: the spares are back and the condemned buffers are lost. */
  function Recycled(l: Logger): Logger {
    l.(settled := l.settled + DropAll(l.condemned), condemned := [],
       toWrite := [], newBuffer1 := Some([]), newBuffer2 := Some([]), pc := Testing)
  }

  lemma RecycleKeepsShape(l: Logger)
    requires Shape(l) && l.pc.Writing? && l.pc.next >= |l.toWrite|
    ensures RecycleBuffers(l) == Ok(Recycled(l)) && Shape(Recycled(l))
  {
  }

  lemma RecycleKeepsAccounts(l: Logger)
    requires Shape(l) && Accounts(l) && l.pc.Writing? && l.pc.next >= |l.toWrite|
    ensures Accounts(Recycled(l))
  {
    var l' := Recycled(l);
    assert Flatten<Message>([]) == [];
    assert Unwritten(l) == [];
    assert InFlight(l) == Flatten(l.condemned) + Buffered(l);
    assert InFlight(l') == Buffered(l);
    SettleDropped(l.settled, l.condemned);
    Assoc(Messages(l.settled), Flatten(l.condemned), Buffered(l));
  }

  /** A step that moves no buffer. */
  lemma MoveKeepsInv(l: Logger, running: bool, pc: WriterPc)
    requires Inv(l)
    requires pc == l.pc || !(l.pc.Writing? || l.pc == Swapped || pc.Writing? || pc == Swapped)
    ensures Inv(l.(running := running, pc := pc))
  {
  }

  lemma AppendKeepsInv(l: Logger, m: Message)
    requires Inv(l)
    ensures Inv(AppendMessage(l, m))
  {
    AppendKeepsShape(l, m);
    AppendKeepsAccounts(l, m);
  }

  lemma SwapKeepsInv(l: Logger)
    requires Inv(l) && (l.pc == Locking || l.pc == Waiting)
    ensures SwapBuffers(l).Ok? && Inv(SwapBuffers(l).state)
  {
    SwapKeepsShape(l);
    SwapKeepsAccounts(l);
  }

  lemma WriteKeepsInv(l: Logger)
    requires Inv(l) && l.pc.Writing? && l.pc.next < |l.toWrite|
    ensures Inv(WriteOne(l))
  {
    WriteKeepsShape(l);
    WriteKeepsAccounts(l);
  }

  lemma RecycleKeepsInv(l: Logger)
    requires Inv(l) && l.pc.Writing? && l.pc.next >= |l.toWrite|
    ensures RecycleBuffers(l).Ok? && Inv(RecycleBuffers(l).state)
  {
    RecycleKeepsShape(l);
    RecycleKeepsAccounts(l);
  }

  /** The steps that move the writer between its loop head and the wait. */
  lemma ControlStepKeepsInv(l: Logger, e: Event)
    requires Inv(l) && (e == Stop || e == Enter || e == Test)
    requires !(e == Enter && l.pc == Entering && !l.running)
    ensures Step(l, e).Ok? && Inv(Step(l, e).state)
  {
    MoveKeepsInv(l, false, l.pc);
    if e == Enter && l.pc == Entering {
      MoveKeepsInv(l, l.running, Testing);
    } else if e == Test && l.pc == Testing {
      MoveKeepsInv(l, l.running, if l.running then Locking else Done);
    }
  }

  /** The one assertion that can fail is the first: `stop()` may run before the thread does. */
  lemma StepKeepsInv(l: Logger, e: Event)
    requires Inv(l)
    requires !(e == Enter && l.pc == Entering && !l.running)
    ensures Step(l, e).Ok? && Inv(Step(l, e).state)
  {
    match e
    case Append(m) => AppendKeepsInv(l, m);
    case Lock =>
      if l.pc == Locking {
        if l.buffers == [] { MoveKeepsInv(l, l.running, Waiting); } else { SwapKeepsInv(l); }
      }
    case WaitReturns => if l.pc == Waiting { SwapKeepsInv(l); }
    case Drop => if l.pc == Swapped { DropKeepsShape(l); DropKeepsAccounts(l); }
    case Write => if l.pc.Writing? && l.pc.next < |l.toWrite| { WriteKeepsInv(l); }
    case Recycle => if l.pc.Writing? && l.pc.next >= |l.toWrite| { RecycleKeepsInv(l); }
    case _ => ControlStepKeepsInv(l, e);
  }

  // ----- every run

  ghost predicate Live(l: Logger) {
    Inv(l) && l.pc != Entering
  }

  lemma EntersOnce(l: Logger, e: Event)
    requires Step(l, e).Ok?
    ensures Step(l, e).state.pc == Entering <==> l.pc == Entering && e != Enter
    ensures Step(l, e).state.running <==> l.running && e != Stop
  {
  }

  lemma StepKeepsLive(l: Logger, e: Event)
    requires Live(l)
    ensures Step(l, e).Ok? && Live(Step(l, e).state)
  {
    StepKeepsInv(l, e);
    EntersOnce(l, e);
  }

  /** Once the writer thread has started, no interleaving of appends, `stop` and the writer
      fails an assertion, takes `back()` of an empty vector or moves from a null pointer. */
  lemma WriterIsSafe(l: Logger, es: seq<Event>)
    requires Live(l)
    ensures Run(Step, l, es).Ok? && Live(Run(Step, l, es).state)
  {
    forall m, e | Live(m) ensures Step(m, e).Ok? && Live(Step(m, e).state) {
      StepKeepsLive(m, e);
    }
    RunKeeps(Step, Live, l, es);
  }

  lemma BeforeEntry(l: Logger, e: Event)
    requires Inv(l) && l.pc == Entering && e != Enter
    ensures Step(l, e).Ok? && Inv(Step(l, e).state) && Step(l, e).state.pc == Entering
    ensures Step(l, e).state.running <==> l.running && e != Stop
  {
    StepKeepsInv(l, e);
    EntersOnce(l, e);
  }

  /** Before that, a run fails exactly when `stop` comes between `start` and the thread's
      first instruction. */
  lemma {:induction false} StopBeforeEntry(l: Logger, before: seq<Event>, after: seq<Event>)
    requires Inv(l) && l.pc == Entering && Enter !in before
    ensures Run(Step, l, before + ([Enter] + after)).Ok? <==> l.running && Stop !in before
    decreases |before|
  {
    if before == [] {
      assert before + ([Enter] + after) == [Enter] + after;
      EntersNow(l, after);
    } else {
      HeadAndRest(before, Stop);
      HeadAndRest(before, Enter);
      BeforeEntry(l, before[0]);
      FirstThen(l, before, [Enter] + after);
      StopBeforeEntry(Step(l, before[0]).state, before[1..], after);
    }
  }

  lemma HeadAndRest(es: seq<Event>, e: Event)
    requires es != []
    ensures e in es <==> e == es[0] || e in es[1..]
  {
    assert es == [es[0]] + es[1..];
  }

  lemma EntersNow(l: Logger, after: seq<Event>)
    requires Inv(l) && l.pc == Entering
    ensures Run(Step, l, [Enter] + after).Ok? <==> l.running
  {
    if l.running {
      EntryAllowed(l, after);
    } else {
      assert Step(l, Enter).Abort?;
    }
  }

  lemma FirstThen(l: Logger, es: seq<Event>, fs: seq<Event>)
    requires es != [] && Step(l, es[0]).Ok?
    ensures Run(Step, l, es + fs) == Run(Step, Step(l, es[0]).state, es[1..] + fs)
  {
    assert (es + fs)[1..] == es[1..] + fs;
  }

  lemma EntryAllowed(l: Logger, after: seq<Event>)
    requires Inv(l) && l.pc == Entering && l.running
    ensures Run(Step, l, [Enter] + after).Ok?
  {
    StepKeepsInv(l, Enter);
    RunCons(Step, l, Enter, after);
    WriterIsSafe(Step(l, Enter).state, after);
  }

  lemma {:induction false} NoEntryNoFailure(l: Logger, es: seq<Event>)
    requires Inv(l) && l.pc == Entering && Enter !in es
    ensures Run(Step, l, es).Ok?
    decreases |es|
  {
    if es != [] {
      assert es[0] in es && forall e :: e in es[1..] ==> e in es;
      BeforeEntry(l, es[0]);
      NoEntryNoFailure(Step(l, es[0]).state, es[1..]);
    }
  }

  /** The i-th event is the thread's first instruction, and `stop` has come before it. */
  predicate EntersStopped(es: seq<Event>, i: nat) {
    i < |es| && es[i] == Enter && Enter !in es[..i] && Stop in es[..i]
  }

  lemma {:induction false} FirstEntry(es: seq<Event>) returns (i: nat)
    requires Enter in es
    ensures i < |es| && es[i] == Enter && Enter !in es[..i]
  {
    if es[0] == Enter {
      i := 0;
    } else {
      var j := FirstEntry(es[1..]);
      i := j + 1;
      assert es[..i] == [es[0]] + es[1..][..j];
    }
  }

  lemma SoleEntry(es: seq<Event>, i: nat)
    requires i < |es| && es[i] == Enter && Enter !in es[..i]
    ensures Stop in es[..i] <==> exists j: nat :: EntersStopped(es, j)
  {
    if Stop in es[..i] {
      assert EntersStopped(es, i);
    }
    forall j: nat | EntersStopped(es, j) ensures j == i {
    }
  }

  lemma FailsAtEntry(l: Logger, es: seq<Event>, i: nat)
    requires Inv(l) && l.pc == Entering && l.running && i < |es| && es[i] == Enter && Enter !in es[..i]
    ensures Run(Step, l, es).Abort? <==> Stop in es[..i]
  {
    SplitAt(es, i);
    StopBeforeEntry(l, es[..i], es[i + 1..]);
  }

  /** A run from `start` fails if and only if `stop` comes before the thread's first instruction. */
  lemma FailsIffStoppedBeforeEntry(es: seq<Event>)
    ensures Run(Step, Started(), es).Abort? <==> exists i: nat :: EntersStopped(es, i)
  {
    StartedInv();
    if Enter in es {
      var i := FirstEntry(es);
      FailsAtEntry(Started(), es, i);
      SoleEntry(es, i);
    } else {
      NoEntryNoFailure(Started(), es);
    }
  }

  lemma StartedInv()
    ensures Inv(Started())
  {
    assert Flatten<Message>([]) == [] && Flatten<Byte>([]) == [];
  }

  lemma {:induction false} RunKeepsInv(l: Logger, es: seq<Event>)
    requires Inv(l) && Run(Step, l, es).Ok?
    ensures Inv(Run(Step, l, es).state)
    decreases |es|
  {
    if es != [] {
      StepKeepsInv(l, es[0]);
      RunKeepsInv(Step(l, es[0]).state, es[1..]);
    }
  }

  /** The messages of a run that are shorter than a buffer. */
  function ShortOnes(l: Logger, e: Event): seq<Message> {
    if e.Append? && |e.message| < K_LARGE_BUFFER then [e.message] else []
  }

  lemma StepAccepts(l: Logger, e: Event)
    requires Step(l, e).Ok?
    ensures Step(l, e).state.accepted == l.accepted + ShortOnes(l, e)
  {
  }

  lemma RunAccepts(es: seq<Event>)
    requires Run(Step, Started(), es).Ok?
    ensures Run(Step, Started(), es).state.accepted == Gathered(Step, ShortOnes, Started(), es)
  {
    forall l, e | Step(l, e).Ok? ensures Step(l, e).state.accepted == l.accepted + ShortOnes(l, e) {
      StepAccepts(l, e);
    }
    RunGathers(Step, _ => true, _ => true, (l: Logger) => l.accepted, ShortOnes, Started(), es);
  }

  /** Conservation, in every run that does not fail, appends before the thread's first
      instruction included: every message shorter than a buffer is settled or in flight, in lock
      order; the file holds exactly the settled messages that were not dropped, in order; and
      without the drop branch the file, then the batch, then buffers_, then currentBuffer_ are
      exactly the messages of the run that are shorter than a buffer. */
  lemma NothingLostWithoutDrop(es: seq<Event>)
    requires Run(Step, Started(), es).Ok?
    ensures var l, accepted := Run(Step, Started(), es).state, Gathered(Step, ShortOnes, Started(), es);
            && Messages(l.settled) + InFlight(l) == accepted
            && Logged(l.file) == Written(l.settled)
            && (DropNotice !in l.file ==> Logged(l.file) + InFlight(l) == accepted)
  {
    StartedInv();
    RunKeepsInv(Started(), es);
    RunAccepts(es);
    var l := Run(Step, Started(), es).state;
    if DropNotice !in l.file {
      WrittenAll(l.settled);
    }
  }

  // ----- when buffers are rotated

  /** A message rotates the buffers exactly when its length, as an int, does not fit what is left
      of currentBuffer_; it goes to the end of the same buffer, or to the start of a new one, if it
      fits there.  A length of two gigabytes or more may come out as a negative int, which fits. */
  lemma AppendRotates(l: Logger, m: Message)
    requires Shape(l)
    ensures var l', low := AppendMessage(l, m), |m| % 0x1_0000_0000;
            if low >= 0x8000_0000 || Length(l.current) + low < K_LARGE_BUFFER
            then l'.buffers == l.buffers && l'.next == l.next
                 && l'.current == l.current + if Length(l.current) + |m| < K_LARGE_BUFFER then [m] else []
            else l'.buffers == l.buffers + [l.current] && l'.next == None
                 && l'.current == if |m| < K_LARGE_BUFFER then [m] else []
  {
    assert Flatten<Byte>([]) == [];
    assert l.current + [] == l.current;
  }

  /** The same for every length, casts included: what rotates the buffers did not fit. */
  lemma AppendCases(l: Logger, m: Message)
    requires Shape(l)
    ensures var l' := AppendMessage(l, m);
            || (l'.buffers == l.buffers && (l'.current == l.current || l'.current == l.current + [m]))
            || (l'.buffers == l.buffers + [l.current] && Length(l.current) + |m| >= K_LARGE_BUFFER
                && l'.current == Stored(m))
    ensures AppendMessage(l, m).pc == l.pc && AppendMessage(l, m).toWrite == l.toWrite
  {
    assert Flatten<Byte>([]) == [];
  }

  // ----- the objects

  /** FixedBuffer<KLargeBuffer>: an array filled from the front. */
  class FixedBuffer {
    const data: array<Byte>
    var cur: nat
    ghost var messages: Buf

    ghost predicate Valid()
      reads this, data
    {
      data.Length == K_LARGE_BUFFER && cur <= data.Length && data[..cur] == Flatten(messages)
    }

    constructor ()
      ensures Valid() && messages == [] && fresh(data)
    {
      data := new Byte[K_LARGE_BUFFER];
      cur, messages := 0, [];
    }

    method Append(m: Message)
      requires Valid()
      modifies this, data
      ensures Valid() && messages == BufAppend(old(messages), m)
      ensures data[..cur] == old(data[..cur]) + if old(cur) + |m| < K_LARGE_BUFFER then m else []
    {
      ghost var before := data[..cur];
      if data.Length - cur > |m| {
        for i := 0 to |m|
          invariant cur == old(cur) && messages == old(messages)
          invariant data[..cur + i] == before + m[..i]
        {
          data[cur + i] := m[i];
          assert data[..cur + i + 1] == data[..cur + i] + [m[i]];
        }
        FlattenSnoc(messages, m);
        cur := cur + |m|;
        messages := messages + [m];
        assert m[..|m|] == m;
      }
    }

    method Reset()
      requires Valid()
      modifies this
      ensures Valid() && messages == [] && cur == 0
    {
      cur, messages := 0, [];
    }
  }

  function Logs(bs: seq<Buf>): seq<Chunk> {
    seq(|bs|, i requires 0 <= i < |bs| => Log(bs[i]))
  }

  function Fates(bs: seq<Buf>): seq<Fate> {
    seq(|bs|, i requires 0 <= i < |bs| => Fate(true, bs[i]))
  }

  /** The C++ class, with the locals of threadFunc beside its fields. */
  class AsyncLogging {
    var running: bool
    var currentBuffer: Buf
    var nextBuffer: Option<Buf>
    var buffers: seq<Buf>
    var pc: WriterPc
    var newBuffer1: Option<Buf>
    var newBuffer2: Option<Buf>
    var bufferToWrite: seq<Buf>
    var output: seq<Chunk>
    ghost var accepted: seq<Message>
    ghost var condemned: seq<Buf>
    ghost var settled: seq<Fate>

    ghost function View(): Logger
      reads this
    {
      Logger(running, currentBuffer, nextBuffer, buffers, pc, newBuffer1, newBuffer2, bufferToWrite,
             output, accepted, condemned, settled)
    }

    constructor ()
      ensures View() == Started()
    {
      running, currentBuffer, nextBuffer, buffers := true, [], Some([]), [];
      pc, newBuffer1, newBuffer2, bufferToWrite, output := Entering, Some([]), Some([]), [], [];
      accepted, condemned, settled := [], [], [];
    }

    method Append(logline: Message)
      modifies this`currentBuffer, this`nextBuffer, this`buffers, this`accepted
      ensures View() == AppendMessage(old(View()), logline)
      ensures accepted == old(accepted) + Stored(logline)
      ensures Shape(old(View())) && |logline| < K_LARGE_BUFFER ==>
                if Length(old(currentBuffer)) + |logline| < K_LARGE_BUFFER
                then buffers == old(buffers) && currentBuffer == old(currentBuffer) + [logline]
                else buffers == old(buffers) + [old(currentBuffer)]
    {
      ghost var was := View();
      Store(logline);
      if Shape(was) {
        AppendRotates(was, logline);
      }
    }

    /** The body of append under the mutex. */
    method Store(logline: Message)
      modifies this`currentBuffer, this`nextBuffer, this`buffers, this`accepted
      ensures View() == AppendMessage(old(View()), logline)
      ensures accepted == old(accepted) + Stored(logline)
    {
      accepted := accepted + Stored(logline);
      if Avail(currentBuffer) > ToInt32(|logline|) {
        currentBuffer := BufAppend(currentBuffer, logline);
      } else {
        buffers := buffers + [currentBuffer];
        if nextBuffer.Some? {
          currentBuffer := nextBuffer.value;
          nextBuffer := None;
        } else {
          currentBuffer := [];
        }
        currentBuffer := BufAppend(currentBuffer, logline);
      }
    }

    /** The block of threadFunc under the mutex, after any wait. */
    method TakeBuffers()
      requires Shape(View()) && (pc == Locking || pc == Waiting)
      modifies this
      ensures View() == AfterSwap(old(View()))
      ensures bufferToWrite == old(buffers) + [old(currentBuffer)] && buffers == [] && currentBuffer == []
    {
      assert newBuffer1.Some? && newBuffer2.Some?;
      buffers := buffers + [currentBuffer];
      currentBuffer, newBuffer1 := newBuffer1.value, None;
      bufferToWrite, buffers := buffers, bufferToWrite;
      if nextBuffer.None? {
        nextBuffer, newBuffer2 := newBuffer2, None;
      }
      pc := Swapped;
    }

    /** The drop branch and the write loop of threadFunc, without the mutex. */
    method WriteBatch()
      requires pc == Swapped && bufferToWrite != []
      modifies this`pc, this`bufferToWrite, this`output, this`condemned, this`settled
      ensures pc == Writing(|bufferToWrite|)
      ensures old(|bufferToWrite|) <= 25 ==> bufferToWrite == old(bufferToWrite) && condemned == old(condemned)
      ensures old(|bufferToWrite|) > 25 ==> bufferToWrite == old(bufferToWrite)[..2] && condemned == old(bufferToWrite)[2..]
      ensures output == old(output) + (if old(|bufferToWrite|) > 25 then [DropNotice] else []) + Logs(bufferToWrite)
      ensures settled == old(settled) + Fates(bufferToWrite)
    {
      if |bufferToWrite| > 25 {
        output := output + [DropNotice];
        condemned := bufferToWrite[2..];
        bufferToWrite := bufferToWrite[..2];
      }
      ghost var before := output;
      pc := Writing(0);
      for i := 0 to |bufferToWrite|
        modifies this`pc, this`output, this`settled
        invariant pc == Writing(i)
        invariant output == before + Logs(bufferToWrite[..i])
        invariant settled == old(settled) + Fates(bufferToWrite[..i])
      {
        output := output + [Log(bufferToWrite[i])];
        settled := settled + [Fate(true, bufferToWrite[i])];
        pc := Writing(i + 1);
        assert Logs(bufferToWrite[..i + 1]) == Logs(bufferToWrite[..i]) + [Log(bufferToWrite[i])];
        assert Fates(bufferToWrite[..i + 1]) == Fates(bufferToWrite[..i]) + [Fate(true, bufferToWrite[i])];
      }
      assert bufferToWrite[..|bufferToWrite|] == bufferToWrite;
    }

    /** One spare from the written batch: back(), pop_back(), reset(). */
    method TakeSpare() returns (spare: Option<Buf>)
      requires bufferToWrite != []
      modifies this`bufferToWrite
      ensures spare == Some([]) && bufferToWrite == old(bufferToWrite)[..old(|bufferToWrite|) - 1]
    {
      spare := Some([]);
      bufferToWrite := bufferToWrite[..|bufferToWrite| - 1];
    }

    /** The end of the loop body: both spares come back from the written batch. */
    method Recycle()
      requires Shape(View()) && pc == Writing(|bufferToWrite|)
      modifies this`pc, this`newBuffer1, this`newBuffer2, this`bufferToWrite, this`condemned, this`settled
      ensures View() == Recycled(old(View()))
    {
      assert newBuffer1.None? && (newBuffer2 == Some([]) || (newBuffer2.None? && 2 <= |bufferToWrite|));
      settled, condemned := settled + DropAll(condemned), [];
      RestoreSpares();
      pc := Testing;
    }

    method RestoreSpares()
      requires newBuffer1.None? && 1 <= |bufferToWrite|
      requires newBuffer2 == Some([]) || (newBuffer2.None? && 2 <= |bufferToWrite|)
      modifies this`newBuffer1, this`newBuffer2, this`bufferToWrite
      ensures newBuffer1 == Some([]) && newBuffer2 == Some([]) && bufferToWrite == []
    {
      if |bufferToWrite| > 2 {
        bufferToWrite := bufferToWrite[..2];
      }
      if newBuffer1.None? {
        newBuffer1 := TakeSpare();
      }
      if newBuffer2.None? {
        newBuffer2 := TakeSpare();
      }
      bufferToWrite := [];
    }
  }
}
