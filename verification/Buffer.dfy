/**
 The sliding-window byte buffer of net/Buffer.h and net/Buffer.cpp.  `Window` is its
 state as a value; the class `Buffer` works in place on an array and is proved equal to
 the window operations; the window operations are proved to refine a plain byte sequence.
 */
module ByteBuffer {
  import opened Endian
  import opened Machine
  import opened Seqs

  const CHEAP_PREPEND: nat := 8
  const EXTRA_BUF: nat := 65536

  datatype Cells = Window(cells: seq<Byte>, reader: nat, writer: nat) {
    predicate Ordered() {
      CHEAP_PREPEND <= |cells| && reader <= writer <= |cells|
    }

    function Readable(): seq<Byte>
      requires Ordered()
    {
      cells[reader..writer]
    }

    function WritableBytes(): int {
      |cells| - writer
    }
  }

  type Window = w: Cells | w.Ordered() witness Window(seq(8, _ => 0), 8, 8)

  function Zeros(n: nat): seq<Byte> {
    seq(n, _ => 0)
  }

  function Fresh(initialSize: nat): Window {
    Window(Zeros(CHEAP_PREPEND + initialSize), CHEAP_PREPEND, CHEAP_PREPEND)
  }

  /** `src` copied over `cells` from index `at`. */
  function Overlay(cells: seq<Byte>, at: nat, src: seq<Byte>): (r: seq<Byte>)
    requires at + |src| <= |cells|
    ensures |r| == |cells|
    ensures r[..at] == cells[..at] && r[at..at + |src|] == src && r[at + |src|..] == cells[at + |src|..]
  {
    cells[..at] + src + cells[at + |src|..]
  }

  /** Grow the array, or slide the readable bytes to the front of it; the assertions at
      net/Buffer.h:418 and 425 are the second and first postconditions. */
  function WithSpace(w: Window, len: nat): (v: Window)
    requires w.WritableBytes() < len
    ensures v.Readable() == w.Readable() && v.WritableBytes() >= len
    ensures v.reader != w.reader ==> CHEAP_PREPEND == v.reader < w.reader
    ensures |v.cells| == |w.cells| || |v.cells| < |w.Readable()| + 2 * len + CHEAP_PREPEND
  {
    if w.WritableBytes() + w.reader < len + CHEAP_PREPEND then
      w.(cells := w.cells + Zeros(w.writer + len - |w.cells|))
    else
      var readable := w.Readable();
      Window(Overlay(w.cells, CHEAP_PREPEND, readable), CHEAP_PREPEND, CHEAP_PREPEND + |readable|)
  }

  function EnsureWritable(w: Window, len: nat): (v: Window)
    ensures v.Readable() == w.Readable() && v.WritableBytes() >= len
    ensures v.reader != w.reader ==> CHEAP_PREPEND == v.reader < w.reader
    ensures |v.cells| == |w.cells| || |v.cells| < |w.Readable()| + 2 * len + CHEAP_PREPEND
  {
    if w.WritableBytes() < len then WithSpace(w, len) else w
  }

  function AppendBytes(w: Window, bs: seq<Byte>): (r: Window)
    ensures r.Readable() == w.Readable() + bs
    ensures r.reader != w.reader ==> CHEAP_PREPEND == r.reader < w.reader
    ensures |r.cells| == |w.cells| || |r.cells| < |w.Readable()| + 2 * |bs| + CHEAP_PREPEND
  {
    var v := EnsureWritable(w, |bs|);
    v.(cells := Overlay(v.cells, v.writer, bs), writer := v.writer + |bs|)
  }

  function PrependBytes(w: Window, bs: seq<Byte>): Outcome<Window> {
    var reader := w.reader - |bs|;
    :- Check(reader >= 0, "net/Buffer.h:370");
    Ok(w.(cells := Overlay(w.cells, reader, bs), reader := reader))
  }

  function RetrieveBytes(w: Window, len: nat): Outcome<Window> {
    var readable := |w.Readable()|;
    :- Check(len <= readable, "net/Buffer.h:125");
    if len < readable then Ok(w.(reader := w.reader + len))
    else Ok(w.(reader := CHEAP_PREPEND, writer := CHEAP_PREPEND))
  }

  function UnwriteBytes(w: Window, len: nat): Outcome<Window> {
    var readable := |w.Readable()|;
    :- Check(len <= readable, "net/Buffer.h:231");
    Ok(w.(writer := w.writer - len))
  }

  /** What readv may return when offered the window and, if that is small, the extra block. */
  predicate CanReceive(w: Window, n: nat) {
    n <= w.WritableBytes() + if w.WritableBytes() < EXTRA_BUF then EXTRA_BUF else 0
  }

  /** The window filled by readv: all of `input`, or as much as fits. */
  function FillWindow(w: Window, input: seq<Byte>): (v: Window)
    requires |input| <= w.WritableBytes()
    ensures v.Readable() == w.Readable() + input && v.reader == w.reader && |v.cells| == |w.cells|
  {
    w.(cells := Overlay(w.cells, w.writer, input), writer := w.writer + |input|)
  }

  /** readFd: what does not fit the window goes through the extra block to `append`. */
  function ReceiveBytes(w: Window, input: seq<Byte>): (r: Window)
    requires CanReceive(w, |input|)
  {
    var writable := w.WritableBytes();
    if |input| <= writable then FillWindow(w, input)
    else AppendBytes(FillWindow(w, input[..writable]), input[writable..])
  }

  // ----- one operation

  /** An operation that is offered `room` bytes of headroom leaves at least as much. */
  predicate KeepsRoom(w: Window, v: Window, room: nat) {
    room <= CHEAP_PREPEND && room <= w.reader ==> room <= v.reader
  }

  predicate Bounded(w: Window, v: Window, total: nat) {
    |v.cells| == |w.cells| || |v.cells| < 2 * total + CHEAP_PREPEND
  }

  lemma PrependRefines(w: Window, bs: seq<Byte>)
    requires |bs| <= w.reader
    ensures var r := PrependBytes(w, bs);
            r.Ok? && r.state.Readable() == bs + w.Readable() && r.state.reader == w.reader - |bs|
  {
    var after := Overlay(w.cells, w.reader - |bs|, bs);
    assert after[w.reader..][..w.writer - w.reader] == w.cells[w.reader..][..w.writer - w.reader];
    assert after[w.reader..w.writer] == w.Readable();
    assert after[w.reader - |bs|..w.writer] == after[w.reader - |bs|..w.reader] + after[w.reader..w.writer];
  }

  lemma RetrieveRefines(w: Window, len: nat)
    requires len <= |w.Readable()|
    ensures var r := RetrieveBytes(w, len);
            && r.Ok? && r.state.Readable() == w.Readable()[len..]
            && (r.state.reader == w.reader + len || r.state.reader == CHEAP_PREPEND)
  {
    SliceOfSlice(w.cells, w.reader, w.writer, len);
  }

  /** readFd appends exactly the bytes received, through the window and the extra block,
      even when the inner append slides the window. */
  lemma ReceiveRefines(w: Window, input: seq<Byte>, room: nat)
    requires CanReceive(w, |input|)
    ensures var r := ReceiveBytes(w, input);
            && r.Readable() == w.Readable() + input
            && KeepsRoom(w, r, room) && Bounded(w, r, |w.Readable()| + |input|)
    ensures w.WritableBytes() < EXTRA_BUF ==> |input| <= 131071
    ensures CanReceive(w, w.WritableBytes() + 65536) <==> w.WritableBytes() < 65536
  {
    var writable := w.WritableBytes();
    if |input| > writable {
      Assoc(w.Readable(), input[..writable], input[writable..]);
      assert input == input[..writable] + input[writable..];
    }
  }

  // ----- every run

  datatype Op =
    | Append(bs: seq<Byte>)
    | Prepend(bs: seq<Byte>)
    | Retrieve(n: nat)
    | Unwrite(n: nat)
    | Ensure(n: nat)
    | Receive(bs: seq<Byte>)

  function Apply(w: Window, op: Op): Outcome<Window> {
    match op
    case Append(bs) => Ok(AppendBytes(w, bs))
    case Prepend(bs) => PrependBytes(w, bs)
    case Retrieve(n) => RetrieveBytes(w, n)
    case Unwrite(n) => UnwriteBytes(w, n)
    case Ensure(n) => Ok(EnsureWritable(w, n))
    case Receive(bs) => if CanReceive(w, |bs|) then Ok(ReceiveBytes(w, bs)) else Ok(w)
  }

  /** The same operations on a plain byte sequence. */
  function BytesAfter(bytes: seq<Byte>, op: Op): seq<Byte> {
    match op
    case Append(bs) => bytes + bs
    case Prepend(bs) => bs + bytes
    case Retrieve(n) => if n <= |bytes| then bytes[n..] else bytes
    case Unwrite(n) => if n <= |bytes| then bytes[..|bytes| - n] else bytes
    case Ensure(n) => bytes
    case Receive(bs) => bytes + bs
  }

  function AllBytes(bytes: seq<Byte>, ops: seq<Op>): seq<Byte>
    decreases |ops|
  {
    if ops == [] then bytes else AllBytes(BytesAfter(bytes, ops[0]), ops[1..])
  }

  /** The bytes an operation asks the buffer to hold, counting a reservation as held. */
  function Demand(bytes: seq<Byte>, op: Op): nat {
    match op
    case Append(bs) => |bytes| + |bs|
    case Ensure(n) => |bytes| + n
    case Receive(bs) => |bytes| + |bs|
    case _ => 0
  }

  predicate DemandsAtMost(bytes: seq<Byte>, ops: seq<Op>, m: nat)
    decreases |ops|
  {
    ops != [] ==> Demand(bytes, ops[0]) <= m && DemandsAtMost(BytesAfter(bytes, ops[0]), ops[1..], m)
  }

  /** The kernel honours the sizes it was offered. */
  predicate KernelHonest(w: Window, ops: seq<Op>)
    decreases |ops|
  {
    ops != [] ==>
      && (ops[0].Receive? ==> CanReceive(w, |ops[0].bs|))
      && (Apply(w, ops[0]).Ok? ==> KernelHonest(Apply(w, ops[0]).state, ops[1..]))
  }

  lemma ApplyRefines(w: Window, op: Op)
    requires Apply(w, op).Ok? && (op.Receive? ==> CanReceive(w, |op.bs|))
    ensures Apply(w, op).state.Readable() == BytesAfter(w.Readable(), op)
    ensures Bounded(w, Apply(w, op).state, Demand(w.Readable(), op))
  {
    match op
    case Append(bs) =>
    case Prepend(bs) => PrependRefines(w, bs);
    case Retrieve(n) => RetrieveRefines(w, n);
    case Unwrite(n) =>
      SliceOfSlice(w.cells, w.reader, w.writer, w.writer - w.reader - n);
    case Ensure(n) =>
    case Receive(bs) => ReceiveRefines(w, bs, 0);
  }

  /** Over every run in which no assertion fails, from every buffer, the readable window is the
      byte sequence, whatever was slid, grown or prepended on the way.  If no operation asks for
      more than m bytes in all, the array never exceeds 2m + 7 cells, or what it was. */
  lemma {:induction false} RunRefines(w: Window, ops: seq<Op>, m: nat)
    requires Run(Apply, w, ops).Ok? && KernelHonest(w, ops)
    ensures var v := Run(Apply, w, ops).state;
            && v.Readable() == AllBytes(w.Readable(), ops)
            && (DemandsAtMost(w.Readable(), ops, m) ==> |v.cells| <= |w.cells| || |v.cells| <= 2 * m + 7)
    decreases |ops|
  {
    if ops != [] {
      ApplyRefines(w, ops[0]);
      RunRefines(Apply(w, ops[0]).state, ops[1..], m);
    }
  }

  // ----- where the window lies

  /** The window in numbers: where it starts, how long it is, and the size of the array. */
  datatype Layout = Layout(reader: nat, readable: nat, size: nat) {
    function Writable(): int {
      size - reader - readable
    }

    /** Room for len bytes: what is there, or the front of the array, or a larger array. */
    function Reserve(len: nat): Layout {
      if len <= Writable() then this
      else if len <= Writable() + reader - CHEAP_PREPEND then this.(reader := CHEAP_PREPEND)
      else this.(size := reader + readable + len)
    }

    function Add(len: nat): Layout {
      Reserve(len).(readable := readable + len)
    }

    /** What each operation that does not fail makes of it. */
    function After(op: Op): Layout {
      match op
      case Append(bs) => Add(|bs|)
      case Prepend(bs) => if |bs| <= reader then Layout(reader - |bs|, readable + |bs|, size) else this
      case Retrieve(n) =>
        if n < readable then Layout(reader + n, readable - n, size) else Layout(CHEAP_PREPEND, 0, size)
      case Unwrite(n) => if n <= readable then this.(readable := readable - n) else this
      case Ensure(n) => Reserve(n)
      case Receive(bs) =>
        var direct := if 0 <= Writable() <= |bs| then Writable() else |bs|;
        this.(readable := readable + direct).Add(|bs| - direct)
    }
  }

  function LayoutOf(w: Window): Layout {
    Layout(w.reader, w.writer - w.reader, |w.cells|)
  }

  function LayoutAfter(l: Layout, ops: seq<Op>): Layout
    decreases |ops|
  {
    if ops == [] then l else LayoutAfter(l.After(ops[0]), ops[1..])
  }

  lemma EnsureLayout(w: Window, len: nat)
    ensures LayoutOf(EnsureWritable(w, len)) == LayoutOf(w).Reserve(len)
  {
  }

  lemma ReceiveLayout(w: Window, bs: seq<Byte>)
    requires CanReceive(w, |bs|)
    ensures LayoutOf(ReceiveBytes(w, bs)) == LayoutOf(w).After(Receive(bs))
  {
    var writable := w.WritableBytes();
    if |bs| > writable {
      AddLayout(FillWindow(w, bs[..writable]), bs[writable..]);
    }
  }

  lemma AddLayout(w: Window, bs: seq<Byte>)
    ensures LayoutOf(AppendBytes(w, bs)) == LayoutOf(w).Add(|bs|)
  {
    EnsureLayout(w, |bs|);
  }

  lemma ApplyLayout(w: Window, op: Op)
    requires Apply(w, op).Ok? && (op.Receive? ==> CanReceive(w, |op.bs|))
    ensures LayoutOf(Apply(w, op).state) == LayoutOf(w).After(op)
  {
    match op
    case Append(bs) => AddLayout(w, bs);
    case Ensure(n) => EnsureLayout(w, n);
    case Receive(bs) => ReceiveLayout(w, bs);
    case _ =>
  }

  /** Over every run in which no assertion fails the position of the window and the size of the
      array follow from the lengths alone: the array is extended only when sliding would not make
      room, and a window that is retrieved to its end starts again behind the headroom. */
  lemma {:induction false} RunLayout(w: Window, ops: seq<Op>)
    requires Run(Apply, w, ops).Ok? && KernelHonest(w, ops)
    ensures LayoutOf(Run(Apply, w, ops).state) == LayoutAfter(LayoutOf(w), ops)
    decreases |ops|
  {
    if ops != [] {
      ApplyLayout(w, ops[0]);
      RunLayout(Apply(w, ops[0]).state, ops[1..]);
    }
  }

  // ----- what a caller can rely on

  /** What a caller knows: the contents, and the headroom that retrieves have given back, up to
      the eight bytes that sliding the window may leave. */
  datatype Spec = Spec(bytes: seq<Byte>, room: nat)

  function ApplySpec(s: Spec, op: Op): Outcome<Spec> {
    var fails :=
      match op
      case Prepend(bs) => |bs| > s.room
      case Retrieve(n) => n > |s.bytes|
      case Unwrite(n) => n > |s.bytes|
      case _ => false;
    if fails then Abort("misuse")
    else
      var room :=
        match op
        case Prepend(bs) => s.room - |bs|
        case Retrieve(n) => Min(s.room + n, CHEAP_PREPEND)
        case _ => s.room;
      Ok(Spec(BytesAfter(s.bytes, op), room))
  }

  function Min(a: nat, b: nat): nat {
    if a < b then a else b
  }

  ghost predicate Refines(w: Window, s: Spec) {
    w.Readable() == s.bytes && s.room <= w.reader && s.room <= CHEAP_PREPEND
  }

  lemma SpecStep(w: Window, s: Spec, op: Op)
    requires Refines(w, s) && ApplySpec(s, op).Ok? && (op.Receive? ==> CanReceive(w, |op.bs|))
    ensures Apply(w, op).Ok? && Refines(Apply(w, op).state, ApplySpec(s, op).state)
  {
    ApplyRefines(w, op);
    match op
    case Prepend(bs) => PrependRefines(w, bs);
    case Retrieve(n) => RetrieveRefines(w, n);
    case Receive(bs) => ReceiveRefines(w, bs, s.room);
    case _ =>
  }

  /** A run within the known contents and headroom fails no assertion. */
  lemma {:induction false} NeverFails(w: Window, s: Spec, ops: seq<Op>)
    requires Refines(w, s) && Run(ApplySpec, s, ops).Ok? && KernelHonest(w, ops)
    ensures Run(Apply, w, ops).Ok? && Refines(Run(Apply, w, ops).state, Run(ApplySpec, s, ops).state)
    decreases |ops|
  {
    if ops != [] {
      SpecStep(w, s, ops[0]);
      NeverFails(Apply(w, ops[0]).state, ApplySpec(s, ops[0]).state, ops[1..]);
    }
  }

  /** The tightest buffer with these contents and this headroom. */
  function Tightest(s: Spec): (w: Window)
    ensures w.Readable() == s.bytes && w.reader == s.room
  {
    var cells := Zeros(s.room) + s.bytes + Zeros(CHEAP_PREPEND);
    assert cells[s.room..s.room + |s.bytes|] == s.bytes;
    Window(cells, s.room, s.room + |s.bytes|)
  }

  /** And nothing less will do: an operation succeeds on every buffer with the known contents and
      headroom if and only if it stays within them. */
  lemma HeadroomIsExact(s: Spec, op: Op)
    requires s.room <= CHEAP_PREPEND
    ensures ApplySpec(s, op).Ok? <==> forall w: Window :: Refines(w, s) ==> Apply(w, op).Ok?
  {
    if ApplySpec(s, op).Ok? {
      forall w: Window | Refines(w, s) ensures Apply(w, op).Ok? {
        AbortsOnlyOnMisuse(w, op);
      }
    } else {
      AbortsOnlyOnMisuse(Tightest(s), op);
      assert Refines(Tightest(s), s);
    }
  }

  lemma FreshRefines(initialSize: nat)
    ensures Refines(Fresh(initialSize), Spec([], CHEAP_PREPEND))
    ensures |Fresh(initialSize).cells| == CHEAP_PREPEND + initialSize
  {
  }

  /** A buffer operation fails exactly on the caller's own mistakes. */
  lemma AbortsOnlyOnMisuse(w: Window, op: Op)
    ensures Apply(w, op).Abort? <==>
            || (op.Prepend? && |op.bs| > w.reader)
            || (op.Retrieve? && op.n > |w.Readable()|)
            || (op.Unwrite? && op.n > |w.Readable()|)
  {
  }

  // ----- integers

  /** A value of a signed integer type of `width` bytes. */
  datatype RawTyped = Typed(width: nat, value: int)
  type Typed = t: RawTyped | InRange(t.value, t.width) witness Typed(1, 0)

  function PeekInt(h: Host, w: Window, width: nat): Outcome<int> {
    var readable := w.Readable();
    :- Check(|readable| >= width, "net/Buffer.h:306");
    Ok(DecodeInt(h, readable[..width]))
  }

  function AppendInts(h: Host, w: Window, ts: seq<Typed>): Window
    decreases |ts|
  {
    if ts == [] then w
    else AppendInts(h, AppendBytes(w, EncodeInt(h, ts[0].value, ts[0].width)), ts[1..])
  }

  function ReadInts(h: Host, w: Window, widths: seq<nat>): Outcome<(seq<int>, Window)>
    decreases |widths|
  {
    if widths == [] then Ok(([], w))
    else
      var x :- PeekInt(h, w, widths[0]);
      var v :- RetrieveBytes(w, widths[0]);
      var (xs, u) :- ReadInts(h, v, widths[1..]);
      Ok(([x] + xs, u))
  }

  function Widths(ts: seq<Typed>): seq<nat> {
    if ts == [] then [] else [ts[0].width] + Widths(ts[1..])
  }

  function Values(ts: seq<Typed>): seq<int> {
    if ts == [] then [] else [ts[0].value] + Values(ts[1..])
  }

  function EncodeAll(h: Host, ts: seq<Typed>): seq<Byte> {
    if ts == [] then [] else EncodeInt(h, ts[0].value, ts[0].width) + EncodeAll(h, ts[1..])
  }

  lemma {:induction false} AppendIntsContents(h: Host, w: Window, ts: seq<Typed>)
    ensures AppendInts(h, w, ts).Readable() == w.Readable() + EncodeAll(h, ts)
    decreases |ts|
  {
    if ts != [] {
      var bs := EncodeInt(h, ts[0].value, ts[0].width);
      AppendIntsContents(h, AppendBytes(w, bs), ts[1..]);
      Assoc(w.Readable(), bs, EncodeAll(h, ts[1..]));
    }
  }

  lemma {:induction false} ReadIntsContents(writer: Host, reader: Host, w: Window, ts: seq<Typed>, rest: seq<Byte>)
    requires w.Readable() == EncodeAll(writer, ts) + rest
    ensures var r := ReadInts(reader, w, Widths(ts));
            r.Ok? && r.state.0 == Values(ts) && r.state.1.Readable() == rest
    decreases |ts|
  {
    if ts != [] {
      var t := ts[0];
      var bs, more := EncodeInt(writer, t.value, t.width), EncodeAll(writer, ts[1..]) + rest;
      Assoc(bs, EncodeAll(writer, ts[1..]), rest);
      ReadOne(writer, reader, w, t, more);
      ReadIntsContents(writer, reader, RetrieveBytes(w, t.width).state, ts[1..], rest);
      ReadIntsCons(reader, w, t.width, Widths(ts[1..]));
    }
  }

  lemma ReadIntsCons(h: Host, w: Window, width: nat, widths: seq<nat>)
    requires PeekInt(h, w, width).Ok? && RetrieveBytes(w, width).Ok?
    requires ReadInts(h, RetrieveBytes(w, width).state, widths).Ok?
    ensures var rest := ReadInts(h, RetrieveBytes(w, width).state, widths).state;
            ReadInts(h, w, [width] + widths) == Ok(([PeekInt(h, w, width).state] + rest.0, rest.1))
  {
    assert ([width] + widths)[1..] == widths;
  }

  lemma ReadOne(writer: Host, reader: Host, w: Window, t: Typed, more: seq<Byte>)
    requires w.Readable() == EncodeInt(writer, t.value, t.width) + more
    ensures PeekInt(reader, w, t.width) == Ok(t.value)
    ensures RetrieveBytes(w, t.width).Ok? && RetrieveBytes(w, t.width).state.Readable() == more
  {
    var bs := EncodeInt(writer, t.value, t.width);
    assert (bs + more)[..t.width] == bs && (bs + more)[t.width..] == more;
    IntRoundTrip(writer, reader, t.value, t.width);
    RetrieveRefines(w, t.width);
  }

  /** Any sequence of integers appended to any buffer is read back unchanged, on a host of
      either byte order, once the bytes that were there first have been retrieved. */
  lemma IntsRoundTrip(writer: Host, reader: Host, w: Window, ts: seq<Typed>)
    ensures var v := RetrieveBytes(AppendInts(writer, w, ts), |w.Readable()|);
            && v.Ok?
            && ReadInts(reader, v.state, Widths(ts)).Ok?
            && ReadInts(reader, v.state, Widths(ts)).state.0 == Values(ts)
            && ReadInts(reader, v.state, Widths(ts)).state.1.Readable() == []
  {
    AppendIntsContents(writer, w, ts);
    var v := AppendInts(writer, w, ts);
    RetrieveRefines(v, |w.Readable()|);
    assert v.Readable()[|w.Readable()|..] == EncodeAll(writer, ts) + [];
    ReadIntsContents(writer, reader, RetrieveBytes(v, |w.Readable()|).state, ts, []);
  }

  /** A prepended integer is read first and leaves the rest as it was. */
  lemma PrependedIntRoundTrip(writer: Host, reader: Host, w: Window, t: Typed)
    requires t.width <= w.reader
    ensures var v := PrependBytes(w, EncodeInt(writer, t.value, t.width));
            && v.Ok?
            && ReadInts(reader, v.state, [t.width]).Ok?
            && ReadInts(reader, v.state, [t.width]).state.0 == [t.value]
            && ReadInts(reader, v.state, [t.width]).state.1.Readable() == w.Readable()
  {
    var bs := EncodeInt(writer, t.value, t.width);
    PrependRefines(w, bs);
    var v := PrependBytes(w, bs).state;
    ReadOne(writer, reader, v, t, w.Readable());
    ReadIntsCons(reader, v, t.width, []);
    assert [t.width] + [] == [t.width];
  }

  // ----- the object

  lemma CopyStep(was: seq<Byte>, from: nat, to: nat, i: nat)
    requires to <= from && from + i < |was|
    ensures var cells := Overlay(was, to, was[from..from + i]);
            cells[to + i := cells[from + i]] == Overlay(was, to, was[from..from + i + 1])
  {
    assert was[from..from + i + 1] == was[from..from + i] + [was[from + i]];
  }

  /** std::copy to a lower address of the same array: the ranges may overlap, and each byte
      is read before the copy reaches it. */
  method CopyForward(a: array<Byte>, from: nat, to: nat, len: nat)
    requires to <= from && from + len <= a.Length
    modifies a
    ensures a[..] == Overlay(old(a[..]), to, old(a[from..from + len]))
  {
    ghost var was := a[..];
    for i := 0 to len
      invariant a[..] == Overlay(was, to, was[from..from + i])
    {
      CopyStep(was, from, to, i);
      ghost var cells := a[..];
      a[to + i] := a[from + i];
      assert a[..] == cells[to + i := cells[from + i]];
    }
  }

  class Buffer {
    var buffer: array<Byte>
    var readerIndex: nat
    var writerIndex: nat

    ghost predicate Valid()
      reads this
    {
      CHEAP_PREPEND <= buffer.Length && readerIndex <= writerIndex <= buffer.Length
    }

    ghost function View(): Window
      requires Valid()
      reads this, buffer
    {
      Window(buffer[..], readerIndex, writerIndex)
    }

    constructor (initialSize: nat)
      ensures Valid() && fresh(buffer) && View() == Fresh(initialSize)
    {
      buffer := new Byte[CHEAP_PREPEND + initialSize](_ => 0);
      readerIndex, writerIndex := CHEAP_PREPEND, CHEAP_PREPEND;
      new;
      assert buffer[..] == Zeros(CHEAP_PREPEND + initialSize);
    }

    /** buffer_.resize(n) for a larger n. */
    method Grow(n: nat)
      requires Valid() && n >= buffer.Length
      modifies this`buffer
      ensures Valid() && fresh(buffer) && buffer[..] == old(buffer[..]) + Zeros(n - old(buffer.Length))
    {
      var old_buffer := buffer;
      var bigger := new Byte[n](_ => 0);
      for i := 0 to old_buffer.Length
        invariant bigger[..] == old_buffer[..i] + Zeros(n - i)
      {
        bigger[i] := old_buffer[i];
        assert bigger[..] == old_buffer[..i + 1] + Zeros(n - i - 1);
      }
      buffer := bigger;
    }

    method MakeSpace(len: nat)
      requires Valid() && buffer.Length - writerIndex < len
      modifies this, buffer
      ensures Valid() && (buffer == old(buffer) || fresh(buffer))
      ensures View() == WithSpace(old(View()), len)
    {
      if buffer.Length - writerIndex + readerIndex < len + CHEAP_PREPEND {
        Grow(writerIndex + len);
      } else {
        assert CHEAP_PREPEND < readerIndex;
        var readable := writerIndex - readerIndex;
        CopyForward(buffer, readerIndex, CHEAP_PREPEND, readable);
        readerIndex := CHEAP_PREPEND;
        writerIndex := readerIndex + readable;
      }
    }

    method EnsureWritableBytes(len: nat)
      requires Valid()
      modifies this, buffer
      ensures Valid() && (buffer == old(buffer) || fresh(buffer))
      ensures View() == EnsureWritable(old(View()), len)
      ensures buffer.Length - writerIndex >= len
    {
      if buffer.Length - writerIndex < len {
        MakeSpace(len);
      }
    }

    /** std::copy of `src` into the array from index `at`. */
    method CopyIn(at: nat, src: seq<Byte>)
      requires Valid() && at + |src| <= buffer.Length
      modifies buffer
      ensures buffer[..] == Overlay(old(buffer[..]), at, src)
    {
      for i := 0 to |src|
        invariant buffer[..] == Overlay(old(buffer[..]), at, src[..i])
      {
        buffer[at + i] := src[i];
        assert src[..i + 1] == src[..i] + [src[i]];
      }
      assert src[..|src|] == src;
    }

    method Append(data: seq<Byte>)
      requires Valid()
      modifies this, buffer
      ensures Valid() && (buffer == old(buffer) || fresh(buffer))
      ensures View() == AppendBytes(old(View()), data)
      ensures View().Readable() == old(View().Readable()) + data
    {
      EnsureWritableBytes(|data|);
      CopyIn(writerIndex, data);
      writerIndex := writerIndex + |data|;
    }

    method Prepend(data: seq<Byte>)
      requires Valid() && |data| <= readerIndex
      modifies this`readerIndex, buffer
      ensures Valid() && Ok(View()) == PrependBytes(old(View()), data)
      ensures View().Readable() == data + old(View().Readable())
    {
      PrependRefines(View(), data);
      readerIndex := readerIndex - |data|;
      CopyIn(readerIndex, data);
    }

    method Retrieve(len: nat)
      requires Valid() && len <= writerIndex - readerIndex
      modifies this`readerIndex, this`writerIndex
      ensures Valid() && Ok(View()) == RetrieveBytes(old(View()), len)
      ensures View().Readable() == old(View().Readable())[len..]
      ensures View().Readable() == [] ==> readerIndex == CHEAP_PREPEND && writerIndex == CHEAP_PREPEND
    {
      RetrieveRefines(View(), len);
      if len < writerIndex - readerIndex {
        readerIndex := readerIndex + len;
      } else {
        readerIndex, writerIndex := CHEAP_PREPEND, CHEAP_PREPEND;
      }
    }

    method Unwrite(len: nat)
      requires Valid() && len <= writerIndex - readerIndex
      modifies this`writerIndex
      ensures Valid() && Ok(View()) == UnwriteBytes(old(View()), len)
      ensures View().Readable() == old(View().Readable())[..writerIndex - readerIndex]
      ensures readerIndex == old(readerIndex) && writerIndex == old(writerIndex) - len
    {
      SliceOfSlice(buffer[..], readerIndex, writerIndex, writerIndex - readerIndex - len);
      writerIndex := writerIndex - len;
    }

    /** One block of readv lands in the writable bytes. */
    method Fill(src: seq<Byte>)
      requires Valid() && |src| <= View().WritableBytes()
      modifies this`writerIndex, buffer
      ensures Valid() && View() == FillWindow(old(View()), src)
    {
      CopyIn(writerIndex, src);
      writerIndex := writerIndex + |src|;
    }

    /** `received` is what readv delivers, in order, into the two blocks; None is an error. */
    method ReadFd(received: Option<seq<Byte>>) returns (n: int)
      requires Valid() && (received.Some? ==> CanReceive(View(), |received.value|))
      modifies this, buffer
      ensures Valid() && (buffer == old(buffer) || fresh(buffer))
      ensures received.None? ==> n == -1 && View() == old(View())
      ensures received.Some? ==>
                && n == |received.value| && View() == ReceiveBytes(old(View()), received.value)
                && View().Readable() == old(View().Readable()) + received.value
    {
      if received.None? {
        return -1;
      }
      var input := received.value;
      n := |input|;
      ReceiveRefines(View(), input, 0);
      var writable := buffer.Length - writerIndex;
      if n <= writable {
        Fill(input);
      } else {
        Fill(input[..writable]);
        Append(input[writable..]);
      }
    }

    method AppendInt(h: Host, t: Typed)
      requires Valid()
      modifies this, buffer
      ensures Valid() && (buffer == old(buffer) || fresh(buffer))
      ensures View() == AppendInts(h, old(View()), [t])
    {
      Append(EncodeInt(h, t.value, t.width));
      assert [t][1..] == [];
    }

    method ReadInt(h: Host, width: nat) returns (x: int)
      requires Valid() && width <= writerIndex - readerIndex
      modifies this`readerIndex, this`writerIndex
      ensures Valid() && Ok(x) == PeekInt(h, old(View()), width) && Ok(View()) == RetrieveBytes(old(View()), width)
    {
      SliceOfSlice(buffer[..], readerIndex, writerIndex, width);
      x := DecodeInt(h, buffer[readerIndex..readerIndex + width]);
      assert Ok(x) == PeekInt(h, View(), width);
      Retrieve(width);
    }
  }
}
