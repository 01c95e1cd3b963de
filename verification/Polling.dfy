/**
 Channels (net/Channel.h, net/Channel.cpp) and the epoll poller (net/Epoller.cpp): a
 user-space index of channels that must agree with the kernel's interest set.  `C` is
 the identity of a channel: the pointer stored in `epoll_event.data.ptr`.
 */
module Polling {
  import opened Machine

  type Mask = bv16

  const POLLIN: Mask := 0x1
  const POLLPRI: Mask := 0x2
  const POLLOUT: Mask := 0x4
  const POLLERR: Mask := 0x8
  const POLLHUP: Mask := 0x10
  const POLLNVAL: Mask := 0x20
  const POLLRDHUP: Mask := 0x2000

  const NONE_EVENT: Mask := 0
  const READ_EVENT: Mask := POLLIN | POLLPRI
  const WRITE_EVENT: Mask := POLLOUT

  datatype Index = KNew | KAdded | KDeleted

  datatype Chan = Chan(fd: int, events: Mask, index: Index, addedToLoop: bool) {
    predicate IsNoneEvent() {
      events == NONE_EVENT
    }

    predicate IsWriting() {
      events & WRITE_EVENT != 0
    }
  }

  function NewChan(fd: int): Chan {
    Chan(fd, NONE_EVENT, KNew, false)
  }

  /** One entry of the kernel's interest set. */
  datatype Interest<C> = Interest(events: Mask, ptr: C)

  datatype Poller<C> = Poller(channels: map<int, C>, kernel: map<int, Interest<C>>)

  /** A poller and the channels of its loop. */
  datatype World<C> = World(poller: Poller<C>, chans: map<C, Chan>)

  function Empty<C>(): World<C> {
    World(Poller(map[], map[]), map[])
  }

  datatype Op = Add | Mod | Del

  /** epoll_ctl: ADD needs the descriptor absent, MOD and DEL need it present. */
  function EpollCtl<C>(kernel: map<int, Interest<C>>, op: Op, fd: int, event: Interest<C>): Outcome<map<int, Interest<C>>> {
    match op
    case Add =>
      :- Check(fd !in kernel, "epoll_ctl ADD: EEXIST");
      Ok(kernel[fd := event])
    case Mod =>
      :- Check(fd in kernel, "epoll_ctl MOD: ENOENT");
      Ok(kernel[fd := event])
    case Del =>
      :- Check(fd in kernel, "epoll_ctl DEL: ENOENT");
      Ok(kernel - {fd})
  }

  function PollerUpdate<C(==)>(p: Poller<C>, c: C, ch: Chan): Outcome<(Poller<C>, Chan)> {
    if ch.index == KNew || ch.index == KDeleted then
      :- Check(ch.fd !in p.channels || p.channels[ch.fd] == c, "net/Epoller.cpp:104");
      var kernel :- EpollCtl(p.kernel, Add, ch.fd, Interest(ch.events, c));
      Ok((Poller(p.channels[ch.fd := c], kernel), ch.(index := KAdded)))
    else
      :- Check(ch.fd in p.channels, "net/Epoller.cpp:111");
      :- Check(p.channels[ch.fd] == c, "net/Epoller.cpp:112");
      if ch.IsNoneEvent() then
        var kernel :- EpollCtl(p.kernel, Del, ch.fd, Interest(ch.events, c));
        Ok((p.(kernel := kernel), ch.(index := KDeleted)))
      else
        var kernel :- EpollCtl(p.kernel, Mod, ch.fd, Interest(ch.events, c));
        Ok((p.(kernel := kernel), ch))
  }

  function PollerRemove<C(==)>(p: Poller<C>, c: C, ch: Chan): Outcome<(Poller<C>, Chan)> {
    var fd := ch.fd;
    :- Check(fd in p.channels, "net/Epoller.cpp:133");
    :- Check(p.channels[fd] == c, "net/Epoller.cpp:134");
    :- Check(ch.IsNoneEvent(), "net/Epoller.cpp:135");
    :- Check(ch.index == KAdded || ch.index == KDeleted, "net/Epoller.cpp:137");
    var kernel :-
      if ch.index == KAdded then EpollCtl(p.kernel, Del, fd, Interest(ch.events, c)) else Ok(p.kernel);
    Ok((Poller(p.channels - {fd}, kernel), ch.(index := KNew)))
  }

  /** Channel::update after a change of mask. */
  function SetMask<C(==)>(w: World<C>, c: C, events: Mask): (r: Outcome<World<C>>)
    requires c in w.chans
    ensures r.Ok? ==> c in r.state.chans
  {
    var (p, ch) :- PollerUpdate(w.poller, c, w.chans[c].(events := events, addedToLoop := true));
    Ok(World(p, w.chans[c := ch]))
  }

  /** Channel::remove. */
  function Detach<C(==)>(w: World<C>, c: C): Outcome<World<C>>
    requires c in w.chans
  {
    var ch := w.chans[c];
    :- Check(ch.IsNoneEvent(), "net/Channel.cpp:32");
    var (p, ch) :- PollerRemove(w.poller, c, ch.(addedToLoop := false));
    Ok(World(p, w.chans[c := ch]))
  }

  /** updateChannel and removeChannel fail exactly where their assertions or epoll_ctl do. */
  lemma PollerAssertions<C>(p: Poller<C>, c: C, ch: Chan)
    ensures PollerUpdate(p, c, ch).Ok? <==>
            if ch.index == KAdded then ch.fd in p.channels && p.channels[ch.fd] == c && ch.fd in p.kernel
            else (ch.fd in p.channels ==> p.channels[ch.fd] == c) && ch.fd !in p.kernel
    ensures PollerRemove(p, c, ch).Ok? <==>
            && ch.fd in p.channels && p.channels[ch.fd] == c && ch.events == 0 && ch.index != KNew
            && (ch.index == KAdded ==> ch.fd in p.kernel)
  {
  }

  // ----- agreement

  /** The index holds exactly the channels added or deleted, and the kernel's interest set
      is exactly the channels whose index is KAdded, with their current masks. */
  ghost predicate Agrees<C>(w: World<C>) {
    && (forall fd :: fd in w.poller.channels ==>
          var c := w.poller.channels[fd];
          c in w.chans && w.chans[c].fd == fd && w.chans[c].index != KNew)
    && (forall c :: c in w.chans && w.chans[c].index != KNew ==>
          w.chans[c].fd in w.poller.channels && w.poller.channels[w.chans[c].fd] == c)
    && (forall fd :: fd in w.poller.kernel ==>
          && fd in w.poller.channels
          && w.poller.channels[fd] in w.chans
          && w.chans[w.poller.channels[fd]].index == KAdded
          && w.poller.kernel[fd] == Interest(w.chans[w.poller.channels[fd]].events, w.poller.channels[fd]))
    && (forall c :: c in w.chans && w.chans[c].index == KAdded ==> w.chans[c].fd in w.poller.kernel)
  }

  /** A channel that is not indexed must bring a descriptor that is not indexed. */
  predicate MayUpdate<C>(w: World<C>, c: C) {
    c in w.chans && (w.chans[c].index == KNew ==> w.chans[c].fd !in w.poller.channels)
  }

  /** The world after an update: one channel changes, and the kernel follows its index. */
  function Updated<C(==)>(w: World<C>, c: C, ch: Chan): World<C> {
    World(Poller(w.poller.channels[ch.fd := c],
                 if ch.index == KAdded then w.poller.kernel[ch.fd := Interest(ch.events, c)]
                 else w.poller.kernel - {ch.fd}),
          w.chans[c := ch])
  }

  function UpdatedChan(ch: Chan, events: Mask): Chan {
    Chan(ch.fd, events, if ch.index == KAdded && events == NONE_EVENT then KDeleted else KAdded, true)
  }

  lemma SetMaskEffect<C>(w: World<C>, c: C, events: Mask)
    requires Agrees(w) && MayUpdate(w, c)
    ensures SetMask(w, c, events) == Ok(Updated(w, c, UpdatedChan(w.chans[c], events)))
  {
    var ch := w.chans[c];
    if ch.index == KAdded {
      assert w.poller.channels[ch.fd := c] == w.poller.channels;
    } else {
      assert ch.fd !in w.poller.kernel;
    }
  }

  lemma UpdatedAgrees<C>(w: World<C>, c: C, ch: Chan)
    requires Agrees(w) && MayUpdate(w, c) && ch.fd == w.chans[c].fd && ch.index != KNew
    ensures Agrees(Updated(w, c, ch))
  {
    var v := Updated(w, c, ch);
    forall fd | fd in v.poller.channels
      ensures v.poller.channels[fd] in v.chans && v.chans[v.poller.channels[fd]].fd == fd
              && v.chans[v.poller.channels[fd]].index != KNew
    {
    }
    forall d | d in v.chans && d != c && v.chans[d].index != KNew
      ensures v.chans[d].fd in v.poller.channels && v.poller.channels[v.chans[d].fd] == d
    {
      assert w.chans[d] == v.chans[d];
    }
  }

  /** An update reaches the kernel: the descriptor is watched with the new mask, unless an added
      channel gave up its last interest; no other descriptor and no other channel changes. */
  lemma UpdateReachesKernel<C>(w: World<C>, c: C, events: Mask)
    requires Agrees(w) && MayUpdate(w, c)
    ensures SetMask(w, c, events).Ok?
    ensures var v, ch := SetMask(w, c, events).state, w.chans[c];
            && v.chans.Keys == w.chans.Keys && (forall d :: d in w.chans && d != c ==> v.chans[d] == w.chans[d])
            && v.chans[c].fd == ch.fd && v.chans[c].events == events && v.chans[c].addedToLoop
            && (forall fd :: fd != ch.fd ==>
                  && (fd in v.poller.kernel <==> fd in w.poller.kernel)
                  && (fd in w.poller.kernel ==> v.poller.kernel[fd] == w.poller.kernel[fd]))
            && (if ch.index == KAdded && events == 0 then ch.fd !in v.poller.kernel && v.chans[c].index == KDeleted
                else ch.fd in v.poller.kernel && v.poller.kernel[ch.fd] == Interest(events, c))
  {
    SetMaskEffect(w, c, events);
  }

  /** Updating any channel succeeds, down to the epoll_ctl call, and keeps the agreement. */
  lemma SetMaskKeepsAgreement<C>(w: World<C>, c: C, events: Mask)
    requires Agrees(w) && MayUpdate(w, c)
    ensures SetMask(w, c, events).Ok? && Agrees(SetMask(w, c, events).state)
  {
    SetMaskEffect(w, c, events);
    UpdatedAgrees(w, c, UpdatedChan(w.chans[c], events));
  }

  /** The world after a removal. */
  function Removed<C(==)>(w: World<C>, c: C): World<C>
    requires c in w.chans
  {
    var fd := w.chans[c].fd;
    World(Poller(w.poller.channels - {fd}, w.poller.kernel - {fd}),
          w.chans[c := w.chans[c].(index := KNew, addedToLoop := false)])
  }

  lemma DetachEffect<C>(w: World<C>, c: C)
    requires Agrees(w) && c in w.chans
    ensures Detach(w, c).Ok? <==> w.chans[c].IsNoneEvent() && w.chans[c].index != KNew
    ensures Detach(w, c).Ok? ==> Detach(w, c).state == Removed(w, c)
  {
    if w.chans[c].index == KDeleted {
      assert w.chans[c].fd !in w.poller.kernel;
      assert w.poller.kernel - {w.chans[c].fd} == w.poller.kernel;
    }
  }

  lemma RemovedAgrees<C>(w: World<C>, c: C)
    requires Agrees(w) && c in w.chans && w.chans[c].index != KNew
    ensures Agrees(Removed(w, c))
  {
    var v := Removed(w, c);
    forall d | d in v.chans && d != c && v.chans[d].index != KNew
      ensures v.chans[d].fd in v.poller.channels && v.poller.channels[v.chans[d].fd] == d
    {
      assert w.chans[d] == v.chans[d];
    }
  }

  /** Removal fails exactly on a channel that still has interest or was never added. */
  lemma DetachKeepsAgreement<C>(w: World<C>, c: C)
    requires Agrees(w) && c in w.chans
    ensures Detach(w, c).Ok? <==> w.chans[c].IsNoneEvent() && w.chans[c].index != KNew
    ensures Detach(w, c).Ok? ==>
              && Agrees(Detach(w, c).state)
              && Detach(w, c).state.poller.kernel == w.poller.kernel - {w.chans[c].fd}
              && Detach(w, c).state.poller.channels == w.poller.channels - {w.chans[c].fd}
              && Detach(w, c).state.chans == w.chans[c := Chan(w.chans[c].fd, 0, KNew, false)]
  {
    DetachEffect(w, c);
    if w.chans[c].index != KNew {
      RemovedAgrees(w, c);
    }
  }

  // ----- every run of mask changes and removals

  datatype Change = EnableReading | DisableReading | EnableWriting | DisableWriting | DisableAll

  function Changed(events: Mask, change: Change): Mask {
    match change
    case EnableReading => events | READ_EVENT
    case DisableReading => events & !READ_EVENT
    case EnableWriting => events | WRITE_EVENT
    case DisableWriting => events & !WRITE_EVENT
    case DisableAll => NONE_EVENT
  }

  /** Each change switches its own bits on or off, and keeps every other bit. */
  lemma ReadingBits(events: Mask)
    ensures SwitchedOn(events, Changed(events, EnableReading), POLLIN | POLLPRI)
    ensures SwitchedOff(events, Changed(events, DisableReading), POLLIN | POLLPRI)
  {
    OrSwitchesOn(events, READ_EVENT);
    AndSwitchesOff(events, READ_EVENT);
  }

  lemma WritingBits(events: Mask)
    ensures SwitchedOn(events, Changed(events, EnableWriting), POLLOUT)
    ensures SwitchedOff(events, Changed(events, DisableWriting), POLLOUT)
    ensures Changed(events, DisableAll) == 0
  {
    OrSwitchesOn(events, WRITE_EVENT);
    AndSwitchesOff(events, WRITE_EVENT);
  }

  predicate SwitchedOn(before: Mask, after: Mask, bits: Mask) {
    after & bits == bits && after & !bits == before & !bits
  }

  predicate SwitchedOff(before: Mask, after: Mask, bits: Mask) {
    after & bits == 0 && after & !bits == before & !bits
  }

  lemma OrSwitchesOn(events: Mask, bits: Mask)
    ensures SwitchedOn(events, events | bits, bits)
  {
    OrKeeps(events, bits);
    OrSets(events, bits);
  }

  lemma OrKeeps(events: Mask, bits: Mask)
    ensures (events | bits) & !bits == events & !bits
  {
  }

  lemma OrSets(events: Mask, bits: Mask)
    ensures (events | bits) & bits == bits
  {
  }

  lemma AndSwitchesOff(events: Mask, bits: Mask)
    ensures SwitchedOff(events, events & !bits, bits)
  {
  }

  datatype Act = OpenChan(c: nat, fd: int) | SetEvents(c: nat, change: Change) | RemoveChan(c: nat) | DestroyChan(c: nat)

  /** A descriptor in use is not handed out again; a channel is removed only with an empty
      mask and after it was added, and destroyed only after it was removed. */
  function Perform(w: World<nat>, a: Act): Outcome<World<nat>> {
    match a
    case OpenChan(c, fd) =>
      if c in w.chans || exists d :: d in w.chans && w.chans[d].fd == fd then Ok(w)
      else Ok(w.(chans := w.chans[c := NewChan(fd)]))
    case SetEvents(c, change) => if c in w.chans then SetMask(w, c, Changed(w.chans[c].events, change)) else Ok(w)
    case RemoveChan(c) =>
      if c in w.chans && w.chans[c].IsNoneEvent() && w.chans[c].index != KNew then Detach(w, c) else Ok(w)
    case DestroyChan(c) =>
      if c in w.chans && w.chans[c].index == KNew then Ok(w.(chans := w.chans - {c})) else Ok(w)
  }

  ghost predicate DistinctFds(w: World<nat>) {
    forall c, d :: c in w.chans && d in w.chans && w.chans[c].fd == w.chans[d].fd ==> c == d
  }

  ghost predicate WorldInv(w: World<nat>) {
    Agrees(w) && DistinctFds(w)
  }

  lemma SetEventsKeepsInv(w: World<nat>, c: nat, events: Mask)
    requires WorldInv(w) && c in w.chans
    ensures SetMask(w, c, events).Ok? && WorldInv(SetMask(w, c, events).state)
  {
    SetMaskEffect(w, c, events);
    UpdatedAgrees(w, c, UpdatedChan(w.chans[c], events));
  }

  lemma RemoveKeepsInv(w: World<nat>, c: nat)
    requires WorldInv(w) && c in w.chans && w.chans[c].index != KNew
    ensures Detach(w, c).Ok? <==> w.chans[c].IsNoneEvent()
    ensures Detach(w, c).Ok? ==> WorldInv(Detach(w, c).state)
  {
    DetachEffect(w, c);
    RemovedAgrees(w, c);
  }

  lemma PerformKeepsInv(w: World<nat>, a: Act)
    requires WorldInv(w)
    ensures Perform(w, a).Ok? && WorldInv(Perform(w, a).state)
  {
    match a
    case OpenChan(c, fd) =>
    case SetEvents(c, change) => if c in w.chans { SetEventsKeepsInv(w, c, Changed(w.chans[c].events, change)); }
    case RemoveChan(c) => if c in w.chans && w.chans[c].index != KNew { RemoveKeepsInv(w, c); }
    case DestroyChan(c) =>
  }

  /** What each act does when it can be done: a new channel starts without interest, a change of
      mask reaches the channel, a removal takes it out of the index and the kernel. */
  lemma PerformEffect(w: World<nat>, a: Act)
    requires WorldInv(w)
    ensures Perform(w, a).Ok?
    ensures var v := Perform(w, a).state;
            match a
            case OpenChan(c, fd) =>
              c !in w.chans && (forall d :: d in w.chans ==> w.chans[d].fd != fd) ==>
                v == w.(chans := w.chans[c := Chan(fd, 0, KNew, false)])
            case SetEvents(c, change) =>
              c in w.chans ==>
                && v.chans.Keys == w.chans.Keys && v.chans[c].fd == w.chans[c].fd
                && v.chans[c].events == Changed(w.chans[c].events, change) && v.chans[c].index != KNew
            case RemoveChan(c) =>
              c in w.chans && w.chans[c].events == 0 && w.chans[c].index != KNew ==>
                && v.chans == w.chans[c := Chan(w.chans[c].fd, 0, KNew, false)]
                && w.chans[c].fd !in v.poller.channels && w.chans[c].fd !in v.poller.kernel
            case DestroyChan(c) =>
              c in w.chans && w.chans[c].index == KNew ==> v == w.(chans := w.chans - {c})
  {
    PerformKeepsInv(w, a);
    match a
    case SetEvents(c, change) => if c in w.chans { SetMaskEffect(w, c, Changed(w.chans[c].events, change)); }
    case RemoveChan(c) => if c in w.chans { DetachEffect(w, c); }
    case _ =>
  }

  /** After every run the kernel watches a descriptor exactly when it belongs to a channel
      whose index is KAdded, with that channel's current mask and its pointer; no assertion
      fails and no epoll_ctl call is refused. */
  lemma KernelAgrees(acts: seq<Act>)
    ensures Run(Perform, Empty(), acts).Ok?
    ensures var w := Run(Perform, Empty(), acts).state;
            forall c :: c in w.chans ==>
              (w.chans[c].index == KAdded <==>
                 w.chans[c].fd in w.poller.kernel && w.poller.kernel[w.chans[c].fd] == Interest(w.chans[c].events, c))
    ensures var w := Run(Perform, Empty(), acts).state;
            forall fd :: fd in w.poller.kernel ==>
              w.poller.kernel[fd].ptr in w.chans && w.chans[w.poller.kernel[fd].ptr].fd == fd
  {
    forall w, a | WorldInv(w) ensures Perform(w, a).Ok? && WorldInv(Perform(w, a).state) {
      PerformKeepsInv(w, a);
    }
    RunKeeps(Perform, WorldInv, Empty(), acts);
  }

  // ----- dispatch

  datatype Callback = CloseCb | ErrorCb | ReadCb | WriteCb

  predicate Has(revents: Mask, flags: Mask) {
    revents & flags != 0
  }

  predicate MakesClose(revents: Mask) {
    Has(revents, POLLHUP) && !Has(revents, POLLIN)
  }

  predicate MakesRead(revents: Mask) {
    Has(revents, POLLIN | POLLPRI | POLLRDHUP)
  }

  function When(condition: bool, callback: Callback): seq<Callback> {
    if condition then [callback] else []
  }

  /** Channel::handleEventWithGuard: the callbacks it makes, in order. */
  function Callbacks(revents: Mask): seq<Callback> {
    When(MakesClose(revents), CloseCb) + When(Has(revents, POLLERR | POLLNVAL), ErrorCb)
    + When(MakesRead(revents), ReadCb) + When(Has(revents, POLLOUT), WriteCb)
  }

  /** Callbacks in the order handleEventWithGuard makes them. */
  predicate InOrder(cbs: seq<Callback>) {
    forall i, j :: 0 <= i < j < |cbs| ==> Turn(cbs[i]) < Turn(cbs[j])
  }

  function Turn(cb: Callback): nat {
    match cb
    case CloseCb => 0
    case ErrorCb => 1
    case ReadCb => 2
    case WriteCb => 3
  }

  /** Which callbacks a report makes, bit by bit, each at most once and in order. */
  lemma DispatchByBits(revents: Mask)
    ensures CloseCb in Callbacks(revents) <==> revents & 0x10 != 0 && revents & 0x1 == 0
    ensures ErrorCb in Callbacks(revents) <==> revents & 0x8 != 0 || revents & 0x20 != 0
    ensures ReadCb in Callbacks(revents) <==> revents & 0x1 != 0 || revents & 0x2 != 0 || revents & 0x2000 != 0
    ensures WriteCb in Callbacks(revents) <==> revents & 0x4 != 0
    ensures InOrder(Callbacks(revents))
  {
    ErrorBits(revents);
    ReadBits(revents);
    UrgentBits(revents);
    FourWhens(MakesClose(revents), Has(revents, POLLERR | POLLNVAL), MakesRead(revents), Has(revents, POLLOUT));
  }

  lemma FourWhens(close: bool, error: bool, read: bool, write: bool)
    ensures var cbs := When(close, CloseCb) + When(error, ErrorCb) + When(read, ReadCb) + When(write, WriteCb);
            && (CloseCb in cbs <==> close) && (ErrorCb in cbs <==> error)
            && (ReadCb in cbs <==> read) && (WriteCb in cbs <==> write) && InOrder(cbs)
  {
  }

  lemma ErrorBits(revents: Mask)
    ensures Has(revents, POLLERR | POLLNVAL) <==> revents & 0x8 != 0 || revents & 0x20 != 0
  {
  }

  lemma UrgentBits(revents: Mask)
    ensures Has(revents, POLLPRI | POLLRDHUP) <==> revents & 0x2 != 0 || revents & 0x2000 != 0
  {
  }

  /** A hang-up that comes with urgent data or a half-close, but without POLLIN. */
  predicate ClosesAndReads(revents: Mask) {
    Has(revents, POLLHUP) && !Has(revents, POLLIN) && Has(revents, POLLPRI | POLLRDHUP)
  }

  /** One dispatch makes both the close and the read callback exactly on such a hang-up. */
  lemma AtMostOneOfCloseAndRead(revents: Mask)
    ensures CloseCb in Callbacks(revents) && ReadCb in Callbacks(revents) <==> ClosesAndReads(revents)
  {
    ReadBits(revents);
    assert CloseCb in Callbacks(revents) <==> MakesClose(revents);
    assert ReadCb in Callbacks(revents) <==> MakesRead(revents);
  }

  lemma ReadBits(revents: Mask)
    ensures MakesRead(revents) <==> Has(revents, POLLIN) || Has(revents, POLLPRI | POLLRDHUP)
  {
  }

  /** What epoll reports of a channel: events it asked for, errors and hang-ups. */
  predicate Reportable(interest: Mask, revents: Mask) {
    revents & !(interest | POLLERR | POLLHUP) == 0
  }

  /** No channel asks for POLLRDHUP, so of such hang-ups epoll can only report one with urgent
      data and without POLLIN. */
  lemma ReportableHangUp(interest: Mask, revents: Mask)
    requires interest & !(READ_EVENT | WRITE_EVENT) == 0 && Reportable(interest, revents)
    ensures CloseCb in Callbacks(revents) && ReadCb in Callbacks(revents)
            <==> Has(revents, POLLHUP) && !Has(revents, POLLIN) && Has(revents, POLLPRI)
  {
    AtMostOneOfCloseAndRead(revents);
    NeverHalfClosed(interest, revents);
  }

  lemma NeverHalfClosed(interest: Mask, revents: Mask)
    requires interest & !(READ_EVENT | WRITE_EVENT) == 0 && Reportable(interest, revents)
    ensures Has(revents, POLLPRI | POLLRDHUP) == Has(revents, POLLPRI)
  {
  }

  // ----- the objects

  class Channel {
    const fd: int
    var events: Mask
    var revents: Mask
    var index: Index
    var addedToLoop: bool

    constructor (fd: int)
      ensures Value() == NewChan(fd)
    {
      this.fd := fd;
      events, revents, index, addedToLoop := NONE_EVENT, 0, KNew, false;
    }

    function Value(): Chan
      reads this
    {
      Chan(fd, events, index, addedToLoop)
    }

    /** The poller's account of its channels has this one as it is. */
    ghost predicate Registered(poller: Epoller)
      reads this, poller
    {
      this in poller.chans && poller.chans[this] == Value()
    }

    /** The channel as it asks the poller for an update. */
    function Asking(change: Change): Chan
      reads this
    {
      Value().(events := Changed(events, change), addedToLoop := true)
    }

    /** The mask changes, then update() goes through the loop to the poller. */
    method ChangeAndUpdate(change: Change, poller: Epoller)
      requires PollerUpdate(poller.Table(), this, Asking(change)).Ok?
      modifies this, poller
      ensures Ok((poller.Table(), Value())) == PollerUpdate(old(poller.Table()), this, old(Asking(change)))
      ensures poller.chans == old(poller.chans)[this := Value()]
      ensures revents == old(revents) && poller.eventListSize == old(poller.eventListSize)
    {
      events := Changed(events, change);
      addedToLoop := true;
      poller.UpdateChannel(this);
      poller.chans := poller.chans[this := Value()];
    }

    /** enableReading and its siblings: no assertion of updateChannel fails and no epoll_ctl call
        is refused. */
    method SetInterest(change: Change, poller: Epoller)
      requires poller.Valid() && Registered(poller) && MayUpdate(poller.View(), this)
      modifies this, poller
      ensures poller.Valid() && Registered(poller) && MayUpdate(poller.View(), this)
      ensures Value() == UpdatedChan(old(Value()), Changed(old(events), change)) && revents == old(revents)
      ensures poller.View() == Updated(old(poller.View()), this, Value()) && poller.eventListSize == old(poller.eventListSize)
    {
      ghost var w, ch := poller.View(), UpdatedChan(Value(), Changed(events, change));
      SetMaskEffect(w, this, Changed(events, change));
      UpdatedAgrees(w, this, ch);
      ChangeAndUpdate(change, poller);
      assert poller.View() == Updated(w, this, ch);
    }

    /** The assertions of Channel::remove and Epoller::removeChannel hold of an added channel
        without interest. */
    method Remove(poller: Epoller)
      requires poller.Valid() && Registered(poller) && events == NONE_EVENT && index != KNew
      modifies this, poller
      ensures poller.Valid() && Registered(poller)
      ensures Value() == NewChan(fd) && revents == old(revents)
      ensures poller.View() == Removed(old(poller.View()), this) && poller.eventListSize == old(poller.eventListSize)
    {
      ghost var w := poller.View();
      DetachEffect(w, this);
      RemovedAgrees(w, this);
      addedToLoop := false;
      poller.RemoveChannel(this);
      poller.chans := poller.chans[this := Value()];
    }
  }

  class Epoller {
    var channels: map<int, Channel>
    var kernel: map<int, Interest<Channel>>
    var eventListSize: nat
    ghost var chans: map<Channel, Chan>     // the loop's channels, as they are

    function Table(): Poller<Channel>
      reads this
    {
      Poller(channels, kernel)
    }

    ghost function View(): World<Channel>
      reads this
    {
      World(Table(), chans)
    }

    ghost predicate Valid()
      reads this
    {
      Agrees(View()) && forall c :: c in chans ==> chans[c].fd == c.fd
    }

    constructor ()
      ensures Valid() && channels == map[] && kernel == map[] && eventListSize == 16 && chans == map[]
    {
      channels, kernel, eventListSize, chans := map[], map[], 16, map[];
    }

    method Update(op: Op, ch: Channel)
      requires EpollCtl(kernel, op, ch.fd, Interest(ch.events, ch)).Ok?
      modifies this`kernel
      ensures Ok(kernel) == EpollCtl(old(kernel), op, ch.fd, Interest(ch.events, ch))
    {
      kernel := match op
        case Add => kernel[ch.fd := Interest(ch.events, ch)]
        case Mod => kernel[ch.fd := Interest(ch.events, ch)]
        case Del => kernel - {ch.fd};
    }

    method UpdateChannel(ch: Channel)
      requires PollerUpdate(Table(), ch, ch.Value()).Ok?
      modifies this`channels, this`kernel, ch`index
      ensures Ok((Table(), ch.Value())) == PollerUpdate(old(Table()), ch, old(ch.Value()))
    {
      if ch.index == KNew || ch.index == KDeleted {
        assert ch.fd in channels ==> channels[ch.fd] == ch;
        channels := channels[ch.fd := ch];
        ch.index := KAdded;
        Update(Add, ch);
      } else {
        assert ch.fd in channels && channels[ch.fd] == ch && ch.index == KAdded;
        if ch.events == NONE_EVENT {
          Update(Del, ch);
          ch.index := KDeleted;
        } else {
          Update(Mod, ch);
        }
      }
    }

    method RemoveChannel(ch: Channel)
      requires PollerRemove(Table(), ch, ch.Value()).Ok?
      modifies this`channels, this`kernel, ch`index
      ensures Ok((Table(), ch.Value())) == PollerRemove(old(Table()), ch, old(ch.Value()))
    {
      assert ch.fd in channels && channels[ch.fd] == ch && ch.events == NONE_EVENT && ch.index != KNew;
      channels := channels - {ch.fd};
      if ch.index == KAdded {
        Update(Del, ch);
      }
      ch.index := KNew;
    }

    /** `ready[i]` is the event epoll_wait stored at position i.  Every pointer the kernel can
        hand back is a channel of the index, so neither assertion fails. */
    method FillActiveChannels(ready: seq<Interest<Channel>>) returns (active: seq<Channel>)
      requires Valid() && |ready| <= eventListSize
      requires forall i :: 0 <= i < |ready| ==> ready[i].ptr.fd in kernel && kernel[ready[i].ptr.fd].ptr == ready[i].ptr
      requires forall i, j :: 0 <= i < j < |ready| ==> ready[i].ptr != ready[j].ptr
      modifies set i | 0 <= i < |ready| :: ready[i].ptr`revents
      ensures |active| == |ready|
      ensures forall i :: 0 <= i < |ready| ==>
                && active[i] == ready[i].ptr && active[i].revents == ready[i].events
                && active[i] in chans && chans[active[i]].index == KAdded
    {
      active := [];
      for i := 0 to |ready|
        invariant active == seq(i, k requires 0 <= k < i => ready[k].ptr)
        invariant forall k :: 0 <= k < i ==> ready[k].ptr.revents == ready[k].events
      {
        var ch := ready[i].ptr;
        assert ch.fd in channels;
        assert channels[ch.fd] == ch;
        ch.revents := ready[i].events;
        active := active + [ch];
      }
    }

    /** epoll_wait filled the first |ready| entries of events_, which doubles when it was full. */
    method Poll(ready: seq<Interest<Channel>>) returns (active: seq<Channel>)
      requires Valid() && |ready| <= eventListSize
      requires forall i :: 0 <= i < |ready| ==> ready[i].ptr.fd in kernel && kernel[ready[i].ptr.fd].ptr == ready[i].ptr
      requires forall i, j :: 0 <= i < j < |ready| ==> ready[i].ptr != ready[j].ptr
      modifies this`eventListSize, set i | 0 <= i < |ready| :: ready[i].ptr`revents
      ensures |active| == |ready|
      ensures forall i :: 0 <= i < |ready| ==>
                && active[i] == ready[i].ptr && active[i].revents == ready[i].events
                && active[i] in chans && chans[active[i]].index == KAdded
      ensures eventListSize == if 0 < |ready| == old(eventListSize) then 2 * old(eventListSize) else old(eventListSize)
    {
      active := FillActiveChannels(ready);
      if 0 < |ready| == eventListSize {
        eventListSize := eventListSize * 2;
      }
    }
  }
}
