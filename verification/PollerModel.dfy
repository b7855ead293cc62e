/**
 Channels, the poller's fd table and the kernel's epoll interest list, as values.
 */
module PollerModel {

  /** `Channel::events_`: kReadEvent and kWriteEvent are only ever set and cleared whole. */
  datatype Mask = Mask(read: bool, write: bool)

  const NONE := Mask(false, false)
  const READ := Mask(true, false)

  /** `Poller::ChannelIndex`: cNew, cAdded, cDeleted. */
  datatype Index = New | Added | Deleted

  /** Which channel object: this stands for the `Channel*` stored in the table and in epoll. */
  datatype ChanKey = WakeupChan | AcceptChan | ConnChan(conn: nat)

  datatype Chan = Chan(key: ChanKey, fd: int, events: Mask, index: Index, tied: bool)

  /** One entry of the kernel's interest list: `data.ptr` and the event mask. */
  datatype Reg = Reg(key: ChanKey, mask: Mask)

  datatype Ctl = Add | Mod | Del

  /** `failed` counts the epoll_ctl calls the kernel refused. */
  datatype Poller = Poller(channels: map<int, ChanKey>, epoll: map<int, Reg>, failed: nat)

  /** epoll_ctl: EEXIST for a second ADD, ENOENT for MOD or DEL of an absent fd. */
  function EpollCtl(p: Poller, op: Ctl, ch: Chan): Poller {
    match op
    case Add =>
      if ch.fd in p.epoll then p.(failed := p.failed + 1)
      else p.(epoll := p.epoll[ch.fd := Reg(ch.key, ch.events)])
    case Mod =>
      if ch.fd !in p.epoll then p.(failed := p.failed + 1)
      else p.(epoll := p.epoll[ch.fd := Reg(ch.key, ch.events)])
    case Del =>
      if ch.fd !in p.epoll then p.(failed := p.failed + 1)
      else p.(epoll := p.epoll - {ch.fd})
  }

  predicate Maps(p: Poller, ch: Chan) {
    ch.fd in p.channels && p.channels[ch.fd] == ch.key
  }

  function UpdateChannel(p: Poller, ch: Chan): (Poller, Chan) {
    match ch.index
    case New =>
      var q := if ch.fd !in p.channels then p.(channels := p.channels[ch.fd := ch.key]) else p;
      (EpollCtl(q, Add, ch), ch.(index := Added))
    case Deleted =>
      if Maps(p, ch) then (p, ch)
      else (EpollCtl(p, Add, ch), ch.(index := Added))
    case Added =>
      if !Maps(p, ch) then (p, ch)
      else if ch.events == NONE then (EpollCtl(p, Del, ch), ch.(index := Deleted))
      else (EpollCtl(p, Mod, ch), ch)
  }

  function RemoveChannel(p: Poller, ch: Chan): (Poller, Chan) {
    if Maps(p, ch) && ch.events == NONE && ch.index != New then
      var q := p.(channels := p.channels - {ch.fd});
      (if ch.index == Added then EpollCtl(q, Del, ch) else q, ch.(index := New))
    else
      (p, ch)
  }

  /** `Channel::remove`. */
  function Remove(p: Poller, ch: Chan): (Poller, Chan) {
    if ch.events == NONE then RemoveChannel(p, ch) else (p, ch)
  }

  /** The body shared by enableReading, enableWriting, disableWriting and disableAll. */
  function SetEvents(p: Poller, ch: Chan, m: Mask): (Poller, Chan) {
    UpdateChannel(p, ch.(events := m))
  }

  /** What the kernel has registered for this channel, if anything. */
  datatype Interest = Unwatched | Watched(mask: Mask)

  function InterestOf(p: Poller, ch: Chan): Interest {
    if ch.fd in p.epoll && p.epoll[ch.fd].key == ch.key then Watched(p.epoll[ch.fd].mask) else Unwatched
  }

  /** The channel, the fd table and the kernel tell the same story about this channel. */
  predicate Agrees(p: Poller, ch: Chan) {
    match ch.index
    case New => !Maps(p, ch) && InterestOf(p, ch) == Unwatched
    case Added => Maps(p, ch) && InterestOf(p, ch) == Watched(ch.events) && ch.events != NONE
    case Deleted => Maps(p, ch) && InterestOf(p, ch) == Unwatched && ch.events == NONE
  }

  /** No other channel occupies this channel's fd, in the table or in the kernel. */
  predicate OwnsFd(p: Poller, ch: Chan) {
    && (ch.fd in p.channels ==> p.channels[ch.fd] == ch.key)
    && (ch.fd in p.epoll ==> p.epoll[ch.fd].key == ch.key)
  }

  /** Nothing but this channel's own fd changed, and the kernel refused nothing. */
  ghost predicate OnlyFd(p: Poller, q: Poller, ch: Chan) {
    && q.failed == p.failed
    && OwnsFd(q, ch)
    && (forall fd :: fd != ch.fd ==>
      && (fd in q.channels <==> fd in p.channels)
      && (fd in p.channels ==> q.channels[fd] == p.channels[fd])
      && (fd in q.epoll <==> fd in p.epoll)
      && (fd in p.epoll ==> q.epoll[fd] == p.epoll[fd]))
  }

  /**
   When `update` leaves the kernel agreeing with a channel: exactly when the channel is not one
   that was deleted and is now asked to watch something again (the early return of updateChannel).
   A fresh channel that asks for nothing is also mis-registered.
   */
  lemma UpdateKeepsAgreementIff(p: Poller, ch: Chan, m: Mask)
    requires Agrees(p, ch) && OwnsFd(p, ch)
    ensures var (q, c) := SetEvents(p, ch, m);
            && c == ch.(events := m,
                        index := if ch.index == Deleted || (ch.index == Added && m == NONE) then Deleted else Added)
            && (Agrees(q, c) <==> (ch.index == Added || (ch.index == New <==> m != NONE)))
            && OnlyFd(p, q, ch)
  {
  }

  /** `remove` takes a channel out of the table exactly when it watches nothing. */
  lemma RemoveUnregistersIff(p: Poller, ch: Chan)
    requires Agrees(p, ch) && OwnsFd(p, ch)
    ensures var (q, c) := Remove(p, ch);
            && c == ch.(index := if ch.index == Added then Added else New)
            && Agrees(q, c) && OnlyFd(p, q, ch)
            && (c.index == New ==> ch.fd !in q.channels && ch.fd !in q.epoll)
  {
  }

  /**
   updateChannel in all cases: a fresh channel takes a free table entry; the kernel is asked only for a
   channel that is not in the table by mistake of its index; it refuses to add a watched descriptor and
   to change or drop an unwatched one; otherwise the channel is watched with its mask, or no longer.
   */
  lemma UpdateInAllCases(p: Poller, ch: Chan)
    ensures var (q, c) := UpdateChannel(p, ch);
            var mapped := ch.fd in p.channels && p.channels[ch.fd] == ch.key;
            var asks := ch.index == New || (ch.index == Deleted <==> !mapped);
            var refused := asks && (ch.index == Added <==> ch.fd !in p.epoll);
            var drops := ch.index == Added && ch.events == NONE;
            && q.channels == (if ch.index == New && ch.fd !in p.channels then p.channels[ch.fd := ch.key] else p.channels)
            && q.failed == p.failed + (if refused then 1 else 0)
            && q.epoll == (if !asks || refused then p.epoll
                           else if drops then p.epoll - {ch.fd} else p.epoll[ch.fd := Reg(ch.key, ch.events)])
            && c == ch.(index := if asks then (if drops then Deleted else Added) else ch.index)
  {
  }

  /** removeChannel in all cases: only a mapped channel that watches nothing leaves the table, and the kernel's list. */
  lemma RemoveInAllCases(p: Poller, ch: Chan)
    ensures var (q, c) := RemoveChannel(p, ch);
            var goes := ch.fd in p.channels && p.channels[ch.fd] == ch.key && ch.events == NONE && ch.index != New;
            && q.channels == (if goes then p.channels - {ch.fd} else p.channels)
            && q.epoll == (if goes && ch.index == Added then p.epoll - {ch.fd} else p.epoll)
            && q.failed == p.failed + (if goes && ch.index == Added && ch.fd !in p.epoll then 1 else 0)
            && c == ch.(index := if goes then New else ch.index)
  {
  }

  // ---- a generic client of the poller -------------------------------------

  /** What code that owns a channel can ask for: a new event mask, or removal. */
  datatype ClientOp = Watch(mask: Mask) | Detach

  function ApplyOp(p: Poller, ch: Chan, op: ClientOp): (Poller, Chan) {
    match op
    case Watch(m) => SetEvents(p, ch, m)
    case Detach => Remove(p, ch)
  }

  /** Channel, table and kernel agree now and after every one of these operations. */
  predicate AgreesThroughout(p: Poller, ch: Chan, ops: seq<ClientOp>)
    decreases |ops|
  {
    Agrees(p, ch) && (ops == [] || AgreesThroughout(ApplyOp(p, ch, ops[0]).0, ApplyOp(p, ch, ops[0]).1, ops[1..]))
  }

  /**
   The usage rule, on the operations alone: a channel that has stopped watching must be removed
   before it watches again, and a fresh channel must not start by watching nothing.
   */
  predicate Disciplined(index: Index, ops: seq<ClientOp>)
    decreases |ops|
  {
    ops == [] ||
    match (index, ops[0])
    case (New, Watch(m)) => m != NONE && Disciplined(Added, ops[1..])
    case (New, Detach) => Disciplined(New, ops[1..])
    case (Added, Watch(m)) => Disciplined(if m == NONE then Deleted else Added, ops[1..])
    case (Added, Detach) => Disciplined(Added, ops[1..])
    case (Deleted, Watch(m)) => m == NONE && Disciplined(Deleted, ops[1..])
    case (Deleted, Detach) => Disciplined(New, ops[1..])
  }

  /**
   Over every sequence of operations, the kernel's interest stays equal to the channel's exactly
   when the sequence follows the usage rule: the early return of updateChannel is the only loss.
   */
  lemma {:induction false} ClientAgreesIff(p: Poller, ch: Chan, ops: seq<ClientOp>)
    requires Agrees(p, ch) && OwnsFd(p, ch)
    ensures AgreesThroughout(p, ch, ops) <==> Disciplined(ch.index, ops)
    decreases |ops|
  {
    hide SetEvents, Remove, Agrees;
    if ops != [] {
      var (q, c) := ApplyOp(p, ch, ops[0]);
      match ops[0] {
        case Watch(m) => UpdateKeepsAgreementIff(p, ch, m);
        case Detach => RemoveUnregistersIff(p, ch);
      }
      if Agrees(q, c) {
        ClientAgreesIff(q, c, ops[1..]);
      }
    }
  }
}
