/** The poller and its two books: `channels_`, kept in user space, and the kernel's epoll set.

    The functions over `PollerView` say what updateChannel and removeChannel do to both books and to the
    channel's index, with the kernel's own refusals (EEXIST, ENOENT) written out. They are used by the
    classes below and by the server model. */
module Epoll {

  type Mask = bv32

  const EPOLLIN: Mask := 0x1
  const EPOLLPRI: Mask := 0x2
  const EPOLLOUT: Mask := 0x4
  const EPOLLERR: Mask := 0x8
  const EPOLLHUP: Mask := 0x10

  const NONE_EVENT: Mask := 0
  const READ_EVENT: Mask := 0x3
  const WRITE_EVENT: Mask := 0x4

  const INIT_EVENT_LIST_SIZE: nat := 16

  // kNew, kAdded, kDeleted
  datatype ChannelIndex = New | Added | Deleted

  datatype Ctl = CtlAdd | CtlMod | CtlDel

  datatype Registration<C> = Registration(mask: Mask, channel: C)

  // refused counts the epoll_ctl calls the kernel turned down
  datatype PollerView<C> = PollerView(channels: map<int, C>, kernel: map<int, Registration<C>>, refused: nat)

  // epoll_ctl: ADD wants the fd absent, MOD and DEL want it present
  function EpollCtl<C>(p: PollerView<C>, op: Ctl, fd: int, reg: Registration<C>): PollerView<C> {
    if op == CtlAdd then
      if fd in p.kernel then p.(refused := p.refused + 1) else p.(kernel := p.kernel[fd := reg])
    else if fd !in p.kernel then p.(refused := p.refused + 1)
    else if op == CtlMod then p.(kernel := p.kernel[fd := reg])
    else p.(kernel := p.kernel - {fd})
  }

  // what updateChannel makes of the index
  function UpdatedIndex(index: ChannelIndex, events: Mask): ChannelIndex {
    IndexAfter(index, events == NONE_EVENT)
  }

  function IndexAfter(index: ChannelIndex, isNoneEvent: bool): ChannelIndex {
    if index == Added && isNoneEvent then Deleted else Added
  }

  // what updateChannel makes of the books
  function UpdateChannel<C>(p: PollerView<C>, c: C, fd: int, index: ChannelIndex, events: Mask): PollerView<C> {
    var q := if index == New then p.(channels := p.channels[fd := c]) else p;
    var op := if index != Added then CtlAdd else if events == NONE_EVENT then CtlDel else CtlMod;
    EpollCtl(q, op, fd, Registration(events, c))
  }

  // removeChannel; the index becomes New
  function RemoveChannel<C>(p: PollerView<C>, c: C, fd: int, index: ChannelIndex, events: Mask): PollerView<C> {
    var q := p.(channels := p.channels - {fd});
    if index == Added then EpollCtl(q, CtlDel, fd, Registration(events, c)) else q
  }

  // Poller::hasChannel
  predicate HasChannel<C(==)>(p: PollerView<C>, c: C, fd: int) {
    fd in p.channels && p.channels[fd] == c
  }

  // channel c is where its index says it is, with the mask it asked for
  ghost predicate Mirrors<C>(p: PollerView<C>, c: C, fd: int, index: ChannelIndex, events: Mask) {
    && (index != New <==> HasChannel(p, c, fd))
    && (index == Added <==> fd in p.kernel && p.kernel[fd].channel == c)
    && (index == Added ==> p.kernel[fd].mask == events)
  }

  // no other channel has a claim on fd
  ghost predicate Unclaimed<C>(p: PollerView<C>, c: C, fd: int) {
    && (fd in p.channels ==> p.channels[fd] == c)
    && (fd in p.kernel ==> p.kernel[fd].channel == c)
  }

  /** An update called with the books in step (whatever the new mask) leaves them in step, is never refused,
      and touches no other fd. */
  lemma UpdateKeepsMirror<C>(p: PollerView<C>, c: C, fd: int, index: ChannelIndex, before: Mask, after: Mask)
    requires Mirrors(p, c, fd, index, before) && Unclaimed(p, c, fd)
    ensures var q := UpdateChannel(p, c, fd, index, after);
            && Mirrors(q, c, fd, UpdatedIndex(index, after), after) && Unclaimed(q, c, fd)
            && q.refused == p.refused
            && q.channels - {fd} == p.channels - {fd} && q.kernel - {fd} == p.kernel - {fd}
  {
  }

  /** After an update the channel is known to the poller, and the kernel watches its fd for exactly the mask asked for,
      whether it was new, taken out before or already in; only an empty mask on a channel that is in takes it out. */
  lemma UpdateRegisters<C>(p: PollerView<C>, c: C, fd: int, index: ChannelIndex, before: Mask, after: Mask)
    requires Mirrors(p, c, fd, index, before) && Unclaimed(p, c, fd)
    ensures var q := UpdateChannel(p, c, fd, index, after);
            && fd in q.channels && q.channels[fd] == c
            && (fd in q.kernel <==> index != Added || after != NONE_EVENT)
            && (fd in q.kernel ==> q.kernel[fd] == Registration(after, c))
            && (UpdatedIndex(index, after) == Added <==> fd in q.kernel)
  {
  }

  lemma RemoveKeepsMirror<C>(p: PollerView<C>, c: C, fd: int, index: ChannelIndex, events: Mask)
    requires Mirrors(p, c, fd, index, events) && Unclaimed(p, c, fd)
    ensures var q := RemoveChannel(p, c, fd, index, events);
            && Mirrors(q, c, fd, New, events) && Unclaimed(q, c, fd)
            && fd !in q.channels && fd !in q.kernel
            && q.refused == p.refused
            && q.channels - {fd} == p.channels - {fd} && q.kernel - {fd} == p.kernel - {fd}
  {
  }

  lemma SameBeyond<V>(m: map<int, V>, n: map<int, V>, fd: int)
    requires m - {fd} == n - {fd}
    ensures forall x | x != fd :: (x in m <==> x in n) && (x in m ==> m[x] == n[x])
  {
    forall x | x != fd
      ensures (x in m <==> x in n) && (x in m ==> m[x] == n[x])
    {
      assert x in m <==> x in m - {fd};
      assert x in n <==> x in n - {fd};
      if x in m { assert (m - {fd})[x] == m[x]; }
    }
  }

  // a change at one fd leaves the channel of another where it was
  lemma OtherStaysMirrored<C>(p: PollerView<C>, q: PollerView<C>, changed: int, c: C, fd: int, index: ChannelIndex, events: Mask)
    requires q.channels - {changed} == p.channels - {changed} && q.kernel - {changed} == p.kernel - {changed}
    requires fd != changed && Mirrors(p, c, fd, index, events)
    ensures Mirrors(q, c, fd, index, events)
  {
    SameBeyond(p.channels, q.channels, changed);
    SameBeyond(p.kernel, q.kernel, changed);
  }

  // ---------------------------------------------------------------- any number of channels, any run

  datatype Entry = Entry(fd: int, index: ChannelIndex, events: Mask)

  datatype Call =
    | EnableReading(c: nat)
    | DisableReading(c: nat)
    | EnableWriting(c: nat)
    | DisableWriting(c: nat)
    | DisableAll(c: nat)
    | Remove(c: nat)

  // a poller and the channels of its loop, named by their position
  datatype System = System(entries: seq<Entry>, poller: PollerView<nat>)

  function NewMask(call: Call, events: Mask): Mask {
    match call
    case EnableReading(_) => events | READ_EVENT
    case DisableReading(_) => events & !READ_EVENT
    case EnableWriting(_) => events | WRITE_EVENT
    case DisableWriting(_) => events & !WRITE_EVENT
    case DisableAll(_) => NONE_EVENT
    case Remove(_) => events
  }

  function Perform(s: System, call: Call): System
    requires call.c < |s.entries|
  {
    var e := s.entries[call.c];
    var events := NewMask(call, e.events);
    if call.Remove? then
      System(s.entries[call.c := Entry(e.fd, New, events)], RemoveChannel(s.poller, call.c, e.fd, e.index, events))
    else
      System(s.entries[call.c := Entry(e.fd, UpdatedIndex(e.index, events), events)],
             UpdateChannel(s.poller, call.c, e.fd, e.index, events))
  }

  function PerformAll(s: System, calls: seq<Call>): System
    requires forall k :: 0 <= k < |calls| ==> calls[k].c < |s.entries|
    decreases calls
  {
    if calls == [] then s else PerformAll(Perform(s, calls[0]), calls[1..])
  }

  // the two books against all channels: every channel mirrored, no entry without its channel
  ghost predicate InStep(s: System) {
    && (forall c :: 0 <= c < |s.entries| ==>
          Mirrors(s.poller, c, s.entries[c].fd, s.entries[c].index, s.entries[c].events))
    && (forall fd :: fd in s.poller.channels ==>
          s.poller.channels[fd] < |s.entries| && s.entries[s.poller.channels[fd]].fd == fd)
    && (forall fd :: fd in s.poller.kernel ==>
          s.poller.kernel[fd].channel < |s.entries| && s.entries[s.poller.kernel[fd].channel].fd == fd)
  }

  ghost predicate DistinctFds(s: System) {
    forall a, b :: 0 <= a < b < |s.entries| ==> s.entries[a].fd != s.entries[b].fd
  }

  // no other channel has this one's fd in the books
  lemma OwnFd(s: System, c: nat)
    requires c < |s.entries| && InStep(s) && DistinctFds(s)
    ensures Unclaimed(s.poller, c, s.entries[c].fd)
  {
  }

  lemma PerformKeepsInStep(s: System, call: Call)
    requires call.c < |s.entries| && InStep(s) && DistinctFds(s)
    ensures InStep(Perform(s, call)) && DistinctFds(Perform(s, call))
    ensures Perform(s, call).poller.refused == s.poller.refused
  {
    hide Perform, Mirrors, Unclaimed;
    var fd := s.entries[call.c].fd;
    var t := Perform(s, call);
    OwnFd(s, call.c);
    PerformOnOwn(s, call);
    forall c | 0 <= c < |t.entries|
      ensures Mirrors(t.poller, c, t.entries[c].fd, t.entries[c].index, t.entries[c].events)
    {
      if c != call.c {
        OtherStaysMirrored(s.poller, t.poller, fd, c, s.entries[c].fd, s.entries[c].index, s.entries[c].events);
      }
    }
    BooksStayOwned(s, t, call.c);
  }

  lemma RemoveKeepsMask(call: Call, events: Mask)
    requires call.Remove?
    ensures NewMask(call, events) == events
  {
  }

  // what a call does to its own channel and at its own fd
  lemma PerformOnOwn(s: System, call: Call)
    requires call.c < |s.entries| && Unclaimed(s.poller, call.c, s.entries[call.c].fd)
    requires var e := s.entries[call.c]; Mirrors(s.poller, call.c, e.fd, e.index, e.events)
    ensures var t := Perform(s, call);
            var fd := s.entries[call.c].fd;
            && |t.entries| == |s.entries| && t.entries == s.entries[call.c := t.entries[call.c]] && t.entries[call.c].fd == fd
            && Mirrors(t.poller, call.c, fd, t.entries[call.c].index, t.entries[call.c].events)
            && Unclaimed(t.poller, call.c, fd) && t.poller.refused == s.poller.refused
            && t.poller.channels - {fd} == s.poller.channels - {fd} && t.poller.kernel - {fd} == s.poller.kernel - {fd}
  {
    hide UpdateChannel, RemoveChannel, EpollCtl, Mirrors, NewMask, UpdatedIndex;
    var e := s.entries[call.c];
    if call.Remove? {
      RemoveKeepsMask(call, e.events);
      RemoveKeepsMirror(s.poller, call.c, e.fd, e.index, e.events);
    } else {
      UpdateKeepsMirror(s.poller, call.c, e.fd, e.index, e.events, NewMask(call, e.events));
    }
  }

  // every entry of the two books still belongs to the channel of that fd
  lemma BooksStayOwned(s: System, t: System, c: nat)
    requires c < |s.entries| && InStep(s) && |t.entries| == |s.entries|
    requires forall d :: 0 <= d < |s.entries| ==> t.entries[d].fd == s.entries[d].fd
    requires var fd := s.entries[c].fd;
             && t.poller.channels - {fd} == s.poller.channels - {fd} && t.poller.kernel - {fd} == s.poller.kernel - {fd}
             && Unclaimed(t.poller, c, fd)
    ensures forall fd :: fd in t.poller.channels ==>
              t.poller.channels[fd] < |t.entries| && t.entries[t.poller.channels[fd]].fd == fd
    ensures forall fd :: fd in t.poller.kernel ==>
              t.poller.kernel[fd].channel < |t.entries| && t.entries[t.poller.kernel[fd].channel].fd == fd
  {
    SameBeyond(s.poller.channels, t.poller.channels, s.entries[c].fd);
    SameBeyond(s.poller.kernel, t.poller.kernel, s.entries[c].fd);
  }

  // exactly these bits are set, or cleared, and the others are as before
  predicate Sets(before: Mask, after: Mask, bits: Mask) {
    after & bits == bits && after & !bits == before & !bits
  }

  predicate Clears(before: Mask, after: Mask, bits: Mask) {
    after & bits == 0 && after & !bits == before & !bits
  }

  // what each call makes of the mask
  lemma EnableReadingSets(c: nat, events: Mask)
    ensures Sets(events, NewMask(EnableReading(c), events), READ_EVENT)
  {
  }

  lemma DisableReadingClears(c: nat, events: Mask)
    ensures Clears(events, NewMask(DisableReading(c), events), READ_EVENT)
  {
  }

  lemma EnableWritingSets(c: nat, events: Mask)
    ensures Sets(events, NewMask(EnableWriting(c), events), WRITE_EVENT)
  {
  }

  lemma DisableWritingClears(c: nat, events: Mask)
    ensures Clears(events, NewMask(DisableWriting(c), events), WRITE_EVENT)
  {
  }

  lemma DisableAllClears(c: nat, events: Mask)
    ensures NewMask(DisableAll(c), events) == NONE_EVENT
  {
  }

  /** Asking for events registers the channel, whatever became of it before: after a call that leaves its mask non-empty the
      kernel watches its fd for exactly that mask, and after a removal for nothing. */
  lemma AskingRegisters(s: System, call: Call)
    requires call.c < |s.entries| && InStep(s) && DistinctFds(s)
    ensures var e := s.entries[call.c];
            var mask := NewMask(call, e.events);
            var t := Perform(s, call);
            && (!call.Remove? && mask != NONE_EVENT ==> e.fd in t.poller.kernel && t.poller.kernel[e.fd] == Registration(mask, call.c))
            && (call.Remove? ==> e.fd !in t.poller.kernel && e.fd !in t.poller.channels)
  {
    hide UpdateChannel, RemoveChannel, EpollCtl, Mirrors, NewMask, UpdatedIndex;
    var e := s.entries[call.c];
    OwnFd(s, call.c);
    if call.Remove? {
      RemoveKeepsMask(call, e.events);
      RemoveKeepsMirror(s.poller, call.c, e.fd, e.index, e.events);
    } else {
      UpdateRegisters(s.poller, call.c, e.fd, e.index, e.events, NewMask(call, e.events));
    }
  }

  /** Over any run of enable, disable and remove calls on channels with distinct fds, the two books and the
      indices stay in step and the kernel refuses nothing: every ADD names an absent fd, every MOD and DEL
      a present one. */
  lemma {:induction false} PollerMirror(s: System, calls: seq<Call>)
    requires InStep(s) && DistinctFds(s)
    requires forall k :: 0 <= k < |calls| ==> calls[k].c < |s.entries|
    ensures InStep(PerformAll(s, calls)) && PerformAll(s, calls).poller.refused == s.poller.refused
    decreases calls
  {
    if calls == [] {
    } else {
      PerformKeepsInStep(s, calls[0]);
      PollerMirror(Perform(s, calls[0]), calls[1..]);
    }
  }

  /** disableAll does not always take the channel out of the kernel: it does exactly when the channel was
      in. Called on a channel that is out, it puts the fd back with an empty mask. */
  lemma DisableAllUnregistersIff(s: System, c: nat)
    requires c < |s.entries| && InStep(s) && DistinctFds(s)
    ensures s.entries[c].fd !in Perform(s, DisableAll(c)).poller.kernel <==> s.entries[c].index == Added
  {
    PerformKeepsInStep(s, DisableAll(c));
    var e := s.entries[c];
    UpdateKeepsMirror(s.poller, c, e.fd, e.index, e.events, NONE_EVENT);
  }

  /** The witness is a server that is destroyed without having been started: its accept channel was never registered,
      and the destructor's disableAll puts the listening fd into the kernel set. */
  lemma DisableAllRegistersNew()
    ensures var s := System([Entry(3, New, NONE_EVENT)], PollerView(map[], map[], 0));
            && InStep(s) && DistinctFds(s)
            && Perform(s, DisableAll(0)).poller.kernel == map[3 := Registration(NONE_EVENT, 0)]
  {
  }

  /** It does no harm there, because remove follows: after the two the fd is in neither book, whatever the channel was,
      and the kernel has refused nothing. */
  lemma DisableAllThenRemove(s: System, c: nat)
    requires c < |s.entries| && InStep(s) && DistinctFds(s)
    ensures var t := PerformAll(s, [DisableAll(c), Remove(c)]);
            && InStep(t) && |t.entries| == |s.entries| && t.entries[c].index == New
            && s.entries[c].fd !in t.poller.kernel && s.entries[c].fd !in t.poller.channels
            && t.poller.refused == s.poller.refused
  {
    hide RemoveChannel, UpdateChannel, EpollCtl, Mirrors, NewMask, UpdatedIndex;
    PerformKeepsInStep(s, DisableAll(c));
    var u := Perform(s, DisableAll(c));
    assert u.entries[c].fd == s.entries[c].fd;
    PerformKeepsInStep(u, Remove(c));
    OwnFd(u, c);
    RemoveKeepsMirror(u.poller, c, u.entries[c].fd, u.entries[c].index, u.entries[c].events);
    RemoveKeepsMask(Remove(c), u.entries[c].events);
    assert [DisableAll(c), Remove(c)][1..] == [Remove(c)];
    assert PerformAll(u, [Remove(c)]) == Perform(u, Remove(c));
  }
}
