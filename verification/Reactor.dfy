/** Channel and EpollPoller as the objects they are: a channel changes its own mask and index, the poller its
    map, and every call ends in an epoll_ctl on the kernel set, which is a ghost field here. */
module Reactor {
  import opened Epoll

  // what epoll_wait came back with
  datatype WaitResult = Ready(events: seq<(Channel, Mask)>) | TimedOut | WaitError(errno: int)

  class Channel {
    const poller: EpollPoller
    const fd: int
    var events: Mask
    var revents: Mask
    var index: ChannelIndex

    constructor (poller: EpollPoller, fd: int)
      requires poller.Valid()
      // the fd was handed out by the kernel, so no other channel of this loop still stands for it
      requires forall ch :: ch in poller.live ==> ch.fd != fd
      modifies poller`live
      ensures poller.Valid() && poller.live == old(poller.live) + {this} && poller.View() == old(poller.View())
      ensures this.poller == poller && this.fd == fd && index == New && events == NONE_EVENT
    {
      this.poller, this.fd := poller, fd;
      events, revents, index := NONE_EVENT, NONE_EVENT, New;
      new;
      poller.live := poller.live + {this};
    }

    predicate IsWriting()
      reads this
    {
      events & WRITE_EVENT != 0
    }

    // set the mask, then tell the poller
    method SetEvents(mask: Mask)
      requires poller.Valid() && this in poller.live
      modifies this`events, this`index, poller`channels, poller`kernel, poller`refused
      ensures poller.Valid() && events == mask && index == UpdatedIndex(old(index), mask)
      ensures poller.View() == UpdateChannel(old(poller.View()), this, fd, old(index), mask)
      ensures poller.refused == old(poller.refused)
    {
      ghost var before := events;
      events := mask;
      poller.UpdateChannel(this, before);
    }

    method EnableReading()
      requires poller.Valid() && this in poller.live
      modifies this`events, this`index, poller`channels, poller`kernel, poller`refused
      ensures poller.Valid() && events == old(events) | READ_EVENT && index == UpdatedIndex(old(index), events)
      ensures poller.View() == UpdateChannel(old(poller.View()), this, fd, old(index), events)
      ensures poller.refused == old(poller.refused)
    {
      SetEvents(events | READ_EVENT);
    }

    method EnableWriting()
      requires poller.Valid() && this in poller.live
      modifies this`events, this`index, poller`channels, poller`kernel, poller`refused
      ensures poller.Valid() && events == old(events) | WRITE_EVENT && index == UpdatedIndex(old(index), events)
      ensures poller.View() == UpdateChannel(old(poller.View()), this, fd, old(index), events)
      ensures poller.refused == old(poller.refused)
    {
      SetEvents(events | WRITE_EVENT);
    }

    method DisableWriting()
      requires poller.Valid() && this in poller.live
      modifies this`events, this`index, poller`channels, poller`kernel, poller`refused
      ensures poller.Valid() && events == old(events) & !WRITE_EVENT && index == UpdatedIndex(old(index), events)
      ensures poller.View() == UpdateChannel(old(poller.View()), this, fd, old(index), events)
      ensures poller.refused == old(poller.refused)
    {
      SetEvents(events & !WRITE_EVENT);
    }

    method DisableAll()
      requires poller.Valid() && this in poller.live
      modifies this`events, this`index, poller`channels, poller`kernel, poller`refused
      ensures poller.Valid() && events == NONE_EVENT && index == UpdatedIndex(old(index), NONE_EVENT)
      ensures poller.View() == UpdateChannel(old(poller.View()), this, fd, old(index), events)
      ensures poller.refused == old(poller.refused)
    {
      SetEvents(NONE_EVENT);
    }

    method Remove()
      requires poller.Valid() && this in poller.live
      modifies this`index, poller`channels, poller`kernel, poller`refused
      ensures poller.Valid() && index == New
      ensures poller.View() == RemoveChannel(old(poller.View()), this, fd, old(index), events)
      ensures fd !in poller.kernel && fd !in poller.channels && poller.refused == old(poller.refused)
    {
      poller.RemoveChannel(this);
    }

    // the destructor: from here on the fd may be closed, handed out again and given to another channel
    method Destroy()
      requires poller.Valid() && this in poller.live && index == New
      modifies poller`live
      ensures poller.Valid() && poller.live == old(poller.live) - {this} && poller.View() == old(poller.View())
      ensures forall ch :: ch in poller.live ==> ch.fd != fd
    {
      poller.live := poller.live - {this};
    }
  }

  class EpollPoller {
    var channels: map<int, Channel>
    var eventListSize: nat
    ghost var kernel: map<int, Registration<Channel>>
    ghost var refused: nat
    // the channels of this loop that exist
    ghost var live: set<Channel>

    ghost function View(): PollerView<Channel>
      reads this
    {
      PollerView(channels, kernel, refused)
    }

    // the two books and every channel's index are in step, once c's mask is read as the given one
    ghost predicate ValidWith(c: Channel?, mask: Mask)
      reads this, live
    {
      && 0 < eventListSize
      && (forall ch :: ch in live ==> ch.poller == this
                                      && Mirrors(View(), ch, ch.fd, ch.index, if ch == c then mask else ch.events))
      && (forall a, b :: a in live && b in live && a != b ==> a.fd != b.fd)
      && (forall fd :: fd in channels ==> channels[fd] in live && channels[fd].fd == fd)
      && (forall fd :: fd in kernel ==> kernel[fd].channel in live && kernel[fd].channel.fd == fd)
    }

    ghost predicate Valid()
      reads this, live
    {
      ValidWith(null, NONE_EVENT)
    }

    constructor ()
      ensures Valid() && View() == PollerView(map[], map[], 0) && live == {}
      ensures eventListSize == INIT_EVENT_LIST_SIZE
    {
      channels, eventListSize, kernel, refused, live := map[], INIT_EVENT_LIST_SIZE, map[], 0, {};
    }

    predicate HasChannel(ch: Channel)
      reads this, ch
    {
      ch.fd in channels && channels[ch.fd] == ch
    }

    method UpdateChannel(ch: Channel, ghost before: Mask)
      requires ch in live && ValidWith(ch, before)
      modifies this`channels, this`kernel, this`refused, ch`index
      ensures Valid() && ch.index == UpdatedIndex(old(ch.index), ch.events)
      ensures View() == Epoll.UpdateChannel(old(View()), ch, ch.fd, old(ch.index), ch.events)
      ensures refused == old(refused)
    {
      hide Mirrors, EpollCtl;
      var index := ch.index;
      ghost var was := View();
      UpdateKeepsMirror(was, ch, ch.fd, index, before, ch.events);
      if index == New || index == Deleted {
        if index == New {
          channels := channels[ch.fd := ch];
        }
        ch.index := Added;
        Update(CtlAdd, ch);
      } else if ch.events == NONE_EVENT {
        Update(CtlDel, ch);
        ch.index := Deleted;
      } else {
        Update(CtlMod, ch);
      }
      forall other | other in live && other != ch
        ensures Mirrors(View(), other, other.fd, other.index, other.events)
      {
        OtherStaysMirrored(was, View(), ch.fd, other, other.fd, other.index, other.events);
      }
      Unaffected(was, View(), ch.fd);
    }

    method RemoveChannel(ch: Channel)
      requires ch in live && Valid()
      modifies this`channels, this`kernel, this`refused, ch`index
      ensures Valid() && ch.index == New && !HasChannel(ch)
      ensures View() == Epoll.RemoveChannel(old(View()), ch, ch.fd, old(ch.index), ch.events)
      ensures ch.fd !in kernel && ch.fd !in channels && refused == old(refused)
    {
      var index := ch.index;
      ghost var was := View();
      RemoveKeepsMirror(was, ch, ch.fd, index, ch.events);
      channels := channels - {ch.fd};
      if index == Added {
        Update(CtlDel, ch);
      }
      ch.index := New;
      Unaffected(was, View(), ch.fd);
    }

    method Update(operation: Ctl, ch: Channel)
      modifies this`kernel, this`refused
      ensures View() == EpollCtl(old(View()), operation, ch.fd, Registration(ch.events, ch))
      // done when an ADD meets an absent fd, or a MOD or DEL a present one; otherwise refused, with nothing changed
      ensures var done := operation == CtlAdd <==> ch.fd !in old(kernel);
              && (!done ==> kernel == old(kernel) && refused == old(refused) + 1)
              && (done ==> refused == old(refused) && kernel - {ch.fd} == old(kernel) - {ch.fd}
                           && (ch.fd in kernel <==> operation != CtlDel)
                           && (ch.fd in kernel ==> kernel[ch.fd] == Registration(ch.events, ch)))
    {
      ghost var p := EpollCtl(View(), operation, ch.fd, Registration(ch.events, ch));
      kernel, refused := p.kernel, p.refused;
    }

    lemma Unaffected(p: PollerView<Channel>, q: PollerView<Channel>, fd: int)
      requires q.channels - {fd} == p.channels - {fd} && q.kernel - {fd} == p.kernel - {fd}
      ensures forall x | x != fd :: (x in p.channels <==> x in q.channels) && (x in p.channels ==> p.channels[x] == q.channels[x])
      ensures forall x | x != fd :: (x in p.kernel <==> x in q.kernel) && (x in p.kernel ==> p.kernel[x] == q.kernel[x])
    {
      SameBeyond(p.channels, q.channels, fd);
      SameBeyond(p.kernel, q.kernel, fd);
    }

    /** Hand every reported channel its events and list it, in the kernel's order; a full list doubles. */
    method Poll(kernelResult: WaitResult, activeChannels: seq<Channel>) returns (active: seq<Channel>)
      requires Valid()
      // epoll_wait reports registered channels, each at most once, no more than the list holds
      requires kernelResult.Ready? ==>
                 && 0 < |kernelResult.events| <= eventListSize
                 && (forall i :: 0 <= i < |kernelResult.events| ==>
                       kernelResult.events[i].0 in live && kernelResult.events[i].0.index == Added)
                 && (forall i, j :: 0 <= i < j < |kernelResult.events| ==> kernelResult.events[i].0 != kernelResult.events[j].0)
      modifies this`eventListSize, live`revents
      ensures Valid() && View() == old(View())
      ensures !kernelResult.Ready? ==> active == activeChannels && eventListSize == old(eventListSize)
      ensures kernelResult.Ready? ==>
                && |active| == |activeChannels| + |kernelResult.events| && active[..|activeChannels|] == activeChannels
                && (forall i :: 0 <= i < |kernelResult.events| ==>
                      active[|activeChannels| + i] == kernelResult.events[i].0
                      && kernelResult.events[i].0.revents == kernelResult.events[i].1)
                && eventListSize == if |kernelResult.events| == old(eventListSize) then old(eventListSize) * 2 else old(eventListSize)
      ensures forall ch :: ch in live
                           && !(kernelResult.Ready?
                                && exists i :: 0 <= i < |kernelResult.events| && kernelResult.events[i].0 == ch)
                           ==> ch.revents == old(ch.revents)
    {
      active := activeChannels;
      if kernelResult.Ready? {
        active := FillActiveChannels(kernelResult.events, active);
        if |kernelResult.events| == eventListSize {
          eventListSize := eventListSize * 2;
        }
      }
    }

    method FillActiveChannels(events: seq<(Channel, Mask)>, activeChannels: seq<Channel>) returns (active: seq<Channel>)
      requires forall i :: 0 <= i < |events| ==> events[i].0 in live
      requires forall i, j :: 0 <= i < j < |events| ==> events[i].0 != events[j].0
      modifies live`revents
      ensures |active| == |activeChannels| + |events| && active[..|activeChannels|] == activeChannels
      ensures forall i :: 0 <= i < |events| ==> active[|activeChannels| + i] == events[i].0 && events[i].0.revents == events[i].1
      ensures forall ch :: ch in live && !(exists i :: 0 <= i < |events| && events[i].0 == ch) ==> ch.revents == old(ch.revents)
    {
      active := activeChannels;
      for i := 0 to |events|
        invariant |active| == |activeChannels| + i && active[..|activeChannels|] == activeChannels
        invariant forall j :: 0 <= j < i ==> active[|activeChannels| + j] == events[j].0 && events[j].0.revents == events[j].1
        invariant forall ch :: ch in live && !(exists j :: 0 <= j < |events| && events[j].0 == ch) ==> ch.revents == old(ch.revents)
      {
        events[i].0.revents := events[i].1;
        active := active + [events[i].0];
      }
    }
  }
}
