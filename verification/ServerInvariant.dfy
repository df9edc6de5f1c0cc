/** What every step of every loop keeps. The heart is a count: the functors that move a connection on
    (established, remove, destroyed) are tickets, and for each connection exactly the one its state calls
    for is waiting, exactly once, on the right loop. */
module ServerInvariant {
  import opened Epoll
  import opened LoopPool
  import opened ServerLifetime
  import C = Connection

  // functors of a loop that have not run yet
  function Pending(lp: Loop): seq<Functor> {
    (if lp.phase.Running? && lp.phase.next <= |lp.phase.batch| then lp.phase.batch[lp.phase.next..] else []) + lp.queue
  }

  ghost predicate InRegistry(s: Server, c: Id) {
    c in s.conns && s.conns[c].name in s.registry && s.registry[s.conns[c].name] == c
  }

  predicate Open(state: C.State) {
    state == C.Connected || state == C.Disconnecting
  }

  // connection f.c is at the point where functor f has to be waiting on loop l
  ghost predicate Expected(s: Server, l: nat, f: Functor) {
    f.c in s.conns &&
    var k := s.conns[f.c];
    match f
    case Established(c) => k.state == C.Connecting && l == k.loop
    case RemoveInLoop(c) => k.state == C.Disconnected && InRegistry(s, c) && l == 0
    case Destroyed(c) => k.state == C.Disconnected && !InRegistry(s, c) && k.index == Deleted && l == k.loop
    case Callback(_) => false
  }

  // a functor taken off its queue and about to run, or about to be queued
  datatype Hand = Empty | InHand(l: nat, f: Functor)

  ghost predicate TicketOk(s: Server, hand: Hand, l: nat, f: Functor)
    requires l < |s.loops|
  {
    multiset(Pending(s.loops[l]))[f] + (if hand == InHand(l, f) then 1 else 0) == (if Expected(s, l, f) then 1 else 0)
  }

  ghost predicate TicketsOk(s: Server, hand: Hand) {
    forall l: nat, f: Functor :: l < |s.loops| && !f.Callback? ==> TicketOk(s, hand, l, f)
  }

  // numbers, loops and names are handed out in order
  ghost predicate Numbered(s: Server) {
    && |s.ipPort| <= 21 && 1 <= s.nextConnId <= MAX_INT
    && (s.subLoops > 0 ==> s.nextLoop == Assigned(s.subLoops, s.nextConnId - 1))
    && (forall c :: c in s.conns <==> 1 <= c < s.nextConnId)
    && (forall c :: c in s.conns ==>
          && s.conns[c].name == ConnName(s.name, s.ipPort, c)
          && s.conns[c].loop == if s.subLoops == 0 then 0 else 1 + Assigned(s.subLoops, c - 1))
  }

  ghost predicate RegistryOk(s: Server) {
    forall n :: n in s.registry ==> s.registry[n] in s.conns && s.conns[s.registry[n]].name == n
  }

  // state, registry entry, interest and callbacks made go together
  ghost predicate StateOk(k: Connection, registered: bool) {
    match k.state
    case Connecting => registered && k.index == New && k.events == NONE_EVENT && k.log == []
    case Disconnected => k.index != Added && k.events == NONE_EVENT && (registered ==> k.index == Deleted)
                         && k.log == [C.Up, C.Down]
    case _ => registered && k.index == Added && k.events in {READ_EVENT, READ_WRITE} && k.log == [C.Up]
  }

  ghost predicate ConnOk(s: Server, c: Id)
    requires c in s.conns && s.conns[c].loop < |s.loops|
  {
    var k := s.conns[c];
    StateOk(k, InRegistry(s, c)) && Mirrors(s.loops[k.loop].poller, c, k.fd, k.index, k.events)
  }

  ghost predicate ConnsOk(s: Server)
    requires Typed(s)
  {
    forall c :: c in s.conns ==> ConnOk(s, c)
  }

  ghost predicate PollerOk(conns: map<Id, Connection>, l: nat, p: PollerView<Id>) {
    && p.refused == 0
    && (forall fd :: fd in p.channels ==>
          p.channels[fd] in conns && conns[p.channels[fd]].loop == l && conns[p.channels[fd]].fd == fd)
    && (forall fd :: fd in p.kernel ==>
          p.kernel[fd].channel in conns && conns[p.kernel[fd].channel].loop == l && conns[p.kernel[fd].channel].fd == fd)
  }

  ghost predicate PollersOk(s: Server) {
    forall l :: 0 <= l < |s.loops| ==> PollerOk(s.conns, l, s.loops[l].poller)
  }

  // channels still to be handled are open connections of this loop, each waiting once; a handler closes at most once
  ghost predicate PhaseOk(conns: map<Id, Connection>, l: nat, phase: Phase) {
    match phase
    case Polling => true
    case Running(_, _) => true
    case Dispatching(todo, guard) =>
      && (forall i, j :: 0 <= i < j < |todo| ==> todo[i] != todo[j])
      && (forall i :: 0 <= i < |todo| ==>
            if todo[i].Acceptor? then l == 0
            else todo[i].c in conns && conns[todo[i].c].loop == l && Open(conns[todo[i].c].state)
                 && (guard.Guard? ==> todo[i].c != guard.c))
      && (guard.Guard? ==> guard.c in conns && conns[guard.c].loop == l
                           && C.Closers(guard.todo) <= if Open(conns[guard.c].state) then 1 else 0)
  }

  ghost predicate PhasesOk(s: Server) {
    forall l :: 0 <= l < |s.loops| ==> PhaseOk(s.conns, l, s.loops[l].phase)
  }

  // two connections that exist have two fds
  ghost predicate FdsOk(s: Server) {
    forall a, b :: a in s.conns && b in s.conns && a != b && Held(s, a) && Held(s, b) ==> s.conns[a].fd != s.conns[b].fd
  }

  ghost predicate Inv(s: Server, hand: Hand) {
    && Typed(s) && Numbered(s) && RegistryOk(s) && ConnsOk(s) && PollersOk(s) && PhasesOk(s) && FdsOk(s)
    && TicketsOk(s, hand)
    && HandOk(s, hand)
  }

  // the caller of the functor in hand keeps its connection: the batch it comes from or the handler that makes it
  ghost predicate HandOk(s: Server, hand: Hand) {
    hand.InHand? ==>
      && hand.l < |s.loops| && !hand.f.Callback? && hand.f.c in s.conns && Held(s, hand.f.c)
      && (!hand.f.Established? ==> HeldByLoop(s, hand.f.c))
  }

  ghost predicate HeldByLoop(s: Server, c: Id) {
    exists l :: 0 <= l < |s.loops| && LoopHolds(s.loops[l], c)
  }

  // ---------------------------------------------------------------- who is held

  lemma PendingHolds(s: Server, l: nat, f: Functor)
    requires Typed(s) && l < |s.loops| && multiset(Pending(s.loops[l]))[f] > 0
    ensures Held(s, f.c)
  {
    var lp := s.loops[l];
    assert f in Pending(lp);
    if f in lp.queue {
      var i :| 0 <= i < |lp.queue| && lp.queue[i] == f;
      assert LoopHolds(lp, f.c);
    } else {
      var i :| 0 <= i < |lp.phase.batch[lp.phase.next..]| && lp.phase.batch[lp.phase.next..][i] == f;
      assert lp.phase.batch[lp.phase.next + i] == f;
      assert LoopHolds(lp, f.c);
    }
  }

  // the server's own hold on a connection: the registry, a functor that is queued, or one of a running batch
  ghost predicate HeldByServer(s: Server, c: Id) {
    || Registered(s, c)
    || exists l, f :: 0 <= l < |s.loops| && f in Pending(s.loops[l]) && f.c == c
  }

  /** A connection that is not over (not yet removed from its poller for good) is held by the registry, a queued
      functor, a running batch, or the functor in hand, whatever pointers users keep. */
  lemma UnfinishedIsHeld(s: Server, hand: Hand, c: Id)
    requires Inv(s, hand) && c in s.conns
    requires s.conns[c].index != New || s.conns[c].state != C.Disconnected
    ensures HeldByServer(s, c) || (hand.InHand? && hand.f.c == c)
    ensures Held(s, c)
  {
    var k := s.conns[c];
    assert ConnOk(s, c);
    if InRegistry(s, c) {
      assert Registered(s, c);
    } else {
      var f := Destroyed(c);
      assert Expected(s, k.loop, f);
      assert TicketOk(s, hand, k.loop, f);
      if hand != InHand(k.loop, f) {
        assert f in Pending(s.loops[k.loop]);
        PendingHolds(s, k.loop, f);
      }
    }
  }

  // nobody holds more than before, except what is held anyway
  ghost predicate HoldsLess(s: Server, t: Server) {
    forall c :: c in s.conns && Held(t, c) ==> Held(s, c)
  }

  lemma FdsKept(s: Server, t: Server)
    requires FdsOk(s) && HoldsLess(s, t)
    requires t.conns.Keys == s.conns.Keys && forall c :: c in s.conns ==> t.conns[c].fd == s.conns[c].fd
    ensures FdsOk(t)
  {
    forall a, b | a in t.conns && b in t.conns && a != b && Held(t, a) && Held(t, b)
      ensures t.conns[a].fd != t.conns[b].fd
    {
      assert Held(s, a) && Held(s, b);
    }
  }

  // changing one loop: who is held after was held before, if that is so for the loop itself
  lemma LoopHoldsLess(s: Server, l: nat, lp: Loop)
    requires l < |s.loops|
    requires forall c :: LoopHolds(lp, c) ==> Held(s, c)
    ensures HoldsLess(s, s.(loops := s.loops[l := lp]))
  {
    var t := s.(loops := s.loops[l := lp]);
    forall c | c in s.conns && Held(t, c)
      ensures Held(s, c)
    {
      if !Registered(t, c) && c !in t.users {
        var m :| 0 <= m < |t.loops| && LoopHolds(t.loops[m], c);
        if m != l {
          assert LoopHolds(s.loops[m], c);
        }
      } else if Registered(t, c) {
        assert Registered(s, c);
      }
    }
  }

  // ---------------------------------------------------------------- a change to one loop's phase or queue

  lemma LoopChange(s: Server, hand: Hand, l: nat, lp: Loop, hand': Hand)
    requires Inv(s, hand) && l < |s.loops| && lp.poller == s.loops[l].poller
    requires TypedLoop(s.conns.Keys, lp) && PhaseOk(s.conns, l, lp.phase)
    requires forall c :: LoopHolds(lp, c) ==> Held(s, c)
    requires forall f: Functor :: !f.Callback? ==>
               multiset(Pending(lp))[f] + (if hand' == InHand(l, f) then 1 else 0)
               == multiset(Pending(s.loops[l]))[f] + (if hand == InHand(l, f) then 1 else 0)
    requires forall m: nat, f :: m != l ==> (hand' == InHand(m, f) <==> hand == InHand(m, f))
    requires HandOk(s.(loops := s.loops[l := lp]), hand')
    ensures Inv(s.(loops := s.loops[l := lp]), hand')
    ensures HoldsLess(s, s.(loops := s.loops[l := lp]))
  {
    hide Mirrors, StateOk, PollerOk, PhaseOk, TypedLoop, Held, HoldsLess, FdsOk, LoopHolds, Pending, TicketsOk,
      InRegistry, Expected, TicketOk, ConnName, Assigned;
    var t := s.(loops := s.loops[l := lp]);
    LoopHoldsLess(s, l, lp);
    FdsKept(s, t);
    SameConns(s, t);
    LoopChangeTickets(s, hand, l, lp, hand');
    assert Typed(t);
    forall c | c in t.conns
      ensures ConnOk(t, c)
    {
      assert ConnOk(s, c);
    }
  }

  // what a connection is expected to wait for depends on the records and the registry only
  lemma SameConns(s: Server, t: Server)
    requires t.conns == s.conns && t.registry == s.registry
    ensures forall c :: InRegistry(t, c) == InRegistry(s, c)
    ensures forall l: nat, f: Functor :: Expected(t, l, f) == Expected(s, l, f)
  {
  }

  lemma LoopChangeTickets(s: Server, hand: Hand, l: nat, lp: Loop, hand': Hand)
    requires TicketsOk(s, hand) && l < |s.loops|
    requires forall f: Functor :: !f.Callback? ==>
               multiset(Pending(lp))[f] + (if hand' == InHand(l, f) then 1 else 0)
               == multiset(Pending(s.loops[l]))[f] + (if hand == InHand(l, f) then 1 else 0)
    requires forall m: nat, f :: m != l ==> (hand' == InHand(m, f) <==> hand == InHand(m, f))
    ensures TicketsOk(s.(loops := s.loops[l := lp]), hand')
  {
    hide Expected, Pending;
    var t := s.(loops := s.loops[l := lp]);
    SameConns(s, t);
    forall m: nat, f: Functor | m < |t.loops| && !f.Callback?
      ensures TicketOk(t, hand', m, f)
    {
      assert TicketOk(s, hand, m, f);
    }
  }

  // ---------------------------------------------------------------- a change to one connection

  // at its fd, a connection that exists is alone
  lemma UnclaimedByOthers(s: Server, hand: Hand, c: Id)
    requires Inv(s, hand) && c in s.conns && Held(s, c)
    ensures Unclaimed(s.loops[s.conns[c].loop].poller, c, s.conns[c].fd)
  {
    var k := s.conns[c];
    var p := s.loops[k.loop].poller;
    assert PollerOk(s.conns, k.loop, p);
    if k.fd in p.channels {
      var d := p.channels[k.fd];
      assert ConnOk(s, d);
      UnfinishedIsHeld(s, hand, d);
    }
    if k.fd in p.kernel {
      var d := p.kernel[k.fd].channel;
      assert ConnOk(s, d);
      UnfinishedIsHeld(s, hand, d);
    }
  }

  // a poller that differs from p at fd only, where it knows nobody but c
  ghost predicate ChangedAt(p: PollerView<Id>, q: PollerView<Id>, c: Id, fd: int) {
    && Unclaimed(q, c, fd) && q.refused == p.refused
    && q.channels - {fd} == p.channels - {fd} && q.kernel - {fd} == p.kernel - {fd}
  }

  lemma OthersMirrored(p: PollerView<Id>, q: PollerView<Id>, c: Id, fd: int, d: Id, k: Connection)
    requires ChangedAt(p, q, c, fd) && d != c
    requires Mirrors(p, d, k.fd, k.index, k.events) && (k.fd == fd ==> k.index == New)
    ensures Mirrors(q, d, k.fd, k.index, k.events)
  {
    SameBeyond(p.channels, q.channels, fd);
    SameBeyond(p.kernel, q.kernel, fd);
  }

  lemma PollerChanged(conns: map<Id, Connection>, l: nat, p: PollerView<Id>, q: PollerView<Id>, c: Id, k: Connection)
    requires PollerOk(conns, l, p) && c in conns && ChangedAt(p, q, c, k.fd)
    requires k.loop == conns[c].loop == l && k.fd == conns[c].fd
    ensures PollerOk(conns[c := k], l, q)
  {
    SameBeyond(p.channels, q.channels, k.fd);
    SameBeyond(p.kernel, q.kernel, k.fd);
  }

  lemma SetConnHolds(s: Server, c: Id, k: Connection, q: PollerView<Id>)
    requires k.loop < |s.loops| && c in s.conns
    ensures HoldsLess(s, SetConn(s, c, k, q)) && HoldsLess(SetConn(s, c, k, q), s)
    ensures forall d :: HeldByLoop(SetConn(s, c, k, q), d) == HeldByLoop(s, d)
  {
    var t := SetConn(s, c, k, q);
    forall d
      ensures HeldByLoop(t, d) == HeldByLoop(s, d) && Registered(t, d) == Registered(s, d)
    {
      forall l | 0 <= l < |s.loops|
        ensures LoopHolds(t.loops[l], d) == LoopHolds(s.loops[l], d)
      {
      }
    }
    forall d | Held(t, d)
      ensures Held(s, d)
    {
      assert HeldByLoop(t, d) == HeldByLoop(s, d);
    }
    forall d | Held(s, d)
      ensures Held(t, d)
    {
      assert HeldByLoop(t, d) == HeldByLoop(s, d);
    }
  }

  /** A connection that exists changes its record and its place in its poller: every other connection stays
      mirrored, whatever fds finished connections once had. */
  lemma ConnChange(s: Server, hand: Hand, c: Id, k: Connection, q: PollerView<Id>)
    requires Inv(s, hand) && c in s.conns && Held(s, c)
    requires k.name == s.conns[c].name && k.fd == s.conns[c].fd && k.loop == s.conns[c].loop
    requires ChangedAt(s.loops[k.loop].poller, q, c, k.fd) && Mirrors(q, c, k.fd, k.index, k.events)
    requires StateOk(k, InRegistry(s, c))
    ensures var t := SetConn(s, c, k, q);
            && Typed(t) && Numbered(t) && RegistryOk(t) && ConnsOk(t) && PollersOk(t) && FdsOk(t)
            && HoldsLess(s, t)
  {
    hide Mirrors, StateOk, ChangedAt, TypedLoop, ConnName, Assigned, TicketsOk, PhasesOk, HandOk, Held, HoldsLess,
      FdsOk;
    var t := SetConn(s, c, k, q);
    SetConnHolds(s, c, k, q);
    FdsKept(s, t);
    SetConnTyped(s, c, k, q);
    SetConnPollers(s, c, k, q);
    forall d | d in t.conns
      ensures ConnOk(t, d)
    {
      assert InRegistry(t, d) == InRegistry(s, d);
      if d != c {
        assert ConnOk(s, d);
        OtherConn(s, hand, c, k, q, d);
      }
    }
  }

  lemma SetConnTyped(s: Server, c: Id, k: Connection, q: PollerView<Id>)
    requires Typed(s) && Numbered(s) && RegistryOk(s) && c in s.conns
    requires k.name == s.conns[c].name && k.fd == s.conns[c].fd && k.loop == s.conns[c].loop
    ensures var t := SetConn(s, c, k, q); Typed(t) && Numbered(t) && RegistryOk(t)
  {
    hide ConnName, Assigned;
    var t := SetConn(s, c, k, q);
    assert t.conns.Keys == s.conns.Keys;
  }

  lemma SetConnPollers(s: Server, c: Id, k: Connection, q: PollerView<Id>)
    requires Typed(s) && PollersOk(s) && c in s.conns
    requires k.name == s.conns[c].name && k.fd == s.conns[c].fd && k.loop == s.conns[c].loop
    requires ChangedAt(s.loops[k.loop].poller, q, c, k.fd)
    ensures PollersOk(SetConn(s, c, k, q))
  {
    var t := SetConn(s, c, k, q);
    forall l | 0 <= l < |t.loops|
      ensures PollerOk(t.conns, l, t.loops[l].poller)
    {
      assert PollerOk(s.conns, l, s.loops[l].poller);
      if l == k.loop {
        PollerChanged(s.conns, l, s.loops[l].poller, q, c, k);
      }
    }
  }

  lemma OtherConn(s: Server, hand: Hand, c: Id, k: Connection, q: PollerView<Id>, d: Id)
    requires Inv(s, hand) && c in s.conns && Held(s, c) && d in s.conns && d != c
    requires k.fd == s.conns[c].fd && k.loop == s.conns[c].loop
    requires ChangedAt(s.loops[k.loop].poller, q, c, k.fd)
    ensures var e := s.conns[d]; Mirrors(SetConn(s, c, k, q).loops[e.loop].poller, d, e.fd, e.index, e.events)
  {
    var e := s.conns[d];
    assert ConnOk(s, d);
    if e.index != New {
      UnfinishedIsHeld(s, hand, d);
      assert e.fd != k.fd;
    }
    if e.loop == k.loop {
      OthersMirrored(s.loops[k.loop].poller, q, c, k.fd, d, e);
    }
  }

  // no connection that is waiting to be handled stops being open
  lemma PhasesStay(s: Server, c: Id, k: Connection, q: PollerView<Id>)
    requires Typed(s) && PhasesOk(s) && c in s.conns && k.loop == s.conns[c].loop
    requires Open(s.conns[c].state) ==> Open(k.state)
    ensures PhasesOk(SetConn(s, c, k, q))
  {
    var t := SetConn(s, c, k, q);
    forall l | 0 <= l < |t.loops|
      ensures PhaseOk(t.conns, l, t.loops[l].phase)
    {
      assert PhaseOk(s.conns, l, s.loops[l].phase);
    }
  }

  function Ticket(b: bool): nat {
    if b then 1 else 0
  }

  lemma ConnTickets(s: Server, hand: Hand, c: Id, k: Connection, q: PollerView<Id>, hand': Hand)
    requires TicketsOk(s, hand) && c in s.conns && k.name == s.conns[c].name && k.loop < |s.loops|
    requires forall l: nat, f: Functor :: f.c != c ==> (hand == InHand(l, f) <==> hand' == InHand(l, f))
    requires forall l: nat, f: Functor :: f.c == c && l < |s.loops| && !f.Callback? ==>
               Ticket(Expected(s, l, f)) + Ticket(hand' == InHand(l, f))
               == Ticket(Expected(SetConn(s, c, k, q), l, f)) + Ticket(hand == InHand(l, f))
    ensures TicketsOk(SetConn(s, c, k, q), hand')
  {
    var t := SetConn(s, c, k, q);
    forall l: nat, f: Functor | l < |t.loops| && !f.Callback?
      ensures TicketOk(t, hand', l, f)
    {
      assert TicketOk(s, hand, l, f);
      assert Pending(t.loops[l]) == Pending(s.loops[l]);
      if f.c != c {
        assert Expected(t, l, f) == Expected(s, l, f) by {
          assert f.c in s.conns ==> InRegistry(t, f.c) == InRegistry(s, f.c);
        }
      } else {
        assert Ticket(Expected(s, l, f)) + Ticket(hand' == InHand(l, f))
               == Ticket(Expected(t, l, f)) + Ticket(hand == InHand(l, f));
      }
    }
  }

  // the tickets of c are what they have to be once its record is k
  ghost predicate TicketsMove(s: Server, hand: Hand, c: Id, k: Connection, hand': Hand)
    requires k.loop < |s.loops|
  {
    && (forall l: nat, f: Functor :: f.c != c ==> (hand == InHand(l, f) <==> hand' == InHand(l, f)))
    && (forall l: nat, f: Functor :: f.c == c && l < |s.loops| && !f.Callback? ==>
          Ticket(Expected(s, l, f)) + Ticket(hand' == InHand(l, f))
          == Ticket(Expected(s.(conns := s.conns[c := k]), l, f)) + Ticket(hand == InHand(l, f)))
  }

  /** One connection moves on: its record, its place in its poller and its ticket change together. */
  lemma ConnStep(s: Server, hand: Hand, c: Id, k: Connection, q: PollerView<Id>, hand': Hand)
    requires Inv(s, hand) && c in s.conns && Held(s, c)
    requires k.name == s.conns[c].name && k.fd == s.conns[c].fd && k.loop == s.conns[c].loop
    requires ChangedAt(s.loops[k.loop].poller, q, c, k.fd) && Mirrors(q, c, k.fd, k.index, k.events)
    requires StateOk(k, InRegistry(s, c))
    requires TicketsMove(s, hand, c, k, hand')
    requires PhasesOk(SetConn(s, c, k, q)) && HandOk(SetConn(s, c, k, q), hand')
    ensures Inv(SetConn(s, c, k, q), hand') && HoldsLess(s, SetConn(s, c, k, q))
  {
    hide Mirrors, StateOk, ChangedAt, TypedLoop, Numbered, RegistryOk, PollersOk, PhasesOk, FdsOk, HandOk, Held,
      HoldsLess, InRegistry, ConnOk;
    ConnChange(s, hand, c, k, q);
    SetConnExpects(s, c, k, q);
    ConnTickets(s, hand, c, k, q, hand');
  }

  lemma SetConnExpects(s: Server, c: Id, k: Connection, q: PollerView<Id>)
    requires k.loop < |s.loops|
    ensures forall l: nat, f: Functor :: Expected(SetConn(s, c, k, q), l, f) == Expected(s.(conns := s.conns[c := k]), l, f)
  {
  }

  // the ticket in hand is the one expected
  lemma TicketInHand(s: Server, l: nat, f: Functor)
    requires Inv(s, InHand(l, f))
    ensures f.c in s.conns && l < |s.loops| && Expected(s, l, f) && ConnOk(s, f.c) && Held(s, f.c)
  {
    assert TicketOk(s, InHand(l, f), l, f);
  }

  // ---------------------------------------------------------------- functors

  lemma ExecEstablished(s: Server, l: nat, c: Id)
    requires Inv(s, InHand(l, Established(c)))
    ensures Inv(ConnectEstablished(s, c), Empty) && HoldsLess(s, ConnectEstablished(s, c))
  {
    hide Mirrors, Unclaimed, UpdateChannel, EpollCtl, TypedLoop, Numbered, RegistryOk, PollersOk, PhasesOk, FdsOk,
      TicketsOk, Held, HoldsLess, ConnsOk;
    var hand := InHand(l, Established(c));
    TicketInHand(s, l, Established(c));
    var k0 := s.conns[c];
    var p := s.loops[k0.loop].poller;
    UnclaimedByOthers(s, hand, c);
    UpdateKeepsMirror(p, c, k0.fd, New, NONE_EVENT, READ_EVENT);
    var k := k0.(state := C.Connected, log := k0.log + [C.Up], events := READ_EVENT, index := Added);
    var q := UpdateChannel(p, c, k0.fd, New, READ_EVENT);
    assert ConnectEstablished(s, c) == SetConn(s, c, k, q);
    PhasesStay(s, c, k, q);
    ConnStep(s, hand, c, k, q, Empty);
  }

  lemma ExecDestroyed(s: Server, l: nat, c: Id)
    requires Inv(s, InHand(l, Destroyed(c)))
    ensures Inv(ConnectDestroyed(s, c), Empty) && HoldsLess(s, ConnectDestroyed(s, c))
  {
    hide Mirrors, Unclaimed, RemoveChannel, EpollCtl, TypedLoop, Numbered, RegistryOk, PollersOk, PhasesOk, FdsOk,
      TicketsOk, Held, HoldsLess, ConnsOk;
    var hand := InHand(l, Destroyed(c));
    TicketInHand(s, l, Destroyed(c));
    var k0 := s.conns[c];
    var p := s.loops[k0.loop].poller;
    UnclaimedByOthers(s, hand, c);
    RemoveKeepsMirror(p, c, k0.fd, Deleted, NONE_EVENT);
    var k := k0.(index := New);
    var q := RemoveChannel(p, c, k0.fd, Deleted, NONE_EVENT);
    DestroyIsSetConn(s, c);
    PhasesStay(s, c, k, q);
    ConnStep(s, hand, c, k, q, Empty);
  }

  lemma DestroyIsSetConn(s: Server, c: Id)
    requires Typed(s) && c in s.conns && s.conns[c].state != C.Connected
    ensures var k := s.conns[c];
            ConnectDestroyed(s, c)
            == SetConn(s, c, k.(index := New), RemoveChannel(s.loops[k.loop].poller, c, k.fd, k.index, k.events))
  {
  }

  // the connection whose handler is running closes: its ticket to the base loop is now in hand
  lemma CloseKeeps(s: Server, c: Id)
    requires Inv(s, Empty) && c in s.conns && Open(s.conns[c].state) && HeldByLoop(s, c)
    requires NotWaiting(s, c)
    ensures Inv(HandleClose(s, c), InHand(0, RemoveInLoop(c))) && HoldsLess(s, HandleClose(s, c))
    ensures HandleClose(s, c).conns.Keys == s.conns.Keys
  {
    hide Mirrors, Unclaimed, UpdateChannel, EpollCtl, TypedLoop, Numbered, RegistryOk, PollersOk, PhasesOk, FdsOk,
      TicketsOk, HoldsLess, ConnsOk, NotWaiting;
    var hand := InHand(0, RemoveInLoop(c));
    var k0 := s.conns[c];
    OpenConn(s, c);
    var p := s.loops[k0.loop].poller;
    UnclaimedByOthers(s, Empty, c);
    UpdateKeepsMirror(p, c, k0.fd, Added, k0.events, NONE_EVENT);
    var k := k0.(state := C.Disconnected, log := k0.log + [C.Down], events := NONE_EVENT, index := Deleted);
    var q := UpdateChannel(p, c, k0.fd, Added, NONE_EVENT);
    assert HandleClose(s, c) == SetConn(s, c, k, q);
    ClosePhases(s, c, k, q);
    SetConnHolds(s, c, k, q);
    assert HeldByLoop(SetConn(s, c, k, q), c);
    ConnStep(s, Empty, c, k, q, hand);
  }

  lemma OpenConn(s: Server, c: Id)
    requires Inv(s, Empty) && c in s.conns && Open(s.conns[c].state)
    ensures ConnOk(s, c) && InRegistry(s, c) && s.conns[c].index == Added && Held(s, c)
  {
    assert ConnOk(s, c);
    assert Registered(s, c);
  }

  // no dispatch has c ahead of it, nor a handler of c that may still close
  ghost predicate NotWaiting(s: Server, c: Id) {
    forall l :: 0 <= l < |s.loops| && s.loops[l].phase.Dispatching? ==>
      && Conn(c) !in s.loops[l].phase.todo
      && (s.loops[l].phase.guard.Guard? && s.loops[l].phase.guard.c == c ==> C.Closers(s.loops[l].phase.guard.todo) == 0)
  }

  lemma ClosePhases(s: Server, c: Id, k: Connection, q: PollerView<Id>)
    requires Typed(s) && PhasesOk(s) && c in s.conns && k.loop == s.conns[c].loop && NotWaiting(s, c)
    ensures PhasesOk(SetConn(s, c, k, q))
  {
    var t := SetConn(s, c, k, q);
    forall l | 0 <= l < |t.loops|
      ensures PhaseOk(t.conns, l, t.loops[l].phase)
    {
      assert PhaseOk(s.conns, l, s.loops[l].phase);
    }
  }

  // queueInLoop of the functor in hand
  lemma PushKeeps(s: Server, l: nat, f: Functor)
    requires Inv(s, InHand(l, f))
    ensures Inv(Push(s, l, f), Empty) && HoldsLess(s, Push(s, l, f))
  {
    hide Mirrors, StateOk, PollerOk, ConnName, Assigned, ConnOk, FdsOk, TicketsOk, Numbered, RegistryOk, PollersOk;
    var lp := s.loops[l].(queue := s.loops[l].queue + [f]);
    QueueHolds(s, l, f);
    assert Pending(lp) == Pending(s.loops[l]) + [f];
    LoopChange(s, InHand(l, f), l, lp, Empty);
  }

  // ... and of a user callback
  lemma CallbackKeeps(s: Server, l: nat, c: Id)
    requires Inv(s, Empty) && l < |s.loops| && c in s.conns && Held(s, c)
    ensures Inv(Push(s, l, Callback(c)), Empty) && HoldsLess(s, Push(s, l, Callback(c)))
  {
    hide Held, HoldsLess, ConnName, Assigned, ConnOk, FdsOk, TicketsOk, Numbered, RegistryOk, PollersOk, PhaseOk,
      LoopHolds;
    var lp := s.loops[l].(queue := s.loops[l].queue + [Callback(c)]);
    QueueHolds(s, l, Callback(c));
    assert Pending(lp) == Pending(s.loops[l]) + [Callback(c)];
    LoopChange(s, Empty, l, lp, Empty);
  }

  lemma QueueHolds(s: Server, l: nat, f: Functor)
    requires l < |s.loops| && Held(s, f.c)
    ensures forall d :: LoopHolds(s.loops[l].(queue := s.loops[l].queue + [f]), d) ==> Held(s, d)
  {
    var lp := s.loops[l].(queue := s.loops[l].queue + [f]);
    forall d | LoopHolds(lp, d)
      ensures Held(s, d)
    {
      if d != f.c {
        if exists i :: 0 <= i < |lp.queue| && lp.queue[i].c == d {
          var i :| 0 <= i < |lp.queue| && lp.queue[i].c == d;
          assert s.loops[l].queue[i].c == d;
        }
        assert LoopHolds(s.loops[l], d);
      }
    }
  }

  // removeConnectionInLoop: off the registry, and the last ticket goes to the connection's own loop
  lemma ExecRemove(s: Server, l: nat, c: Id)
    requires Inv(s, InHand(l, RemoveInLoop(c)))
    ensures Inv(RemoveConnectionInLoop(s, c), Empty) && HoldsLess(s, RemoveConnectionInLoop(s, c))
  {
    var hand := InHand(l, RemoveInLoop(c));
    TicketInHand(s, l, RemoveInLoop(c));
    var k := s.conns[c];
    var t := s.(registry := s.registry - {k.name});
    Unregister(s, l, c);
    PushKeeps(t, k.loop, Destroyed(c));
  }

  lemma Unregister(s: Server, l: nat, c: Id)
    requires Inv(s, InHand(l, RemoveInLoop(c))) && Expected(s, l, RemoveInLoop(c))
    ensures var t := s.(registry := s.registry - {s.conns[c].name});
            Inv(t, InHand(s.conns[c].loop, Destroyed(c))) && HoldsLess(s, t)
  {
    hide Mirrors, PollerOk, PhaseOk, TypedLoop, TicketsOk, FdsOk, Held, HoldsLess, LoopHolds, Numbered;
    var k := s.conns[c];
    var t := s.(registry := s.registry - {k.name});
    UnregisterHolds(s, c);
    FdsKept(s, t);
    forall d | d in t.conns
      ensures ConnOk(t, d)
    {
      assert ConnOk(s, d);
      if d != c && InRegistry(s, d) {
        assert s.conns[d].name != k.name;
      }
    }
    UnregisterTickets(s, l, c);
    UnregisterTyped(s, c);
  }

  lemma UnregisterHolds(s: Server, c: Id)
    requires c in s.conns && HeldByLoop(s, c)
    ensures var t := s.(registry := s.registry - {s.conns[c].name});
            HoldsLess(s, t) && HeldByLoop(t, c) && Held(t, c)
  {
    var t := s.(registry := s.registry - {s.conns[c].name});
    forall d | Held(t, d)
      ensures Held(s, d)
    {
      if Registered(t, d) {
        assert Registered(s, d);
      } else if d !in t.users {
        assert HeldByLoop(t, d) && HeldByLoop(s, d);
      }
    }
    var l :| 0 <= l < |s.loops| && LoopHolds(s.loops[l], c);
    assert LoopHolds(t.loops[l], c);
  }

  lemma UnregisterTyped(s: Server, c: Id)
    requires Typed(s) && Numbered(s) && RegistryOk(s) && c in s.conns
    ensures var t := s.(registry := s.registry - {s.conns[c].name}); Typed(t) && Numbered(t) && RegistryOk(t)
  {
    hide ConnName, Assigned, TypedLoop;
  }

  lemma UnregisterTickets(s: Server, l: nat, c: Id)
    requires Typed(s) && TicketsOk(s, InHand(l, RemoveInLoop(c))) && Expected(s, l, RemoveInLoop(c)) && ConnsOk(s)
    requires RegistryOk(s)
    ensures var t := s.(registry := s.registry - {s.conns[c].name}); TicketsOk(t, InHand(s.conns[c].loop, Destroyed(c)))
  {
    hide Mirrors, Pending, TypedLoop, RegistryOk;
    var k := s.conns[c];
    var t := s.(registry := s.registry - {k.name});
    var before, after := InHand(l, RemoveInLoop(c)), InHand(k.loop, Destroyed(c));
    assert ConnOk(s, c);
    forall m: nat, f: Functor | m < |t.loops| && !f.Callback?
      ensures TicketOk(t, after, m, f)
    {
      assert TicketOk(s, before, m, f);
      UnregisterExpects(s, c, m, f);
      assert Ticket(Expected(s, m, f)) + Ticket(after == InHand(m, f))
             == Ticket(Expected(t, m, f)) + Ticket(before == InHand(m, f));
    }
  }

  lemma UnregisterExpects(s: Server, c: Id, m: nat, f: Functor)
    requires c in s.conns && InRegistry(s, c) && RegistryOk(s)
    ensures var t := s.(registry := s.registry - {s.conns[c].name});
            !InRegistry(t, c) && (f.c != c ==> Expected(t, m, f) == Expected(s, m, f))
  {
    if f.c != c && InRegistry(s, f.c) {
      assert s.conns[f.c].name != s.conns[c].name;
    }
  }

  /** Running a lifecycle functor uses up its ticket and leaves exactly the next one waiting. */
  lemma ExecKeeps(s: Server, l: nat, f: Functor)
    requires Inv(s, InHand(l, f))
    ensures Inv(Exec(s, f), Empty) && HoldsLess(s, Exec(s, f))
  {
    match f
    case Established(c) => ExecEstablished(s, l, c);
    case RemoveInLoop(c) => ExecRemove(s, l, c);
    case Destroyed(c) => ExecDestroyed(s, l, c);
    case Callback(_) =>
  }

  // ---------------------------------------------------------------- phases

  // a loop moves on without touching its queue, its unrun functors or its poller
  lemma PhaseStep(s: Server, l: nat, phase: Phase)
    requires Inv(s, Empty) && l < |s.loops|
    requires TypedLoop(s.conns.Keys, s.loops[l].(phase := phase)) && PhaseOk(s.conns, l, phase)
    requires Pending(s.loops[l].(phase := phase)) == Pending(s.loops[l])
    requires phase.Dispatching? && phase.guard.Guard? ==> Held(s, phase.guard.c)
    requires phase.Running? ==> s.loops[l].phase.Running? && phase.batch == s.loops[l].phase.batch
    ensures Inv(SetPhase(s, l, phase), Empty) && HoldsLess(s, SetPhase(s, l, phase))
  {
    hide Mirrors, StateOk, PollerOk, PhaseOk, TypedLoop, ConnName, Assigned, ConnOk, FdsOk, TicketsOk, Numbered,
      RegistryOk, PollersOk, PhasesOk, Pending;
    var lp := s.loops[l].(phase := phase);
    forall c | LoopHolds(lp, c)
      ensures Held(s, c)
    {
      if !(phase.Dispatching? && phase.guard.Guard? && phase.guard.c == c) {
        assert LoopHolds(s.loops[l], c);
      }
    }
    LoopChange(s, Empty, l, lp, Empty);
  }

  lemma LoopParts(s: Server, l: nat)
    requires Inv(s, Empty) && l < |s.loops|
    ensures TypedLoop(s.conns.Keys, s.loops[l]) && PhaseOk(s.conns, l, s.loops[l].phase) && PollerOk(s.conns, l, s.loops[l].poller)
  {
  }

  lemma PollReturnKeeps(s: Server, l: nat, items: seq<Item>)
    requires Inv(s, Empty) && Enabled(s, PollReturn(l, items))
    ensures Inv(Next(s, PollReturn(l, items)), Empty) && HoldsLess(s, Next(s, PollReturn(l, items)))
  {
    hide Inv, Held, HoldsLess, ConnName, Assigned, PollerOk;
    LoopParts(s, l);
    forall i | 0 <= i < |items| && items[i].Conn?
      ensures items[i].c in s.conns && s.conns[items[i].c].loop == l && Open(s.conns[items[i].c].state)
    {
      KernelIsOpen(s, l, items[i].c);
    }
    PhaseStep(s, l, Dispatching(items, NoGuard));
  }

  // what the kernel watches is an open connection of the loop
  lemma KernelIsOpen(s: Server, l: nat, c: Id)
    requires Inv(s, Empty) && l < |s.loops|
    requires exists fd :: fd in s.loops[l].poller.kernel && s.loops[l].poller.kernel[fd].channel == c
    ensures c in s.conns && s.conns[c].loop == l && Open(s.conns[c].state)
  {
    LoopParts(s, l);
    assert ConnOk(s, c);
  }

  lemma SkipKeeps(s: Server, l: nat, guard: Guard)
    requires Inv(s, Empty) && l < |s.loops| && s.loops[l].phase.Dispatching?
    requires s.loops[l].phase.guard == NoGuard && s.loops[l].phase.todo != []
    requires guard.Guard? ==> s.loops[l].phase.todo[0] == Conn(guard.c) && Held(s, guard.c) && C.Closers(guard.todo) <= 1
    ensures var phase := Dispatching(s.loops[l].phase.todo[1..], guard);
            Inv(SetPhase(s, l, phase), Empty) && HoldsLess(s, SetPhase(s, l, phase))
  {
    hide Inv, Held, HoldsLess, ConnName, Assigned, PollerOk;
    LoopParts(s, l);
    var todo := s.loops[l].phase.todo;
    assert forall i :: 0 <= i < |todo[1..]| ==> todo[1..][i] == todo[i + 1];
    PhaseStep(s, l, Dispatching(todo[1..], guard));
  }

  lemma PassKeeps(s: Server, l: nat)
    requires Inv(s, Empty) && Enabled(s, Pass(l))
    ensures Inv(Next(s, Pass(l)), Empty) && HoldsLess(s, Next(s, Pass(l)))
  {
    CalledKeeps(s, l);
  }

  // the handler's next callback is made; whatever it does comes after
  lemma CalledKeeps(s: Server, l: nat)
    requires Inv(s, Empty) && Handling(s, l)
    ensures Inv(Called(s, l), Empty) && HoldsLess(s, Called(s, l))
    ensures s.loops[l].phase.guard.c in s.conns && HeldByLoop(Called(s, l), s.loops[l].phase.guard.c)
    ensures Called(s, l).conns == s.conns
  {
    hide Mirrors, StateOk, PollerOk, ConnName, Assigned, ConnOk, FdsOk, TicketsOk, Numbered, RegistryOk, PollersOk,
      HoldsLess, ConnsOk, PhasesOk;
    LoopParts(s, l);
    var guard := s.loops[l].phase.guard;
    assert LoopHolds(s.loops[l], guard.c);
    PhaseStep(s, l, Dispatching(s.loops[l].phase.todo, Guard(guard.c, guard.todo[1..])));
    assert LoopHolds(Called(s, l).loops[l], guard.c);
  }

  lemma EndHandleKeeps(s: Server, l: nat)
    requires Inv(s, Empty) && Enabled(s, EndHandle(l))
    ensures Inv(Next(s, EndHandle(l)), Empty) && HoldsLess(s, Next(s, EndHandle(l)))
  {
    hide Inv, Held, HoldsLess, ConnName, Assigned, PollerOk;
    LoopParts(s, l);
    PhaseStep(s, l, Dispatching(s.loops[l].phase.todo, NoGuard));
  }

  lemma EndBatchKeeps(s: Server, l: nat)
    requires Inv(s, Empty) && Enabled(s, EndBatch(l))
    ensures Inv(Next(s, EndBatch(l)), Empty) && HoldsLess(s, Next(s, EndBatch(l)))
  {
    hide Inv, Held, HoldsLess, ConnName, Assigned, PollerOk;
    LoopParts(s, l);
    PhaseStep(s, l, Polling);
  }

  lemma CloseStepKeeps(s: Server, l: nat)
    requires Inv(s, Empty) && Enabled(s, Close(l))
    ensures Inv(Next(s, Close(l)), Empty) && HoldsLess(s, Next(s, Close(l)))
  {
    hide TypedLoop, Numbered, RegistryOk, PollersOk, FdsOk, TicketsOk, ConnsOk, Held, HoldsLess, HandleClose, Exec,
      Push, PhaseOk, PhasesOk, Called, NotWaiting, HeldByLoop;
    var c := s.loops[l].phase.guard.c;
    var t := Called(s, l);
    CalledKeeps(s, l);
    CloserIsOpen(s, l);
    CloseKeeps(t, c);
    var u := HandleClose(t, c);
    CalledTyped(s, l);
    HoldsThrough(s, t, u);
    if l == 0 {
      ExecKeeps(u, 0, RemoveInLoop(c));
      HoldsThrough(s, u, Exec(u, RemoveInLoop(c)));
    } else {
      PushKeeps(u, 0, RemoveInLoop(c));
      HoldsThrough(s, u, Push(u, 0, RemoveInLoop(c)));
    }
  }

  // a callback that closes finds its connection open, and is the last of the dispatch that can
  lemma CloserIsOpen(s: Server, l: nat)
    requires Typed(s) && PhasesOk(s) && Handling(s, l)
    requires s.loops[l].phase.guard.todo[0] in {C.OnClose, C.OnRead}
    ensures var c := s.loops[l].phase.guard.c;
            Open(s.conns[c].state) && NotWaiting(Called(s, l), c)
  {
    var t := Called(s, l);
    var c := s.loops[l].phase.guard.c;
    assert PhaseOk(s.conns, l, s.loops[l].phase);
    forall m | 0 <= m < |t.loops| && t.loops[m].phase.Dispatching?
      ensures Conn(c) !in t.loops[m].phase.todo
      ensures t.loops[m].phase.guard.Guard? && t.loops[m].phase.guard.c == c ==> C.Closers(t.loops[m].phase.guard.todo) == 0
    {
      assert PhaseOk(s.conns, m, s.loops[m].phase);
    }
  }

  lemma HoldsThrough(s: Server, t: Server, u: Server)
    requires HoldsLess(s, t) && HoldsLess(t, u) && s.conns.Keys <= t.conns.Keys
    ensures HoldsLess(s, u)
  {
  }

  lemma SwapKeeps(s: Server, l: nat)
    requires Inv(s, Empty) && Enabled(s, Swap(l))
    ensures Inv(Next(s, Swap(l)), Empty) && HoldsLess(s, Next(s, Swap(l)))
  {
    hide Mirrors, StateOk, PollerOk, ConnName, Assigned, ConnOk, FdsOk, TicketsOk, Numbered, RegistryOk, PollersOk;
    LoopParts(s, l);
    var lp := s.loops[l].(phase := Running(s.loops[l].queue, 0), queue := []);
    assert Pending(lp) == Pending(s.loops[l]);
    forall c | LoopHolds(lp, c)
      ensures Held(s, c)
    {
      assert LoopHolds(s.loops[l], c);
    }
    LoopChange(s, Empty, l, lp, Empty);
  }

  // the next functor of the batch is taken in hand; the batch still holds its connection
  lemma TakeFunctor(s: Server, l: nat)
    requires Inv(s, Empty) && Enabled(s, RunFunctor(l))
    ensures var batch, next := s.loops[l].phase.batch, s.loops[l].phase.next;
            var t := SetPhase(s, l, Running(batch, next + 1));
            Inv(t, if batch[next].Callback? then Empty else InHand(l, batch[next])) && HoldsLess(s, t)
  {
    hide Inv, HoldsLess, ConnName, Assigned, PollerOk, PhaseOk;
    LoopParts(s, l);
    var batch, next := s.loops[l].phase.batch, s.loops[l].phase.next;
    var f := batch[next];
    var lp := s.loops[l].(phase := Running(batch, next + 1));
    assert PhaseOk(s.conns, l, lp.phase) by { RunningIsOk(s.conns, l, batch, next + 1); }
    assert batch[next..] == [f] + batch[next + 1..];
    assert Pending(s.loops[l]) == [f] + Pending(lp);
    forall c | LoopHolds(lp, c)
      ensures Held(s, c)
    {
      assert LoopHolds(s.loops[l], c);
    }
    var t := SetPhase(s, l, Running(batch, next + 1));
    assert LoopHolds(t.loops[l], f.c);
    LoopChange(s, Empty, l, lp, if f.Callback? then Empty else InHand(l, f));
  }

  lemma RunningIsOk(conns: map<Id, Connection>, l: nat, batch: seq<Functor>, next: nat)
    ensures PhaseOk(conns, l, Running(batch, next))
  {
  }

  lemma RunFunctorKeeps(s: Server, l: nat)
    requires Inv(s, Empty) && Enabled(s, RunFunctor(l))
    ensures Inv(Next(s, RunFunctor(l)), Empty) && HoldsLess(s, Next(s, RunFunctor(l)))
  {
    hide Numbered, RegistryOk, PollersOk, FdsOk, TicketsOk, HoldsLess, PhasesOk, ConnsOk, HandOk, ConnectDestroyed,
      ConnectEstablished, RemoveConnectionInLoop;
    TakeFunctor(s, l);
    var batch, next := s.loops[l].phase.batch, s.loops[l].phase.next;
    var t := SetPhase(s, l, Running(batch, next + 1));
    if !batch[next].Callback? {
      ExecKeeps(t, l, batch[next]);
      HoldsThrough(s, t, Exec(t, batch[next]));
    }
  }

  // ---------------------------------------------------------------- accepting

  lemma AcceptKeeps(s: Server, fd: int)
    requires Inv(s, Empty) && Enabled(s, Accept(fd))
    ensures Inv(Next(s, Accept(fd)), Empty) && HoldsLess(s, Next(s, Accept(fd)))
  {
    hide TypedLoop, Numbered, RegistryOk, PollersOk, FdsOk, TicketsOk, HoldsLess, PhasesOk, ConnsOk, Held, HandOk,
      ConnectEstablished, Push;
    var t := SetPhase(s, 0, Dispatching(s.loops[0].phase.todo[1..], NoGuard));
    SkipKeeps(s, 0, NoGuard);
    HeldLater(s, t, fd);
    NewKeeps(t, fd);
    AcceptTyped(s, fd);
    var u := NewConnection(t, fd);
    var c := s.nextConnId;
    HoldsThrough(s, t, u);
    if u.conns[c].loop == 0 {
      ExecKeeps(u, 0, Established(c));
      HoldsThrough(s, u, Exec(u, Established(c)));
    } else {
      PushKeeps(u, u.conns[c].loop, Established(c));
      HoldsThrough(s, u, Push(u, u.conns[c].loop, Established(c)));
    }
  }

  lemma HeldLater(s: Server, t: Server, fd: int)
    requires HoldsLess(s, t) && t.conns == s.conns
    requires forall c :: c in s.conns && Held(s, c) ==> s.conns[c].fd != fd
    ensures forall c :: c in t.conns && Held(t, c) ==> t.conns[c].fd != fd
  {
  }

  lemma NewKeeps(s: Server, fd: int)
    requires Inv(s, Empty) && s.nextConnId < MAX_INT
    requires forall c :: c in s.conns && Held(s, c) ==> s.conns[c].fd != fd
    ensures var t := NewConnection(s, fd);
            var c := s.nextConnId;
            && c !in s.conns && c in t.conns && s.conns.Keys <= t.conns.Keys
            && Inv(t, InHand(t.conns[c].loop, Established(c))) && HoldsLess(s, t)
  {
    hide Mirrors, StateOk, PollerOk, PhaseOk, TypedLoop, ConnOk, Held, HoldsLess, FdsOk, TicketsOk, Expected,
      Pending, ConnName, Assigned, InRegistry;
    NewNumbered(s, fd);
    NewHolds(s, fd);
    NewFds(s, fd);
    NewRegistered(s, fd);
    NewConns(s, fd);
    NewTickets(s, fd);
    NewLoops(s, fd);
  }

  // the name is new, so nobody loses the registry entry
  lemma NewNumbered(s: Server, fd: int)
    requires Typed(s) && Numbered(s) && RegistryOk(s) && s.nextConnId < MAX_INT
    ensures var t := NewConnection(s, fd);
            && Typed(t) && Numbered(t) && RegistryOk(t) && s.nextConnId !in s.conns
            && t.conns[s.nextConnId].name !in s.registry
  {
    hide TypedLoop, ConnName, Assigned;
    var c := s.nextConnId;
    var t := NewConnection(s, fd);
    var name := t.conns[c].name;
    if name in s.registry {
      var d := s.registry[name];
      NamesDiffer(s.name, s.ipPort, d, c);
    }
    if s.subLoops > 0 {
      AssignedNext(s.subLoops, c - 1);
    }
    NewTyped(s, fd);
  }

  lemma AssignedNext(n: nat, k: nat)
    requires n > 0
    ensures Assigned(n, k) < n
    ensures Assigned(n, k + 1) == if Assigned(n, k) + 1 >= n then 0 else Assigned(n, k) + 1
  {
    Successor(n, k);
  }

  lemma NewTyped(s: Server, fd: int)
    requires Typed(s)
    ensures Typed(NewConnection(s, fd))
  {
    hide ConnName;
    var t := NewConnection(s, fd);
    assert s.conns.Keys <= t.conns.Keys;
    forall l | 0 <= l < |t.loops|
      ensures TypedLoop(t.conns.Keys, t.loops[l])
    {
      assert TypedLoop(s.conns.Keys, s.loops[l]);
    }
  }

  lemma NewHolds(s: Server, fd: int)
    requires Typed(s) && s.nextConnId !in s.conns
    ensures var t := NewConnection(s, fd); HoldsLess(s, t) && Held(t, s.nextConnId)
  {
    hide ConnName;
    var t := NewConnection(s, fd);
    var name := t.conns[s.nextConnId].name;
    forall d | d in s.conns && Held(t, d)
      ensures Held(s, d)
    {
      if Registered(t, d) {
        var n :| n in t.registry && t.registry[n] == d;
        assert n in s.registry && s.registry[n] == d;
      }
    }
    assert t.registry[name] == s.nextConnId;
  }

  lemma NewFds(s: Server, fd: int)
    requires Typed(s) && FdsOk(s) && s.nextConnId !in s.conns && HoldsLess(s, NewConnection(s, fd))
    requires forall c :: c in s.conns && Held(s, c) ==> s.conns[c].fd != fd
    ensures FdsOk(NewConnection(s, fd))
  {
    hide ConnName, Held;
    var t := NewConnection(s, fd);
    forall a, b | a in t.conns && b in t.conns && a != b && Held(t, a) && Held(t, b)
      ensures t.conns[a].fd != t.conns[b].fd
    {
      assert a in s.conns ==> Held(s, a);
      assert b in s.conns ==> Held(s, b);
    }
  }

  lemma NewRegistered(s: Server, fd: int)
    requires Typed(s) && s.nextConnId !in s.conns
    requires RegistryOk(s) && NewConnection(s, fd).conns[s.nextConnId].name !in s.registry
    ensures forall d :: d in s.conns ==> InRegistry(NewConnection(s, fd), d) == InRegistry(s, d)
    ensures InRegistry(NewConnection(s, fd), s.nextConnId)
  {
    hide ConnName, TypedLoop;
  }

  lemma NewConns(s: Server, fd: int)
    requires Typed(s) && ConnsOk(s) && PollersOk(s) && s.nextConnId !in s.conns
    requires Typed(NewConnection(s, fd)) && InRegistry(NewConnection(s, fd), s.nextConnId)
    requires forall d :: d in s.conns ==> InRegistry(NewConnection(s, fd), d) == InRegistry(s, d)
    ensures ConnsOk(NewConnection(s, fd))
  {
    hide ConnName, TypedLoop, InRegistry;
    var t := NewConnection(s, fd);
    forall d | d in t.conns
      ensures ConnOk(t, d)
    {
      if d in s.conns {
        assert ConnOk(s, d);
      } else {
        assert PollerOk(s.conns, t.conns[d].loop, t.loops[t.conns[d].loop].poller);
      }
    }
  }

  lemma NewLoops(s: Server, fd: int)
    requires Typed(s) && PollersOk(s) && PhasesOk(s) && s.nextConnId !in s.conns
    ensures PollersOk(NewConnection(s, fd)) && PhasesOk(NewConnection(s, fd))
  {
    hide ConnName;
    var t := NewConnection(s, fd);
    forall l | 0 <= l < |t.loops|
      ensures PollerOk(t.conns, l, t.loops[l].poller) && PhaseOk(t.conns, l, t.loops[l].phase)
    {
      assert PollerOk(s.conns, l, s.loops[l].poller) && PhaseOk(s.conns, l, s.loops[l].phase);
    }
  }

  lemma NewTickets(s: Server, fd: int)
    requires Typed(s) && TicketsOk(s, Empty) && s.nextConnId !in s.conns
    requires forall d :: d in s.conns ==> InRegistry(NewConnection(s, fd), d) == InRegistry(s, d)
    ensures var t := NewConnection(s, fd); TicketsOk(t, InHand(t.conns[s.nextConnId].loop, Established(s.nextConnId)))
  {
    hide ConnName, InRegistry, TypedLoop, Pending;
    var c := s.nextConnId;
    var t := NewConnection(s, fd);
    var hand := InHand(t.conns[c].loop, Established(c));
    forall l: nat, f: Functor | l < |t.loops| && !f.Callback?
      ensures TicketOk(t, hand, l, f)
    {
      assert TicketOk(s, Empty, l, f);
      if f.c != c {
        assert Expected(t, l, f) == Expected(s, l, f);
      } else {
        assert !Expected(s, l, f);
        assert Expected(t, l, f) <==> hand == InHand(l, f);
      }
    }
  }

  // ---------------------------------------------------------------- user code

  lemma ShutdownKeeps(s: Server, l: nat, c: Id)
    requires Inv(s, Empty) && Enabled(s, Shutdown(l, c))
    ensures Inv(Next(s, Shutdown(l, c)), Empty) && HoldsLess(s, Next(s, Shutdown(l, c)))
  {
    hide Mirrors, Unclaimed, TypedLoop, Numbered, RegistryOk, PollersOk, PhasesOk, FdsOk, TicketsOk, Held,
      HoldsLess, ConnsOk, ChangedAt;
    var k0 := s.conns[c];
    if k0.state == C.Connected {
      OpenConn(s, c);
      var p := s.loops[l].poller;
      UnclaimedByOthers(s, Empty, c);
      var k := k0.(state := C.Disconnecting);
      NotChanged(p, c, k.fd);
      assert Next(s, Shutdown(l, c)) == SetConn(s, c, k, p);
      PhasesStay(s, c, k, p);
      ConnStep(s, Empty, c, k, p, Empty);
    } else {
      assert Next(s, Shutdown(l, c)) == s;
      HoldsSame(s);
    }
  }

  lemma HoldsSame(s: Server)
    ensures HoldsLess(s, s)
  {
  }

  lemma NotChanged(p: PollerView<Id>, c: Id, fd: int)
    requires Unclaimed(p, c, fd)
    ensures ChangedAt(p, p, c, fd)
  {
  }

  lemma InterestKeeps(s: Server, c: Id, events: Mask)
    requires Inv(s, Empty) && c in s.conns && Open(s.conns[c].state) && events in {READ_EVENT, READ_WRITE}
    ensures var t := SetEvents(s, c, s.conns[c], events); Inv(t, Empty) && HoldsLess(s, t)
  {
    hide Mirrors, Unclaimed, UpdateChannel, EpollCtl, TypedLoop, Numbered, RegistryOk, PollersOk, PhasesOk, FdsOk,
      TicketsOk, Held, HoldsLess, ConnsOk;
    var k0 := s.conns[c];
    OpenConn(s, c);
    var p := s.loops[k0.loop].poller;
    UnclaimedByOthers(s, Empty, c);
    UpdateKeepsMirror(p, c, k0.fd, Added, k0.events, events);
    var k := k0.(events := events, index := Added);
    var q := UpdateChannel(p, c, k0.fd, Added, events);
    assert SetEvents(s, c, k0, events) == SetConn(s, c, k, q);
    PhasesStay(s, c, k, q);
    ConnStep(s, Empty, c, k, q, Empty);
  }

  lemma DrainKeeps(s: Server, l: nat)
    requires Inv(s, Empty) && Enabled(s, Drain(l))
    ensures Inv(Next(s, Drain(l)), Empty) && HoldsLess(s, Next(s, Drain(l)))
  {
    hide TypedLoop, Numbered, RegistryOk, PollersOk, FdsOk, TicketsOk, Held, HoldsLess, PhaseOk, PhasesOk, ConnsOk,
      SetEvents, HeldByLoop;
    var c := s.loops[l].phase.guard.c;
    CalledKeeps(s, l);
    WritingIsOpen(s, c);
    InterestKeeps(Called(s, l), c, READ_EVENT);
    HoldsThrough(s, Called(s, l), Next(s, Drain(l)));
  }

  lemma WritingIsOpen(s: Server, c: Id)
    requires Typed(s) && ConnsOk(s) && c in s.conns && s.conns[c].events == READ_WRITE
    ensures Open(s.conns[c].state)
  {
    assert ConnOk(s, c);
  }

  lemma UsersKeep(s: Server, users: set<Id>)
    requires Inv(s, Empty) && users <= s.conns.Keys
    requires forall c :: c in users ==> Held(s, c)
    ensures Inv(s.(users := users), Empty) && HoldsLess(s, s.(users := users))
  {
    hide Mirrors, StateOk, PollerOk, PhaseOk, TypedLoop, Pending, ConnName, Assigned, Held, HoldsLess, FdsOk,
      TicketsOk;
    var t := s.(users := users);
    UsersHold(s, users);
    FdsKept(s, t);
    SameConns(s, t);
    UsersTickets(s, users);
    forall c | c in t.conns
      ensures ConnOk(t, c)
    {
      assert ConnOk(s, c);
    }
  }

  lemma UsersHold(s: Server, users: set<Id>)
    requires forall c :: c in users ==> Held(s, c)
    ensures HoldsLess(s, s.(users := users))
  {
    var t := s.(users := users);
    forall c | Held(t, c)
      ensures Held(s, c)
    {
      assert Registered(t, c) == Registered(s, c);
    }
  }

  lemma UsersTickets(s: Server, users: set<Id>)
    requires TicketsOk(s, Empty)
    ensures TicketsOk(s.(users := users), Empty)
  {
    var t := s.(users := users);
    SameConns(s, t);
    forall l: nat, f: Functor | l < |t.loops| && !f.Callback?
      ensures TicketOk(t, Empty, l, f)
    {
      assert TicketOk(s, Empty, l, f);
    }
  }

  lemma KeepKeeps(s: Server, c: Id)
    requires Inv(s, Empty) && Enabled(s, Keep(c))
    ensures Inv(Next(s, Keep(c)), Empty) && HoldsLess(s, Next(s, Keep(c)))
  {
    UsersKeep(s, s.users + {c});
  }

  lemma DropKeeps(s: Server, c: Id)
    requires Inv(s, Empty) && Enabled(s, Drop(c))
    ensures Inv(Next(s, Drop(c)), Empty) && HoldsLess(s, Next(s, Drop(c)))
  {
    UsersKeep(s, s.users - {c});
  }

  lemma AcceptNoneKeeps(s: Server)
    requires Inv(s, Empty) && Enabled(s, AcceptNone)
    ensures Inv(Next(s, AcceptNone), Empty) && HoldsLess(s, Next(s, AcceptNone))
  {
    SkipKeeps(s, 0, NoGuard);
  }

  /** Every step of every loop and of the user's code keeps the invariant, and no step brings a connection nobody
      holds back into anybody's hands. */
  lemma StepKeeps(s: Server, e: Step)
    requires Inv(s, Empty) && Enabled(s, e)
    ensures Inv(Next(s, e), Empty) && HoldsLess(s, Next(s, e))
  {
    hide Inv, HoldsLess, Held, Exec, Push, NewConnection, HandleClose, SetEvents, SetConn;
    match e
    case PollReturn(l, items) => PollReturnKeeps(s, l, items);
    case Accept(fd) => AcceptKeeps(s, fd);
    case AcceptNone => AcceptNoneKeeps(s);
    case BeginHandle(l, revents) =>
      var c := s.loops[l].phase.todo[0].c;
      C.ClosersOfCallbacks(revents);
      SkipKeeps(s, l, if Held(s, c) then Guard(c, C.Callbacks(revents)) else NoGuard);
    case Close(l) => CloseStepKeeps(s, l);
    case Drain(l) => DrainKeeps(s, l);
    case Pass(l) => PassKeeps(s, l);
    case EndHandle(l) => EndHandleKeeps(s, l);
    case Swap(l) => SwapKeeps(s, l);
    case RunFunctor(l) => RunFunctorKeeps(s, l);
    case EndBatch(l) => EndBatchKeeps(s, l);
    case Shutdown(l, c) => ShutdownKeeps(s, l, c);
    case StartWriting(l, c) => InterestKeeps(s, c, READ_WRITE);
    case QueueCallback(l, c) => CallbackKeeps(s, l, c);
    case Keep(c) => KeepKeeps(s, c);
    case Drop(c) => DropKeeps(s, c);
  }
}
