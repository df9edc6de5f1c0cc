/** What the server promises about its connections over whole runs, for any number of loops and connections and
    any interleaving: nothing is touched after its last pointer is gone, nothing is leaked, the registry is
    exact, and every connection goes once through its life. */
module ServerTheorems {
  import opened Epoll
  import opened LoopPool
  import opened ServerLifetime
  import opened ServerInvariant
  import C = Connection
  import ConnectionTheorems

  // a server that has not accepted anything yet
  function Start(name: string, ipPort: string, subLoops: nat): Server {
    Server(name, ipPort, subLoops, 0, 1, map[], map[],
           seq(subLoops + 1, i => Loop(Polling, [], PollerView(map[], map[], 0))), {})
  }

  ghost predicate Possible(s: Server, run: seq<Step>)
    decreases run
  {
    run == [] || (Typed(s) && Enabled(s, run[0]) && Possible(Next(s, run[0]), run[1..]))
  }

  ghost function Run(s: Server, run: seq<Step>): Server
    requires Possible(s, run)
    decreases run
  {
    if run == [] then s else Run(Next(s, run[0]), run[1..])
  }

  lemma StartInv(name: string, ipPort: string, subLoops: nat)
    requires |ipPort| <= 21
    ensures Inv(Start(name, ipPort, subLoops), Empty)
  {
    hide ConnName;
    var s := Start(name, ipPort, subLoops);
    if subLoops > 0 {
      Quotient(subLoops, 0, 0, 0);
    }
    forall l: nat, f: Functor | l < |s.loops| && !f.Callback?
      ensures TicketOk(s, Empty, l, f)
    {
      assert Pending(s.loops[l]) == [];
    }
  }

  lemma {:induction false} RunKeeps(s: Server, run: seq<Step>)
    requires Inv(s, Empty) && Possible(s, run)
    ensures Inv(Run(s, run), Empty)
    decreases run
  {
    hide Inv, HoldsLess, Next, Enabled;
    if run == [] {
    } else {
      StepKeeps(s, run[0]);
      RunKeeps(Next(s, run[0]), run[1..]);
    }
  }

  // ---------------------------------------------------------------- lifetime

  // the connections a state's next steps may touch through a raw pointer or a functor
  ghost predicate InUse(s: Server, c: Id) {
    exists l :: 0 <= l < |s.loops| && UsedByLoop(s.loops[l], c)
  }

  ghost predicate UsedByLoop(lp: Loop, c: Id) {
    || (exists fd :: fd in lp.poller.channels && lp.poller.channels[fd] == c)
    || (exists fd :: fd in lp.poller.kernel && lp.poller.kernel[fd].channel == c)
    || (lp.phase.Dispatching? && Conn(c) in lp.phase.todo)
    || FunctorFor(lp, c)
  }

  ghost predicate FunctorFor(lp: Loop, c: Id) {
    exists f :: f in Pending(lp) && f.c == c
  }

  lemma UsedIsHeld(s: Server, l: nat, c: Id)
    requires Inv(s, Empty) && l < |s.loops| && UsedByLoop(s.loops[l], c)
    ensures c in s.conns && HeldByServer(s, c) && Held(s, c)
  {
    hide Inv, Held, HeldByServer, UsedByLoop;
    if FunctorFor(s.loops[l], c) {
      var f :| f in Pending(s.loops[l]) && f.c == c;
      FunctorHolds(s, l, f);
    } else {
      WatchedIsUnfinished(s, l, c);
      UnfinishedIsHeld(s, Empty, c);
    }
  }

  lemma FunctorHolds(s: Server, l: nat, f: Functor)
    requires Inv(s, Empty) && l < |s.loops| && f in Pending(s.loops[l])
    ensures f.c in s.conns && HeldByServer(s, f.c) && Held(s, f.c)
  {
    hide Held, Pending, TypedLoop, Numbered, RegistryOk, ConnsOk, PollersOk, PhasesOk, FdsOk, TicketsOk;
    PendingHolds(s, l, f);
    PendingTyped(s, l, f);
  }

  // what a poller knows or a dispatch has ahead of it is not over
  lemma WatchedIsUnfinished(s: Server, l: nat, c: Id)
    requires Inv(s, Empty) && l < |s.loops| && UsedByLoop(s.loops[l], c) && !FunctorFor(s.loops[l], c)
    ensures c in s.conns && (s.conns[c].index != New || s.conns[c].state != C.Disconnected)
  {
    hide Held, Pending, TypedLoop, Numbered, RegistryOk, FdsOk, TicketsOk;
    LoopParts(s, l);
    assert c in s.conns;
    assert ConnOk(s, c);
  }

  lemma PendingTyped(s: Server, l: nat, f: Functor)
    requires Typed(s) && l < |s.loops| && f in Pending(s.loops[l])
    ensures f.c in s.conns
  {
    var lp := s.loops[l];
    if f !in lp.queue {
      var i :| 0 <= i < |lp.phase.batch[lp.phase.next..]| && lp.phase.batch[lp.phase.next..][i] == f;
      assert lp.phase.batch[lp.phase.next + i] == f;
    }
  }

  /** Lifetime safety. In every reachable state, for any number of loops and connections: every channel in a
      poller's map or in the kernel set, every channel still to be dispatched, and every connection a
      functor is bound to belongs to a connection that the registry, a queued functor or a running batch
      holds, whatever pointers users keep. A channel still to be dispatched is moreover still in its poller and its
      connection in the registry: connectDestroyed never runs in the middle of a dispatch. */
  lemma LifetimeSafety(name: string, ipPort: string, subLoops: nat, run: seq<Step>)
    requires |ipPort| <= 21 && Possible(Start(name, ipPort, subLoops), run)
    ensures var s := Run(Start(name, ipPort, subLoops), run);
            && (forall c :: InUse(s, c) ==> c in s.conns && HeldByServer(s, c))
            && (forall l, c :: 0 <= l < |s.loops| && s.loops[l].phase.Dispatching? && Conn(c) in s.loops[l].phase.todo ==>
                  c in s.conns && s.conns[c].index == Added && Registered(s, c))
            && (forall l :: 0 <= l < |s.loops| ==> s.loops[l].poller.refused == 0)
  {
    var start := Start(name, ipPort, subLoops);
    StartInv(name, ipPort, subLoops);
    RunKeeps(start, run);
    var s := Run(start, run);
    forall c | InUse(s, c)
      ensures c in s.conns && HeldByServer(s, c)
    {
      var l :| 0 <= l < |s.loops| && UsedByLoop(s.loops[l], c);
      UsedIsHeld(s, l, c);
    }
    forall l, c | 0 <= l < |s.loops| && s.loops[l].phase.Dispatching? && Conn(c) in s.loops[l].phase.todo
      ensures c in s.conns && s.conns[c].index == Added && Registered(s, c)
    {
      WaitingIsOpen(s, l, c);
    }
    forall l | 0 <= l < |s.loops|
      ensures s.loops[l].poller.refused == 0
    {
      LoopParts(s, l);
    }
  }

  lemma WaitingIsOpen(s: Server, l: nat, c: Id)
    requires Inv(s, Empty) && l < |s.loops| && s.loops[l].phase.Dispatching? && Conn(c) in s.loops[l].phase.todo
    ensures c in s.conns && s.conns[c].loop == l && s.conns[c].index == Added && Registered(s, c)
  {
    hide Inv, Mirrors;
    LoopParts(s, l);
    OpenConn(s, c);
    assert s.registry[s.conns[c].name] == c;
  }

  lemma ConnsGrow(s: Server, e: Step)
    requires Typed(s) && Enabled(s, e)
    ensures s.conns.Keys <= Next(s, e).conns.Keys
  {
    hide TypedLoop, UpdateChannel, RemoveChannel, ConnName, Held, Enabled;
  }

  /** Once nobody holds a connection it stays that way: a destroyed connection is never used again. */
  lemma {:induction false} GoneIsGone(s: Server, run: seq<Step>, c: Id)
    requires Inv(s, Empty) && Possible(s, run) && c in s.conns && !Held(s, c)
    ensures c in Run(s, run).conns && !Held(Run(s, run), c) && !InUse(Run(s, run), c)
    decreases run
  {
    hide Inv, Next, Enabled, Held, InUse, Typed;
    if run == [] {
      NotInUse(s, c);
    } else {
      StepKeeps(s, run[0]);
      ConnsGrow(s, run[0]);
      assert HoldsLess(s, Next(s, run[0]));
      GoneIsGone(Next(s, run[0]), run[1..], c);
    }
  }

  lemma NotInUse(s: Server, c: Id)
    requires Inv(s, Empty) && !Held(s, c)
    ensures !InUse(s, c)
  {
    if InUse(s, c) {
      var l :| 0 <= l < |s.loops| && UsedByLoop(s.loops[l], c);
      UsedIsHeld(s, l, c);
    }
  }

  /** Nothing leaks: when every loop is back in poll with an empty queue, a closed connection is off the registry
      and out of its poller, and nobody but the user's own pointers keeps it. */
  lemma QuietMeansReleased(name: string, ipPort: string, subLoops: nat, run: seq<Step>, c: Id)
    requires |ipPort| <= 21 && Possible(Start(name, ipPort, subLoops), run)
    requires var s := Run(Start(name, ipPort, subLoops), run);
             && c in s.conns && s.conns[c].state == C.Disconnected
             && forall l :: 0 <= l < |s.loops| ==> s.loops[l].phase == Polling && s.loops[l].queue == []
    ensures var s := Run(Start(name, ipPort, subLoops), run);
            s.conns[c].index == New && (Held(s, c) <==> c in s.users)
  {
    var start := Start(name, ipPort, subLoops);
    StartInv(name, ipPort, subLoops);
    RunKeeps(start, run);
    QuietReleases(Run(start, run), c);
  }

  lemma QuietReleases(s: Server, c: Id)
    requires Inv(s, Empty) && c in s.conns && s.conns[c].state == C.Disconnected
    requires forall l :: 0 <= l < |s.loops| ==> s.loops[l].phase == Polling && s.loops[l].queue == []
    ensures s.conns[c].index == New && (Held(s, c) <==> c in s.users)
  {
    hide Mirrors, Numbered, PollersOk, PhasesOk, FdsOk, TicketsOk, Expected;
    var k := s.conns[c];
    assert ConnOk(s, c);
    NothingExpected(s, 0, RemoveInLoop(c));
    NothingExpected(s, k.loop, Destroyed(c));
    assert !InRegistry(s, c) && k.index == New by { DoneIfUnexpected(s, c); }
    assert !Registered(s, c);
  }

  // a loop with nothing to run is not where anything is due
  lemma NothingExpected(s: Server, l: nat, f: Functor)
    requires TicketsOk(s, Empty) && l < |s.loops| && !f.Callback?
    requires s.loops[l].phase == Polling && s.loops[l].queue == []
    ensures !Expected(s, l, f)
  {
    hide Expected;
    assert Pending(s.loops[l]) == [];
    assert TicketOk(s, Empty, l, f);
  }

  lemma DoneIfUnexpected(s: Server, c: Id)
    requires Typed(s) && c in s.conns && s.conns[c].state == C.Disconnected && StateOk(s.conns[c], InRegistry(s, c))
    requires !Expected(s, 0, RemoveInLoop(c)) && !Expected(s, s.conns[c].loop, Destroyed(c))
    ensures !InRegistry(s, c) && s.conns[c].index == New
  {
    hide InRegistry;
  }

  // ---------------------------------------------------------------- registry

  /** The registry is exact: it lists a connection exactly until its removal has run on the base loop, under its own
      name, and a new connection never takes another's place. */
  lemma RegistryExact(name: string, ipPort: string, subLoops: nat, run: seq<Step>, c: Id)
    requires |ipPort| <= 21 && Possible(Start(name, ipPort, subLoops), run)
    requires c in Run(Start(name, ipPort, subLoops), run).conns
    ensures var s := Run(Start(name, ipPort, subLoops), run);
            && Typed(s) && 1 <= c < s.nextConnId
            && (Registered(s, c) <==> InRegistry(s, c))
            && (InRegistry(s, c) <==> s.conns[c].state != C.Disconnected || RemoveInLoop(c) in Pending(s.loops[0]))
            && (s.nextConnId < MAX_INT ==> ConnName(s.name, s.ipPort, s.nextConnId) !in s.registry)
            && s.conns[c].loop == (if s.subLoops == 0 then 0 else 1 + Assigned(s.subLoops, c - 1))
  {
    var start := Start(name, ipPort, subLoops);
    StartInv(name, ipPort, subLoops);
    RunKeeps(start, run);
    RegistryIs(Run(start, run), c);
  }

  lemma RegistryIs(s: Server, c: Id)
    requires Inv(s, Empty) && c in s.conns
    ensures Registered(s, c) <==> InRegistry(s, c)
    ensures InRegistry(s, c) <==> s.conns[c].state != C.Disconnected || RemoveInLoop(c) in Pending(s.loops[0])
    ensures s.nextConnId < MAX_INT ==> ConnName(s.name, s.ipPort, s.nextConnId) !in s.registry
  {
    hide ConnName, Assigned;
    assert ConnOk(s, c);
    assert TicketOk(s, Empty, 0, RemoveInLoop(c));
    if s.nextConnId < MAX_INT {
      NewNumbered(s, 0);
    }
  }

  // ---------------------------------------------------------------- one life each

  // a connection's record moves forward
  predicate Onward(k: Connection, k': Connection) {
    && ConnectionTheorems.Rank(k.state) <= ConnectionTheorems.Rank(k'.state)
    && k.log <= k'.log && k.name == k'.name && k.fd == k'.fd && k.loop == k'.loop
  }

  lemma ExecOnward(s: Server, l: nat, f: Functor, c: Id)
    requires Inv(s, InHand(l, f)) && c in s.conns
    ensures c in Exec(s, f).conns && Onward(s.conns[c], Exec(s, f).conns[c])
  {
    hide Mirrors, PollerOk, FdsOk, TicketsOk, RegistryOk, PollersOk, PhasesOk, ConnsOk, Numbered, Held, HoldsLess,
      UpdateChannel, RemoveChannel, EpollCtl, Pending;
    TicketInHand(s, l, f);
    if f.Established? {
      assert s.conns[f.c].state == C.Connecting;
    }
  }

  lemma CloseOnward(s: Server, l: nat, c: Id)
    requires Typed(s) && Enabled(s, Close(l)) && c in s.conns
    ensures c in Next(s, Close(l)).conns && Onward(s.conns[c], Next(s, Close(l)).conns[c])
  {
    hide ConnectDestroyed, ConnectEstablished, UpdateChannel, TypedLoop;
    CalledTyped(s, l);
  }

  lemma RunFunctorOnward(s: Server, l: nat, c: Id)
    requires Inv(s, Empty) && Enabled(s, RunFunctor(l)) && c in s.conns
    ensures c in Next(s, RunFunctor(l)).conns && Onward(s.conns[c], Next(s, RunFunctor(l)).conns[c])
  {
    hide ConnectDestroyed, ConnectEstablished, RemoveConnectionInLoop, FdsOk, TicketsOk, RegistryOk, PollersOk,
      PhasesOk, ConnsOk, Numbered, Held, HoldsLess, HandOk;
    TakeFunctor(s, l);
    var batch, next := s.loops[l].phase.batch, s.loops[l].phase.next;
    var t := SetPhase(s, l, Running(batch, next + 1));
    if !batch[next].Callback? {
      ExecOnward(t, l, batch[next], c);
    }
  }

  lemma StepOnward(s: Server, e: Step, c: Id)
    requires Inv(s, Empty) && Enabled(s, e) && c in s.conns
    ensures c in Next(s, e).conns && Onward(s.conns[c], Next(s, e).conns[c])
  {
    hide FdsOk, TicketsOk, RegistryOk, PollersOk, PhasesOk, ConnsOk, Numbered, Held, HoldsLess, UpdateChannel,
      TypedLoop, Exec, NewConnection, HandleClose, SetEvents, Onward, Enabled;
    SameIsOnward(s.conns[c]);
    match e
    case RunFunctor(l) => RunFunctorOnward(s, l, c);
    case Accept(fd) => AcceptOnward(s, fd, c);
    case Close(l) => CloseOnward(s, l, c);
    case Drain(l) => DrainOnward(s, l, c);
    case StartWriting(l, d) => StartWritingOnward(s, l, d, c);
    case Shutdown(l, d) => ShutdownOnward(s.conns[c]);
    case _ =>
  }

  lemma AcceptOnward(s: Server, fd: int, c: Id)
    requires Inv(s, Empty) && Enabled(s, Accept(fd)) && c in s.conns
    ensures c in Next(s, Accept(fd)).conns && Next(s, Accept(fd)).conns[c] == s.conns[c]
  {
    hide ConnName, PhasesOk, FdsOk, TicketsOk, PollersOk, ConnsOk, Held, UpdateChannel;
    assert c != s.nextConnId;
  }

  lemma DrainOnward(s: Server, l: nat, c: Id)
    requires Typed(s) && Enabled(s, Drain(l)) && c in s.conns
    ensures c in Next(s, Drain(l)).conns && Onward(s.conns[c], Next(s, Drain(l)).conns[c])
  {
    hide UpdateChannel, TypedLoop;
    CalledTyped(s, l);
  }

  lemma StartWritingOnward(s: Server, l: nat, d: Id, c: Id)
    requires Typed(s) && Enabled(s, StartWriting(l, d)) && c in s.conns
    ensures c in Next(s, StartWriting(l, d)).conns && Onward(s.conns[c], Next(s, StartWriting(l, d)).conns[c])
  {
    hide UpdateChannel, TypedLoop;
  }

  lemma ShutdownOnward(k: Connection)
    ensures k.state == C.Connected ==> Onward(k, k.(state := C.Disconnecting))
  {
  }

  lemma OnwardTwice(a: Connection, b: Connection, c: Connection)
    requires Onward(a, b) && Onward(b, c)
    ensures Onward(a, c)
  {
  }

  lemma {:induction false} RunOnward(s: Server, run: seq<Step>, c: Id)
    requires Inv(s, Empty) && Possible(s, run) && c in s.conns
    ensures c in Run(s, run).conns && Onward(s.conns[c], Run(s, run).conns[c])
    decreases run
  {
    hide Inv, Next, Enabled, Typed, HoldsLess, Onward;
    if run == [] {
      assert Onward(s.conns[c], s.conns[c]) by { SameIsOnward(s.conns[c]); }
    } else {
      StepKeeps(s, run[0]);
      StepOnward(s, run[0], c);
      RunOnward(Next(s, run[0]), run[1..], c);
      OnwardTwice(s.conns[c], Next(s, run[0]).conns[c], Run(s, run).conns[c]);
    }
  }

  lemma SameIsOnward(k: Connection)
    ensures Onward(k, k)
  {
  }

  /** Each connection has one life: its state only moves forward, its user sees one UP and then at most one DOWN, in
      step with the state, and it stays on the loop it was given. */
  lemma OneLife(name: string, ipPort: string, subLoops: nat, before: seq<Step>, after: seq<Step>, c: Id)
    requires |ipPort| <= 21 && Possible(Start(name, ipPort, subLoops), before)
    requires Possible(Run(Start(name, ipPort, subLoops), before), after)
    requires c in Run(Start(name, ipPort, subLoops), before).conns
    ensures var s := Run(Start(name, ipPort, subLoops), before);
            var t := Run(s, after);
            && c in t.conns && Onward(s.conns[c], t.conns[c])
            && t.conns[c].log <= [C.Up, C.Down]
            && (t.conns[c].state == C.Connecting <==> t.conns[c].log == [])
            && (t.conns[c].state == C.Disconnected <==> t.conns[c].log == [C.Up, C.Down])
  {
    StartInv(name, ipPort, subLoops);
    var start := Start(name, ipPort, subLoops);
    RunKeeps(start, before);
    var s := Run(start, before);
    RunKeeps(s, after);
    RunOnward(s, after, c);
    assert ConnOk(Run(s, after), c);
  }
}
