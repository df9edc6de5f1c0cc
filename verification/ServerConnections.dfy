/** The two models of a connection are one. The server's steps say when a connection's callbacks and user calls happen,
    the connection machine what they do with bytes. A telling of a server run for one connection gives every
    such step its bytes, any that have the step's effect, and puts in the sends and reads that have none. Every
    telling is a possible run of the machine: its guards (established once, dispatched only while registered,
    destroyed only when closed and never in the middle of a dispatch) are theorems of the server. So what
    `ConnectionTheorems` says of the machine's runs holds for each connection of the server, with its bytes. */
module ServerConnections {
  import opened Epoll
  import opened LoopPool
  import opened ServerLifetime
  import opened ServerInvariant
  import opened ServerTheorems
  import B = Buffers
  import C = Connection
  import ConnectionTheorems

  const WOULD_BLOCK: C.WriteResult := C.WriteResult(-1, C.EWOULDBLOCK)
  const NOT_READ: B.ReadResult := B.ReadError(C.EWOULDBLOCK)
  const END_OF_STREAM: B.ReadResult := B.ReadBytes([])

  // the callbacks that the dispatch of c in progress has still to make
  function Waiting(s: Server, c: Id): seq<C.Callback>
    requires c in s.conns && s.conns[c].loop < |s.loops|
  {
    var phase := s.loops[s.conns[c].loop].phase;
    if phase.Dispatching? && phase.guard.Guard? && phase.guard.c == c then phase.guard.todo else []
  }

  // the server's record of c is the machine's; before c is accepted the machine has not moved
  ghost predicate Matches(s: Server, c: Id, m: C.Machine) {
    if c !in s.conns then m == C.Start(m.v.config)
    else
      var k := s.conns[c];
      && k.loop < |s.loops| && m.todo == Waiting(s, c)
      && m.v.state == k.state && m.v.index == k.index
      && k.events == if !m.v.reading then NONE_EVENT else if m.v.writing then READ_WRITE else READ_EVENT
  }

  // ---------------------------------------------------------------- tellings

  ghost function After(m: C.Machine, x: C.Event): C.Machine {
    if C.Enabled(m, x) then C.Step(m, x) else m
  }

  // a step of the server in which connection c does something
  ghost predicate Concerns(s: Server, e: Step, c: Id)
    requires Typed(s) && Enabled(s, e)
  {
    match e
    case Accept(_) => c == s.nextConnId && s.subLoops == 0
    case BeginHandle(l, _) => s.loops[l].phase.todo[0].c == c && Held(s, c)
    case Close(l) => s.loops[l].phase.guard.c == c
    case Drain(l) => s.loops[l].phase.guard.c == c
    case Pass(l) => s.loops[l].phase.guard.c == c
    case RunFunctor(l) => s.loops[l].phase.batch[s.loops[l].phase.next] in {Established(c), Destroyed(c)}
    case Shutdown(_, d) => d == c
    case StartWriting(_, d) => d == c
    case _ => false
  }

  // event x is that step, with bytes that have its effect on a connection in state m
  ghost predicate Shows(s: Server, e: Step, c: Id, m: C.Machine, x: C.Event)
    requires Typed(s) && Enabled(s, e) && Concerns(s, e, c)
  {
    match e
    case Accept(_) => x == C.Establish
    case BeginHandle(_, revents) => x == C.Dispatch(revents)
    // a read callback closes at the end of the stream
    case Close(l) => x.Next? && (s.loops[l].phase.guard.todo[0] == C.OnRead ==> x.r == END_OF_STREAM)
    // a write callback stops writing when the kernel takes everything
    case Drain(_) => x.Next? && x.w.Count(|m.v.output|) == |m.v.output|
    case Pass(l) =>
      && x.Next?
      && (s.loops[l].phase.guard.todo[0] == C.OnRead ==> x.r != END_OF_STREAM)
      && (s.loops[l].phase.guard.todo[0] == C.OnWrite && m.v.writing ==> x.w.Count(|m.v.output|) < |m.v.output|)
    case RunFunctor(l) =>
      x == if s.loops[l].phase.batch[s.loops[l].phase.next] == Established(c) then C.Establish else C.Destroy
    case Shutdown(_, _) => x == C.Shutdown
    // a send after which something waits for the kernel
    case StartWriting(_, _) => x.Send? && After(m, x).v.writing
    case _ => false
  }

  // user code sends or reads, and the poller does not notice
  ghost predicate BytesOnly(m: C.Machine, x: C.Event) {
    x.Retrieve? || (x.Send? && After(m, x).v.writing == m.v.writing)
  }

  ghost predicate Tells(s: Server, run: seq<Step>, c: Id, m: C.Machine, events: seq<C.Event>)
    requires Possible(s, run)
    decreases |run| + |events|
  {
    || (run == [] && events == [])
    || (events != [] && c in s.conns && BytesOnly(m, events[0]) && Tells(s, run, c, After(m, events[0]), events[1..]))
    || (run != [] && !Concerns(s, run[0], c) && Tells(Next(s, run[0]), run[1..], c, m, events))
    || (run != [] && events != [] && Concerns(s, run[0], c) && Shows(s, run[0], c, m, events[0])
        && Tells(Next(s, run[0]), run[1..], c, After(m, events[0]), events[1..]))
  }

  // ---------------------------------------------------------------- what the machine does

  lemma MachineDrains(m: C.Machine, x: C.Event)
    requires C.Inv(m) && m.todo != [] && m.todo[0] == C.OnWrite && m.v.writing
    requires x.Next? && x.w.Count(|m.v.output|) == |m.v.output|
    ensures var n := C.Step(m, x);
            && n.todo == m.todo[1..] && n.v.state == m.v.state && n.v.index == IndexAfter(m.v.index, !m.v.reading)
            && n.v.reading == m.v.reading && !n.v.writing
  {
  }

  lemma MachinePasses(m: C.Machine, x: C.Event)
    requires m.todo != [] && m.todo[0] != C.OnClose && x.Next?
    requires m.todo[0] == C.OnRead ==> x.r != END_OF_STREAM
    requires m.todo[0] == C.OnWrite && m.v.writing ==> x.w.Count(|m.v.output|) < |m.v.output|
    ensures var n := C.Step(m, x);
            && n.todo == m.todo[1..] && n.v.state == m.v.state && n.v.index == m.v.index
            && n.v.reading == m.v.reading && n.v.writing == m.v.writing
  {
    assert x.r.ReadBytes? && x.r.bytes == [] ==> x.r == END_OF_STREAM;
  }

  lemma MachineCloses(m: C.Machine, x: C.Event)
    requires m.todo != [] && x.Next? && (m.todo[0] == C.OnClose || (m.todo[0] == C.OnRead && x.r == END_OF_STREAM))
    ensures var n := C.Step(m, x);
            && n.todo == m.todo[1..] && n.v.state == C.Disconnected && n.v.index == IndexAfter(m.v.index, true)
            && !n.v.reading && !n.v.writing
  {
  }

  lemma MachineBuffers(m: C.Machine, x: C.Event)
    requires C.Inv(m) && m.v.state == C.Connected && x.Send? && C.Step(m, x).v.writing
    ensures var n := C.Step(m, x);
            n.todo == m.todo && n.v.state == m.v.state && n.v.index == m.v.index && n.v.reading
  {
  }

  lemma MachineIsDestroyed(m: C.Machine)
    requires C.Inv(m) && m.v.state == C.Disconnected && m.todo == []
    ensures C.Enabled(m, C.Destroy) && C.Step(m, C.Destroy) == m.(v := m.v.(index := New))
  {
  }

  lemma MachineUnnoticed(m: C.Machine, x: C.Event)
    requires BytesOnly(m, x)
    ensures C.Enabled(m, x)
    ensures var n := C.Step(m, x);
            && n.todo == m.todo && n.v.state == m.v.state && n.v.index == m.v.index
            && n.v.reading == m.v.reading && n.v.writing == m.v.writing
  {
  }

  // ---------------------------------------------------------------- one step

  // the step's event is one the machine can make, with the same effect
  ghost predicate Follows(s: Server, e: Step, c: Id, m: C.Machine, x: C.Event)
    requires Typed(s) && Enabled(s, e)
  {
    if Concerns(s, e, c) then Shows(s, e, c, m, x) ==> C.Enabled(m, x) && Matches(Next(s, e), c, C.Step(m, x))
    else Matches(Next(s, e), c, m)
  }

  // a step that leaves c's record and its handler alone
  lemma Unaffected(s: Server, t: Server, c: Id, m: C.Machine)
    requires Matches(s, c, m) && Typed(s) && |t.loops| == |s.loops|
    requires c in s.conns <==> c in t.conns
    requires c in s.conns ==> t.conns[c] == s.conns[c] && Waiting(t, c) == Waiting(s, c)
    ensures Matches(t, c, m)
  {
  }

  lemma QueuedFollows(s: Server, l: nat, f: Functor, c: Id, m: C.Machine)
    requires Typed(s) && l < |s.loops| && Matches(s, c, m)
    ensures Matches(Push(s, l, f), c, m)
  {
    Unaffected(s, Push(s, l, f), c, m);
  }

  lemma RemovedFollows(s: Server, d: Id, c: Id, m: C.Machine)
    requires Typed(s) && Matches(s, c, m) && d in s.conns
    ensures Matches(RemoveConnectionInLoop(s, d), c, m)
  {
    Unaffected(s, RemoveConnectionInLoop(s, d), c, m);
  }

  lemma EstablishedFollows(s: Server, d: Id, c: Id, m: C.Machine)
    requires Typed(s) && Matches(s, c, m) && C.Inv(m) && d in s.conns && Waiting(s, d) == []
    requires s.conns[d].state == C.Connecting && s.conns[d].index == New
    ensures c == d ==> C.Enabled(m, C.Establish)
    ensures Matches(ConnectEstablished(s, d), c, if c == d then C.Step(m, C.Establish) else m)
  {
    hide UpdateChannel, TypedLoop;
  }

  lemma DestroyedFollows(s: Server, d: Id, c: Id, m: C.Machine)
    requires Typed(s) && Matches(s, c, m) && C.Inv(m) && d in s.conns && Waiting(s, d) == []
    requires s.conns[d].state == C.Disconnected
    ensures c == d ==> C.Enabled(m, C.Destroy)
    ensures Matches(ConnectDestroyed(s, d), c, if c == d then C.Step(m, C.Destroy) else m)
  {
    hide UpdateChannel, RemoveChannel, ConnectDestroyed, TypedLoop, C.Inv;
    DestroyIsSetConn(s, d);
    if c == d {
      MachineIsDestroyed(m);
    }
  }

  // the new connection is the machine before its first event; no handler is running for it
  lemma NewFollows(s: Server, fd: int, c: Id, m: C.Machine)
    requires Inv(s, Empty) && s.nextConnId < MAX_INT && Matches(s, c, m)
    ensures var t := NewConnection(s, fd);
            && Typed(t) && s.nextConnId in t.conns && t.conns[s.nextConnId].loop < |t.loops|
            && t.conns[s.nextConnId].state == C.Connecting && t.conns[s.nextConnId].index == New
            && (t.conns[s.nextConnId].loop == 0 <==> s.subLoops == 0)
            && Matches(t, c, m) && Waiting(t, s.nextConnId) == []
  {
    hide ConnName, Assigned, FdsOk, TicketsOk, PollersOk, ConnsOk, RegistryOk, Held;
    NewTyped(s, fd);
    var l := if s.subLoops == 0 then 0 else 1 + s.nextLoop;
    LoopParts(s, l);
  }

  lemma AcceptFollows(s: Server, fd: int, c: Id, m: C.Machine, x: C.Event)
    requires Inv(s, Empty) && Enabled(s, Accept(fd)) && Matches(s, c, m) && C.Inv(m)
    ensures Follows(s, Accept(fd), c, m, x)
  {
    hide Numbered, RegistryOk, ConnsOk, PollersOk, PhasesOk, FdsOk, TicketsOk, HoldsLess, Held, NewConnection,
      ConnectEstablished, Push, TypedLoop, C.Inv, C.Step, C.Enabled, Waiting;
    var t := SetPhase(s, 0, Dispatching(s.loops[0].phase.todo[1..], NoGuard));
    SkipKeeps(s, 0, NoGuard);
    assert Matches(t, c, m) by { SkipFollows(s, c, m); }
    NewFollows(t, fd, c, m);
    AcceptTyped(s, fd);
    var u := NewConnection(t, fd);
    if s.subLoops == 0 {
      EstablishedFollows(u, s.nextConnId, c, m);
    } else {
      QueuedFollows(u, u.conns[s.nextConnId].loop, Established(s.nextConnId), c, m);
    }
  }

  lemma SkipFollows(s: Server, c: Id, m: C.Machine)
    requires Typed(s) && s.loops[0].phase.Dispatching? && s.loops[0].phase.guard == NoGuard && s.loops[0].phase.todo != []
    requires Matches(s, c, m)
    ensures Matches(SetPhase(s, 0, Dispatching(s.loops[0].phase.todo[1..], NoGuard)), c, m)
  {
    Unaffected(s, SetPhase(s, 0, Dispatching(s.loops[0].phase.todo[1..], NoGuard)), c, m);
  }

  lemma BeginFollows(s: Server, l: nat, revents: Mask, c: Id, m: C.Machine, x: C.Event)
    requires Inv(s, Empty) && Enabled(s, BeginHandle(l, revents)) && Matches(s, c, m)
    ensures Follows(s, BeginHandle(l, revents), c, m, x)
  {
    hide Inv, Held, C.Callbacks;
    LoopParts(s, l);
    var d := s.loops[l].phase.todo[0].c;
    WaitingIsOpen(s, l, d);
  }

  lemma CloserRegistered(s: Server, l: nat)
    requires Inv(s, Empty) && Enabled(s, Close(l))
    ensures var d := s.loops[l].phase.guard.c; d in s.conns && s.conns[d].loop == l && s.conns[d].index == Added
  {
    hide FdsOk, TicketsOk, PollersOk, RegistryOk, Numbered, Held;
    LoopParts(s, l);
    CloserIsOpen(s, l);
    OpenConn(s, s.loops[l].phase.guard.c);
  }

  lemma HandleCloseFollows(s: Server, l: nat, c: Id, m: C.Machine, x: C.Event)
    requires Typed(s) && Enabled(s, Close(l)) && Matches(s, c, m)
    requires var d := s.loops[l].phase.guard.c; s.conns[d].loop == l && s.conns[d].index == Added
    requires Concerns(s, Close(l), c) ==> Shows(s, Close(l), c, m, x)
    ensures var d := s.loops[l].phase.guard.c;
            var t := HandleClose(Called(s, l), d);
            && Typed(t) && d in t.conns && (c == d ==> C.Enabled(m, x))
            && Matches(t, c, if c == d then C.Step(m, x) else m)
  {
    hide UpdateChannel, C.Step;
    var d := s.loops[l].phase.guard.c;
    CalledTyped(s, l);
    var t := HandleClose(Called(s, l), d);
    if c == d {
      MachineCloses(m, x);
    } else {
      assert Matches(t, c, m);
    }
  }

  lemma CloseFollows(s: Server, l: nat, c: Id, m: C.Machine, x: C.Event)
    requires Inv(s, Empty) && Enabled(s, Close(l)) && Matches(s, c, m)
    ensures Follows(s, Close(l), c, m, x)
  {
    hide Numbered, RegistryOk, ConnsOk, PollersOk, PhasesOk, FdsOk, TicketsOk, Held, HandleClose, C.Step, C.Enabled,
      Matches, Push, RemoveConnectionInLoop;
    CloserRegistered(s, l);
    if Concerns(s, Close(l), c) ==> Shows(s, Close(l), c, m, x) {
      var d := s.loops[l].phase.guard.c;
      CalledTyped(s, l);
      var t := HandleClose(Called(s, l), d);
      HandleCloseFollows(s, l, c, m, x);
      var m1 := if c == d then C.Step(m, x) else m;
      if l == 0 {
        RemovedFollows(t, d, c, m1);
      } else {
        QueuedFollows(t, 0, RemoveInLoop(d), c, m1);
      }
    }
  }

  lemma WriterRegistered(s: Server, l: nat)
    requires Inv(s, Empty) && Enabled(s, Drain(l))
    ensures var d := s.loops[l].phase.guard.c; s.conns[d].loop == l && s.conns[d].index == Added
  {
    hide FdsOk, TicketsOk, PollersOk, RegistryOk, Numbered, Held;
    LoopParts(s, l);
    WritingIsOpen(s, s.loops[l].phase.guard.c);
    OpenConn(s, s.loops[l].phase.guard.c);
  }

  lemma DrainFollows(s: Server, l: nat, c: Id, m: C.Machine, x: C.Event)
    requires Inv(s, Empty) && Enabled(s, Drain(l)) && Matches(s, c, m) && C.Inv(m)
    ensures Follows(s, Drain(l), c, m, x)
  {
    hide Numbered, RegistryOk, ConnsOk, PollersOk, PhasesOk, FdsOk, TicketsOk, Held, UpdateChannel, C.Inv, C.Step;
    CalledTyped(s, l);
    WriterRegistered(s, l);
    if Concerns(s, Drain(l), c) && Shows(s, Drain(l), c, m, x) {
      MachineDrains(m, x);
    }
  }

  lemma PassFollows(s: Server, l: nat, c: Id, m: C.Machine, x: C.Event)
    requires Typed(s) && Inv(s, Empty) && Enabled(s, Pass(l)) && Matches(s, c, m)
    ensures Follows(s, Pass(l), c, m, x)
  {
    hide Inv, C.Step;
    LoopParts(s, l);
    if Concerns(s, Pass(l), c) && Shows(s, Pass(l), c, m, x) {
      MachinePasses(m, x);
    }
  }

  lemma ExecFollows(s: Server, l: nat, f: Functor, c: Id, m: C.Machine)
    requires Inv(s, InHand(l, f)) && l < |s.loops| && s.loops[l].phase.Running? && Matches(s, c, m) && C.Inv(m)
    ensures f == Established(c) ==> C.Enabled(m, C.Establish) && Matches(Exec(s, f), c, C.Step(m, C.Establish))
    ensures f == Destroyed(c) ==> C.Enabled(m, C.Destroy) && Matches(Exec(s, f), c, C.Step(m, C.Destroy))
    ensures f !in {Established(c), Destroyed(c)} ==> Matches(Exec(s, f), c, m)
  {
    hide Numbered, RegistryOk, ConnsOk, PollersOk, PhasesOk, FdsOk, TicketsOk, Held, HandOk, ConnectEstablished,
      ConnectDestroyed, RemoveConnectionInLoop, C.Inv, C.Step, C.Enabled, TypedLoop, Matches, InRegistry;
    TicketInHand(s, l, f);
    match f
    case Established(d) => EstablishedFollows(s, d, c, m);
    case Destroyed(d) => DestroyedFollows(s, d, c, m);
    case RemoveInLoop(d) => RemovedFollows(s, d, c, m);
    case Callback(_) =>
  }

  lemma RunFunctorFollows(s: Server, l: nat, c: Id, m: C.Machine, x: C.Event)
    requires Inv(s, Empty) && Enabled(s, RunFunctor(l)) && Matches(s, c, m) && C.Inv(m)
    ensures Follows(s, RunFunctor(l), c, m, x)
  {
    hide Numbered, RegistryOk, ConnsOk, PollersOk, PhasesOk, FdsOk, TicketsOk, Held, HoldsLess, Exec, C.Inv, C.Step,
      C.Enabled, HandOk, Matches;
    var batch, next := s.loops[l].phase.batch, s.loops[l].phase.next;
    var t := SetPhase(s, l, Running(batch, next + 1));
    TakeFunctor(s, l);
    assert Matches(t, c, m) by { RunningFollows(s, l, next + 1, c, m); }
    if !batch[next].Callback? {
      ExecFollows(t, l, batch[next], c, m);
    } else {
      assert Exec(t, batch[next]) == t by { CallbackDoesNothing(t, batch[next]); }
    }
  }

  lemma RunningFollows(s: Server, l: nat, next: nat, c: Id, m: C.Machine)
    requires Typed(s) && l < |s.loops| && s.loops[l].phase.Running? && Matches(s, c, m)
    ensures Matches(SetPhase(s, l, Running(s.loops[l].phase.batch, next)), c, m)
  {
    Unaffected(s, SetPhase(s, l, Running(s.loops[l].phase.batch, next)), c, m);
  }

  lemma CallbackDoesNothing(s: Server, f: Functor)
    requires Typed(s) && f.Callback? && f.c in s.conns
    ensures Exec(s, f) == s
  {
  }

  lemma StartWritingFollows(s: Server, l: nat, c: Id, d: Id, m: C.Machine, x: C.Event)
    requires Inv(s, Empty) && Enabled(s, StartWriting(l, d)) && Matches(s, c, m) && C.Inv(m)
    ensures Follows(s, StartWriting(l, d), c, m, x)
  {
    hide Inv, Held, UpdateChannel, C.Inv, C.Step;
    OpenConn(s, d);
    if c == d && x.Send? && After(m, x).v.writing {
      MachineBuffers(m, x);
    }
  }

  lemma ShutdownFollows(s: Server, l: nat, c: Id, d: Id, m: C.Machine, x: C.Event)
    requires Typed(s) && Enabled(s, Shutdown(l, d)) && Matches(s, c, m)
    ensures Follows(s, Shutdown(l, d), c, m, x)
  {
    hide Held, TypedLoop;
  }

  // a loop goes from polling to dispatching to running and on, between handlers
  lemma PhaseFollows(s: Server, e: Step, c: Id, m: C.Machine, x: C.Event)
    requires Typed(s) && Enabled(s, e) && Matches(s, c, m)
    requires e.PollReturn? || e.AcceptNone? || e.EndHandle? || e.Swap? || e.EndBatch?
    ensures Follows(s, e, c, m, x)
  {
    hide Held, TypedLoop, Accepted, Closed, SetEvents, Exec, Push;
    Unaffected(s, Next(s, e), c, m);
  }

  // user code touches no record
  lemma UserFollows(s: Server, e: Step, c: Id, m: C.Machine, x: C.Event)
    requires Typed(s) && Enabled(s, e) && Matches(s, c, m)
    requires e.QueueCallback? || e.Keep? || e.Drop?
    ensures Follows(s, e, c, m, x)
  {
    hide Held, TypedLoop, Accepted, Closed, SetEvents, Exec, Push;
    if e.QueueCallback? {
      QueuedFollows(s, e.l, Callback(e.c), c, m);
    } else {
      Unaffected(s, Next(s, e), c, m);
    }
  }

  /** Each step of the server is for each connection no event of the machine, or one that the machine can make and that
      has the same effect on its state, registration, interest and pending callbacks, whatever bytes go with it. */
  lemma StepFollows(s: Server, e: Step, c: Id, m: C.Machine, x: C.Event)
    requires Typed(s) && Inv(s, Empty) && Enabled(s, e) && Matches(s, c, m) && C.Inv(m)
    ensures Follows(s, e, c, m, x)
  {
    hide Inv, C.Inv, Follows, Matches, Typed, Enabled;
    match e
    case Accept(fd) => AcceptFollows(s, fd, c, m, x);
    case BeginHandle(l, revents) => BeginFollows(s, l, revents, c, m, x);
    case Close(l) => CloseFollows(s, l, c, m, x);
    case Drain(l) => DrainFollows(s, l, c, m, x);
    case Pass(l) => PassFollows(s, l, c, m, x);
    case RunFunctor(l) => RunFunctorFollows(s, l, c, m, x);
    case StartWriting(l, d) => StartWritingFollows(s, l, c, d, m, x);
    case Shutdown(l, d) => ShutdownFollows(s, l, c, d, m, x);
    case QueueCallback(_, _) => UserFollows(s, e, c, m, x);
    case Keep(_) => UserFollows(s, e, c, m, x);
    case Drop(_) => UserFollows(s, e, c, m, x);
    case _ => PhaseFollows(s, e, c, m, x);
  }

  lemma UnnoticedFollows(s: Server, c: Id, m: C.Machine, x: C.Event)
    requires c in s.conns && Matches(s, c, m) && BytesOnly(m, x)
    ensures C.Enabled(m, x) && Matches(s, c, C.Step(m, x))
  {
    hide C.Step, BytesOnly;
    MachineUnnoticed(m, x);
  }

  // ---------------------------------------------------------------- any run

  lemma {:induction false} TellingFollows(s: Server, run: seq<Step>, c: Id, m: C.Machine, events: seq<C.Event>)
    requires Inv(s, Empty) && Possible(s, run) && Matches(s, c, m) && C.Inv(m) && Tells(s, run, c, m, events)
    ensures C.Possible(m, events) && Matches(Run(s, run), c, C.Run(m, events))
    decreases |run| + |events|
  {
    hide Inv, Next, Enabled, Typed, HoldsLess, C.Inv, C.Step, C.Enabled, Matches, Concerns, Shows, BytesOnly;
    if run == [] && events == [] {
    } else if events != [] && c in s.conns && BytesOnly(m, events[0]) && Tells(s, run, c, After(m, events[0]), events[1..]) {
      UnnoticedFollows(s, c, m, events[0]);
      C.StepKeepsInv(m, events[0]);
      TellingFollows(s, run, c, After(m, events[0]), events[1..]);
    } else {
      StepKeeps(s, run[0]);
      if !Concerns(s, run[0], c) {
        StepFollows(s, run[0], c, m, C.Shutdown);
        TellingFollows(Next(s, run[0]), run[1..], c, m, events);
      } else {
        StepFollows(s, run[0], c, m, events[0]);
        C.StepKeepsInv(m, events[0]);
        TellingFollows(Next(s, run[0]), run[1..], c, After(m, events[0]), events[1..]);
      }
    }
  }

  /** Any run of the server, told for one connection with any bytes, is a possible run of the connection machine, and ends
      with the same state, registration, interest, pending callbacks, and UPs and DOWNs. */
  lemma ServerRunIsConnectionRun(name: string, ipPort: string, subLoops: nat, run: seq<Step>, c: Id, config: C.Config,
                                 events: seq<C.Event>)
    requires |ipPort| <= 21 && Possible(Start(name, ipPort, subLoops), run)
    requires Tells(Start(name, ipPort, subLoops), run, c, C.Start(config), events)
    ensures var s := Run(Start(name, ipPort, subLoops), run);
            && C.Possible(C.Start(config), events)
            && Matches(s, c, C.Run(C.Start(config), events))
            && (c in s.conns ==> C.UpsAndDowns(C.Run(C.Start(config), events).v.upcalls) == s.conns[c].log)
  {
    hide Tells;
    var start := Start(name, ipPort, subLoops);
    StartInv(name, ipPort, subLoops);
    C.StartInv(config);
    TellingFollows(start, run, c, C.Start(config), events);
    RunKeeps(start, run);
    C.RunKeepsInv(C.Start(config), events);
    if c in Run(start, run).conns {
      assert ConnOk(Run(start, run), c);
    }
  }

  /** So for every connection of every server run the bytes given to the kernel and those buffered are what was
      accepted, in order, exactly when no fault met a direct write, and the write side is shut once with nothing left. */
  lemma ServerConnectionStream(name: string, ipPort: string, subLoops: nat, run: seq<Step>, c: Id, config: C.Config,
                               events: seq<C.Event>)
    requires |ipPort| <= 21 && Possible(Start(name, ipPort, subLoops), run)
    requires Tells(Start(name, ipPort, subLoops), run, c, C.Start(config), events)
    ensures C.Possible(C.Start(config), events)
    ensures var v := C.Run(C.Start(config), events).v;
            && (v.delivered + v.output == ConnectionTheorems.Accepted(C.Start(config), events)
                <==> ConnectionTheorems.Faultless(C.Start(config), events))
            && v.fins <= 1 && (v.fins == 1 ==> v.delivered == C.Kept(v.sends))
  {
    hide Tells;
    ServerRunIsConnectionRun(name, ipPort, subLoops, run, c, config, events);
    ConnectionTheorems.OutputStream(config, events);
    ConnectionTheorems.HalfClose(config, events, []);
  }

  // ---------------------------------------------------------------- every run can be told

  // a choice of bytes: nothing is read, and the kernel takes all or nothing
  ghost function Simplest(s: Server, e: Step, c: Id, m: C.Machine): C.Event
    requires Typed(s) && Enabled(s, e) && Concerns(s, e, c)
  {
    match e
    case Accept(_) => C.Establish
    case BeginHandle(_, revents) => C.Dispatch(revents)
    case Close(_) => C.Next(END_OF_STREAM, WOULD_BLOCK)
    case Drain(_) => C.Next(NOT_READ, C.WriteResult(|m.v.output|, 0))
    case Pass(_) => C.Next(NOT_READ, WOULD_BLOCK)
    case RunFunctor(l) => if s.loops[l].phase.batch[s.loops[l].phase.next] == Established(c) then C.Establish else C.Destroy
    case StartWriting(_, _) => C.Send([0], WOULD_BLOCK)
    case _ => C.Shutdown
  }

  lemma SimplestShows(s: Server, e: Step, c: Id, m: C.Machine)
    requires Typed(s) && Enabled(s, e) && Concerns(s, e, c) && Matches(s, c, m)
    ensures Shows(s, e, c, m, Simplest(s, e, c, m))
  {
    hide Held, TypedLoop, Waiting;
  }

  ghost function Telling(s: Server, run: seq<Step>, c: Id, m: C.Machine): seq<C.Event>
    requires Possible(s, run)
    decreases run
  {
    if run == [] then []
    else if !Concerns(s, run[0], c) then Telling(Next(s, run[0]), run[1..], c, m)
    else
      var x := Simplest(s, run[0], c, m);
      [x] + Telling(Next(s, run[0]), run[1..], c, After(m, x))
  }

  /** Every run of the server can be told for every connection. */
  lemma {:induction false} EveryRunIsTold(s: Server, run: seq<Step>, c: Id, m: C.Machine)
    requires Inv(s, Empty) && Possible(s, run) && Matches(s, c, m) && C.Inv(m)
    ensures Tells(s, run, c, m, Telling(s, run, c, m))
    decreases run
  {
    hide Inv, Next, Enabled, Typed, HoldsLess, C.Inv, C.Step, C.Enabled, Matches, Concerns, Shows, BytesOnly, Simplest;
    if run == [] {
    } else {
      StepKeeps(s, run[0]);
      if !Concerns(s, run[0], c) {
        StepFollows(s, run[0], c, m, C.Shutdown);
        EveryRunIsTold(Next(s, run[0]), run[1..], c, m);
      } else {
        var x := Simplest(s, run[0], c, m);
        SimplestShows(s, run[0], c, m);
        StepFollows(s, run[0], c, m, x);
        C.StepKeepsInv(m, x);
        EveryRunIsTold(Next(s, run[0]), run[1..], c, After(m, x));
        assert Telling(s, run, c, m)[1..] == Telling(Next(s, run[0]), run[1..], c, After(m, x));
      }
    }
  }
}
