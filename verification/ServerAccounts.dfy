/** What the server does with what it is given: every channel that poll reports is taken up, every callback that the
    returned events ask for is made on the connection they are for, every functor that is queued runs, all in
    order; every accept makes one connection; and no loop is ever without a next step. */
module ServerAccounts {
  import opened Epoll
  import opened LoopPool
  import opened Sequences
  import opened ServerLifetime
  import opened ServerInvariant
  import opened ServerTheorems
  import C = Connection

  // ---------------------------------------------------------------- what a step does to the loops

  // which functor a step queues on loop l: only an event loop's own thread runs one at once
  ghost function Queued(s: Server, e: Step, l: nat): seq<Functor>
    requires Typed(s) && Enabled(s, e)
  {
    match e
    case Accept(_) => if s.subLoops > 0 && l == 1 + s.nextLoop then [Established(s.nextConnId)] else []
    case Close(k) =>
      var c := s.loops[k].phase.guard.c;
      if k != 0 then if l == 0 then [RemoveInLoop(c)] else []
      else if l == s.conns[c].loop then [Destroyed(c)] else []
    case RunFunctor(k) =>
      var f := s.loops[k].phase.batch[s.loops[k].phase.next];
      if f.RemoveInLoop? && l == s.conns[f.c].loop then [Destroyed(f.c)] else []
    case QueueCallback(k, c) => if l == k then [Callback(c)] else []
    case _ => []
  }

  lemma AcceptLoops(s: Server, fd: int, l: nat)
    requires Typed(s) && Enabled(s, Accept(fd)) && l < |s.loops|
    ensures var t := Next(s, Accept(fd));
            && |t.loops| == |s.loops| && t.loops[l].queue == s.loops[l].queue + Queued(s, Accept(fd), l)
            && t.loops[l].phase == if l == 0 then Dispatching(s.loops[0].phase.todo[1..], NoGuard) else s.loops[l].phase
  {
    hide ConnName, Assigned, UpdateChannel, TypedLoop, Held;
    AcceptTyped(s, fd);
  }

  lemma CloseLoops(s: Server, k: nat, l: nat)
    requires Typed(s) && Enabled(s, Close(k)) && l < |s.loops|
    ensures var t := Next(s, Close(k));
            && |t.loops| == |s.loops| && t.loops[l].queue == s.loops[l].queue + Queued(s, Close(k), l)
            && t.loops[l].phase == Called(s, k).loops[l].phase
  {
    hide UpdateChannel, TypedLoop, Held;
    CalledTyped(s, k);
  }

  lemma ExecLoops(s: Server, f: Functor, l: nat)
    requires Typed(s) && f.c in s.conns && l < |s.loops|
    ensures var t := Exec(s, f);
            && |t.loops| == |s.loops| && t.loops[l].phase == s.loops[l].phase
            && t.loops[l].queue == s.loops[l].queue
               + if f.RemoveInLoop? && l == s.conns[f.c].loop then [Destroyed(f.c)] else []
  {
    hide UpdateChannel, RemoveChannel, TypedLoop;
  }

  lemma RunFunctorLoops(s: Server, k: nat, l: nat)
    requires Typed(s) && Enabled(s, RunFunctor(k)) && l < |s.loops|
    ensures var t := Next(s, RunFunctor(k));
            && |t.loops| == |s.loops| && t.loops[l].queue == s.loops[l].queue + Queued(s, RunFunctor(k), l)
            && t.loops[l].phase == if l == k then Running(s.loops[k].phase.batch, s.loops[k].phase.next + 1) else s.loops[l].phase
  {
    hide Exec, Held;
    var batch, next := s.loops[k].phase.batch, s.loops[k].phase.next;
    PhaseTyped(s, k, Running(batch, next + 1));
    ExecLoops(SetPhase(s, k, Running(batch, next + 1)), batch[next], l);
  }

  lemma DrainLoops(s: Server, k: nat, l: nat)
    requires Typed(s) && Enabled(s, Drain(k)) && l < |s.loops|
    ensures var t := Next(s, Drain(k));
            |t.loops| == |s.loops| && t.loops[l].queue == s.loops[l].queue && t.loops[l].phase == Called(s, k).loops[l].phase
  {
    hide UpdateChannel, Held;
    CalledTyped(s, k);
  }

  lemma StartWritingLoops(s: Server, k: nat, c: Id, l: nat)
    requires Typed(s) && Enabled(s, StartWriting(k, c)) && l < |s.loops|
    ensures var t := Next(s, StartWriting(k, c));
            |t.loops| == |s.loops| && t.loops[l].queue == s.loops[l].queue && t.loops[l].phase == s.loops[l].phase
  {
    hide UpdateChannel, Held, TypedLoop;
  }

  // ---------------------------------------------------------------- channels reported

  // what poll reports on loop l
  function Reported(e: Step, l: nat): seq<Item> {
    if e.PollReturn? && e.l == l then e.items else []
  }

  // what loop l takes up
  ghost function TakenUp(s: Server, e: Step, l: nat): seq<Item>
    requires Typed(s) && Enabled(s, e)
  {
    match e
    case Accept(_) => if l == 0 then [Acceptor] else []
    case AcceptNone => if l == 0 then [Acceptor] else []
    case BeginHandle(k, _) => if l == k then [s.loops[k].phase.todo[0]] else []
    case _ => []
  }

  function ToDispatch(s: Server, l: nat): seq<Item>
    requires l < |s.loops|
  {
    if s.loops[l].phase.Dispatching? then s.loops[l].phase.todo else []
  }

  ghost function AllReported(run: seq<Step>, l: nat): seq<Item> {
    if run == [] then [] else Reported(run[0], l) + AllReported(run[1..], l)
  }

  ghost function AllTakenUp(s: Server, run: seq<Step>, l: nat): seq<Item>
    requires Possible(s, run)
    decreases run
  {
    if run == [] then [] else TakenUp(s, run[0], l) + AllTakenUp(Next(s, run[0]), run[1..], l)
  }

  lemma StepTakesUp(s: Server, e: Step, l: nat)
    requires Typed(s) && Enabled(s, e) && l < |s.loops|
    ensures |Next(s, e).loops| == |s.loops|
    ensures TakenUp(s, e, l) + ToDispatch(Next(s, e), l) == ToDispatch(s, l) + Reported(e, l)
  {
    hide Next, TypedLoop, Held, Typed, Queued;
    match e
    case Accept(fd) => AcceptLoops(s, fd, l);
    case Close(k) => CloseLoops(s, k, l);
    case RunFunctor(k) => RunFunctorLoops(s, k, l);
    case Drain(k) => DrainLoops(s, k, l);
    case StartWriting(k, c) => StartWritingLoops(s, k, c, l);
    case _ => OtherTakesUp(s, e, l);
  }

  lemma OtherTakesUp(s: Server, e: Step, l: nat)
    requires Typed(s) && Enabled(s, e) && l < |s.loops|
    requires !e.Accept? && !e.Close? && !e.RunFunctor? && !e.Drain? && !e.StartWriting?
    ensures |Next(s, e).loops| == |s.loops|
    ensures TakenUp(s, e, l) + ToDispatch(Next(s, e), l) == ToDispatch(s, l) + Reported(e, l)
  {
    hide Accepted, Closed, Exec, SetEvents, TypedLoop, Held;
  }

  lemma {:induction false} RunTakesUp(s: Server, run: seq<Step>, l: nat)
    requires Typed(s) && Inv(s, Empty) && Possible(s, run) && l < |s.loops|
    ensures |Run(s, run).loops| == |s.loops|
    ensures AllTakenUp(s, run, l) + ToDispatch(Run(s, run), l) == ToDispatch(s, l) + AllReported(run, l)
    decreases run
  {
    hide Inv, Next, Enabled, Typed, HoldsLess, TakenUp, ToDispatch, Reported;
    if run == [] {
    } else {
      var t, rest := Next(s, run[0]), run[1..];
      StepTakesUp(s, run[0], l);
      StepKeeps(s, run[0]);
      assert Typed(t) by { InvTyped(t); }
      RunTakesUp(t, rest, l);
      Carry(TakenUp(s, run[0], l), AllTakenUp(t, rest, l), ToDispatch(Run(t, rest), l),
            ToDispatch(s, l), ToDispatch(t, l), Reported(run[0], l), AllReported(rest, l));
    }
  }

  lemma NothingToDispatch(s: Server, l: nat)
    requires Typed(s) && l < |s.loops| && (s.loops[l].phase == Polling || Enabled(s, Swap(l)))
    ensures ToDispatch(s, l) == []
  {
  }

  lemma InvTyped(s: Server)
    requires Inv(s, Empty)
    ensures Typed(s)
  {
  }

  /** Every channel that poll reports is taken up, once and in order: on every loop, those taken up and those still to be
      dispatched are what poll has reported, so when the loop goes on to its functors all have been taken up. */
  lemma ReportedIsTakenUp(name: string, ipPort: string, subLoops: nat, run: seq<Step>, l: nat)
    requires Possible(Start(name, ipPort, subLoops), run) && l <= subLoops && |ipPort| <= 21
    ensures var start := Start(name, ipPort, subLoops);
            var s := Run(start, run);
            && |s.loops| == subLoops + 1 && Typed(s)
            && AllTakenUp(start, run, l) + ToDispatch(s, l) == AllReported(run, l)
            && (Enabled(s, Swap(l)) ==> AllTakenUp(start, run, l) == AllReported(run, l))
  {
    hide Inv, Next, ToDispatch, TakenUp, Reported;
    var start := Start(name, ipPort, subLoops);
    StartInv(name, ipPort, subLoops);
    RunTakesUp(start, run, l);
    RunKeeps(start, run);
    InvTyped(Run(start, run));
    NothingToDispatch(start, l);
    if Enabled(Run(start, run), Swap(l)) {
      NothingToDispatch(Run(start, run), l);
    }
    assert [] + AllReported(run, l) == AllReported(run, l);
    var taken := AllTakenUp(start, run, l);
    assert taken + [] == taken;
  }

  // ---------------------------------------------------------------- callbacks

  function On(c: Id, callbacks: seq<C.Callback>): seq<(Id, C.Callback)> {
    seq(|callbacks|, i requires 0 <= i < |callbacks| => (c, callbacks[i]))
  }

  // the callbacks that the events of a channel ask for on loop l
  ghost function AskedFor(s: Server, e: Step, l: nat): seq<(Id, C.Callback)>
    requires Typed(s) && Enabled(s, e)
  {
    if e.BeginHandle? && e.l == l then On(s.loops[l].phase.todo[0].c, C.Callbacks(e.revents)) else []
  }

  ghost function Made(s: Server, e: Step, l: nat): seq<(Id, C.Callback)>
    requires Typed(s) && Enabled(s, e)
  {
    if (e.Close? || e.Drain? || e.Pass?) && e.l == l
    then [(s.loops[l].phase.guard.c, s.loops[l].phase.guard.todo[0])] else []
  }

  function ToMake(s: Server, l: nat): seq<(Id, C.Callback)>
    requires l < |s.loops|
  {
    if s.loops[l].phase.Dispatching? && s.loops[l].phase.guard.Guard?
    then On(s.loops[l].phase.guard.c, s.loops[l].phase.guard.todo) else []
  }

  ghost function AllAskedFor(s: Server, run: seq<Step>, l: nat): seq<(Id, C.Callback)>
    requires Possible(s, run)
    decreases run
  {
    if run == [] then [] else AskedFor(s, run[0], l) + AllAskedFor(Next(s, run[0]), run[1..], l)
  }

  ghost function AllMade(s: Server, run: seq<Step>, l: nat): seq<(Id, C.Callback)>
    requires Possible(s, run)
    decreases run
  {
    if run == [] then [] else Made(s, run[0], l) + AllMade(Next(s, run[0]), run[1..], l)
  }

  lemma PassIsCalled(s: Server, k: nat)
    requires Typed(s) && Enabled(s, Pass(k))
    ensures Next(s, Pass(k)) == Called(s, k)
  {
  }

  lemma OnTail(c: Id, callbacks: seq<C.Callback>)
    requires callbacks != []
    ensures [(c, callbacks[0])] + On(c, callbacks[1..]) == On(c, callbacks)
  {
  }

  lemma CallMakes(s: Server, k: nat, l: nat)
    requires Handling(s, k) && l < |s.loops|
    ensures |Called(s, k).loops| == |s.loops|
    ensures (if l == k then [(s.loops[k].phase.guard.c, s.loops[k].phase.guard.todo[0])] else []) + ToMake(Called(s, k), l)
            == ToMake(s, l)
  {
    OnTail(s.loops[k].phase.guard.c, s.loops[k].phase.guard.todo);
  }

  // what is to be made depends on the loop's phase only
  lemma SamePhaseSameCalls(s: Server, t: Server, l: nat)
    requires l < |s.loops| && l < |t.loops| && t.loops[l].phase == s.loops[l].phase
    ensures ToMake(t, l) == ToMake(s, l)
  {
  }

  lemma BeginAsks(s: Server, k: nat, revents: Mask, l: nat)
    requires Inv(s, Empty) && Enabled(s, BeginHandle(k, revents)) && l < |s.loops|
    ensures |Next(s, BeginHandle(k, revents)).loops| == |s.loops|
    ensures ToMake(Next(s, BeginHandle(k, revents)), l) == ToMake(s, l) + AskedFor(s, BeginHandle(k, revents), l)
  {
    hide Inv, Held, C.Callbacks;
    var c := s.loops[k].phase.todo[0].c;
    LoopParts(s, k);
    OpenConn(s, c);
  }

  lemma StepMakes(s: Server, e: Step, l: nat)
    requires Typed(s) && Inv(s, Empty) && Enabled(s, e) && l < |s.loops|
    ensures |Next(s, e).loops| == |s.loops|
    ensures Made(s, e, l) + ToMake(Next(s, e), l) == ToMake(s, l) + AskedFor(s, e, l)
  {
    hide Inv, Next, TypedLoop, Typed, Held, Called, On, C.Callbacks, Queued;
    match e
    case Accept(fd) => AcceptLoops(s, fd, l);
    case Close(k) =>
      CloseLoops(s, k, l);
      CallMakes(s, k, l);
      SamePhaseSameCalls(Called(s, k), Next(s, e), l);
    case RunFunctor(k) => RunFunctorLoops(s, k, l);
    case Drain(k) =>
      DrainLoops(s, k, l);
      CallMakes(s, k, l);
      SamePhaseSameCalls(Called(s, k), Next(s, e), l);
    case StartWriting(k, c) => StartWritingLoops(s, k, c, l);
    case Pass(k) =>
      CallMakes(s, k, l);
      assert Next(s, e) == Called(s, k) by { PassIsCalled(s, k); }
    case BeginHandle(k, revents) => BeginAsks(s, k, revents, l);
    case _ => OtherMakes(s, e, l);
  }

  lemma OtherMakes(s: Server, e: Step, l: nat)
    requires Typed(s) && Enabled(s, e) && l < |s.loops|
    requires !e.Accept? && !e.Close? && !e.RunFunctor? && !e.Drain? && !e.StartWriting? && !e.Pass? && !e.BeginHandle?
    ensures |Next(s, e).loops| == |s.loops|
    ensures Made(s, e, l) + ToMake(Next(s, e), l) == ToMake(s, l) + AskedFor(s, e, l)
  {
    hide Accepted, Closed, Exec, SetEvents, TypedLoop, Held, Called, On;
    if e.EndHandle? {
      assert On(s.loops[e.l].phase.guard.c, []) == [] by { OnNothing(s.loops[e.l].phase.guard.c); }
    }
  }

  lemma OnNothing(c: Id)
    ensures On(c, []) == []
  {
  }

  lemma {:induction false} RunMakes(s: Server, run: seq<Step>, l: nat)
    requires Typed(s) && Inv(s, Empty) && Possible(s, run) && l < |s.loops|
    ensures |Run(s, run).loops| == |s.loops|
    ensures AllMade(s, run, l) + ToMake(Run(s, run), l) == ToMake(s, l) + AllAskedFor(s, run, l)
    decreases run
  {
    hide Inv, Next, Enabled, Typed, HoldsLess, Made, ToMake, AskedFor;
    if run == [] {
    } else {
      var t, rest := Next(s, run[0]), run[1..];
      StepMakes(s, run[0], l);
      StepKeeps(s, run[0]);
      assert Typed(t) by { InvTyped(t); }
      RunMakes(t, rest, l);
      Carry(Made(s, run[0], l), AllMade(t, rest, l), ToMake(Run(t, rest), l),
            ToMake(s, l), ToMake(t, l), AskedFor(s, run[0], l), AllAskedFor(t, rest, l));
    }
  }

  /** Every callback that the returned events ask for is made, once, in order, and on the connection the events were for:
      on every loop, those made and those still to come are what the dispatches have asked for. */
  lemma CallbacksAreMade(name: string, ipPort: string, subLoops: nat, run: seq<Step>, l: nat)
    requires Possible(Start(name, ipPort, subLoops), run) && l <= subLoops && |ipPort| <= 21
    ensures var start := Start(name, ipPort, subLoops);
            var s := Run(start, run);
            |s.loops| == subLoops + 1 && AllMade(start, run, l) + ToMake(s, l) == AllAskedFor(start, run, l)
  {
    var start := Start(name, ipPort, subLoops);
    StartInv(name, ipPort, subLoops);
    RunMakes(start, run, l);
    assert [] + AllAskedFor(start, run, l) == AllAskedFor(start, run, l);
  }

  // ---------------------------------------------------------------- functors

  ghost function Ran(s: Server, e: Step, l: nat): seq<Functor>
    requires Typed(s) && Enabled(s, e)
  {
    if e.RunFunctor? && e.l == l then [s.loops[l].phase.batch[s.loops[l].phase.next]] else []
  }

  ghost function AllRan(s: Server, run: seq<Step>, l: nat): seq<Functor>
    requires Possible(s, run)
    decreases run
  {
    if run == [] then [] else Ran(s, run[0], l) + AllRan(Next(s, run[0]), run[1..], l)
  }

  ghost function AllQueued(s: Server, run: seq<Step>, l: nat): seq<Functor>
    requires Possible(s, run)
    decreases run
  {
    if run == [] then [] else Queued(s, run[0], l) + AllQueued(Next(s, run[0]), run[1..], l)
  }

  function Unrun(phase: Phase): seq<Functor> {
    if phase.Running? && phase.next <= |phase.batch| then phase.batch[phase.next..] else []
  }

  lemma PendingIs(lp: Loop)
    ensures Pending(lp) == Unrun(lp.phase) + lp.queue
  {
  }

  // the phase stays or changes without a functor run, and the queue grows at its end
  lemma QueueGrows(before: Loop, after: Loop, came: seq<Functor>)
    requires Unrun(after.phase) == Unrun(before.phase) && after.queue == before.queue + came
    ensures Pending(after) == Pending(before) + came
  {
  }

  lemma RunFunctorPending(s: Server, k: nat, l: nat)
    requires Typed(s) && Enabled(s, RunFunctor(k)) && l < |s.loops|
    ensures |Next(s, RunFunctor(k)).loops| == |s.loops|
    ensures Ran(s, RunFunctor(k), l) + Pending(Next(s, RunFunctor(k)).loops[l])
            == Pending(s.loops[l]) + Queued(s, RunFunctor(k), l)
  {
    hide Next, Held, Queued, Pending, TypedLoop;
    RunFunctorLoops(s, k, l);
    var lp, came := Next(s, RunFunctor(k)).loops[l], Queued(s, RunFunctor(k), l);
    PendingIs(lp);
    PendingIs(s.loops[l]);
    if l == k {
      var batch, next := s.loops[k].phase.batch, s.loops[k].phase.next;
      assert batch[next..] == [batch[next]] + batch[next + 1..];
      assert [batch[next]] + (batch[next + 1..] + (s.loops[l].queue + came)) == (batch[next..] + s.loops[l].queue) + came;
    } else {
      QueueGrows(s.loops[l], lp, came);
      assert [] + Pending(lp) == Pending(lp);
    }
  }

  lemma CallSamePending(s: Server, k: nat, l: nat)
    requires Handling(s, k) && l < |s.loops|
    ensures Unrun(Called(s, k).loops[l].phase) == Unrun(s.loops[l].phase)
  {
  }

  lemma OtherPending(s: Server, e: Step, l: nat)
    requires Typed(s) && Enabled(s, e) && l < |s.loops|
    requires !e.Accept? && !e.Close? && !e.Drain? && !e.RunFunctor?
    ensures |Next(s, e).loops| == |s.loops| && Pending(Next(s, e).loops[l]) == Pending(s.loops[l]) + Queued(s, e, l)
  {
    hide Accepted, Closed, Exec, TypedLoop, Held, UpdateChannel;
  }

  lemma StepRuns(s: Server, e: Step, l: nat)
    requires Typed(s) && Enabled(s, e) && l < |s.loops|
    ensures |Next(s, e).loops| == |s.loops|
    ensures Ran(s, e, l) + Pending(Next(s, e).loops[l]) == Pending(s.loops[l]) + Queued(s, e, l)
  {
    hide Next, TypedLoop, Held, Called, Pending, Queued, Unrun, Typed;
    if e.RunFunctor? {
      RunFunctorPending(s, e.l, l);
    } else {
      if e.Accept? {
        AcceptLoops(s, e.fd, l);
        AcceptUnrun(s, e.fd, l);
        QueueGrows(s.loops[l], Next(s, e).loops[l], Queued(s, e, l));
      } else if e.Close? {
        CloseLoops(s, e.l, l);
        CallSamePending(s, e.l, l);
        QueueGrows(s.loops[l], Next(s, e).loops[l], Queued(s, e, l));
      } else if e.Drain? {
        DrainLoops(s, e.l, l);
        CallSamePending(s, e.l, l);
        assert Queued(s, e, l) == [] by { DrainQueues(s, e.l, l); }
        assert s.loops[l].queue + [] == s.loops[l].queue;
        QueueGrows(s.loops[l], Next(s, e).loops[l], []);
      } else {
        OtherPending(s, e, l);
      }
      assert [] + Pending(Next(s, e).loops[l]) == Pending(Next(s, e).loops[l]);
    }
  }

  lemma AcceptUnrun(s: Server, fd: int, l: nat)
    requires Typed(s) && Enabled(s, Accept(fd)) && l < |s.loops|
    ensures Unrun(if l == 0 then Dispatching(s.loops[0].phase.todo[1..], NoGuard) else s.loops[l].phase) == Unrun(s.loops[l].phase)
  {
  }

  lemma DrainQueues(s: Server, k: nat, l: nat)
    requires Typed(s) && Enabled(s, Drain(k))
    ensures Queued(s, Drain(k), l) == []
  {
  }

  lemma {:induction false} RunRuns(s: Server, run: seq<Step>, l: nat)
    requires Typed(s) && Inv(s, Empty) && Possible(s, run) && l < |s.loops|
    ensures |Run(s, run).loops| == |s.loops|
    ensures AllRan(s, run, l) + Pending(Run(s, run).loops[l]) == Pending(s.loops[l]) + AllQueued(s, run, l)
    decreases run
  {
    hide Inv, Next, Enabled, Typed, HoldsLess, Ran, Pending, Queued;
    if run == [] {
    } else {
      var t, rest := Next(s, run[0]), run[1..];
      StepRuns(s, run[0], l);
      StepKeeps(s, run[0]);
      assert Typed(t) by { InvTyped(t); }
      RunRuns(t, rest, l);
      Carry(Ran(s, run[0], l), AllRan(t, rest, l), Pending(Run(t, rest).loops[l]),
            Pending(s.loops[l]), Pending(t.loops[l]), Queued(s, run[0], l), AllQueued(t, rest, l));
    }
  }

  /** Every functor that is queued on a loop runs there, once and in order: those run, the rest of the batch and the
      queue are what the steps have queued. A loop's own removal of a connection runs at once; every other
      hand-over between loops, and every connectDestroyed, goes through a queue. */
  lemma QueuedIsRun(name: string, ipPort: string, subLoops: nat, run: seq<Step>, l: nat)
    requires Possible(Start(name, ipPort, subLoops), run) && l <= subLoops && |ipPort| <= 21
    ensures var start := Start(name, ipPort, subLoops);
            var s := Run(start, run);
            |s.loops| == subLoops + 1 && AllRan(start, run, l) + Pending(s.loops[l]) == AllQueued(start, run, l)
  {
    var start := Start(name, ipPort, subLoops);
    StartInv(name, ipPort, subLoops);
    RunRuns(start, run, l);
    assert Pending(start.loops[l]) == [];
    assert [] + AllQueued(start, run, l) == AllQueued(start, run, l);
  }

  // the batches loop l has run to the end
  function Batches(run: seq<Step>, l: nat): nat {
    if run == [] then 0 else (if run[0] == EndBatch(l) then 1 else 0) + Batches(run[1..], l)
  }

  // of the functors loop l has been given, the first `mark` are on their way: `ran` have run and `ended` batches have
  // ended since they were queued
  ghost predicate OnTheWay(lp: Loop, ran: nat, mark: nat, ended: nat) {
    && mark <= ran + |Pending(lp)|
    && (ended == 1 && lp.phase.Running? ==> mark <= ran + |Unrun(lp.phase)|)
    && (ended >= 2 ==> mark <= ran)
  }

  // a swap takes the whole queue; otherwise a batch only shrinks, by what runs
  lemma StepBatch(s: Server, e: Step, l: nat)
    requires Typed(s) && Enabled(s, e) && l < |s.loops|
    ensures |Next(s, e).loops| == |s.loops|
    ensures var before, after := s.loops[l].phase, Next(s, e).loops[l].phase;
            && (e == Swap(l) ==> Unrun(after) == Pending(s.loops[l]))
            && (e != Swap(l) && after.Running? ==> before.Running? && |Ran(s, e, l)| + |Unrun(after)| == |Unrun(before)|)
            && (e == EndBatch(l) ==> before.Running? && Unrun(before) == [] && !after.Running?)
  {
    hide Next, TypedLoop, Held, Typed, Queued;
    match e
    case Accept(fd) => AcceptLoops(s, fd, l);
    case Close(k) => CloseLoops(s, k, l);
    case RunFunctor(k) => RunFunctorLoops(s, k, l);
    case Drain(k) => DrainLoops(s, k, l);
    case StartWriting(k, c) => StartWritingLoops(s, k, c, l);
    case _ => OtherBatch(s, e, l);
  }

  lemma OtherBatch(s: Server, e: Step, l: nat)
    requires Typed(s) && Enabled(s, e) && l < |s.loops|
    requires !e.Accept? && !e.Close? && !e.RunFunctor? && !e.Drain? && !e.StartWriting?
    ensures |Next(s, e).loops| == |s.loops|
    ensures var before, after := s.loops[l].phase, Next(s, e).loops[l].phase;
            && (e == Swap(l) ==> Unrun(after) == Pending(s.loops[l]))
            && (e != Swap(l) && after.Running? ==> before == after)
            && (e == EndBatch(l) ==> before.Running? && Unrun(before) == [] && !after.Running?)
  {
    hide Accepted, Closed, Exec, SetEvents, TypedLoop, Held;
  }

  lemma StepOnTheWay(s: Server, e: Step, l: nat, ran: nat, mark: nat, ended: nat)
    requires Typed(s) && Enabled(s, e) && l < |s.loops| && OnTheWay(s.loops[l], ran, mark, ended)
    ensures |Next(s, e).loops| == |s.loops|
    ensures OnTheWay(Next(s, e).loops[l], ran + |Ran(s, e, l)|, mark, ended + if e == EndBatch(l) then 1 else 0)
  {
    hide Next, Typed, Enabled, Queued, Unrun, Pending;
    StepRuns(s, e, l);
    StepBatch(s, e, l);
    assert |Ran(s, e, l) + Pending(Next(s, e).loops[l])| >= |Pending(s.loops[l])|;
    PendingIs(s.loops[l]);
    assert e == Swap(l) ==> Ran(s, e, l) == [];
    assert e == EndBatch(l) ==> Ran(s, e, l) == [];
  }

  lemma {:induction false} RunOnTheWay(s: Server, run: seq<Step>, l: nat, ran: nat, mark: nat, ended: nat)
    requires Typed(s) && Inv(s, Empty) && Possible(s, run) && l < |s.loops| && OnTheWay(s.loops[l], ran, mark, ended)
    ensures |Run(s, run).loops| == |s.loops|
    ensures OnTheWay(Run(s, run).loops[l], ran + |AllRan(s, run, l)|, mark, ended + Batches(run, l))
    decreases run
  {
    hide Inv, Next, Enabled, Typed, HoldsLess, Ran, OnTheWay;
    if run == [] {
    } else {
      var t := Next(s, run[0]);
      StepOnTheWay(s, run[0], l, ran, mark, ended);
      StepKeeps(s, run[0]);
      assert Typed(t) by { InvTyped(t); }
      RunOnTheWay(t, run[1..], l, ran + |Ran(s, run[0], l)|, mark, ended + if run[0] == EndBatch(l) then 1 else 0);
    }
  }

  /** Two more batches are enough: everything that was queued on a loop by some moment has run there by the time the loop
      has come to the end of two further batches, whatever is queued in between. */
  lemma TwoBatchesRunEverything(name: string, ipPort: string, subLoops: nat, before: seq<Step>, after: seq<Step>, l: nat)
    requires |ipPort| <= 21 && l <= subLoops && Possible(Start(name, ipPort, subLoops), before)
    requires Possible(Run(Start(name, ipPort, subLoops), before), after) && Batches(after, l) >= 2
    ensures var start := Start(name, ipPort, subLoops);
            |AllQueued(start, before, l)| <= |AllRan(start, before, l)| + |AllRan(Run(start, before), after, l)|
  {
    hide Inv, Next, Enabled, Pending, Unrun;
    var start := Start(name, ipPort, subLoops);
    QueuedIsRun(name, ipPort, subLoops, before, l);
    StartInv(name, ipPort, subLoops);
    RunKeeps(start, before);
    var s := Run(start, before);
    InvTyped(s);
    assert |AllRan(start, before, l) + Pending(s.loops[l])| == |AllQueued(start, before, l)|;
    RunOnTheWay(s, after, l, |AllRan(start, before, l)|, |AllQueued(start, before, l)|, 0);
  }

  // ---------------------------------------------------------------- connections

  // the fds the run has accepted
  function Fds(run: seq<Step>): seq<int> {
    if run == [] then [] else Fds(run[..|run| - 1]) + if run[|run| - 1].Accept? then [run[|run| - 1].fd] else []
  }

  lemma {:induction false} FdsAdd(a: seq<Step>, b: seq<Step>)
    ensures Fds(a + b) == Fds(a) + Fds(b)
    decreases b
  {
    if b == [] {
      assert a + b == a;
    } else {
      assert (a + b)[..|a + b| - 1] == a + b[..|b| - 1];
      FdsAdd(a, b[..|b| - 1]);
    }
  }

  // connection c is what the c-th accept has made
  ghost predicate MadeFrom(s: Server, fds: seq<int>) {
    s.nextConnId == |fds| + 1 && forall c :: c in s.conns ==> 1 <= c <= |fds| && s.conns[c].fd == fds[c - 1]
  }

  lemma AcceptMakes(s: Server, fd: int, fds: seq<int>)
    requires Inv(s, Empty) && Enabled(s, Accept(fd)) && MadeFrom(s, fds)
    ensures MadeFrom(Next(s, Accept(fd)), fds + [fd])
  {
    hide ConnName, Assigned, PhasesOk, FdsOk, TicketsOk, PollersOk, ConnsOk, Held, UpdateChannel, TypedLoop;
    AcceptTyped(s, fd);
  }

  lemma StepMakesFrom(s: Server, e: Step, fds: seq<int>)
    requires Inv(s, Empty) && Enabled(s, e) && MadeFrom(s, fds)
    ensures MadeFrom(Next(s, e), fds + if e.Accept? then [e.fd] else [])
  {
    hide Inv, Next, Enabled, Onward;
    if e.Accept? {
      AcceptMakes(s, e.fd, fds);
    } else {
      assert Typed(s) by { InvTyped(s); }
      SameConnections(s, e);
      assert fds + [] == fds;
      forall c | c in Next(s, e).conns
        ensures 1 <= c <= |fds| && Next(s, e).conns[c].fd == fds[c - 1]
      {
        StepOnward(s, e, c);
        assert Next(s, e).conns[c].fd == s.conns[c].fd by { OnwardSameFd(s.conns[c], Next(s, e).conns[c]); }
      }
    }
  }

  lemma OnwardSameFd(k: Connection, k': Connection)
    requires Onward(k, k')
    ensures k'.fd == k.fd
  {
  }

  lemma SameConnections(s: Server, e: Step)
    requires Typed(s) && Enabled(s, e) && !e.Accept?
    ensures Next(s, e).nextConnId == s.nextConnId && Next(s, e).conns.Keys == s.conns.Keys
  {
    hide Accepted, Closed, Exec, UpdateChannel, Held;
    if e.RunFunctor? {
      RunFunctorConnections(s, e.l);
    } else if e.Close? {
      CloseConnections(s, e.l);
    }
  }

  lemma RunFunctorConnections(s: Server, l: nat)
    requires Typed(s) && Enabled(s, RunFunctor(l))
    ensures Next(s, RunFunctor(l)).nextConnId == s.nextConnId && Next(s, RunFunctor(l)).conns.Keys == s.conns.Keys
  {
    hide UpdateChannel, RemoveChannel;
  }

  lemma CloseConnections(s: Server, l: nat)
    requires Typed(s) && Enabled(s, Close(l))
    ensures Next(s, Close(l)).nextConnId == s.nextConnId && Next(s, Close(l)).conns.Keys == s.conns.Keys
  {
    hide UpdateChannel;
    CalledTyped(s, l);
  }

  lemma {:induction false} RunMakesFrom(s: Server, run: seq<Step>, fds: seq<int>)
    requires Inv(s, Empty) && Possible(s, run) && MadeFrom(s, fds)
    ensures MadeFrom(Run(s, run), fds + Fds(run))
    decreases run
  {
    hide Inv, Next, Enabled, Typed, HoldsLess, MadeFrom;
    if run == [] {
      assert fds + [] == fds;
    } else {
      StepMakesFrom(s, run[0], fds);
      StepKeeps(s, run[0]);
      var first := if run[0].Accept? then [run[0].fd] else [];
      RunMakesFrom(Next(s, run[0]), run[1..], fds + first);
      FdsAdd([run[0]], run[1..]);
      assert [run[0]] + run[1..] == run;
      assert Fds([run[0]]) == first by { assert [run[0]][..0] == []; }
      assert (fds + first) + Fds(run[1..]) == fds + (first + Fds(run[1..]));
    }
  }

  /** Every accepted fd becomes one connection: there are as many as accepts, and number c has the fd of the c-th. */
  lemma AcceptedAreConnections(name: string, ipPort: string, subLoops: nat, run: seq<Step>)
    requires |ipPort| <= 21 && Possible(Start(name, ipPort, subLoops), run)
    ensures var s := Run(Start(name, ipPort, subLoops), run);
            && (forall c: nat :: c in s.conns <==> 1 <= c <= |Fds(run)|)
            && (forall c :: c in s.conns ==> s.conns[c].fd == Fds(run)[c - 1])
  {
    var start := Start(name, ipPort, subLoops);
    StartInv(name, ipPort, subLoops);
    RunMakesFrom(start, run, []);
    RunKeeps(start, run);
    assert [] + Fds(run) == Fds(run);
    assert Numbered(Run(start, run));
  }

  // ---------------------------------------------------------------- user pointers

  // whether the user has a pointer to c after the run, given whether before
  function KeepsAfter(kept: bool, run: seq<Step>, c: Id): bool
    decreases run
  {
    if run == [] then kept
    else KeepsAfter(if run[0] == Keep(c) then true else if run[0] == Drop(c) then false else kept, run[1..], c)
  }

  lemma StepUsers(s: Server, e: Step, c: Id)
    requires Typed(s) && Enabled(s, e)
    ensures c in Next(s, e).users <==> e == Keep(c) || (c in s.users && e != Drop(c))
  {
    hide TypedLoop, UpdateChannel, RemoveChannel, Held, ConnName;
  }

  lemma {:induction false} RunUsers(s: Server, run: seq<Step>, c: Id)
    requires Possible(s, run)
    ensures c in Run(s, run).users <==> KeepsAfter(c in s.users, run, c)
    decreases run
  {
    hide Next, Enabled, Typed;
    if run == [] {
    } else {
      StepUsers(s, run[0], c);
      RunUsers(Next(s, run[0]), run[1..], c);
    }
  }

  // ---------------------------------------------------------------- progress

  lemma PollingCanMove(s: Server, l: nat)
    requires Typed(s) && ConnsOk(s) && l < |s.loops| && s.loops[l].phase == Polling
    ensures Enabled(s, PollReturn(l, [])) && (l == 0 ==> Enabled(s, PollReturn(l, [Acceptor])))
    ensures forall c :: c in s.conns && s.conns[c].loop == l && s.conns[c].index == Added ==> Enabled(s, PollReturn(l, [Conn(c)]))
  {
    hide TypedLoop, StateOk;
    forall c | c in s.conns && s.conns[c].loop == l && s.conns[c].index == Added
      ensures Enabled(s, PollReturn(l, [Conn(c)]))
    {
      assert ConnOk(s, c);
      assert s.conns[c].fd in s.loops[l].poller.kernel;
    }
  }

  // the next channel's turn has come
  ghost predicate TurnComes(s: Server, l: nat)
    requires Typed(s) && l < |s.loops| && s.loops[l].phase.Dispatching?
  {
    var todo := s.loops[l].phase.todo;
    if todo == [] then Enabled(s, Swap(l))
    else if todo[0].Conn? then forall revents :: Enabled(s, BeginHandle(l, revents))
    else && l == 0 && Enabled(s, AcceptNone)
         && (forall fd: int :: s.nextConnId < MAX_INT && (forall c :: c in s.conns && Held(s, c) ==> s.conns[c].fd != fd) ==>
               Enabled(s, Accept(fd)))
  }

  lemma DispatchingCanMove(s: Server, l: nat)
    requires Typed(s) && l < |s.loops| && PhaseOk(s.conns, l, s.loops[l].phase)
    requires s.loops[l].phase.Dispatching? && s.loops[l].phase.guard == NoGuard
    ensures TurnComes(s, l)
  {
    hide TypedLoop, Held;
  }

  // the handler of connection c may make its next callback, and user code may run in it
  ghost predicate HandlerGoesOn(s: Server, l: nat, c: Id, calls: seq<C.Callback>)
    requires Typed(s)
  {
    && c in s.conns && Enabled(s, Shutdown(l, c)) && Enabled(s, QueueCallback(l, c))
    && (s.conns[c].state == C.Connected ==> Enabled(s, StartWriting(l, c)))
    && if calls == [] then Enabled(s, EndHandle(l))
       else match calls[0]
            case OnClose => Enabled(s, Close(l))
            case OnError => Enabled(s, Pass(l))
            case OnRead => Enabled(s, Close(l)) && Enabled(s, Pass(l))
            case OnWrite => Enabled(s, Pass(l)) && (s.conns[c].events == READ_WRITE ==> Enabled(s, Drain(l)))
  }

  lemma HandlingCanMove(s: Server, l: nat)
    requires Typed(s) && l < |s.loops| && PhaseOk(s.conns, l, s.loops[l].phase)
    requires s.loops[l].phase.Dispatching? && s.loops[l].phase.guard.Guard?
    ensures HandlerGoesOn(s, l, s.loops[l].phase.guard.c, s.loops[l].phase.guard.todo)
  {
    hide TypedLoop;
    assert LoopHolds(s.loops[l], s.loops[l].phase.guard.c);
  }

  ghost predicate CanMove(s: Server, l: nat)
    requires Typed(s) && l < |s.loops|
  {
    match s.loops[l].phase
    case Polling =>
      && Enabled(s, PollReturn(l, [])) && (l == 0 ==> Enabled(s, PollReturn(l, [Acceptor])))
      && (forall c :: c in s.conns && s.conns[c].loop == l && s.conns[c].index == Added ==>
            Enabled(s, PollReturn(l, [Conn(c)])))
    case Running(batch, next) => if next < |batch| then Enabled(s, RunFunctor(l)) else Enabled(s, EndBatch(l))
    case Dispatching(_, NoGuard) => TurnComes(s, l)
    case Dispatching(_, Guard(c, calls)) => HandlerGoesOn(s, l, c, calls)
  }

  lemma InvCanMove(s: Server, l: nat)
    requires Typed(s) && Inv(s, Empty) && l < |s.loops|
    ensures CanMove(s, l)
  {
    hide Numbered, RegistryOk, ConnsOk, PollersOk, PhasesOk, FdsOk, TicketsOk, TurnComes, HandlerGoesOn, PhaseOk, Typed;
    LoopParts(s, l);
    match s.loops[l].phase
    case Polling => PollingCanMove(s, l);
    case Running(_, _) => BatchRuns(s, l);
    case Dispatching(_, guard) =>
      if guard.Guard? {
        HandlingCanMove(s, l);
      } else {
        DispatchingCanMove(s, l);
      }
  }

  /** No loop is ever stuck: a loop in poll may be told of any of its registered channels, or of none; a channel's turn
      comes whatever events it has; each callback can be made; and functors run to the end of the batch. */
  lemma LoopsCanMove(name: string, ipPort: string, subLoops: nat, run: seq<Step>, l: nat)
    requires |ipPort| <= 21 && Possible(Start(name, ipPort, subLoops), run) && l <= subLoops
    ensures var s := Run(Start(name, ipPort, subLoops), run);
            Typed(s) && |s.loops| == subLoops + 1 && CanMove(s, l)
  {
    hide CanMove;
    var start := Start(name, ipPort, subLoops);
    StartInv(name, ipPort, subLoops);
    RunKeeps(start, run);
    RunMakes(start, run, l);
    InvCanMove(Run(start, run), l);
  }

  lemma BatchRuns(s: Server, l: nat)
    requires Typed(s) && l < |s.loops| && s.loops[l].phase.Running?
    ensures var batch, next := s.loops[l].phase.batch, s.loops[l].phase.next;
            if next < |batch| then Enabled(s, RunFunctor(l)) else Enabled(s, EndBatch(l))
  {
    assert TypedLoop(s.conns.Keys, s.loops[l]);
  }

  // how far a loop is from its next poll: the stage of the round, what is left of it, and of the handler it is in
  datatype Distance = Distance(stage: nat, left: nat, calls: nat) {
    predicate Below(other: Distance) {
      || stage < other.stage
      || (stage == other.stage && left < other.left)
      || (stage == other.stage && left == other.left && calls < other.calls)
    }
  }

  function ToPoll(phase: Phase): Distance {
    match phase
    case Polling => Distance(0, 0, 0)
    case Running(batch, next) => Distance(1, if next < |batch| then |batch| - next else 0, 1)
    case Dispatching(todo, guard) => Distance(2, |todo|, if guard.Guard? then |guard.todo| + 1 else 0)
  }

  // the steps by which loop l gets through a round
  predicate Works(e: Step, l: nat) {
    match e
    case Accept(_) => l == 0
    case AcceptNone => l == 0
    case BeginHandle(k, _) => k == l
    case Close(k) => k == l
    case Drain(k) => k == l
    case Pass(k) => k == l
    case EndHandle(k) => k == l
    case Swap(k) => k == l
    case RunFunctor(k) => k == l
    case EndBatch(k) => k == l
    case _ => false
  }

  /** Every round ends: each of a loop's own steps brings it closer to its next poll, and no step of another loop or of user
      code takes it further away. What is queued meanwhile is for the next round. */
  lemma RoundsEnd(s: Server, e: Step, l: nat)
    requires Typed(s) && Enabled(s, e) && l < |s.loops| && !(e.PollReturn? && e.l == l)
    ensures |Next(s, e).loops| == |s.loops|
    ensures var before, after := ToPoll(s.loops[l].phase), ToPoll(Next(s, e).loops[l].phase);
            if Works(e, l) then after.Below(before) else after == before
  {
    hide Next, TypedLoop, Held, Typed, Queued, ToPoll;
    match e
    case Accept(fd) =>
      AcceptLoops(s, fd, l);
      AcceptCloser(s);
    case Close(k) =>
      CloseLoops(s, k, l);
      CallCloser(s, k, l);
    case RunFunctor(k) =>
      RunFunctorLoops(s, k, l);
      RunCloser(s, k);
    case Drain(k) =>
      DrainLoops(s, k, l);
      CallCloser(s, k, l);
    case StartWriting(k, c) => StartWritingLoops(s, k, c, l);
    case _ => OtherCloser(s, e, l);
  }

  lemma AcceptCloser(s: Server)
    requires Typed(s) && Enabled(s, AcceptNone)
    ensures ToPoll(Dispatching(s.loops[0].phase.todo[1..], NoGuard)).Below(ToPoll(s.loops[0].phase))
  {
  }

  lemma CallCloser(s: Server, k: nat, l: nat)
    requires Handling(s, k) && l < |s.loops|
    ensures var before, after := ToPoll(s.loops[l].phase), ToPoll(Called(s, k).loops[l].phase);
            if k == l then after.Below(before) else after == before
  {
  }

  lemma RunCloser(s: Server, k: nat)
    requires Typed(s) && Enabled(s, RunFunctor(k))
    ensures ToPoll(Running(s.loops[k].phase.batch, s.loops[k].phase.next + 1)).Below(ToPoll(s.loops[k].phase))
  {
  }

  lemma OtherCloser(s: Server, e: Step, l: nat)
    requires Typed(s) && Enabled(s, e) && l < |s.loops| && !(e.PollReturn? && e.l == l)
    requires !e.Accept? && !e.Close? && !e.RunFunctor? && !e.Drain? && !e.StartWriting?
    ensures |Next(s, e).loops| == |s.loops|
    ensures var before, after := ToPoll(s.loops[l].phase), ToPoll(Next(s, e).loops[l].phase);
            if Works(e, l) then after.Below(before) else after == before
  {
    hide Accepted, Closed, Exec, SetEvents, Held;
    assert TypedLoop(s.conns.Keys, s.loops[l]);
  }
}
