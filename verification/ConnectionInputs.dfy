/** What the inputs of a run come to: how many bytes the kernel took, which bytes were read and how many of them the
    user has had, which state the events lead to, which callbacks are made and which are told to the user. Each
    is computed from the events alone and the states they met, and is what the connection's fields say. */
module ConnectionInputs {
  import B = Buffers
  import opened Epoll
  import opened Sequences
  import opened Connection
  import opened ConnectionTheorems

  // as many as are offered of at most that many
  function AtMost(room: int, offered: nat): nat {
    if room < 0 then 0 else if room < offered then room else offered
  }

  // ---------------------------------------------------------------- bytes out

  // the kernel's share of an event: a direct write, or a write callback that finds the channel writing
  function Taken(m: Machine, e: Event): nat {
    match e
    case Send(data, w) =>
      if m.v.state == Connected && !m.v.writing && m.v.output == [] then AtMost(w.room, |data|) else 0
    case Next(_, w) =>
      if m.todo != [] && m.todo[0] == OnWrite && m.v.writing then AtMost(w.room, |m.v.output|) else 0
    case _ => 0
  }

  function AllTaken(m: Machine, run: seq<Event>): nat
    requires Possible(m, run)
    decreases run
  {
    if run == [] then 0 else Taken(m, run[0]) + AllTaken(Step(m, run[0]), run[1..])
  }

  lemma StepTakes(m: Machine, e: Event)
    requires Enabled(m, e)
    ensures |Step(m, e).v.delivered| == |m.v.delivered| + Taken(m, e)
  {
    match e
    case Send(data, w) =>
      if m.v.state == Connected {
        SendParts(m.v, data, w);
      }
    case Next(r, w) =>
      if m.todo[0] == OnWrite {
        WriteTakes(m.v, w);
      }
    case _ =>
  }

  lemma WriteTakes(v: View, w: WriteResult)
    ensures |v.HandleWrite(w).delivered| == |v.delivered| + if v.writing then AtMost(w.room, |v.output|) else 0
  {
  }

  lemma {:induction false} RunTakes(m: Machine, run: seq<Event>)
    requires Possible(m, run)
    ensures |Run(m, run).v.delivered| == |m.v.delivered| + AllTaken(m, run)
    decreases run
  {
    hide Step, Enabled, Taken;
    if run == [] {
    } else {
      StepTakes(m, run[0]);
      RunTakes(Step(m, run[0]), run[1..]);
    }
  }

  /** What has been handed to the kernel is the first so many bytes of what was kept, as many as the kernel took along the
      run, and what is buffered is the rest. */
  lemma DeliveredIsTaken(config: Config, run: seq<Event>)
    requires Possible(Start(config), run)
    ensures var v := Run(Start(config), run).v;
            var n := AllTaken(Start(config), run);
            n <= |Kept(v.sends)| && v.delivered == Kept(v.sends)[..n] && v.output == Kept(v.sends)[n..]
  {
    hide Step, Run, Possible, AllTaken, InterestInv, FinInv, CloseInv;
    RunTakes(Start(config), run);
    StartInv(config);
    RunKeepsInv(Start(config), run);
    var v := Run(Start(config), run).v;
    assert v.delivered + v.output == Kept(v.sends);
  }

  // ---------------------------------------------------------------- bytes in

  function ReadBy(m: Machine, e: Event): B.Bytes {
    if e.Next? && m.todo != [] && m.todo[0] == OnRead && e.r.ReadBytes? then e.r.bytes else []
  }

  function AllRead(m: Machine, run: seq<Event>): B.Bytes
    requires Possible(m, run)
    decreases run
  {
    if run == [] then [] else ReadBy(m, run[0]) + AllRead(Step(m, run[0]), run[1..])
  }

  // the user's share: what was asked for, or all there is
  function Had(m: Machine, e: Event): nat {
    if e.Retrieve? then AtMost(e.len, |m.v.input|) else 0
  }

  function AllHad(m: Machine, run: seq<Event>): nat
    requires Possible(m, run)
    decreases run
  {
    if run == [] then 0 else Had(m, run[0]) + AllHad(Step(m, run[0]), run[1..])
  }

  lemma StepReads(m: Machine, e: Event)
    requires Enabled(m, e)
    ensures Step(m, e).v.received == m.v.received + ReadBy(m, e)
    ensures |Step(m, e).v.consumed| == |m.v.consumed| + Had(m, e)
  {
    match e
    case Send(data, w) =>
      if m.v.state == Connected {
        SendParts(m.v, data, w);
      }
    case _ =>
  }

  lemma {:induction false} RunReads(m: Machine, run: seq<Event>)
    requires Possible(m, run)
    ensures Run(m, run).v.received == m.v.received + AllRead(m, run)
    ensures |Run(m, run).v.consumed| == |m.v.consumed| + AllHad(m, run)
    decreases run
  {
    hide Step, Enabled, ReadBy, Had;
    if run == [] {
    } else {
      StepReads(m, run[0]);
      RunReads(Step(m, run[0]), run[1..]);
      Associate(m.v.received, ReadBy(m, run[0]), AllRead(Step(m, run[0]), run[1..]));
    }
  }

  /** What has arrived is what the reads of the run brought, in order; the user has had the first so many bytes of it, as
      many as their calls asked for and found, and the input buffer holds the rest. */
  lemma InputStream(config: Config, run: seq<Event>)
    requires Possible(Start(config), run)
    ensures var v := Run(Start(config), run).v;
            var n := AllHad(Start(config), run);
            && v.received == AllRead(Start(config), run)
            && n <= |v.received| && v.consumed == v.received[..n] && v.input == v.received[n..]
  {
    hide Step, Run, Possible, AllRead, AllHad, InterestInv, FinInv, CloseInv;
    RunReads(Start(config), run);
    StartInv(config);
    RunKeepsInv(Start(config), run);
    var v := Run(Start(config), run).v;
    assert v.consumed + v.input == v.received;
  }

  // ---------------------------------------------------------------- states and callbacks to the user

  // a callback that ends the connection: the close callback, and the read callback at the end of the stream
  predicate Ends(m: Machine, e: Event) {
    e.Next? && m.todo != [] && (m.todo[0] == OnClose || (m.todo[0] == OnRead && e.r == B.ReadBytes([])))
  }

  // the state the events lead to
  function StateAfter(s: State, m: Machine, run: seq<Event>): State
    requires Possible(m, run)
    decreases run
  {
    if run == [] then s else
    var next := if Ends(m, run[0]) then Disconnected
                else if run[0].Establish? then Connected
                else if run[0].Shutdown? && s == Connected then Disconnecting
                else s;
    StateAfter(next, Step(m, run[0]), run[1..])
  }

  // what an event tells the user and the server
  function Told(m: Machine, e: Event): seq<Upcall> {
    if Ends(m, e) then [Down, Closed]
    else if e.Establish? then [Up]
    else if ReadBy(m, e) != [] then [Message]
    else []
  }

  function AllTold(m: Machine, run: seq<Event>): seq<Upcall>
    requires Possible(m, run)
    decreases run
  {
    if run == [] then [] else Told(m, run[0]) + AllTold(Step(m, run[0]), run[1..])
  }

  lemma StepTells(m: Machine, e: Event)
    requires Enabled(m, e) && Inv(m)
    ensures Step(m, e).v.upcalls == m.v.upcalls + Told(m, e)
    ensures Step(m, e).v.state == if Ends(m, e) then Disconnected
                                  else if e.Establish? then Connected
                                  else if e.Shutdown? && m.v.state == Connected then Disconnecting
                                  else m.v.state
    ensures Step(m, e).v.index == if e.Destroy? then New
                                  else if Ends(m, e) then Deleted
                                  else if e.Establish? then Added
                                  else m.v.index
  {
    match e
    case Send(data, w) =>
      if m.v.state == Connected {
        SendKeepsInterest(m.v, data, w);
      }
    case Next(r, w) =>
      if m.todo[0] == OnWrite {
        HandleWriteKeeps(m.v, w);
      }
    case _ =>
  }

  lemma {:induction false} RunTells(m: Machine, run: seq<Event>)
    requires Possible(m, run) && Inv(m)
    ensures Run(m, run).v.upcalls == m.v.upcalls + AllTold(m, run)
    ensures Run(m, run).v.state == StateAfter(m.v.state, m, run)
    decreases run
  {
    hide Step, Enabled, Told, Ends, Inv;
    if run == [] {
    } else {
      StepTells(m, run[0]);
      StepKeepsInv(m, run[0]);
      RunTells(Step(m, run[0]), run[1..]);
      Associate(m.v.upcalls, Told(m, run[0]), AllTold(Step(m, run[0]), run[1..]));
    }
  }

  /** The state is the one the events lead to, and the user and the server are told what the events call for, in order: UP
      once established, a message for every read that brings bytes, DOWN and then the close callback at the end. */
  lemma StateAndUpcalls(config: Config, run: seq<Event>)
    requires Possible(Start(config), run)
    ensures var v := Run(Start(config), run).v;
            && v.state == StateAfter(Connecting, Start(config), run)
            && v.upcalls == AllTold(Start(config), run)
  {
    hide Step, Run, Possible, AllTold, StateAfter;
    StartInv(config);
    RunTells(Start(config), run);
    assert [] + AllTold(Start(config), run) == AllTold(Start(config), run);
  }

  predicate Destroys(run: seq<Event>) {
    exists i :: 0 <= i < |run| && run[i].Destroy?
  }

  lemma {:induction false} RunIndex(m: Machine, run: seq<Event>)
    requires Possible(m, run) && Inv(m) && m.v.state == Disconnected
    ensures Run(m, run).v.state == Disconnected
    ensures Run(m, run).v.index == if Destroys(run) then New else m.v.index
    decreases run
  {
    hide Step, Enabled, Inv;
    if run == [] {
    } else {
      StepTells(m, run[0]);
      StepKeepsInv(m, run[0]);
      assert Step(m, run[0]).v.state == Disconnected by { StaysDisconnected(m, [run[0]]); OneStep(m, run[0]); }
      assert !Ends(m, run[0]) by { NothingEndsTwice(m, run[0]); }
      RunIndex(Step(m, run[0]), run[1..]);
      assert Destroys(run) <==> run[0].Destroy? || Destroys(run[1..]) by { DestroysTail(run); }
      assert !run[0].Establish? by { EstablishedOnce(m, run[0]); }
    }
  }

  lemma OneStep(m: Machine, e: Event)
    ensures Possible(m, [e]) <==> Enabled(m, e)
    ensures Enabled(m, e) ==> Run(m, [e]) == Step(m, e)
  {
    assert [e][1..] == [];
  }

  lemma NothingEndsTwice(m: Machine, e: Event)
    requires Inv(m) && m.v.state == Disconnected
    ensures !Ends(m, e)
  {
    if m.todo != [] {
      assert Closers(m.todo) == (if m.todo[0] == OnClose || m.todo[0] == OnRead then 1 else 0) + Closers(m.todo[1..]);
    }
  }

  lemma EstablishedOnce(m: Machine, e: Event)
    requires m.v.state == Disconnected && Enabled(m, e)
    ensures !e.Establish?
  {
  }

  lemma DestroysTail(run: seq<Event>)
    requires run != []
    ensures Destroys(run) <==> run[0].Destroy? || Destroys(run[1..])
  {
    if i :| 0 <= i < |run[1..]| && run[1..][i].Destroy? {
      assert run[i + 1].Destroy?;
    }
    if i :| 0 < i < |run| && run[i].Destroy? {
      assert run[1..][i - 1].Destroy?;
    }
  }

  /** A connection that has ended stays ended, and its channel is out of the poller for good exactly once connectDestroyed
      has run. */
  lemma DestroyedIff(config: Config, before: seq<Event>, end: Event, after: seq<Event>)
    requires Possible(Start(config), before) && Enabled(Run(Start(config), before), end)
    requires Ends(Run(Start(config), before), end)
    requires Possible(Step(Run(Start(config), before), end), after)
    ensures var v := Run(Step(Run(Start(config), before), end), after).v;
            v.state == Disconnected && v.index == if Destroys(after) then New else Deleted
  {
    hide Step, Enabled, Inv, Ends;
    StartInv(config);
    RunKeepsInv(Start(config), before);
    var m := Run(Start(config), before);
    StepTells(m, end);
    StepKeepsInv(m, end);
    assert !end.Destroy? by { EndsIsNext(m, end); }
    RunIndex(Step(m, end), after);
  }

  lemma EndsIsNext(m: Machine, e: Event)
    requires Ends(m, e)
    ensures e.Next?
  {
  }

  /** shutdown() on a connected connection takes effect at once: the write side is shut then and there exactly when nothing
      is buffered, and whatever follows the connection is never connected again and accepts no send. */
  lemma ShutdownTakesEffect(m: Machine, after: seq<Event>)
    requires Inv(m) && m.v.state == Connected
    requires Possible(Step(m, Event.Shutdown), after)
    ensures var u := Step(m, Event.Shutdown).v;
            && u.state == Disconnecting && (u.fins == 1 <==> m.v.output == [])
            && var v := Run(Step(m, Event.Shutdown), after).v;
               v.state in {Disconnecting, Disconnected} && v.sends == m.v.sends
  {
    StepKeepsInv(m, Event.Shutdown);
    NothingAfterFin(Step(m, Event.Shutdown), after);
  }

  // ---------------------------------------------------------------- dispatches

  function Turn(cb: Callback): nat {
    match cb
    case OnClose => 0
    case OnError => 1
    case OnRead => 2
    case OnWrite => 3
  }

  /** Which callbacks the returned events lead to, each at most once, in the order close, error, read, write. */
  lemma CallbacksOf(revents: Mask)
    ensures var cs := Callbacks(revents);
            && (OnClose in cs <==> revents & EPOLLHUP != 0 && revents & EPOLLIN == 0)
            && (OnError in cs <==> revents & EPOLLERR != 0)
            && (OnRead in cs <==> revents & EPOLLIN != 0)
            && (OnWrite in cs <==> revents & EPOLLOUT != 0)
            && forall i, j :: 0 <= i < j < |cs| ==> Turn(cs[i]) < Turn(cs[j])
  {
  }

  // the callback an event makes, and the callbacks it asks for
  function Made(m: Machine, e: Event): seq<Callback> {
    if e.Next? && m.todo != [] then [m.todo[0]] else []
  }

  function AllMade(m: Machine, run: seq<Event>): seq<Callback>
    requires Possible(m, run)
    decreases run
  {
    if run == [] then [] else Made(m, run[0]) + AllMade(Step(m, run[0]), run[1..])
  }

  function Asked(e: Event): seq<Callback> {
    if e.Dispatch? then Callbacks(e.revents) else []
  }

  function AllAsked(run: seq<Event>): seq<Callback> {
    if run == [] then [] else Asked(run[0]) + AllAsked(run[1..])
  }

  lemma StepMakes(m: Machine, e: Event)
    requires Enabled(m, e)
    ensures Made(m, e) + Step(m, e).todo == m.todo + Asked(e)
  {
    hide Callbacks;
  }

  lemma {:induction false} RunMakes(m: Machine, run: seq<Event>)
    requires Possible(m, run)
    ensures AllMade(m, run) + Run(m, run).todo == m.todo + AllAsked(run)
    decreases run
  {
    hide Step, Enabled, Made, Asked;
    if run == [] {
    } else {
      var m1, rest := Step(m, run[0]), run[1..];
      StepMakes(m, run[0]);
      RunMakes(m1, rest);
      Carry(Made(m, run[0]), AllMade(m1, rest), Run(m1, rest).todo, m.todo, m1.todo, Asked(run[0]), AllAsked(rest));
    }
  }

  /** Every callback that a dispatch asks for is made, once and in order: those made and those still to come are together
      what the dispatches of the run have asked for. */
  lemma CallbacksMade(config: Config, run: seq<Event>)
    requires Possible(Start(config), run)
    ensures AllMade(Start(config), run) + Run(Start(config), run).todo == AllAsked(run)
  {
    RunMakes(Start(config), run);
    assert [] + AllAsked(run) == AllAsked(run);
  }

  // the user's calls among the events
  function UserCalls(events: seq<Event>): seq<Event> {
    if events == [] then [] else (if IsUserCall(events[0]) then [events[0]] else []) + UserCalls(events[1..])
  }

  lemma {:induction false} UserCallsAdd(a: seq<Event>, b: seq<Event>)
    ensures UserCalls(a + b) == UserCalls(a) + UserCalls(b)
    decreases a
  {
    if a == [] {
      assert a + b == b;
    } else {
      assert (a + b)[1..] == a[1..] + b;
      UserCallsAdd(a[1..], b);
    }
  }

  lemma {:induction false} UserCallsOfScript(script: Script)
    ensures UserCalls(script) == script
    decreases |script|
  {
    if script == [] {
    } else {
      UserCallsOfScript(script[1..]);
      assert [script[0]] + script[1..] == script;
    }
  }

  lemma {:induction false} NoReadNoCalls(todo: seq<Callback>, r: B.ReadResult, script: Script, w: WriteResult)
    requires OnRead !in todo
    ensures UserCalls(Expand(todo, r, script, w)) == []
    decreases todo
  {
    if todo == [] {
    } else {
      NoReadNoCalls(todo[1..], r, script, w);
      var rest := Expand(todo[1..], r, script, w);
      assert [] + rest == rest;
      UserCallsAdd([Next(r, w)], rest);
      assert UserCalls([Next(r, w)]) == [];
    }
  }

  lemma {:induction false} CallsOfDispatch(todo: seq<Callback>, r: B.ReadResult, script: Script, w: WriteResult)
    requires forall i, j :: 0 <= i < j < |todo| ==> Turn(todo[i]) < Turn(todo[j])
    ensures UserCalls(Expand(todo, r, script, w))
            == if OnRead in todo && r.ReadBytes? && r.bytes != [] then script else []
    decreases todo
  {
    if todo == [] {
    } else {
      var rest := Expand(todo[1..], r, script, w);
      var calls := if todo[0] == OnRead && r.ReadBytes? && r.bytes != [] then script else [];
      assert Expand(todo, r, script, w) == [Next(r, w)] + (calls + rest);
      UserCallsAdd([Next(r, w)], calls + rest);
      UserCallsAdd(calls, rest);
      UserCallsOfScript(calls);
      assert UserCalls([Next(r, w)]) == [];
      assert todo == [todo[0]] + todo[1..];
      if todo[0] == OnRead {
        NoReadNoCalls(todo[1..], r, script, w);
      } else {
        CallsOfDispatch(todo[1..], r, script, w);
      }
    }
  }

  /** The user's message code runs exactly when the dispatch reads and bytes arrive, and then all of it, once. */
  lemma MessageCodeRuns(revents: Mask, r: B.ReadResult, script: Script, w: WriteResult)
    ensures UserCalls(Expand(Callbacks(revents), r, script, w))
            == if revents & EPOLLIN != 0 && r.ReadBytes? && r.bytes != [] then script else []
  {
    hide Callbacks, Expand, UserCalls;
    CallbacksOf(revents);
    CallsOfDispatch(Callbacks(revents), r, script, w);
  }

  /** ... right behind the read, and before the callbacks that follow. */
  lemma MessageCodeFollowsRead(v: View, rest: seq<Callback>, bytes: B.Bytes, script: Script, w: WriteResult)
    requires bytes != []
    ensures var r := B.ReadBytes(bytes);
            HandleEvent(v, [OnRead] + rest, r, script, w) == HandleEvent(RunScript(v.HandleRead(r), script), rest, r, script, w)
  {
    assert ([OnRead] + rest)[1..] == rest;
  }
}
