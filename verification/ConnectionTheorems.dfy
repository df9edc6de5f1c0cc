/** What the connection promises over whole runs: the output is one FIFO byte stream whichever path the bytes
    take, half-close waits for it, the callbacks are accounted for, and the connection closes once. */
module ConnectionTheorems {
  import Buffers
  import opened Epoll
  import opened Sequences
  import opened Connection

  // ---------------------------------------------------------------- the byte stream

  // what the run's own inputs say was accepted: the data of every send met in state Connected
  function Accepted(m: Machine, run: seq<Event>): Buffers.Bytes
    requires Possible(m, run)
    decreases run
  {
    if run == [] then []
    else (if run[0].Send? && m.v.state == Connected then run[0].data else [])
         + Accepted(Step(m, run[0]), run[1..])
  }

  // a direct write of a non-empty message that comes back with nothing written and EPIPE or ECONNRESET
  predicate Faults(m: Machine, e: Event) {
    e.Send? && m.v.state == Connected && e.data != [] && !m.v.writing && m.v.output == []
    && e.w.Count(|e.data|) <= 0 && (e.w.errno == EPIPE || e.w.errno == ECONNRESET)
  }

  predicate Faultless(m: Machine, run: seq<Event>)
    requires Possible(m, run)
    decreases run
  {
    run == [] || (!Faults(m, run[0]) && Faultless(Step(m, run[0]), run[1..]))
  }

  // nothing but empty messages was dropped
  predicate Lossless(sends: seq<Chunk>) {
    forall i :: 0 <= i < |sends| && sends[i].dropped ==> sends[i].bytes == []
  }

  lemma {:induction false} KeptIsAllIff(sends: seq<Chunk>)
    ensures |Kept(sends)| <= |All(sends)|
    ensures |Kept(sends)| == |All(sends)| <==> Lossless(sends)
    ensures Lossless(sends) ==> Kept(sends) == All(sends)
  {
    if sends == [] {
    } else {
      var init, last := sends[..|sends| - 1], sends[|sends| - 1];
      KeptIsAllIff(init);
      assert Lossless(sends) <==> Lossless(init) && (last.dropped ==> last.bytes == []);
    }
  }

  lemma SendLog(m: Machine, e: Event)
    requires Enabled(m, e)
    ensures Step(m, e).v.sends == m.v.sends
            + if e.Send? && m.v.state == Connected
              then [Chunk(e.data, !m.v.writing && m.v.output == [] && e.w.Count(|e.data|) <= 0
                                  && (e.w.errno == EPIPE || e.w.errno == ECONNRESET))]
              else []
  {
  }

  lemma OneMoreChunk(sends: seq<Chunk>, c: Chunk)
    ensures All(sends + [c]) == All(sends) + c.bytes
    ensures Lossless(sends + [c]) <==> Lossless(sends) && (c.dropped ==> c.bytes == [])
  {
    assert (sends + [c])[..|sends|] == sends;
    assert (sends + [c])[|sends|] == c;
    if Lossless(sends + [c]) {
      assert forall i :: 0 <= i < |sends| ==> sends[i] == (sends + [c])[i];
    }
  }

  lemma LogStep(m: Machine, e: Event)
    requires Enabled(m, e)
    ensures All(Step(m, e).v.sends) == All(m.v.sends) + if e.Send? && m.v.state == Connected then e.data else []
    ensures Lossless(Step(m, e).v.sends) <==> Lossless(m.v.sends) && !Faults(m, e)
  {
    SendLog(m, e);
    if e.Send? && m.v.state == Connected {
      OneMoreChunk(m.v.sends, Step(m, e).v.sends[|m.v.sends|]);
    } else {
      assert Step(m, e).v.sends == m.v.sends;
    }
  }

  lemma {:induction false} LogIsAccepted(m: Machine, run: seq<Event>)
    requires Possible(m, run)
    ensures All(Run(m, run).v.sends) == All(m.v.sends) + Accepted(m, run)
    decreases run
  {
    hide Step, All;
    if run == [] {
    } else {
      var m1, rest := Step(m, run[0]), run[1..];
      LogStep(m, run[0]);
      LogIsAccepted(m1, rest);
      var data := if run[0].Send? && m.v.state == Connected then run[0].data else [];
      Associate(All(m.v.sends), data, Accepted(m1, rest));
    }
  }

  lemma {:induction false} LosslessIsFaultless(m: Machine, run: seq<Event>)
    requires Possible(m, run)
    ensures Lossless(Run(m, run).v.sends) <==> Lossless(m.v.sends) && Faultless(m, run)
    decreases run
  {
    hide Step, Lossless, Faults;
    if run == [] {
    } else {
      LogStep(m, run[0]);
      LosslessIsFaultless(Step(m, run[0]), run[1..]);
    }
  }

  /** Whatever the kernel takes and whichever way the bytes go, what has been handed to it followed by what is
      still buffered is the concatenation of everything accepted, in order: exactly when no direct write
      of a non-empty message met EPIPE or ECONNRESET. Without that proviso it is still the concatenation of
      the sends that were not dropped, and never longer than what was accepted. */
  lemma OutputStream(config: Config, run: seq<Event>)
    requires Possible(Start(config), run)
    ensures var v := Run(Start(config), run).v;
            && v.delivered + v.output == Kept(v.sends)
            && All(v.sends) == Accepted(Start(config), run)
            && (v.delivered + v.output == Accepted(Start(config), run) <==> Faultless(Start(config), run))
  {
    hide Run, Possible, Step, Faultless, Accepted;
    StartInv(config);
    RunKeepsInv(Start(config), run);
    LogIsAccepted(Start(config), run);
    LosslessIsFaultless(Start(config), run);
    KeptIsAllIff(Run(Start(config), run).v.sends);
  }

  /** A fault that does lose a message: connect, then send one byte into a reset connection (or one whose peer has
      gone, where the process ignores SIGPIPE). */
  lemma FaultLosesMessage(config: Config, errno: int)
    requires errno == ECONNRESET || errno == EPIPE
    ensures var run := [Establish, Send([7], WriteResult(-1, errno))];
            && Possible(Start(config), run) && Accepted(Start(config), run) == [7]
            && Run(Start(config), run).v.delivered == [] && Run(Start(config), run).v.output == []
            && Run(Start(config), run).v.state == Connected
  {
    var m0 := Start(config);
    var send := Send([7], WriteResult(-1, errno));
    var m1 := Step(m0, Establish);
    var m2 := Step(m1, send);
    assert [Establish, send][1..] == [send];
    assert Possible(m1, [send]) && Run(m1, [send]) == m2 && Accepted(m1, [send]) == [7] + Accepted(m2, []);
  }

  lemma StepExtends(m: Machine, e: Event)
    requires Enabled(m, e)
    ensures m.v.delivered <= Step(m, e).v.delivered && m.v.received <= Step(m, e).v.received
    ensures m.v.config == Step(m, e).v.config
  {
    match e
    case Send(data, w) =>
      assert m.v.Send(data, w).received == m.v.received;
    case Next(r, w) =>
      assert m.v.HandleClose().delivered == m.v.delivered && m.v.HandleClose().received == m.v.received;
      assert m.v.HandleWrite(w).received == m.v.received;
      assert m.v.HandleRead(r).delivered == m.v.delivered;
    case _ =>
      assert Step(m, e).v.delivered == m.v.delivered && Step(m, e).v.received == m.v.received;
  }

  /** Bytes handed to the kernel and bytes read from it are never taken back. */
  lemma {:induction false} StreamsOnlyGrow(m: Machine, run: seq<Event>)
    requires Possible(m, run)
    ensures m.v.delivered <= Run(m, run).v.delivered && m.v.received <= Run(m, run).v.received
    ensures m.v.config == Run(m, run).v.config
    decreases run
  {
    hide Step;
    if run == [] {
    } else {
      StepExtends(m, run[0]);
      StreamsOnlyGrow(Step(m, run[0]), run[1..]);
    }
  }

  // ---------------------------------------------------------------- half-close

  lemma StepAfterShutdown(m: Machine, e: Event)
    requires Inv(m) && Enabled(m, e) && m.v.state in {Disconnecting, Disconnected}
    ensures var u := Step(m, e).v;
            && u.state in {Disconnecting, Disconnected} && u.sends == m.v.sends
            && (m.v.fins == 1 ==> u.fins == 1 && u.delivered == m.v.delivered)
  {
  }

  /** shutdown() is final for the output: no later send is accepted, and once the write side has been shut
      nothing more is delivered and it is not shut again. */
  lemma {:induction false} NothingAfterFin(m: Machine, run: seq<Event>)
    requires Inv(m) && Possible(m, run) && m.v.state in {Disconnecting, Disconnected}
    ensures var u := Run(m, run).v;
            && u.state in {Disconnecting, Disconnected} && u.sends == m.v.sends
            && (m.v.fins == 1 ==> u.fins == 1 && u.delivered == m.v.delivered)
    decreases run
  {
    hide Step, Inv;
    if run == [] {
    } else {
      StepAfterShutdown(m, run[0]);
      StepKeepsInv(m, run[0]);
      NothingAfterFin(Step(m, run[0]), run[1..]);
    }
  }

  /** The write side is shut at most once, and only when every byte accepted before (and not lost to a fault)
      has been handed to the kernel; after any further events that is still all there ever was. */
  lemma HalfClose(config: Config, before: seq<Event>, after: seq<Event>)
    requires Possible(Start(config), before) && Possible(Run(Start(config), before), after)
    ensures var v := Run(Start(config), before).v;
            var u := Run(Run(Start(config), before), after).v;
            && u.fins <= 1
            && (v.fins == 1 ==> u.fins == 1 && u.delivered == v.delivered == Kept(v.sends) && u.sends == v.sends)
  {
    StartInv(config);
    RunKeepsInv(Start(config), before);
    var m := Run(Start(config), before);
    RunKeepsInv(m, after);
    if m.v.fins == 1 {
      NothingAfterFin(m, after);
    }
  }

  // a write callback that hands at least one byte to the kernel
  predicate Drains(m: Machine, e: Event) {
    e.Next? && m.todo != [] && m.todo[0] == OnWrite && m.v.writing && e.w.Count(|m.v.output|) > 0
  }

  function DrainSteps(m: Machine, run: seq<Event>): nat
    requires Possible(m, run)
    decreases run
  {
    if run == [] then 0 else (if Drains(m, run[0]) then 1 else 0) + DrainSteps(Step(m, run[0]), run[1..])
  }

  lemma DrainStepShrinks(m: Machine, e: Event)
    requires Inv(m) && Enabled(m, e) && m.v.state == Disconnecting
    ensures |Step(m, e).v.output| + (if Drains(m, e) then 1 else 0) <= |m.v.output|
  {
  }

  lemma {:induction false} OutputShrinks(m: Machine, run: seq<Event>)
    requires Inv(m) && Possible(m, run) && m.v.state == Disconnecting && Run(m, run).v.state == Disconnecting
    ensures |Run(m, run).v.output| + DrainSteps(m, run) <= |m.v.output|
    decreases run
  {
    hide Step, Inv;
    if run == [] {
    } else {
      StepKeepsInv(m, run[0]);
      StepAfterShutdown(m, run[0]);
      var m1 := Step(m, run[0]);
      if m1.v.state == Disconnected {
        RunKeepsInv(m1, run[1..]);
        StaysDisconnected(m1, run[1..]);
        assert false;
      } else {
        DrainStepShrinks(m, run[0]);
        OutputShrinks(m1, run[1..]);
      }
    }
  }

  lemma {:induction false} StaysDisconnected(m: Machine, run: seq<Event>)
    requires Inv(m) && Possible(m, run) && m.v.state == Disconnected
    ensures Run(m, run).v.state == Disconnected
    decreases run
  {
    if run == [] {
    } else {
      StepKeepsInv(m, run[0]);
      assert Step(m, run[0]).v.state == Disconnected;
      StaysDisconnected(Step(m, run[0]), run[1..]);
    }
  }

  /** After shutdown(), as many productive write callbacks as there are bytes buffered are enough for the
      write side to be shut, whatever else happens in between, unless the peer closes first. */
  lemma DrainReachesFin(m: Machine, run: seq<Event>)
    requires Inv(m) && Possible(m, run) && m.v.state == Disconnecting
    requires DrainSteps(m, run) >= |m.v.output|
    ensures Run(m, run).v.fins == 1 || Run(m, run).v.state == Disconnected
  {
    RunKeepsInv(m, run);
    NothingAfterFin(m, run);
    if Run(m, run).v.state == Disconnecting {
      OutputShrinks(m, run);
    }
  }

  // ---------------------------------------------------------------- callback accounting

  function HighWaters(queued: seq<Notice>): nat {
    if queued == [] then 0
    else HighWaters(queued[..|queued| - 1]) + if queued[|queued| - 1].HighWater? then 1 else 0
  }

  function WriteCompletes(queued: seq<Notice>): nat {
    if queued == [] then 0
    else WriteCompletes(queued[..|queued| - 1]) + if queued[|queued| - 1].WriteComplete? then 1 else 0
  }

  // steps that take the buffered length from below the mark to the mark or above
  function Crossings(m: Machine, run: seq<Event>): nat
    requires Possible(m, run)
    decreases run
  {
    if run == [] then 0 else
    var m1 := Step(m, run[0]);
    (if |m.v.output| < m.v.config.highWaterMark <= |m1.v.output| then 1 else 0) + Crossings(m1, run[1..])
  }

  // steps that hand bytes to the kernel and leave none behind
  function Completions(m: Machine, run: seq<Event>): nat
    requires Possible(m, run)
    decreases run
  {
    if run == [] then 0 else
    var m1 := Step(m, run[0]);
    (if |m.v.delivered| < |m1.v.delivered| && m1.v.output == [] then 1 else 0) + Completions(m1, run[1..])
  }

  lemma LastNotice(queued: seq<Notice>, q: Notice)
    ensures HighWaters(queued + [q]) == HighWaters(queued) + if q.HighWater? then 1 else 0
    ensures WriteCompletes(queued + [q]) == WriteCompletes(queued) + if q.WriteComplete? then 1 else 0
  {
    assert (queued + [q])[..|queued|] == queued;
  }

  lemma SendNotices(v: View, data: Buffers.Bytes, w: WriteResult)
    requires v.state == Connected && InterestInv(v)
    ensures var u := v.Send(data, w);
            var high := |v.output| < v.config.highWaterMark <= |u.output|;
            var done := |v.delivered| < |u.delivered| && u.output == [];
            u.queued == v.queued + (if done && v.config.writeCompleteCallback then [WriteComplete] else [])
                        + (if high && v.config.highWaterMarkCallback then [HighWater(|u.output|)] else [])
  {
    var u := v.Send(data, w);
    var direct := !v.writing && v.output == [];
    var n := w.Count(|data|);
    var wrote := if direct && n > 0 then n else 0;
    assert |u.delivered| == |v.delivered| + wrote;
    assert |data[wrote..]| == |data| - wrote;
    assert wrote == 0 && !direct ==> v.output != [];
  }

  lemma StepNotices(m: Machine, e: Event)
    requires Inv(m) && Enabled(m, e)
    ensures var u := Step(m, e).v;
            var high := |m.v.output| < m.v.config.highWaterMark <= |u.output|;
            var done := |m.v.delivered| < |u.delivered| && u.output == [];
            u.queued == m.v.queued + (if done && m.v.config.writeCompleteCallback then [WriteComplete] else [])
                        + (if high && m.v.config.highWaterMarkCallback then [HighWater(|u.output|)] else [])
  {
    if e.Send? && m.v.state == Connected {
      SendNotices(m.v, e.data, e.w);
    } else if e.Next? && m.todo[0] == OnWrite {
      var n := e.w.Count(|m.v.output|);
      if n > 0 {
        assert |m.v.output[n..]| == |m.v.output| - n;
      }
    }
  }

  lemma StepCounts(m: Machine, e: Event)
    requires Inv(m) && Enabled(m, e)
    ensures var u := Step(m, e).v;
            var high := |m.v.output| < m.v.config.highWaterMark <= |u.output| && m.v.config.highWaterMarkCallback;
            var done := |m.v.delivered| < |u.delivered| && u.output == [] && m.v.config.writeCompleteCallback;
            && HighWaters(u.queued) == HighWaters(m.v.queued) + (if high then 1 else 0)
            && WriteCompletes(u.queued) == WriteCompletes(m.v.queued) + (if done then 1 else 0)
  {
    hide Step, Inv, HighWaters, WriteCompletes;
    var u := Step(m, e).v;
    StepNotices(m, e);
    var high := |m.v.output| < m.v.config.highWaterMark <= |u.output| && m.v.config.highWaterMarkCallback;
    var done := |m.v.delivered| < |u.delivered| && u.output == [] && m.v.config.writeCompleteCallback;
    var q := if done then m.v.queued + [WriteComplete] else m.v.queued;
    LastNotice(m.v.queued, WriteComplete);
    LastNotice(q, HighWater(|u.output|));
    assert u.queued == if high then q + [HighWater(|u.output|)] else q;
  }

  /** Over any run the high-water callback is queued once for every upward crossing of the mark and at no other
      time, so between two of them the buffer was below the mark; write-complete is queued once for
      every step that leaves nothing undelivered. */
  lemma {:induction false} CallbackAccounting(m: Machine, run: seq<Event>)
    requires Inv(m) && Possible(m, run)
    ensures HighWaters(Run(m, run).v.queued)
            == HighWaters(m.v.queued) + if m.v.config.highWaterMarkCallback then Crossings(m, run) else 0
    ensures WriteCompletes(Run(m, run).v.queued)
            == WriteCompletes(m.v.queued) + if m.v.config.writeCompleteCallback then Completions(m, run) else 0
    decreases run
  {
    hide Step, Inv, HighWaters, WriteCompletes;
    if run == [] {
    } else {
      StepKeepsInv(m, run[0]);
      StepExtends(m, run[0]);
      StepCounts(m, run[0]);
      CallbackAccounting(Step(m, run[0]), run[1..]);
    }
  }

  // ---------------------------------------------------------------- closing

  function Rank(s: State): nat {
    match s
    case Connecting => 0
    case Connected => 1
    case Disconnecting => 2
    case Disconnected => 3
  }

  lemma StepMovesForward(m: Machine, e: Event)
    requires Inv(m) && Enabled(m, e)
    ensures Rank(m.v.state) <= Rank(Step(m, e).v.state)
  {
    hide StreamInv, FinInv, UpsAndDowns;
  }

  lemma {:induction false} StateMovesForward(m: Machine, run: seq<Event>)
    requires Inv(m) && Possible(m, run)
    ensures Rank(m.v.state) <= Rank(Run(m, run).v.state)
    decreases run
  {
    hide Step, Inv, Enabled, Rank;
    if run == [] {
    } else {
      StepKeepsInv(m, run[0]);
      StepMovesForward(m, run[0]);
      StateMovesForward(Step(m, run[0]), run[1..]);
    }
  }

  /** One connection, any run: handleClose has run exactly when the state is Disconnected and never twice, the
      user has seen one UP and then one DOWN at most, and the poller listens for writability exactly while
      there is something to write. */
  lemma SingleClose(config: Config, run: seq<Event>)
    requires Possible(Start(config), run)
    ensures var v := Run(Start(config), run).v;
            && v.closes <= 1 && (v.closes == 1 <==> v.state == Disconnected)
            && UpsAndDowns(v.upcalls) <= [Up, Down]
            && (Down in UpsAndDowns(v.upcalls) <==> v.closes == 1)
            && (v.state != Disconnected ==> (v.writing <==> v.output != []))
            && (v.state == Disconnected ==> v.index != Added)
  {
    StartInv(config);
    RunKeepsInv(Start(config), run);
  }
}
