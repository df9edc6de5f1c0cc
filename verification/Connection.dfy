/** What one TCP connection does, call by call, on values: the specification that class TcpConnection is
    proved against, and the state machine its promises are proved about.

    A run is any sequence of loop-thread events. The poller may start a dispatch only while the channel is
    registered; the callbacks of a dispatch run one after the other, and user code (send, shutdown, reading
    from the input buffer) may come in between. */
module Connection {
  import opened Buffers
  import opened Epoll

  const EWOULDBLOCK: int := 11
  const EPIPE: int := 32
  const ECONNRESET: int := 104

  datatype State = Disconnected | Connecting | Connected | Disconnecting

  // functors handed to queueInLoop for the user
  datatype Notice = WriteComplete | HighWater(size: nat)

  // user callbacks run by the connection, and the close callback of the server
  datatype Upcall = Up | Message | Down | Closed

  // one accepted send; dropped when its direct write met EPIPE or ECONNRESET
  datatype Chunk = Chunk(bytes: Bytes, dropped: bool)

  // the kernel's answer to write: room < 0 is a failure, otherwise it takes that many bytes if there are as many
  datatype WriteResult = WriteResult(room: int, errno: int) {
    function Count(len: nat): (n: int)
      ensures -1 <= n <= len
    {
      if room < 0 then -1 else if room < len then room else len
    }
  }

  datatype Callback = OnClose | OnError | OnRead | OnWrite

  datatype Config = Config(highWaterMark: nat, writeCompleteCallback: bool, highWaterMarkCallback: bool)

  datatype View = View(
    state: State, index: ChannelIndex, reading: bool, writing: bool,
    output: Bytes, input: Bytes,
    sends: seq<Chunk>, delivered: Bytes, received: Bytes, consumed: Bytes,
    fins: nat, closes: nat,
    queued: seq<Notice>, upcalls: seq<Upcall>,
    config: Config)
  {
    // a change of interest, followed by the poller's update
    function SetInterest(read: bool, write: bool): View {
      this.(reading := read, writing := write, index := IndexAfter(index, !read && !write))
    }

    // bytes the kernel did not take wait in the output buffer
    function Buffered(rest: Bytes): View {
      var size := |output| + |rest|;
      var high := if size >= config.highWaterMark > |output| && config.highWaterMarkCallback
                  then [HighWater(size)] else [];
      var v := this.(output := output + rest, queued := queued + high);
      if writing then v else v.SetInterest(reading, true)
    }

    function SendInLoop(data: Bytes, w: WriteResult): View {
      if state == Disconnected then this else
      var direct := !writing && output == [];
      var n := w.Count(|data|);
      var wrote := if direct && n > 0 then n else 0;
      var fault := direct && n <= 0 && (w.errno == EPIPE || w.errno == ECONNRESET);
      var rest := if fault then [] else data[wrote..];
      var done := if wrote > 0 && rest == [] && config.writeCompleteCallback then [WriteComplete] else [];
      var v := this.(delivered := delivered + data[..wrote], sends := sends + [Chunk(data, fault)], queued := queued + done);
      if rest == [] then v else v.Buffered(rest)
    }

    function Send(data: Bytes, w: WriteResult): View {
      if state == Connected then SendInLoop(data, w) else this
    }

    function ShutdownInLoop(): View {
      if writing then this else this.(fins := fins + 1)
    }

    function Shutdown(): View {
      if state == Connected then this.(state := Disconnecting).ShutdownInLoop() else this
    }

    // user code takes bytes out of the input buffer
    function Retrieve(len: nat): View {
      var k := if len < |input| then len else |input|;
      this.(input := input[k..], consumed := consumed + input[..k])
    }

    function ConnectEstablished(): View {
      var v := this.(state := Connected).SetInterest(true, writing);
      v.(upcalls := upcalls + [Up])
    }

    function ConnectDestroyed(): View {
      var v := if state == Connected
               then var u := this.(state := Disconnected).SetInterest(false, false); u.(upcalls := upcalls + [Down])
               else this;
      v.(index := New)
    }

    function HandleClose(): View {
      var v := this.(state := Disconnected).SetInterest(false, false);
      v.(closes := closes + 1, upcalls := upcalls + [Down, Closed])
    }

    function HandleRead(r: ReadResult): View {
      if r.ReadError? then this
      else if r.bytes == [] then HandleClose()
      else this.(input := input + r.bytes, received := received + r.bytes, upcalls := upcalls + [Message])
    }

    // the output buffer has just been emptied
    function Drained(): View {
      var done := if config.writeCompleteCallback then [WriteComplete] else [];
      var v := SetInterest(reading, false).(queued := queued + done);
      if state == Disconnecting then v.ShutdownInLoop() else v
    }

    function HandleWrite(w: WriteResult): View {
      var n := w.Count(|output|);
      if !writing || n <= 0 then this else
      var v := this.(delivered := delivered + output[..n], output := output[n..]);
      if v.output == [] then v.Drained() else v
    }

    function Handle(cb: Callback, r: ReadResult, w: WriteResult): View {
      match cb
      case OnClose => HandleClose()
      case OnError => this
      case OnRead => HandleRead(r)
      case OnWrite => HandleWrite(w)
    }
  }

  // Channel::handleEventWithGuard: which callbacks a set of returned events leads to, in order
  function Callbacks(revents: Mask): seq<Callback> {
    (if revents & EPOLLHUP != 0 && revents & EPOLLIN == 0 then [OnClose] else [])
    + (if revents & EPOLLERR != 0 then [OnError] else [])
    + (if revents & EPOLLIN != 0 then [OnRead] else [])
    + (if revents & EPOLLOUT != 0 then [OnWrite] else [])
  }

  // ---------------------------------------------------------------- runs

  datatype Event =
    | Establish
    | Dispatch(revents: Mask)
    | Next(r: ReadResult, w: WriteResult)
    | Send(data: Bytes, w: WriteResult)
    | Shutdown
    | Retrieve(len: nat)
    | Destroy

  // todo: the callbacks the dispatch in progress has still to make
  datatype Machine = Machine(v: View, todo: seq<Callback>)

  predicate Enabled(m: Machine, e: Event) {
    match e
    case Establish => m.v.state == Connecting && m.todo == []
    case Dispatch(_) => m.v.index == Added && m.todo == []
    case Next(_, _) => m.todo != []
    case Destroy => m.v.closes > 0 && m.todo == []
    case _ => true
  }

  function Step(m: Machine, e: Event): Machine
    requires Enabled(m, e)
  {
    match e
    case Establish => m.(v := m.v.ConnectEstablished())
    case Dispatch(revents) => m.(todo := Callbacks(revents))
    case Next(r, w) => Machine(m.v.Handle(m.todo[0], r, w), m.todo[1..])
    case Send(data, w) => m.(v := m.v.Send(data, w))
    case Shutdown => m.(v := m.v.Shutdown())
    case Retrieve(len) => m.(v := m.v.Retrieve(len))
    case Destroy => m.(v := m.v.ConnectDestroyed())
  }

  predicate Possible(m: Machine, run: seq<Event>)
    decreases run
  {
    run == [] || (Enabled(m, run[0]) && Possible(Step(m, run[0]), run[1..]))
  }

  function Run(m: Machine, run: seq<Event>): Machine
    requires Possible(m, run)
    decreases run
  {
    if run == [] then m else Run(Step(m, run[0]), run[1..])
  }

  function Start(config: Config): Machine {
    Machine(View(Connecting, New, false, false, [], [], [], [], [], [], 0, 0, [], [], config), [])
  }

  // what user code may do with the connection it is given
  predicate IsUserCall(e: Event) {
    e.Send? || e.Shutdown? || e.Retrieve?
  }

  type Script = s: seq<Event> | forall i :: 0 <= i < |s| ==> IsUserCall(s[i]) witness []

  function RunScript(v: View, script: Script): View
    decreases |script|
  {
    if script == [] then v else RunScript(Step(Machine(v, []), script[0]).v, script[1..])
  }

  // what the message callback gets to do: it is made only when bytes arrived
  function OnMessage(r: ReadResult, script: Script): Script {
    if r.ReadBytes? && r.bytes != [] then script else []
  }

  // handleEventWithGuard: the callbacks of revents, with the message callback's calls right behind the read
  function HandleEvent(v: View, todo: seq<Callback>, r: ReadResult, script: Script, w: WriteResult): View
    decreases todo
  {
    if todo == [] then v else
    var u := v.Handle(todo[0], r, w);
    HandleEvent(if todo[0] == OnRead then RunScript(u, OnMessage(r, script)) else u, todo[1..], r, script, w)
  }

  // the same dispatch as a run of events
  function Expand(todo: seq<Callback>, r: ReadResult, script: Script, w: WriteResult): seq<Event>
    decreases todo
  {
    if todo == [] then []
    else [Next(r, w)] + ((if todo[0] == OnRead then OnMessage(r, script) else []) + Expand(todo[1..], r, script, w))
  }

  lemma {:induction false} ScriptIsRun(m: Machine, script: Script, rest: seq<Event>)
    ensures var u := Machine(RunScript(m.v, script), m.todo);
            && (Possible(m, script + rest) <==> Possible(u, rest))
            && (Possible(u, rest) ==> Run(m, script + rest) == Run(u, rest))
    decreases |script|
  {
    if script == [] {
      assert script + rest == rest;
    } else {
      assert (script + rest)[1..] == script[1..] + rest;
      assert Step(m, script[0]) == Machine(Step(Machine(m.v, []), script[0]).v, m.todo);
      ScriptIsRun(Step(m, script[0]), script[1..], rest);
    }
  }

  /** A whole dispatch, as the channel makes it, is one of the runs of the machine. */
  lemma {:induction false} DispatchIsRun(v: View, todo: seq<Callback>, r: ReadResult, script: Script, w: WriteResult)
    ensures var run := Expand(todo, r, script, w);
            Possible(Machine(v, todo), run) && Run(Machine(v, todo), run) == Machine(HandleEvent(v, todo, r, script, w), [])
    decreases todo
  {
    if todo == [] {
    } else {
      var calls := if todo[0] == OnRead then OnMessage(r, script) else [];
      var rest := Expand(todo[1..], r, script, w);
      var m1 := Step(Machine(v, todo), Next(r, w));
      ScriptIsRun(m1, calls, rest);
      DispatchIsRun(RunScript(m1.v, calls), todo[1..], r, script, w);
      assert Expand(todo, r, script, w)[1..] == calls + rest;
    }
  }

  // ---------------------------------------------------------------- the invariant

  // the bytes of the sends that were not dropped, and of all of them
  function Kept(sends: seq<Chunk>): Bytes {
    if sends == [] then []
    else Kept(sends[..|sends| - 1]) + if sends[|sends| - 1].dropped then [] else sends[|sends| - 1].bytes
  }

  function All(sends: seq<Chunk>): Bytes {
    if sends == [] then [] else All(sends[..|sends| - 1]) + sends[|sends| - 1].bytes
  }

  // the callbacks still to come that may close the connection
  function Closers(todo: seq<Callback>): nat {
    if todo == [] then 0 else (if todo[0] == OnClose || todo[0] == OnRead then 1 else 0) + Closers(todo[1..])
  }

  // the UPs and DOWNs among the upcalls
  function UpsAndDowns(upcalls: seq<Upcall>): seq<Upcall> {
    if upcalls == [] then [] else
    var last := upcalls[|upcalls| - 1];
    UpsAndDowns(upcalls[..|upcalls| - 1]) + if last == Up || last == Down then [last] else []
  }

  ghost predicate StreamInv(v: View) {
    && v.delivered + v.output == Kept(v.sends)
    && v.consumed + v.input == v.received
  }

  ghost predicate InterestInv(v: View) {
    && (v.state != Disconnected ==> (v.writing <==> v.output != []))
    && match v.state
       case Connecting => v.index == New && !v.reading && !v.writing
       case Disconnected => v.index != Added && !v.reading && !v.writing
       case _ => v.index == Added && v.reading
  }

  ghost predicate FinInv(v: View) {
    && v.fins <= 1
    && (v.fins == 1 ==> v.output == [] && v.state in {Disconnecting, Disconnected})
    && (v.state == Disconnecting ==> (v.fins == 1 <==> v.output == []))
  }

  ghost predicate CloseInv(m: Machine) {
    && m.v.closes == (if m.v.state == Disconnected then 1 else 0)
    && Closers(m.todo) <= (if m.v.state in {Connected, Disconnecting} then 1 else 0)
    && UpsAndDowns(m.v.upcalls) == match m.v.state
                                   case Connecting => []
                                   case Disconnected => [Up, Down]
                                   case _ => [Up]
  }

  ghost predicate Inv(m: Machine) {
    StreamInv(m.v) && InterestInv(m.v) && FinInv(m.v) && CloseInv(m)
  }

  lemma ClosersOfCallbacks(revents: Mask)
    ensures Closers(Callbacks(revents)) <= 1
  {
    var close := if revents & EPOLLHUP != 0 && revents & EPOLLIN == 0 then [OnClose] else [];
    var error := if revents & EPOLLERR != 0 then [OnError] else [];
    var read := if revents & EPOLLIN != 0 then [OnRead] else [];
    var write := if revents & EPOLLOUT != 0 then [OnWrite] else [];
    ClosersAdd(close + error + read, write);
    ClosersAdd(close + error, read);
    ClosersAdd(close, error);
  }

  lemma {:induction false} ClosersAdd(a: seq<Callback>, b: seq<Callback>)
    ensures Closers(a + b) == Closers(a) + Closers(b)
  {
    if a == [] {
      assert a + b == b;
    } else {
      assert (a + b)[1..] == a[1..] + b;
      ClosersAdd(a[1..], b);
    }
  }

  // data split at any point and queued behind what is already there reads as before
  lemma Split(delivered: Bytes, output: Bytes, data: Bytes, k: nat)
    requires k <= |data| && (k == 0 || output == [])
    ensures (delivered + data[..k]) + (output + data[k..]) == (delivered + output) + data
  {
  }

  // a send accepted: what is logged, what went to the kernel and what waits
  lemma SendParts(v: View, data: Bytes, w: WriteResult)
    requires v.state == Connected
    ensures var direct := !v.writing && v.output == [];
            var n := w.Count(|data|);
            var wrote := if direct && n > 0 then n else 0;
            var fault := direct && n <= 0 && (w.errno == EPIPE || w.errno == ECONNRESET);
            var u := v.Send(data, w);
            && u.sends == v.sends + [Chunk(data, fault)] && u.delivered == v.delivered + data[..wrote]
            && u.output == (if fault then v.output else v.output + data[wrote..])
            && u.consumed == v.consumed && u.input == v.input && u.received == v.received
  {
  }

  lemma OneMoreKept(sends: seq<Chunk>, c: Chunk)
    ensures Kept(sends + [c]) == Kept(sends) + if c.dropped then [] else c.bytes
  {
    assert (sends + [c])[..|sends|] == sends;
  }

  lemma SendKeepsStream(v: View, data: Bytes, w: WriteResult)
    requires StreamInv(v) && v.state == Connected
    ensures StreamInv(v.Send(data, w))
  {
    hide View.Send, Kept;
    var direct := !v.writing && v.output == [];
    var n := w.Count(|data|);
    var wrote := if direct && n > 0 then n else 0;
    var fault := direct && n <= 0 && (w.errno == EPIPE || w.errno == ECONNRESET);
    SendParts(v, data, w);
    OneMoreKept(v.sends, Chunk(data, fault));
    if !fault {
      Split(v.delivered, v.output, data, wrote);
    }
  }

  lemma SendKeepsInterest(v: View, data: Bytes, w: WriteResult)
    requires InterestInv(v) && FinInv(v) && v.state == Connected
    ensures var u := v.Send(data, w);
            && InterestInv(u) && FinInv(u)
            && u.state == v.state && u.closes == v.closes && u.upcalls == v.upcalls
  {
    var u := v.Send(data, w);
    assert v.fins == u.fins == 0 && u.state == Connected;
    assert |u.output| >= |v.output|;
    if u.output == [] {
      assert u.writing == v.writing && u.index == v.index;
    } else if v.writing {
      assert u.writing == v.writing && u.index == v.index;
    } else {
      assert u.writing && u.index == Added;
    }
  }

  lemma HandleWriteKeeps(v: View, w: WriteResult)
    requires StreamInv(v) && InterestInv(v) && FinInv(v)
    ensures var u := v.HandleWrite(w);
            && StreamInv(u) && InterestInv(u) && FinInv(u)
            && u.state == v.state && u.closes == v.closes && u.upcalls == v.upcalls
  {
    var n := w.Count(|v.output|);
    var u := v.HandleWrite(w);
    if v.writing && n > 0 {
      Split(v.delivered, [], v.output, n);
      assert u.delivered == v.delivered + v.output[..n] && u.output == v.output[n..];
      assert u.delivered + u.output == v.delivered + v.output;
      assert u.sends == v.sends && u.consumed == v.consumed && u.input == v.input && u.received == v.received;
      if u.output != [] {
        assert u.writing == v.writing && u.index == v.index && u.fins == v.fins;
      } else {
        assert !u.writing;
      }
    }
  }

  lemma RetrieveKeeps(v: View, len: nat)
    requires StreamInv(v)
    ensures StreamInv(v.Retrieve(len))
  {
    var k := if len < |v.input| then len else |v.input|;
    assert v.consumed + v.input[..k] + v.input[k..] == v.consumed + v.input;
  }

  lemma HandleCloseKeeps(v: View)
    requires StreamInv(v) && InterestInv(v) && FinInv(v) && v.state in {Connected, Disconnecting}
    ensures var u := v.HandleClose();
            && StreamInv(u) && InterestInv(u) && FinInv(u)
            && u.state == Disconnected && u.closes == v.closes + 1
    ensures UpsAndDowns(v.HandleClose().upcalls) == UpsAndDowns(v.upcalls) + [Down]
  {
    LastUpcall(v.upcalls, Down);
    LastUpcall(v.upcalls + [Down], Closed);
    assert v.upcalls + [Down, Closed] == (v.upcalls + [Down]) + [Closed];
  }

  lemma LastUpcall(upcalls: seq<Upcall>, u: Upcall)
    ensures UpsAndDowns(upcalls + [u]) == UpsAndDowns(upcalls) + if u == Up || u == Down then [u] else []
  {
    assert (upcalls + [u])[..|upcalls|] == upcalls;
  }

  lemma HandleReadKeeps(v: View, r: ReadResult)
    requires StreamInv(v) && InterestInv(v) && FinInv(v) && r.ReadBytes? && r.bytes != []
    ensures var u := v.HandleRead(r);
            && StreamInv(u) && InterestInv(u) && FinInv(u)
            && u.state == v.state && u.closes == v.closes && UpsAndDowns(u.upcalls) == UpsAndDowns(v.upcalls)
  {
    assert v.consumed + (v.input + r.bytes) == v.consumed + v.input + r.bytes;
    LastUpcall(v.upcalls, Message);
  }

  lemma NextKeepsInv(m: Machine, r: ReadResult, w: WriteResult)
    requires Inv(m) && m.todo != []
    ensures Inv(Step(m, Next(r, w)))
  {
    hide View.HandleWrite, View.HandleClose, StreamInv, InterestInv, FinInv;
    var cb := m.todo[0];
    assert Closers(m.todo) == (if cb == OnClose || cb == OnRead then 1 else 0) + Closers(m.todo[1..]);
    if cb == OnWrite {
      HandleWriteKeeps(m.v, w);
    } else if cb == OnClose || (cb == OnRead && r.ReadBytes? && r.bytes == []) {
      HandleCloseKeeps(m.v);
    } else if cb == OnRead && r.ReadBytes? {
      HandleReadKeeps(m.v, r);
    }
  }

  lemma StepKeepsInv(m: Machine, e: Event)
    requires Inv(m) && Enabled(m, e)
    ensures Inv(Step(m, e))
  {
    match e
    case Establish =>
      LastUpcall(m.v.upcalls, Up);
    case Dispatch(revents) =>
      ClosersOfCallbacks(revents);
    case Next(r, w) =>
      NextKeepsInv(m, r, w);
    case Send(data, w) =>
      if m.v.state == Connected {
        SendKeepsStream(m.v, data, w);
        SendKeepsInterest(m.v, data, w);
      }
    case Shutdown =>
    case Retrieve(len) =>
      RetrieveKeeps(m.v, len);
    case Destroy =>
  }

  lemma {:induction false} RunKeepsInv(m: Machine, run: seq<Event>)
    requires Inv(m) && Possible(m, run)
    ensures Inv(Run(m, run))
    decreases run
  {
    hide Step, Inv;
    if run == [] {
    } else {
      StepKeepsInv(m, run[0]);
      RunKeepsInv(Step(m, run[0]), run[1..]);
    }
  }

  lemma StartInv(config: Config)
    ensures Inv(Start(config))
  {
  }
}
