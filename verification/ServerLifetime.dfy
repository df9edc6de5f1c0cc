/** The life of connections across loops. A base loop accepts and keeps the registry; each connection's handlers
    run on its own loop; between them travel functors that hold the connection alive. Every loop is
    polling, dispatching the channels its poll returned, or running a batch of functors, and the loops'
    steps interleave freely. Loop 0 is the base loop; with no sub-loops it serves the connections too. */
module ServerLifetime {
  import opened Epoll
  import opened LoopPool
  import C = Connection

  type Id = nat

  // EPOLLIN | EPOLLPRI | EPOLLOUT
  const READ_WRITE: Mask := 0x7

  datatype Functor =
    | Established(c: Id)      // TcpConnection::connectEstablished
    | RemoveInLoop(c: Id)     // TcpServer::removeConnectionInLoop
    | Destroyed(c: Id)        // TcpConnection::connectDestroyed
    | Callback(c: Id)         // a user callback bound to the connection

  datatype Item = Acceptor | Conn(c: Id)

  // the connection being handled, held by the guard of handleEvent, and its callbacks still to be made
  datatype Guard = NoGuard | Guard(c: Id, todo: seq<C.Callback>)

  datatype Phase =
    | Polling
    | Dispatching(todo: seq<Item>, guard: Guard)
    | Running(batch: seq<Functor>, next: nat)   // the batch lives until its last functor has run

  datatype Loop = Loop(phase: Phase, queue: seq<Functor>, poller: PollerView<Id>)

  datatype Connection = Connection(
    name: string, fd: int, loop: nat,
    state: C.State, index: ChannelIndex, events: Mask,
    log: seq<C.Upcall>)

  datatype Server = Server(
    name: string, ipPort: string, subLoops: nat,
    nextLoop: nat, nextConnId: nat,
    conns: map<Id, Connection>,        // every connection ever accepted, by its number
    registry: map<string, Id>,         // connections_
    loops: seq<Loop>,
    users: set<Id>)                    // connections user code keeps a pointer to

  // ---------------------------------------------------------------- who holds a connection

  ghost predicate LoopHolds(lp: Loop, c: Id) {
    || (exists i :: 0 <= i < |lp.queue| && lp.queue[i].c == c)
    || match lp.phase
       case Polling => false
       case Dispatching(_, guard) => guard.Guard? && guard.c == c
       case Running(batch, _) => exists i :: 0 <= i < |batch| && batch[i].c == c
  }

  ghost predicate Registered(s: Server, c: Id) {
    exists n :: n in s.registry && s.registry[n] == c
  }

  // some shared_ptr to the connection exists; without one it has been destroyed and its fd closed
  ghost predicate Held(s: Server, c: Id) {
    || Registered(s, c)
    || c in s.users
    || exists l :: 0 <= l < |s.loops| && LoopHolds(s.loops[l], c)
  }

  // ---------------------------------------------------------------- what the code does

  function Push(s: Server, l: nat, f: Functor): Server
    requires l < |s.loops|
  {
    s.(loops := s.loops[l := s.loops[l].(queue := s.loops[l].queue + [f])])
  }

  function SetPhase(s: Server, l: nat, phase: Phase): Server
    requires l < |s.loops|
  {
    s.(loops := s.loops[l := s.loops[l].(phase := phase)])
  }

  // a connection's record and its loop's poller change together
  function SetConn(s: Server, c: Id, k: Connection, p: PollerView<Id>): Server
    requires k.loop < |s.loops|
  {
    s.(conns := s.conns[c := k], loops := s.loops[k.loop := s.loops[k.loop].(poller := p)])
  }

  function SetEvents(s: Server, c: Id, k: Connection, events: Mask): Server
    requires k.loop < |s.loops|
  {
    SetConn(s, c, k.(events := events, index := UpdatedIndex(k.index, events)),
            UpdateChannel(s.loops[k.loop].poller, c, k.fd, k.index, events))
  }

  function ConnectEstablished(s: Server, c: Id): Server
    requires Typed(s) && c in s.conns
  {
    var k := s.conns[c];
    SetEvents(s, c, k.(state := C.Connected, log := k.log + [C.Up]), READ_EVENT)
  }

  function RemoveConnectionInLoop(s: Server, c: Id): Server
    requires Typed(s) && c in s.conns
  {
    var k := s.conns[c];
    Push(s.(registry := s.registry - {k.name}), k.loop, Destroyed(c))
  }

  function ConnectDestroyed(s: Server, c: Id): Server
    requires Typed(s) && c in s.conns
  {
    var k := s.conns[c];
    var t := if k.state == C.Connected
             then SetEvents(s, c, k.(state := C.Disconnected, log := k.log + [C.Down]), NONE_EVENT) else s;
    var k1 := t.conns[c];
    SetConn(t, c, k1.(index := New), RemoveChannel(t.loops[k1.loop].poller, c, k1.fd, k1.index, k1.events))
  }

  function Exec(s: Server, f: Functor): Server
    requires Typed(s) && f.c in s.conns
  {
    match f
    case Established(c) => ConnectEstablished(s, c)
    case RemoveInLoop(c) => RemoveConnectionInLoop(s, c)
    case Destroyed(c) => ConnectDestroyed(s, c)
    case Callback(_) => s
  }

  // EventLoop::runInLoop, called on loop `current`
  function RunInLoop(s: Server, current: nat, target: nat, f: Functor): Server
    requires Typed(s) && f.c in s.conns && target < |s.loops|
  {
    if current == target then Exec(s, f) else Push(s, target, f)
  }

  function HandleClose(s: Server, c: Id): Server
    requires Typed(s) && c in s.conns
  {
    var k := s.conns[c];
    SetEvents(s, c, k.(state := C.Disconnected, log := k.log + [C.Down]), NONE_EVENT)
  }

  function NewConnection(s: Server, fd: int): Server
    requires Typed(s)
  {
    var io := if s.subLoops == 0 then 0 else 1 + s.nextLoop;
    var following := if s.subLoops == 0 then s.nextLoop else if s.nextLoop + 1 >= s.subLoops then 0 else s.nextLoop + 1;
    var id := s.nextConnId;
    var name := ConnName(s.name, s.ipPort, id);
    var k := Connection(name, fd, io, C.Connecting, New, NONE_EVENT, []);
    s.(nextLoop := following, nextConnId := id + 1, conns := s.conns[id := k], registry := s.registry[name := id])
  }

  // ---------------------------------------------------------------- steps

  datatype Step =
    | PollReturn(l: nat, items: seq<Item>)
    | Accept(fd: int)                  // the acceptor's turn on the base loop; accept gave this fd
    | AcceptNone                       // ... or failed
    | BeginHandle(l: nat, revents: Mask)   // the next channel's turn: lock its tie
    // the next of its callbacks
    | Close(l: nat)                    // runs handleClose
    | Drain(l: nat)                    // empties the output buffer and stops writing
    | Pass(l: nat)                     // does neither: reads, writes a part, fails or logs
    | EndHandle(l: nat)
    | Swap(l: nat)
    | RunFunctor(l: nat)
    | EndBatch(l: nat)
    // user code on a connection's own loop, inside a handler or a functor
    | Shutdown(l: nat, c: Id)
    | StartWriting(l: nat, c: Id)      // a send that has to buffer
    | QueueCallback(l: nat, c: Id)
    // user code anywhere
    | Keep(c: Id)
    | Drop(c: Id)

  ghost predicate Busy(s: Server, l: nat, c: Id) {
    && l < |s.loops| && c in s.conns && s.conns[c].loop == l && Held(s, c)
    && !s.loops[l].phase.Polling?
  }

  // loop l is in the handler of a connection and has a callback to make
  ghost predicate Handling(s: Server, l: nat) {
    && l < |s.loops| && s.loops[l].phase.Dispatching?
    && s.loops[l].phase.guard.Guard? && s.loops[l].phase.guard.todo != []
  }

  // ids name created connections, loop numbers loops
  ghost predicate Typed(s: Server) {
    && |s.loops| == s.subLoops + 1
    && (forall c :: c in s.conns ==> s.conns[c].loop < |s.loops|)
    && (forall n :: n in s.registry ==> s.registry[n] in s.conns)
    && s.users <= s.conns.Keys
    && (s.subLoops > 0 ==> s.nextLoop < s.subLoops)
    && forall l :: 0 <= l < |s.loops| ==> TypedLoop(s.conns.Keys, s.loops[l])
  }

  ghost predicate TypedLoop(ids: set<Id>, lp: Loop) {
    && (forall i :: 0 <= i < |lp.queue| ==> lp.queue[i].c in ids)
    && match lp.phase
       case Polling => true
       case Dispatching(todo, guard) =>
         (forall i :: 0 <= i < |todo| && todo[i].Conn? ==> todo[i].c in ids) && (guard.Guard? ==> guard.c in ids)
       case Running(batch, next) => next <= |batch| && forall i :: 0 <= i < |batch| ==> batch[i].c in ids
  }

  ghost predicate Enabled(s: Server, e: Step)
    requires Typed(s)
  {
    match e
    case PollReturn(l, items) =>
      && l < |s.loops| && s.loops[l].phase == Polling
      // every registered channel at most once; only the base loop has the acceptor
      && (forall i, j :: 0 <= i < j < |items| ==> items[i] != items[j])
      && (forall i :: 0 <= i < |items| ==>
            if items[i].Acceptor? then l == 0
            else exists fd :: fd in s.loops[l].poller.kernel && s.loops[l].poller.kernel[fd].channel == items[i].c)
      && (forall i :: 0 <= i < |items| && items[i].Conn? ==> items[i].c in s.conns)
    case Accept(fd) =>
      && s.loops[0].phase.Dispatching? && s.loops[0].phase.guard == NoGuard
      && s.loops[0].phase.todo != [] && s.loops[0].phase.todo[0].Acceptor?
      && s.nextConnId < MAX_INT
      // an fd is free once the connection it belonged to has been destroyed
      && (forall c :: c in s.conns && Held(s, c) ==> s.conns[c].fd != fd)
    case AcceptNone =>
      && s.loops[0].phase.Dispatching? && s.loops[0].phase.guard == NoGuard
      && s.loops[0].phase.todo != [] && s.loops[0].phase.todo[0].Acceptor?
    case BeginHandle(l, _) =>
      && l < |s.loops| && s.loops[l].phase.Dispatching? && s.loops[l].phase.guard == NoGuard
      && s.loops[l].phase.todo != [] && s.loops[l].phase.todo[0].Conn?
    // the close callback always closes, the read callback at the end of the stream
    case Close(l) => Handling(s, l) && s.loops[l].phase.guard.todo[0] in {C.OnClose, C.OnRead}
    // handleWrite stops writing only if the channel is writing
    case Drain(l) =>
      && Handling(s, l) && s.loops[l].phase.guard.todo[0] == C.OnWrite
      && s.conns[s.loops[l].phase.guard.c].events == READ_WRITE
    case Pass(l) => Handling(s, l) && s.loops[l].phase.guard.todo[0] != C.OnClose
    case EndHandle(l) =>
      && l < |s.loops| && s.loops[l].phase.Dispatching? && s.loops[l].phase.guard.Guard?
      && s.loops[l].phase.guard.todo == []
    case Swap(l) =>
      l < |s.loops| && s.loops[l].phase == Dispatching([], NoGuard)
    case RunFunctor(l) =>
      l < |s.loops| && s.loops[l].phase.Running? && s.loops[l].phase.next < |s.loops[l].phase.batch|
    case EndBatch(l) =>
      l < |s.loops| && s.loops[l].phase.Running? && s.loops[l].phase.next == |s.loops[l].phase.batch|
    case Shutdown(l, c) => Busy(s, l, c)
    // send() buffers only in state Connected
    case StartWriting(l, c) => Busy(s, l, c) && s.conns[c].state == C.Connected
    case QueueCallback(l, c) => Busy(s, l, c)
    case Keep(c) => c in s.conns && Held(s, c)
    case Drop(c) => c in s.users
  }

  // the handler's next callback is on its way
  function Called(s: Server, l: nat): Server
    requires l < |s.loops| && s.loops[l].phase.Dispatching?
    requires s.loops[l].phase.guard.Guard? && s.loops[l].phase.guard.todo != []
  {
    var guard := s.loops[l].phase.guard;
    SetPhase(s, l, Dispatching(s.loops[l].phase.todo, Guard(guard.c, guard.todo[1..])))
  }

  // the base loop takes one connection
  ghost function Accepted(s: Server, fd: int): Server
    requires Typed(s) && Enabled(s, Accept(fd))
  {
    var t := NewConnection(SetPhase(s, 0, Dispatching(s.loops[0].phase.todo[1..], NoGuard)), fd);
    AcceptTyped(s, fd);
    RunInLoop(t, 0, t.conns[s.nextConnId].loop, Established(s.nextConnId))
  }

  // the handler's next callback closes its connection and tells the base loop
  ghost function Closed(s: Server, l: nat): Server
    requires Typed(s) && Enabled(s, Close(l))
  {
    CalledTyped(s, l);
    var c := s.loops[l].phase.guard.c;
    RunInLoop(HandleClose(Called(s, l), c), l, 0, RemoveInLoop(c))
  }

  ghost function Next(s: Server, e: Step): Server
    requires Typed(s) && Enabled(s, e)
  {
    match e
    case PollReturn(l, items) => SetPhase(s, l, Dispatching(items, NoGuard))
    case Accept(fd) => Accepted(s, fd)
    case AcceptNone => SetPhase(s, 0, Dispatching(s.loops[0].phase.todo[1..], NoGuard))
    case BeginHandle(l, revents) =>
      var c := s.loops[l].phase.todo[0].c;
      // tie_.lock() succeeds if somebody still holds the connection
      SetPhase(s, l, Dispatching(s.loops[l].phase.todo[1..],
                                 if Held(s, c) then Guard(c, C.Callbacks(revents)) else NoGuard))
    case Close(l) => Closed(s, l)
    case Drain(l) =>
      CalledTyped(s, l);
      var c := s.loops[l].phase.guard.c;
      SetEvents(Called(s, l), c, s.conns[c], READ_EVENT)
    case Pass(l) => Called(s, l)
    case EndHandle(l) => SetPhase(s, l, Dispatching(s.loops[l].phase.todo, NoGuard))
    case Swap(l) =>
      s.(loops := s.loops[l := s.loops[l].(phase := Running(s.loops[l].queue, 0), queue := [])])
    case RunFunctor(l) =>
      var batch, next := s.loops[l].phase.batch, s.loops[l].phase.next;
      var t := SetPhase(s, l, Running(batch, next + 1));
      PhaseTyped(s, l, Running(batch, next + 1));
      Exec(t, batch[next])
    case EndBatch(l) => SetPhase(s, l, Polling)
    case Shutdown(l, c) =>
      var k := s.conns[c];
      s.(conns := s.conns[c := if k.state == C.Connected then k.(state := C.Disconnecting) else k])
    case StartWriting(l, c) => SetEvents(s, c, s.conns[c], READ_WRITE)
    case QueueCallback(l, c) => Push(s, l, Callback(c))
    case Keep(c) => s.(users := s.users + {c})
    case Drop(c) => s.(users := s.users - {c})
  }

  // ---------------------------------------------------------------- well-typedness of intermediate states

  lemma PhaseTyped(s: Server, l: nat, phase: Phase)
    requires Typed(s) && l < |s.loops|
    requires TypedLoop(s.conns.Keys, s.loops[l].(phase := phase))
    ensures Typed(SetPhase(s, l, phase))
  {
  }

  lemma AcceptTyped(s: Server, fd: int)
    requires Typed(s) && Enabled(s, Accept(fd))
    ensures Typed(NewConnection(SetPhase(s, 0, Dispatching(s.loops[0].phase.todo[1..], NoGuard)), fd))
  {
    PhaseTyped(s, 0, Dispatching(s.loops[0].phase.todo[1..], NoGuard));
  }

  lemma CalledTyped(s: Server, l: nat)
    requires Typed(s) && Handling(s, l)
    ensures Typed(Called(s, l)) && Typed(HandleClose(Called(s, l), s.loops[l].phase.guard.c))
  {
    var guard := s.loops[l].phase.guard;
    PhaseTyped(s, l, Dispatching(s.loops[l].phase.todo, Guard(guard.c, guard.todo[1..])));
  }
}
