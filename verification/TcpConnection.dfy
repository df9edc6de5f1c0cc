/** TcpConnection as the object it is: two buffers, a channel registered with a poller, a state. Every method
    is proved to do exactly what `Connection.View` says, so the theorems about runs are theorems about it. */
module TcpConnections {
  import opened Buffers
  import opened Epoll
  import opened Reactor
  import opened Connection

  // the masks a connection's channel goes through
  function MaskOf(read: bool, write: bool): Mask {
    (if read then READ_EVENT else NONE_EVENT) | (if write then WRITE_EVENT else NONE_EVENT)
  }

  predicate Reads(m: Mask) {
    m & READ_EVENT != 0
  }

  predicate Writes(m: Mask) {
    m & WRITE_EVENT != 0
  }

  predicate Plain(m: Mask) {
    m == MaskOf(Reads(m), Writes(m))
  }

  lemma PlainMasks(m: Mask)
    requires Plain(m)
    ensures Plain(m | READ_EVENT) && Reads(m | READ_EVENT) && Writes(m | READ_EVENT) == Writes(m)
    ensures Plain(m | WRITE_EVENT) && Reads(m | WRITE_EVENT) == Reads(m) && Writes(m | WRITE_EVENT)
    ensures Plain(m & !WRITE_EVENT) && Reads(m & !WRITE_EVENT) == Reads(m) && !Writes(m & !WRITE_EVENT)
    ensures Plain(NONE_EVENT) && !Reads(NONE_EVENT) && !Writes(NONE_EVENT)
    ensures m == NONE_EVENT <==> !Reads(m) && !Writes(m)
  {
  }

  // a send between its two halves
  function HalfSent(v: Connection.View, data: Bytes, nwrote: nat, fault: bool): Connection.View
    requires nwrote <= |data|
  {
    var done := if 0 < nwrote == |data| && v.config.writeCompleteCallback then [WriteComplete] else [];
    v.(delivered := v.delivered + data[..nwrote], sends := v.sends + [Chunk(data, fault)], queued := v.queued + done)
  }

  lemma SendInLoopIs(v: Connection.View, data: Bytes, w: WriteResult, nwrote: nat, fault: bool)
    requires v.state != Disconnected ==>
               var n := w.Count(|data|);
               && nwrote == (if !v.writing && v.output == [] && n > 0 then n else 0)
               && (fault <==> !v.writing && v.output == [] && n <= 0 && (w.errno == EPIPE || w.errno == ECONNRESET))
    ensures v.state == Disconnected ==> v.SendInLoop(data, w) == v
    ensures v.state != Disconnected ==>
              var u := HalfSent(v, data, nwrote, fault);
              v.SendInLoop(data, w) == if fault || nwrote == |data| then u else u.Buffered(data[nwrote..])
  {
  }

  class TcpConnection {
    const channel: Channel
    const inputBuffer: Buffer
    const outputBuffer: Buffer
    const config: Config
    var state: State
    // functors handed to loop_->queueInLoop, and callbacks made
    var queued: seq<Notice>
    var upcalls: seq<Upcall>

    // what the user sent, what the kernel took and gave, what the user read; how often shutdownWrite and handleClose ran
    ghost var sends: seq<Chunk>
    ghost var delivered: Bytes
    ghost var received: Bytes
    ghost var consumed: Bytes
    ghost var fins: nat
    ghost var closes: nat

    ghost predicate Valid()
      reads this, inputBuffer, outputBuffer, channel, channel.poller, channel.poller.live
    {
      && inputBuffer != outputBuffer && inputBuffer.data != outputBuffer.data
      && inputBuffer.Valid() && outputBuffer.Valid()
      && channel.poller.Valid() && channel in channel.poller.live
      && Plain(channel.events)
    }

    ghost function View(): Connection.View
      reads this, inputBuffer, outputBuffer, inputBuffer.data, outputBuffer.data, channel
      requires inputBuffer.Valid() && outputBuffer.Valid()
    {
      Connection.View(state, channel.index, Reads(channel.events), Writes(channel.events),
                      outputBuffer.Contents(), inputBuffer.Contents(),
                      sends, delivered, received, consumed, fins, closes, queued, upcalls, config)
    }

    // no method of a connection loses track of its buffers or gets an epoll_ctl call refused
    twostate predicate Intact()
      reads this, inputBuffer, outputBuffer, channel, channel.poller, channel.poller.live
    {
      && Valid()
      && (inputBuffer.data == old(inputBuffer.data) || fresh(inputBuffer.data))
      && (outputBuffer.data == old(outputBuffer.data) || fresh(outputBuffer.data))
      && channel.poller.refused == old(channel.poller.refused)
      && channel.poller.live == old(channel.poller.live)
    }

    constructor (channel: Channel, config: Config)
      requires channel.poller.Valid() && channel in channel.poller.live
      requires channel.index == New && channel.events == NONE_EVENT
      ensures Valid() && View() == Start(config).v && this.channel == channel
      ensures fresh(inputBuffer) && fresh(outputBuffer) && fresh(inputBuffer.data) && fresh(outputBuffer.data)
    {
      this.channel, this.config := channel, config;
      inputBuffer := new Buffer(INITIAL_SIZE);
      outputBuffer := new Buffer(INITIAL_SIZE);
      state, queued, upcalls := Connecting, [], [];
      sends, delivered, received, consumed, fins, closes := [], [], [], [], 0, 0;
      new;
      PlainMasks(NONE_EVENT);
    }

    // channel_->enableWriting() and disableWriting(), seen from the connection
    method SetWriting(on: bool)
      requires Valid()
      modifies channel`events, channel`index
      modifies channel.poller`channels, channel.poller`kernel, channel.poller`refused
      ensures Intact() && View() == old(View()).SetInterest(old(View()).reading, on)
      ensures inputBuffer.data == old(inputBuffer.data) && outputBuffer.data == old(outputBuffer.data)
    {
      hide EpollPoller.ValidWith;
      PlainMasks(channel.events);
      if on {
        channel.EnableWriting();
      } else {
        channel.DisableWriting();
      }
    }

    method DisableAll()
      requires Valid()
      modifies channel`events, channel`index
      modifies channel.poller`channels, channel.poller`kernel, channel.poller`refused
      ensures Intact() && View() == old(View()).SetInterest(false, false)
      ensures inputBuffer.data == old(inputBuffer.data) && outputBuffer.data == old(outputBuffer.data)
    {
      hide EpollPoller.ValidWith;
      PlainMasks(channel.events);
      channel.DisableAll();
    }

    method Send(data: Bytes, w: WriteResult)
      requires Valid()
      modifies this, outputBuffer, outputBuffer.data, channel`events, channel`index
      modifies channel.poller`channels, channel.poller`kernel, channel.poller`refused
      ensures Intact() && inputBuffer.data == old(inputBuffer.data) && View() == old(View()).Send(data, w)
    {
      hide EpollPoller.ValidWith;
      if state == Connected {
        SendInLoop(data, w);
      }
    }

    method SendInLoop(data: Bytes, w: WriteResult)
      requires Valid()
      modifies this, outputBuffer, outputBuffer.data, channel`events, channel`index
      modifies channel.poller`channels, channel.poller`kernel, channel.poller`refused
      ensures Intact() && inputBuffer.data == old(inputBuffer.data) && View() == old(View()).SendInLoop(data, w)
    {
      hide EpollPoller.ValidWith, Connection.View.Buffered, Connection.View.SendInLoop, Plain, WriteResult.Count;
      if state == Disconnected {
        SendInLoopIs(View(), data, w, 0, false);
        return;
      }
      var nwrote, faultError := 0, false;
      if !channel.IsWriting() && outputBuffer.ReadableBytes() == 0 {
        nwrote, faultError := WriteDirectly(data, w);
      }
      sends := sends + [Chunk(data, faultError)];
      assert delivered == old(delivered) + data[..nwrote];
      SendInLoopIs(old(View()), data, w, nwrote, faultError);
      assert View() == HalfSent(old(View()), data, nwrote, faultError);
      if !faultError && nwrote < |data| {
        BufferRest(data[nwrote..]);
      }
    }

    // the first half of sendInLoop: with nothing waiting, the bytes go straight to the kernel
    method WriteDirectly(data: Bytes, w: WriteResult) returns (nwrote: nat, faultError: bool)
      modifies this`delivered, this`queued
      ensures nwrote == if w.Count(|data|) > 0 then w.Count(|data|) else 0
      ensures faultError <==> w.Count(|data|) <= 0 && (w.errno == EPIPE || w.errno == ECONNRESET)
      ensures delivered == old(delivered) + data[..nwrote]
      ensures queued == old(queued) + if 0 < nwrote == |data| && config.writeCompleteCallback then [WriteComplete] else []
    {
      faultError := false;
      var n := w.Count(|data|);
      if n > 0 {
        nwrote := n;
        delivered := delivered + data[..n];
        var remaining := |data| - n;
        if remaining == 0 && config.writeCompleteCallback {
          queued := queued + [WriteComplete];
        }
      } else {
        nwrote := 0;
        if w.errno != EWOULDBLOCK {
          if w.errno == EPIPE || w.errno == ECONNRESET {
            faultError := true;
          }
        }
      }
    }

    // the second half of sendInLoop
    method BufferRest(rest: Bytes)
      requires Valid()
      modifies this`queued, outputBuffer, outputBuffer.data, channel`events, channel`index
      modifies channel.poller`channels, channel.poller`kernel, channel.poller`refused
      ensures Intact() && inputBuffer.data == old(inputBuffer.data) && View() == old(View()).Buffered(rest)
    {
      hide EpollPoller.ValidWith;
      var oldLen := outputBuffer.ReadableBytes();
      var remaining := |rest|;
      if oldLen + remaining >= config.highWaterMark && oldLen < config.highWaterMark && config.highWaterMarkCallback {
        queued := queued + [HighWater(oldLen + remaining)];
      }
      outputBuffer.Append(rest);
      if !channel.IsWriting() {
        SetWriting(true);
      }
    }

    method Shutdown()
      requires Valid()
      modifies this
      ensures Intact() && View() == old(View()).Shutdown()
      ensures inputBuffer.data == old(inputBuffer.data) && outputBuffer.data == old(outputBuffer.data)
    {
      hide EpollPoller.ValidWith;
      if state == Connected {
        state := Disconnecting;
        ShutdownInLoop();
      }
    }

    method ShutdownInLoop()
      requires Valid()
      modifies this`fins
      ensures Valid() && View() == old(View()).ShutdownInLoop()
    {
      hide EpollPoller.ValidWith;
      if !channel.IsWriting() {
        fins := fins + 1;  // socket_->shutdownWrite()
      }
    }

    // user code reads from the input buffer
    method RetrieveInput(len: nat) returns (bytes: Bytes)
      requires Valid()
      modifies this`consumed, inputBuffer`readerIndex, inputBuffer`writeIndex
      ensures Intact() && View() == old(View()).Retrieve(len)
      ensures inputBuffer.data == old(inputBuffer.data) && outputBuffer.data == old(outputBuffer.data)
      ensures old(consumed) + bytes == consumed && bytes <= old(inputBuffer.Contents())
    {
      hide EpollPoller.ValidWith;
      var k := if len < inputBuffer.ReadableBytes() then len else inputBuffer.ReadableBytes();
      bytes := inputBuffer.RetrieveAsString(k);
      consumed := consumed + bytes;
    }

    method ConnectEstablished()
      requires Valid()
      modifies this, channel`events, channel`index
      modifies channel.poller`channels, channel.poller`kernel, channel.poller`refused
      ensures Intact() && View() == old(View()).ConnectEstablished()
      ensures channel.fd in channel.poller.kernel && channel.poller.kernel[channel.fd].channel == channel
    {
      PlainMasks(channel.events);
      state := Connected;
      channel.EnableReading();
      upcalls := upcalls + [Up];
    }

    method ConnectDestroyed()
      requires Valid()
      modifies this, channel`events, channel`index
      modifies channel.poller`channels, channel.poller`kernel, channel.poller`refused
      ensures Intact() && View() == old(View()).ConnectDestroyed()
      ensures channel.fd !in channel.poller.kernel && channel.fd !in channel.poller.channels
    {
      if state == Connected {
        state := Disconnected;
        DisableAll();
        upcalls := upcalls + [Down];
      }
      channel.Remove();
    }

    method HandleRead(r: ReadResult) returns (message: bool)
      requires Valid()
      requires r.ReadBytes? ==> |r.bytes| <= inputBuffer.ReadCapacity()
      modifies this, inputBuffer, inputBuffer.data, channel`events, channel`index
      modifies channel.poller`channels, channel.poller`kernel, channel.poller`refused
      ensures Intact() && outputBuffer.data == old(outputBuffer.data) && View() == old(View()).HandleRead(r)
      ensures message <==> r.ReadBytes? && r.bytes != []
    {
      hide EpollPoller.ValidWith;
      message := false;
      var n, savedErrno := inputBuffer.ReadFd(r);
      if n > 0 {
        received := received + r.bytes;
        upcalls := upcalls + [Message];
        message := true;
      } else if n == 0 {
        assert inputBuffer.Contents() == old(inputBuffer.Contents());
        HandleClose();
      }
    }

    method HandleWrite(w: WriteResult)
      requires Valid()
      modifies this, outputBuffer, channel`events, channel`index
      modifies channel.poller`channels, channel.poller`kernel, channel.poller`refused
      ensures Intact() && inputBuffer.data == old(inputBuffer.data) && outputBuffer.data == old(outputBuffer.data)
      ensures View() == old(View()).HandleWrite(w)
      // what the kernel takes, and nothing else, leaves the buffer
      ensures var output := old(outputBuffer.Contents());
              var n := if !Writes(old(channel.events)) || w.room <= 0 then 0 else if w.room < |output| then w.room else |output|;
              delivered == old(delivered) + output[..n] && outputBuffer.Contents() == output[n..]
    {
      hide EpollPoller.ValidWith;
      if channel.IsWriting() {
        var n := w.Count(outputBuffer.ReadableBytes());  // writeFd
        if n > 0 {
          delivered := delivered + outputBuffer.Contents()[..n];
          outputBuffer.Retrieve(n);
          if outputBuffer.ReadableBytes() == 0 {
            WriteCompleted();
          }
        }
      }
    }

    // the part of handleWrite that runs when the output buffer is empty again
    method WriteCompleted()
      requires Valid()
      modifies this`queued, this`fins, channel`events, channel`index
      modifies channel.poller`channels, channel.poller`kernel, channel.poller`refused
      ensures Intact() && inputBuffer.data == old(inputBuffer.data) && outputBuffer.data == old(outputBuffer.data)
      ensures View() == old(View()).Drained()
    {
      hide EpollPoller.ValidWith;
      SetWriting(false);
      if config.writeCompleteCallback {
        queued := queued + [WriteComplete];
      }
      if state == Disconnecting {
        ShutdownInLoop();
      }
    }

    method HandleClose()
      requires Valid()
      modifies this, channel`events, channel`index
      modifies channel.poller`channels, channel.poller`kernel, channel.poller`refused
      ensures Intact() && View() == old(View()).HandleClose()
      ensures inputBuffer.data == old(inputBuffer.data) && outputBuffer.data == old(outputBuffer.data)
    {
      hide EpollPoller.ValidWith;
      state := Disconnected;
      DisableAll();
      closes := closes + 1;
      upcalls := upcalls + [Down, Closed];
    }

    // one call of the user's on this connection
    method RunUserCall(e: Event)
      requires Valid() && IsUserCall(e)
      modifies this, inputBuffer, outputBuffer, outputBuffer.data, channel`events, channel`index
      modifies channel.poller`channels, channel.poller`kernel, channel.poller`refused
      ensures Intact() && inputBuffer.data == old(inputBuffer.data)
      ensures View() == Step(Machine(old(View()), []), e).v
    {
      hide EpollPoller.ValidWith;
      match e {
        case Send(data, w) => Send(data, w);
        case Shutdown => Shutdown();
        case Retrieve(len) => var _ := RetrieveInput(len);
        case _ => assert false;
      }
    }

    // the user's message callback: any sequence of such calls
    method RunUserCode(script: Script)
      requires Valid()
      modifies this, inputBuffer, outputBuffer, outputBuffer.data, channel`events, channel`index
      modifies channel.poller`channels, channel.poller`kernel, channel.poller`refused
      ensures Intact() && inputBuffer.data == old(inputBuffer.data) && View() == RunScript(old(View()), script)
      decreases |script|
    {
      hide EpollPoller.ValidWith;
      if script != [] {
        RunUserCall(script[0]);
        RunUserCode(script[1..]);
      }
    }

    /** Channel::handleEventWithGuard with this connection's callbacks. */
    method HandleEvent(r: ReadResult, script: Script, w: WriteResult)
      requires Valid()
      requires r.ReadBytes? ==> |r.bytes| <= inputBuffer.ReadCapacity()
      modifies this, inputBuffer, inputBuffer.data, outputBuffer, outputBuffer.data, channel`events, channel`index
      modifies channel.poller`channels, channel.poller`kernel, channel.poller`refused
      ensures Intact() && View() == Connection.HandleEvent(old(View()), Callbacks(channel.revents), r, script, w)
      ensures var run := Expand(Callbacks(channel.revents), r, script, w);
              var m := Machine(old(View()), Callbacks(channel.revents));
              Possible(m, run) && Connection.Run(m, run) == Machine(View(), [])
    {
      hide EpollPoller.ValidWith, Callbacks, Expand, RunScript, Possible, Connection.Run, Connection.HandleEvent,
        Connection.View.HandleClose, Connection.View.HandleRead, Connection.View.HandleWrite, Plain;
      var revents := channel.revents;
      if revents & EPOLLHUP != 0 && revents & EPOLLIN == 0 {
        HandleClose();
      }
      if revents & EPOLLERR != 0 {
        // handleError only logs
      }
      if revents & EPOLLIN != 0 {
        var message := HandleRead(r);
        RunUserCode(if message then script else []);
      }
      if revents & EPOLLOUT != 0 {
        HandleWrite(w);
      }
      DispatchInOrder(old(View()), revents, r, script, w);
    }
  }

  // the tests of handleEventWithGuard make the callbacks of the dispatch, in order
  lemma DispatchInOrder(v: Connection.View, revents: Mask, r: ReadResult, script: Script, w: WriteResult)
    ensures var v1 := if revents & EPOLLHUP != 0 && revents & EPOLLIN == 0 then v.HandleClose() else v;
            var v2 := if revents & EPOLLIN != 0 then RunScript(v1.HandleRead(r), OnMessage(r, script)) else v1;
            var v3 := if revents & EPOLLOUT != 0 then v2.HandleWrite(w) else v2;
            var run := Expand(Callbacks(revents), r, script, w);
            var m := Machine(v, Callbacks(revents));
            && v3 == Connection.HandleEvent(v, Callbacks(revents), r, script, w)
            && Possible(m, run) && Connection.Run(m, run) == Machine(v3, [])
  {
    hide *;
    CallbacksInOrder(v, revents, r, script, w);
    DispatchIsRun(v, Callbacks(revents), r, script, w);
  }

  // handleEventWithGuard, one test after the other
  lemma CallbacksInOrder(v: Connection.View, revents: Mask, r: ReadResult, script: Script, w: WriteResult)
    ensures var v1 := if revents & EPOLLHUP != 0 && revents & EPOLLIN == 0 then v.HandleClose() else v;
            var v2 := if revents & EPOLLIN != 0 then RunScript(v1.HandleRead(r), OnMessage(r, script)) else v1;
            var v3 := if revents & EPOLLOUT != 0 then v2.HandleWrite(w) else v2;
            v3 == Connection.HandleEvent(v, Callbacks(revents), r, script, w)
  {
    var close := if revents & EPOLLHUP != 0 && revents & EPOLLIN == 0 then [OnClose] else [];
    var error := if revents & EPOLLERR != 0 then [OnError] else [];
    var read := if revents & EPOLLIN != 0 then [OnRead] else [];
    var write := if revents & EPOLLOUT != 0 then [OnWrite] else [];
    HandleEventAppend(v, close + error + read, write, r, script, w);
    HandleEventAppend(v, close + error, read, r, script, w);
    HandleEventAppend(v, close, error, r, script, w);
  }

  lemma {:induction false} HandleEventAppend(v: Connection.View, a: seq<Callback>, b: seq<Callback>, r: ReadResult,
                                             script: Script, w: WriteResult)
    ensures Connection.HandleEvent(v, a + b, r, script, w)
            == Connection.HandleEvent(Connection.HandleEvent(v, a, r, script, w), b, r, script, w)
    decreases a
  {
    if a == [] {
      assert a + b == b;
    } else {
      assert (a + b)[1..] == a[1..] + b;
      var u := v.Handle(a[0], r, w);
      HandleEventAppend(if a[0] == OnRead then RunScript(u, OnMessage(r, script)) else u, a[1..], b, r, script, w);
    }
  }
}
