/** TcpConnection as an object over two Buffers and a Channel.  Its abstract value
    is a Connection.Conn; each method makes the move of the same name there.
    System calls, queued callbacks and changes of interest are small methods that
    record what they were really given. */
module TcpConnectionObject {
  import opened ByteBuffer
  import opened Registration
  import opened Connection
  import opened ConnectionState
  import opened EPoll
  import BufferShape

  function Tried(c: Conn, data: seq<byte>, w: WriteResult): Conn
    requires Fits(w, |data|)
  {
    var d := c.(sends := c.sends + 1);
    if !c.events.writing && c.output == [] then Written(d, data, w) else d.(accepted := c.accepted + data)
  }

  /** What is left to be buffered. */
  function Left(c: Conn, data: seq<byte>, w: WriteResult): seq<byte>
    requires Fits(w, |data|)
  {
    if !c.events.writing && c.output == [] then Rest(data, w) else data
  }

  lemma SendInLoopIs(c: Conn, data: seq<byte>, w: WriteResult)
    requires c.state != Disconnected && Fits(w, |data|)
    ensures Connection.SendInLoop(c, data, w) == Buffered(Tried(c, data, w), Left(c, data, w))
  {
  }

  class TcpConnection {
    const cfg: Config
    var state: ConnState
    const inputBuffer: Buffer
    const outputBuffer: Buffer
    const channel: Channel
    var queue: seq<nat>      // pending sendFileInLoop functors, by request
    var book: seq<Transfer>
    ghost var h: Conn        // the history; its other fields are not read

    ghost predicate Valid()
      reads this, inputBuffer, outputBuffer, channel.poller
    {
      && inputBuffer != outputBuffer && inputBuffer.buffer != outputBuffer.buffer
      && inputBuffer.Valid() && outputBuffer.Valid()
      && channel.Known()
    }

    ghost function Abs(): Conn
      requires Valid()
      reads this, inputBuffer, outputBuffer, channel
      reads inputBuffer.buffer, outputBuffer.buffer, channel.poller
    {
      h.(cfg := cfg, state := state, events := channel.events, queue := queue, book := book,
         input := inputBuffer.Contents(), output := outputBuffer.Contents())
    }

    /** Objects whose fields the methods may change. */
    ghost function Frame(): set<object>
      reads this, inputBuffer, outputBuffer
    {
      {this, inputBuffer, inputBuffer.buffer, outputBuffer, outputBuffer.buffer, channel, channel.poller}
    }

    /** What every method promises beside its move: the object stays well formed
        and any new array is its own. */
    twostate predicate Kept()
      reads this, inputBuffer, outputBuffer, channel.poller
    {
      Valid() && fresh(Frame() - old(Frame()))
    }

    /** The poller is told the mask when it changes, and nothing otherwise. */
    twostate predicate PollerFollows()
      requires old(channel.Known())
      reads channel, channel.poller, channel.poller.known
    {
      if channel.events == old(channel.events) then channel.Untold() else channel.Told(channel.events)
    }

    /** If the records agreed they still do, with no call refused; and a channel the
        kernel had, or that has just changed its mask, is in the kernel with the
        mask it has now. */
    twostate predicate StillWatched()
      requires old(channel.Known())
      reads channel, channel.poller, channel.poller.known
    {
      && channel.OrderKept()
      && (old(channel.InOrder()) && channel.events != NO_INTEREST ==>
            old(channel.Watched()) || channel.events != old(channel.events) ==> channel.Watched())
    }

    twostate lemma FollowingWatches()
      requires old(channel.Known()) && PollerFollows()
      ensures StillWatched()
    {
      if channel.events != old(channel.events) {
        channel.ToldKeepsOrder(channel.events);
      }
    }

    constructor (cfg: Config, channel: Channel)
      requires channel.Known() && channel.events == NO_INTEREST
      ensures Valid() && this.channel == channel && fresh(Frame() - {channel, channel.poller})
      ensures Abs() == Initial(cfg)
    {
      this.cfg := cfg;
      this.channel := channel;
      state := Connecting;
      inputBuffer := new Buffer();
      outputBuffer := new Buffer();
      queue, book := [], [];
      h := Initial(cfg);
    }

    // ---------- System calls and callbacks ----------

    /** ::write(fd, data, len). */
    method SysWrite(data: seq<byte>, w: WriteResult) returns (n: int)
      requires Valid() && Fits(w, |data|)
      modifies this`h
      ensures Kept() && n == if w.Wrote? then w.n else -1
      ensures Abs() == old(Abs()).(
                wire := old(Abs()).wire + [Sent(if w.Wrote? then data[..w.n] else [])])
    {
      n := if w.Wrote? then w.n else -1;
      h := h.(wire := h.wire + [Sent(if w.Wrote? then data[..w.n] else [])]);
    }

    /** shutdown(fd, SHUT_WR). */
    method SysShutdownWrite()
      requires Valid()
      modifies this`h
      ensures Kept() && Abs() == old(Abs()).(wire := old(Abs()).wire + [Fin])
      ensures channel.Untold()
    {
      h := h.(wire := h.wire + [Fin]);
    }

    /** Queues writeCompleteCallback_, if it is set. */
    method QueueWriteComplete()
      requires Valid()
      modifies this`h
      ensures Kept() && Abs() == Completed(old(Abs()))
      ensures channel.Untold()
    {
      if cfg.onComplete {
        h := h.(completes := h.completes + 1);
      }
    }

    method QueueHighWaterMark(backlog: nat)
      requires Valid()
      modifies this`h
      ensures Kept() && Abs() == old(Abs()).(marks := old(Abs()).marks + [backlog])
    {
      h := h.(marks := h.marks + [backlog]);
    }

    method AppendOutput(data: seq<byte>)
      requires Valid()
      modifies outputBuffer, outputBuffer.buffer
      ensures Kept() && Abs() == old(Abs()).(output := old(Abs()).output + data)
    {
      outputBuffer.Append(data);
    }

    /** outputBuffer_.retrieve(n). */
    method RetrieveOutput(n: nat)
      requires Valid() && n <= outputBuffer.ReadableBytes()
      modifies outputBuffer
      ensures Kept() && Abs() == old(Abs()).(output := old(Abs()).output[n..])
    {
      outputBuffer.Retrieve(n);
    }

    /** outputBuffer_.writeFd(fd, ...). */
    method WriteOutput(w: WriteResult) returns (n: int)
      requires Valid() && Fits(w, outputBuffer.ReadableBytes())
      modifies this`h
      ensures Kept() && n == if w.Wrote? then w.n else -1
      ensures Abs() == old(Abs()).(
                wire := old(Abs()).wire + [Sent(if w.Wrote? then old(Abs()).output[..w.n] else [])])
    {
      var taken;
      n, taken := outputBuffer.WriteFd(w);
      h := h.(wire := h.wire + [Sent(taken)]);
    }

    /** inputBuffer_.retrieveAllAsString(). */
    method RetrieveInput() returns (msg: seq<byte>)
      requires Valid()
      modifies inputBuffer
      ensures Kept() && msg == old(Abs()).input && Abs() == old(Abs()).(input := [])
    {
      msg := inputBuffer.RetrieveAllAsString();
    }

    /** Which part of handleEventWithGuard comes next. */
    ghost method SetStage(stage: Stage)
      requires Valid()
      modifies this`h
      ensures Kept() && Abs() == old(Abs()).(stage := stage)
    {
      h := h.(stage := stage);
    }

    // ---------- Interest and state ----------

    method EnableWriting()
      requires Valid()
      modifies channel`events, channel`index, channel.poller
      ensures Kept() && Abs() == old(Abs()).(events := old(Abs()).events.(writing := true))
      ensures channel.Told(channel.events)
      ensures channel.OrderKept() && (old(channel.InOrder()) ==> channel.Watched())
    {
      channel.EnableWriting();
      channel.ToldKeepsOrder(channel.events);
    }

    method DisableWriting()
      requires Valid()
      modifies channel`events, channel`index, channel.poller
      ensures Kept() && Abs() == old(Abs()).(events := old(Abs()).events.(writing := false))
      ensures channel.Told(channel.events)
      ensures channel.OrderKept()
    {
      channel.DisableWriting();
      channel.ToldKeepsOrder(channel.events);
    }

    method DisableAll()
      requires Valid()
      modifies channel`events, channel`index, channel.poller
      ensures Kept() && Abs() == old(Abs()).(events := NO_INTEREST)
      ensures channel.Told(NO_INTEREST)
      ensures channel.OrderKept()
    {
      channel.DisableAll();
      channel.ToldKeepsOrder(NO_INTEREST);
    }

    method SetState(s: ConnState)
      requires Valid()
      modifies this`state
      ensures Kept() && Abs() == old(Abs()).(state := s)
      ensures channel.Untold()
    {
      state := s;
    }

    /** channel_->remove(). */
    method RemoveChannel()
      requires Valid()
      modifies this`h, channel`index, channel.poller
      ensures Kept() && Abs() == old(Abs()).(removed := true)
      ensures channel.poller.Abs() == Registration.RemoveChannel(old(channel.poller.Abs()), channel)
      ensures channel.OrderKept() && (old(channel.InOrder()) ==> channel.Gone())
    {
      ghost var before := channel.poller.Abs();
      channel.Remove();
      if old(channel.InOrder()) {
        RemovedIsGone(before, channel);
      }
      h := h.(removed := true);
    }

    // ---------- Sending ----------

    /** Appends what was not written, and reports a backlog that reaches the mark. */
    method AppendRest(rest: seq<byte>)
      requires Valid()
      modifies this`h, outputBuffer, outputBuffer.buffer
      ensures Kept()
      ensures var c, total := old(Abs()), |old(Abs()).output| + |rest|;
              Abs() == c.(marks := if cfg.onHighWater && |c.output| < cfg.mark <= total then c.marks + [total]
                                   else c.marks,
                          output := c.output + rest)
      ensures channel.Untold()
    {
      var oldLen := outputBuffer.ReadableBytes();
      if oldLen + |rest| >= cfg.mark && oldLen < cfg.mark && cfg.onHighWater {
        QueueHighWaterMark(oldLen + |rest|);
      }
      AppendOutput(rest);
    }

    /** Asks for EPOLLOUT, unless it is asked for already. */
    method AskToWrite()
      requires Valid()
      modifies channel`events, channel`index, channel.poller
      ensures Kept() && Abs() == old(Abs()).(events := old(Abs()).events.(writing := true))
      ensures PollerFollows()
    {
      if !channel.events.writing {
        EnableWriting();
      }
    }

    method AppendAndAsk(rest: seq<byte>)
      requires Valid() && |rest| > 0
      modifies Frame()
      ensures Kept() && Abs() == Buffered(old(Abs()), rest)
      ensures PollerFollows()
    {
      AppendRest(rest);
      AskToWrite();
    }

    /** The tail of sendInLoop. */
    method BufferRest(rest: seq<byte>)
      requires Valid()
      modifies Frame()
      ensures Kept() && Abs() == Buffered(old(Abs()), rest)
      ensures PollerFollows() && StillWatched()
    {
      if |rest| > 0 {
        AppendAndAsk(rest);
      }
      FollowingWatches();
    }

    /** Enters a send in the history. */
    ghost method Accept(data: seq<byte>, dropped: bool)
      requires Valid()
      modifies this`h
      ensures Kept()
      ensures Abs() == if dropped then old(Abs())
                       else old(Abs()).(accepted := old(Abs()).accepted + data)
    {
      h := if dropped then h else h.(accepted := h.accepted + data);
    }

    ghost method CountSend()
      requires Valid()
      modifies this`h
      ensures Kept() && Abs() == old(Abs()).(sends := old(Abs()).sends + 1)
    {
      h := h.(sends := h.sends + 1);
    }

    method WriteDirectly(data: seq<byte>, w: WriteResult)
      returns (nwrote: nat, remaining: nat, faultError: bool)
      requires Valid() && Fits(w, |data|)
      modifies this`h
      ensures Kept() && Abs() == Written(old(Abs()), data, w)
      ensures nwrote + remaining == |data|
      ensures Rest(data, w) == if faultError then [] else data[nwrote..]
      ensures faultError <==> w == WriteError(EPIPE) || w == WriteError(ECONNRESET)
    {
      faultError := false;
      Accept(data, w.WriteError? && Fatal(w.errno));
      var n := SysWrite(data, w);
      if n >= 0 {
        nwrote, remaining := n, |data| - n;
        if remaining == 0 {
          QueueWriteComplete();
        }
      } else {
        nwrote, remaining := 0, |data|;
        if w.errno != EAGAIN && (w.errno == EPIPE || w.errno == ECONNRESET) {
          faultError := true;
        }
      }
    }

    /** The head of sendInLoop: with nothing waiting the kernel is asked at once. */
    method TryWrite(data: seq<byte>, w: WriteResult) returns (nwrote: nat, remaining: nat, faultError: bool)
      requires Valid() && Fits(w, |data|)
      modifies this`h
      ensures Kept() && Abs() == Tried(old(Abs()), data, w)
      ensures nwrote + remaining == |data|
      ensures Left(old(Abs()), data, w) == if faultError then [] else data[nwrote..]
      ensures channel.Untold()
    {
      CountSend();
      nwrote, remaining, faultError := 0, |data|, false;
      if !channel.events.writing && outputBuffer.ReadableBytes() == 0 {
        nwrote, remaining, faultError := WriteDirectly(data, w);
      } else {
        Accept(data, false);
      }
    }

    method SendInLoop(data: seq<byte>, w: WriteResult)
      requires Valid() && Fits(w, |data|)
      modifies Frame()
      ensures Kept() && Abs() == Connection.SendInLoop(old(Abs()), data, w)
      ensures PollerFollows() && StillWatched()
    {
      if state == Disconnected {
        return;
      }
      SendInLoopIs(Abs(), data, w);
      var nwrote, remaining, faultError := TryWrite(data, w);
      if !faultError && remaining > 0 {
        BufferRest(data[nwrote..]);
      }
      FollowingWatches();
    }

    method Send(data: seq<byte>, w: WriteResult)
      requires Valid() && Fits(w, |data|)
      modifies Frame()
      ensures Kept() && Abs() == Connection.Send(old(Abs()), data, w)
      ensures PollerFollows() && StillWatched()
    {
      if state == Connected {
        SendInLoop(data, w);
      }
    }

    // ---------- Shutting down ----------

    method ShutdownInLoop()
      requires Valid()
      modifies this`h
      ensures Kept() && Abs() == Connection.ShutdownInLoop(old(Abs()))
      ensures channel.Untold()
    {
      if !channel.events.writing {
        SysShutdownWrite();
      }
    }

    method Shutdown()
      requires Valid()
      modifies this`h, this`state
      ensures Kept() && Abs() == Connection.Shutdown(old(Abs()))
    {
      if state == Connected {
        SetState(Disconnecting);
        ShutdownInLoop();
      }
    }

    // ---------- Events ----------

    /** Writes from the output buffer and consumes what was taken. */
    method TakeOutput(w: WriteResult) returns (n: int)
      requires Valid() && Fits(w, outputBuffer.ReadableBytes())
      modifies this`h, outputBuffer
      ensures Kept() && n == if w.Wrote? then w.n else -1
      ensures var c := old(Abs());
              Abs() == if n > 0 then c.(wire := c.wire + [Sent(c.output[..n])], output := c.output[n..])
                       else c.(wire := c.wire + [Sent([])])
      ensures channel.Untold()
    {
      n := WriteOutput(w);
      if n > 0 {
        RetrieveOutput(n);
      }
    }

    method HandleWrite(w: WriteResult)
      requires Valid() && Fits(w, outputBuffer.ReadableBytes())
      modifies Frame()
      ensures Kept() && Abs() == Connection.HandleWrite(old(Abs()), w)
      ensures PollerFollows() && StillWatched()
    {
      if channel.events.writing {
        var n := TakeOutput(w);
        if n > 0 && outputBuffer.ReadableBytes() == 0 {
          AfterDrain();
        }
      }
      FollowingWatches();
    }

    method AfterDrain()
      requires Valid()
      modifies Frame()
      ensures Kept()
      ensures var e := Completed(old(Abs()).(events := old(Abs()).events.(writing := false)));
              Abs() == if e.state == Disconnecting then Connection.ShutdownInLoop(e) else e
      ensures channel.Told(channel.events)
    {
      DisableWriting();
      QueueWriteComplete();
      if state == Disconnecting {
        ShutdownInLoop();
      }
    }

    /** connectionCallback_ on the way up or down; closeCallback_. */
    ghost method Notify(up: bool, close: bool)
      requires Valid()
      modifies this`h
      ensures Kept()
      ensures Abs() == old(Abs()).(
                ups := old(Abs()).ups + (if up then 1 else 0),
                downs := old(Abs()).downs + (if up then 0 else 1),
                closes := old(Abs()).closes + (if close then 1 else 0))
      ensures channel.Untold()
    {
      h := h.(ups := h.ups + (if up then 1 else 0), downs := h.downs + (if up then 0 else 1),
              closes := h.closes + (if close then 1 else 0));
    }

    method HandleClose()
      requires Valid()
      modifies this`h, this`state, channel`events, channel`index, channel.poller
      ensures Kept() && Abs() == Connection.HandleClose(old(Abs()))
      ensures channel.Told(NO_INTEREST)
      ensures channel.OrderKept()
    {
      SetState(Disconnected);
      DisableAll();
      Notify(false, true);
      channel.ToldKeepsOrder(NO_INTEREST);
    }

    /** `message` tells whether messageCallback_ is due. */
    method HandleRead(r: ReadResult) returns (message: bool)
      requires Valid()
      requires r.Data? ==> |r.bytes| <= BufferShape.ReadLimit(inputBuffer.Shape())
      modifies Frame()
      ensures Kept() && Abs() == Connection.HandleRead(old(Abs()), r)
      ensures message <==> r.Data? && r.bytes != []
      ensures if r == Data([]) then channel.Told(NO_INTEREST) else channel.Untold()
      ensures channel.OrderKept()
    {
      var n := ReadInput(r);
      message := n > 0;
      if n == 0 {
        HandleClose();
      }
    }

    method ReadInput(r: ReadResult) returns (n: int)
      requires Valid()
      requires r.Data? ==> |r.bytes| <= BufferShape.ReadLimit(inputBuffer.Shape())
      modifies inputBuffer, inputBuffer.buffer
      ensures Kept() && (if r.Data? then n == |r.bytes| else n < 0)
      ensures Abs() == if r.ReadError? then old(Abs()) else
                old(Abs()).(input := old(Abs()).input + r.bytes)
      ensures channel.Untold()
    {
      n := inputBuffer.ReadFd(r);
    }

    method ConnectEstablished()
      requires Valid()
      modifies this`h, this`state, channel`events, channel`index, channel.poller
      ensures Kept() && Abs() == Connection.ConnectEstablished(old(Abs()))
      ensures channel.Told(channel.events) && channel.OrderKept()
      ensures old(channel.InOrder()) ==> channel.Watched()
    {
      SetState(Connected);
      channel.EnableReading();
      channel.ToldKeepsOrder(channel.events);
      Notify(true, false);
    }

    method ConnectDestroyed()
      requires Valid()
      modifies this`h, this`state, channel`events, channel`index, channel.poller
      ensures Kept() && Abs() == Connection.ConnectDestroyed(old(Abs()))
      ensures channel.poller.Abs() ==
                Registration.RemoveChannel(if old(state) == Connected
                                           then SetEvents(old(channel.poller.Abs()), channel, NO_INTEREST)
                                           else old(channel.poller.Abs()), channel)
      ensures channel.OrderKept() && (old(channel.InOrder()) ==> channel.Gone())
    {
      if state == Connected {
        SetState(Disconnected);
        DisableAll();
        Notify(false, false);
      }
      RemoveChannel();
    }

    // ---------- Files ----------

    /** ::sendfile(fd, file, &offset, remaining) for request `id`. */
    method SysSendFile(id: nat, w: WriteResult) returns (n: int)
      requires Valid() && id < |book| && Fits(w, Available(book[id]))
      modifies this`h, this`book
      ensures Kept() && n == if w.Wrote? then w.n else -1
      ensures Abs() == if w.Wrote? then Emitted(old(Abs()), id, w.n)
                       else old(Abs()).(wire := old(Abs()).wire + [FromFile(id, [])])
    {
      if w.Wrote? {
        h := h.(wire := h.wire + [FromFile(id, Chunk(book[id], w.n))]);
        book := book[id := Advanced(book[id], w.n)];
        n := w.n;
      } else {
        h := h.(wire := h.wire + [FromFile(id, [])]);
        n := -1;
      }
    }

    method SendFileInLoop(id: nat, w: WriteResult)
      requires Valid() && id < |book| && Fits(w, Available(book[id]))
      modifies this`h, this`book, this`queue
      ensures Kept() && Abs() == Connection.SendFileInLoop(old(Abs()), id, w)
    {
      var faultError := false;
      if state == Disconnecting {
        return;
      }
      if !channel.events.writing && outputBuffer.ReadableBytes() == 0 {
        var bytesSent := SysSendFile(id, w);
        if bytesSent >= 0 {
          if book[id].remaining == 0 {
            QueueWriteComplete();
          }
        } else if w.errno == EPIPE || w.errno == ECONNRESET {
          faultError := true;
        }
      }
      if !faultError && book[id].remaining > 0 {
        queue := queue + [id];
      }
    }

    method SendFile(file: seq<byte>, offset: nat, count: nat, w: WriteResult)
      requires Valid() && Fits(w, Available(NewTransfer(file, offset, count)))
      modifies this`h, this`book, this`queue
      ensures Kept()
      ensures Abs() == Connection.SendFile(old(Abs()), NewTransfer(file, offset, count), w)
    {
      if state == Connected {
        book := book + [NewTransfer(file, offset, count)];
        SendFileInLoop(|book| - 1, w);
      }
    }
  }
}
