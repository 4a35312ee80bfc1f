/** What each operation does, for every state it can be called in and every outcome
    of its system call: which bytes reach the kernel, what waits, which errors drop
    what, when a connection closes. */
module ConnectionEffects {
  import opened ByteBuffer
  import opened Registration
  import opened Connection
  import opened ConnectionState
  import opened ConnectionInvariants
  import opened ConnectionTheorems

  // ---------- handleWrite ----------

  /** The kernel takes n of the bytes that wait: they leave the buffer, and when it
      is empty a connection being shut down sends its FIN. */
  lemma WriteTakes(c: Conn, n: nat)
    requires Inv(c) && Live(c) && c.stage.AtWrite? && c.stage.m.out && 0 < n <= |c.output|
    ensures var d := Step(c, DoWrite(Wrote(n)));
            && d.wire == c.wire + [Sent(c.output[..n])]
                           + (if n == |c.output| && c.state == Disconnecting then [Fin] else [])
            && d.output == c.output[n..] && d.state == c.state && d.stage == Idle
            && d.events == Interest(true, n < |c.output|)
  {
  }

  /** It takes none, or refuses: everything stays, and EPOLLOUT stays asked for. */
  lemma WriteTakesNone(c: Conn, w: WriteResult)
    requires Inv(c) && c.stage.AtWrite? && (w.WriteError? || w.n == 0)
    ensures var d := Step(c, DoWrite(w));
            && d == c.(stage := Idle, wire := d.wire) && StreamBytes(d.wire) == StreamBytes(c.wire)
            && (forall i :: |c.wire| <= i < |d.wire| ==> d.wire[i] == Sent([]))
  {
    WireGrows(c.wire, Sent([]));
  }

  /** Without EPOLLOUT in the mask, or on a closed connection, nothing is written. */
  lemma WriteNotDue(c: Conn, w: WriteResult)
    requires Inv(c) && Enabled(c, DoWrite(w)) && (!c.stage.m.out || c.state == Disconnected)
    ensures Step(c, DoWrite(w)) == c.(stage := Idle)
  {
  }

  // ---------- send ----------

  /** With nothing waiting the kernel is asked at once; what it leaves waits. */
  lemma SendTaken(c: Conn, data: seq<byte>, n: nat)
    requires Inv(c) && c.state == Connected && c.output == [] && n <= |data|
    ensures var d := Step(c, DoSend(data, Wrote(n)));
            && d.wire == c.wire + [Sent(data[..n])] && d.output == data[n..] && d.accepted == c.accepted + data
            && d.events == Interest(true, n < |data|) && d.state == Connected
  {
    SendTakenIs(c, data, n);
  }

  lemma SendTakenIs(c: Conn, data: seq<byte>, n: nat)
    requires WritesDirectly(c) && n <= |data|
    ensures var d := Send(c, data, Wrote(n));
            && d.wire == c.wire + [Sent(data[..n])] && d.output == data[n..] && d.accepted == c.accepted + data
            && d.events == Interest(true, n < |data|) && d.state == Connected
  {
    assert c.output + data[n..] == data[n..];
  }

  /** Of a direct write that fails, EPIPE and ECONNRESET drop the data and leave the
      connection as it was; after any other error the data waits for EPOLLOUT. */
  lemma SendFails(c: Conn, data: seq<byte>, e: Errno)
    requires Inv(c) && c.state == Connected && c.output == [] && data != []
    ensures var d := Step(c, DoSend(data, WriteError(e)));
            && d.state == Connected && StreamBytes(d.wire) == StreamBytes(c.wire)
            && (if e == EPIPE || e == ECONNRESET
                then d.output == [] && d.accepted == c.accepted && d.events == Interest(true, false)
                else d.output == data && d.accepted == c.accepted + data && d.events == Interest(true, true))
  {
    SendFailsIs(c, data, e);
    WireGrows(c.wire, Sent([]));
  }

  lemma SendFailsIs(c: Conn, data: seq<byte>, e: Errno)
    requires WritesDirectly(c) && data != []
    ensures var d := Send(c, data, WriteError(e));
            && d.state == Connected && d.wire == c.wire + [Sent([])]
            && (if e == EPIPE || e == ECONNRESET
                then d.output == [] && d.accepted == c.accepted && d.events == Interest(true, false)
                else d.output == data && d.accepted == c.accepted + data && d.events == Interest(true, true))
  {
    assert c.output + data == data;
  }

  /** Behind waiting bytes the kernel is not asked, whatever it would answer. */
  lemma SendWaits(c: Conn, data: seq<byte>, w: WriteResult)
    requires Inv(c) && c.state == Connected && c.output != [] && Fits(w, |data|)
    ensures var d := Step(c, DoSend(data, w));
            && d.wire == c.wire && d.output == c.output + data && d.accepted == c.accepted + data
            && d.events == c.events && d.state == Connected && d.completes == c.completes
  {
    assert c.output + [] == c.output && c.accepted + [] == c.accepted;
  }

  lemma SendRefused(c: Conn, data: seq<byte>, w: WriteResult)
    requires c.state != Connected && Fits(w, |data|)
    ensures Step(c, DoSend(data, w)) == c
  {
  }

  // ---------- What the kernel gets ----------

  /** The bytes a step offers to write: those of a send with nothing waiting, or
      those that wait when EPOLLOUT is reported. */
  function Offered(c: Conn, l: Label): seq<byte> {
    match l
    case DoSend(data, _) => if c.state == Connected && c.output == [] then data else []
    case DoWrite(_) =>
      if c.stage.AtWrite? && c.stage.m.out && (c.state == Connected || c.state == Disconnecting) then c.output else []
    case _ => []
  }

  /** Those the kernel answers that it took. */
  function Took(c: Conn, l: Label): seq<byte> {
    if (l.DoSend? || l.DoWrite?) && l.w.Wrote? && l.w.n <= |Offered(c, l)| then Offered(c, l)[..l.w.n] else []
  }

  function TakenInAll(c: Conn, run: seq<Label>): seq<byte>
    requires Legal(c, run)
    decreases |run|
  {
    if run == [] then [] else Took(c, run[0]) + TakenInAll(Step(c, run[0]), run[1..])
  }

  lemma SendStream(c: Conn, data: seq<byte>, w: WriteResult)
    requires Inv(c) && Fits(w, |data|)
    ensures StreamBytes(Step(c, DoSend(data, w)).wire) == StreamBytes(c.wire) + Took(c, DoSend(data, w))
  {
    var x := StreamBytes(c.wire);
    assert x + [] == x;
    if c.state != Connected {
      SendRefused(c, data, w);
    } else if c.output != [] {
      SendWaits(c, data, w);
    } else if w.Wrote? {
      SendTaken(c, data, w.n);
      WireGrows(c.wire, Sent(data[..w.n]));
    } else {
      FailedStream(c, data, w.errno);
    }
  }

  lemma FailedStream(c: Conn, data: seq<byte>, e: Errno)
    requires ModeInv(c) && c.state == Connected && c.output == []
    ensures StreamBytes(Step(c, DoSend(data, WriteError(e))).wire) == StreamBytes(c.wire)
  {
    assert Step(c, DoSend(data, WriteError(e))).wire == c.wire + [Sent([])];
    WireGrows(c.wire, Sent([]));
  }

  lemma WriteStream(c: Conn, w: WriteResult)
    requires Inv(c) && Enabled(c, DoWrite(w))
    ensures StreamBytes(Step(c, DoWrite(w)).wire) == StreamBytes(c.wire) + Took(c, DoWrite(w))
  {
    var x := StreamBytes(c.wire);
    assert x + [] == x;
    if !c.stage.m.out || c.state == Disconnected {
      WriteNotDue(c, w);
    } else if w.WriteError? || w.n == 0 {
      WriteTakesNone(c, w);
    } else {
      WriteTakes(c, w.n);
      WrittenStream(c.wire, c.output[..w.n], w.n == |c.output| && c.state == Disconnecting);
    }
  }

  lemma WrittenStream(wire: seq<Segment>, bytes: seq<byte>, fin: bool)
    ensures StreamBytes(wire + [Sent(bytes)] + (if fin then [Fin] else [])) == StreamBytes(wire) + bytes
  {
    WireGrows(wire, Sent(bytes));
    WireGrows(wire + [Sent(bytes)], Fin);
    assert wire + [Sent(bytes)] + [] == wire + [Sent(bytes)];
  }

  lemma OtherStream(c: Conn, l: Label)
    requires Enabled(c, l) && !l.DoSend? && !l.DoWrite?
    ensures StreamBytes(Step(c, l).wire) == StreamBytes(c.wire)
  {
    var d := Step(c, l);
    if d.wire != c.wire {
      assert d.wire == c.wire + [d.wire[|c.wire|]] && !d.wire[|c.wire|].Sent? by {
        OtherSegment(c, l);
      }
      WireGrows(c.wire, d.wire[|c.wire|]);
    }
  }

  lemma OtherSegment(c: Conn, l: Label)
    requires Enabled(c, l) && !l.DoSend? && !l.DoWrite?
    ensures var d := Step(c, l);
            d.wire == c.wire || (exists s: Segment :: d.wire == c.wire + [s] && !s.Sent?)
  {
    match l {
      case DoSendFile(file, offset, count, w) =>
        if c.state == Connected {
          FileSegment(Booked(c, NewTransfer(file, offset, count)), |c.book|, w);
        }
      case RunTransfer(w) => FileSegment(c.(queue := c.queue[1..]), c.queue[0], w);
      case _ =>
    }
  }

  lemma FileSegment(c: Conn, id: nat, w: WriteResult)
    requires id < |c.book| && Fits(w, Available(c.book[id]))
    ensures var d := SendFileInLoop(c, id, w);
            d.wire == c.wire || (exists s: Segment :: d.wire == c.wire + [s] && !s.Sent?)
  {
  }

  lemma StepStream(c: Conn, l: Label) returns (d: Conn)
    requires Inv(c) && Enabled(c, l)
    ensures d == Step(c, l) && Inv(d) && StreamBytes(d.wire) == StreamBytes(c.wire) + Took(c, l)
  {
    d := Step(c, l);
    StepKeeps(c, l);
    match l {
      case DoSend(data, w) => SendStream(c, data, w);
      case DoWrite(w) => WriteStream(c, w);
      case _ =>
        OtherStream(c, l);
        assert StreamBytes(c.wire) + [] == StreamBytes(c.wire);
    }
  }

  /** Over every run the stream on the wire is exactly what the kernel answered that
      it took of what it was offered, answer by answer. */
  lemma {:induction false} KernelGetsWhatItTakes(c: Conn, run: seq<Label>)
    requires Inv(c) && Legal(c, run)
    ensures StreamBytes(After(c, run).wire) == StreamBytes(c.wire) + TakenInAll(c, run)
    decreases |run|
  {
    if run == [] {
      assert StreamBytes(c.wire) + [] == StreamBytes(c.wire);
    } else {
      var d := StepStream(c, run[0]);
      KernelGetsWhatItTakes(d, run[1..]);
      AcceptsCompose(StreamBytes(c.wire), Took(c, run[0]), TakenInAll(d, run[1..]));
    }
  }

  // ---------- shutdown ----------

  /** shutdown takes effect at once, whatever waits; FIN goes with it when nothing
      does. */
  lemma ShutdownTakesEffect(c: Conn)
    requires Inv(c) && c.state == Connected
    ensures Step(c, DoShutdown) ==
              c.(state := Disconnecting, wire := c.wire + (if c.output == [] then [Fin] else []))
  {
    assert c.wire + [] == c.wire;
  }

  lemma ShutdownRefused(c: Conn)
    requires c.state != Connected
    ensures Step(c, DoShutdown) == c
  {
  }

  lemma {:induction false} NoSendAfterwards(c: Conn, run: seq<Label>)
    requires Inv(c) && Rank(c.state) >= 2 && Legal(c, run)
    ensures After(c, run).accepted == c.accepted && Undropped(c, run) == []
    decreases |run|
  {
    if run != [] {
      var d := StepAccepts(c, run[0]);
      StepFactsHold(c, run[0]);
      NoSendAfterwards(d, run[1..]);
      assert c.accepted + [] == c.accepted;
    }
  }

  lemma ShutdownAtEnd(c: Conn, run: seq<Label>) returns (t: Conn)
    requires Inv(c) && c.state == Connected && Legal(Step(c, DoShutdown), run)
    ensures t == After(Step(c, DoShutdown), run) && Inv(t) && Rank(t.state) >= 2 && t.accepted == c.accepted
  {
    var d := Step(c, DoShutdown);
    ShutdownTakesEffect(c);
    StepKeeps(c, DoShutdown);
    NoSendAfterwards(d, run);
    StateMovesForward(d, run);
    RunKeeps(d, run);
    t := After(d, run);
  }

  /** After a shutdown no send is accepted in any run, and until the connection is
      closed the FIN is on the wire exactly when nothing waits any more. */
  lemma ShutdownHolds(c: Conn, run: seq<Label>)
    requires Inv(c) && c.state == Connected && Legal(Step(c, DoShutdown), run)
    ensures var t := After(Step(c, DoShutdown), run);
            && (t.state == Disconnecting || t.state == Disconnected) && t.accepted == c.accepted
            && (t.state == Disconnecting ==> (!NoFin(t.wire) <==> t.output == []))
  {
    var t := ShutdownAtEnd(c, run);
    FinFacts(t);
  }

  /** So what waits at a shutdown, once the kernel has taken all of it, is followed
      by the FIN. */
  lemma DrainSendsFin(c: Conn, n: nat)
    requires Inv(c) && c.state == Disconnecting && c.stage.AtWrite? && c.stage.m.out && 0 < n == |c.output|
    ensures var wire := Step(c, DoWrite(Wrote(n))).wire;
            wire == c.wire + [Sent(c.output), Fin] && StreamBytes(wire) == c.accepted
  {
    WriteTakes(c, n);
    assert c.output[..n] == c.output;
    WrittenStream(c.wire, c.output, true);
    assert c.wire + [Sent(c.output)] + [Fin] == c.wire + [Sent(c.output), Fin];
  }

  // ---------- handleRead and the close ----------

  /** A read error changes nothing: the connection stays up. */
  lemma ReadFails(c: Conn, e: Errno)
    requires c.stage.AtRead?
    ensures Step(c, DoRead(ReadError(e))) == c.(stage := AtWrite(c.stage.m))
  {
  }

  lemma ReadDelivers(c: Conn, bytes: seq<byte>)
    requires c.stage.AtRead? && bytes != []
    ensures Step(c, DoRead(Data(bytes))) ==
              c.(stage := AtWrite(c.stage.m),
                 input := if c.stage.m.in_ || c.stage.m.pri then c.input + bytes else c.input)
  {
  }

  /** What a close does. */
  ghost predicate ClosesTo(c: Conn, d: Conn) {
    && d.state == Disconnected && d.events == NO_INTEREST
    && d.downs == c.downs + 1 && d.closes == c.closes + 1 && d.ups == c.ups
    && d.wire == c.wire && d.output == c.output && d.input == c.input && d.queue == c.queue && d.book == c.book
  }

  /** The read part closes a live connection exactly when it finds the end of file. */
  lemma ReadClosesIff(c: Conn, r: ReadResult)
    requires Inv(c) && Live(c) && c.stage.AtRead?
    ensures var d := Step(c, DoRead(r));
            if (c.stage.m.in_ || c.stage.m.pri) && r == Data([]) then ClosesTo(c, d) else d.state == c.state
  {
  }

  /** The first part does exactly on a hang-up with no ordinary data, and the error
      part changes nothing. */
  lemma HangUpClosesIff(c: Conn)
    requires Inv(c) && c.stage.AtClose?
    ensures var d := Step(c, DoClose);
            if c.stage.m.hup && !c.stage.m.in_ then ClosesTo(c, d) else d == c.(stage := AtError(c.stage.m))
  {
  }

  lemma ErrorOnlyLogs(c: Conn)
    requires c.stage.AtError?
    ensures Step(c, DoError) == c.(stage := AtRead(c.stage.m))
  {
  }

  /** The steps that close, read off the run. */
  predicate Closing(c: Conn, l: Label) {
    match l
    case DoClose => c.stage.AtClose? && c.stage.m.hup && !c.stage.m.in_
    case DoRead(r) =>
      c.stage.AtRead? && (c.stage.m.in_ || c.stage.m.pri) && r == Data([])
      && (c.state == Connected || c.state == Disconnecting)
    case _ => false
  }

  lemma OtherNeverCloses(c: Conn, l: Label)
    requires Enabled(c, l) && !l.DoClose? && !l.DoRead? && !l.Destroy? && c.state != Disconnected
    ensures Step(c, l).state != Disconnected
  {
    match l {
      case DoSend(data, w) => SendState(c, data, w);
      case DoSendFile(file, offset, count, w) =>
        if c.state == Connected {
          FileState(Booked(c, NewTransfer(file, offset, count)), |c.book|, w);
        }
      case RunTransfer(w) => FileState(c.(queue := c.queue[1..]), c.queue[0], w);
      case _ =>
    }
  }

  lemma SendState(c: Conn, data: seq<byte>, w: WriteResult)
    requires Fits(w, |data|)
    ensures Send(c, data, w).state == c.state
  {
  }

  lemma FileState(c: Conn, id: nat, w: WriteResult)
    requires id < |c.book| && Fits(w, Available(c.book[id]))
    ensures SendFileInLoop(c, id, w).state == c.state
  {
  }

  /** No other step but connectDestroyed ever disconnects. */
  lemma DisconnectsIff(c: Conn, l: Label)
    requires Inv(c) && Enabled(c, l) && c.state != Disconnected && !l.Destroy?
    ensures Step(c, l).state == Disconnected <==> Closing(c, l)
  {
    match l {
      case DoClose => HangUpClosesIff(c);
      case DoRead(r) => if Live(c) { ReadClosesIff(c, r); }
      case _ => OtherNeverCloses(c, l);
    }
  }

  // ---------- connectEstablished and connectDestroyed ----------

  lemma EstablishTakesEffect(c: Conn)
    requires Inv(c) && Enabled(c, Establish)
    ensures Step(c, Establish) == c.(state := Connected, events := Interest(true, false), ups := 1)
  {
  }

  lemma DestroyTakesEffect(c: Conn)
    requires Inv(c) && Enabled(c, Destroy)
    ensures Step(c, Destroy) ==
              if c.state == Connected
              then c.(state := Disconnected, events := NO_INTEREST, downs := 1, removed := true)
              else c.(removed := true)
  {
  }

  // ---------- sendFile ----------

  /** What the kernel takes of a file is the file from the offset on; the rest is
      requeued behind the transfers that wait. */
  lemma TurnTakes(c: Conn, n: nat)
    requires Inv(c) && Enabled(c, RunTransfer(Wrote(n))) && c.state != Disconnecting && c.output == []
    ensures var d, id := Step(c, RunTransfer(Wrote(n))), c.queue[0];
            var t := c.book[id];
            && n <= t.remaining && (n > 0 ==> t.offset + n <= |t.file|)
            && d.wire == c.wire + [FromFile(id, if n == 0 then [] else t.file[t.offset..t.offset + n])]
            && d.book == c.book[id := Transfer(t.file, t.start, t.count, t.offset + n, t.remaining - n)]
            && d.queue == c.queue[1..] + (if n < t.remaining then [id] else [])
            && d.state == c.state && d.output == [] && d.accepted == c.accepted
  {
    assert c.queue[1..] + [] == c.queue[1..];
  }

  /** EPIPE and ECONNRESET end the transfer; after any other error it is requeued
      as it was. */
  lemma TurnFails(c: Conn, e: Errno)
    requires Inv(c) && Enabled(c, RunTransfer(WriteError(e))) && c.state != Disconnecting && c.output == []
    ensures var d := Step(c, RunTransfer(WriteError(e)));
            && d.queue == c.queue[1..] + (if e == EPIPE || e == ECONNRESET then [] else [c.queue[0]])
            && d == c.(queue := d.queue, wire := c.wire + [FromFile(c.queue[0], [])])
  {
    assert c.queue[1..] + [] == c.queue[1..];
  }

  /** Behind waiting bytes a transfer only goes to the back of the queue; while the
      connection is being shut down it is dropped. */
  lemma TurnWaits(c: Conn, w: WriteResult)
    requires Inv(c) && Enabled(c, RunTransfer(w)) && (c.state == Disconnecting || c.output != [])
    ensures Step(c, RunTransfer(w)) ==
              c.(queue := c.queue[1..] + (if c.state == Disconnecting then [] else [c.queue[0]]))
  {
    assert c.queue[1..] + [] == c.queue[1..];
  }

  /** A request while connected is booked, and has its first turn at once. */
  lemma SendFileBegins(c: Conn, file: seq<byte>, offset: nat, count: nat, w: WriteResult)
    requires Inv(c) && c.state == Connected && Enabled(c, DoSendFile(file, offset, count, w))
    ensures var d, id := Step(c, DoSendFile(file, offset, count, w)), |c.book|;
            var n := if c.output == [] && w.Wrote? then w.n else 0;
            && n <= count && (n > 0 ==> offset + n <= |file|)
            && d.book == c.book + [Transfer(file, offset, count, offset + n, count - n)]
            && (if c.output != [] then d.wire == c.wire
                else d.wire == c.wire + [FromFile(id, if n == 0 then [] else file[offset..offset + n])])
            && d.queue == c.queue + (if n < count
                                        && !(c.output == [] && (w == WriteError(EPIPE) || w == WriteError(ECONNRESET)))
                                     then [id] else [])
            && d.state == Connected && d.output == c.output && d.accepted == c.accepted
  {
    FirstTurn(c, NewTransfer(file, offset, count), w);
  }

  lemma FirstTurn(c: Conn, t: Transfer, w: WriteResult)
    requires ModeInv(c) && c.state == Connected && Fits(w, Available(t))
    requires t.offset == t.start && t.remaining == t.count
    ensures var d, id := SendFile(c, t, w), |c.book|;
            var n := if c.output == [] && w.Wrote? then w.n else 0;
            && n <= t.count && (n > 0 ==> t.offset + n <= |t.file|)
            && d.book == c.book + [Transfer(t.file, t.start, t.count, t.offset + n, t.count - n)]
            && (if c.output != [] then d.wire == c.wire
                else d.wire == c.wire + [FromFile(id, if n == 0 then [] else t.file[t.offset..t.offset + n])])
            && d.queue == c.queue + (if n < t.count
                                        && !(c.output == [] && (w == WriteError(EPIPE) || w == WriteError(ECONNRESET)))
                                     then [id] else [])
            && d.state == Connected && d.output == c.output && d.accepted == c.accepted
  {
    assert c.queue + [] == c.queue;
    assert (c.book + [t])[|c.book| := Transfer(t.file, t.start, t.count, t.offset, t.count)] == c.book + [t];
  }

  lemma SendFileRefused(c: Conn, file: seq<byte>, offset: nat, count: nat, w: WriteResult)
    requires c.state != Connected && Enabled(c, DoSendFile(file, offset, count, w))
    ensures Step(c, DoSendFile(file, offset, count, w)) == c
  {
  }

  // ---------- Write-complete notifications ----------

  /** The kernel takes all that a send, a waiting buffer or a transfer still has. */
  predicate Finishes(c: Conn, l: Label) {
    match l
    case DoSend(data, w) => c.state == Connected && c.output == [] && w == Wrote(|data|)
    case DoWrite(w) =>
      && c.stage.AtWrite? && c.stage.m.out && (c.state == Connected || c.state == Disconnecting)
      && c.output != [] && w == Wrote(|c.output|)
    case DoSendFile(_, _, count, w) => c.state == Connected && c.output == [] && w == Wrote(count)
    case RunTransfer(w) =>
      && c.state != Disconnecting && c.output == []
      && c.queue != [] && c.queue[0] < |c.book| && w == Wrote(c.book[c.queue[0]].remaining)
    case _ => false
  }

  /** Exactly those steps notify, once each, when the callback is set. */
  lemma NotifiesIff(c: Conn, l: Label)
    requires Inv(c) && Enabled(c, l)
    ensures Step(c, l).completes == c.completes + (if c.cfg.onComplete && Finishes(c, l) then 1 else 0)
  {
    match l {
      case DoSend(data, w) => SendNotifies(c, data, w);
      case DoSendFile(file, offset, count, w) =>
        if c.state == Connected {
          FileNotifies(Booked(c, NewTransfer(file, offset, count)), |c.book|, w);
        }
      case RunTransfer(w) => FileNotifies(c.(queue := c.queue[1..]), c.queue[0], w);
      case DoWrite(w) => WriteNotifies(c, w);
      case _ => OtherNotifies(c, l);
    }
  }

  lemma SendNotifies(c: Conn, data: seq<byte>, w: WriteResult)
    requires ModeInv(c) && Fits(w, |data|)
    ensures var d := Send(c, data, w);
            && d.completes == c.completes + (if c.cfg.onComplete && Finishes(c, DoSend(data, w)) then 1 else 0)
            && d.sends == c.sends + (if c.state == Connected then 1 else 0)
  {
  }

  lemma FileNotifies(c: Conn, id: nat, w: WriteResult)
    requires ModeInv(c) && c.state != Connecting && id < |c.book| && Fits(w, Available(c.book[id]))
    ensures SendFileInLoop(c, id, w).completes ==
              c.completes + (if c.cfg.onComplete && c.state != Disconnecting && c.output == []
                                && w == Wrote(c.book[id].remaining) then 1 else 0)
  {
  }

  lemma WriteNotifies(c: Conn, w: WriteResult)
    requires ModeInv(c) && Enabled(c, DoWrite(w))
    ensures Step(c, DoWrite(w)).completes ==
              c.completes + (if c.cfg.onComplete && Finishes(c, DoWrite(w)) then 1 else 0)
  {
  }

  lemma OtherNotifies(c: Conn, l: Label)
    requires Enabled(c, l)
    requires !l.DoSend? && !l.DoSendFile? && !l.RunTransfer? && !l.DoWrite?
    ensures Step(c, l).completes == c.completes
  {
  }
}
