/** What every step of a connection keeps. */
module ConnectionInvariants {
  import opened ByteBuffer
  import opened Registration
  import opened Connection
  import opened ConnectionState

  ghost predicate Live(c: Conn) {
    c.state == Connected || c.state == Disconnecting
  }

  /** Bytes in the kernel and bytes waiting are the accepted bytes, in order. */
  ghost predicate StreamInv(c: Conn) {
    StreamBytes(c.wire) + c.output == c.accepted
  }

  /** EPOLLOUT is asked for exactly while something waits. */
  ghost predicate ModeInv(c: Conn) {
    match c.state
    case Connecting => c.events == NO_INTEREST && c.output == [] && c.queue == []
    case Connected => c.events == Interest(true, c.output != [])
    case Disconnecting => c.events == Interest(true, c.output != [])
    case Disconnected => c.events == NO_INTEREST
  }

  ghost predicate NoFin(wire: seq<Segment>) {
    forall i :: 0 <= i < |wire| ==> !wire[i].Fin?
  }

  /** At most one FIN, and after it no write: only sendfile may still be tried. */
  ghost predicate FinQuiet(wire: seq<Segment>) {
    forall i, j :: 0 <= i < j < |wire| && wire[i].Fin? ==> wire[j].FromFile?
  }

  ghost predicate FinLast(wire: seq<Segment>) {
    wire != [] && wire[|wire| - 1].Fin? && NoFin(wire[..|wire| - 1])
  }

  ghost predicate FinInv(c: Conn) {
    match c.state
    case Connecting => NoFin(c.wire)
    case Connected => NoFin(c.wire)
    case Disconnecting => if c.output == [] then FinLast(c.wire) else NoFin(c.wire)
    case Disconnected => FinQuiet(c.wire) && (NoFin(c.wire) || c.output == [])
  }

  /** Everything accepted, before or after, was written before the FIN. */
  ghost predicate FinComplete(c: Conn) {
    forall i :: 0 <= i < |c.wire| && c.wire[i].Fin? ==> StreamBytes(c.wire[..i]) == c.accepted
  }

  ghost predicate StageInv(c: Conn) {
    match c.stage
    case Idle => true
    case AtClose(m) => Live(c) && !c.removed && !(m.hup && m.pri && !m.in_)
    case AtError(m) => StageAfterClose(c, m)
    case AtRead(m) => StageAfterClose(c, m)
    case AtWrite(m) => c.state != Connecting && !c.removed && (m.hup && !m.in_ ==> c.state == Disconnected)
  }

  ghost predicate StageAfterClose(c: Conn, m: Revents) {
    && !c.removed
    && (if m.hup && !m.in_ then c.state == Disconnected && !m.pri else Live(c))
  }

  ghost predicate CallbackInv(c: Conn) {
    && c.ups == (if c.state == Connecting then 0 else 1)
    && c.downs == (if c.state == Disconnected then 1 else 0)
    && c.closes <= c.downs
    && (c.state == Disconnected && !c.removed ==> c.closes == 1)
  }

  /** Notifications given, plus one owed for what waits, plus one for each file
      under way, never exceed the requests made. */
  ghost predicate CountInv(c: Conn) {
    c.completes + (if c.output != [] then 1 else 0) + |c.queue| <= c.sends + |c.book|
  }

  ghost predicate TransferOk(t: Transfer, emitted: seq<byte>) {
    && t.start <= t.offset
    && t.offset + t.remaining == t.start + t.count
    && (if t.offset <= |t.file| then emitted == t.file[t.start..t.offset]
        else t.offset == t.start && emitted == [])
  }

  ghost predicate BookInv(c: Conn) {
    && (forall id :: 0 <= id < |c.book| ==> TransferOk(c.book[id], FileBytes(c.wire, id)))
    && (forall id: nat :: id >= |c.book| ==> FileBytes(c.wire, id) == [])
    && (forall i :: 0 <= i < |c.queue| ==>
          c.queue[i] < |c.book| && c.book[c.queue[i]].remaining > 0)
    && (forall i, j :: 0 <= i < j < |c.queue| ==> c.queue[i] != c.queue[j])
  }

  ghost predicate Inv(c: Conn) {
    && StreamInv(c) && ModeInv(c) && FinInv(c) && FinComplete(c)
    && StageInv(c) && CallbackInv(c) && CountInv(c) && BookInv(c)
  }

  // ---------- Pieces of the step proofs ----------

  lemma NoFinGrows(wire: seq<Segment>, s: Segment)
    requires NoFin(wire)
    ensures !s.Fin? ==> NoFin(wire + [s])
    ensures s.Fin? ==> FinLast(wire + [s])
  {
    assert (wire + [s])[..|wire|] == wire;
  }

  lemma QuietFin(wire: seq<Segment>)
    ensures NoFin(wire) || FinLast(wire) ==> FinQuiet(wire)
  {
    if FinLast(wire) {
      assert forall i :: 0 <= i < |wire| - 1 ==> wire[i] == wire[..|wire| - 1][i];
    }
  }

  lemma FinCompleteGrows(c: Conn, d: Conn, s: Segment)
    requires FinComplete(c) && d.wire == c.wire + [s]
    requires NoFin(c.wire) || d.accepted == c.accepted
    requires s.Fin? ==> StreamBytes(c.wire) == d.accepted
    ensures FinComplete(d)
  {
    forall i | 0 <= i < |d.wire| && d.wire[i].Fin?
      ensures StreamBytes(d.wire[..i]) == d.accepted
    {
      assert d.wire[..i] == c.wire[..i];
      assert i == |c.wire| ==> c.wire[..i] == c.wire;
    }
  }

  /** Nothing but the wire, by one segment of no file, and the stream changed. */
  ghost predicate SameBook(c: Conn, d: Conn, s: Segment) {
    && d.book == c.book && d.queue == c.queue && !s.FromFile?
    && (d.wire == c.wire || d.wire == c.wire + [s])
  }

  lemma SameBookKeeps(c: Conn, d: Conn, s: Segment)
    requires BookInv(c) && SameBook(c, d, s)
    ensures BookInv(d)
  {
    WireGrows(c.wire, s);
    assert forall id :: FileBytes(d.wire, id) == FileBytes(c.wire, id);
  }

  ghost predicate SameControl(c: Conn, d: Conn) {
    && d.state == c.state && d.stage == c.stage && d.removed == c.removed
    && d.ups == c.ups && d.downs == c.downs && d.closes == c.closes
  }

  /** One write, of `taken`, after which `x` more has been accepted. */
  ghost predicate WroteOnce(c: Conn, d: Conn, taken: seq<byte>, x: seq<byte>) {
    && d.wire == c.wire + [Sent(taken)]
    && taken + d.output == c.output + x
    && d.accepted == c.accepted + x
  }

  lemma WroteOnceKeeps(c: Conn, d: Conn, taken: seq<byte>, x: seq<byte>)
    requires StreamInv(c) && FinComplete(c) && NoFin(c.wire) && WroteOnce(c, d, taken, x)
    ensures StreamInv(d) && NoFin(d.wire) && FinComplete(d)
  {
    WireGrows(c.wire, Sent(taken));
    NoFinGrows(c.wire, Sent(taken));
    FinCompleteGrows(c, d, Sent(taken));
    calc {
      StreamBytes(d.wire) + d.output;
      StreamBytes(c.wire) + taken + d.output;
      StreamBytes(c.wire) + (taken + d.output);
      StreamBytes(c.wire) + (c.output + x);
      StreamBytes(c.wire) + c.output + x;
    }
  }

  /** No write: `x` joins what waits. */
  lemma WaitingKeeps(c: Conn, d: Conn, x: seq<byte>)
    requires StreamInv(c) && NoFin(c.wire)
    requires d.wire == c.wire && d.output == c.output + x && d.accepted == c.accepted + x
    ensures StreamInv(d) && NoFin(d.wire) && FinComplete(d)
  {
    assert StreamBytes(c.wire) + c.output + x == StreamBytes(c.wire) + (c.output + x);
  }

  // ---------- Sending ----------

  /** The effect of sendInLoop on everything but the wire. */
  ghost predicate SendEffect(c: Conn, d: Conn) {
    && SameControl(c, d) && d.book == c.book && d.queue == c.queue
    && d.events == Interest(true, d.output != [])
    && d.sends == c.sends + 1
    && d.completes + (if d.output != [] then 1 else 0)
         <= c.completes + (if c.output != [] then 1 else 0) + 1
  }

  lemma SendEffectKeeps(c: Conn, d: Conn, s: Segment)
    requires Inv(c) && c.state == Connected && SendEffect(c, d) && SameBook(c, d, s)
    requires StreamInv(d) && NoFin(d.wire) && FinComplete(d)
    ensures Inv(d)
  {
    SameBookKeeps(c, d, s);
  }

  ghost predicate WritesDirectly(c: Conn) {
    c.state == Connected && c.events == Interest(true, false) && c.output == []
  }

  lemma WroteDirectly(c: Conn, data: seq<byte>, n: nat)
    requires WritesDirectly(c) && n <= |data|
    ensures var d := SentDirectly(c.(sends := c.sends + 1), data, Wrote(n));
            SendEffect(c, d) && WroteOnce(c, d, data[..n], data)
  {
    var d := SentDirectly(c.(sends := c.sends + 1), data, Wrote(n));
    assert data == data[..n] + data[n..];
    if n < |data| {
      assert d.output == data[n..];
    } else {
      assert data[..n] + d.output == data;
    }
  }

  lemma FailedDirectly(c: Conn, data: seq<byte>, e: Errno)
    requires WritesDirectly(c)
    ensures var d := SentDirectly(c.(sends := c.sends + 1), data, WriteError(e));
            SendEffect(c, d) && WroteOnce(c, d, [], if Fatal(e) then [] else data)
  {
  }

  lemma SendDirectlyKeeps(c: Conn, data: seq<byte>, w: WriteResult)
    requires Inv(c) && WritesDirectly(c) && Fits(w, |data|)
    ensures Inv(SentDirectly(c.(sends := c.sends + 1), data, w))
  {
    var d := SentDirectly(c.(sends := c.sends + 1), data, w);
    match w {
      case Wrote(n) =>
        WroteDirectly(c, data, n);
        WroteOnceKeeps(c, d, data[..n], data);
        SendEffectKeeps(c, d, Sent(data[..n]));
      case WriteError(e) =>
        FailedDirectly(c, data, e);
        WroteOnceKeeps(c, d, [], if Fatal(e) then [] else data);
        SendEffectKeeps(c, d, Sent([]));
    }
  }

  lemma SendWaitingKeeps(c: Conn, data: seq<byte>)
    requires Inv(c) && c.state == Connected && c.output != []
    ensures Inv(Buffered(c.(sends := c.sends + 1, accepted := c.accepted + data), data))
  {
    var d := Buffered(c.(sends := c.sends + 1, accepted := c.accepted + data), data);
    assert d.output == c.output + data;
    WaitingKeeps(c, d, data);
    SendEffectKeeps(c, d, Fin);
  }

  lemma SendInLoopIs(c: Conn, data: seq<byte>, w: WriteResult)
    requires c.state == Connected && ModeInv(c) && Fits(w, |data|)
    ensures var d := c.(sends := c.sends + 1);
            SendInLoop(c, data, w) ==
              if c.output == [] then SentDirectly(d, data, w) else Buffered(d.(accepted := c.accepted + data), data)
  {
  }

  lemma SendInLoopKeeps(c: Conn, data: seq<byte>, w: WriteResult)
    requires Inv(c) && c.state == Connected && Fits(w, |data|)
    ensures Inv(SendInLoop(c, data, w))
  {
    SendInLoopIs(c, data, w);
    if c.output == [] {
      SendDirectlyKeeps(c, data, w);
    } else {
      SendWaitingKeeps(c, data);
    }
  }

  lemma ShutdownKeeps(c: Conn)
    requires Inv(c) && c.state == Connected
    ensures Inv(Shutdown(c))
  {
    var d := Shutdown(c);
    WireGrows(c.wire, Fin);
    NoFinGrows(c.wire, Fin);
    SameBookKeeps(c, d, Fin);
    if !c.events.writing {
      FinCompleteGrows(c, d, Fin);
    }
  }

  // ---------- Writing ----------

  function Owed(c: Conn): nat {
    if c.output != [] then 1 else 0
  }

  /** The effect of handleWrite on everything but the wire. */
  ghost predicate WriteEffect(c: Conn, d: Conn) {
    && SameControl(c, d) && d.book == c.book && d.queue == c.queue
    && d.events == Interest(true, d.output != [])
    && d.sends == c.sends && d.completes + Owed(d) <= c.completes + Owed(c)
  }

  /** Some of what waits is taken; a FIN already asked for is not yet due. */
  lemma WriteEffectKeeps(c: Conn, d: Conn, taken: seq<byte>)
    requires Inv(c) && Live(c) && c.output != []
    requires WriteEffect(c, d) && WroteOnce(c, d, taken, [])
    ensures StreamInv(d) && NoFin(d.wire) && FinComplete(d) && BookInv(d)
    ensures c.state == Connected || d.output != [] ==> Inv(d)
  {
    WroteOnceKeeps(c, d, taken, []);
    SameBookKeeps(c, d, Sent(taken));
  }

  /** The draining write of a connection being shut down, then its FIN. */
  lemma DeferredFinKeeps(c: Conn, d: Conn, e: Conn)
    requires Inv(c) && c.state == Disconnecting && WriteEffect(c, d) && d.output == []
    requires StreamInv(d) && NoFin(d.wire) && FinComplete(d) && BookInv(d)
    requires e == d.(wire := d.wire + [Fin])
    ensures Inv(e)
  {
    WireGrows(d.wire, Fin);
    NoFinGrows(d.wire, Fin);
    FinCompleteGrows(d, e, Fin);
    SameBookKeeps(d, e, Fin);
  }

  /** handleWrite up to its call of shutdownInLoop. */
  function Drained(c: Conn, n: nat): Conn
    requires n <= |c.output|
  {
    Completed(c.(wire := c.wire + [Sent(c.output[..n])], output := [],
                 events := c.events.(writing := false)))
  }

  lemma WritePartlyKeeps(c: Conn, n: nat)
    requires Inv(c) && Live(c) && n < |c.output|
    ensures Inv(c.(wire := c.wire + [Sent(c.output[..n])], output := c.output[n..]))
  {
    assert c.output[..n] + c.output[n..] == c.output;
    WriteEffectKeeps(c, c.(wire := c.wire + [Sent(c.output[..n])], output := c.output[n..]), c.output[..n]);
  }

  lemma HandleWriteKeeps(c: Conn, w: WriteResult)
    requires Inv(c) && Fits(w, |c.output|)
    ensures Inv(HandleWrite(c, w))
  {
    if c.events.writing {
      if w.WriteError? || w.n == 0 {
        assert c.output[..0] == [] && c.output[0..] == c.output;
        WritePartlyKeeps(c, 0);
      } else if w.n < |c.output| {
        WritePartlyKeeps(c, w.n);
      } else {
        DrainKeeps(c);
      }
    }
  }

  lemma DrainKeeps(c: Conn)
    requires Inv(c) && Live(c) && c.output != []
    ensures Inv(HandleWrite(c, Wrote(|c.output|)))
  {
    var n := |c.output|;
    var d := Drained(c, n);
    assert c.output[..n] == c.output && c.output[n..] == [];
    WriteEffectKeeps(c, d, c.output[..n]);
    if c.state == Disconnecting {
      DeferredFinKeeps(c, d, d.(wire := d.wire + [Fin]));
    }
  }

  // ---------- Closing ----------

  lemma HandleCloseKeeps(c: Conn)
    requires Inv(c.(stage := Idle)) && Live(c)
    requires match c.stage
             case AtError(m) => !c.removed && m.hup && !m.in_ && !m.pri
             case AtWrite(_) => !c.removed
             case _ => false
    ensures Inv(HandleClose(c))
  {
    QuietFin(c.wire);
    SameBookKeeps(c.(stage := Idle), HandleClose(c), Fin);
  }

  lemma ConnectDestroyedKeeps(c: Conn)
    requires Inv(c) && c.stage == Idle && c.state != Connecting
    ensures Inv(ConnectDestroyed(c))
  {
    QuietFin(c.wire);
    SameBookKeeps(c, ConnectDestroyed(c), Fin);
  }

  // ---------- Files ----------

  /** All of Inv, with room in CountInv for one more. */
  ghost predicate InvWithSlack(c: Conn) {
    && StreamInv(c) && ModeInv(c) && FinInv(c) && FinComplete(c)
    && StageInv(c) && CallbackInv(c) && BookInv(c)
    && c.completes + Owed(c) + |c.queue| + 1 <= c.sends + |c.book|
  }

  lemma ChunkFits(t: Transfer, emitted: seq<byte>, n: nat)
    requires TransferOk(t, emitted) && n <= Available(t)
    ensures TransferOk(Advanced(t, n), emitted + Chunk(t, n))
  {
    if t.offset <= |t.file| {
      assert t.file[t.start..t.offset] + t.file[t.offset..t.offset + n]
          == t.file[t.start..t.offset + n];
    }
  }

  lemma EmittedKeepsBook(c: Conn, id: nat, n: nat)
    requires BookInv(c) && id < |c.book| && id !in c.queue && n <= Available(c.book[id])
    ensures BookInv(Emitted(c, id, n))
  {
    var d := Emitted(c, id, n);
    WireGrows(c.wire, FromFile(id, Chunk(c.book[id], n)));
    forall k | 0 <= k < |d.book|
      ensures TransferOk(d.book[k], FileBytes(d.wire, k))
    {
      if k == id {
        ChunkFits(c.book[id], FileBytes(c.wire, id), n);
      }
    }
  }

  /** A call of sendfile leaves the stream alone. */
  lemma FileSegmentKeeps(c: Conn, d: Conn, s: Segment)
    requires InvWithSlack(c) && c.output == [] && c.state != Connecting && c.state != Disconnecting
    requires s.FromFile? && d.wire == c.wire + [s] && SameControl(c, d)
    requires d.output == c.output && d.accepted == c.accepted && d.events == c.events
    ensures StreamInv(d) && ModeInv(d) && FinInv(d) && FinComplete(d)
    ensures StageInv(d) && CallbackInv(d)
  {
    WireGrows(c.wire, s);
    FinCompleteGrows(c, d, s);
  }

  lemma RequeueKeeps(d: Conn, id: nat, fault: bool)
    requires InvWithSlack(d) && id < |d.book| && id !in d.queue && d.state != Connecting
    ensures Inv(Requeue(d, id, fault))
  {
  }

  lemma EmittedKeeps(c: Conn, id: nat, n: nat)
    requires InvWithSlack(c) && id < |c.book| && id !in c.queue && n <= Available(c.book[id])
    requires c.state == Connected || c.state == Disconnected
    requires c.output == []
    ensures InvWithSlack(Emitted(c, id, n))
  {
    var d := Emitted(c, id, n);
    EmittedKeepsBook(c, id, n);
    FileSegmentKeeps(c, d, d.wire[|c.wire|]);
  }

  /** The last chunk has gone: the slack pays for the notification. */
  lemma CompletedKeeps(d: Conn)
    requires InvWithSlack(d)
    ensures Inv(Completed(d))
  {
    SameBookKeeps(d, Completed(d), Fin);
  }

  ghost predicate MaySendFile(c: Conn, id: nat) {
    && InvWithSlack(c) && id < |c.book| && id !in c.queue
    && (c.state == Connected || c.state == Disconnected) && c.output == []
  }

  lemma ChunkSentKeeps(c: Conn, id: nat, n: nat)
    requires MaySendFile(c, id) && n <= Available(c.book[id])
    ensures Inv(SendFileInLoop(c, id, Wrote(n)))
  {
    var d := Emitted(c, id, n);
    EmittedKeeps(c, id, n);
    if d.book[id].remaining == 0 {
      CompletedKeeps(d);
    } else {
      RequeueKeeps(d, id, false);
    }
  }

  lemma SendFileFailedKeeps(c: Conn, id: nat, e: Errno)
    requires MaySendFile(c, id)
    ensures Inv(SendFileInLoop(c, id, WriteError(e)))
  {
    var d := c.(wire := c.wire + [FromFile(id, [])]);
    EmittedKeeps(c, id, 0);
    assert Emitted(c, id, 0) == d by {
      assert c.book[id := c.book[id]] == c.book;
    }
    RequeueKeeps(d, id, Fatal(e));
  }

  lemma SendFileInLoopKeeps(c: Conn, id: nat, w: WriteResult)
    requires InvWithSlack(c) && id < |c.book| && id !in c.queue && c.state != Connecting
    requires Fits(w, Available(c.book[id]))
    ensures Inv(SendFileInLoop(c, id, w))
  {
    if c.state == Disconnecting {
    } else if !c.events.writing && c.output == [] {
      if w.Wrote? {
        ChunkSentKeeps(c, id, w.n);
      } else {
        SendFileFailedKeeps(c, id, w.errno);
      }
    } else {
      RequeueKeeps(c, id, false);
    }
  }

  // ---------- Every step ----------

  /** A request enters the book: it makes room for its own outcome. */
  lemma BookedKeeps(c: Conn, t: Transfer)
    requires Inv(c) && t.offset == t.start && t.remaining == t.count
    ensures InvWithSlack(Booked(c, t)) && |c.book| !in c.queue
  {
    var d := Booked(c, t);
    forall k | 0 <= k < |d.book|
      ensures TransferOk(d.book[k], FileBytes(d.wire, k))
    {
      assert k < |c.book| ==> TransferOk(c.book[k], FileBytes(c.wire, k));
    }
  }

  lemma UnqueuedKeeps(c: Conn)
    requires Inv(c) && c.queue != []
    ensures InvWithSlack(c.(queue := c.queue[1..])) && c.queue[0] !in c.queue[1..]
  {
  }

  /** A change of stage and of the input only. */
  lemma StageMoves(c: Conn, d: Conn)
    requires Inv(c) && StageInv(d)
    requires d == c.(stage := d.stage, input := d.input)
    ensures Inv(d)
  {
    SameBookKeeps(c, d, Fin);
  }

  lemma DispatchKeeps(c: Conn, l: Label)
    requires Inv(c) && Enabled(c, l) && (l.Report? || l.DoClose? || l.DoError? || l.DoWrite?)
    ensures Inv(Step(c, l))
  {
    var d := c.(stage := Step(c, l).stage);
    match l {
      case Report(_) => StageMoves(c, d);
      case DoError => StageMoves(c, d);
      case DoClose =>
        if c.stage.m.hup && !c.stage.m.in_ {
          StageMoves(c, c.(stage := Idle));
          assert d.(stage := Idle) == c.(stage := Idle);
          HandleCloseKeeps(d);
        } else {
          StageMoves(c, d);
        }
      case DoWrite(w) =>
        StageMoves(c, c.(stage := Idle));
        if c.stage.m.out {
          HandleWriteKeeps(c.(stage := Idle), w);
        }
    }
  }

  lemma ReadKeeps(c: Conn, r: ReadResult)
    requires Inv(c) && c.stage.AtRead?
    ensures Inv(Step(c, DoRead(r)))
  {
    var d := c.(stage := AtWrite(c.stage.m));
    StageMoves(c, d);
    if (c.stage.m.in_ || c.stage.m.pri) && r.Data? {
      if r.bytes == [] {
        StageMoves(c, c.(stage := Idle));
        assert d.(stage := Idle) == c.(stage := Idle);
        HandleCloseKeeps(d);
      } else {
        StageMoves(c, HandleRead(d, r));
      }
    }
  }

  lemma UserKeeps(c: Conn, l: Label)
    requires Inv(c) && Enabled(c, l)
    requires l.DoSend? || l.DoShutdown? || l.DoSendFile? || l.Consume? || l.RunTransfer?
    ensures Inv(Step(c, l))
  {
    match l {
      case DoSend(data, w) =>
        if c.state == Connected {
          SendInLoopKeeps(c, data, w);
        }
      case DoShutdown =>
        if c.state == Connected {
          ShutdownKeeps(c);
        }
      case DoSendFile(file, offset, count, w) =>
        if c.state == Connected {
          BookedKeeps(c, NewTransfer(file, offset, count));
          SendFileInLoopKeeps(Booked(c, NewTransfer(file, offset, count)), |c.book|, w);
        }
      case Consume(n) =>
        StageMoves(c, c.(input := c.input[n..]));
      case RunTransfer(w) =>
        UnqueuedKeeps(c);
        SendFileInLoopKeeps(c.(queue := c.queue[1..]), c.queue[0], w);
    }
  }

  lemma EstablishKeeps(c: Conn)
    requires Inv(c) && Enabled(c, Establish)
    ensures Inv(Step(c, Establish))
  {
    SameBookKeeps(c, ConnectEstablished(c), Fin);
  }

  lemma StepKeeps(c: Conn, l: Label)
    requires Inv(c) && Enabled(c, l)
    ensures Inv(Step(c, l))
  {
    match l {
      case Establish => EstablishKeeps(c);
      case DoRead(r) => ReadKeeps(c, r);
      case Destroy => ConnectDestroyedKeeps(c);
      case Report(_) => DispatchKeeps(c, l);
      case DoClose => DispatchKeeps(c, l);
      case DoError => DispatchKeeps(c, l);
      case DoWrite(_) => DispatchKeeps(c, l);
      case _ => UserKeeps(c, l);
    }
  }

  lemma InitialInv(cfg: Config)
    ensures Inv(Initial(cfg))
  {
  }

  lemma {:induction false} RunKeeps(c: Conn, run: seq<Label>)
    requires Inv(c) && Legal(c, run)
    ensures Inv(After(c, run))
    decreases |run|
  {
    if run != [] {
      StepKeeps(c, run[0]);
      RunKeeps(Step(c, run[0]), run[1..]);
    }
  }
}
