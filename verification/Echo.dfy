/** EchoServer on top of a connection: everything received is sent back. */
module Echo {
  import opened ByteBuffer
  import opened Registration
  import opened Connection
  import opened ConnectionState
  import opened ConnectionInvariants
  import opened ConnectionTheorems
  import opened TcpConnectionObject
  import BufferShape

  /** EchoServer::onMessage. */
  function Echoed(c: Conn, w: WriteResult): Conn
    requires Fits(w, |c.input|)
  {
    Send(c.(input := []), c.input, w)
  }

  /** Steps of a connection whose only user is EchoServer: the reads that deliver
      bytes run onMessage before anything else happens. */
  datatype EchoLabel = Plain(l: Label) | ReadAndEcho(bytes: seq<byte>, w: WriteResult)

  predicate Readable(c: Conn) {
    c.stage.AtRead? && (c.stage.m.in_ || c.stage.m.pri)
  }

  predicate EchoEnabled(c: Conn, e: EchoLabel) {
    match e
    case ReadAndEcho(bytes, w) => Readable(c) && bytes != [] && Fits(w, |c.input| + |bytes|)
    case Plain(l) =>
      && Enabled(c, l)
      && match l
         case Establish => true
         case Report(_) => true
         case DoClose => true
         case DoError => true
         case DoRead(r) => Readable(c) && r.Data? ==> r.bytes == []
         case DoWrite(_) => true
         case Destroy => true
         case _ => false
  }

  function EchoStep(c: Conn, e: EchoLabel): Conn
    requires EchoEnabled(c, e)
  {
    match e
    case Plain(l) => Step(c, l)
    case ReadAndEcho(bytes, w) => Echoed(Step(c, DoRead(Data(bytes))), w)
  }

  predicate EchoLegal(c: Conn, run: seq<EchoLabel>)
    decreases |run|
  {
    run == [] || (EchoEnabled(c, run[0]) && EchoLegal(EchoStep(c, run[0]), run[1..]))
  }

  function EchoAfter(c: Conn, run: seq<EchoLabel>): Conn
    requires EchoLegal(c, run)
    decreases |run|
  {
    if run == [] then c else EchoAfter(EchoStep(c, run[0]), run[1..])
  }

  function Bytes(e: EchoLabel): seq<byte> {
    if e.ReadAndEcho? then e.bytes else []
  }

  predicate MeetsFatal(c: Conn, e: EchoLabel) {
    e.ReadAndEcho? && Dropped(c, e.w)
  }

  /** All bytes the socket delivered, read off the run alone. */
  function Delivered(run: seq<EchoLabel>): seq<byte> {
    if run == [] then []
    else Bytes(run[0]) + Delivered(run[1..])
  }

  /** No echo met EPIPE or ECONNRESET. */
  predicate NoFatalWrite(c: Conn, run: seq<EchoLabel>)
    requires EchoLegal(c, run)
    decreases |run|
  {
    run == [] ||
    (!MeetsFatal(c, run[0]) && NoFatalWrite(EchoStep(c, run[0]), run[1..]))
  }

  ghost predicate EchoInv(c: Conn) {
    Inv(c) && c.input == [] && c.state != Disconnecting
  }

  lemma PlainKeeps(c: Conn, l: Label)
    requires EchoInv(c) && EchoEnabled(c, Plain(l))
    ensures EchoInv(Step(c, l)) && Step(c, l).accepted == c.accepted
  {
    StepKeeps(c, l);
    StepFactsHold(c, l);
    assert c.accepted + [] == c.accepted;
    PlainLeavesInput(c, l);
  }

  lemma PlainLeavesInput(c: Conn, l: Label)
    requires c.input == [] && c.state != Disconnecting && EchoEnabled(c, Plain(l))
    ensures Step(c, l).input == [] && Step(c, l).state != Disconnecting
  {
  }

  lemma ReadAndEchoKeeps(c: Conn, bytes: seq<byte>, w: WriteResult)
    requires EchoInv(c) && EchoEnabled(c, ReadAndEcho(bytes, w))
    ensures var d := EchoStep(c, ReadAndEcho(bytes, w));
            EchoInv(d) && d.accepted == c.accepted + (if Dropped(c, w) then [] else bytes)
  {
    var d := Step(c, DoRead(Data(bytes)));
    assert d.input == bytes;
    StepKeeps(c, DoRead(Data(bytes)));
    var e := d.(input := []);
    StageMoves(d, e);
    EchoSends(e, bytes, w);
  }

  lemma EchoSends(c: Conn, bytes: seq<byte>, w: WriteResult)
    requires Inv(c) && c.state == Connected && Fits(w, |bytes|)
    ensures Inv(Send(c, bytes, w)) && Send(c, bytes, w).state == Connected
    ensures Send(c, bytes, w).input == c.input
    ensures Send(c, bytes, w).accepted == c.accepted + (if Dropped(c, w) then [] else bytes)
  {
    StepKeeps(c, DoSend(bytes, w));
    StepFactsHold(c, DoSend(bytes, w));
    SendStays(c, bytes, w);
  }

  lemma SendStays(c: Conn, bytes: seq<byte>, w: WriteResult)
    requires Fits(w, |bytes|)
    ensures Send(c, bytes, w).input == c.input && Send(c, bytes, w).state == c.state
  {
  }

  function EchoAccepts(c: Conn, e: EchoLabel): seq<byte> {
    if MeetsFatal(c, e) then [] else Bytes(e)
  }

  function EchoAccepted(c: Conn, run: seq<EchoLabel>): seq<byte>
    requires EchoLegal(c, run)
    decreases |run|
  {
    if run == [] then [] else EchoAccepts(c, run[0]) + EchoAccepted(EchoStep(c, run[0]), run[1..])
  }

  lemma EchoStepTo(c: Conn, e: EchoLabel) returns (d: Conn)
    requires EchoInv(c) && EchoEnabled(c, e)
    ensures d == EchoStep(c, e) && EchoInv(d) && d.accepted == c.accepted + EchoAccepts(c, e)
  {
    d := EchoStep(c, e);
    match e {
      case Plain(l) =>
        PlainKeeps(c, l);
        assert c.accepted + [] == c.accepted;
      case ReadAndEcho(bytes, w) => ReadAndEchoKeeps(c, bytes, w);
    }
  }

  lemma {:induction false} EchoRunKeeps(c: Conn, run: seq<EchoLabel>)
    requires EchoInv(c) && EchoLegal(c, run)
    ensures EchoInv(EchoAfter(c, run))
    ensures EchoAfter(c, run).accepted == c.accepted + EchoAccepted(c, run)
    decreases |run|
  {
    if run == [] {
      assert c.accepted + [] == c.accepted;
    } else {
      var d := EchoStepTo(c, run[0]);
      EchoRunKeeps(d, run[1..]);
      AcceptsCompose(c.accepted, EchoAccepts(c, run[0]), EchoAccepted(d, run[1..]));
    }
  }

  lemma {:induction false} AllAccepted(c: Conn, run: seq<EchoLabel>)
    requires EchoLegal(c, run) && NoFatalWrite(c, run)
    ensures EchoAccepted(c, run) == Delivered(run)
    decreases |run|
  {
    if run != [] {
      AllAccepted(EchoStep(c, run[0]), run[1..]);
    }
  }

  /** End to end, over every run of readable and writable events, with any
      chunking and any partial writes: as long as no echo meets a fatal error,
      bytes given to the kernel, then bytes waiting, are the bytes received.  The
      input buffer is empty after every step. */
  lemma EchoIsFaithful(c: Conn, run: seq<EchoLabel>)
    requires Begins(c) && c.input == [] && EchoLegal(c, run)
    ensures var t := EchoAfter(c, run);
            && t.input == []
            && (NoFatalWrite(c, run) ==>
                  && StreamBytes(t.wire) + t.output == Delivered(run)
                  && (t.state == Connected && !t.events.writing ==> StreamBytes(t.wire) == Delivered(run)))
  {
    EchoRunKeeps(c, run);
    assert [] + EchoAccepted(c, run) == EchoAccepted(c, run);
    StreamSplit(EchoAfter(c, run));
    if NoFatalWrite(c, run) {
      AllAccepted(c, run);
    }
  }

  lemma StreamSplit(t: Conn)
    requires Inv(t)
    ensures StreamBytes(t.wire) + t.output == t.accepted
    ensures t.state == Connected && !t.events.writing ==> StreamBytes(t.wire) == t.accepted
  {
    assert StreamBytes(t.wire) + [] == StreamBytes(t.wire);
  }

  // ---------- EchoServer as a user of the connection ----------

  /** The read part delivers bytes, so onMessage runs. */
  predicate Delivers(c: Conn, l: Label) {
    Readable(c) && l.DoRead? && l.r.Data? && l.r.bytes != []
  }

  /** After each delivery, and only then, the user takes all the input and sends
      just that. */
  predicate Echoing(c: Conn, run: seq<Label>)
    requires Legal(c, run)
    decreases |run|
  {
    if run == [] then true
    else if Delivers(c, run[0]) then
      var d := Step(c, run[0]);
      var calls := run[1..];
      && calls != [] && calls[0] == Consume(|d.input|)
      && var y, last := Step(d, calls[0]), calls[1..];
         assert Legal(d, calls) && Legal(y, last);
         && last != [] && last[0].DoSend? && last[0].data == d.input
         && Echoing(Step(y, last[0]), last[1..])
    else EchoEnabled(c, Plain(run[0])) && Echoing(Step(c, run[0]), run[1..])
  }

  /** No send of the run is dropped. */
  predicate NoDrops(c: Conn, run: seq<Label>)
    requires Legal(c, run)
    decreases |run|
  {
    run == [] || (!(run[0].DoSend? && Dropped(c, run[0].w)) && NoDrops(Step(c, run[0]), run[1..]))
  }

  /** onMessage is those two calls. */
  lemma MessageIsCalls(c: Conn, bytes: seq<byte>, w: WriteResult)
    requires Readable(c) && bytes != [] && Fits(w, |c.input| + |bytes|)
    ensures var d := Step(c, DoRead(Data(bytes)));
            && d.input == c.input + bytes && d.output == c.output
            && Enabled(d, Consume(|d.input|)) && Enabled(Step(d, Consume(|d.input|)), DoSend(d.input, w))
            && EchoStep(c, ReadAndEcho(bytes, w)) == Step(Step(d, Consume(|d.input|)), DoSend(d.input, w))
  {
    var d := Step(c, DoRead(Data(bytes)));
    assert d.input[|d.input|..] == [];
  }

  lemma EchoDelivery(c: Conn, run: seq<Label>) returns (e: EchoLabel, d: Conn, rest: seq<Label>)
    requires Legal(c, run) && run != [] && Delivers(c, run[0]) && Echoing(c, run) && c.input == []
    ensures |rest| < |run| && Legal(d, rest) && Echoing(d, rest) && After(c, run) == After(d, rest)
    ensures EchoEnabled(c, e) && EchoStep(c, e) == d && Bytes(e) + ReadBy(d, rest) == ReadBy(c, run)
    ensures NoDrops(c, run) ==> NoDrops(d, rest) && !MeetsFatal(c, e)
  {
    var bytes, x := run[0].r.bytes, Step(c, run[0]);
    var calls := run[1..];
    var y, last := Step(x, calls[0]), calls[1..];
    assert Legal(x, calls) && Legal(y, last);
    e := ReadAndEcho(bytes, last[0].w);
    MessageIsCalls(c, bytes, last[0].w);
    d, rest := Step(y, last[0]), last[1..];
    Unrolled(c, run, x);
    Unrolled(x, calls, y);
    Unrolled(y, last, d);
    assert bytes + ([] + ([] + ReadBy(d, rest))) == bytes + ReadBy(d, rest);
  }

  lemma Unrolled(c: Conn, run: seq<Label>, d: Conn)
    requires Legal(c, run) && run != [] && d == Step(c, run[0])
    ensures Legal(d, run[1..]) && After(c, run) == After(d, run[1..])
    ensures ReadBy(c, run) == Reads(c, run[0]) + ReadBy(d, run[1..])
    ensures NoDrops(c, run) ==> !(run[0].DoSend? && Dropped(c, run[0].w)) && NoDrops(d, run[1..])
  {
  }

  lemma EchoRest(c: Conn, run: seq<Label>)
    requires Legal(c, run) && run != [] && !Delivers(c, run[0]) && Echoing(c, run)
    ensures var e, d := Plain(run[0]), Step(c, run[0]);
            && EchoEnabled(c, e) && EchoStep(c, e) == d
            && Bytes(e) + ReadBy(d, run[1..]) == ReadBy(c, run)
            && (NoDrops(c, run) ==> NoDrops(d, run[1..]) && !MeetsFatal(c, e))
  {
  }

  lemma {:induction false} EchoingIsEcho(c: Conn, run: seq<Label>) returns (echoes: seq<EchoLabel>)
    requires EchoInv(c) && Legal(c, run) && Echoing(c, run)
    ensures EchoLegal(c, echoes) && EchoAfter(c, echoes) == After(c, run)
    ensures Delivered(echoes) == ReadBy(c, run)
    ensures NoDrops(c, run) ==> NoFatalWrite(c, echoes)
    decreases |run|
  {
    if run == [] {
      echoes := [];
    } else {
      var e, d, rest;
      if Delivers(c, run[0]) {
        e, d, rest := EchoDelivery(c, run);
      } else {
        EchoRest(c, run);
        e, d, rest := Plain(run[0]), Step(c, run[0]), run[1..];
      }
      var _ := EchoStepTo(c, e);
      var more := EchoingIsEcho(d, rest);
      EchoRunPrepends(c, e, more);
      echoes := [e] + more;
      assert echoes[1..] == more;
    }
  }

  /** Of any run in which the user does what EchoServer does. */
  lemma EchoingIsFaithful(c: Conn, run: seq<Label>)
    requires Begins(c) && c.input == [] && Legal(c, run) && Echoing(c, run)
    ensures var t := After(c, run);
            && t.input == []
            && (NoDrops(c, run) ==> StreamBytes(t.wire) + t.output == ReadBy(c, run))
  {
    var echoes := EchoingIsEcho(c, run);
    EchoIsFaithful(c, echoes);
  }

  // ---------- As methods ----------

  /** What the kernel answers to a write of n bytes. */
  type Kernel = nat -> WriteResult

  ghost predicate Honest(k: Kernel) {
    forall n: nat :: Fits(k(n), n)
  }

  /** handleRead on a mask m, with onMessage when bytes were delivered. */
  ghost function ReadPart(c: Conn, m: Revents, r: ReadResult, k: Kernel): Conn
    requires Honest(k)
  {
    var d := c.(stage := AtWrite(m));
    if m.in_ || m.pri then
      var e := HandleRead(d, r);
      if r.Data? && r.bytes != [] then Echoed(e, k(|e.input|)) else e
    else d
  }

  /** The hang-up and error parts. */
  function ClosePart(c: Conn, m: Revents): Conn {
    var d := c.(stage := AtError(m));
    var e := if m.hup && !m.in_ then HandleClose(d) else d;
    e.(stage := AtRead(m))
  }

  ghost function WritePart(c: Conn, m: Revents, k: Kernel): Conn
    requires Honest(k)
  {
    var d := c.(stage := Idle);
    if m.out then HandleWrite(d, k(|d.output|)) else d
  }

  /** One handleEvent of a connection reported with mask m. */
  ghost function Dispatched(c: Conn, m: Revents, r: ReadResult, k: Kernel): Conn
    requires Honest(k)
  {
    WritePart(ReadPart(ClosePart(c, m), m, r, k), m, k)
  }

  lemma EchoRunPrepends(c: Conn, e: EchoLabel, run: seq<EchoLabel>)
    requires EchoEnabled(c, e) && EchoLegal(EchoStep(c, e), run)
    ensures EchoLegal(c, [e] + run) && EchoAfter(c, [e] + run) == EchoAfter(EchoStep(c, e), run)
  {
    assert ([e] + run)[1..] == run;
  }

  lemma ReadPartIsStep(c: Conn, r: ReadResult, k: Kernel) returns (e: EchoLabel)
    requires c.stage.AtRead? && Honest(k)
    ensures EchoEnabled(c, e) && EchoStep(c, e) == ReadPart(c, c.stage.m, r, k)
    ensures ReadPart(c, c.stage.m, r, k).stage == AtWrite(c.stage.m)
  {
    if Readable(c) && r.Data? && r.bytes != [] {
      e := ReadAndEcho(r.bytes, k(|c.input| + |r.bytes|));
      var d := Step(c, DoRead(r));
      StageOfSend(d.(input := []), d.input, e.w);
    } else {
      e := Plain(DoRead(r));
    }
  }

  lemma StageOfSend(c: Conn, data: seq<byte>, w: WriteResult)
    requires Fits(w, |data|)
    ensures Send(c, data, w).stage == c.stage
  {
  }

  /** A dispatch is a run of the echo system: its handlers add nothing else. */
  lemma DispatchIsEchoRun(c: Conn, m: Revents, r: ReadResult, k: Kernel)
    returns (run: seq<EchoLabel>)
    requires Honest(k) && Enabled(c, Report(m))
    ensures EchoLegal(c, run) && EchoAfter(c, run) == Dispatched(c, m, r, k)
  {
    var c0 := Step(c, Report(m));
    var c1 := Step(c0, DoClose);
    var c2 := Step(c1, DoError);
    var e := ReadPartIsStep(c2, r, k);
    var c3 := ReadPart(c2, m, r, k);
    var l := DoWrite(k(|c3.output|));
    EchoRunPrepends(c3, Plain(l), []);
    EchoRunPrepends(c2, e, [Plain(l)] + []);
    EchoRunPrepends(c1, Plain(DoError), [e] + ([Plain(l)] + []));
    EchoRunPrepends(c0, Plain(DoClose), [Plain(DoError)] + ([e] + ([Plain(l)] + [])));
    run := [Plain(DoClose)] + ([Plain(DoError)] + ([e] + ([Plain(l)] + [])));
    EchoRunPrepends(c, Plain(Report(m)), run);
    run := [Plain(Report(m))] + run;
  }

  class EchoServer {

    method OnMessage(conn: TcpConnection, w: WriteResult)
      requires conn.Valid() && Fits(w, |conn.Abs().input|)
      modifies conn.Frame()
      ensures conn.Valid() && fresh(conn.Frame() - old(conn.Frame()))
      ensures conn.channel.OrderKept()
      ensures conn.Abs() == Echoed(old(conn.Abs()), w)
    {
      var msg := conn.RetrieveInput();
      conn.Send(msg, w);
    }

    /** handleRead with its message callback. */
    method ReadAndAnswer(conn: TcpConnection, r: ReadResult, k: Kernel)
      requires conn.Valid() && Honest(k)
      requires r.Data? ==> |r.bytes| <= BufferShape.ReadLimit(conn.inputBuffer.Shape())
      modifies conn.Frame()
      ensures conn.Valid() && fresh(conn.Frame() - old(conn.Frame()))
      ensures conn.channel.OrderKept()
      ensures var d := HandleRead(old(conn.Abs()), r);
              conn.Abs() == if r.Data? && r.bytes != [] then Echoed(d, k(|d.input|)) else d
    {
      var message := conn.HandleRead(r);
      if message {
        OnMessage(conn, k(conn.inputBuffer.ReadableBytes()));
      }
    }

    method Read(conn: TcpConnection, m: Revents, r: ReadResult, k: Kernel)
      requires conn.Valid() && Honest(k)
      requires r.Data? ==> |r.bytes| <= BufferShape.ReadLimit(conn.inputBuffer.Shape())
      modifies conn.Frame()
      ensures conn.Valid() && fresh(conn.Frame() - old(conn.Frame()))
      ensures conn.channel.OrderKept()
      ensures conn.Abs() == ReadPart(old(conn.Abs()), m, r, k)
    {
      conn.SetStage(AtWrite(m));
      if m.in_ || m.pri {
        ReadAndAnswer(conn, r, k);
      }
    }

    /** The hang-up and error parts. */
    method BeforeRead(conn: TcpConnection, m: Revents)
      requires conn.Valid()
      modifies conn.Frame()
      ensures conn.Valid() && fresh(conn.Frame() - old(conn.Frame()))
      ensures conn.channel.OrderKept()
      ensures conn.inputBuffer.Shape() == old(conn.inputBuffer.Shape())
      ensures conn.Abs() == ClosePart(old(conn.Abs()), m)
    {
      conn.SetStage(AtError(m));
      if m.hup && !m.in_ {
        conn.HandleClose();
      }
      conn.SetStage(AtRead(m));
    }

    method AfterRead(conn: TcpConnection, m: Revents, k: Kernel)
      requires conn.Valid() && Honest(k)
      modifies conn.Frame()
      ensures conn.Valid() && fresh(conn.Frame() - old(conn.Frame()))
      ensures conn.channel.OrderKept()
      ensures conn.Abs() == WritePart(old(conn.Abs()), m, k)
    {
      conn.SetStage(Idle);
      if m.out {
        conn.HandleWrite(k(conn.outputBuffer.ReadableBytes()));
      }
    }

    /** handleEventWithGuard: hang-up, error, read and write, in that order, all on
        the mask that was reported. */
    method HandleEvent(conn: TcpConnection, r: ReadResult, k: Kernel)
      requires conn.Valid() && Honest(k)
      requires r.Data? ==> |r.bytes| <= BufferShape.ReadLimit(conn.inputBuffer.Shape())
      modifies conn.Frame()
      ensures conn.Valid() && fresh(conn.Frame() - old(conn.Frame()))
      ensures conn.channel.OrderKept()
      ensures conn.Abs() == Dispatched(old(conn.Abs()), old(conn.channel.revents), r, k)
    {
      var m := conn.channel.revents;
      BeforeRead(conn, m);
      Read(conn, m, r, k);
      AfterRead(conn, m, k);
    }
  }
}
