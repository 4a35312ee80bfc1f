/** What a connection guarantees over every run on its loop thread. */
module ConnectionTheorems {
  import opened ByteBuffer
  import opened Registration
  import opened Connection
  import opened ConnectionState
  import opened ConnectionInvariants

  // ---------- What one step does ----------

  function Rank(s: ConnState): nat {
    match s
    case Connecting => 0
    case Connected => 1
    case Disconnecting => 2
    case Disconnected => 3
  }

  /** Whether this send meets a fatal error, the one way a send is dropped. */
  predicate Dropped(c: Conn, w: WriteResult) {
    c.output == [] && (w == WriteError(EPIPE) || w == WriteError(ECONNRESET))
  }

  /** The bytes a step has the connection accept. */
  function Accepts(c: Conn, l: Label): seq<byte> {
    if l.DoSend? && c.state == Connected && !Dropped(c, l.w) then l.data else []
  }

  /** The step disconnects, and is not connectDestroyed. */
  predicate ClosedBy(c: Conn, l: Label, d: Conn) {
    c.state != Disconnected && d.state == Disconnected && !l.Destroy?
  }

  /** What stays once disconnected. */
  ghost predicate Ended(c: Conn, d: Conn) {
    && d.state == Disconnected && d.events == NO_INTEREST
    && d.ups == c.ups && d.downs == c.downs && d.closes == c.closes
    && d.output == c.output && d.accepted == c.accepted && d.sends == c.sends
    && |d.book| == |c.book|
    && |d.input| <= |c.input| && d.input == c.input[|c.input| - |d.input|..]
    && c.wire <= d.wire
    && (forall i :: |c.wire| <= i < |d.wire| ==> d.wire[i].FromFile?)
  }

  ghost predicate CrossesMark(c: Conn, d: Conn) {
    c.cfg.onHighWater && |c.output| < c.cfg.mark <= |d.output|
  }

  ghost predicate StepFacts(c: Conn, l: Label, d: Conn) {
    && d.cfg == c.cfg
    && Rank(c.state) <= Rank(d.state)
    && d.closes == c.closes + (if ClosedBy(c, l, d) then 1 else 0)
    && d.accepted == c.accepted + Accepts(c, l)
    && (d.completes != c.completes ==>
          d.completes == c.completes + 1 && c.cfg.onComplete && d.output == [])
    && (c.cfg.onComplete && d.output == [] && (c.output != [] || |d.accepted| > |c.accepted|) ==>
          d.completes == c.completes + 1)
    && d.marks == (if CrossesMark(c, d) then c.marks + [|d.output|] else c.marks)
    && (|d.output| < |c.output| ==> l.DoWrite?)
    && (c.state == Disconnected ==> Ended(c, d))
  }

  lemma DispatchFacts(c: Conn, l: Label)
    requires Inv(c) && Enabled(c, l)
    requires l.Report? || l.DoClose? || l.DoError?
    ensures StepFacts(c, l, Step(c, l))
  {
  }

  lemma ReadFacts(c: Conn, r: ReadResult)
    requires Inv(c) && Enabled(c, DoRead(r))
    ensures StepFacts(c, DoRead(r), Step(c, DoRead(r)))
  {
  }

  lemma LifeFacts(c: Conn, l: Label)
    requires ModeInv(c) && Enabled(c, l) && (l.Establish? || l.Destroy?)
    ensures StepFacts(c, l, Step(c, l))
  {
  }

  lemma ShutdownFacts(c: Conn)
    requires ModeInv(c)
    ensures StepFacts(c, DoShutdown, Shutdown(c))
  {
  }

  lemma ConsumeFacts(c: Conn, n: nat)
    requires ModeInv(c) && n <= |c.input|
    ensures StepFacts(c, Consume(n), c.(input := c.input[n..]))
  {
  }

  lemma CallFacts(c: Conn, l: Label)
    requires ModeInv(c) && Enabled(c, l)
    requires l.Establish? || l.DoShutdown? || l.Consume? || l.Destroy?
    ensures StepFacts(c, l, Step(c, l))
  {
    match l {
      case DoShutdown => ShutdownFacts(c);
      case Consume(n) => ConsumeFacts(c, n);
      case _ => LifeFacts(c, l);
    }
  }

  lemma SendDirectlyFacts(c: Conn, data: seq<byte>, w: WriteResult)
    requires WritesDirectly(c) && Fits(w, |data|)
    ensures StepFacts(c, DoSend(data, w), SentDirectly(c.(sends := c.sends + 1), data, w))
  {
  }

  lemma SendFacts(c: Conn, data: seq<byte>, w: WriteResult)
    requires Inv(c) && Fits(w, |data|)
    ensures StepFacts(c, DoSend(data, w), Send(c, data, w))
  {
    if WritesDirectly(c) {
      SendDirectlyFacts(c, data, w);
    }
  }

  lemma WriteFacts(c: Conn, w: WriteResult)
    requires ModeInv(c) && Enabled(c, DoWrite(w))
    ensures StepFacts(c, DoWrite(w), Step(c, DoWrite(w)))
  {
  }

  lemma ChunkFacts(c: Conn, id: nat, n: nat, l: Label)
    requires ModeInv(c) && id < |c.book| && n <= Available(c.book[id])
    requires (c.state == Connected || c.state == Disconnected) && c.output == [] && !l.DoSend?
    ensures StepFacts(c, l, SendFileInLoop(c, id, Wrote(n)))
  {
  }

  /** The same for the two steps that run sendFileInLoop. */
  lemma TransferFacts(c: Conn, id: nat, w: WriteResult, l: Label)
    requires ModeInv(c) && c.state != Connecting && id < |c.book| && Fits(w, Available(c.book[id]))
    requires !l.DoSend?
    ensures StepFacts(c, l, SendFileInLoop(c, id, w))
  {
    if c.state != Disconnecting && c.output == [] && w.Wrote? {
      ChunkFacts(c, id, w.n, l);
    }
  }

  lemma FileFacts(c: Conn, l: Label)
    requires Inv(c) && Enabled(c, l) && (l.DoSendFile? || l.RunTransfer?)
    ensures StepFacts(c, l, Step(c, l))
  {
    if l.RunTransfer? {
      TransferFacts(c.(queue := c.queue[1..]), c.queue[0], l.w, l);
    } else if c.state == Connected {
      TransferFacts(Booked(c, NewTransfer(l.file, l.offset, l.count)), |c.book|, l.w, l);
    }
  }

  lemma StepFactsHold(c: Conn, l: Label)
    requires Inv(c) && Enabled(c, l)
    ensures StepFacts(c, l, Step(c, l))
  {
    match l {
      case DoSend(data, w) => SendFacts(c, data, w);
      case DoWrite(w) => WriteFacts(c, w);
      case DoSendFile(_, _, _, _) => FileFacts(c, l);
      case RunTransfer(_) => FileFacts(c, l);
      case Report(_) => DispatchFacts(c, l);
      case DoClose => DispatchFacts(c, l);
      case DoError => DispatchFacts(c, l);
      case DoRead(r) => ReadFacts(c, r);
      case _ => CallFacts(c, l);
    }
  }

  // ---------- The byte stream ----------

  /** The bytes of the sends issued while connected and not dropped, read off the
      run alone. */
  function Undropped(c: Conn, run: seq<Label>): seq<byte>
    requires Legal(c, run)
    decreases |run|
  {
    if run == [] then []
    else Accepts(c, run[0]) + Undropped(Step(c, run[0]), run[1..])
  }

  lemma StepAccepts(c: Conn, l: Label) returns (d: Conn)
    requires Inv(c) && Enabled(c, l)
    ensures d == Step(c, l) && Inv(d) && d.accepted == c.accepted + Accepts(c, l)
  {
    d := Step(c, l);
    StepKeeps(c, l);
    StepFactsHold(c, l);
  }

  lemma AcceptsCompose(a: seq<byte>, x: seq<byte>, y: seq<byte>)
    ensures (a + x) + y == a + (x + y)
  {
  }

  lemma {:induction false} RunAccepts(c: Conn, run: seq<Label>)
    requires Inv(c) && Legal(c, run)
    ensures After(c, run).accepted == c.accepted + Undropped(c, run)
    decreases |run|
  {
    if run == [] {
      assert c.accepted + [] == c.accepted;
    } else {
      var d := StepAccepts(c, run[0]);
      RunAccepts(d, run[1..]);
      AcceptsCompose(c.accepted, Accepts(c, run[0]), Undropped(d, run[1..]));
    }
  }

  /** A connection before connectEstablished. */
  ghost predicate Begins(c: Conn) {
    Inv(c) && c.state == Connecting && c.accepted == [] && c.book == []
  }

  lemma ConstructedBegins(cfg: Config)
    ensures Begins(Initial(cfg))
  {
  }

  lemma RunFromStart(c: Conn, run: seq<Label>)
    requires Begins(c) && Legal(c, run)
    ensures Inv(After(c, run)) && After(c, run).accepted == Undropped(c, run)
  {
    RunKeeps(c, run);
    RunAccepts(c, run);
    assert [] + Undropped(c, run) == Undropped(c, run);
  }

  /** Bytes taken by the kernel, then bytes waiting, are exactly the undropped
      sends in order; and EPOLLOUT is asked for exactly while bytes wait. */
  lemma StreamConserved(c: Conn, run: seq<Label>)
    requires Begins(c) && Legal(c, run)
    ensures var t := After(c, run);
            && StreamBytes(t.wire) + t.output == Undropped(c, run)
            && (Live(t) ==> (t.events.writing <==> t.output != []) && t.events.reading)
  {
    var t := StreamAtEnd(c, run);
  }

  lemma StreamAtEnd(c: Conn, run: seq<Label>) returns (t: Conn)
    requires Begins(c) && Legal(c, run)
    ensures t == After(c, run) && StreamInv(t) && ModeInv(t) && t.accepted == Undropped(c, run)
  {
    t := After(c, run);
    RunFromStart(c, run);
  }

  // ---------- FIN ----------

  lemma FinFacts(c: Conn)
    requires Inv(c)
    ensures forall i, j :: 0 <= i < j < |c.wire| && c.wire[i].Fin? ==>
              c.wire[j].FromFile? && c.state == Disconnected
    ensures c.state == Disconnecting ==> (NoFin(c.wire) <==> c.output != [])
  {
    if c.state == Disconnecting && c.output == [] {
      var n := |c.wire| - 1;
      assert forall i :: 0 <= i < n ==> c.wire[i] == c.wire[..n][i];
    }
  }

  /** FIN is asked for at most once, after every undropped byte was written, and
      no write follows it.  A connection being shut down has asked for it exactly
      when nothing waits any more. */
  lemma FinIsLastAndSingle(c: Conn, run: seq<Label>)
    requires Begins(c) && Legal(c, run)
    ensures var t := After(c, run);
            && (forall i :: 0 <= i < |t.wire| && t.wire[i].Fin? ==>
                  StreamBytes(t.wire[..i]) == Undropped(c, run))
            && (forall i, j :: 0 <= i < j < |t.wire| && t.wire[i].Fin? ==>
                  t.wire[j].FromFile? && t.state == Disconnected)
            && (t.state == Disconnecting ==> (NoFin(t.wire) <==> t.output != []))
            && (t.state == Connecting || t.state == Connected ==> NoFin(t.wire))
  {
    RunFromStart(c, run);
    FinFacts(After(c, run));
  }

  /** sendFileInLoop checks for kDisconnecting only: once FIN has been sent, a
      queued transfer still calls sendfile exactly when the connection has been
      closed in the meantime. */
  lemma SendFileAfterFinIff(c: Conn, w: WriteResult)
    requires Inv(c) && !NoFin(c.wire) && Enabled(c, RunTransfer(w))
    ensures Step(c, RunTransfer(w)).wire != c.wire <==> c.state == Disconnected
  {
    var d := c.(queue := c.queue[1..]);
    assert c.output == [];
    if c.state == Disconnected {
      assert |SendFileInLoop(d, c.queue[0], w).wire| == |c.wire| + 1;
    }
  }

  lemma {:induction false} RunsCompose(c: Conn, a: seq<Label>, b: seq<Label>)
    requires Legal(c, a) && Legal(After(c, a), b)
    ensures Legal(c, a + b) && After(c, a + b) == After(After(c, a), b)
    decreases |a|
  {
    if a == [] {
      assert a + b == b;
    } else {
      RunsCompose(Step(c, a[0]), a[1..], b);
      assert (a + b)[1..] == a[1..] + b;
    }
  }

  lemma TwoSteps(c: Conn, a: Label, b: Label)
    requires Enabled(c, a) && Enabled(Step(c, a), b)
    ensures Legal(c, [a, b]) && After(c, [a, b]) == Step(Step(c, a), b)
  {
    assert [a, b][1..] == [b] && [b][1..] == [];
    assert Legal(Step(c, a), [b]) && After(Step(c, a), [b]) == After(Step(Step(c, a), b), []);
  }

  const READABLE := Revents(false, false, true, false, false)

  /** A dispatch that reads the end of file. */
  lemma DispatchOfEof(c: Conn) returns (run: seq<Label>)
    requires c.stage == AtClose(READABLE)
    ensures Legal(c, run) && After(c, run) == HandleClose(c).(stage := Idle)
  {
    var d := c.(stage := AtRead(READABLE));
    TwoSteps(c, DoClose, DoError);
    TwoSteps(d, DoRead(Data([])), DoWrite(WriteError(EAGAIN)));
    run := [DoClose, DoError] + [DoRead(Data([])), DoWrite(WriteError(EAGAIN))];
    RunsCompose(c, [DoClose, DoError], [DoRead(Data([])), DoWrite(WriteError(EAGAIN))]);
  }

  /** A transfer that could not start waits, then the connection is shut down. */
  lemma TransferThenShutdown(c: Conn, b: byte) returns (d: Conn, run: seq<Label>)
    requires c.state == Connected && c.events == Interest(true, false) && c.output == []
    requires c.book == [] && c.queue == [] && c.wire == []
    ensures Legal(c, run) && After(c, run) == d
    ensures d == c.(state := Disconnecting, book := [NewTransfer([b], 0, 1)], queue := [0],
                    wire := [FromFile(0, []), Fin])
  {
    var l := DoSendFile([b], 0, 1, WriteError(EAGAIN));
    TwoSteps(c, l, DoShutdown);
    d, run := Step(Step(c, l), DoShutdown), [l, DoShutdown];
  }

  /** Such a run exists: a transfer waits, the connection is shut down, and its
      peer's end of file is read in the same dispatch; sendfile then follows FIN. */
  lemma SendFileAfterFinHappens(cfg: Config, b: byte) returns (run: seq<Label>)
    ensures Legal(Initial(cfg), run)
    ensures After(Initial(cfg), run).wire == [FromFile(0, []), Fin, FromFile(0, [b])]
  {
    var c := Initial(cfg);
    TwoSteps(c, Establish, Report(READABLE));
    var c1 := Step(Step(c, Establish), Report(READABLE));
    var c2, r2 := TransferThenShutdown(c1, b);
    var r3 := DispatchOfEof(c2);
    var c3 := HandleClose(c2).(stage := Idle);
    run := [Establish, Report(READABLE)] + (r2 + (r3 + [RunTransfer(Wrote(1))]));
    LastChunk(c3, b);
    RunsCompose(c2, r3, [RunTransfer(Wrote(1))]);
    RunsCompose(c1, r2, r3 + [RunTransfer(Wrote(1))]);
    RunsCompose(c, [Establish, Report(READABLE)], r2 + (r3 + [RunTransfer(Wrote(1))]));
  }

  lemma LastChunk(c: Conn, b: byte)
    requires c.state == Disconnected && c.events == NO_INTEREST && c.output == [] && c.stage == Idle
    requires c.queue == [0] && c.book == [NewTransfer([b], 0, 1)]
    ensures Legal(c, [RunTransfer(Wrote(1))])
    ensures After(c, [RunTransfer(Wrote(1))]).wire == c.wire + [FromFile(0, [b])]
  {
    var l := RunTransfer(Wrote(1));
    assert Enabled(c, l);
    assert [l][1..] == [] && After(c, [l]) == After(Step(c, l), []);
    assert Step(c, l).wire == c.wire + [FromFile(0, [b][0..1])];
    assert [b][0..1] == [b];
  }

  // ---------- State order and callbacks ----------

  lemma {:induction false} StateMovesForward(c: Conn, run: seq<Label>)
    requires Inv(c) && Legal(c, run)
    ensures Rank(c.state) <= Rank(After(c, run).state)
    decreases |run|
  {
    if run != [] {
      StepFactsHold(c, run[0]);
      StepKeeps(c, run[0]);
      StateMovesForward(Step(c, run[0]), run[1..]);
    }
  }

  /** Whether some step of a run closes the connection. */
  predicate ClosedIn(c: Conn, run: seq<Label>)
    requires Legal(c, run)
    decreases |run|
  {
    run != [] && (ClosedBy(c, run[0], Step(c, run[0])) || ClosedIn(Step(c, run[0]), run[1..]))
  }

  lemma StepCloses(c: Conn, l: Label) returns (d: Conn)
    requires Inv(c) && Enabled(c, l)
    ensures d == Step(c, l) && Inv(d) && d.closes == c.closes + (if ClosedBy(c, l, d) then 1 else 0)
    ensures c.state == Disconnected ==> d.state == Disconnected
  {
    d := Step(c, l);
    StepFactsHold(c, l);
    StepKeeps(c, l);
  }

  lemma {:induction false} RunCloses(c: Conn, run: seq<Label>)
    requires Inv(c) && Legal(c, run)
    ensures After(c, run).closes == c.closes + (if ClosedIn(c, run) then 1 else 0)
    ensures c.state == Disconnected ==> !ClosedIn(c, run)
    decreases |run|
  {
    if run != [] {
      var d := StepCloses(c, run[0]);
      RunCloses(d, run[1..]);
    }
  }

  /** One UP; one DOWN, on disconnection; closeCallback_ once if some step closed
      the connection, and otherwise never. */
  lemma CallbacksOnce(c: Conn, run: seq<Label>)
    requires Begins(c) && Legal(c, run)
    ensures var t := After(c, run);
            && (t.ups == 1 <==> t.state != Connecting) && t.ups <= 1
            && (t.downs == 1 <==> t.state == Disconnected) && t.downs <= 1
            && t.closes == (if ClosedIn(c, run) then 1 else 0)
  {
    var t := CallbacksAtEnd(c, run);
  }

  lemma CallbacksAtEnd(c: Conn, run: seq<Label>) returns (t: Conn)
    requires Begins(c) && Legal(c, run)
    ensures t == After(c, run) && CallbackInv(t) && t.closes == (if ClosedIn(c, run) then 1 else 0)
  {
    t := InvAtEnd(c, run);
    NoCloseYet(c);
    RunCloses(c, run);
  }

  lemma InvAtEnd(c: Conn, run: seq<Label>) returns (t: Conn)
    requires Inv(c) && Legal(c, run)
    ensures t == After(c, run) && CallbackInv(t)
  {
    t := After(c, run);
    RunKeeps(c, run);
  }

  lemma NoCloseYet(c: Conn)
    requires Begins(c)
    ensures c.closes == 0
  {
  }

  /** Disconnected is final: no later call, no rest of the dispatch and no
      connectDestroyed registers the channel, reads, writes to the stream, sends a
      FIN or calls the connection or the close callback again. */
  lemma {:induction false} DisconnectedIsFinal(c: Conn, run: seq<Label>)
    requires Inv(c) && c.state == Disconnected && Legal(c, run)
    ensures Ended(c, After(c, run))
    decreases |run|
  {
    if run != [] {
      StepFactsHold(c, run[0]);
      StepKeeps(c, run[0]);
      DisconnectedIsFinal(Step(c, run[0]), run[1..]);
    }
  }

  /** A write-complete notification still comes: exactly when a queued transfer
      sends its last bytes. */
  lemma LateNotificationIff(c: Conn, l: Label)
    requires Inv(c) && c.state == Disconnected && Enabled(c, l)
    ensures Step(c, l).completes != c.completes <==>
              && c.cfg.onComplete && l.RunTransfer? && c.output == []
              && l.w.Wrote? && l.w.n == c.book[c.queue[0]].remaining
  {
    StepFactsHold(c, l);
  }

  /** The closes made by one dispatch of an arbitrary mask. */
  function ClosesOfDispatch(c: Conn, m: Revents, r: ReadResult): int {
    var d := Step(Step(Step(c.(stage := AtClose(m)), DoClose), DoError), DoRead(r));
    d.closes - c.closes
  }

  /** One dispatch closes at most once, whatever the read returns, exactly when
      the mask is not a hang-up with urgent data and no ordinary data. */
  lemma DispatchClosesOnceIff(c: Conn, m: Revents)
    ensures !(m.hup && m.pri && !m.in_) <==> forall r :: ClosesOfDispatch(c, m, r) <= 1
  {
    if m.hup && m.pri && !m.in_ {
      assert ClosesOfDispatch(c, m, Data([])) == 2;
    }
  }

  // ---------- Write-complete and high-water callbacks ----------

  /** A write-complete notification is queued only when every accepted byte is in
      the kernel. */
  lemma NotifiedWhenDrained(c: Conn, l: Label)
    requires Inv(c) && Enabled(c, l)
    requires Step(c, l).completes != c.completes
    ensures Step(c, l).completes == c.completes + 1 && c.cfg.onComplete
    ensures Step(c, l).output == [] && StreamBytes(Step(c, l).wire) == Step(c, l).accepted
  {
    StepFactsHold(c, l);
    StepKeeps(c, l);
  }

  /** And one always is, when the callback is set: by the step that empties the
      output buffer, and by a send that is taken whole at once. */
  lemma DrainedIsNotified(c: Conn, l: Label)
    requires Inv(c) && Enabled(c, l) && c.cfg.onComplete
    requires Step(c, l).output == []
    requires c.output != [] || |Step(c, l).accepted| > |c.accepted|
    ensures Step(c, l).completes == c.completes + 1
  {
    StepFactsHold(c, l);
  }

  /** No more notifications than requests, counting one still owed for bytes that
      wait and for each transfer under way. */
  lemma NotificationsBounded(c: Conn, run: seq<Label>)
    requires Begins(c) && Legal(c, run)
    ensures var t := After(c, run);
            t.completes + (if t.output != [] then 1 else 0) + |t.queue| <= t.sends + |t.book|
  {
    RunKeeps(c, run);
  }

  ghost predicate Fires(c: Conn, l: Label)
    requires Enabled(c, l)
  {
    Step(c, l).marks != c.marks
  }

  /** A step fires exactly when the callback is set and the step takes the backlog
      across the mark upwards, and then reports the backlog right after it. */
  lemma FiringIsExact(c: Conn, l: Label)
    requires Inv(c) && Enabled(c, l)
    ensures Fires(c, l) <==> c.cfg.onHighWater && |c.output| < c.cfg.mark <= |Step(c, l).output|
    ensures Fires(c, l) ==> Step(c, l).marks == c.marks + [|Step(c, l).output|]
  {
    StepFactsHold(c, l);
    assert |c.marks + [|Step(c, l).output|]| != |c.marks|;
  }

  lemma {:induction false} DipExists(c: Conn, run: seq<Label>) returns (k: nat)
    requires Inv(c) && Legal(c, run)
    requires |After(c, run).output| < c.cfg.mark <= |c.output|
    ensures k < |run| && run[k].DoWrite?
    ensures Legal(c, run[..k]) && Legal(c, run[..k + 1])
    ensures |After(c, run[..k + 1]).output| < c.cfg.mark <= |After(c, run[..k]).output|
    decreases |run|
  {
    var d := Step(c, run[0]);
    StepFactsHold(c, run[0]);
    StepKeeps(c, run[0]);
    if |d.output| < c.cfg.mark {
      k := 0;
      assert run[..0] == [] && run[..1] == [run[0]];
      assert run[..1][1..] == [];
      assert After(c, run[..1]) == After(d, []) == d;
    } else {
      var j := DipExists(d, run[1..]);
      k := j + 1;
      assert run[..k][1..] == run[1..][..j];
      assert run[..k + 1][1..] == run[1..][..j + 1];
    }
  }

  /** Between two firings some handleWrite took the backlog below the mark. */
  lemma HighWaterIsEdgeTriggered(c: Conn, first: Label, run: seq<Label>, second: Label)
    requires Inv(c) && Enabled(c, first) && Fires(c, first)
    requires Legal(Step(c, first), run)
    requires Enabled(After(Step(c, first), run), second)
    requires Fires(After(Step(c, first), run), second)
    ensures exists k :: 0 <= k < |run| && run[k].DoWrite?
              && Legal(Step(c, first), run[..k]) && Legal(Step(c, first), run[..k + 1])
              && |After(Step(c, first), run[..k + 1]).output| < c.cfg.mark
                   <= |After(Step(c, first), run[..k]).output|
  {
    var d := Step(c, first);
    FiringIsExact(c, first);
    StepFactsHold(c, first);
    StepKeeps(c, first);
    RunKeeps(d, run);
    SameConfig(d, run);
    FiringIsExact(After(d, run), second);
    var k := DipExists(d, run);
  }

  lemma {:induction false} SameConfig(c: Conn, run: seq<Label>)
    requires Inv(c) && Legal(c, run)
    ensures After(c, run).cfg == c.cfg
    decreases |run|
  {
    if run != [] {
      StepFactsHold(c, run[0]);
      StepKeeps(c, run[0]);
      SameConfig(Step(c, run[0]), run[1..]);
    }
  }

  // ---------- sendFile ----------

  /** Over every run and for each request: offset plus remaining is constant, and
      the bytes the kernel took from it are the file from the start to the offset,
      in order, each once. */
  lemma FilesConserved(c: Conn, run: seq<Label>, id: nat)
    requires Begins(c) && Legal(c, run)
    requires id < |After(c, run).book|
    ensures var d := After(c, run);
            var t := d.book[id];
            && t.offset + t.remaining == t.start + t.count && t.start <= t.offset
            && (t.offset <= |t.file| ==> FileBytes(d.wire, id) == t.file[t.start..t.offset])
            && (t.offset > |t.file| ==> t.offset == t.start && FileBytes(d.wire, id) == [])
  {
    RunKeeps(c, run);
  }

  /** After a close, a queued transfer survives every outcome of its next run
      exactly when bytes were left waiting in the output buffer. */
  lemma TransferSurvivesIff(c: Conn)
    requires Inv(c) && c.state == Disconnected && c.stage == Idle && c.queue != []
    ensures c.output != [] <==>
            forall w :: Enabled(c, RunTransfer(w)) ==> |Step(c, RunTransfer(w)).queue| == |c.queue|
  {
    if c.output == [] {
      var w := WriteError(EPIPE);
      assert Enabled(c, RunTransfer(w));
      assert |Step(c, RunTransfer(w)).queue| == |c.queue| - 1;
    }
  }

  /** Then it is requeued for ever: no run takes a transfer off the queue, and
      each functor in it keeps the connection alive. */
  lemma {:induction false} StrandedTransfersStay(c: Conn, run: seq<Label>)
    requires Inv(c) && c.state == Disconnected && c.output != [] && Legal(c, run)
    ensures |After(c, run).queue| == |c.queue|
    decreases |run|
  {
    if run != [] {
      StepKeeps(c, run[0]);
      StepFactsHold(c, run[0]);
      assert |Step(c, run[0]).queue| == |c.queue|;
      StrandedTransfersStay(Step(c, run[0]), run[1..]);
    }
  }

  /** A transfer and a send wait, neither of which the kernel has taken. */
  lemma BothWait(c: Conn, b: byte, x: byte) returns (d: Conn, run: seq<Label>)
    requires c.state == Connected && c.events == Interest(true, false) && c.output == []
    requires c.book == [] && c.queue == []
    ensures Legal(c, run) && After(c, run) == d
    ensures d.state == Connected && d.stage == c.stage && d.output == [x] && d.queue == [0]
  {
    var l1, l2 := DoSendFile([b], 0, 1, WriteError(EAGAIN)), DoSend([x], WriteError(EAGAIN));
    TwoSteps(c, l1, l2);
    d, run := Step(Step(c, l1), l2), [l1, l2];
  }

  /** Transfers do get stranded: both wait when the peer's end of file is read. */
  lemma StrandedHappens(cfg: Config, b: byte, x: byte) returns (run: seq<Label>)
    ensures Legal(Initial(cfg), run)
    ensures var t := After(Initial(cfg), run);
            t.state == Disconnected && t.stage == Idle && t.output == [x] && t.queue == [0]
  {
    var c := Initial(cfg);
    TwoSteps(c, Establish, Report(READABLE));
    var c1 := Step(Step(c, Establish), Report(READABLE));
    var c2, r2 := BothWait(c1, b, x);
    var r3 := DispatchOfEof(c2);
    RunsCompose(c1, r2, r3);
    RunsCompose(c, [Establish, Report(READABLE)], r2 + r3);
    run := [Establish, Report(READABLE)] + (r2 + r3);
  }

  // ---------- No transfer is forgotten ----------

  /** The two ways a transfer is given up: a fatal error of sendfile, or its turn
      coming while the connection is being shut down. */
  predicate GivesUp(c: Conn, l: Label) {
    match l
    case DoSendFile(_, _, _, w) => c.state == Connected && Dropped(c, w)
    case RunTransfer(w) => c.state == Disconnecting || Dropped(c, w)
    case _ => false
  }

  predicate NeverGivesUp(c: Conn, run: seq<Label>)
    requires Legal(c, run)
    decreases |run|
  {
    run == [] || (!GivesUp(c, run[0]) && NeverGivesUp(Step(c, run[0]), run[1..]))
  }

  ghost predicate AllQueued(c: Conn) {
    forall id :: 0 <= id < |c.book| && c.book[id].remaining > 0 ==> id in c.queue
  }

  ghost predicate AllQueuedBut(c: Conn, but: nat) {
    forall id :: 0 <= id < |c.book| && c.book[id].remaining > 0 && id != but ==> id in c.queue
  }

  lemma TransferQueued(c: Conn, id: nat, w: WriteResult)
    requires AllQueuedBut(c, id) && ModeInv(c) && id < |c.book| && Fits(w, Available(c.book[id]))
    requires c.state != Disconnecting && !Dropped(c, w)
    ensures AllQueued(SendFileInLoop(c, id, w))
  {
  }

  lemma StepQueued(c: Conn, l: Label)
    requires Inv(c) && AllQueued(c) && Enabled(c, l) && !GivesUp(c, l)
    ensures AllQueued(Step(c, l))
  {
    match l {
      case DoSendFile(file, offset, count, w) =>
        if c.state == Connected {
          TransferQueued(Booked(c, NewTransfer(file, offset, count)), |c.book|, w);
        }
      case RunTransfer(w) =>
        assert c.queue == [c.queue[0]] + c.queue[1..];
        TransferQueued(c.(queue := c.queue[1..]), c.queue[0], w);
      case _ => OtherQueued(c, l);
    }
  }

  lemma OtherQueued(c: Conn, l: Label)
    requires AllQueued(c) && Enabled(c, l) && !l.DoSendFile? && !l.RunTransfer?
    ensures AllQueued(Step(c, l))
  {
    assert Step(c, l).book == c.book && Step(c, l).queue == c.queue;
  }

  lemma {:induction false} RunQueued(c: Conn, run: seq<Label>)
    requires Inv(c) && AllQueued(c) && Legal(c, run) && NeverGivesUp(c, run)
    ensures AllQueued(After(c, run))
    decreases |run|
  {
    if run != [] {
      StepQueued(c, run[0]);
      StepKeeps(c, run[0]);
      RunQueued(Step(c, run[0]), run[1..]);
    }
  }

  /** A request given up in no step of a run has been sent whole, or its functor
      waits in the queue for exactly the rest. */
  lemma NoTransferForgotten(c: Conn, run: seq<Label>)
    requires Begins(c) && Legal(c, run) && NeverGivesUp(c, run)
    ensures var t := After(c, run);
            forall id :: 0 <= id < |t.book| ==> (t.book[id].remaining > 0 <==> id in t.queue)
  {
    RunQueued(c, run);
    RunKeeps(c, run);
  }

  // ---------- Input ----------

  /** The bytes a step reads from the socket, and those the user takes. */
  function Reads(c: Conn, l: Label): seq<byte> {
    if l.DoRead? && l.r.Data? && c.stage.AtRead? && (c.stage.m.in_ || c.stage.m.pri) then l.r.bytes else []
  }

  function Takes(c: Conn, l: Label): seq<byte> {
    if l.Consume? && l.n <= |c.input| then c.input[..l.n] else []
  }

  function ReadBy(c: Conn, run: seq<Label>): seq<byte>
    requires Legal(c, run)
    decreases |run|
  {
    if run == [] then [] else Reads(c, run[0]) + ReadBy(Step(c, run[0]), run[1..])
  }

  function TakenBy(c: Conn, run: seq<Label>): seq<byte>
    requires Legal(c, run)
    decreases |run|
  {
    if run == [] then [] else Takes(c, run[0]) + TakenBy(Step(c, run[0]), run[1..])
  }

  lemma StepInput(c: Conn, l: Label)
    requires Enabled(c, l)
    ensures c.input + Reads(c, l) == Takes(c, l) + Step(c, l).input
  {
    if l.Consume? {
      assert c.input[..l.n] + c.input[l.n..] == c.input;
    } else {
      assert Step(c, l).input == c.input + Reads(c, l);
    }
  }

  lemma InputComposes(i: seq<byte>, x: seq<byte>, y: seq<byte>, t: seq<byte>, m: seq<byte>, u: seq<byte>, o: seq<byte>)
    requires i + x == t + m && m + y == u + o
    ensures i + (x + y) == (t + u) + o
  {
    assert i + (x + y) == (i + x) + y == t + (m + y);
  }

  /** Over every run, and whatever the user does, bytes taken and then bytes in the
      input buffer are the bytes read, in order. */
  lemma {:induction false} InputConserved(c: Conn, run: seq<Label>)
    requires Legal(c, run)
    ensures c.input + ReadBy(c, run) == TakenBy(c, run) + After(c, run).input
    decreases |run|
  {
    if run != [] {
      var d := Step(c, run[0]);
      StepInput(c, run[0]);
      InputConserved(d, run[1..]);
      InputComposes(c.input, Reads(c, run[0]), ReadBy(d, run[1..]), Takes(c, run[0]), d.input,
                    TakenBy(d, run[1..]), After(d, run[1..]).input);
    }
  }
}
