/** The order in which sends and transfers reach the kernel, and when a transfer
    can end. */
module TransferOrder {
  import opened ByteBuffer
  import opened Registration
  import opened Connection
  import opened ConnectionState
  import opened ConnectionInvariants
  import opened ConnectionTheorems

  // ---------- The order of requests ----------

  lemma {:induction false} StreamSplits(a: seq<Segment>, b: seq<Segment>)
    ensures StreamBytes(a + b) == StreamBytes(a) + StreamBytes(b)
  {
    if b == [] {
      assert a + b == a;
    } else {
      assert (a + b)[..|a + b| - 1] == a + b[..|b| - 1];
      StreamSplits(a, b[..|b| - 1]);
    }
  }

  lemma {:induction false} WireOnlyGrows(c: Conn, run: seq<Label>)
    requires Legal(c, run)
    ensures c.wire <= After(c, run).wire
    decreases |run|
  {
    if run != [] {
      var d := Step(c, run[0]);
      StepWire(c, run[0]);
      WireOnlyGrows(d, run[1..]);
    }
  }

  lemma StepWire(c: Conn, l: Label)
    requires Enabled(c, l)
    ensures c.wire <= Step(c, l).wire
  {
    match l {
      case DoSend(data, w) => SendWire(c, data, w);
      case DoWrite(_) => WriteWire(c, l.w);
      case DoSendFile(file, offset, count, w) =>
        if c.state == Connected {
          TransferWire(Booked(c, NewTransfer(file, offset, count)), |c.book|, w);
        }
      case RunTransfer(w) => TransferWire(c.(queue := c.queue[1..]), c.queue[0], w);
      case _ =>
    }
  }

  lemma SendWire(c: Conn, data: seq<byte>, w: WriteResult)
    requires Fits(w, |data|)
    ensures c.wire <= Send(c, data, w).wire
  {
  }

  lemma WriteWire(c: Conn, w: WriteResult)
    requires Fits(w, |c.output|)
    ensures c.wire <= HandleWrite(c, w).wire
  {
  }

  lemma TransferWire(c: Conn, id: nat, w: WriteResult)
    requires id < |c.book| && Fits(w, Available(c.book[id]))
    ensures c.wire <= SendFileInLoop(c, id, w).wire
  {
  }

  /** A sendFileInLoop writes with nothing waiting, so between two of them stands,
      of the stream, exactly what was sent between them: a later send goes out in
      the middle of a file if and only if it is made before the file is done. */
  lemma SendsOvertakeFiles(c: Conn, run: seq<Label>)
    requires Inv(c) && Legal(c, run) && c.output == [] && After(c, run).output == []
    ensures c.wire <= After(c, run).wire
    ensures StreamBytes(After(c, run).wire[|c.wire|..]) == Undropped(c, run)
  {
    var t := StreamBetween(c, run);
    var more := t.wire[|c.wire|..];
    assert t.wire == c.wire + more;
    StreamSplits(c.wire, more);
    var x := StreamBytes(c.wire);
    assert StreamBytes(more) == (x + StreamBytes(more))[|x|..];
    assert Undropped(c, run) == (x + Undropped(c, run))[|x|..];
  }

  lemma StreamBetween(c: Conn, run: seq<Label>) returns (t: Conn)
    requires Inv(c) && Legal(c, run) && c.output == [] && After(c, run).output == []
    ensures t == After(c, run) && c.wire <= t.wire
    ensures StreamBytes(t.wire) == StreamBytes(c.wire) + Undropped(c, run)
  {
    t := After(c, run);
    RunKeeps(c, run);
    RunAccepts(c, run);
    WireOnlyGrows(c, run);
    assert StreamBytes(t.wire) + [] == StreamBytes(t.wire) && StreamBytes(c.wire) + [] == StreamBytes(c.wire);
  }

  lemma OneStep(c: Conn, l: Label)
    requires Enabled(c, l)
    ensures Legal(c, [l]) && After(c, [l]) == Step(c, l)
  {
    assert [l][1..] == [] && After(Step(c, l), []) == Step(c, l);
  }

  /** Such a run exists. */
  lemma FileIsSplit(cfg: Config, a: byte, b: byte, x: byte) returns (run: seq<Label>)
    ensures Legal(Initial(cfg), run)
    ensures After(Initial(cfg), run).wire == [FromFile(0, [a]), Sent([x]), FromFile(0, [b])]
  {
    var c := Initial(cfg);
    var l1, l2 := DoSendFile([a, b], 0, 2, Wrote(1)), DoSend([x], Wrote(1));
    var c1 := Step(c, Establish);
    TwoSteps(c, Establish, l1);
    var c2 := HalfSent(c1, a, b);
    var c3 := Overtaken(c2, x);
    TwoSteps(c2, l2, RunTransfer(Wrote(1)));
    RestSent(c3, a, b);
    run := [Establish, l1] + [l2, RunTransfer(Wrote(1))];
    RunsCompose(c, [Establish, l1], [l2, RunTransfer(Wrote(1))]);
  }

  lemma HalfSent(c: Conn, a: byte, b: byte) returns (d: Conn)
    requires c.state == Connected && c.events == Interest(true, false) && c.output == []
    requires c.book == [] && c.queue == [] && c.wire == [] && c.stage == Idle
    ensures Enabled(c, DoSendFile([a, b], 0, 2, Wrote(1))) && d == Step(c, DoSendFile([a, b], 0, 2, Wrote(1)))
    ensures d == c.(wire := [FromFile(0, [a])], book := [Transfer([a, b], 0, 2, 1, 1)], queue := [0])
  {
    d := Step(c, DoSendFile([a, b], 0, 2, Wrote(1)));
    assert [a, b][0..1] == [a];
  }

  lemma Overtaken(c: Conn, x: byte) returns (d: Conn)
    requires c.state == Connected && c.events == Interest(true, false) && c.output == []
    ensures Enabled(c, DoSend([x], Wrote(1))) && d == Step(c, DoSend([x], Wrote(1)))
    ensures d.wire == c.wire + [Sent([x])] && d.output == [] && d.events == c.events
    ensures d.state == c.state && d.book == c.book && d.queue == c.queue && d.stage == c.stage
  {
    d := Step(c, DoSend([x], Wrote(1)));
    assert [x][..1] == [x] && [x][1..] == [];
  }

  lemma RestSent(c: Conn, a: byte, b: byte)
    requires c.state == Connected && c.events == Interest(true, false) && c.output == [] && c.stage == Idle
    requires c.queue == [0] && c.book == [Transfer([a, b], 0, 2, 1, 1)]
    ensures Enabled(c, RunTransfer(Wrote(1)))
    ensures Step(c, RunTransfer(Wrote(1))).wire == c.wire + [FromFile(0, [b])]
  {
    assert [a, b][1..2] == [b];
  }

  // ---------- Transfers take turns ----------

  /** The request whose turn a step is, and the one it queues. */
  function TurnOf(c: Conn, l: Label): seq<nat> {
    if l.RunTransfer? && c.queue != [] then [c.queue[0]] else []
  }

  function Turns(c: Conn, run: seq<Label>): seq<nat>
    requires Legal(c, run)
    decreases |run|
  {
    if run == [] then [] else TurnOf(c, run[0]) + Turns(Step(c, run[0]), run[1..])
  }

  lemma StepTurns(c: Conn, l: Label) returns (more: seq<nat>)
    requires Enabled(c, l)
    ensures c.queue + more == TurnOf(c, l) + Step(c, l).queue
  {
    if l.RunTransfer? {
      TransferQueues(c.(queue := c.queue[1..]), c.queue[0], l.w);
      more := Step(c, l).queue[|c.queue| - 1..];
      assert c.queue == [c.queue[0]] + c.queue[1..];
    } else {
      StepQueues(c, l);
      more := Step(c, l).queue[|c.queue|..];
    }
  }

  lemma TransferQueues(c: Conn, id: nat, w: WriteResult)
    requires id < |c.book| && Fits(w, Available(c.book[id]))
    ensures c.queue <= SendFileInLoop(c, id, w).queue
  {
  }

  lemma StepQueues(c: Conn, l: Label)
    requires Enabled(c, l) && !l.RunTransfer?
    ensures c.queue <= Step(c, l).queue
  {
    if l.DoSendFile? && c.state == Connected {
      TransferQueues(Booked(c, NewTransfer(l.file, l.offset, l.count)), |c.book|, l.w);
    }
  }

  lemma {:induction false} RunTurns(c: Conn, run: seq<Label>) returns (more: seq<nat>)
    requires Legal(c, run)
    ensures c.queue + more == Turns(c, run) + After(c, run).queue
    decreases |run|
  {
    if run == [] {
      more := [];
    } else {
      var d := Step(c, run[0]);
      var first := StepTurns(c, run[0]);
      var rest := RunTurns(d, run[1..]);
      more := first + rest;
      TurnsCompose(c.queue, first, rest, TurnOf(c, run[0]), d.queue, Turns(d, run[1..]), After(d, run[1..]).queue);
    }
  }

  lemma TurnsCompose(q: seq<nat>, a: seq<nat>, b: seq<nat>, t: seq<nat>, d: seq<nat>, u: seq<nat>, e: seq<nat>)
    requires q + a == t + d && d + b == u + e
    ensures q + (a + b) == (t + u) + e
  {
    assert q + (a + b) == (q + a) + b == t + (d + b);
  }

  /** A transfer that is requeued has its next turn after each of those that were
      queued before it has had exactly one, in order. */
  lemma TransfersTakeTurns(c: Conn, run: seq<Label>, others: seq<nat>, id: nat)
    requires Legal(c, run) && c.queue == others + [id]
    requires id !in others && id !in Turns(c, run)
    requires After(c, run).queue != [] && After(c, run).queue[0] == id
    ensures Turns(c, run) == others
  {
    var more := RunTurns(c, run);
    var turns, left := Turns(c, run), After(c, run).queue;
    var all := others + [id] + more;
    assert all[|others|] == id && all[|turns|] == id;
    assert all == turns + left;
    assert turns == all[..|turns|] && others == all[..|others|];
  }

  /** No new transfer is requested in a run. */
  predicate NoNewFiles(run: seq<Label>) {
    forall i :: 0 <= i < |run| ==> !run[i].DoSendFile?
  }

  lemma {:induction false} ForeignSegments(a: seq<Segment>, b: seq<Segment>, k: nat)
    requires forall i :: 0 <= i < |b| && b[i].FromFile? ==> b[i].id != k
    ensures FileBytes(a + b, k) == FileBytes(a, k)
  {
    if b == [] {
      assert a + b == a;
    } else {
      assert (a + b)[..|a + b| - 1] == a + b[..|b| - 1];
      ForeignSegments(a, b[..|b| - 1], k);
    }
  }

  lemma TurnEmits(c: Conn, l: Label, k: nat)
    requires Enabled(c, l) && !l.DoSendFile? && k !in TurnOf(c, l)
    ensures FileBytes(Step(c, l).wire, k) == FileBytes(c.wire, k)
  {
    var wire := Step(c, l).wire;
    OnlyTurnsEmit(c, l);
    assert wire == c.wire + wire[|c.wire|..];
    ForeignSegments(c.wire, wire[|c.wire|..], k);
  }

  /** Bytes of a file go out only at a turn of its transfer. */
  lemma OnlyTurnsEmit(c: Conn, l: Label)
    requires Enabled(c, l) && !l.DoSendFile?
    ensures var wire := Step(c, l).wire;
            && c.wire <= wire
            && forall i :: |c.wire| <= i < |wire| && wire[i].FromFile? ==> TurnOf(c, l) == [wire[i].id]
  {
    StepWire(c, l);
    if l.RunTransfer? {
      TransferSegment(c.(queue := c.queue[1..]), c.queue[0], l.w);
    } else if l.DoSend? {
      SendSegment(c, l.data, l.w);
    } else {
      StreamSegments(c, l);
    }
  }

  lemma StreamSegments(c: Conn, l: Label)
    requires Enabled(c, l) && !l.DoSendFile? && !l.RunTransfer? && !l.DoSend?
    ensures forall i :: |c.wire| <= i < |Step(c, l).wire| ==> !Step(c, l).wire[i].FromFile?
  {
  }

  lemma TransferSegment(c: Conn, id: nat, w: WriteResult)
    requires id < |c.book| && Fits(w, Available(c.book[id]))
    ensures var d, n := SendFileInLoop(c, id, w), |c.wire|;
            |d.wire| <= n + 1 && (|d.wire| == n + 1 ==> d.wire[n].FromFile? && d.wire[n].id == id)
  {
  }

  lemma SendSegment(c: Conn, data: seq<byte>, w: WriteResult)
    requires Fits(w, |data|)
    ensures var d, n := Send(c, data, w), |c.wire|;
            |d.wire| <= n + 1 && (|d.wire| == n + 1 ==> d.wire[n].Sent?)
  {
  }

  lemma {:induction false} TurnsEmit(c: Conn, run: seq<Label>, k: nat)
    requires Legal(c, run) && NoNewFiles(run) && k !in Turns(c, run)
    ensures FileBytes(After(c, run).wire, k) == FileBytes(c.wire, k)
    decreases |run|
  {
    if run != [] {
      var d := Step(c, run[0]);
      TurnEmits(c, run[0], k);
      TurnsEmit(d, run[1..], k);
    }
  }

  /** A transfer queued alone, between two of its turns: with no new transfer, a
      byte goes out between its chunks if and only if a send is made between them
      and not dropped. */
  lemma ContiguousIff(c: Conn, run: seq<Label>, id: nat)
    requires Inv(c) && Legal(c, run) && NoNewFiles(run) && c.queue == [id] && id !in Turns(c, run)
    requires c.output == [] && After(c, run).output == []
    requires After(c, run).queue != [] && After(c, run).queue[0] == id
    ensures var t := After(c, run);
            && (forall k: nat :: FileBytes(t.wire, k) == FileBytes(c.wire, k))
            && (StreamBytes(t.wire) == StreamBytes(c.wire) <==> Undropped(c, run) == [])
  {
    assert c.queue == [] + [id];
    TransfersTakeTurns(c, run, [], id);
    forall k: nat ensures FileBytes(After(c, run).wire, k) == FileBytes(c.wire, k) {
      TurnsEmit(c, run, k);
    }
    var t := StreamBetween(c, run);
  }

  // ---------- The end of the file ----------

  /** The request cannot be met: it reaches past the end of its file. */
  predicate PastEnd(t: Transfer) {
    t.start + t.count > |t.file|
  }

  /** A turn of a transfer can be its last exactly when it does not: otherwise
      sendfile returns 0 at the end of the file, and the transfer is requeued. */
  lemma LastTurnIff(c: Conn)
    requires Inv(c) && c.queue != [] && c.stage == Idle && c.output == [] && c.state != Disconnecting
    ensures c.queue[0] < |c.book|
    ensures !PastEnd(c.book[c.queue[0]]) <==>
            exists w :: Enabled(c, RunTransfer(w)) && Step(c, RunTransfer(w)).book[c.queue[0]].remaining == 0
  {
    var id := c.queue[0];
    if !PastEnd(c.book[id]) {
      var w := Wrote(c.book[id].remaining);
      assert Enabled(c, RunTransfer(w)) && Step(c, RunTransfer(w)).book[id].remaining == 0;
    }
  }

  /** So unless it is given up, it stays queued for ever. */
  lemma PastEndNeverEnds(c: Conn, run: seq<Label>, id: nat)
    requires Begins(c) && Legal(c, run) && NeverGivesUp(c, run)
    requires id < |After(c, run).book| && PastEnd(After(c, run).book[id]) && After(c, run).book[id].count > 0
    ensures id in After(c, run).queue
  {
    NoTransferForgotten(c, run);
    FilesConserved(c, run, id);
  }
}
