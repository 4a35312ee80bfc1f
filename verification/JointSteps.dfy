/** Whenever a thread of the server or the user on it is ready for a step, both
    sides can take it, and agree again afterwards; hence in every run. */
module JointSteps {
  import opened ByteBuffer
  import opened ConnectionState
  import opened Registration
  import opened ThreadPool
  import opened Joint
  import opened JointInvariants
  import C = Connection
  import CI = ConnectionInvariants
  import L = Lifecycle
  import LI = LifecycleInvariants
  import LS = LifecycleSteps
  import LP = LoopProjection

  /** The step can be taken and the two sides agree afterwards. */
  ghost predicate Sound(v: Net, l: Label) {
    Enabled(v, l) && Inv(Step(v, l))
  }

  lemma OneMove(w: L.World, l: L.Label)
    requires L.Enabled(w, l)
    ensures L.Legal(w, [l]) && L.After(w, [l]) == L.Step(w, l)
  {
    assert [l][1..] == [] && L.After(L.Step(w, l), []) == L.Step(w, l);
  }

  lemma WorldStep(w: L.World, l: L.Label) returns (x: L.World)
    requires SoundWorld(w) && L.Enabled(w, l)
    ensures x == L.Step(w, l) && SoundWorld(x) && L.Legal(w, [l]) && L.After(w, [l]) == x
  {
    x := L.Step(w, l);
    OneMove(w, l);
    LS.StepKeeps(w, l);
    LS.StepNames(w, l);
    WorldSound(x);
  }

  // ---------- The server by itself ----------

  lemma ServerOther(v: Net, l: L.Label, c: ConnId)
    requires Inv(v) && Ready(v, Server(l)) && c < |v.conns|
    ensures |L.Step(v.world, l).conns| == |v.world.conns| && OtherStays(v, L.Step(v.world, l), c)
  {
    assert ViewAt(v, c) && StageAt(v.world, c, v.conns[c]);
    LS.StepFrame(v.world, l);
    StepViews(v.world, l, c);
    StepPlaces(v.world, l, LoopOf(v, c));
  }

  lemma ServerSound(v: Net, l: L.Label)
    requires Inv(v) && Ready(v, Server(l))
    ensures Sound(v, Server(l))
  {
    var x := WorldStep(v.world, l);
    LS.StepFrame(v.world, l);
    forall c: ConnId | c < |v.conns| ensures OtherStays(v, x, c) {
      ServerOther(v, l, c);
    }
    NoneActed(v, x);
  }

  // ---------- A dispatch begins ----------

  /** The mask the kernel goes by is the connection's own. */
  lemma KernelMask(v: Net, c: ConnId)
    requires Inv(v) && c < |v.conns| && LI.PhaseOf(v.world, c) == LI.Live
    ensures var fd, kernel := v.world.conns[c].fd, LI.RegOf(v.world, c).kernel;
            fd in kernel && kernel[fd] == Entry(v.conns[c].events, c)
  {
    assert ViewAt(v, c) && LI.ChanAt(v.world, c) && LI.RegAt(v.world, LoopOf(v, c));
    assert AgreeAt(LI.RegOf(v.world, c), c);
  }

  lemma SameWorld(v: Net, c: ConnId)
    requires Inv(v)
    ensures OthersStay(v, v.world, c)
  {
    forall d: ConnId | d < |v.conns| && d != c ensures OtherStays(v, v.world, d) {
      assert ViewAt(v, d);
    }
  }

  /** A step of connection c that the server does not see. */
  lemma UnseenStep(v: Net, c: ConnId, l: C.Label, e: C.Conn)
    requires Inv(v) && c < |v.conns| && C.Enabled(v.conns[c], l) && e == C.Step(v.conns[c], l)
    requires ConnView(e) == ConnView(v.conns[c]) && StageAt(v.world, c, e)
    requires e.stage != C.Idle ==> v.conns[c].stage != C.Idle || Quiet(v, LoopOf(v, c))
    ensures Inv(Net(v.world, v.conns[c := e]))
  {
    assert ViewAt(v, c);
    CI.StepKeeps(v.conns[c], l);
    SameWorld(v, c);
    OneActed(v, v.world, c, e);
  }

  lemma ReportEnabled(v: Net, c: ConnId, m: Revents)
    requires Inv(v) && Ready(v, Report(c, m))
    ensures C.Enabled(v.conns[c], C.Report(m))
  {
    assert ViewAt(v, c) && LI.ActiveAt(v.world, LoopOf(v, c)) && LI.ConnAt(v.world, c);
    KernelMask(v, c);
  }

  lemma ReportSound(v: Net, c: ConnId, m: Revents)
    requires Inv(v) && Ready(v, Report(c, m))
    ensures Sound(v, Report(c, m))
  {
    ReportEnabled(v, c, m);
    UnseenStep(v, c, C.Report(m), v.conns[c].(stage := C.AtClose(m)));
    assert L.After(v.world, []) == v.world;
  }

  // ---------- The parts of a dispatch ----------

  /** What a part that closes does. */
  ghost predicate ClosedBy(d: C.Conn, e: C.Conn) {
    && e.state == Disconnected && e.events == NO_INTEREST && e.ups == d.ups && e.downs == d.downs + 1
    && e.removed == d.removed && e.queue == d.queue && e.stage != C.Idle
  }

  lemma PartFacts(d: C.Conn, l: C.Label)
    requires CI.Inv(d) && C.Enabled(d, l) && DispatchPart(l)
    ensures var e := C.Step(d, l);
            if e.state != d.state then
              && ClosedBy(d, e) && CI.Live(d) && (l.DoClose? || l.DoRead?)
              && L.Closes(d.stage.m, l.DoRead?) && !(d.stage.m.hup && d.stage.m.pri && !d.stage.m.in_)
            else l.DoWrite? || (ConnView(e) == ConnView(d) && e.stage != C.Idle)
  {
  }

  lemma DispatchOther(v: Net, x: L.World, c: ConnId, m: Revents, eof: bool, d: ConnId)
    requires Inv(v) && c < |v.conns| && L.Enabled(v.world, L.Dispatch(LoopOf(v, c), m, eof))
    requires x == L.Step(v.world, L.Dispatch(LoopOf(v, c), m, eof)) && |x.conns| == |v.world.conns|
    requires d < |v.conns| && d != c && v.conns[c].stage != C.Idle
    requires v.world.loops[LoopOf(v, c)].active[0] == c
    ensures OtherStays(v, x, d)
  {
    assert ViewAt(v, d) && AloneAt(v, c, d);
    StepViews(v.world, L.Dispatch(LoopOf(v, c), m, eof), d);
    StepPlaces(v.world, L.Dispatch(LoopOf(v, c), m, eof), LoopOf(v, d));
  }

  /** The server ends the dispatch of connection c. */
  lemma DispatchEnds(v: Net, c: ConnId, m: Revents, eof: bool) returns (x: L.World)
    requires Inv(v) && c < |v.conns| && v.conns[c].stage != C.Idle && v.conns[c].state != Disconnected
    requires L.At(v.world, LoopOf(v, c), L.Dispatching) && !(m.hup && m.pri && !m.in_)
    ensures var l := L.Dispatch(LoopOf(v, c), m, eof);
            && L.Legal(v.world, [l]) && x == L.After(v.world, [l]) && SoundWorld(x)
            && OthersStay(v, x, c) && L.Known(x, c) && x.conns[c].loop == LoopOf(v, c)
            && x.loops[LoopOf(v, c)].pc == L.Dispatching
    ensures WorldView(x, c) ==
              if L.Closes(m, eof)
              then ConnView(v.conns[c]).(state := Disconnected, downs := v.conns[c].downs + 1, events := NO_INTEREST)
              else ConnView(v.conns[c])
  {
    var l := L.Dispatch(LoopOf(v, c), m, eof);
    assert ViewAt(v, c) && StageAt(v.world, c, v.conns[c]);
    x := WorldStep(v.world, l);
    LS.StepFrame(v.world, l);
    StepViews(v.world, l, c);
    StepPlaces(v.world, l, LoopOf(v, c));
    forall d: ConnId | d < |v.conns| && d != c ensures OtherStays(v, x, d) {
      DispatchOther(v, x, c, m, eof, d);
    }
  }

  /** Both sides of a part, put together. */
  lemma PartStep(v: Net, c: ConnId, l: C.Label, e: C.Conn, x: L.World)
    requires Ready(v, Part(c, l)) && e == C.Step(v.conns[c], l)
    requires L.Legal(v.world, PartMoves(v, c, l)) && x == L.After(v.world, PartMoves(v, c, l))
    ensures Enabled(v, Part(c, l)) && Step(v, Part(c, l)) == Net(x, v.conns[c := e])
  {
  }

  lemma ClosingSound(v: Net, c: ConnId, l: C.Label, e: C.Conn)
    requires Inv(v) && Ready(v, Part(c, l)) && e == C.Step(v.conns[c], l) && e.state != v.conns[c].state
    ensures Sound(v, Part(c, l))
  {
    var d := v.conns[c];
    assert ViewAt(v, c);
    PartFacts(d, l);
    var x := DispatchEnds(v, c, d.stage.m, l.DoRead?);
    CI.StepKeeps(d, l);
    OneActed(v, x, c, e);
    PartStep(v, c, l, e, x);
  }

  lemma QuietPartSound(v: Net, c: ConnId, l: C.Label, e: C.Conn)
    requires Inv(v) && Ready(v, Part(c, l)) && e == C.Step(v.conns[c], l) && e.state == v.conns[c].state
    requires !l.DoWrite?
    ensures Sound(v, Part(c, l))
  {
    assert ViewAt(v, c) && StageAt(v.world, c, v.conns[c]);
    PartFacts(v.conns[c], l);
    assert StageAt(v.world, c, e) && v.conns[c].stage != C.Idle;
    UnseenStep(v, c, l, e);
    assert L.After(v.world, []) == v.world;
    PartStep(v, c, l, e, v.world);
  }

  // ---------- What a connection asks for ----------

  lemma KnownOthers(v: Net, x: L.World, c: ConnId, u: View)
    requires Inv(v) && Knows(v.world, x, c, u)
    ensures OthersStay(v, x, c)
  {
    forall d: ConnId | d < |v.conns| && d != c ensures OtherStays(v, x, d) {
      assert ViewAt(v, d);
    }
  }

  lemma UpIsReferenced(v: Net, c: ConnId)
    requires Inv(v) && c < |v.conns| && !v.conns[c].removed
    ensures L.Referenced(v.world, c)
  {
    assert ViewAt(v, c) && LI.ConnAt(v.world, c);
    LI.ReferencedUntilGone(v.world, c);
  }

  lemma KnownActed(v: Net, x: L.World, c: ConnId, e: C.Conn)
    requires Inv(v) && c < |v.conns| && Knows(v.world, x, c, ConnView(e)) && CI.Inv(e)
    requires e.stage == C.Idle
             || (e.stage == v.conns[c].stage && (v.conns[c].state == Disconnected ==> e.state == Disconnected))
    ensures Inv(Net(x, v.conns[c := e]))
  {
    assert ViewAt(v, c) && StageAt(v.world, c, v.conns[c]);
    KnownOthers(v, x, c, ConnView(e));
    OneActed(v, x, c, e);
  }

  /** A step of a connection at work, other than the parts that end or close its
      dispatch, and what it asks of the server. */
  lemma AskingStep(v: Net, c: ConnId, e: C.Conn) returns (x: L.World)
    requires Inv(v) && c < |v.conns| && AtWork(v.world, c) && CI.Inv(e)
    requires AskFacts(v.conns[c], e) && e.stage == v.conns[c].stage
    ensures L.Legal(v.world, Asked(c, v.conns[c], e)) && x == L.After(v.world, Asked(c, v.conns[c], e))
    ensures Knows(v.world, x, c, ConnView(e)) && Inv(Net(x, v.conns[c := e]))
  {
    assert ViewAt(v, c);
    x := AskedWorks(v.world, c, v.conns[c], e);
    KnownActed(v, x, c, e);
  }

  lemma WriteResults(d: C.Conn, w: WriteResult, e: C.Conn)
    requires CI.Inv(d) && C.Enabled(d, C.DoWrite(w)) && e == C.Step(d, C.DoWrite(w))
    ensures CI.Inv(e) && AskFacts(d, e) && e.state == d.state && e.stage == C.Idle
    ensures CI.Inv(e.(stage := d.stage)) && !d.removed
  {
    WriteAsks(d, w);
    WriteKeepsState(d, w);
    CI.StepKeeps(d, C.DoWrite(w));
    CI.StageMoves(e, e.(stage := d.stage));
  }

  lemma WriteKeepsState(d: C.Conn, w: WriteResult)
    requires C.Enabled(d, C.DoWrite(w))
    ensures var e := C.Step(d, C.DoWrite(w)); e.state == d.state && e.stage == C.Idle && e.removed == d.removed
  {
  }

  lemma PartAtWork(v: Net, c: ConnId, l: C.Label)
    requires Inv(v) && Ready(v, Part(c, l)) && !v.conns[c].removed
    ensures AtWork(v.world, c)
  {
    UpIsReferenced(v, c);
  }

  /** The connection has written, and the server has done what that asked for; its
      dispatch is not over yet. */
  lemma WriteAsked(v: Net, c: ConnId, e: C.Conn) returns (y: Net)
    requires Inv(v) && c < |v.conns| && AtWork(v.world, c) && AskFacts(v.conns[c], e)
    requires CI.Inv(e.(stage := v.conns[c].stage))
    ensures Inv(y) && y.conns == v.conns[c := e.(stage := v.conns[c].stage)]
    ensures L.Legal(v.world, Asked(c, v.conns[c], e)) && y.world == L.After(v.world, Asked(c, v.conns[c], e))
    ensures Knows(v.world, y.world, c, ConnView(e))
  {
    var f := e.(stage := v.conns[c].stage);
    var x := AskingStep(v, c, f);
    y := Net(x, v.conns[c := f]);
  }

  lemma WriteStep(v: Net, c: ConnId, w: WriteResult, e: C.Conn, x: L.World, moves: seq<L.Label>)
    requires Ready(v, Part(c, C.DoWrite(w))) && e == C.Step(v.conns[c], C.DoWrite(w))
    requires moves == Asked(c, v.conns[c], e)
               + (if v.conns[c].state == Disconnected then []
                  else [L.Dispatch(LoopOf(v, c), v.conns[c].stage.m, false)])
    requires L.Legal(v.world, moves) && x == L.After(v.world, moves) && Inv(Net(x, v.conns[c := e]))
    ensures Sound(v, Part(c, C.DoWrite(w)))
  {
    WriteKeepsState(v.conns[c], w);
    PartStep(v, c, C.DoWrite(w), e, x);
  }

  /** The write part of a connection closed earlier in the dispatch. */
  lemma ClosedWriteStep(v: Net, c: ConnId, w: WriteResult, e: C.Conn, x: L.World)
    requires Ready(v, Part(c, C.DoWrite(w))) && e == C.Step(v.conns[c], C.DoWrite(w))
    requires v.conns[c].state == Disconnected && Inv(Net(x, v.conns[c := e]))
    requires L.Legal(v.world, Asked(c, v.conns[c], e)) && x == L.After(v.world, Asked(c, v.conns[c], e))
    ensures Sound(v, Part(c, C.DoWrite(w)))
  {
    assert Asked(c, v.conns[c], e) + [] == Asked(c, v.conns[c], e);
    WriteStep(v, c, w, e, x, Asked(c, v.conns[c], e));
  }

  lemma LastPart(v: Net, c: ConnId, m: Revents, e: C.Conn, y: Net) returns (x: L.World)
    requires Inv(y) && c < |v.conns| && y.conns == v.conns[c := e.(stage := C.AtWrite(m))]
    requires CI.Inv(e) && e.stage == C.Idle && e.state != Disconnected && !(m.hup && !m.in_)
    requires L.At(y.world, LoopOf(y, c), L.Dispatching)
    ensures var l := L.Dispatch(LoopOf(y, c), m, false); L.Legal(y.world, [l]) && x == L.After(y.world, [l])
    ensures Inv(Net(x, v.conns[c := e]))
  {
    x := DispatchEnds(y, c, m, false);
    OneActed(y, x, c, e);
    assert y.conns[c := e] == v.conns[c := e];
  }

  lemma OpenWriteSound(v: Net, c: ConnId, w: WriteResult, e: C.Conn, y: Net)
    requires c < |v.conns| && C.Enabled(v.conns[c], C.DoWrite(w)) && e == C.Step(v.conns[c], C.DoWrite(w))
    requires v.conns[c].state != Disconnected && Inv(v) && Ready(v, Part(c, C.DoWrite(w)))
    requires CI.Inv(e) && e.stage == C.Idle && e.state == v.conns[c].state
    requires Inv(y) && y.conns == v.conns[c := e.(stage := v.conns[c].stage)]
    requires L.Legal(v.world, Asked(c, v.conns[c], e)) && y.world == L.After(v.world, Asked(c, v.conns[c], e))
    requires Knows(v.world, y.world, c, ConnView(e))
    ensures Sound(v, Part(c, C.DoWrite(w)))
  {
    var m := v.conns[c].stage.m;
    assert ViewAt(v, c);
    var x := LastPart(v, c, m, e, y);
    LS.RunsCompose(v.world, Asked(c, v.conns[c], e), [L.Dispatch(LoopOf(v, c), m, false)]);
    WriteStep(v, c, w, e, x, Asked(c, v.conns[c], e) + [L.Dispatch(LoopOf(v, c), m, false)]);
  }

  lemma WriteSound(v: Net, c: ConnId, w: WriteResult)
    requires Inv(v) && Ready(v, Part(c, C.DoWrite(w)))
    ensures Sound(v, Part(c, C.DoWrite(w)))
  {
    var e := C.Step(v.conns[c], C.DoWrite(w));
    assert ViewAt(v, c);
    WriteResults(v.conns[c], w, e);
    PartAtWork(v, c, C.DoWrite(w));
    var y := WriteAsked(v, c, e);
    if v.conns[c].state == Disconnected {
      KnownActed(v, y.world, c, e);
      ClosedWriteStep(v, c, w, e, y.world);
    } else {
      OpenWriteSound(v, c, w, e, y);
    }
  }

  lemma PartSound(v: Net, c: ConnId, l: C.Label)
    requires Inv(v) && Ready(v, Part(c, l))
    ensures Sound(v, Part(c, l))
  {
    var e := C.Step(v.conns[c], l);
    if l.DoWrite? {
      WriteSound(v, c, l.w);
    } else if e.state == v.conns[c].state {
      QuietPartSound(v, c, l, e);
    } else {
      ClosingSound(v, c, l, e);
    }
  }

  // ---------- The user ----------

  lemma CallStage(d: C.Conn, l: C.Label)
    requires C.Enabled(d, l) && UserCall(l)
    ensures C.Step(d, l).stage == d.stage
  {
  }

  lemma CallStep(v: Net, c: ConnId, l: C.Label, e: C.Conn, x: L.World)
    requires Ready(v, Call(c, l)) && e == C.Step(v.conns[c], l)
    requires L.Legal(v.world, Asked(c, v.conns[c], e)) && x == L.After(v.world, Asked(c, v.conns[c], e))
    ensures Enabled(v, Call(c, l)) && Step(v, Call(c, l)) == Net(x, v.conns[c := e])
  {
  }

  lemma CallSound(v: Net, c: ConnId, l: C.Label)
    requires Inv(v) && Ready(v, Call(c, l))
    ensures Sound(v, Call(c, l))
  {
    var e := C.Step(v.conns[c], l);
    assert ViewAt(v, c);
    CallResults(v.conns[c], l, e);
    var x := AskingStep(v, c, e);
    CallStep(v, c, l, e, x);
  }

  lemma CallResults(d: C.Conn, l: C.Label, e: C.Conn)
    requires CI.Inv(d) && C.Enabled(d, l) && UserCall(l) && e == C.Step(d, l)
    ensures CI.Inv(e) && AskFacts(d, e) && e.stage == d.stage
  {
    CallAsks(d, l);
    CallStage(d, l);
    CI.StepKeeps(d, l);
  }

  // ---------- The functors ----------

  lemma TaskRefers(v: Net, j: LoopId)
    requires Inv(v) && L.At(v.world, j, L.Running) && v.world.loops[j].next < |v.world.loops[j].batch|
    ensures var t := NextTask(v, j);
            && LI.RefersTo(v.world, j, t) && t.c < |v.conns| && L.Known(v.world, t.c)
            && L.Enabled(v.world, L.Execute(j))
    ensures Quiet(v, j)
  {
    assert LI.QueueAt(v.world, j);
    assert LI.RefersTo(v.world, j, v.world.loops[j].batch[v.world.loops[j].next]);
    forall c: ConnId | c < |v.conns| && LoopOf(v, c) == j ensures v.conns[c].stage == C.Idle {
      assert ViewAt(v, c) && StageAt(v.world, c, v.conns[c]);
    }
  }

  /** Only the connection of a functor of its life, or of a transfer, is another to
      the server afterwards. */
  lemma ExecuteOther(v: Net, j: LoopId, x: L.World, c: ConnId)
    requires Inv(v) && L.Enabled(v.world, L.Execute(j)) && x == L.Step(v.world, L.Execute(j))
    requires |x.conns| == |v.world.conns| && c < |v.conns|
    requires TaskAct(NextTask(v, j), WriteError(EAGAIN)).Nothing? || NextTask(v, j).c != c
    ensures OtherStays(v, x, c)
  {
    assert ViewAt(v, c);
    StepViews(v.world, L.Execute(j), c);
    StepPlaces(v.world, L.Execute(j), LoopOf(v, c));
  }

  lemma Executed(v: Net, j: LoopId) returns (x: L.World)
    requires Inv(v) && L.At(v.world, j, L.Running) && v.world.loops[j].next < |v.world.loops[j].batch|
    ensures L.Legal(v.world, [L.Execute(j)]) && x == L.After(v.world, [L.Execute(j)])
    ensures L.Enabled(v.world, L.Execute(j)) && x == L.Step(v.world, L.Execute(j)) && SoundWorld(x)
    ensures var t := NextTask(v, j);
            OthersStay(v, x, if TaskAct(t, WriteError(EAGAIN)).Nothing? then |v.conns| else t.c)
  {
    TaskRefers(v, j);
    x := WorldStep(v.world, L.Execute(j));
    LS.StepFrame(v.world, L.Execute(j));
    forall c: ConnId | c < |v.conns| && (TaskAct(NextTask(v, j), WriteError(EAGAIN)).Nothing? || NextTask(v, j).c != c)
      ensures OtherStays(v, x, c)
    {
      ExecuteOther(v, j, x, c);
    }
  }

  lemma PlainTaskSound(v: Net, j: LoopId, w: WriteResult)
    requires Inv(v) && Ready(v, Execute(j, w)) && TaskAct(NextTask(v, j), w).Nothing?
    ensures Sound(v, Execute(j, w))
  {
    var x := Executed(v, j);
    NoneActed(v, x);
    assert [L.Execute(j)] + [] == [L.Execute(j)];
  }

  ghost predicate LifeTaskDue(v: Net, j: LoopId, t: L.Task) {
    && L.At(v.world, j, L.Running) && v.world.loops[j].next < |v.world.loops[j].batch|
    && NextTask(v, j) == t && (t.Established? || t.Destroyed?)
  }

  function LifeStep(t: L.Task): C.Label
    requires t.Established? || t.Destroyed?
  {
    if t.Established? then C.Establish else C.Destroy
  }

  lemma LifeTaskPhase(w: L.World, j: LoopId, t: L.Task)
    requires LI.Inv(w) && L.Enabled(w, L.Execute(j)) && t == w.loops[j].batch[w.loops[j].next]
    requires (t.Established? || t.Destroyed?) && t.c < |w.conns|
    ensures w.conns[t.c].loop == j && w.conns[t.c].destroys == 0
    ensures w.conns[t.c].state == if t.Established? then Connecting else Disconnected
  {
    LS.PoppedTask(w, j, t);
    assert LI.ConnAt(w, t.c);
  }

  /** What connectEstablished and connectDestroyed find. */
  lemma LifeTaskEnabled(v: Net, j: LoopId, t: L.Task)
    requires Inv(v) && LifeTaskDue(v, j, t)
    ensures t.c < |v.conns| && C.Enabled(v.conns[t.c], LifeStep(t)) && v.conns[t.c].stage == C.Idle
    ensures LoopOf(v, t.c) == j && L.Enabled(v.world, L.Execute(j))
    ensures t.Destroyed? ==> v.conns[t.c].state == Disconnected
  {
    TaskRefers(v, j);
    LifeTaskPhase(v.world, j, t);
    assert ViewAt(v, t.c);
  }

  lemma LifeTaskView(d: C.Conn, t: L.Task)
    requires t.Established? || (t.Destroyed? && d.state == Disconnected)
    requires C.Enabled(d, LifeStep(t))
    ensures var e := C.Step(d, LifeStep(t)); ConnView(e) == TaskView(ConnView(d), t) && e.stage == d.stage
  {
  }

  lemma LifeTaskActed(v: Net, j: LoopId, t: L.Task, e: C.Conn) returns (x: L.World)
    requires Inv(v) && LifeTaskDue(v, j, t)
    requires t.c < |v.conns| && C.Enabled(v.conns[t.c], LifeStep(t)) && e == C.Step(v.conns[t.c], LifeStep(t))
    ensures L.Legal(v.world, [L.Execute(j)]) && x == L.After(v.world, [L.Execute(j)])
    ensures Inv(Net(x, v.conns[t.c := e]))
  {
    LifeTaskEnabled(v, j, t);
    LifeTaskView(v.conns[t.c], t);
    assert ViewAt(v, t.c);
    x := Executed(v, j);
    StepViews(v.world, L.Execute(j), t.c);
    CI.StepKeeps(v.conns[t.c], LifeStep(t));
    OneActed(v, x, t.c, e);
  }

  lemma LifeTaskStep(v: Net, j: LoopId, w: WriteResult, t: L.Task, e: C.Conn, x: L.World)
    requires Ready(v, Execute(j, w)) && LifeTaskDue(v, j, t) && t.c < |v.conns|
    requires C.Enabled(v.conns[t.c], LifeStep(t)) && e == C.Step(v.conns[t.c], LifeStep(t))
    requires L.Legal(v.world, [L.Execute(j)]) && x == L.After(v.world, [L.Execute(j)])
    requires Inv(Net(x, v.conns[t.c := e]))
    ensures Sound(v, Execute(j, w))
  {
    assert [L.Execute(j)] + [] == [L.Execute(j)];
  }

  lemma LifeTaskSound(v: Net, j: LoopId, w: WriteResult, t: L.Task)
    requires Inv(v) && Ready(v, Execute(j, w)) && LifeTaskDue(v, j, t)
    ensures Sound(v, Execute(j, w))
  {
    LifeTaskEnabled(v, j, t);
    var e := C.Step(v.conns[t.c], LifeStep(t));
    var x := LifeTaskActed(v, j, t, e);
    LifeTaskStep(v, j, w, t, e, x);
  }

  // ---------- A queued sendFileInLoop ----------

  /** The connection once its functor has been taken from the batch. */
  function Taken(d: C.Conn): C.Conn
    requires d.queue != []
  {
    d.(queue := d.queue[1..])
  }

  ghost predicate TransferDue(v: Net, j: LoopId, c: ConnId, id: nat) {
    && L.At(v.world, j, L.Running) && v.world.loops[j].next < |v.world.loops[j].batch|
    && NextTask(v, j) == L.Other(c, L.Transfer(id))
  }

  /** The functor carries the oldest request in the connection's queue. */
  lemma TransferIsOldest(v: Net, j: LoopId, c: ConnId, id: nat)
    requires Inv(v) && TransferDue(v, j, c, id)
    ensures c < |v.conns| && v.conns[c].queue != [] && v.conns[c].queue[0] == id && id < |v.conns[c].book|
    ensures LoopOf(v, c) == j && v.conns[c].stage == C.Idle
    ensures CI.Inv(v.conns[c]) && CI.Inv(Taken(v.conns[c]))
  {
    TaskRefers(v, j);
    assert ViewAt(v, c);
    PoppedIds(v.world, j, c);
    CI.UnqueuedKeeps(v.conns[c]);
  }

  lemma TransferTaken(v: Net, j: LoopId, c: ConnId, id: nat) returns (y: Net)
    requires Inv(v) && TransferDue(v, j, c, id)
    requires c < |v.conns| && v.conns[c].queue != []
    ensures L.Legal(v.world, [L.Execute(j)]) && y.world == L.After(v.world, [L.Execute(j)])
    ensures Inv(y) && y.conns == v.conns[c := Taken(v.conns[c])] && AtWork(y.world, c)
  {
    TransferIsOldest(v, j, c, id);
    assert ViewAt(v, c);
    var x := Executed(v, j);
    StepViews(v.world, L.Execute(j), c);
    OneActed(v, x, c, Taken(v.conns[c]));
    y := Net(x, v.conns[c := Taken(v.conns[c])]);
    var l := v.world.loops[j];
    assert x.loops[j] == l.(next := l.next + 1) && x.loops[j].batch[l.next].c == c;
    assert L.Mentions(x.loops[j], c);
  }

  lemma TransferResults(d: C.Conn, w: WriteResult, e: C.Conn)
    requires CI.Inv(d) && C.Enabled(d, C.RunTransfer(w)) && e == C.Step(d, C.RunTransfer(w))
    ensures CI.Inv(e) && AskFacts(Taken(d), e) && e.stage == d.stage
  {
    RunTransferAsks(d, w);
    CI.StepKeeps(d, C.RunTransfer(w));
    TransferStage(Taken(d), d.queue[0], w);
  }

  lemma TransferStage(d: C.Conn, id: nat, w: WriteResult)
    requires id < |d.book| && C.Fits(w, C.Available(d.book[id]))
    ensures C.SendFileInLoop(d, id, w).stage == d.stage
  {
  }

  lemma TransferStep(v: Net, j: LoopId, c: ConnId, id: nat, w: WriteResult, e: C.Conn, x: L.World)
    requires Ready(v, Execute(j, w)) && TransferDue(v, j, c, id) && c < |v.conns|
    requires C.Enabled(v.conns[c], C.RunTransfer(w)) && e == C.Step(v.conns[c], C.RunTransfer(w))
    requires var moves := [L.Execute(j)] + Asked(c, Taken(v.conns[c]), e);
             L.Legal(v.world, moves) && x == L.After(v.world, moves)
    requires Inv(Net(x, v.conns[c := e]))
    ensures Sound(v, Execute(j, w))
  {
  }

  lemma TransferActed(v: Net, j: LoopId, c: ConnId, id: nat, e: C.Conn) returns (x: L.World)
    requires Inv(v) && TransferDue(v, j, c, id) && c < |v.conns| && v.conns[c].queue != []
    requires CI.Inv(e) && AskFacts(Taken(v.conns[c]), e) && e.stage == v.conns[c].stage
    ensures var moves := [L.Execute(j)] + Asked(c, Taken(v.conns[c]), e);
            L.Legal(v.world, moves) && x == L.After(v.world, moves)
    ensures Inv(Net(x, v.conns[c := e]))
  {
    var y := TransferTaken(v, j, c, id);
    x := AskingStep(y, c, e);
    assert y.conns[c := e] == v.conns[c := e];
    LS.RunsCompose(v.world, [L.Execute(j)], Asked(c, Taken(v.conns[c]), e));
  }

  lemma TransferEnabled(v: Net, j: LoopId, w: WriteResult, c: ConnId, id: nat)
    requires Inv(v) && Ready(v, Execute(j, w)) && TransferDue(v, j, c, id)
    ensures c < |v.conns| && C.Enabled(v.conns[c], C.RunTransfer(w)) && CI.Inv(v.conns[c])
  {
    TransferIsOldest(v, j, c, id);
  }

  lemma TransferSound(v: Net, j: LoopId, w: WriteResult, c: ConnId, id: nat)
    requires Inv(v) && Ready(v, Execute(j, w)) && TransferDue(v, j, c, id)
    ensures Sound(v, Execute(j, w))
  {
    TransferEnabled(v, j, w, c, id);
    var e := C.Step(v.conns[c], C.RunTransfer(w));
    TransferResults(v.conns[c], w, e);
    var x := TransferActed(v, j, c, id, e);
    TransferStep(v, j, c, id, w, e, x);
  }

  lemma ExecuteSound(v: Net, j: LoopId, w: WriteResult)
    requires Inv(v) && Ready(v, Execute(j, w))
    ensures Sound(v, Execute(j, w))
  {
    var t := NextTask(v, j);
    if t.Established? || t.Destroyed? {
      LifeTaskSound(v, j, w, t);
    } else if t.Other? && t.work.Transfer? {
      TransferSound(v, j, w, t.c, t.work.id);
    } else {
      PlainTaskSound(v, j, w);
    }
  }

  // ---------- A new connection ----------

  lemma {:induction false} NoIds(ts: seq<L.Task>, c: ConnId)
    requires forall i :: 0 <= i < |ts| ==> ts[i].c != c
    ensures Ids(ts, c) == []
  {
    if ts != [] {
      NoIds(ts[..|ts| - 1], c);
    }
  }

  lemma NewHasNone(w: L.World, j: LoopId)
    requires LI.LoopInv(w) && j < |w.loops|
    ensures Ids(LP.Waiting(w.loops[j]), |w.conns|) == []
  {
    var l := w.loops[j];
    assert LI.QueueAt(w, j) && LI.LoopAt(w, j);
    forall i | 0 <= i < |LP.Waiting(l)| ensures LP.Waiting(l)[i].c != |w.conns| {
      var t := LP.Waiting(l)[i];
      assert t in l.batch || t in l.pending;
      assert LI.RefersTo(w, j, t);
    }
    NoIds(LP.Waiting(l), |w.conns|);
  }

  lemma NewView(w: L.World, fd: int, cfg: C.Config)
    requires SoundWorld(w) && L.Enabled(w, L.Accept(fd))
    ensures var x, c := L.Step(w, L.Accept(fd)), |w.conns|;
            && |x.conns| == |w.conns| + 1 && L.Known(x, c)
            && WorldView(x, c) == ConnView(Entered(Net(w, []), cfg))
  {
    var u, c := L.Constructed(w, fd), |w.conns|;
    var k := L.ChosenLoop(w);
    NewHasNone(w, k);
    assert LP.Waiting(u.loops[k]) == LP.Waiting(w.loops[k]);
    assert WorldView(u, c) == ConnView(C.Initial(cfg));
    if k == 0 {
      EstablishViews(u, c, c);
    } else {
      PushIds(u, 0, k, L.Established(c), c);
    }
  }

  lemma EnteredInv(v: Net, cfg: C.Config)
    requires L.PoolReady(v.world)
    ensures CI.Inv(Entered(v, cfg)) && Entered(v, cfg).stage == C.Idle
  {
    CI.InitialInv(cfg);
    CI.StepKeeps(C.Initial(cfg), C.Establish);
  }

  lemma AcceptOther(v: Net, fd: int, x: L.World, c: ConnId)
    requires Inv(v) && L.Enabled(v.world, L.Accept(fd)) && x == L.Step(v.world, L.Accept(fd)) && SoundWorld(x)
    requires |x.conns| == |v.world.conns| + 1 && c < |v.conns|
    ensures OtherStays(v, x, c)
  {
    assert ViewAt(v, c);
    StepViews(v.world, L.Accept(fd), c);
    StepPlaces(v.world, L.Accept(fd), LoopOf(v, c));
  }

  lemma AddedAt(v: Net, x: L.World, e: C.Conn, c: ConnId)
    requires Inv(v) && SoundWorld(x) && |x.conns| == |v.world.conns| + 1 && c <= |v.conns|
    requires c < |v.conns| ==> OtherStays(v, x, c)
    requires L.Known(x, |v.conns|) && WorldView(x, |v.conns|) == ConnView(e) && CI.Inv(e) && e.stage == C.Idle
    ensures var z := Net(x, v.conns + [e]); ViewAt(z, c) && StageAt(x, c, z.conns[c])
  {
    if c < |v.conns| {
      assert ViewAt(v, c) && StageAt(v.world, c, v.conns[c]);
    }
  }

  lemma AddedSound(v: Net, x: L.World, e: C.Conn)
    requires Inv(v) && SoundWorld(x) && |x.conns| == |v.world.conns| + 1
    requires forall c: ConnId :: c < |v.conns| ==> OtherStays(v, x, c)
    requires L.Known(x, |v.conns|) && WorldView(x, |v.conns|) == ConnView(e) && CI.Inv(e) && e.stage == C.Idle
    ensures Inv(Net(x, v.conns + [e]))
  {
    var z := Net(x, v.conns + [e]);
    forall c: ConnId | c < |z.conns| ensures ViewAt(z, c) && StageAt(x, c, z.conns[c]) {
      AddedAt(v, x, e, c);
    }
    forall a: ConnId, b: ConnId | a < |z.conns| && b < |z.conns| ensures AloneAt(z, a, b) {
      AddedAlone(v, x, e, a, b);
    }
  }

  lemma AddedAlone(v: Net, x: L.World, e: C.Conn, a: ConnId, b: ConnId)
    requires |v.conns| == |v.world.conns| && |x.conns| == |v.conns| + 1 && a <= |v.conns| && b <= |v.conns|
    requires a < |v.conns| && b < |v.conns| ==> AloneAt(v, a, b) && OtherStays(v, x, a) && OtherStays(v, x, b)
    requires e.stage == C.Idle
    ensures AloneAt(Net(x, v.conns + [e]), a, b)
  {
  }

  lemma AcceptSound(v: Net, fd: int, cfg: C.Config)
    requires Inv(v) && Ready(v, Accept(fd, cfg))
    ensures Sound(v, Accept(fd, cfg))
  {
    var x := WorldStep(v.world, L.Accept(fd));
    NewView(v.world, fd, cfg);
    EnteredInv(v, cfg);
    forall c: ConnId | c < |v.conns| ensures OtherStays(v, x, c) {
      AcceptOther(v, fd, x, c);
    }
    AddedSound(v, x, Entered(v, cfg));
  }

  // ---------- Every run ----------

  /** Nothing a thread, the kernel or the user is ready for is refused by either
      side, and the two still agree when it is done. */
  lemma ReadyIsEnabled(v: Net, l: Label)
    requires Inv(v)
    ensures Enabled(v, l) <==> Ready(v, l)
    ensures Ready(v, l) ==> Inv(Step(v, l))
  {
    if Ready(v, l) {
      match l {
        case Server(step) => ServerSound(v, step);
        case Accept(fd, cfg) => AcceptSound(v, fd, cfg);
        case Execute(j, w) => ExecuteSound(v, j, w);
        case Report(c, m) => ReportSound(v, c, m);
        case Part(c, k) => PartSound(v, c, k);
        case Call(c, k) => CallSound(v, c, k);
      }
    }
  }

  lemma StartInv(v: Net)
    requires Start(v)
    ensures Inv(v)
  {
    LS.StartInv(v.world);
  }

  lemma JointStep(v: Net, l: Label) returns (x: Net)
    requires Inv(v) && Enabled(v, l)
    ensures x == Step(v, l) && Inv(x)
  {
    ReadyIsEnabled(v, l);
    x := Step(v, l);
  }

  lemma {:induction false} RunKeeps(v: Net, run: seq<Label>)
    requires Inv(v) && Legal(v, run)
    ensures Inv(After(v, run))
    decreases |run|
  {
    if run != [] {
      var x := JointStep(v, run[0]);
      RunKeeps(x, run[1..]);
    }
  }
}
