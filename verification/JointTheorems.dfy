/** What holds of every connection of a server, in every interleaving of its loops. */
module JointTheorems {
  import opened ByteBuffer
  import opened ConnectionState
  import opened Registration
  import opened ThreadPool
  import opened Joint
  import opened JointInvariants
  import opened JointSteps
  import C = Connection
  import CI = ConnectionInvariants
  import CT = ConnectionTheorems
  import L = Lifecycle
  import LI = LifecycleInvariants
  import LS = LifecycleSteps
  import LT = LifecycleTheorems
  import LP = LoopProjection
  import E = Echo

  // ---------- The two projections ----------

  ghost function ServerRun(v: Net, run: seq<Label>): seq<L.Label>
    requires Legal(v, run)
    decreases |run|
  {
    if run == [] then [] else Moves(v, run[0]) + ServerRun(Step(v, run[0]), run[1..])
  }

  /** The steps of connection c in one step of the whole. */
  ghost function ActsOf(v: Net, l: Label, c: ConnId): seq<C.Label>
    requires Enabled(v, l)
  {
    if l.Accept? then (if c == |v.conns| then Begun(v) else [])
    else if ActOf(v, l).Act? && ActOf(v, l).c == c then [ActOf(v, l).l]
    else []
  }

  ghost function ConnRun(v: Net, run: seq<Label>, c: ConnId): seq<C.Label>
    requires Legal(v, run)
    decreases |run|
  {
    if run == [] then [] else ActsOf(v, run[0], c) + ConnRun(Step(v, run[0]), run[1..], c)
  }

  /** The server's side of a run is a run of Lifecycle. */
  lemma {:induction false} ServerProjects(v: Net, run: seq<Label>)
    requires Legal(v, run)
    ensures L.Legal(v.world, ServerRun(v, run)) && L.After(v.world, ServerRun(v, run)) == After(v, run).world
    decreases |run|
  {
    if run != [] {
      var x := Step(v, run[0]);
      ServerProjects(x, run[1..]);
      LS.RunsCompose(v.world, Moves(v, run[0]), ServerRun(x, run[1..]));
    }
  }

  lemma OneAct(v: Net, l: Label, c: ConnId)
    requires Enabled(v, l) && c < |v.conns|
    ensures c < |Step(v, l).conns|
    ensures C.Legal(v.conns[c], ActsOf(v, l, c)) && C.After(v.conns[c], ActsOf(v, l, c)) == Step(v, l).conns[c]
  {
    var acts := ActsOf(v, l, c);
    if acts != [] {
      OneConnStep(v.conns[c], acts[0]);
    }
  }

  lemma OneConnStep(d: C.Conn, l: C.Label)
    requires C.Enabled(d, l)
    ensures C.Legal(d, [l]) && C.After(d, [l]) == C.Step(d, l)
  {
    assert [l][1..] == [];
    assert C.After(C.Step(d, l), []) == C.Step(d, l);
  }

  /** A connection's side of a run is a run of Connection. */
  lemma {:induction false} ConnProjects(v: Net, run: seq<Label>, c: ConnId)
    requires Legal(v, run) && c < |v.conns|
    ensures c < |After(v, run).conns|
    ensures C.Legal(v.conns[c], ConnRun(v, run, c))
    ensures C.After(v.conns[c], ConnRun(v, run, c)) == After(v, run).conns[c]
    decreases |run|
  {
    if run != [] {
      var x := Step(v, run[0]);
      OneAct(v, run[0], c);
      ConnProjects(x, run[1..], c);
      CT.RunsCompose(v.conns[c], ActsOf(v, run[0], c), ConnRun(x, run[1..], c));
    }
  }

  lemma BornProjects(v: Net, fd: int, cfg: C.Config)
    requires Enabled(v, Accept(fd, cfg)) && |v.conns| == |v.world.conns|
    ensures |Step(v, Accept(fd, cfg)).conns| == |v.conns| + 1
    ensures var e := Step(v, Accept(fd, cfg)).conns[|v.conns|];
            && C.Legal(C.Initial(cfg), Begun(v)) && C.After(C.Initial(cfg), Begun(v)) == e
            && e.cfg == cfg
  {
    if Begun(v) != [] {
      OneConnStep(C.Initial(cfg), C.Establish);
    }
  }

  lemma Grows(v: Net, l: Label)
    requires Enabled(v, l)
    ensures |Step(v, l).conns| == |v.conns| + (if l.Accept? then 1 else 0)
  {
  }

  /** From its construction. */
  lemma {:induction false} NewProjects(v: Net, run: seq<Label>, c: ConnId) returns (cfg: C.Config)
    requires Inv(v) && Legal(v, run) && |v.conns| <= c < |After(v, run).conns|
    ensures C.Legal(C.Initial(cfg), ConnRun(v, run, c))
    ensures C.After(C.Initial(cfg), ConnRun(v, run, c)) == After(v, run).conns[c]
    decreases |run|
  {
    var x := JointStep(v, run[0]);
    Grows(v, run[0]);
    if run[0].Accept? && |v.conns| == c {
      cfg := run[0].cfg;
      FirstProjects(v, run, x);
    } else {
      NoneYet(v, run, x, c);
      cfg := NewProjects(x, run[1..], c);
    }
  }

  lemma FirstProjects(v: Net, run: seq<Label>, x: Net)
    requires |v.conns| == |v.world.conns| && Legal(v, run) && run != [] && run[0].Accept? && x == Step(v, run[0])
    ensures var c, born := |v.conns|, C.Initial(run[0].cfg);
            && c < |After(v, run).conns| && C.Legal(born, ConnRun(v, run, c))
            && C.After(born, ConnRun(v, run, c)) == After(v, run).conns[c]
  {
    var c := |v.conns|;
    BornProjects(v, run[0].fd, run[0].cfg);
    ConnProjects(x, run[1..], c);
    CT.RunsCompose(C.Initial(run[0].cfg), Begun(v), ConnRun(x, run[1..], c));
  }

  lemma NoneYet(v: Net, run: seq<Label>, x: Net, c: ConnId)
    requires Legal(v, run) && run != [] && x == Step(v, run[0])
    requires |v.conns| <= c && !(run[0].Accept? && |v.conns| == c)
    ensures ConnRun(v, run, c) == ConnRun(x, run[1..], c) && After(v, run) == After(x, run[1..])
  {
    NoActYet(v, run[0], c);
    assert [] + ConnRun(x, run[1..], c) == ConnRun(x, run[1..], c);
  }

  lemma NoActYet(v: Net, l: Label, c: ConnId)
    requires Enabled(v, l) && |v.conns| <= c && !(l.Accept? && |v.conns| == c)
    ensures ActsOf(v, l, c) == []
  {
  }

  // ---------- Reachable servers ----------

  ghost predicate Reachable(v: Net) {
    exists s, run :: Start(s) && Legal(s, run) && After(s, run) == v
  }

  lemma ReachableInv(v: Net)
    requires Reachable(v)
    ensures Inv(v)
  {
    var s, run :| Start(s) && Legal(s, run) && After(s, run) == v;
    StartInv(s);
    RunKeeps(s, run);
  }

  /** Both sides of every run of a server from its start are legal runs, of Lifecycle
      and, for each connection, of Connection from its construction. */
  lemma ServerRunsConnections(s: Net, run: seq<Label>, c: ConnId) returns (cfg: C.Config)
    requires Start(s) && Legal(s, run) && c < |After(s, run).conns|
    ensures L.Start(s.world) && L.Legal(s.world, ServerRun(s, run))
    ensures L.After(s.world, ServerRun(s, run)) == After(s, run).world
    ensures C.Legal(C.Initial(cfg), ConnRun(s, run, c))
    ensures C.After(C.Initial(cfg), ConnRun(s, run, c)) == After(s, run).conns[c]
  {
    StartInv(s);
    ServerProjects(s, run);
    cfg := NewProjects(s, run, c);
  }

  /** The mask the poller has for a connection is the connection's, and so is the
      kernel's while the connection is up. */
  lemma MasksAgree(v: Net, c: ConnId)
    requires Reachable(v) && c < |v.conns|
    ensures L.Known(v.world, c) && LI.RegOf(v.world, c).chans[c].events == v.conns[c].events
    ensures CI.Live(v.conns[c]) ==> KernelWatches(v, c)
  {
    ReachableInv(v);
    assert ViewAt(v, c);
    if CI.Live(v.conns[c]) {
      LiveWatched(v, c);
    }
  }

  ghost predicate KernelWatches(v: Net, c: ConnId)
    requires L.Known(v.world, c) && c < |v.conns|
  {
    var fd, kernel := v.world.conns[c].fd, LI.RegOf(v.world, c).kernel;
    fd in kernel && kernel[fd] == Entry(Interest(true, v.conns[c].output != []), c)
  }

  lemma LiveWatched(v: Net, c: ConnId)
    requires Inv(v) && c < |v.conns| && CI.Live(v.conns[c])
    ensures L.Known(v.world, c) && KernelWatches(v, c)
  {
    assert ViewAt(v, c);
    KernelMask(v, c);
  }

  /** The transfers that wait in the queue and the batch of its loop are those of
      the connection, in its order; on no other loop are there any. */
  lemma TransfersAgree(v: Net, c: ConnId, j: LoopId)
    requires Reachable(v) && c < |v.conns| && j < |v.world.loops|
    ensures c < |v.world.conns|
    ensures Ids(LP.Waiting(v.world.loops[j]), c) == if j == LoopOf(v, c) then v.conns[c].queue else []
  {
    ReachableInv(v);
    assert ViewAt(v, c);
    if j != LoopOf(v, c) {
      ForeignIds(v.world, j, c);
    }
  }

  lemma ForeignIds(w: L.World, j: LoopId, c: ConnId)
    requires LI.LoopInv(w) && j < |w.loops| && c < |w.conns| && w.conns[c].loop != j
    ensures Ids(LP.Waiting(w.loops[j]), c) == []
  {
    var ts := LP.Waiting(w.loops[j]);
    assert LI.QueueAt(w, j) && LI.LoopAt(w, j);
    forall i | 0 <= i < |ts| ensures !(ts[i].Other? && ts[i].c == c) {
      assert ts[i] in w.loops[j].batch || ts[i] in w.loops[j].pending;
      assert LI.RefersTo(w, j, ts[i]);
    }
    NoneOwn(ts, c);
  }

  lemma {:induction false} NoneOwn(ts: seq<L.Task>, c: ConnId)
    requires forall i :: 0 <= i < |ts| ==> !(ts[i].Other? && ts[i].c == c)
    ensures Ids(ts, c) == []
  {
    if ts != [] {
      NoneOwn(ts[..|ts| - 1], c);
    }
  }

  // ---------- The streams of a server ----------

  /** Of every connection, in every interleaving: the kernel's bytes and then the
      waiting ones are its undropped sends in order, and the kernel watches for
      EPOLLOUT exactly while some wait. */
  lemma ServerStreams(s: Net, run: seq<Label>, c: ConnId) returns (cfg: C.Config)
    requires Start(s) && Legal(s, run) && c < |After(s, run).conns|
    ensures C.Legal(C.Initial(cfg), ConnRun(s, run, c))
    ensures var t := After(s, run).conns[c];
            && C.StreamBytes(t.wire) + t.output == CT.Undropped(C.Initial(cfg), ConnRun(s, run, c))
            && (CI.Live(t) ==> (t.events.writing <==> t.output != []))
  {
    cfg := ServerRunsConnections(s, run, c);
    CT.ConstructedBegins(cfg);
    CT.StreamConserved(C.Initial(cfg), ConnRun(s, run, c));
  }

  /** And its FIN is last and single. */
  lemma ServerFins(s: Net, run: seq<Label>, c: ConnId) returns (cfg: C.Config)
    requires Start(s) && Legal(s, run) && c < |After(s, run).conns|
    ensures C.Legal(C.Initial(cfg), ConnRun(s, run, c))
    ensures var t := After(s, run).conns[c];
            && (forall i :: 0 <= i < |t.wire| && t.wire[i].Fin? ==>
                  C.StreamBytes(t.wire[..i]) == CT.Undropped(C.Initial(cfg), ConnRun(s, run, c)))
            && (forall i, j :: 0 <= i < j < |t.wire| && t.wire[i].Fin? ==> t.wire[j].FromFile?)
            && (t.state == Disconnecting ==> (CI.NoFin(t.wire) <==> t.output != []))
  {
    cfg := ServerRunsConnections(s, run, c);
    CT.ConstructedBegins(cfg);
    CT.FinIsLastAndSingle(C.Initial(cfg), ConnRun(s, run, c));
  }

  /** On a server whose user is EchoServer every connection echoes, whatever the
      others do meanwhile. */
  lemma ServerEchoes(s: Net, run: seq<Label>, c: ConnId) returns (cfg: C.Config)
    requires Start(s) && Legal(s, run) && c < |After(s, run).conns|
    ensures C.Legal(C.Initial(cfg), ConnRun(s, run, c))
    ensures var t, own := After(s, run).conns[c], ConnRun(s, run, c);
            E.Echoing(C.Initial(cfg), own) ==>
              && t.input == []
              && (E.NoDrops(C.Initial(cfg), own) ==>
                    C.StreamBytes(t.wire) + t.output == CT.ReadBy(C.Initial(cfg), own))
  {
    cfg := ServerRunsConnections(s, run, c);
    CT.ConstructedBegins(cfg);
    if E.Echoing(C.Initial(cfg), ConnRun(s, run, c)) {
      E.EchoingIsFaithful(C.Initial(cfg), ConnRun(s, run, c));
    }
  }

  // ---------- Notifications ----------

  /** How many notifications of connection c a run of the server queues. */
  function Posted(ls: seq<L.Label>, c: ConnId): nat {
    if ls == [] then 0 else (if ls[0] == L.Post(c, L.Notice) then 1 else 0) + Posted(ls[1..], c)
  }

  lemma {:induction false} PostedSplits(a: seq<L.Label>, b: seq<L.Label>, c: ConnId)
    ensures Posted(a + b, c) == Posted(a, c) + Posted(b, c)
  {
    if a == [] {
      assert a + b == b;
    } else {
      assert (a + b)[1..] == a[1..] + b;
      PostedSplits(a[1..], b, c);
    }
  }

  lemma PostedByOne(ls: seq<L.Label>, c: ConnId)
    requires |ls| <= 1
    ensures Posted(ls, c) == if ls == [L.Post(c, L.Notice)] then 1 else 0
  {
  }

  lemma PostedByAsked(id: ConnId, d: C.Conn, e: C.Conn, c: ConnId)
    requires AskFacts(d, e)
    ensures Posted(Asked(id, d, e), c) == if c == id then Notices(e) - Notices(d) else 0
  {
    var a, b, p := StateAsked(id, d, e), MaskAsked(id, d, e), PostAsked(id, d, e);
    PostedSplits(a + b, p, c);
    PostedSplits(a, b, c);
    PostedByOne(a, c);
    PostedByOne(b, c);
    PostedByOne(p, c);
    assert p == [L.Post(c, L.Notice)] <==> c == id && Queued(d, e) == [L.Notice];
  }

  ghost predicate Counted(v: Net, l: Label, c: ConnId)
    requires Enabled(v, l) && c < |v.conns|
  {
    c < |Step(v, l).conns|
    && Notices(Step(v, l).conns[c]) == Notices(v.conns[c]) + Posted(Moves(v, l), c)
  }

  lemma CallCounted(v: Net, id: ConnId, l: C.Label, c: ConnId)
    requires Inv(v) && Enabled(v, Call(id, l)) && c < |v.conns|
    ensures Counted(v, Call(id, l), c)
  {
    PostedByCall(v, id, l, c);
  }

  lemma PostedByCall(v: Net, id: ConnId, l: C.Label, c: ConnId)
    requires Inv(v) && id < |v.conns| && C.Enabled(v.conns[id], l) && UserCall(l)
    ensures var d, e := v.conns[id], C.Step(v.conns[id], l);
            Posted(Asked(id, d, e), c) == if c == id then Notices(e) - Notices(d) else 0
  {
    assert ViewAt(v, id);
    CallAsks(v.conns[id], l);
    PostedByAsked(id, v.conns[id], C.Step(v.conns[id], l), c);
  }

  lemma SameNotices(d: C.Conn, l: C.Label)
    requires C.Enabled(d, l) && (l.Establish? || l.Destroy? || l.Report? || l.DoClose? || l.DoError? || l.DoRead?)
    ensures Notices(C.Step(d, l)) == Notices(d)
  {
  }

  lemma PartCounted(v: Net, id: ConnId, l: C.Label, c: ConnId)
    requires Inv(v) && Enabled(v, Part(id, l)) && c < |v.conns|
    ensures Counted(v, Part(id, l), c)
  {
    var d, e := v.conns[id], C.Step(v.conns[id], l);
    assert ViewAt(v, id);
    if l.DoWrite? {
      WriteAsks(d, l.w);
      WriteKeepsState(d, l.w);
      PostedByAsked(id, d, e, c);
      var rest := if d.state != Disconnected then [L.Dispatch(LoopOf(v, id), d.stage.m, false)] else [];
      PostedSplits(Asked(id, d, e), rest, c);
      PostedByOne(rest, c);
    } else {
      SameNotices(d, l);
      PostedByOne(PartMoves(v, id, l), c);
    }
  }

  lemma ExecuteCounted(v: Net, j: LoopId, w: WriteResult, c: ConnId)
    requires Inv(v) && Enabled(v, Execute(j, w)) && c < |v.conns|
    ensures Counted(v, Execute(j, w), c)
  {
    TaskCounted(v, NextTask(v, j), w, c);
    PostedSplits([L.Execute(j)], TaskMoves(v, NextTask(v, j), w), c);
    PostedByOne([L.Execute(j)], c);
  }

  lemma TaskCounted(v: Net, t: L.Task, w: WriteResult, c: ConnId)
    requires Inv(v) && c < |v.conns| && ActLegal(v, TaskAct(t, w))
    ensures Notices(Acted(v, TaskAct(t, w))[c]) == Notices(v.conns[c]) + Posted(TaskMoves(v, t, w), c)
  {
    if t.Other? && t.work.Transfer? {
      TransferCounted(v, t.c, w, c);
    } else if t.Established? || t.Destroyed? {
      SameNotices(v.conns[t.c], LifeStep(t));
    }
  }

  lemma TransferCounted(v: Net, id: ConnId, w: WriteResult, c: ConnId)
    requires Inv(v) && id < |v.conns| && C.Enabled(v.conns[id], C.RunTransfer(w))
    ensures var d, e := v.conns[id], C.Step(v.conns[id], C.RunTransfer(w));
            Posted(Asked(id, Taken(d), e), c) == if c == id then Notices(e) - Notices(d) else 0
  {
    assert ViewAt(v, id);
    RunTransferAsks(v.conns[id], w);
    PostedByAsked(id, Taken(v.conns[id]), C.Step(v.conns[id], C.RunTransfer(w)), c);
  }

  lemma StepCounted(v: Net, l: Label, c: ConnId)
    requires Inv(v) && Enabled(v, l) && c < |v.conns|
    ensures Counted(v, l, c)
  {
    match l {
      case Execute(j, w) => ExecuteCounted(v, j, w, c);
      case Part(id, k) => PartCounted(v, id, k, c);
      case Call(id, k) => CallCounted(v, id, k, c);
      case Report(id, m) => SameNotices(v.conns[id], C.Report(m));
      case Server(step) => PostedByOne([step], c);
      case Accept(fd, _) => PostedByOne([L.Accept(fd)], c);
    }
  }

  /** Every notification a connection counts is a functor the server pushes onto its
      loop for it, and the other way round. */
  lemma {:induction false} NotificationsPosted(v: Net, run: seq<Label>, c: ConnId)
    requires Inv(v) && Legal(v, run) && c < |v.conns|
    ensures c < |After(v, run).conns|
    ensures Notices(After(v, run).conns[c]) == Notices(v.conns[c]) + Posted(ServerRun(v, run), c)
    decreases |run|
  {
    if run != [] {
      var x := JointStep(v, run[0]);
      StepCounted(v, run[0], c);
      NotificationsPosted(x, run[1..], c);
      PostedSplits(Moves(v, run[0]), ServerRun(x, run[1..]), c);
    }
  }

  // ---------- Progress ----------

  /** The part of the dispatch that is due, when every system call fails. */
  function NextPart(d: C.Conn): C.Label
    requires d.stage != C.Idle
  {
    match d.stage
    case AtClose(_) => C.DoClose
    case AtError(_) => C.DoError
    case AtRead(_) => C.DoRead(ReadError(EAGAIN))
    case AtWrite(_) => C.DoWrite(WriteError(EAGAIN))
  }

  /** The loop whose thread takes the step. */
  ghost predicate OfLoop(v: Net, l: Label, j: LoopId) {
    match l
    case Server(step) => LT.OfLoop(step, j)
    case Execute(i, _) => i == j
    case Report(c, _) => c < |v.world.conns| && LoopOf(v, c) == j
    case Part(c, _) => c < |v.world.conns| && LoopOf(v, c) == j
    case _ => false
  }

  /** A loop with nothing in the middle of its dispatch. */
  lemma QuietStep(v: Net, j: LoopId) returns (l: Label)
    requires Inv(v) && j < |v.world.loops| && v.world.loops[j].owes == L.Nobody && Quiet(v, j)
    ensures Ready(v, l) && OfLoop(v, l, j)
  {
    var m := v.world.loops[j];
    assert LI.LoopAt(v.world, j) && LI.ActiveAt(v.world, j);
    match m.pc {
      case Polling => l := Server(L.Return(j, [], false));
      case Dispatching =>
        l := if m.wake then Server(L.WakeRead(j))
             else if m.active == [] then Server(L.EndDispatch(j))
             else Report(m.active[0], NO_REVENTS);
      case Running =>
        l := if m.next < |m.batch| then Execute(j, WriteError(EAGAIN)) else Server(L.EndBatch(j));
    }
  }

  /** A loop in the middle of a dispatch. */
  lemma PartDue(v: Net, j: LoopId) returns (l: Label)
    requires Inv(v) && j < |v.world.loops| && v.world.loops[j].owes == L.Nobody && !Quiet(v, j)
    ensures Ready(v, l) && OfLoop(v, l, j)
  {
    var c: ConnId :| c < |v.conns| && LoopOf(v, c) == j && v.conns[c].stage != C.Idle;
    assert ViewAt(v, c) && StageAt(v.world, c, v.conns[c]);
    l := Part(c, NextPart(v.conns[c]));
  }

  lemma ThreadReady(v: Net, j: LoopId) returns (l: Label)
    requires Inv(v) && j < |v.world.loops|
    ensures Ready(v, l) && OfLoop(v, l, j)
  {
    if v.world.loops[j].owes != L.Nobody {
      assert LI.LoopAt(v.world, j);
      l := Server(L.Wake(j));
    } else if Quiet(v, j) {
      l := QuietStep(v, j);
    } else {
      l := PartDue(v, j);
    }
  }

  /** The thread of every loop can always go on, whatever the others do. */
  lemma LoopsNeverStuck(v: Net, j: LoopId) returns (l: Label)
    requires Reachable(v) && j < |v.world.loops|
    ensures Enabled(v, l) && OfLoop(v, l, j)
  {
    ReachableInv(v);
    l := ThreadReady(v, j);
    ReadyIsEnabled(v, l);
  }

  // ---------- Nothing is used after it is freed ----------

  ghost predicate Unfreed(v: Net, c: ConnId) {
    c < |v.world.conns| && !v.world.conns[c].freed
  }

  lemma PartUnfreed(v: Net, c: ConnId, l: C.Label)
    requires Inv(v) && Ready(v, Part(c, l))
    ensures Unfreed(v, c)
  {
    assert ViewAt(v, c);
    PartOfUnremoved(v.conns[c], l);
    UndestroyedUnfreed(v.world, c);
  }

  lemma UndestroyedUnfreed(w: L.World, c: ConnId)
    requires LI.ConnInv(w) && c < |w.conns| && w.conns[c].destroys != 1
    ensures !w.conns[c].freed
  {
    assert LI.ConnAt(w, c);
  }

  lemma PartOfUnremoved(d: C.Conn, l: C.Label)
    requires CI.StageInv(d) && C.Enabled(d, l) && DispatchPart(l)
    ensures !d.removed
  {
  }

  lemma ReportUnfreed(v: Net, c: ConnId, m: Revents)
    requires Inv(v) && Ready(v, Report(c, m))
    ensures Unfreed(v, c)
  {
    assert LI.ActiveAt(v.world, LoopOf(v, c)) && LI.ConnAt(v.world, c);
  }

  /** A connection that has been freed takes no step again. */
  lemma FreedIsSilent(v: Net, l: Label)
    requires Reachable(v) && Ready(v, l) && ActOf(v, l).Act?
    ensures Unfreed(v, ActOf(v, l).c)
  {
    ReachableInv(v);
    match l {
      case Execute(j, _) => TaskRefers(v, j);
      case Report(c, m) => ReportUnfreed(v, c, m);
      case Part(c, k) => PartUnfreed(v, c, k);
      case Call(c, _) => LI.ReferencedAlive(v.world, c);
    }
  }

  // ---------- Stranded transfers ----------

  lemma QueuedIsReferenced(v: Net, c: ConnId)
    requires Inv(v) && c < |v.conns| && v.conns[c].queue != []
    ensures L.Referenced(v.world, c) && Unfreed(v, c) && !L.Enabled(v.world, L.Free(c))
  {
    assert ViewAt(v, c);
    var l := v.world.loops[LoopOf(v, c)];
    SomeId(LP.Waiting(l), c);
    var i :| 0 <= i < |LP.Waiting(l)| && LP.Waiting(l)[i].c == c;
    if i < |LI.Unexecuted(l)| {
      assert l.batch[l.next + i].c == c;
    } else {
      assert l.pending[i - |LI.Unexecuted(l)|].c == c;
    }
    assert L.Mentions(l, c);
    LI.ReferencedAlive(v.world, c);
  }

  lemma {:induction false} SomeId(ts: seq<L.Task>, c: ConnId)
    requires Ids(ts, c) != []
    ensures exists i :: 0 <= i < |ts| && ts[i].c == c
  {
    if forall i :: 0 <= i < |ts| ==> ts[i].c != c {
      NoIds(ts, c);
    }
  }

  lemma StrandedQueue(v: Net, run: seq<Label>, c: ConnId) returns (t: Net)
    requires Inv(v) && Legal(v, run) && c < |v.conns|
    requires v.conns[c].state == Disconnected && v.conns[c].output != []
    ensures t == After(v, run) && Inv(t) && c < |t.conns| && |t.conns[c].queue| == |v.conns[c].queue|
  {
    assert ViewAt(v, c);
    t := After(v, run);
    RunKeeps(v, run);
    ConnProjects(v, run, c);
    CT.StrandedTransfersStay(v.conns[c], ConnRun(v, run, c));
  }

  /** A connection closed with bytes waiting and a transfer queued is never freed
      again, and its descriptor never closed, whatever the server does. */
  lemma StrandedNeverFreed(v: Net, run: seq<Label>, c: ConnId) returns (t: Net)
    requires Reachable(v) && Legal(v, run) && c < |v.conns|
    requires v.conns[c].state == Disconnected && v.conns[c].output != [] && v.conns[c].queue != []
    ensures t == After(v, run) && Unfreed(t, c) && !L.Enabled(t.world, L.Free(c))
  {
    ReachableInv(v);
    t := StrandedQueue(v, run, c);
    QueuedIsReferenced(t, c);
  }
}
