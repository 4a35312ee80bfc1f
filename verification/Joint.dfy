/** The server with its connections: a Lifecycle.World, and a Connection.Conn for
    each connection accepted.  Every step is one of the loop threads' or of the
    user's on such a thread; what it does to the connection is a step of Connection,
    and what that makes the connection ask of its loop and poller are the steps of
    Lifecycle that go with it. */
module Joint {
  import opened ByteBuffer
  import opened ConnectionState
  import opened Registration
  import opened ThreadPool
  import C = Connection
  import L = Lifecycle

  type ConnId = L.ConnId

  datatype Net = Net(world: L.World, conns: seq<C.Conn>)

  /** Outcomes of system calls come with the step, for the connection as for the
      server. */
  datatype Label =
    | Server(step: L.Label)                  // of the loop alone, or the release of a connection
    | Accept(fd: int, cfg: C.Config)
    | Execute(j: LoopId, w: WriteResult)     // the next functor; w answers its sendfile
    | Report(c: ConnId, m: Revents)          // its channel is next to be dispatched
    | Part(c: ConnId, l: C.Label)            // one of the four parts of its dispatch
    | Call(c: ConnId, l: C.Label)            // the user calls it

  predicate ServerOnly(l: L.Label) {
    l.Return? || l.WakeRead? || l.EndDispatch? || l.EndBatch? || l.Wake? || l.Free?
  }

  predicate UserCall(l: C.Label) {
    l.DoSend? || l.DoShutdown? || l.DoSendFile? || l.Consume?
  }

  predicate DispatchPart(l: C.Label) {
    l.DoClose? || l.DoError? || l.DoRead? || l.DoWrite?
  }

  function LoopOf(v: Net, c: ConnId): LoopId
    requires c < |v.world.conns|
  {
    v.world.conns[c].loop
  }

  /** No connection of loop j is in the middle of its dispatch. */
  ghost predicate Quiet(v: Net, j: LoopId) {
    forall c: ConnId :: c < |v.conns| && c < |v.world.conns| && LoopOf(v, c) == j ==> v.conns[c].stage == C.Idle
  }

  function NextTask(v: Net, j: LoopId): L.Task
    requires j < |v.world.loops| && v.world.loops[j].next < |v.world.loops[j].batch|
  {
    v.world.loops[j].batch[v.world.loops[j].next]
  }

  /** What sendfile answers fits the request. */
  predicate Answers(v: Net, t: L.Task, w: WriteResult) {
    t.Other? && t.work.Transfer? && t.c < |v.conns| && t.work.id < |v.conns[t.c].book| ==>
      C.Fits(w, C.Available(v.conns[t.c].book[t.work.id]))
  }

  /** What a thread or the kernel goes by, and nothing else: the loop's place, the
      mask registered in the kernel, the limits of the system calls.  Masks are
      chosen when the dispatch begins; interest can only have grown since
      epoll_wait returned. */
  ghost predicate Ready(v: Net, l: Label) {
    match l
    case Server(step) =>
      && ServerOnly(step) && L.Enabled(v.world, step)
      && (step.WakeRead? || step.EndDispatch? ==> Quiet(v, step.j))
    case Accept(fd, _) => L.Enabled(v.world, L.Accept(fd)) && Quiet(v, 0)
    case Execute(j, w) =>
      && L.At(v.world, j, L.Running) && v.world.loops[j].next < |v.world.loops[j].batch|
      && Answers(v, NextTask(v, j), w)
    case Report(c, m) =>
      && c < |v.world.conns| && var j := LoopOf(v, c);
      && L.At(v.world, j, L.Dispatching) && Quiet(v, j)
      && v.world.loops[j].active != [] && v.world.loops[j].active[0] == c
      && var fd, kernel := v.world.conns[c].fd, v.world.loops[j].reg.kernel;
         fd in kernel ==> C.MaskAllowed(kernel[fd].events, m)
    case Part(c, l) =>
      && c < |v.world.conns| && c < |v.conns|
      && L.At(v.world, LoopOf(v, c), L.Dispatching)
      && DispatchPart(l) && C.Enabled(v.conns[c], l)
    case Call(c, l) =>
      && c < |v.world.conns| && c < |v.conns| && LoopOf(v, c) < |v.world.loops|
      && v.world.loops[LoopOf(v, c)].pc != L.Polling && v.world.loops[LoopOf(v, c)].owes == L.Nobody
      && L.Referenced(v.world, c)
      && UserCall(l) && C.Enabled(v.conns[c], l)
  }

  // ---------- The connection's side ----------

  datatype Act = Nothing | Act(c: ConnId, l: C.Label)

  function TaskAct(t: L.Task, w: WriteResult): Act {
    match t
    case Established(c) => Act(c, C.Establish)
    case Destroyed(c) => Act(c, C.Destroy)
    case RemoveInLoop(_) => Nothing
    case Other(c, work) => if work.Transfer? then Act(c, C.RunTransfer(w)) else Nothing
  }

  /** The step of an existing connection. */
  function ActOf(v: Net, l: Label): Act {
    match l
    case Server(_) => Nothing
    case Accept(_, _) => Nothing
    case Execute(j, w) =>
      if j < |v.world.loops| && v.world.loops[j].next < |v.world.loops[j].batch|
      then TaskAct(NextTask(v, j), w) else Nothing
    case Report(c, m) => Act(c, C.Report(m))
    case Part(c, l) => Act(c, l)
    case Call(c, l) => Act(c, l)
  }

  predicate ActLegal(v: Net, a: Act) {
    a.Act? ==> a.c < |v.conns| && C.Enabled(v.conns[a.c], a.l)
  }

  /** The steps a new connection takes at once. */
  function Begun(v: Net): seq<C.Label>
    requires L.PoolReady(v.world)
  {
    if L.ChosenLoop(v.world) == 0 then [C.Establish] else []
  }

  function Entered(v: Net, cfg: C.Config): C.Conn
    requires L.PoolReady(v.world)
  {
    if L.ChosenLoop(v.world) == 0 then C.ConnectEstablished(C.Initial(cfg)) else C.Initial(cfg)
  }

  // ---------- The server's side ----------

  /** The functors a step of the connection queues on its own loop: those of its
      transfers are numbered in its queue. */
  function Queued(c: C.Conn, d: C.Conn): seq<L.Work> {
    if d.completes > c.completes || |d.marks| > |c.marks| then [L.Notice]
    else if |d.queue| > |c.queue| then [L.Transfer(d.queue[|d.queue| - 1])]
    else []
  }

  /** What a step from c to d asks of the loop and the poller. */
  function Asked(id: ConnId, c: C.Conn, d: C.Conn): seq<L.Label> {
    (if d.state != c.state then [L.Shutdown(id)] else [])
    + (if d.events != c.events then [L.Writing(id, d.events.writing)] else [])
    + (if Queued(c, d) != [] then [L.Post(id, Queued(c, d)[0])] else [])
  }

  /** A part of the dispatch that closes ends it for the server; otherwise the
      write part does. */
  function PartMoves(v: Net, c: ConnId, l: C.Label): seq<L.Label>
    requires c < |v.world.conns| && c < |v.conns| && DispatchPart(l) && C.Enabled(v.conns[c], l)
  {
    var d := v.conns[c];
    var e := C.Step(d, l);
    if e.state != d.state then [L.Dispatch(LoopOf(v, c), d.stage.m, l.DoRead?)]
    else if l.DoWrite? then
      Asked(c, d, e) + (if d.state != Disconnected then [L.Dispatch(LoopOf(v, c), d.stage.m, false)] else [])
    else []
  }

  function TaskMoves(v: Net, t: L.Task, w: WriteResult): seq<L.Label>
    requires ActLegal(v, TaskAct(t, w))
  {
    if t.Other? && t.work.Transfer? then
      var d := v.conns[t.c];
      Asked(t.c, d.(queue := d.queue[1..]), C.Step(d, C.RunTransfer(w)))
    else []
  }

  ghost function Moves(v: Net, l: Label): seq<L.Label>
    requires Ready(v, l) && ActLegal(v, ActOf(v, l))
  {
    match l
    case Server(step) => [step]
    case Accept(fd, _) => [L.Accept(fd)]
    case Execute(j, w) => [L.Execute(j)] + TaskMoves(v, NextTask(v, j), w)
    case Report(_, _) => []
    case Part(c, l) => PartMoves(v, c, l)
    case Call(c, l) => Asked(c, v.conns[c], C.Step(v.conns[c], l))
  }

  // ---------- Steps and runs ----------

  /** Both sides can follow: ReadyIsEnabled shows that they always can. */
  ghost predicate Enabled(v: Net, l: Label) {
    Ready(v, l) && ActLegal(v, ActOf(v, l)) && L.Legal(v.world, Moves(v, l))
  }

  function Acted(v: Net, a: Act): seq<C.Conn>
    requires ActLegal(v, a)
  {
    if a.Act? then v.conns[a.c := C.Step(v.conns[a.c], a.l)] else v.conns
  }

  ghost function Step(v: Net, l: Label): Net
    requires Enabled(v, l)
  {
    Net(L.After(v.world, Moves(v, l)),
        if l.Accept? then v.conns + [Entered(v, l.cfg)] else Acted(v, ActOf(v, l)))
  }

  ghost predicate Legal(v: Net, run: seq<Label>)
    decreases |run|
  {
    run == [] || (Enabled(v, run[0]) && Legal(Step(v, run[0]), run[1..]))
  }

  ghost function After(v: Net, run: seq<Label>): Net
    requires Legal(v, run)
    decreases |run|
  {
    if run == [] then v else After(Step(v, run[0]), run[1..])
  }

  ghost predicate Start(v: Net) {
    L.Start(v.world) && v.conns == []
  }
}
