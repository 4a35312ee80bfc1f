/** A TcpServer with its base loop (0) and sub loops, as interleaved steps of the
    loop threads, a kernel that reports events as it likes, and the release of
    connections nobody refers to any more.  A step ends where another thread could
    first see it: at a push to a queue, or at a write to an eventfd. */
module Lifecycle {
  import opened ConnectionState
  import opened Registration
  import opened ThreadPool
  import opened Names

  import LoopProtocol

  type ConnId = nat

  /** What a connection queues on its own loop: a sendFileInLoop, or a
      write-complete or high-water notification. */
  datatype Work = Transfer(id: nat) | Notice

  /** The functors that hold a connection: the three of its life, and its own. */
  datatype Task =
    | Established(c: ConnId)
    | RemoveInLoop(c: ConnId)
    | Destroyed(c: ConnId)
    | Other(c: ConnId, work: Work)

  datatype Pc = Polling | Dispatching | Running

  datatype Owed = Nobody | Loop(k: LoopId)

  datatype LoopState = LoopState(
    pc: Pc,
    active: seq<ConnId>,   // reported and not yet dispatched
    wake: bool,            // so is the channel of the eventfd
    pending: seq<Task>,
    batch: seq<Task>,      // functors of doPendingFunctors, alive until it returns
    next: nat,             // the first of them not yet executed
    counter: nat,          // of the eventfd
    owes: Owed,            // the loop this thread has pushed to and not yet woken
    reg: Poll<ConnId>)     // channels and epoll instance of this loop

  datatype Info = Info(
    name: string,
    loop: LoopId,
    fd: int,
    state: ConnState,
    ups: nat,
    downs: nat,
    destroys: nat,         // runs of connectDestroyed
    freed: bool)           // destructor has run, descriptor closed

  datatype World = World(
    server: string,
    ipPort: string,
    nextLoop: nat,                    // next_ of the thread pool
    loops: seq<LoopState>,            // the base loop, then the sub loops
    conns: seq<Info>,                 // every connection accepted
    connections: map<string, ConnId>) // connections_

  // ---------- Reading a world ----------

  function Subs(w: World): int {
    |w.loops| - 1
  }

  function NameOf(w: World, c: ConnId): string
    requires c < |w.conns|
  {
    w.conns[c].name
  }

  /** The name of the next connection accepted: numbers start at 1. */
  function NewName(w: World): string {
    ConnName(w.server, w.ipPort, |w.conns| + 1)
  }

  predicate Known(w: World, c: ConnId) {
    && c < |w.conns| && w.conns[c].loop < |w.loops|
    && c in w.loops[w.conns[c].loop].reg.chans
  }

  predicate Mentions(l: LoopState, c: ConnId) {
    (exists i :: 0 <= i < |l.pending| && l.pending[i].c == c)
    || (exists i :: 0 <= i < |l.batch| && l.batch[i].c == c)
  }

  /** Some shared_ptr to the connection is left: in the map, in a queue, or in a
      batch that has not been thrown away yet. */
  ghost predicate Referenced(w: World, c: ConnId) {
    || (exists n :: n in w.connections && w.connections[n] == c)
    || (exists j :: 0 <= j < |w.loops| && Mentions(w.loops[j], c))
  }

  // ---------- Elementary changes ----------

  function SetLoop(w: World, j: LoopId, l: LoopState): World
    requires j < |w.loops|
  {
    w.(loops := w.loops[j := l])
  }

  function SetInfo(w: World, c: ConnId, info: Info): World
    requires c < |w.conns|
  {
    w.(conns := w.conns[c := info])
  }

  function SetReg(w: World, j: LoopId, reg: Poll<ConnId>): World
    requires j < |w.loops|
  {
    SetLoop(w, j, w.loops[j].(reg := reg))
  }

  function Push(w: World, k: LoopId, t: Task): World
    requires k < |w.loops|
  {
    SetLoop(w, k, w.loops[k].(pending := w.loops[k].pending + [t]))
  }

  function Owe(w: World, j: LoopId, k: LoopId): World
    requires j < |w.loops|
  {
    SetLoop(w, j, w.loops[j].(owes := Loop(k)))
  }

  /** queueInLoop(t) of loop k, called by the thread of loop j. */
  function QueueInLoop(w: World, j: LoopId, k: LoopId, t: Task): World
    requires j < |w.loops| && k < |w.loops|
  {
    var p := Push(w, k, t);
    if j != k || w.loops[j].pc == Running then Owe(p, j, k) else p
  }

  // ---------- What the tasks do ----------

  function ConnectEstablished(w: World, c: ConnId): World
    requires Known(w, c)
  {
    var info := w.conns[c];
    var reg := w.loops[info.loop].reg;
    SetReg(SetInfo(w, c, info.(state := Connected, ups := info.ups + 1)), info.loop,
           SetEvents(reg, c, reg.chans[c].events.(reading := true)))
  }

  /** Run by the thread of the base loop. */
  function RemoveConnectionInLoop(w: World, c: ConnId): World
    requires Known(w, c)
  {
    QueueInLoop(w.(connections := w.connections - {NameOf(w, c)}), 0, w.conns[c].loop, Destroyed(c))
  }

  function ConnectDestroyed(w: World, c: ConnId): World
    requires Known(w, c)
  {
    var info := w.conns[c];
    var reg := w.loops[info.loop].reg;
    var up := info.state == Connected;
    SetReg(SetInfo(w, c, if up then info.(state := Disconnected, downs := info.downs + 1, destroys := info.destroys + 1)
                         else info.(destroys := info.destroys + 1)),
           info.loop,
           RemoveChannel(if up then SetEvents(reg, c, NO_INTEREST) else reg, c))
  }

  /** handleClose up to its call of closeCallback_. */
  function Closed(w: World, c: ConnId): World
    requires Known(w, c)
  {
    var info := w.conns[c];
    SetReg(SetInfo(w, c, info.(state := Disconnected, downs := info.downs + 1)), info.loop,
           SetEvents(w.loops[info.loop].reg, c, NO_INTEREST))
  }

  /** removeConnection: runInLoop on the base loop, from the thread of loop j. */
  function RemoveConnection(w: World, j: LoopId, c: ConnId): World
    requires Known(w, c) && j < |w.loops|
  {
    if j == 0 then RemoveConnectionInLoop(w, c) else QueueInLoop(w, j, 0, RemoveInLoop(c))
  }

  function HandleClose(w: World, c: ConnId): World
    requires Known(w, c)
  {
    RemoveConnection(Closed(w, c), w.conns[c].loop, c)
  }

  function RunTask(w: World, t: Task): World
    requires Known(w, t.c)
  {
    match t
    case Established(c) => ConnectEstablished(w, c)
    case RemoveInLoop(c) => RemoveConnectionInLoop(w, c)
    case Destroyed(c) => ConnectDestroyed(w, c)
    case Other(_, _) => w
  }

  /** The pool can be asked for a loop. */
  predicate PoolReady(w: World) {
    |w.loops| > 0 && (Subs(w) > 0 ==> w.nextLoop < Subs(w))
  }

  /** getNextLoop: the loop chosen and the new next_. */
  function ChosenLoop(w: World): (k: LoopId)
    requires PoolReady(w)
    ensures k < |w.loops|
  {
    if Subs(w) == 0 then 0 else 1 + w.nextLoop
  }

  function AdvancedNext(w: World): nat
    requires PoolReady(w)
  {
    if Subs(w) == 0 || w.nextLoop + 1 >= Subs(w) then 0 else w.nextLoop + 1
  }

  /** newConnection up to its call of runInLoop: the connection is constructed on
      the chosen loop and entered in connections_. */
  function Constructed(w: World, fd: int): World
    requires PoolReady(w)
  {
    var c := |w.conns|;
    var k := ChosenLoop(w);
    var reg := w.loops[k].reg;
    SetReg(w.(nextLoop := AdvancedNext(w),
              conns := w.conns + [Info(NewName(w), k, fd, Connecting, 0, 0, 0, false)],
              connections := w.connections[NewName(w) := c]),
           k, reg.(chans := reg.chans[c := Chan(fd, NO_INTEREST, New)]))
  }

  /** Only the thread of the base loop accepts. */
  function NewConnection(w: World, fd: int): World
    requires PoolReady(w)
  {
    var c := |w.conns|;
    var v := Constructed(w, fd);
    if ChosenLoop(w) == 0 then ConnectEstablished(v, c)
    else QueueInLoop(v, 0, ChosenLoop(w), Established(c))
  }

  // ---------- Steps ----------

  datatype Label =
    | Return(j: LoopId, active: seq<ConnId>, wake: bool) // epoll_wait returns
    | WakeRead(j: LoopId)                             // handleRead on the eventfd
    | Accept(fd: int)
    | Dispatch(j: LoopId, m: Revents, eof: bool)      // handleEvent of the next channel
    | EndDispatch(j: LoopId)                          // and the swap
    | Execute(j: LoopId)
    | EndBatch(j: LoopId)
    | Wake(j: LoopId)                                 // the wakeup() that is owed
    | Shutdown(c: ConnId)
    | Writing(c: ConnId, on: bool)                    // EPOLLOUT asked for, or not
    | Post(c: ConnId, work: Work)                     // queued by c on its own loop
    | Free(c: ConnId)                                 // the last reference went

  predicate FdOpen(w: World, fd: int) {
    exists c :: 0 <= c < |w.conns| && !w.conns[c].freed && w.conns[c].fd == fd
  }

  /** What epoll_wait may report on loop j: channels in its interest set, each
      once. */
  predicate Reportable(w: World, j: LoopId, active: seq<ConnId>)
    requires j < |w.loops|
  {
    && (forall i :: 0 <= i < |active| ==>
          active[i] in w.loops[j].reg.chans && InKernel(w.loops[j].reg, active[i]))
    && (forall i, k :: 0 <= i < k < |active| ==> active[i] != active[k])
  }

  /** Whether a dispatch of this mask closes, given what a read would find. */
  predicate Closes(m: Revents, eof: bool) {
    (m.hup && !m.in_) || ((m.in_ || m.pri) && eof)
  }

  predicate At(w: World, j: LoopId, pc: Pc) {
    j < |w.loops| && w.loops[j].pc == pc && w.loops[j].owes == Nobody
  }

  predicate UserMayCall(w: World, c: ConnId) {
    Known(w, c) && (w.conns[c].state == Connected || w.conns[c].state == Disconnecting)
  }

  ghost predicate Enabled(w: World, l: Label) {
    match l
    case Return(j, active, wake) =>
      At(w, j, Polling) && Reportable(w, j, active) && (wake ==> w.loops[j].counter > 0)
    case WakeRead(j) => At(w, j, Dispatching) && w.loops[j].wake
    case Accept(fd) =>
      && At(w, 0, Dispatching) && PoolReady(w) && !FdOpen(w, fd) && |w.conns| + 1 < MAX_INT
    case Dispatch(j, m, eof) =>
      && At(w, j, Dispatching) && w.loops[j].active != [] && Known(w, w.loops[j].active[0])
      && !(m.hup && m.pri && !m.in_)
    case EndDispatch(j) => At(w, j, Dispatching) && w.loops[j].active == [] && !w.loops[j].wake
    case Execute(j) =>
      && At(w, j, Running) && w.loops[j].next < |w.loops[j].batch|
      && Known(w, w.loops[j].batch[w.loops[j].next].c)
    case EndBatch(j) => At(w, j, Running) && w.loops[j].next >= |w.loops[j].batch|
    case Wake(j) => j < |w.loops| && w.loops[j].owes != Nobody && w.loops[j].owes.k < |w.loops|
    case Shutdown(c) => UserMayCall(w, c)
    case Writing(c, _) => UserMayCall(w, c)
    case Post(c, _) =>
      && Known(w, c) && Referenced(w, c)
      && w.loops[w.conns[c].loop].pc != Polling && w.loops[w.conns[c].loop].owes == Nobody
    case Free(c) => c < |w.conns| && !w.conns[c].freed && !Referenced(w, c)
  }

  function Step(w: World, l: Label): World
    requires Enabled(w, l)
  {
    match l
    case Return(j, active, wake) =>
      SetLoop(w, j, w.loops[j].(pc := Dispatching, active := active, wake := wake))
    case WakeRead(j) => SetLoop(w, j, w.loops[j].(wake := false, counter := 0))
    case Accept(fd) => NewConnection(w, fd)
    case Dispatch(j, m, eof) =>
      var c := w.loops[j].active[0];
      var v := SetLoop(w, j, w.loops[j].(active := w.loops[j].active[1..]));
      if Closes(m, eof) then HandleClose(v, c) else v
    case EndDispatch(j) =>
      SetLoop(w, j, w.loops[j].(pc := Running, batch := w.loops[j].pending, next := 0, pending := []))
    case Execute(j) =>
      var t := w.loops[j].batch[w.loops[j].next];
      RunTask(SetLoop(w, j, w.loops[j].(next := w.loops[j].next + 1)), t)
    case EndBatch(j) => SetLoop(w, j, w.loops[j].(pc := Polling, batch := [], next := 0))
    case Wake(j) =>
      var k := w.loops[j].owes.k;
      var v := SetLoop(w, j, w.loops[j].(owes := Nobody));
      SetLoop(v, k, v.loops[k].(counter := LoopProtocol.Bump(v.loops[k].counter)))
    case Shutdown(c) => SetInfo(w, c, w.conns[c].(state := Disconnecting))
    case Writing(c, on) =>
      var reg := w.loops[w.conns[c].loop].reg;
      SetReg(w, w.conns[c].loop, SetEvents(reg, c, Interest(true, on)))
    case Post(c, work) => QueueInLoop(w, w.conns[c].loop, w.conns[c].loop, Other(c, work))
    case Free(c) => SetInfo(w, c, w.conns[c].(freed := true))
  }

  ghost predicate Legal(w: World, run: seq<Label>)
    decreases |run|
  {
    run == [] || (Enabled(w, run[0]) && Legal(Step(w, run[0]), run[1..]))
  }

  ghost function After(w: World, run: seq<Label>): World
    requires Legal(w, run)
    decreases |run|
  {
    if run == [] then w else After(Step(w, run[0]), run[1..])
  }

  /** A server just started with the given number of sub loops. */
  ghost predicate Start(w: World) {
    && |w.loops| > 0 && |w.ipPort| <= 21
    && w.nextLoop == 0 && w.conns == [] && w.connections == map[]
    && (forall j :: 0 <= j < |w.loops| ==>
          w.loops[j] == LoopState(Polling, [], false, [], [], 0, 0, Nobody, Poll.Poll(map[], map[], map[], 0)))
  }
}
