/** Dispatching, executing functors and accepting keep the invariant; hence so
    does every run. */
module LifecycleSteps {
  import opened ConnectionState
  import opened Registration
  import opened ThreadPool
  import opened Names
  import opened Lifecycle
  import opened LifecycleInvariants

  // ---------- Dispatch ----------

  lemma DispatchKeeps(w: World, j: LoopId, m: Revents, eof: bool)
    requires Inv(w) && Enabled(w, Dispatch(j, m, eof))
    ensures Inv(Step(w, Dispatch(j, m, eof)))
  {
    var c := w.loops[j].active[0];
    var v := SetLoop(w, j, w.loops[j].(active := w.loops[j].active[1..]));
    assert QueueAt(w, j) && LoopAt(w, j) && ActiveAt(w, j) && WakeAt(w, j);
    forall d: ConnId | d < |w.conns| ensures PhaseOf(v, d) == PhaseOf(w, d) {
      assert NameOf(v, d) == NameOf(w, d);
    }
    LoopStep(w, v, j);
    if Closes(m, eof) {
      HandleCloseKeeps(v, c);
    }
  }

  // ---------- Execute ----------

  function Popped(w: World, j: LoopId): World
    requires j < |w.loops|
  {
    SetLoop(w, j, w.loops[j].(next := w.loops[j].next + 1))
  }

  lemma PoppedKeeps(w: World, j: LoopId)
    requires Inv(w) && Enabled(w, Execute(j))
    ensures Rest(Popped(w, j)) && LoopMoved(w, Popped(w, j), j)
    ensures forall c :: 0 <= c < |w.conns| ==> PhaseOf(Popped(w, j), c) == PhaseOf(w, c)
  {
    var v := Popped(w, j);
    assert QueueAt(w, j) && LoopAt(w, j) && WakeAt(w, j);
    LoopMovedKeeps(w, v, j);
    if exists i :: Owing(w, i, j) {
      var i :| Owing(w, i, j);
      assert Owing(v, i, j);
    }
    OtherLoopsKeep(w, v, j);
    forall c | 0 <= c < |w.conns| ensures PhaseOf(v, c) == PhaseOf(w, c) {
      assert NameOf(v, c) == NameOf(w, c);
    }
  }

  /** The functor executed was the only one of its connection anywhere, and now
      there is none. */
  lemma PoppedTask(w: World, j: LoopId, t: Task)
    requires Inv(w) && Enabled(w, Execute(j)) && t == w.loops[j].batch[w.loops[j].next] && !t.Other?
    ensures Expected(w, j, t) == 1 && TasksBut(Popped(w, j), t.c) && NoTasks(Popped(w, j), t.c)
  {
    assert TaskAt(w, j, t);
    PopCounts(w.loops[j], t);
    forall i: LoopId | i < |w.loops| ensures NoTasksAt(Popped(w, j), t.c, i) {
      PoppedElsewhere(w, j, t, i);
    }
    OthersUnpopped(w, j, t.c);
  }

  lemma PoppedElsewhere(w: World, j: LoopId, t: Task, i: LoopId)
    requires Inv(w) && Enabled(w, Execute(j)) && t == w.loops[j].batch[w.loops[j].next] && !t.Other?
    requires t.c < |w.conns| && Expected(w, j, t) == 1 && i < |w.loops|
    ensures NoTasksAt(Popped(w, j), t.c, i)
  {
    UncountedExcept(w, j, t, Established(t.c), i);
    UncountedExcept(w, j, t, RemoveInLoop(t.c), i);
    UncountedExcept(w, j, t, Destroyed(t.c), i);
  }

  lemma PoppedCount(w: World, j: LoopId, i: LoopId, u: Task)
    requires j < |w.loops| && i < |w.loops| && w.loops[j].next < |w.loops[j].batch|
    ensures Count(Popped(w, j).loops[i], u)
              + (if i == j && u == w.loops[j].batch[w.loops[j].next] then 1 else 0)
            == Count(w.loops[i], u)
  {
    PoppedLoop(w, j, i);
    if i == j {
      PopCounts(w.loops[j], u);
    }
  }

  lemma PoppedLoop(w: World, j: LoopId, i: LoopId)
    requires j < |w.loops| && i < |w.loops|
    ensures Popped(w, j).loops[i] == if i == j then w.loops[j].(next := w.loops[j].next + 1) else w.loops[i]
  {
  }

  lemma UncountedExcept(w: World, j: LoopId, t: Task, u: Task, i: LoopId)
    requires TaskInv(w) && j < |w.loops| && i < |w.loops| && w.loops[j].next < |w.loops[j].batch|
    requires t == w.loops[j].batch[w.loops[j].next] && !t.Other?
    requires t.c < |w.conns| && Expected(w, j, t) == 1 && u.c == t.c && !u.Other?
    ensures Count(Popped(w, j).loops[i], u) == 0
  {
    assert TaskAt(w, i, u) && TaskAt(w, j, t);
    PoppedCount(w, j, i, u);
  }

  lemma OthersUnpopped(w: World, j: LoopId, c: ConnId)
    requires TaskInv(w) && j < |w.loops| && w.loops[j].next < |w.loops[j].batch|
    requires w.loops[j].batch[w.loops[j].next].c == c
    ensures TasksBut(Popped(w, j), c)
  {
    var v := Popped(w, j);
    forall i: LoopId, u: Task | i < |v.loops| && u.c != c ensures TaskAt(v, i, u) {
      assert TaskAt(w, i, u);
      PoppedCount(w, j, i, u);
      if u.c < |w.conns| {
        SameExpected(w, v, i, u);
      }
    }
  }

  /** No functor of the connection is left, and its phase asks for none. */
  lemma TaskSpent(w: World, v: World, c: ConnId)
    requires ConnInv(w) && TasksBut(w, c) && ConnMoved(w, v, c) && LoopsStill(w, v)
    requires NoTasks(w, c)
    requires PhaseOf(v, c) == Live || PhaseOf(v, c) == Gone
    ensures TaskInv(v)
  {
    StillCounts(w, v);
    forall j: LoopId | j < |w.loops|
      ensures TaskAt(v, j, Established(c)) && TaskAt(v, j, RemoveInLoop(c)) && TaskAt(v, j, Destroyed(c))
    {
      assert NoTasksAt(w, c, j);
    }
    TasksMoved(w, v, c);
  }

  lemma EstablishedKeeps(w: World, c: ConnId)
    requires Rest(w) && InPhase(w, c, Queued) && Known(w, c)
    ensures var v := ConnectEstablished(w, c);
            Rest(v) && InPhase(v, c, Live) && ConnMoved(w, v, c) && LoopsStill(w, v)
  {
    var v := ConnectEstablished(w, c);
    var info := w.conns[c].(state := Connected, ups := w.conns[c].ups + 1);
    var events := RegOf(w, c).chans[c].events.(reading := true);
    assert ConnAt(w, c) && ChanAt(w, c);
    PollerSets(w, c, events);
    MovedShape(w, c, info, SetEvents(RegOf(w, c), c, events));
    assert EntryAt(w, NameOf(w, c));
    ConnMovedKeeps(w, v, c);
    RegMovedKeeps(w, v, c);
    LoopsStillKeep(w, v, c);
  }

  /** connectDestroyed finds the connection disconnected already: its first branch
      is never taken. */
  lemma DestroyedKeeps(w: World, c: ConnId)
    requires Rest(w) && InPhase(w, c, Detached) && Known(w, c)
    requires c !in w.loops[w.conns[c].loop].active
    ensures var v := ConnectDestroyed(w, c);
            Rest(v) && InPhase(v, c, Gone) && ConnMoved(w, v, c) && LoopsStill(w, v)
  {
    var v := ConnectDestroyed(w, c);
    var info := w.conns[c].(destroys := w.conns[c].destroys + 1);
    assert ConnAt(w, c) && ChanAt(w, c);
    PollerRemoves(w, c);
    MovedShape(w, c, info, RemoveChannel(RegOf(w, c), c));
    ConnMovedKeeps(w, v, c);
    RegMovedKeeps(w, v, c);
    LoopsStillKeep(w, v, c);
  }

  /** A queued functor belongs to a connection whose channel is on its own loop
      and not waiting to be dispatched. */
  lemma NotActive(w: World, c: ConnId)
    requires Rest(w) && c < |w.conns| && PhaseOf(w, c) != Live
    ensures Known(w, c) && c !in w.loops[w.conns[c].loop].active
  {
    assert ChanAt(w, c) && ActiveAt(w, w.conns[c].loop);
  }

  lemma ExecuteKeeps(w: World, j: LoopId)
    requires Inv(w) && Enabled(w, Execute(j))
    ensures Inv(Step(w, Execute(j)))
  {
    var t := w.loops[j].batch[w.loops[j].next];
    var u := Popped(w, j);
    PoppedKeeps(w, j);
    if t.Other? {
      OtherPopped(w, j, t);
    } else {
      PoppedTask(w, j, t);
      assert InPhase(u, t.c, PhaseOf(w, t.c));
      NotActive(u, t.c);
      RunTaskKeeps(u, j, t);
    }
  }

  lemma OtherPopped(w: World, j: LoopId, t: Task)
    requires TaskInv(w) && j < |w.loops| && w.loops[j].next < |w.loops[j].batch|
    requires t == w.loops[j].batch[w.loops[j].next] && t.Other?
    ensures TaskInv(Popped(w, j))
  {
    forall u: Task | !u.Other? ensures Count(Popped(w, j).loops[j], u) == Count(w.loops[j], u) {
      PoppedCount(w, j, j, u);
    }
    SameCountsKeep(w, Popped(w, j), j);
  }

  lemma RunTaskKeeps(u: World, j: LoopId, t: Task)
    requires Rest(u) && TasksBut(u, t.c) && !t.Other? && Known(u, t.c)
    requires NoTasks(u, t.c)
    requires Expected(u, j, t) == 1 && At(u, j, Running)
    requires t.c !in u.loops[u.conns[t.c].loop].active
    ensures Inv(RunTask(u, t))
  {
    var c := t.c;
    match t {
      case Established(_) =>
        EstablishedKeeps(u, c);
        TaskSpent(u, ConnectEstablished(u, c), c);
      case RemoveInLoop(_) =>
        RemovalKeeps(u, c);
        TaskGained(u, RemoveConnectionInLoop(u, c), c, u.conns[c].loop, Destroyed(c));
      case Destroyed(_) =>
        DestroyedKeeps(u, c);
        TaskSpent(u, ConnectDestroyed(u, c), c);
    }
  }

  // ---------- Accept ----------

  lemma NoFutureTasks(w: World, j: LoopId, t: Task)
    requires LoopInv(w) && j < |w.loops| && t.c >= |w.conns|
    ensures Count(w.loops[j], t) == 0
  {
    assert QueueAt(w, j) && LoopAt(w, j);
    if Count(w.loops[j], t) > 0 {
      CountedOccurs(w.loops[j], t);
    }
  }

  lemma OldPhases(w: World, fd: int, d: ConnId)
    requires NameInv(w) && PoolReady(w) && |w.conns| + 1 < MAX_INT && d < |w.conns|
    ensures var v := Constructed(w, fd);
            && PhaseOf(v, d) == PhaseOf(w, d) && NameOf(v, d) == NameOf(w, d)
            && (NameOf(w, d) in v.connections <==> NameOf(w, d) in w.connections)
            && NameOf(w, d) != NewName(w)
  {
    var v := Constructed(w, fd);
    assert NamedAt(w, d);
    if NameOf(w, d) == NewName(w) {
      NamesUnique(w.server, w.ipPort, d + 1, |w.conns| + 1);
    }
  }

  lemma ConstructedEntries(w: World, fd: int)
    requires Inv(w) && NameInv(w) && Enabled(w, Accept(fd))
    ensures var v := Constructed(w, fd); forall n :: n in v.connections ==> EntryAt(v, n)
  {
    var v := Constructed(w, fd);
    forall n | n in v.connections ensures EntryAt(v, n) {
      if n != NewName(w) {
        assert EntryAt(w, n);
        OldPhases(w, fd, w.connections[n]);
      }
    }
  }

  lemma ConstructedApart(w: World, fd: int, a: ConnId, b: ConnId)
    requires Inv(w) && NameInv(w) && Enabled(w, Accept(fd)) && a <= |w.conns| && b <= |w.conns|
    ensures Apart(Constructed(w, fd), a, b)
  {
    if a < |w.conns| && b < |w.conns| {
      assert Apart(w, a, b);
    } else if a < |w.conns| {
      OldPhases(w, fd, a);
    } else if b < |w.conns| {
      OldPhases(w, fd, b);
    }
  }

  lemma ConstructedConns(w: World, fd: int)
    requires Inv(w) && NameInv(w) && Enabled(w, Accept(fd))
    ensures ConnInv(Constructed(w, fd)) && InPhase(Constructed(w, fd), |w.conns|, Queued)
  {
    var v := Constructed(w, fd);
    Advances(w);
    forall d: ConnId | d < |v.conns| ensures ConnAt(v, d) {
      if d < |w.conns| {
        assert ConnAt(w, d);
        OldPhases(w, fd, d);
      }
    }
    ConstructedEntries(w, fd);
    forall a: ConnId, b: ConnId | a < |v.conns| && b < |v.conns| ensures Apart(v, a, b) {
      ConstructedApart(w, fd, a, b);
    }
  }

  lemma Advances(w: World)
    requires PoolReady(w) && w.nextLoop == NextAfter(|w.loops| - 1, |w.conns|)
    ensures AdvancedNext(w) == NextAfter(|w.loops| - 1, |w.conns| + 1)
    ensures ChosenLoop(w) == LoopFor(|w.loops| - 1, |w.conns|)
  {
    if Subs(w) > 0 {
      Wraps(|w.conns|, Subs(w));
    }
  }

  lemma ConstructedRegs(w: World, fd: int)
    requires Inv(w) && NameInv(w) && Enabled(w, Accept(fd))
    ensures RegInv(Constructed(w, fd))
  {
    var v := Constructed(w, fd);
    var c := |w.conns|;
    var k := ChosenLoop(w);
    assert RegAt(w, k);
    NewChannelAgrees(w.loops[k].reg, c, fd);
    forall j: LoopId | j < |v.loops| ensures RegAt(v, j) {
      assert RegAt(w, j);
    }
    forall d: ConnId | d < |v.conns| ensures ChanAt(v, d) {
      ConstructedChan(w, fd, d);
    }
  }

  lemma ConstructedChan(w: World, fd: int, d: ConnId)
    requires RegInv(w) && NameInv(w) && Enabled(w, Accept(fd)) && d <= |w.conns|
    ensures d < |Constructed(w, fd).conns| && ChanAt(Constructed(w, fd), d)
  {
    if d < |w.conns| {
      assert ChanAt(w, d);
      OldPhases(w, fd, d);
    }
  }

  lemma ConstructedLoops(w: World, fd: int)
    requires Inv(w) && NameInv(w) && Enabled(w, Accept(fd))
    ensures LoopInv(Constructed(w, fd))
  {
    var v := Constructed(w, fd);
    forall j: LoopId | j < |v.loops|
      ensures QueueAt(v, j) && WakeAt(v, j) && ActiveAt(v, j) && LoopAt(v, j)
    {
      ConstructedLoop(w, fd, j);
    }
  }

  lemma ConstructedLoop(w: World, fd: int, j: LoopId)
    requires Inv(w) && NameInv(w) && Enabled(w, Accept(fd)) && j < |w.loops|
    ensures var v := Constructed(w, fd);
            QueueAt(v, j) && WakeAt(v, j) && ActiveAt(v, j) && LoopAt(v, j)
  {
    var v := Constructed(w, fd);
    assert QueueAt(w, j) && WakeAt(w, j) && ActiveAt(w, j) && LoopAt(w, j);
    assert v.loops[j] == w.loops[j].(reg := v.loops[j].reg);
    forall i | 0 <= i < |w.loops[j].pending| ensures RefersTo(v, j, w.loops[j].pending[i]) {
      assert RefersTo(w, j, w.loops[j].pending[i]);
    }
    forall i | 0 <= i < |w.loops[j].batch| ensures RefersTo(v, j, w.loops[j].batch[i]) {
      assert RefersTo(w, j, w.loops[j].batch[i]);
    }
    forall i | 0 <= i < |w.loops[j].active| ensures PhaseOf(v, w.loops[j].active[i]) == Live {
      OldPhases(w, fd, w.loops[j].active[i]);
    }
    if exists i :: Owing(w, i, j) {
      var i :| Owing(w, i, j);
      assert Owing(v, i, j);
    }
  }

  lemma ConstructedHasNoTasks(w: World, fd: int)
    requires LoopInv(w) && PoolReady(w)
    ensures NoTasks(Constructed(w, fd), |w.conns|)
  {
    var v := Constructed(w, fd);
    var c := |w.conns|;
    forall j: LoopId | j < |v.loops| ensures NoTasksAt(v, c, j) {
      NoFutureTasks(w, j, Established(c));
      NoFutureTasks(w, j, RemoveInLoop(c));
      NoFutureTasks(w, j, Destroyed(c));
    }
  }

  lemma ConstructedLeavesTasks(w: World, fd: int)
    requires TaskInv(w) && NameInv(w) && Enabled(w, Accept(fd))
    ensures TasksBut(Constructed(w, fd), |w.conns|)
  {
    var v := Constructed(w, fd);
    forall j: LoopId, t: Task | j < |v.loops| && t.c != |w.conns| ensures TaskAt(v, j, t) {
      ConstructedLeavesTask(w, fd, j, t);
    }
  }

  lemma ConstructedLeavesTask(w: World, fd: int, j: LoopId, t: Task)
    requires TaskInv(w) && NameInv(w) && Enabled(w, Accept(fd)) && j < |w.loops| && t.c != |w.conns|
    ensures TaskAt(Constructed(w, fd), j, t)
  {
    var v := Constructed(w, fd);
    assert TaskAt(w, j, t);
    assert Count(v.loops[j], t) == Count(w.loops[j], t);
    if t.c < |w.conns| {
      OldPhases(w, fd, t.c);
    }
  }

  lemma AcceptKeeps(w: World, fd: int)
    requires Inv(w) && NameInv(w) && Enabled(w, Accept(fd))
    ensures Inv(Step(w, Accept(fd)))
  {
    var c := |w.conns|;
    var u := Constructed(w, fd);
    ConstructedConns(w, fd);
    ConstructedRegs(w, fd);
    ConstructedLoops(w, fd);
    ConstructedHasNoTasks(w, fd);
    ConstructedLeavesTasks(w, fd);
    assert ChanAt(u, c);
    assert u.loops[0] == w.loops[0].(reg := u.loops[0].reg);
    if ChosenLoop(w) == 0 {
      EstablishedKeeps(u, c);
      TaskSpent(u, ConnectEstablished(u, c), c);
    } else {
      QueuedKeeps(u, c);
    }
  }

  lemma QueuedKeeps(u: World, c: ConnId)
    requires Rest(u) && InPhase(u, c, Queued) && TasksBut(u, c) && At(u, 0, Dispatching)
    requires NoTasks(u, c)
    requires u.conns[c].loop < |u.loops|
    ensures Inv(QueueInLoop(u, 0, u.conns[c].loop, Established(c)))
  {
    var v := QueueInLoop(u, 0, u.conns[c].loop, Established(c));
    assert ConnAt(u, c);
    QueueInLoopKeeps(u, 0, u.conns[c].loop, Established(c));
    assert NameOf(v, c) == NameOf(u, c);
    TaskGained(u, v, c, u.conns[c].loop, Established(c));
  }

  // ---------- Every run ----------

  lemma StepKeeps(w: World, l: Label)
    requires Inv(w) && NameInv(w) && Enabled(w, l)
    ensures Inv(Step(w, l))
  {
    match l {
      case Return(j, active, wake) => ReturnKeeps(w, j, active, wake);
      case WakeRead(j) => WakeReadKeeps(w, j);
      case Accept(fd) => AcceptKeeps(w, fd);
      case Dispatch(j, m, eof) => DispatchKeeps(w, j, m, eof);
      case EndDispatch(j) => EndDispatchKeeps(w, j);
      case Execute(j) => ExecuteKeeps(w, j);
      case EndBatch(j) => EndBatchKeeps(w, j);
      case Wake(j) => WakeKeeps(w, j);
      case Shutdown(c) => ShutdownKeeps(w, c);
      case Writing(c, on) => WritingKeeps(w, c, on);
      case Post(c, work) => PostKeeps(w, c, work);
      case Free(c) => FreeKeeps(w, c);
    }
  }

  /** What no step takes back from connection c. */
  ghost predicate Onward(w: World, v: World, c: ConnId)
    requires c < |w.conns|
  {
    && c < |v.conns| && NameOf(v, c) == NameOf(w, c)
    && w.conns[c].ups <= v.conns[c].ups && w.conns[c].downs <= v.conns[c].downs
    && w.conns[c].destroys <= v.conns[c].destroys
    && (NameOf(w, c) in v.connections ==> NameOf(w, c) in w.connections)
  }

  lemma CloseOnward(w: World, d: ConnId, c: ConnId)
    requires Known(w, d) && c < |w.conns|
    ensures Onward(w, HandleClose(w, d), c)
  {
  }

  lemma TaskOnward(w: World, t: Task, c: ConnId)
    requires Known(w, t.c) && c < |w.conns|
    ensures Onward(w, RunTask(w, t), c)
  {
  }

  lemma AcceptOnward(w: World, fd: int, c: ConnId)
    requires NameInv(w) && Enabled(w, Accept(fd)) && c < |w.conns|
    ensures Onward(w, Step(w, Accept(fd)), c)
  {
    OldPhases(w, fd, c);
    var v := Step(w, Accept(fd));
    assert v.connections == w.connections[NewName(w) := |w.conns|];
  }

  /** Steps that are neither an accept, a dispatch nor a functor. */
  predicate Plain(l: Label) {
    !l.Accept? && !l.Dispatch? && !l.Execute?
  }

  lemma PlainOnward(w: World, l: Label, c: ConnId)
    requires Enabled(w, l) && Plain(l) && c < |w.conns|
    ensures Onward(w, Step(w, l), c)
  {
  }

  lemma StepOnward(w: World, l: Label, c: ConnId)
    requires NameInv(w) && Enabled(w, l) && c < |w.conns|
    ensures Onward(w, Step(w, l), c)
  {
    match l {
      case Accept(fd) => AcceptOnward(w, fd, c);
      case Dispatch(j, m, eof) =>
        var d := w.loops[j].active[0];
        CloseOnward(SetLoop(w, j, w.loops[j].(active := w.loops[j].active[1..])), d, c);
      case Execute(j) =>
        TaskOnward(Popped(w, j), w.loops[j].batch[w.loops[j].next], c);
      case _ => PlainOnward(w, l, c);
    }
  }

  ghost predicate SameFrame(w: World, v: World) {
    v.server == w.server && v.ipPort == w.ipPort && |v.conns| == |w.conns|
  }

  lemma CloseFrame(w: World, d: ConnId)
    requires Known(w, d)
    ensures SameFrame(w, HandleClose(w, d))
  {
  }

  lemma TaskFrame(w: World, t: Task)
    requires Known(w, t.c)
    ensures SameFrame(w, RunTask(w, t))
  {
  }

  lemma PlainFrame(w: World, l: Label)
    requires Enabled(w, l) && Plain(l)
    ensures SameFrame(w, Step(w, l))
  {
  }

  lemma StepFrame(w: World, l: Label)
    requires Enabled(w, l) && !l.Accept?
    ensures SameFrame(w, Step(w, l))
  {
    match l {
      case Dispatch(j, m, eof) =>
        CloseFrame(SetLoop(w, j, w.loops[j].(active := w.loops[j].active[1..])), w.loops[j].active[0]);
      case Execute(j) => TaskFrame(Popped(w, j), w.loops[j].batch[w.loops[j].next]);
      case _ => PlainFrame(w, l);
    }
  }

  lemma AcceptNames(w: World, fd: int)
    requires NameInv(w) && Enabled(w, Accept(fd))
    ensures NameInv(Step(w, Accept(fd)))
  {
    var v := Step(w, Accept(fd));
    forall c: ConnId | c < |v.conns| ensures NamedAt(v, c) {
      assert c < |w.conns| ==> NamedAt(w, c);
    }
  }

  lemma StepNames(w: World, l: Label)
    requires NameInv(w) && Enabled(w, l)
    ensures NameInv(Step(w, l))
  {
    if l.Accept? {
      AcceptNames(w, l.fd);
    } else {
      var v := Step(w, l);
      StepFrame(w, l);
      forall c: ConnId | c < |v.conns| ensures NamedAt(v, c) {
        assert NamedAt(w, c);
        StepOnward(w, l, c);
      }
    }
  }

  lemma StartInv(w: World)
    requires Start(w)
    ensures Inv(w) && NameInv(w)
  {
  }

  lemma FirstStep(w: World, run: seq<Label>) returns (v: World)
    requires Legal(w, run) && run != []
    ensures Enabled(w, run[0]) && v == Step(w, run[0])
    ensures Legal(v, run[1..]) && After(w, run) == After(v, run[1..])
  {
    v := Step(w, run[0]);
  }

  lemma Prepended(w: World, l: Label, v: World, run: seq<Label>)
    requires Enabled(w, l) && v == Step(w, l) && Legal(v, run)
    ensures Legal(w, [l] + run) && After(w, [l] + run) == After(v, run)
  {
    assert ([l] + run)[1..] == run;
  }

  /** The run leads from w to v. */
  ghost predicate Leads(w: World, run: seq<Label>, v: World) {
    Legal(w, run) && After(w, run) == v
  }

  lemma FirstLeads(w: World, run: seq<Label>, u: World) returns (l: Label, v: World, rest: seq<Label>)
    requires Leads(w, run, u) && run != []
    ensures run == [l] + rest && Enabled(w, l) && v == Step(w, l) && Leads(v, rest, u)
  {
    l, rest := run[0], run[1..];
    v := FirstStep(w, run);
  }

  lemma PrependedLeads(w: World, l: Label, v: World, run: seq<Label>, u: World)
    requires Enabled(w, l) && v == Step(w, l) && Leads(v, run, u)
    ensures Leads(w, [l] + run, u)
  {
    Prepended(w, l, v, run);
  }

  lemma {:induction false} LeadsOn(w: World, a: seq<Label>, u: World, b: seq<Label>, x: World)
    requires Leads(w, a, u) && Leads(u, b, x)
    ensures Leads(w, a + b, x)
    decreases |a|
  {
    if a == [] {
      assert a + b == b;
    } else {
      var l, v, rest := FirstLeads(w, a, u);
      LeadsOn(v, rest, u, b, x);
      PrependedLeads(w, l, v, rest + b, x);
      assert [l] + (rest + b) == a + b;
    }
  }

  lemma RunsCompose(w: World, a: seq<Label>, b: seq<Label>)
    requires Legal(w, a) && Legal(After(w, a), b)
    ensures Legal(w, a + b) && After(w, a + b) == After(After(w, a), b)
  {
    LeadsOn(w, a, After(w, a), b, After(After(w, a), b));
  }

  lemma {:induction false} RunKeeps(w: World, run: seq<Label>)
    requires Inv(w) && NameInv(w) && Legal(w, run)
    ensures Inv(After(w, run)) && NameInv(After(w, run))
    decreases |run|
  {
    if run != [] {
      StepKeeps(w, run[0]);
      StepNames(w, run[0]);
      RunKeeps(Step(w, run[0]), run[1..]);
    }
  }
}
