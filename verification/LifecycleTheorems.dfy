/** What the server guarantees in every interleaving of its loops. */
module LifecycleTheorems {
  import opened ConnectionState
  import opened Registration
  import opened ThreadPool
  import opened Lifecycle
  import opened LifecycleInvariants
  import opened LifecycleSteps

  /** A state some run of a freshly started server leads to. */
  ghost predicate Reachable(w: World) {
    exists s, run :: Start(s) && Legal(s, run) && After(s, run) == w
  }

  lemma ReachableInv(w: World)
    requires Reachable(w)
    ensures Inv(w) && NameInv(w)
  {
    var s, run :| Start(s) && Legal(s, run) && After(s, run) == w;
    StartInv(s);
    RunKeeps(s, run);
  }

  // ---------- One phase at a time ----------

  /** Of the three functors of connection c, t is queued once, on loop k, and the
      others nowhere. */
  ghost predicate OnlyTask(w: World, c: ConnId, k: LoopId, t: Task) {
    forall j: LoopId :: j < |w.loops| ==>
      && Count(w.loops[j], Established(c)) == (if j == k && t == Established(c) then 1 else 0)
      && Count(w.loops[j], RemoveInLoop(c)) == (if j == k && t == RemoveInLoop(c) then 1 else 0)
      && Count(w.loops[j], Destroyed(c)) == (if j == k && t == Destroyed(c) then 1 else 0)
  }

  ghost predicate InMap(w: World, c: ConnId)
    requires c < |w.conns|
  {
    NameOf(w, c) in w.connections && w.connections[NameOf(w, c)] == c
  }

  /** The phases told apart by where things are, with no look at state_. */
  ghost predicate Located(w: World, c: ConnId, p: Phase)
    requires Known(w, c)
  {
    var own := w.conns[c].loop;
    var reg := w.loops[own].reg;
    match p
    case Queued => OnlyTask(w, c, own, Established(c)) && InMap(w, c) && !HasChannel(reg, c) && !InKernel(reg, c)
    case Live => NoTasks(w, c) && InMap(w, c) && HasChannel(reg, c) && InKernel(reg, c)
    case Leaving => OnlyTask(w, c, 0, RemoveInLoop(c)) && InMap(w, c) && HasChannel(reg, c) && !InKernel(reg, c)
    case Detached => OnlyTask(w, c, own, Destroyed(c)) && !InMap(w, c) && HasChannel(reg, c) && !InKernel(reg, c)
    case Gone => NoTasks(w, c) && !InMap(w, c) && !HasChannel(reg, c) && !InKernel(reg, c)
  }

  lemma LocatedInPhase(w: World, c: ConnId)
    requires Inv(w) && c < |w.conns|
    ensures Known(w, c) && Located(w, c, PhaseOf(w, c))
  {
    assert ConnAt(w, c) && ChanAt(w, c) && RegAt(w, w.conns[c].loop);
    assert AgreeAt(RegOf(w, c), c);
    forall j: LoopId | j < |w.loops|
      ensures Count(w.loops[j], Established(c)) == Expected(w, j, Established(c))
      ensures Count(w.loops[j], RemoveInLoop(c)) == Expected(w, j, RemoveInLoop(c))
      ensures Count(w.loops[j], Destroyed(c)) == Expected(w, j, Destroyed(c))
    {
      assert TaskAt(w, j, Established(c)) && TaskAt(w, j, RemoveInLoop(c)) && TaskAt(w, j, Destroyed(c));
    }
    assert PhaseOf(w, c) == Live || PhaseOf(w, c) == Gone ==> forall j: LoopId :: j < |w.loops| ==> NoTasksAt(w, c, j);
  }

  /** Any two descriptions disagree about the map, the table or the kernel. */
  lemma PhasesDisjoint(w: World, c: ConnId, p: Phase, q: Phase)
    requires Known(w, c) && Located(w, c, p) && Located(w, c, q)
    ensures p == q
  {
  }

  /** In every interleaving each accepted connection is in exactly one phase. */
  lemma ExactlyOnePhase(w: World, c: ConnId)
    requires Reachable(w) && c < |w.conns|
    ensures Known(w, c) && forall p :: Located(w, c, p) <==> p == PhaseOf(w, c)
  {
    ReachableInv(w);
    LocatedInPhase(w, c);
    forall p ensures Located(w, c, p) <==> p == PhaseOf(w, c) {
      if Located(w, c, p) {
        PhasesDisjoint(w, c, p, PhaseOf(w, c));
      }
    }
  }

  // ---------- Order and number of callbacks ----------

  function PhaseRank(p: Phase): nat {
    match p
    case Queued => 0
    case Live => 1
    case Leaving => 2
    case Detached => 3
    case Gone => 4
  }

  lemma OnwardPhase(w: World, v: World, c: ConnId)
    requires ConnInv(w) && ConnInv(v) && c < |w.conns| && Onward(w, v, c)
    ensures PhaseRank(PhaseOf(w, c)) <= PhaseRank(PhaseOf(v, c))
  {
    assert ConnAt(w, c) && ConnAt(v, c);
    assert NameOf(w, c) in w.connections ==> EntryAt(w, NameOf(w, c));
    assert NameOf(v, c) in v.connections ==> EntryAt(v, NameOf(v, c));
  }

  lemma StepPhase(w: World, l: Label, c: ConnId) returns (v: World)
    requires Inv(w) && NameInv(w) && Enabled(w, l) && c < |w.conns|
    ensures v == Step(w, l) && Inv(v) && NameInv(v) && c < |v.conns|
    ensures PhaseRank(PhaseOf(w, c)) <= PhaseRank(PhaseOf(v, c))
  {
    v := Step(w, l);
    StepOnward(w, l, c);
    StepKeeps(w, l);
    StepNames(w, l);
    OnwardPhase(w, v, c);
  }

  /** A connection only moves on: queued, live, leaving, detached, gone. */
  lemma {:induction false} PhasesMoveForward(w: World, run: seq<Label>, c: ConnId)
    requires Inv(w) && NameInv(w) && Legal(w, run) && c < |w.conns|
    ensures c < |After(w, run).conns|
    ensures PhaseRank(PhaseOf(w, c)) <= PhaseRank(PhaseOf(After(w, run), c))
    decreases |run|
  {
    if run != [] {
      var v := StepPhase(w, run[0], c);
      PhasesMoveForward(v, run[1..], c);
    }
  }

  /** One UP, then one DOWN, then connectDestroyed, each at most once and only in
      that order. */
  lemma TeardownOnce(w: World, c: ConnId)
    requires Reachable(w) && c < |w.conns|
    ensures 1 >= w.conns[c].ups >= w.conns[c].downs >= w.conns[c].destroys
    ensures w.conns[c].destroys == 1 <==> PhaseOf(w, c) == Gone
    ensures w.conns[c].downs == 1 <==> w.conns[c].state == Disconnected
  {
    ReachableInv(w);
    assert ConnAt(w, c);
  }

  /** When connectDestroyed is about to run, the connection is disconnected and no
      channel of its loop is waiting to be dispatched. */
  lemma DestroyedAfterDispatch(w: World, j: LoopId)
    requires Reachable(w) && Enabled(w, Execute(j))
    requires w.loops[j].batch[w.loops[j].next].Destroyed?
    ensures var c := w.loops[j].batch[w.loops[j].next].c;
            && w.conns[c].state == Disconnected && w.conns[c].loop == j && w.loops[j].active == []
  {
    ReachableInv(w);
    PoppedTask(w, j, w.loops[j].batch[w.loops[j].next]);
    assert LoopAt(w, j);
  }

  /** Were it still up, as when a server is torn down, connectDestroyed would
      disconnect it, report DOWN and take its channel out of table and kernel. */
  lemma DestroyedWhileUp(w: World, c: ConnId)
    requires Reachable(w) && c < |w.conns| && w.conns[c].state == Connected
    ensures Known(w, c) && Known(ConnectDestroyed(w, c), c)
    ensures var v := ConnectDestroyed(w, c);
            && v.conns[c] == w.conns[c].(state := Disconnected, downs := 1, destroys := 1)
            && !HasChannel(RegOf(v, c), c) && !InKernel(RegOf(v, c), c) && RegOf(v, c).errors == 0
  {
    ReachableInv(w);
    assert ConnAt(w, c);
    FdIsFree(w, c);
    var p := RegOf(w, c);
    SetEventsKeepsAgreement(p, c, NO_INTEREST);
    UpdatedIsFree(p, c, NO_INTEREST);
    RemoveKeepsAgreement(SetEvents(p, c, NO_INTEREST), c);
    RemovedIsGone(SetEvents(p, c, NO_INTEREST), c);
  }

  // ---------- Nothing dangles ----------

  ghost predicate Alive(w: World, c: ConnId) {
    c < |w.conns| && !w.conns[c].freed && Referenced(w, c)
  }

  lemma AliveUntilGone(w: World, c: ConnId)
    requires Inv(w) && c < |w.conns| && PhaseOf(w, c) != Gone
    ensures Alive(w, c)
  {
    assert ConnAt(w, c);
    ReferencedUntilGone(w, c);
  }

  /** Every channel in a table, in an interest set or still undispatched belongs to
      a connection that something keeps alive. */
  lemma NoDanglingChannel(w: World, j: LoopId)
    requires Reachable(w) && j < |w.loops|
    ensures forall fd :: fd in w.loops[j].reg.table ==> Alive(w, w.loops[j].reg.table[fd])
    ensures forall fd :: fd in w.loops[j].reg.kernel ==> Alive(w, w.loops[j].reg.kernel[fd].channel)
    ensures forall i :: 0 <= i < |w.loops[j].active| ==> Alive(w, w.loops[j].active[i])
  {
    ReachableInv(w);
    var reg := w.loops[j].reg;
    assert RegAt(w, j) && ActiveAt(w, j);
    forall fd | fd in reg.table ensures Alive(w, reg.table[fd]) {
      assert TableAt(reg, fd);
      var c := reg.table[fd];
      assert AgreeAt(reg, c) && ChanAt(w, c);
      AliveUntilGone(w, c);
    }
    forall fd | fd in reg.kernel ensures Alive(w, reg.kernel[fd].channel) {
      assert KernelAt(reg, fd);
      var c := reg.kernel[fd].channel;
      assert ChanAt(w, c);
      AliveUntilGone(w, c);
    }
    forall i | 0 <= i < |w.loops[j].active| ensures Alive(w, w.loops[j].active[i]) {
      AliveUntilGone(w, w.loops[j].active[i]);
    }
  }

  /** A descriptor number is in at most one table of the whole server, and names
      the connection that holds it open: reuse of a number cannot mix them up. */
  lemma FdInOneTable(w: World, i: LoopId, j: LoopId, fd: int)
    requires Reachable(w) && i < |w.loops| && j < |w.loops|
    requires fd in w.loops[i].reg.table && fd in w.loops[j].reg.table
    ensures i == j
    ensures w.loops[i].reg.table[fd] < |w.conns| && w.conns[w.loops[i].reg.table[fd]].fd == fd
  {
    NoDanglingChannel(w, i);
    NoDanglingChannel(w, j);
    ReachableInv(w);
    assert RegAt(w, i) && RegAt(w, j);
    assert TableAt(w.loops[i].reg, fd) && TableAt(w.loops[j].reg, fd);
    var a, b := w.loops[i].reg.table[fd], w.loops[j].reg.table[fd];
    assert ChanAt(w, a) && ChanAt(w, b) && Apart(w, a, b);
  }

  /** When a connection is freed, and its descriptor closed, its channel has left
      the table and the interest set of its loop. */
  lemma FreedAfterRemoval(w: World, c: ConnId)
    requires Reachable(w) && Enabled(w, Free(c))
    ensures Known(w, c) && !HasChannel(RegOf(w, c), c) && !InKernel(RegOf(w, c), c)
    ensures forall j: LoopId :: j < |w.loops| ==> c !in w.loops[j].active
    ensures w.conns[c].ups == w.conns[c].downs == w.conns[c].destroys == 1
    ensures Step(w, Free(c)) == w.(conns := w.conns[c := w.conns[c].(freed := true)])
  {
    ReachableInv(w);
    ReferencedUntilGone(w, c);
    LocatedInPhase(w, c);
    assert ConnAt(w, c);
    forall j: LoopId | j < |w.loops| ensures c !in w.loops[j].active {
      assert ActiveAt(w, j);
    }
  }

  /** epoll_ctl is never refused, on any loop. */
  lemma PollersAgree(w: World, j: LoopId)
    requires Reachable(w) && j < |w.loops|
    ensures Agree(w.loops[j].reg) && w.loops[j].reg.errors == 0
  {
    ReachableInv(w);
    assert RegAt(w, j);
  }

  // ---------- Wakeups, names, placement ----------

  /** A loop blocked in poll with functors queued has been notified, or another
      thread stands between its push and its wakeup: no step of a connection's
      life is left behind. */
  lemma NoStrandedFunctor(w: World, j: LoopId)
    requires Reachable(w) && j < |w.loops| && w.loops[j].pc == Polling && w.loops[j].pending != []
    ensures w.loops[j].counter > 0 || exists i :: Owing(w, i, j) && i != j
  {
    ReachableInv(w);
    assert WakeAt(w, j);
    if w.loops[j].counter == 0 {
      var i :| Owing(w, i, j);
      assert LoopAt(w, i);
    }
  }

  /** A new connection never takes the name of one in the map. */
  lemma NameIsNew(w: World, fd: int)
    requires Reachable(w) && Enabled(w, Accept(fd))
    ensures NewName(w) !in w.connections
    ensures forall c :: 0 <= c < |w.conns| ==> NameOf(w, c) != NewName(w)
  {
    ReachableInv(w);
    forall c | 0 <= c < |w.conns| ensures NameOf(w, c) != NewName(w) {
      OldPhases(w, fd, c);
    }
    forall n | n in w.connections ensures n != NewName(w) {
      assert EntryAt(w, n);
    }
  }

  lemma PlacedRoundRobin(w: World, c: ConnId)
    requires Reachable(w) && c < |w.conns|
    ensures |w.loops| > 0 && w.conns[c].loop == LoopFor(|w.loops| - 1, c) < |w.loops|
  {
    ReachableInv(w);
    assert ConnAt(w, c);
  }

  /** The step is one of loop j's own thread. */
  predicate OfLoop(l: Label, j: LoopId) {
    match l
    case Return(i, _, _) => i == j
    case WakeRead(i) => i == j
    case Dispatch(i, _, _) => i == j
    case EndDispatch(i) => i == j
    case Execute(i) => i == j
    case EndBatch(i) => i == j
    case Wake(i) => i == j
    case _ => false
  }

  /** Every loop always has a step to take: none is held up by another, nor by a
      guard that speaks of known connections. */
  lemma NeverStuck(w: World, j: LoopId) returns (l: Label)
    requires Reachable(w) && j < |w.loops|
    ensures Enabled(w, l) && OfLoop(l, j)
  {
    ReachableInv(w);
    assert ActiveAt(w, j) && QueueAt(w, j) && LoopAt(w, j);
    var m := w.loops[j];
    if m.owes != Nobody {
      l := Wake(j);
    } else if m.pc == Polling {
      l := Return(j, [], false);
    } else if m.pc == Dispatching {
      l := if m.wake then WakeRead(j) else if m.active == [] then EndDispatch(j) else Dispatch(j, NO_REVENTS, false);
      assert m.active != [] ==> ChanAt(w, m.active[0]);
    } else {
      l := if m.next < |m.batch| then Execute(j) else EndBatch(j);
      assert m.next < |m.batch| ==> RefersTo(w, j, m.batch[m.next]) && ChanAt(w, m.batch[m.next].c);
    }
  }

  /** A closed channel that is closed again goes back into the kernel. */
  lemma ClosedAgain(w: World, c: ConnId)
    requires Inv(w) && c < |w.conns| && PhaseOf(w, c) == Leaving
    ensures Known(w, c) && Known(Closed(w, c), c) && InKernel(RegOf(Closed(w, c), c), c)
  {
    assert ConnAt(w, c) && ChanAt(w, c);
    PollerSets(w, c, NO_INTEREST);
    assert AgreeAt(SetEvents(RegOf(w, c), c, NO_INTEREST), c);
  }

  /** Why one close to a dispatch matters: closing a connection a second time
      queues its removal a second time and puts its channel back into the kernel,
      with an empty mask. */
  lemma SecondCloseReregisters(w: World, c: ConnId)
    requires Inv(w) && c < |w.conns| && PhaseOf(w, c) == Leaving && w.conns[c].loop != 0
    ensures Known(w, c)
    ensures Count(HandleClose(w, c).loops[0], RemoveInLoop(c)) == 2
    ensures Known(HandleClose(w, c), c) && InKernel(RegOf(HandleClose(w, c), c), c)
  {
    ClosedAgain(w, c);
    assert ConnAt(w, c) && TaskAt(w, 0, RemoveInLoop(c));
    var u := Closed(w, c);
    assert Count(u.loops[0], RemoveInLoop(c)) == 1;
    PushCounts(u.loops[0], RemoveInLoop(c), RemoveInLoop(c));
  }
}
