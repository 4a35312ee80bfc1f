/** TcpServer as an object over its thread pool and the EventLoop objects.  Beside
    its own fields it carries, as ghost state, the Lifecycle.World they belong to;
    every method is a legal run of Lifecycle and keeps what holds of its reachable
    states. */
module TcpServerObject {
  import opened ConnectionState
  import opened Registration
  import opened ThreadPool
  import opened Names
  import opened Lifecycle
  import opened LifecycleInvariants
  import opened LifecycleSteps
  import opened LoopProjection
  import opened EventLoopObject
  import P = LoopProtocol

  /** What the server asks of a TcpConnectionPtr: name() and getLoop(). */
  datatype Ptr = Ptr(id: ConnId, name: string, loop: LoopId)

  ghost predicate IsPtr(p: Ptr, w: World) {
    p.id < |w.conns| && p.name == w.conns[p.id].name && p.loop == w.conns[p.id].loop
  }

  /** connections_ holds the connections of the map of the world. */
  ghost predicate MapMatches(connections: map<string, Ptr>, w: World) {
    && connections.Keys == w.connections.Keys
    && forall n :: n in connections ==> IsPtr(connections[n], w) && connections[n].id == w.connections[n]
  }

  lemma ErasedMatches(connections: map<string, Ptr>, w: World, v: World, name: string)
    requires MapMatches(connections, w) && SameConns(w, v) && v.connections == w.connections - {name}
    ensures MapMatches(connections - {name}, v)
  {
  }

  lemma KeptMatches(connections: map<string, Ptr>, w: World, v: World)
    requires MapMatches(connections, w) && SameConns(w, v) && v.connections == w.connections
    ensures MapMatches(connections, v)
  {
  }

  lemma EnteredMatches(connections: map<string, Ptr>, w: World, v: World, p: Ptr)
    requires MapMatches(connections, w) && AcceptedAs(w, v, p)
    ensures MapMatches(connections[p.name := p], v) && p.name !in connections
  {
  }

  // ---------- A push and its wakeup ----------

  /** Loop k has one more functor, and has been told if `wake`. */
  ghost predicate Announced(w: World, v: World, k: LoopId, t: Task, wake: bool) {
    && k < |w.loops| && |v.loops| == |w.loops|
    && SameLoops(w.(loops := w.loops[k := Told(w.loops[k], t, wake)]), v)
  }

  function Told(l: LoopState, t: Task, wake: bool): LoopState {
    l.(pending := l.pending + [t], counter := if wake then P.Bump(l.counter) else l.counter)
  }

  lemma PushedAndWoken(w: World, x: World, j: LoopId, k: LoopId, t: Task)
    requires SameLoops(w, x) && j < |w.loops| && k < |w.loops| && x.loops[j].owes == Nobody
    ensures var u := Lifecycle.QueueInLoop(x, j, k, t);
            if j != k || w.loops[j].pc == Running
            then Enabled(u, Wake(j)) && Announced(w, Step(u, Wake(j)), k, t, true)
            else Announced(w, u, k, t, false)
  {
  }

  lemma AnnouncedFollows(w: World, v: World, k: LoopId, t: Task, wake: bool, i: LoopId, s: Protocol)
    requires Follows(w, i, s) && Announced(w, v, k, t, wake)
    ensures Follows(v, i, if i != k then s else
              s.(pending := v.loops[k].pending, log := s.log + [t], counter := v.loops[k].counter))
  {
    var u := w.(loops := w.loops[k := Told(w.loops[k], t, wake)]);
    assert forall n: LoopId :: Owing(w, n, i) <==> Owing(u, n, i);
    SameFollows(u, v, i, if i != k then s else
      s.(pending := v.loops[k].pending, log := s.log + [t], counter := v.loops[k].counter));
  }

  lemma OneStep(w: World, l: Label, v: World)
    requires Inv(w) && NameInv(w) && Enabled(w, l) && v == Step(w, l)
    ensures Legal(w, [l]) && After(w, [l]) == v && Inv(v) && NameInv(v)
  {
    StepKeeps(w, l);
    StepNames(w, l);
    assert Legal(v, []) && After(v, []) == v;
    Prepended(w, l, v, []);
    assert [l] + [] == [l];
  }

  lemma TwoSteps(w: World, l: Label, u: World, m: Label, v: World)
    requires Inv(w) && NameInv(w) && Enabled(w, l) && u == Step(w, l) && Enabled(u, m) && v == Step(u, m)
    ensures Legal(w, [l, m]) && After(w, [l, m]) == v && Inv(v) && NameInv(v)
  {
    OneStep(w, l, u);
    OneStep(u, m, v);
    RunsCompose(w, [l], [m]);
  }

  /** What accepting does to the records of the server, and to the loops. */
  ghost predicate AcceptedAs(w: World, v: World, p: Ptr) {
    && v.server == w.server && v.ipPort == w.ipPort
    && |v.conns| == |w.conns| + 1 && p.id == |w.conns|
    && (forall c :: 0 <= c < |w.conns| ==> v.conns[c] == w.conns[c])
    && v.conns[p.id].name == p.name && v.conns[p.id].loop == p.loop
    && v.connections == w.connections[p.name := p.id] && p.name !in w.connections
    && |v.loops| == |w.loops|
    && (if p.loop == 0 then SameLoops(w, v) else Announced(w, v, p.loop, Established(p.id), true))
  }

  lemma NewNameIsNew(w: World, fd: int)
    requires Inv(w) && NameInv(w) && Enabled(w, Accept(fd))
    ensures NewName(w) !in w.connections
  {
    if NewName(w) in w.connections {
      var c := w.connections[NewName(w)];
      assert EntryAt(w, NewName(w));
      OldPhases(w, fd, c);
    }
  }

  lemma AcceptShape(w: World, fd: int, p: Ptr) returns (u: World, v: World)
    requires Inv(w) && NameInv(w) && Enabled(w, Accept(fd))
    requires p == Ptr(|w.conns|, NewName(w), ChosenLoop(w))
    ensures u == Step(w, Accept(fd)) && v.nextLoop == AdvancedNext(w) && AcceptedAs(w, v, p)
    ensures if p.loop == 0 then v == u else Enabled(u, Wake(0)) && v == Step(u, Wake(0))
  {
    u := Step(w, Accept(fd));
    v := u;
    NewNameIsNew(w, fd);
    var x := Constructed(w, fd);
    assert SameLoops(w, x);
    if p.loop != 0 {
      PushedAndWoken(w, x, 0, p.loop, Established(p.id));
      v := Step(u, Wake(0));
    }
  }

  lemma AcceptedWorld(w: World, fd: int, p: Ptr) returns (v: World, run: seq<Label>)
    requires Inv(w) && NameInv(w) && Enabled(w, Accept(fd))
    requires p == Ptr(|w.conns|, NewName(w), ChosenLoop(w))
    ensures run == (if p.loop == 0 then [Accept(fd)] else [Accept(fd), Wake(0)])
    ensures Legal(w, run) && v == After(w, run) && Inv(v) && NameInv(v)
    ensures v.nextLoop == AdvancedNext(w) && AcceptedAs(w, v, p)
  {
    var u;
    u, v := AcceptShape(w, fd, p);
    if p.loop == 0 {
      run := [Accept(fd)];
      OneStep(w, Accept(fd), u);
    } else {
      run := [Accept(fd), Wake(0)];
      TwoSteps(w, Accept(fd), u, Wake(0), v);
    }
  }

  // ---------- Removing a connection ----------

  /** The step of the base loop in which removeConnectionInLoop(p) runs: as a
      functor, or called by a dispatch that closes p. */
  ghost predicate Removes(w: World, l: Label, p: Ptr) {
    && Enabled(w, l) && IsPtr(p, w)
    && match l
       case Execute(j) => j == 0 && w.loops[0].batch[w.loops[0].next] == RemoveInLoop(p.id)
       case Dispatch(j, m, eof) => j == 0 && w.loops[0].active[0] == p.id && Closes(m, eof)
       case _ => false
  }

  /** The world in which it is called. */
  ghost function CalledIn(w: World, l: Label): World
    requires Enabled(w, l)
  {
    if l.Execute? then Popped(w, l.j) else w
  }

  ghost predicate SameConns(w: World, v: World) {
    && v.server == w.server && v.ipPort == w.ipPort && v.nextLoop == w.nextLoop
    && |v.conns| == |w.conns|
    && forall c :: 0 <= c < |w.conns| ==> v.conns[c].name == w.conns[c].name && v.conns[c].loop == w.conns[c].loop
  }

  /** What removeConnectionInLoop(p), called in world x, leads to. */
  ghost predicate RemovedAs(x: World, v: World, p: Ptr) {
    && SameConns(x, v) && v.connections == x.connections - {p.name}
    && AtLarge(x, 0) && p.loop < |x.loops|
    && Announced(x, v, p.loop, Destroyed(p.id), Wakes(x, 0, p.loop))
  }

  /** The thread of loop j can push a functor ... */
  ghost predicate AtLarge(w: World, j: LoopId) {
    j < |w.loops| && w.loops[j].pc != Polling && w.loops[j].owes == Nobody
  }

  /** ... and if it does so on loop k, wakes it. */
  ghost predicate Wakes(w: World, j: LoopId, k: LoopId)
    requires k < |w.loops|
  {
    j != k || w.loops[k].pc == Running
  }

  lemma LeavingFunctor(w: World, p: Ptr)
    requires Inv(w) && Removes(w, Execute(0), p)
    ensures w.conns[p.id].destroys == 0 && p.loop < |w.loops| && Known(w, p.id)
  {
    assert ConnAt(w, p.id);
    PoppedTask(w, 0, RemoveInLoop(p.id));
    assert EntryAt(w, p.name);
  }

  /** The world in which the functor pushes. */
  lemma FunctorErases(w: World, p: Ptr) returns (x: World)
    requires Inv(w) && Removes(w, Execute(0), p)
    ensures x == Popped(w, 0).(connections := w.connections - {p.name})
    ensures Step(w, Execute(0)) == Lifecycle.QueueInLoop(x, 0, p.loop, Destroyed(p.id))
    ensures p.loop < |w.loops| && x.conns[p.id].destroys == 0
  {
    LeavingFunctor(w, p);
    x := Popped(w, 0).(connections := w.connections - {p.name});
  }

  lemma FunctorRemoves(w: World, p: Ptr) returns (u: World, v: World)
    requires Inv(w) && Removes(w, Execute(0), p)
    ensures u == Step(w, Execute(0)) && Enabled(u, Wake(0)) && v == Step(u, Wake(0))
    ensures RemovedAs(CalledIn(w, Execute(0)), v, p) && v.conns[p.id].destroys == 0
  {
    var x := FunctorErases(w, p);
    u := Lifecycle.QueueInLoop(x, 0, p.loop, Destroyed(p.id));
    PushedAndWoken(Popped(w, 0), x, 0, p.loop, Destroyed(p.id));
    v := Step(u, Wake(0));
  }

  lemma DispatchRemoves(w: World, m: Revents, eof: bool, p: Ptr) returns (v: World)
    requires Inv(w) && Removes(w, Dispatch(0, m, eof), p)
    ensures v == Step(w, Dispatch(0, m, eof)) && RemovedAs(w, v, p)
    ensures v.conns[p.id].destroys == 0
  {
    assert ActiveAt(w, 0) && ConnAt(w, p.id);
    var u := Closed(SetLoop(w, 0, w.loops[0].(active := w.loops[0].active[1..])), p.id);
    var x := u.(connections := w.connections - {p.name});
    assert SameLoops(w, x);
    v := Step(w, Dispatch(0, m, eof));
    PushedAndWoken(w, x, 0, 0, Destroyed(p.id));
  }

  lemma RemovedWorld(w: World, l: Label, p: Ptr) returns (v: World, run: seq<Label>)
    requires Inv(w) && NameInv(w) && Removes(w, l, p)
    ensures run == (if l.Execute? then [l, Wake(0)] else [l])
    ensures Legal(w, run) && v == After(w, run) && Inv(v) && NameInv(v)
    ensures RemovedAs(CalledIn(w, l), v, p) && p.id < |v.conns| && PhaseOf(v, p.id) == Detached
  {
    if l.Execute? {
      var u;
      run := [l, Wake(0)];
      u, v := FunctorRemoves(w, p);
      TwoSteps(w, l, u, Wake(0), v);
    } else {
      run := [l];
      v := DispatchRemoves(w, l.m, l.eof, p);
      OneStep(w, l, v);
    }
    DetachedNow(v, p);
  }

  lemma DetachedNow(v: World, p: Ptr)
    requires Inv(v) && p.id < |v.conns| && v.conns[p.id].name == p.name && p.name !in v.connections
    requires v.conns[p.id].destroys == 0
    ensures PhaseOf(v, p.id) == Detached
  {
    assert ConnAt(v, p.id);
  }

  /** Connection p is closed by the next dispatch of its loop. */
  ghost predicate Closing(w: World, p: Ptr, m: Revents, eof: bool) {
    && Enabled(w, Dispatch(p.loop, m, eof)) && Closes(m, eof)
    && w.loops[p.loop].active[0] == p.id
  }

  ghost predicate LeavesAs(w: World, v: World, p: Ptr) {
    && SameConns(w, v) && v.connections == w.connections
    && Announced(w, v, 0, RemoveInLoop(p.id), true)
  }

  lemma ClosedShape(w: World, m: Revents, eof: bool, p: Ptr) returns (x: World)
    requires Inv(w) && Closing(w, p, m, eof) && p.loop != 0
    ensures SameLoops(w, x) && SameConns(w, x) && x.connections == w.connections
    ensures p.id < |x.conns| && x.conns[p.id].state == Disconnected
    ensures Step(w, Dispatch(p.loop, m, eof)) == Lifecycle.QueueInLoop(x, p.loop, 0, RemoveInLoop(p.id))
  {
    assert ActiveAt(w, p.loop);
    x := Closed(SetLoop(w, p.loop, w.loops[p.loop].(active := w.loops[p.loop].active[1..])), p.id);
  }

  lemma LeavingShape(w: World, m: Revents, eof: bool, p: Ptr) returns (u: World, v: World)
    requires Inv(w) && Closing(w, p, m, eof) && p.loop != 0
    ensures u == Step(w, Dispatch(p.loop, m, eof)) && Enabled(u, Wake(p.loop)) && v == Step(u, Wake(p.loop))
    ensures LeavesAs(w, v, p) && p.id < |v.conns| && v.conns[p.id].state == Disconnected
  {
    var x := ClosedShape(w, m, eof, p);
    u := Lifecycle.QueueInLoop(x, p.loop, 0, RemoveInLoop(p.id));
    PushedAndWoken(w, x, p.loop, 0, RemoveInLoop(p.id));
    v := Step(u, Wake(p.loop));
  }

  lemma LeavingWorld(w: World, m: Revents, eof: bool, p: Ptr) returns (v: World, run: seq<Label>)
    requires Inv(w) && NameInv(w) && Closing(w, p, m, eof) && p.loop != 0
    ensures run == [Dispatch(p.loop, m, eof), Wake(p.loop)]
    ensures Legal(w, run) && v == After(w, run) && Inv(v) && NameInv(v) && LeavesAs(w, v, p)
    ensures p.id < |v.conns| && PhaseOf(v, p.id) == Leaving
  {
    var u;
    run := [Dispatch(p.loop, m, eof), Wake(p.loop)];
    u, v := LeavingShape(w, m, eof, p);
    TwoSteps(w, Dispatch(p.loop, m, eof), u, Wake(p.loop), v);
    StillInMap(w, v, p.loop, p.id);
  }

  lemma StillInMap(w: World, v: World, j: LoopId, c: ConnId)
    requires Inv(w) && SameConns(w, v) && v.connections == w.connections
    requires j < |w.loops| && w.loops[j].active != [] && w.loops[j].active[0] == c
    requires c < |v.conns| && v.conns[c].state == Disconnected
    ensures PhaseOf(v, c) == Leaving
  {
    assert ActiveAt(w, j) && ConnAt(w, c);
  }

  class TcpServer {
    const name: string
    const ipPort: string
    const threadPool: EventLoopThreadPool
    const loops: seq<EventLoop<Task>>     // base loop first
    var nextConnId: nat
    var connections: map<string, Ptr>
    ghost var world: World

    /** The server's own records are those of the world. */
    ghost predicate Recorded()
      reads this, threadPool
    {
      && threadPool.Valid() && threadPool.calls == |world.conns| && threadPool.next == world.nextLoop
      && |loops| == |threadPool.loops| + 1 == |world.loops|
      && nextConnId == |world.conns| + 1 && world.server == name && world.ipPort == ipPort
      && MapMatches(connections, world)
    }

    /** The loops stand where the world says. */
    ghost predicate Attached()
      reads this, loops
    {
      && |loops| == |world.loops|
      && (forall i, j :: 0 <= i < j < |loops| ==> loops[i] != loops[j])
      && forall j: LoopId :: j < |loops| ==> loops[j].Valid() && Follows(world, j, loops[j].st)
    }

    ghost predicate Valid()
      reads this, threadPool, loops
    {
      Recorded() && Attached() && Inv(world) && NameInv(world)
    }

    constructor (name: string, ipPort: string, loops: seq<EventLoop<Task>>)
      requires |ipPort| <= 21 && |loops| > 0
      requires forall i, j :: 0 <= i < j < |loops| ==> loops[i] != loops[j]
      requires forall j: LoopId :: j < |loops| ==>
                 loops[j].Valid() && Follows(Started(name, ipPort, |loops|), j, loops[j].st)
      ensures Valid() && Start(world) && fresh(threadPool) && this.loops == loops
    {
      this.name, this.ipPort, this.loops := name, ipPort, loops;
      threadPool := new EventLoopThreadPool(|loops| - 1);
      nextConnId, connections := 1, map[];
      world := Started(name, ipPort, |loops|);
      new;
      StartInv(world);
    }

    /** Names the connection, enters it in the map under a name nobody has, and has
        its loop establish it.  On the base loop that is done at once, by the
        connection itself. */
    method NewConnection(fd: int) returns (p: Ptr, ghost run: seq<Label>)
      requires Valid() && Enabled(world, Accept(fd))
      modifies this, threadPool, loops
      ensures Valid() && Legal(old(world), run) && world == After(old(world), run)
      ensures run == (if p.loop == 0 then [Accept(fd)] else [Accept(fd), Wake(0)])
      ensures p.name !in old(connections) && connections == old(connections)[p.name := p]
      ensures p == Ptr(old(nextConnId) - 1, ConnName(name, ipPort, old(nextConnId)),
                       LoopFor(|threadPool.loops|, old(nextConnId) - 1))
      ensures forall i :: 0 <= i < |loops| ==>
                loops[i].pendingFunctors ==
                  old(loops[i].pendingFunctors) + (if i == p.loop && i != 0 then [Task.Established(p.id)] else [])
    {
      p := Number();
      ghost var v;
      v, run := AcceptedWorld(world, fd, p);
      Enter(p, v);
    }

    /** The next loop, number and name. */
    method Number() returns (p: Ptr)
      requires Recorded() && Inv(world)
      modifies this`nextConnId, threadPool
      ensures threadPool.Valid() && threadPool.calls == |world.conns| + 1 && threadPool.next == AdvancedNext(world)
      ensures nextConnId == old(nextConnId) + 1
      ensures p == Ptr(|world.conns|, NewName(world), ChosenLoop(world))
      ensures p.loop == LoopFor(|threadPool.loops|, p.id)
    {
      Advances(world);
      var ioLoop := threadPool.GetNextLoop();
      p := Ptr(nextConnId - 1, ConnName(name, ipPort, nextConnId), ioLoop);
      nextConnId := nextConnId + 1;
    }

    method Enter(p: Ptr, ghost v: World)
      requires Attached() && |loops| > 0 && At(world, 0, Dispatching) && AcceptedAs(world, v, p) && p.loop < |loops|
      requires MapMatches(connections, world)
      modifies this`world, this`connections, loops
      ensures Attached() && world == v && MapMatches(connections, v)
      ensures p.name !in old(connections) && connections == old(connections)[p.name := p]
      ensures forall i :: 0 <= i < |loops| ==>
                loops[i].pendingFunctors ==
                  old(loops[i].pendingFunctors) + (if i == p.loop && i != 0 then [Task.Established(p.id)] else [])
    {
      EnteredMatches(connections, world, v, p);
      connections := connections[p.name := p];
      Established(p, v);
    }

    /** runInLoop(connectEstablished) of the connection's loop, from the base loop. */
    method Established(p: Ptr, ghost v: World)
      requires Attached() && |loops| > 0 && At(world, 0, Dispatching) && AcceptedAs(world, v, p) && p.loop < |loops|
      modifies this`world, loops
      ensures Attached() && world == v
      ensures forall i :: 0 <= i < |loops| ==>
                loops[i].pendingFunctors ==
                  old(loops[i].pendingFunctors) + (if i == p.loop && i != 0 then [Task.Established(p.id)] else [])
    {
      if p.loop != 0 {
        QueueInLoop(0, p.loop, Task.Established(p.id), v);
      } else {
        ghost var w := world;
        world := v;
        forall i: LoopId | i < |loops| ensures Follows(v, i, loops[i].st) {
          SameFollows(w, v, i, loops[i].st);
        }
      }
    }

    /** In step l of the base loop: the connection leaves the map, and its loop is
        asked to destroy it, even when that is the base loop itself. */
    method RemoveConnectionInLoop(p: Ptr, ghost l: Label) returns (ghost run: seq<Label>)
      requires Valid() && Removes(world, l, p)
      modifies this, loops
      ensures Valid() && Legal(old(world), run) && world == After(old(world), run)
      ensures run == if l.Execute? then [l, Wake(0)] else [l]
      ensures connections == old(connections) - {p.name}
      ensures forall i :: 0 <= i < |loops| ==>
                loops[i].pendingFunctors ==
                  old(loops[i].pendingFunctors) + (if i == p.loop then [Destroyed(p.id)] else [])
      ensures p.id < |world.conns| && PhaseOf(world, p.id) == Detached
    {
      ghost var v;
      v, run := RemovedWorld(world, l, p);
      Begin(l);
      Erase(p, v);
    }

    method Erase(p: Ptr, ghost v: World)
      requires Recorded() && Attached() && RemovedAs(world, v, p)
      modifies this`world, this`connections, loops
      ensures Recorded() && Attached() && world == v && connections == old(connections) - {p.name}
      ensures forall i :: 0 <= i < |loops| ==>
                loops[i].pendingFunctors ==
                  old(loops[i].pendingFunctors) + (if i == p.loop then [Destroyed(p.id)] else [])
    {
      ErasedMatches(connections, world, v, p.name);
      connections := connections - {p.name};
      QueueInLoop(0, p.loop, Destroyed(p.id), v);
    }

    /** The base loop takes the functor of step l from its batch. */
    ghost method Begin(l: Label)
      requires Recorded() && Attached() && LoopInv(world) && Enabled(world, l)
      requires |loops| > 0 && (l.Execute? ==> l.j == 0)
      modifies this`world, loops
      ensures Recorded() && Attached() && world == CalledIn(old(world), l)
      ensures forall i :: 0 <= i < |loops| ==> loops[i].pendingFunctors == old(loops[i].pendingFunctors)
    {
      if l.Execute? {
        var w := world;
        assert Follows(w, 0, loops[0].st);
        loops[0].Take(P.Execute);
        world := Popped(w, 0);
        forall i: LoopId | i < |loops| ensures loops[i].Valid() && Follows(world, i, loops[i].st) {
          ExecuteFollows(w, 0, i, old(loops[i].st));
        }
      }
    }

    /** closeCallback_, in the dispatch that closes p on its own loop: the map
        belongs to the base loop. */
    method RemoveConnection(p: Ptr, ghost m: Revents, ghost eof: bool) returns (ghost run: seq<Label>)
      requires Valid() && IsPtr(p, world) && Closing(world, p, m, eof)
      modifies this, loops
      ensures Valid() && Legal(old(world), run) && world == After(old(world), run)
      ensures run == (if p.loop == 0 then [Dispatch(0, m, eof)] else [Dispatch(p.loop, m, eof), Wake(p.loop)])
      ensures connections == if p.loop == 0 then old(connections) - {p.name} else old(connections)
      ensures forall i :: 0 <= i < |loops| ==>
                loops[i].pendingFunctors == old(loops[i].pendingFunctors)
                  + (if i == 0 then [if p.loop == 0 then Destroyed(p.id) else RemoveInLoop(p.id)] else [])
      ensures p.id < |world.conns| && PhaseOf(world, p.id) == if p.loop == 0 then Detached else Leaving
    {
      if p.loop == 0 {
        run := RemoveConnectionInLoop(p, Dispatch(0, m, eof));
      } else {
        ghost var w := world;
        ghost var v;
        v, run := LeavingWorld(w, m, eof, p);
        KeptMatches(connections, w, v);
        QueueInLoop(p.loop, 0, RemoveInLoop(p.id), v);
      }
    }

    /** queueInLoop of loop k, from the thread of loop j, in the world v that this
        makes of the old one. */
    method QueueInLoop(j: LoopId, k: LoopId, t: Task, ghost v: World)
      requires Attached() && j < |loops| && k < |loops|
      requires AtLarge(world, j) && |loops| == |world.loops| && Announced(world, v, k, t, Wakes(world, j, k))
      modifies this`world, loops[k]
      ensures Attached() && world == v
      ensures forall i :: 0 <= i < |loops| ==>
                loops[i].pendingFunctors == old(loops[i].pendingFunctors) + (if i == k then [t] else [])
    {
      ghost var w := world;
      ghost var _ := loops[k].QueueInLoop(if j == k then LoopThread else Caller.Other(j), t);
      world := v;
      forall i: LoopId | i < |loops| ensures loops[i].Valid() && Follows(v, i, loops[i].st) {
        AnnouncedFollows(w, v, k, t, Wakes(w, j, k), i, old(loops[i].st));
      }
    }
  }

  /** The world of a server whose loops have just begun to poll. */
  ghost function Started(name: string, ipPort: string, n: nat): World {
    World(name, ipPort, 0,
          seq(n, i => LoopState(Polling, [], false, [], [], 0, 0, Nobody, Poll.Poll(map[], map[], map[], 0))),
          [], map[])
  }
}
