/** Each loop of the server follows LoopProtocol: its functors are executed once,
    in the order they were pushed, and each batch is the snapshot of a swap. */
module LoopProjection {
  import opened Registration
  import opened ThreadPool
  import opened Lifecycle
  import opened LifecycleInvariants
  import opened LifecycleSteps
  import P = LoopProtocol

  type Protocol = P.State<Task>

  // ---------- What a step means for one loop ----------

  datatype Pushed = Nothing | Pushed(thread: LoopId, onto: LoopId, t: Task)

  /** What the removal of connection c, called on loop j, pushes. */
  function RemovalPush(w: World, j: LoopId, c: ConnId): Pushed
    requires Known(w, c)
  {
    if j == 0 then Pushed(0, w.conns[c].loop, Destroyed(c)) else Pushed(j, 0, RemoveInLoop(c))
  }

  /** The functor a step pushes, by which thread and onto which loop. */
  ghost function PushOf(w: World, l: Label): Pushed
    requires Enabled(w, l)
  {
    match l
    case Accept(_) =>
      if ChosenLoop(w) == 0 then Nothing else Pushed(0, ChosenLoop(w), Established(|w.conns|))
    case Dispatch(j, m, eof) =>
      var c := w.loops[j].active[0];
      if Closes(m, eof) then RemovalPush(w, w.conns[c].loop, c) else Nothing
    case Execute(j) =>
      var t := w.loops[j].batch[w.loops[j].next];
      if t.RemoveInLoop? then RemovalPush(w, 0, t.c) else Nothing
    case Post(c, work) => Pushed(w.conns[c].loop, w.conns[c].loop, Other(c, work))
    case _ => Nothing
  }

  /** The moves a step makes with the loop itself, on loop j. */
  function OwnMoves(w: World, l: Label, j: LoopId): seq<P.Label<Task>> {
    match l
    case Return(i, _, wake) => if i == j then [P.Return(wake)] else []
    case WakeRead(i) => if i == j then [P.HandleWake] else []
    case EndDispatch(i) => if i == j then [P.EndDispatch, P.SwapOut] else []
    case Execute(i) => if i == j then [P.Execute] else []
    case EndBatch(i) => if i == j then [P.EndBatch, P.TestQuit] else []
    case Wake(i) =>
      if i < |w.loops| && w.loops[i].owes == Loop(j) then [if i == j then P.OwnWakeup else P.Wakeup(i)] else []
    case _ => []
  }

  function PushMoves(p: Pushed, j: LoopId): seq<P.Label<Task>> {
    if p.Pushed? && p.onto == j then [if p.thread == j then P.OwnPush(p.t) else P.Push(p.thread, p.t)] else []
  }

  ghost function Moves(w: World, l: Label, j: LoopId): seq<P.Label<Task>>
    requires Enabled(w, l)
  {
    OwnMoves(w, l, j) + PushMoves(PushOf(w, l), j)
  }

  ghost function AllMoves(w: World, run: seq<Label>, j: LoopId): seq<P.Label<Task>>
    requires Legal(w, run)
    decreases |run|
  {
    if run == [] then [] else Moves(w, run[0], j) + AllMoves(Step(w, run[0]), run[1..], j)
  }

  // ---------- The loop and its protocol state ----------

  function PcOf(l: LoopState): P.Pc {
    match l.pc
    case Polling => P.Poll
    case Dispatching => P.Dispatch(l.wake)
    case Running => P.Run
  }

  ghost predicate Follows(w: World, j: LoopId, s: Protocol) {
    && j < |w.loops|
    && var l := w.loops[j];
       && s.pc == PcOf(l) && s.calling == (l.pc == Running) && !s.quit
       && s.pending == l.pending && s.counter == l.counter
       && (l.pc == Running ==> s.batch == l.batch && s.next == l.next)
       && s.selfOwes == (l.owes == Loop(j))
       && (forall i: LoopId :: i in s.owes <==> i != j && Owing(w, i, j))
  }

  /** Nothing a loop's protocol state speaks of changed. */
  ghost predicate SameLoops(w: World, v: World) {
    |v.loops| == |w.loops| &&
    forall i :: 0 <= i < |w.loops| ==> v.loops[i] == w.loops[i].(reg := v.loops[i].reg, active := v.loops[i].active)
  }

  lemma SameFollows(w: World, v: World, j: LoopId, s: Protocol)
    requires Follows(w, j, s) && SameLoops(w, v)
    ensures Follows(v, j, s)
  {
    assert forall i: LoopId :: Owing(w, i, j) <==> Owing(v, i, j);
  }

  ghost predicate MayPush(w: World, p: Pushed) {
    p.Pushed? && p.thread < |w.loops| && p.onto < |w.loops|
    && w.loops[p.thread].pc != Polling && w.loops[p.thread].owes == Nobody
  }

  lemma PushFollows(w: World, p: Pushed, j: LoopId, s: Protocol)
    requires Follows(w, j, s) && MayPush(w, p)
    ensures var moves := PushMoves(p, j);
            P.Legal(s, moves) && Follows(QueueInLoop(w, p.thread, p.onto, p.t), j, P.After(s, moves))
  {
    var v := QueueInLoop(w, p.thread, p.onto, p.t);
    assert forall i: LoopId :: i != p.thread ==> (Owing(v, i, j) <==> Owing(w, i, j));
    if p.onto == j {
      var move := PushMoves(p, j)[0];
      P.ShortRuns(s, move, move);
    }
  }

  lemma OneMove(w: World, v: World, j: LoopId, s: Protocol, move: P.Label<Task>)
    requires P.Enabled(s, move) && Follows(v, j, P.Step(s, move))
    ensures P.Legal(s, [move]) && Follows(v, j, P.After(s, [move]))
  {
    P.ShortRuns(s, move, move);
  }

  lemma TwoMoves(v: World, j: LoopId, s: Protocol, a: P.Label<Task>, b: P.Label<Task>)
    requires P.Enabled(s, a) && P.Enabled(P.Step(s, a), b) && Follows(v, j, P.Step(P.Step(s, a), b))
    ensures P.Legal(s, [a, b]) && Follows(v, j, P.After(s, [a, b]))
  {
    P.ShortRuns(s, a, b);
  }

  /** Only loop i changed, and not what it owes. */
  ghost predicate OnlyLoop(w: World, v: World, i: LoopId) {
    && i < |w.loops| && |v.loops| == |w.loops| && v.loops[i].owes == w.loops[i].owes
    && forall k :: 0 <= k < |w.loops| && k != i ==> v.loops[k] == w.loops[k]
  }

  lemma OthersFollow(w: World, v: World, i: LoopId, j: LoopId, s: Protocol)
    requires Follows(w, j, s) && OnlyLoop(w, v, i)
    ensures forall k: LoopId :: Owing(w, k, j) <==> Owing(v, k, j)
    ensures i != j ==> Follows(v, j, s)
  {
  }

  lemma LoopStepFollows(w: World, l: Label, j: LoopId, s: Protocol)
    requires LoopInv(w) && Enabled(w, l) && Follows(w, j, s)
    requires l.Return? || l.WakeRead? || l.EndDispatch? || l.EndBatch?
    ensures P.Legal(s, OwnMoves(w, l, j)) && Follows(Step(w, l), j, P.After(s, OwnMoves(w, l, j)))
  {
    var v := Step(w, l);
    OthersFollow(w, v, l.j, j, s);
    assert LoopAt(w, l.j);
    if l.j == j {
      match l {
        case Return(_, _, wake) => OneMove(w, v, j, s, P.Return(wake));
        case WakeRead(_) => OneMove(w, v, j, s, P.HandleWake);
        case EndDispatch(_) => TwoMoves(v, j, s, P.EndDispatch, P.SwapOut);
        case EndBatch(_) => TwoMoves(v, j, s, P.EndBatch, P.TestQuit);
      }
    }
  }

  lemma WakeFollows(w: World, i: LoopId, j: LoopId, s: Protocol)
    requires LoopInv(w) && Enabled(w, Wake(i)) && Follows(w, j, s)
    ensures var moves := OwnMoves(w, Wake(i), j);
            P.Legal(s, moves) && Follows(Step(w, Wake(i)), j, P.After(s, moves))
  {
    var v := Step(w, Wake(i));
    assert forall k: LoopId :: k != i ==> (Owing(v, k, j) <==> Owing(w, k, j));
    assert !Owing(v, i, j);
    if w.loops[i].owes == Loop(j) {
      OneMove(w, v, j, s, if i == j then P.OwnWakeup else P.Wakeup(i));
    }
  }

  /** No functor is pushed and the loop moves on by itself, or not at all. */
  lemma ExecuteFollows(w: World, i: LoopId, j: LoopId, s: Protocol)
    requires LoopInv(w) && Enabled(w, Execute(i)) && Follows(w, j, s)
    ensures var moves := OwnMoves(w, Execute(i), j);
            P.Legal(s, moves) && Follows(Popped(w, i), j, P.After(s, moves))
  {
    OthersFollow(w, Popped(w, i), i, j, s);
    if i == j {
      OneMove(w, Popped(w, i), j, s, P.Execute);
    }
  }

  /** A functor is pushed, then what no protocol state speaks of changes. */
  lemma PushedFollows(w: World, v: World, p: Pushed, j: LoopId, s: Protocol)
    requires Follows(w, j, s) && MayPush(w, p) && SameLoops(QueueInLoop(w, p.thread, p.onto, p.t), v)
    ensures P.Legal(s, PushMoves(p, j)) && Follows(v, j, P.After(s, PushMoves(p, j)))
  {
    PushFollows(w, p, j, s);
    SameFollows(QueueInLoop(w, p.thread, p.onto, p.t), v, j, P.After(s, PushMoves(p, j)));
  }

  lemma AcceptFollows(w: World, fd: int, j: LoopId, s: Protocol)
    requires Enabled(w, Accept(fd)) && Follows(w, j, s)
    ensures var moves := PushMoves(PushOf(w, Accept(fd)), j);
            P.Legal(s, moves) && Follows(Step(w, Accept(fd)), j, P.After(s, moves))
  {
    var u := Constructed(w, fd);
    assert SameLoops(w, u);
    SameFollows(w, u, j, s);
    if ChosenLoop(w) == 0 {
      SameFollows(u, Step(w, Accept(fd)), j, s);
    } else {
      PushFollows(u, PushOf(w, Accept(fd)), j, s);
    }
  }

  lemma RemovalFollows(w: World, k: LoopId, c: ConnId, j: LoopId, s: Protocol)
    requires Known(w, c) && At(w, k, Dispatching) && Follows(w, j, s) && |w.loops| > 0
    ensures var moves := PushMoves(RemovalPush(w, k, c), j);
            P.Legal(s, moves) && Follows(RemoveConnection(w, k, c), j, P.After(s, moves))
  {
    PushedFollows(w, RemoveConnection(w, k, c), RemovalPush(w, k, c), j, s);
  }

  lemma DispatchFollows(w: World, i: LoopId, m: Revents, eof: bool, j: LoopId, s: Protocol)
    requires LoopInv(w) && Enabled(w, Dispatch(i, m, eof)) && Follows(w, j, s)
    ensures var moves := PushMoves(PushOf(w, Dispatch(i, m, eof)), j);
            P.Legal(s, moves) && Follows(Step(w, Dispatch(i, m, eof)), j, P.After(s, moves))
  {
    var c := w.loops[i].active[0];
    var u := SetLoop(w, i, w.loops[i].(active := w.loops[i].active[1..]));
    assert ActiveAt(w, i);
    SameFollows(w, u, j, s);
    if Closes(m, eof) {
      var x := Closed(u, c);
      SameFollows(u, x, j, s);
      RemovalFollows(x, i, c, j, s);
    }
  }

  lemma TaskFollows(w: World, i: LoopId, t: Task, j: LoopId, s: Protocol)
    requires Known(w, t.c) && At(w, i, Running) && (t.RemoveInLoop? ==> i == 0) && Follows(w, j, s)
    ensures var moves := PushMoves(if t.RemoveInLoop? then RemovalPush(w, 0, t.c) else Nothing, j);
            P.Legal(s, moves) && Follows(RunTask(w, t), j, P.After(s, moves))
  {
    if t.RemoveInLoop? {
      PushedFollows(w, RunTask(w, t), RemovalPush(w, 0, t.c), j, s);
    } else {
      SameFollows(w, RunTask(w, t), j, s);
    }
  }

  lemma RunFollows(w: World, i: LoopId, j: LoopId, s: Protocol)
    requires Inv(w) && Enabled(w, Execute(i)) && Follows(w, j, s)
    ensures var moves := Moves(w, Execute(i), j);
            P.Legal(s, moves) && Follows(Step(w, Execute(i)), j, P.After(s, moves))
  {
    var t := w.loops[i].batch[w.loops[i].next];
    if t.RemoveInLoop? {
      PoppedTask(w, i, t);
    }
    var own := OwnMoves(w, Execute(i), j);
    ExecuteFollows(w, i, j, s);
    TaskFollows(Popped(w, i), i, t, j, P.After(s, own));
    P.RunsCompose(s, own, PushMoves(PushOf(w, Execute(i)), j));
  }

  /** Every step of the server is, for each of its loops, moves of the protocol. */
  lemma StepFollows(w: World, l: Label, j: LoopId, s: Protocol)
    requires Inv(w) && Enabled(w, l) && Follows(w, j, s)
    ensures P.Legal(s, Moves(w, l, j)) && Follows(Step(w, l), j, P.After(s, Moves(w, l, j)))
  {
    if l.Execute? {
      RunFollows(w, l.j, j, s);
    } else if l.Accept? || l.Dispatch? || l.Post? {
      assert Moves(w, l, j) == PushMoves(PushOf(w, l), j);
      match l {
        case Accept(fd) => AcceptFollows(w, fd, j, s);
        case Dispatch(i, m, eof) => DispatchFollows(w, i, m, eof, j, s);
        case Post(c, work) => PushFollows(w, PushOf(w, l), j, s);
      }
    } else {
      assert Moves(w, l, j) == OwnMoves(w, l, j);
      if l.Wake? {
        WakeFollows(w, l.j, j, s);
      } else if l.Shutdown? || l.Writing? || l.Free? {
        SameFollows(w, Step(w, l), j, s);
      } else {
        LoopStepFollows(w, l, j, s);
      }
    }
  }

  // ---------- What the server executes ----------

  function Waiting(l: LoopState): seq<Task> {
    Unexecuted(l) + l.pending
  }

  ghost function PushedBy(w: World, l: Label, j: LoopId): seq<Task>
    requires Enabled(w, l)
  {
    var p := PushOf(w, l);
    if p.Pushed? && p.onto == j then [p.t] else []
  }

  function ExecutedBy(w: World, l: Label, j: LoopId): seq<Task> {
    if l.Execute? && l.j == j && j < |w.loops| && w.loops[j].next < |w.loops[j].batch|
    then [w.loops[j].batch[w.loops[j].next]] else []
  }

  /** The functors pushed onto loop j, and those it executed, in order, read off
      the run. */
  ghost function AllPushed(w: World, run: seq<Label>, j: LoopId): seq<Task>
    requires Legal(w, run)
    decreases |run|
  {
    if run == [] then [] else PushedBy(w, run[0], j) + AllPushed(Step(w, run[0]), run[1..], j)
  }

  ghost function AllExecuted(w: World, run: seq<Label>, j: LoopId): seq<Task>
    requires Legal(w, run)
    decreases |run|
  {
    if run == [] then [] else ExecutedBy(w, run[0], j) + AllExecuted(Step(w, run[0]), run[1..], j)
  }

  lemma OwnMovesRecord(w: World, l: Label, j: LoopId, s: Protocol)
    requires LoopInv(w) && Enabled(w, l) && Follows(w, j, s) && P.Legal(s, OwnMoves(w, l, j))
    ensures var t := P.After(s, OwnMoves(w, l, j));
            t.log == s.log && t.executed == s.executed + ExecutedBy(w, l, j)
  {
    var own := OwnMoves(w, l, j);
    if |own| == 1 {
      P.ShortRuns(s, own[0], own[0]);
    } else if |own| == 2 {
      P.ShortRuns(s, own[0], own[1]);
    }
  }

  lemma PushMovesRecord(p: Pushed, j: LoopId, s: Protocol)
    requires P.Legal(s, PushMoves(p, j))
    ensures var t := P.After(s, PushMoves(p, j));
            && t.log == s.log + (if p.Pushed? && p.onto == j then [p.t] else [])
            && t.executed == s.executed
  {
    if p.Pushed? && p.onto == j {
      P.ShortRuns(s, PushMoves(p, j)[0], PushMoves(p, j)[0]);
    }
  }

  lemma LegalPrefix(s: Protocol, a: seq<P.Label<Task>>, b: seq<P.Label<Task>>)
    requires P.Legal(s, a + b)
    ensures P.Legal(s, a) && P.Legal(P.After(s, a), b)
    decreases |a|
  {
    if a == [] {
      assert a + b == b;
    } else {
      assert (a + b)[1..] == a[1..] + b;
      LegalPrefix(P.Step(s, a[0]), a[1..], b);
    }
  }

  lemma StepRecords(w: World, l: Label, j: LoopId, s: Protocol)
    requires Inv(w) && Enabled(w, l) && Follows(w, j, s)
    ensures P.Legal(s, Moves(w, l, j))
    ensures var t := P.After(s, Moves(w, l, j));
            t.log == s.log + PushedBy(w, l, j) && t.executed == s.executed + ExecutedBy(w, l, j)
  {
    StepFollows(w, l, j, s);
    var own, push := OwnMoves(w, l, j), PushMoves(PushOf(w, l), j);
    LegalPrefix(s, own, push);
    P.RunsCompose(s, own, push);
    OwnMovesRecord(w, l, j, s);
    PushMovesRecord(PushOf(w, l), j, P.After(s, own));
  }

  lemma Concat3(a: seq<Task>, x: seq<Task>, y: seq<Task>)
    ensures (a + x) + y == a + (x + y)
  {
  }

  lemma {:induction false} RunRecords(w: World, run: seq<Label>, j: LoopId, s: Protocol)
    requires Inv(w) && NameInv(w) && Legal(w, run) && Follows(w, j, s)
    ensures P.Legal(s, AllMoves(w, run, j)) && Follows(After(w, run), j, P.After(s, AllMoves(w, run, j)))
    ensures var t := P.After(s, AllMoves(w, run, j));
            t.log == s.log + AllPushed(w, run, j) && t.executed == s.executed + AllExecuted(w, run, j)
    decreases |run|
  {
    if run == [] {
      assert s.log + [] == s.log && s.executed + [] == s.executed;
    } else {
      var v := Step(w, run[0]);
      StepFollows(w, run[0], j, s);
      StepRecords(w, run[0], j, s);
      StepKeeps(w, run[0]);
      StepNames(w, run[0]);
      var t := P.After(s, Moves(w, run[0], j));
      RunRecords(v, run[1..], j, t);
      P.RunsCompose(s, Moves(w, run[0], j), AllMoves(v, run[1..], j));
      Concat3(s.log, PushedBy(w, run[0], j), AllPushed(v, run[1..], j));
      Concat3(s.executed, ExecutedBy(w, run[0], j), AllExecuted(v, run[1..], j));
    }
  }

  // ---------- Theorems ----------

  /** The protocol state of loop j, with no functor executed yet. */
  ghost function ProtocolOf(w: World, j: LoopId): Protocol
    requires j < |w.loops|
  {
    var l := w.loops[j];
    P.State(PcOf(l), false, l.pc == Running, l.pending, l.batch, l.next, l.counter,
            (set i: LoopId | i < |w.loops| && i != j && Owing(w, i, j)), l.owes == Loop(j), Waiting(l), [])
  }

  lemma ProtocolFollows(w: World, j: LoopId)
    requires j < |w.loops|
    ensures Follows(w, j, ProtocolOf(w, j))
  {
  }

  const CALLED: Protocol := P.State(P.Entry, false, false, [], [], 0, 0, {}, false, [], [])

  const CALL: seq<P.Label<Task>> := [P.Reset, P.TestQuit]

  lemma StartFollows(s: World, j: LoopId)
    requires Start(s) && j < |s.loops|
    ensures P.Start(CALLED) && P.Legal(CALLED, CALL) && P.After(CALLED, CALL) == ProtocolOf(s, j)
  {
    P.ShortRuns(CALLED, P.Reset, P.TestQuit);
    assert ProtocolOf(s, j).owes == {};
  }

  /** Over every run of a server, what one of its loops does is a legal run of the
      protocol from the call of loop(). */
  lemma ServerFollowsProtocol(s: World, run: seq<Label>, j: LoopId)
    requires Start(s) && Legal(s, run) && j < |s.loops|
    ensures P.Start(CALLED) && P.Legal(CALLED, CALL + AllMoves(s, run, j))
    ensures Follows(After(s, run), j, P.After(CALLED, CALL + AllMoves(s, run, j)))
  {
    StartInv(s);
    StartFollows(s, j);
    ProtocolFollows(s, j);
    RunRecords(s, run, j, ProtocolOf(s, j));
    P.RunsCompose(CALLED, CALL, AllMoves(s, run, j));
  }

  lemma RestIsWaiting(w: World, j: LoopId, t: Protocol)
    requires LoopInv(w) && Follows(w, j, t) && P.ControlInv(t)
    ensures t.batch[t.next..] + t.pending == Waiting(w.loops[j])
  {
    assert LoopAt(w, j);
  }

  lemma ProtocolAtEnd(s: World, run: seq<Label>, j: LoopId) returns (t: Protocol)
    requires Start(s) && Legal(s, run) && j < |s.loops|
    ensures Follows(After(s, run), j, t) && P.ControlInv(t) && P.QueueInv(t)
    ensures t.log == AllPushed(s, run, j) && t.executed == AllExecuted(s, run, j)
  {
    var p := ProtocolOf(s, j);
    StartInv(s);
    StartFollows(s, j);
    ProtocolFollows(s, j);
    RunRecords(s, run, j, p);
    t := P.After(p, AllMoves(s, run, j));
    P.RunKeepsInvariants(p, AllMoves(s, run, j));
    assert p.log + AllPushed(s, run, j) == AllPushed(s, run, j);
    assert p.executed + AllExecuted(s, run, j) == AllExecuted(s, run, j);
  }

  /** So the functors of every loop are executed once each, in the order in which
      they were pushed, whoever pushed them. */
  lemma ServerFunctorsConserved(s: World, run: seq<Label>, j: LoopId)
    requires Start(s) && Legal(s, run) && j < |s.loops|
    ensures j < |After(s, run).loops|
    ensures AllExecuted(s, run, j) + Waiting(After(s, run).loops[j]) == AllPushed(s, run, j)
  {
    var t := ProtocolAtEnd(s, run, j);
    EndInv(s, run);
    RestIsWaiting(After(s, run), j, t);
    Concat3(t.executed, t.batch[t.next..], t.pending);
  }

  lemma EndInv(s: World, run: seq<Label>)
    requires Start(s) && Legal(s, run)
    ensures LoopInv(After(s, run))
  {
    StartInv(s);
    RunKeeps(s, run);
  }

  lemma NoSwaps(w: World, run: seq<Label>, j: LoopId)
    requires Legal(w, run)
    requires forall i :: 0 <= i < |run| ==> run[i] != EndDispatch(j)
    ensures forall i :: 0 <= i < |AllMoves(w, run, j)| ==> !AllMoves(w, run, j)[i].SwapOut?
    decreases |run|
  {
    if run != [] {
      NoSwaps(Step(w, run[0]), run[1..], j);
      assert forall i :: 0 <= i < |OwnMoves(w, run[0], j)| ==> !OwnMoves(w, run[0], j)[i].SwapOut?;
    }
  }

  /** Until a loop ends its next dispatch it executes only functors that were
      pending when it ended the last, in order; all of them once it polls. */
  lemma ServerRunsSnapshots(w: World, j: LoopId, run: seq<Label>)
    requires Inv(w) && NameInv(w) && Enabled(w, EndDispatch(j)) && Legal(Step(w, EndDispatch(j)), run)
    requires forall i :: 0 <= i < |run| ==> run[i] != EndDispatch(j)
    ensures AllExecuted(Step(w, EndDispatch(j)), run, j) <= w.loops[j].pending
    ensures j < |After(Step(w, EndDispatch(j)), run).loops|
    ensures After(Step(w, EndDispatch(j)), run).loops[j].pc == Polling ==>
              AllExecuted(Step(w, EndDispatch(j)), run, j) == w.loops[j].pending
  {
    var v := Step(w, EndDispatch(j));
    var s := P.Step(ProtocolOf(w, j), P.EndDispatch);
    StepKeeps(w, EndDispatch(j));
    StepNames(w, EndDispatch(j));
    SwapFollows(w, j);
    SnapshotTaken(v, run, j, s);
  }

  lemma SwapFollows(w: World, j: LoopId)
    requires LoopInv(w) && Enabled(w, EndDispatch(j))
    ensures var s := P.Step(ProtocolOf(w, j), P.EndDispatch);
            && s.pc == P.Swap && s.pending == w.loops[j].pending && s.executed == []
            && Follows(Step(w, EndDispatch(j)), j, P.Step(s, P.SwapOut))
            && P.ControlInv(P.Step(s, P.SwapOut)) && P.QueueInv(P.Step(s, P.SwapOut))
  {
    ProtocolFollows(w, j);
    assert LoopAt(w, j);
    OthersFollow(w, Step(w, EndDispatch(j)), j, j, ProtocolOf(w, j));
  }

  lemma SnapshotTaken(v: World, run: seq<Label>, j: LoopId, s: Protocol)
    requires Inv(v) && NameInv(v) && Legal(v, run) && s.pc == P.Swap && s.executed == []
    requires Follows(v, j, P.Step(s, P.SwapOut))
    requires P.ControlInv(P.Step(s, P.SwapOut)) && P.QueueInv(P.Step(s, P.SwapOut))
    requires forall i :: 0 <= i < |run| ==> run[i] != EndDispatch(j)
    ensures AllExecuted(v, run, j) <= s.pending && j < |After(v, run).loops|
    ensures After(v, run).loops[j].pc == Polling ==> AllExecuted(v, run, j) == s.pending
  {
    var b := P.Step(s, P.SwapOut);
    var moves, t := MovesUntilSwap(v, run, j, b);
    P.SnapshotRuns(s, moves);
    assert s.executed + AllExecuted(v, run, j) == AllExecuted(v, run, j);
    assert s.executed + s.pending == s.pending;
    assert t.executed == s.pending[..P.Executions(moves)];
  }

  lemma MovesUntilSwap(v: World, run: seq<Label>, j: LoopId, b: Protocol)
    returns (moves: seq<P.Label<Task>>, t: Protocol)
    requires Inv(v) && NameInv(v) && Legal(v, run) && Follows(v, j, b) && P.ControlInv(b) && P.QueueInv(b)
    requires forall i :: 0 <= i < |run| ==> run[i] != EndDispatch(j)
    ensures P.Legal(b, moves) && t == P.After(b, moves) && Follows(After(v, run), j, t)
    ensures P.ControlInv(t) && t.executed == b.executed + AllExecuted(v, run, j)
    ensures forall i :: 0 <= i < |moves| ==> !moves[i].SwapOut?
  {
    RunRecords(v, run, j, b);
    NoSwaps(v, run, j);
    moves := AllMoves(v, run, j);
    t := P.After(b, moves);
    P.RunKeepsInvariants(b, moves);
  }
}
