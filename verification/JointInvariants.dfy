/** What every step of the server with its connections keeps: the two sides agree
    on each connection, down to its mask in the poller and its transfers in the
    queue of its loop. */
module JointInvariants {
  import opened ByteBuffer
  import opened ConnectionState
  import opened Registration
  import opened ThreadPool
  import opened Joint
  import C = Connection
  import CI = ConnectionInvariants
  import L = Lifecycle
  import LI = LifecycleInvariants
  import LS = LifecycleSteps
  import LP = LoopProjection

  // ---------- What the server knows of a connection ----------

  /** The transfers of connection c among some functors, in order. */
  function Ids(ts: seq<L.Task>, c: ConnId): seq<nat> {
    if ts == [] then []
    else
      var last := ts[|ts| - 1];
      Ids(ts[..|ts| - 1], c)
        + (if last.Other? && last.c == c && last.work.Transfer? then [last.work.id] else [])
  }

  lemma {:induction false} IdsConcat(a: seq<L.Task>, b: seq<L.Task>, c: ConnId)
    ensures Ids(a + b, c) == Ids(a, c) + Ids(b, c)
  {
    if b == [] {
      assert a + b == a;
    } else {
      assert (a + b)[..|a + b| - 1] == a + b[..|b| - 1];
      IdsConcat(a, b[..|b| - 1], c);
    }
  }

  lemma IdsOfOne(t: L.Task, c: ConnId)
    ensures Ids([t], c) == if t.Other? && t.c == c && t.work.Transfer? then [t.work.id] else []
  {
    assert [t][..0] == [];
  }

  datatype View = View(state: ConnState, ups: nat, downs: nat, gone: bool, events: Interest, queue: seq<nat>)

  function WorldView(w: L.World, c: ConnId): View
    requires L.Known(w, c)
  {
    var i := w.conns[c];
    var l := w.loops[i.loop];
    View(i.state, i.ups, i.downs, i.destroys == 1, l.reg.chans[c].events, Ids(LP.Waiting(l), c))
  }

  function ConnView(d: C.Conn): View {
    View(d.state, d.ups, d.downs, d.removed, d.events, d.queue)
  }

  // ---------- What a step of the server changes of it ----------

  function TaskView(u: View, t: L.Task): View {
    match t
    case Established(_) => u.(state := Connected, ups := u.ups + 1, events := u.events.(reading := true))
    case RemoveInLoop(_) => u
    case Destroyed(_) => u.(gone := true)
    case Other(_, work) => if work.Transfer? && u.queue != [] then u.(queue := u.queue[1..]) else u
  }

  ghost function ViewAfter(w: L.World, l: L.Label, c: ConnId): View
    requires L.Enabled(w, l) && L.Known(w, c)
  {
    var u := WorldView(w, c);
    match l
    case Dispatch(j, m, eof) =>
      if w.loops[j].active[0] == c && L.Closes(m, eof)
      then u.(state := Disconnected, downs := u.downs + 1, events := NO_INTEREST) else u
    case Execute(j) =>
      var t := w.loops[j].batch[w.loops[j].next];
      if t.c == c then TaskView(u, t) else u
    case Shutdown(d) => if d == c then u.(state := Disconnecting) else u
    case Writing(d, on) => if d == c then u.(events := Interest(true, on)) else u
    case Post(d, work) => if d == c && work.Transfer? then u.(queue := u.queue + [work.id]) else u
    case _ => u
  }

  lemma PushIds(w: L.World, j: LoopId, k: LoopId, t: L.Task, c: ConnId)
    requires L.Known(w, c) && j < |w.loops| && k < |w.loops|
    ensures var v := L.QueueInLoop(w, j, k, t);
            && L.Known(v, c) && v.conns == w.conns
            && v.loops[w.conns[c].loop].reg == w.loops[w.conns[c].loop].reg
            && Ids(LP.Waiting(v.loops[w.conns[c].loop]), c) ==
                 Ids(LP.Waiting(w.loops[w.conns[c].loop]), c)
                   + (if k == w.conns[c].loop && t.Other? && t.c == c && t.work.Transfer? then [t.work.id] else [])
  {
    var v := L.QueueInLoop(w, j, k, t);
    var l, m := w.loops[w.conns[c].loop], v.loops[w.conns[c].loop];
    if k == w.conns[c].loop {
      assert LP.Waiting(m) == LP.Waiting(l) + [t];
      IdsConcat(LP.Waiting(l), [t], c);
      IdsOfOne(t, c);
    } else {
      assert LP.Waiting(m) == LP.Waiting(l);
    }
  }

  lemma PopIds(l: L.LoopState, c: ConnId)
    requires l.next < |l.batch|
    ensures var t := l.batch[l.next];
            Ids(LP.Waiting(l), c) ==
              (if t.Other? && t.c == c && t.work.Transfer? then [t.work.id] else [])
                + Ids(LP.Waiting(l.(next := l.next + 1)), c)
  {
    var t := l.batch[l.next];
    assert LP.Waiting(l) == [t] + LP.Waiting(l.(next := l.next + 1)) by {
      assert l.batch[l.next..] == [t] + l.batch[l.next + 1..];
    }
    IdsConcat([t], LP.Waiting(l.(next := l.next + 1)), c);
    IdsOfOne(t, c);
  }

  lemma MaskSet(p: Poll<ConnId>, id: ConnId, events: Interest, c: ConnId)
    requires id in p.chans && c in p.chans
    ensures var q := SetEvents(p, id, events);
            c in q.chans && q.chans[c].events == if c == id then events else p.chans[c].events
  {
  }

  lemma MaskLeft(p: Poll<ConnId>, id: ConnId, c: ConnId)
    requires id in p.chans && c in p.chans
    ensures c in RemoveChannel(p, id).chans && RemoveChannel(p, id).chans[c].events == p.chans[c].events
  {
  }

  ghost predicate Views(w: L.World, l: L.Label, c: ConnId)
    requires L.Enabled(w, l) && L.Known(w, c)
  {
    var v := L.Step(w, l);
    L.Known(v, c) && v.conns[c].loop == w.conns[c].loop && WorldView(v, c) == ViewAfter(w, l, c)
  }

  lemma LoopViews(w: L.World, l: L.Label, c: ConnId)
    requires LI.LoopInv(w) && L.Enabled(w, l) && L.Known(w, c) && ServerOnly(l)
    ensures Views(w, l, c)
  {
    var k := w.conns[c].loop;
    var m := L.Step(w, l).loops[k];
    assert LI.LoopAt(w, k);
    assert LP.Waiting(m) == LP.Waiting(w.loops[k]);
  }

  lemma ConnViews(w: L.World, l: L.Label, c: ConnId)
    requires L.Enabled(w, l) && L.Known(w, c) && (l.Shutdown? || l.Writing?)
    ensures Views(w, l, c)
  {
    var v := L.Step(w, l);
    var k := w.conns[c].loop;
    if l.Writing? && w.conns[l.c].loop == k {
      MaskSet(w.loops[k].reg, l.c, Interest(true, l.on), c);
    }
    assert LP.Waiting(v.loops[k]) == LP.Waiting(w.loops[k]);
  }

  lemma PostViews(w: L.World, d: ConnId, work: L.Work, c: ConnId)
    requires L.Enabled(w, L.Post(d, work)) && L.Known(w, c)
    ensures Views(w, L.Post(d, work), c)
  {
    var k := w.conns[d].loop;
    PushIds(w, k, k, L.Other(d, work), c);
  }

  lemma EstablishViews(w: L.World, d: ConnId, c: ConnId)
    requires L.Known(w, d) && L.Known(w, c)
    ensures var v := L.ConnectEstablished(w, d);
            && L.Known(v, c) && v.conns[c].loop == w.conns[c].loop
            && WorldView(v, c) == if d == c then TaskView(WorldView(w, c), L.Established(d)) else WorldView(w, c)
  {
    var v := L.ConnectEstablished(w, d);
    var k := w.conns[c].loop;
    if w.conns[d].loop == k {
      var reg := w.loops[k].reg;
      MaskSet(reg, d, reg.chans[d].events.(reading := true), c);
    }
    assert LP.Waiting(v.loops[k]) == LP.Waiting(w.loops[k]);
  }

  lemma DestroyViews(w: L.World, d: ConnId, c: ConnId)
    requires L.Known(w, d) && L.Known(w, c) && w.conns[d].state == Disconnected && w.conns[d].destroys == 0
    ensures var v := L.ConnectDestroyed(w, d);
            && L.Known(v, c) && v.conns[c].loop == w.conns[c].loop
            && WorldView(v, c) == if d == c then TaskView(WorldView(w, c), L.Destroyed(d)) else WorldView(w, c)
  {
    var v := L.ConnectDestroyed(w, d);
    var k := w.conns[c].loop;
    if w.conns[d].loop == k {
      MaskLeft(w.loops[k].reg, d, c);
    }
    assert LP.Waiting(v.loops[k]) == LP.Waiting(w.loops[k]);
  }

  lemma RemovalViews(w: L.World, j: LoopId, d: ConnId, c: ConnId)
    requires L.Known(w, d) && L.Known(w, c) && j < |w.loops|
    ensures var v := L.RemoveConnection(w, j, d);
            && L.Known(v, c) && v.conns[c].loop == w.conns[c].loop && WorldView(v, c) == WorldView(w, c)
  {
    if j == 0 {
      var u := w.(connections := w.connections - {L.NameOf(w, d)});
      assert WorldView(u, c) == WorldView(w, c);
      PushIds(u, 0, w.conns[d].loop, L.Destroyed(d), c);
    } else {
      PushIds(w, j, 0, L.RemoveInLoop(d), c);
    }
  }

  lemma ClosedViews(w: L.World, d: ConnId, c: ConnId)
    requires L.Known(w, d) && L.Known(w, c)
    ensures var v := L.Closed(w, d);
            && L.Known(v, c) && L.Known(v, d) && v.conns[c].loop == w.conns[c].loop
            && var u := WorldView(w, c);
               WorldView(v, c) ==
                 if d == c then u.(state := Disconnected, downs := u.downs + 1, events := NO_INTEREST) else u
  {
    var v := L.Closed(w, d);
    var k := w.conns[c].loop;
    if w.conns[d].loop == k {
      MaskSet(w.loops[k].reg, d, NO_INTEREST, c);
    }
    assert LP.Waiting(v.loops[k]) == LP.Waiting(w.loops[k]);
  }

  lemma DispatchViews(w: L.World, j: LoopId, m: Revents, eof: bool, c: ConnId)
    requires L.Enabled(w, L.Dispatch(j, m, eof)) && L.Known(w, c)
    ensures Views(w, L.Dispatch(j, m, eof), c)
  {
    var d := w.loops[j].active[0];
    var u := L.SetLoop(w, j, w.loops[j].(active := w.loops[j].active[1..]));
    assert LP.Waiting(u.loops[w.conns[c].loop]) == LP.Waiting(w.loops[w.conns[c].loop]);
    assert WorldView(u, c) == WorldView(w, c);
    if L.Closes(m, eof) {
      ClosedViews(u, d, c);
      RemovalViews(L.Closed(u, d), w.conns[d].loop, d, c);
    }
  }

  lemma PoppedIds(w: L.World, j: LoopId, c: ConnId)
    requires j < |w.loops| && w.loops[j].next < |w.loops[j].batch| && L.Known(w, c)
    ensures var t, k := w.loops[j].batch[w.loops[j].next], w.conns[c].loop;
            Ids(LP.Waiting(w.loops[k]), c) ==
              (if j == k && t.Other? && t.c == c && t.work.Transfer? then [t.work.id] else [])
                + Ids(LP.Waiting(LS.Popped(w, j).loops[k]), c)
  {
    if j == w.conns[c].loop {
      PopIds(w.loops[j], c);
    }
  }

  lemma PoppedViews(w: L.World, j: LoopId, c: ConnId)
    requires LI.LoopInv(w) && L.Enabled(w, L.Execute(j)) && L.Known(w, c)
    ensures var t := w.loops[j].batch[w.loops[j].next];
            && L.Known(LS.Popped(w, j), c)
            && WorldView(LS.Popped(w, j), c) ==
                 if t.Other? && t.c == c then TaskView(WorldView(w, c), t) else WorldView(w, c)
  {
    var k := w.conns[c].loop;
    var t := w.loops[j].batch[w.loops[j].next];
    assert LI.QueueAt(w, j) && LI.RefersTo(w, j, t);
    PoppedIds(w, j, c);
  }

  lemma TaskViews(u: L.World, t: L.Task, c: ConnId)
    requires L.Known(u, t.c) && L.Known(u, c) && |u.loops| > 0
    requires t.Destroyed? ==> u.conns[t.c].state == Disconnected && u.conns[t.c].destroys == 0
    ensures var v := L.RunTask(u, t);
            && L.Known(v, c) && v.conns[c].loop == u.conns[c].loop
            && WorldView(v, c) == if t.c == c && !t.Other? then TaskView(WorldView(u, c), t) else WorldView(u, c)
  {
    match t {
      case Established(d) => EstablishViews(u, d, c);
      case RemoveInLoop(d) => RemovalViews(u, 0, d, c);
      case Destroyed(d) => DestroyViews(u, d, c);
      case Other(_, _) =>
    }
  }

  lemma DestroyedOnce(w: L.World, j: LoopId, c: ConnId)
    requires LI.Inv(w) && L.Enabled(w, L.Execute(j)) && w.loops[j].batch[w.loops[j].next] == L.Destroyed(c)
    ensures w.conns[c].state == Disconnected && w.conns[c].destroys == 0
  {
    LS.PoppedTask(w, j, L.Destroyed(c));
    assert LI.ConnAt(w, c);
  }

  lemma ExecuteViews(w: L.World, j: LoopId, c: ConnId)
    requires LI.Inv(w) && L.Enabled(w, L.Execute(j)) && L.Known(w, c)
    ensures Views(w, L.Execute(j), c)
  {
    var t := w.loops[j].batch[w.loops[j].next];
    if t.Destroyed? {
      DestroyedOnce(w, j, t.c);
    }
    PoppedViews(w, j, c);
    TaskViews(LS.Popped(w, j), t, c);
  }

  lemma AcceptViews(w: L.World, fd: int, c: ConnId)
    requires LI.NameInv(w) && L.Enabled(w, L.Accept(fd)) && L.Known(w, c)
    ensures Views(w, L.Accept(fd), c)
  {
    var u := L.Constructed(w, fd);
    var k := w.conns[c].loop;
    assert LP.Waiting(u.loops[k]) == LP.Waiting(w.loops[k]);
    assert WorldView(u, c) == WorldView(w, c);
    if L.ChosenLoop(w) == 0 {
      EstablishViews(u, |w.conns|, c);
    } else {
      PushIds(u, 0, L.ChosenLoop(w), L.Established(|w.conns|), c);
    }
  }

  lemma StepViews(w: L.World, l: L.Label, c: ConnId)
    requires LI.Inv(w) && LI.NameInv(w) && L.Enabled(w, l) && L.Known(w, c)
    ensures Views(w, l, c)
  {
    match l {
      case Accept(fd) => AcceptViews(w, fd, c);
      case Dispatch(j, m, eof) => DispatchViews(w, j, m, eof, c);
      case Execute(j) => ExecuteViews(w, j, c);
      case Post(d, work) => PostViews(w, d, work, c);
      case Shutdown(_) => ConnViews(w, l, c);
      case Writing(_, _) => ConnViews(w, l, c);
      case _ => LoopViews(w, l, c);
    }
  }

  // ---------- Where the loops stand ----------

  ghost predicate SamePlace(l: L.LoopState, m: L.LoopState) {
    m.pc == l.pc && m.active == l.active
  }

  lemma HandleClosePlaces(w: L.World, c: ConnId, i: LoopId)
    requires L.Known(w, c) && i < |w.loops|
    ensures |L.HandleClose(w, c).loops| == |w.loops| && SamePlace(w.loops[i], L.HandleClose(w, c).loops[i])
  {
  }

  lemma TaskPlaces(w: L.World, t: L.Task, i: LoopId)
    requires L.Known(w, t.c) && i < |w.loops|
    ensures |L.RunTask(w, t).loops| == |w.loops| && SamePlace(w.loops[i], L.RunTask(w, t).loops[i])
  {
  }

  lemma AcceptPlaces(w: L.World, fd: int, i: LoopId)
    requires L.Enabled(w, L.Accept(fd)) && i < |w.loops|
    ensures var v := L.Step(w, L.Accept(fd)); |v.loops| == |w.loops| && SamePlace(w.loops[i], v.loops[i])
  {
  }

  /** Loop i after a step, its place only. */
  ghost predicate Places(w: L.World, l: L.Label, i: LoopId)
    requires L.Enabled(w, l) && i < |w.loops|
  {
    var v := L.Step(w, l);
    && |v.loops| == |w.loops|
    && var a, b := w.loops[i], v.loops[i];
       match l
       case Return(j, active, _) => if i == j then b.pc == L.Dispatching && b.active == active else SamePlace(a, b)
       case Dispatch(j, _, _) => if i == j then b.pc == a.pc && b.active == a.active[1..] else SamePlace(a, b)
       case EndDispatch(j) => if i == j then b.pc == L.Running && b.active == a.active else SamePlace(a, b)
       case EndBatch(j) => if i == j then b.pc == L.Polling && b.active == a.active else SamePlace(a, b)
       case _ => SamePlace(a, b)
  }

  lemma PlainPlaces(w: L.World, l: L.Label, i: LoopId)
    requires L.Enabled(w, l) && i < |w.loops| && LS.Plain(l)
    ensures Places(w, l, i)
  {
  }

  lemma DispatchPlaces(w: L.World, j: LoopId, m: Revents, eof: bool, i: LoopId)
    requires L.Enabled(w, L.Dispatch(j, m, eof)) && i < |w.loops|
    ensures Places(w, L.Dispatch(j, m, eof), i)
  {
    var u := L.SetLoop(w, j, w.loops[j].(active := w.loops[j].active[1..]));
    if L.Closes(m, eof) {
      HandleClosePlaces(u, w.loops[j].active[0], i);
    }
  }

  lemma ExecutePlaces(w: L.World, j: LoopId, i: LoopId)
    requires L.Enabled(w, L.Execute(j)) && i < |w.loops|
    ensures Places(w, L.Execute(j), i)
  {
    var u, t := LS.Popped(w, j), w.loops[j].batch[w.loops[j].next];
    LS.PoppedLoop(w, j, i);
    TaskPlaces(u, t, i);
    ExecuteIs(w, j, u, t);
  }

  lemma ExecuteIs(w: L.World, j: LoopId, u: L.World, t: L.Task)
    requires L.Enabled(w, L.Execute(j)) && u == LS.Popped(w, j) && t == w.loops[j].batch[w.loops[j].next]
    ensures L.Known(u, t.c) && L.Step(w, L.Execute(j)) == L.RunTask(u, t)
  {
  }

  lemma StepPlaces(w: L.World, l: L.Label, i: LoopId)
    requires L.Enabled(w, l) && i < |w.loops|
    ensures Places(w, l, i)
  {
    match l {
      case Accept(fd) => AcceptPlaces(w, fd, i);
      case Dispatch(j, m, eof) => DispatchPlaces(w, j, m, eof, i);
      case Execute(j) => ExecutePlaces(w, j, i);
      case _ => PlainPlaces(w, l, i);
    }
  }

  // ---------- What a connection asks for ----------

  ghost predicate SoundWorld(w: L.World) {
    && LI.Inv(w) && LI.NameInv(w)
    && forall c: ConnId :: c < |w.conns| ==> L.Known(w, c)
  }

  lemma WorldSound(w: L.World)
    requires LI.Inv(w) && LI.NameInv(w)
    ensures SoundWorld(w)
  {
    forall c: ConnId | c < |w.conns| ensures L.Known(w, c) {
      assert LI.ChanAt(w, c);
    }
  }

  /** In x the server knows u of connection id, and all else as in w; the loops
      stand where they stood. */
  ghost predicate Knows(w: L.World, x: L.World, id: ConnId, u: View) {
    && SoundWorld(w) && SoundWorld(x) && id < |w.conns|
    && |x.conns| == |w.conns| && |x.loops| == |w.loops|
    && (forall c: ConnId :: c < |w.conns| ==>
          && x.conns[c].loop == w.conns[c].loop
          && WorldView(x, c) == if c == id then u else WorldView(w, c))
    && (forall j: LoopId :: j < |w.loops| ==>
          && SamePlace(w.loops[j], x.loops[j])
          && (w.loops[j].pc == L.Dispatching ==> x.loops[j].owes == w.loops[j].owes))
  }

  lemma KnowsOn(w: L.World, x: L.World, y: L.World, id: ConnId, u: View, t: View)
    requires Knows(w, x, id, u) && Knows(x, y, id, t)
    ensures Knows(w, y, id, t)
  {
    forall j: LoopId | j < |w.loops|
      ensures SamePlace(w.loops[j], y.loops[j])
      ensures w.loops[j].pc == L.Dispatching ==> y.loops[j].owes == w.loops[j].owes
    {
      assert SamePlace(w.loops[j], x.loops[j]) && SamePlace(x.loops[j], y.loops[j]);
    }
  }

  ghost predicate Asking(w: L.World, l: L.Label, id: ConnId) {
    match l
    case Shutdown(c) => c == id
    case Writing(c, _) => c == id
    case Post(c, _) => c == id
    case _ => false
  }

  lemma OneAsked(w: L.World, l: L.Label, id: ConnId)
    requires SoundWorld(w) && id < |w.conns| && Asking(w, l, id) && L.Enabled(w, l)
    ensures Knows(w, L.Step(w, l), id, ViewAfter(w, l, id))
  {
    var x := L.Step(w, l);
    LS.StepKeeps(w, l);
    LS.StepNames(w, l);
    LS.StepFrame(w, l);
    WorldSound(x);
    forall c: ConnId | c < |w.conns|
      ensures x.conns[c].loop == w.conns[c].loop
      ensures WorldView(x, c) == if c == id then ViewAfter(w, l, id) else WorldView(w, c)
    {
      StepViews(w, l, c);
    }
    forall j: LoopId | j < |w.loops|
      ensures |x.loops| == |w.loops| && SamePlace(w.loops[j], x.loops[j])
      ensures w.loops[j].pc == L.Dispatching ==> x.loops[j].owes == w.loops[j].owes
    {
      StepPlaces(w, l, j);
    }
  }

  /** The queues, the debts and the map, by which a connection is referred to. */
  ghost predicate SameQueues(w: L.World, x: L.World) {
    && x.connections == w.connections && |x.loops| == |w.loops|
    && forall j :: 0 <= j < |w.loops| ==>
         && x.loops[j].pending == w.loops[j].pending && x.loops[j].batch == w.loops[j].batch
         && x.loops[j].owes == w.loops[j].owes
  }

  lemma ReferencedStays(w: L.World, x: L.World, c: ConnId)
    requires SameQueues(w, x) && L.Referenced(w, c)
    ensures L.Referenced(x, c)
  {
    if j :| 0 <= j < |w.loops| && L.Mentions(w.loops[j], c) {
      assert L.Mentions(x.loops[j], c);
    }
  }

  lemma QueuesStay(w: L.World, l: L.Label)
    requires L.Enabled(w, l) && (l.Shutdown? || l.Writing?)
    ensures SameQueues(w, L.Step(w, l))
  {
  }

  /** The thread of c's loop is at work, and something refers to c. */
  ghost predicate AtWork(w: L.World, c: ConnId) {
    && L.Known(w, c) && L.Referenced(w, c)
    && w.loops[w.conns[c].loop].pc != L.Polling && w.loops[w.conns[c].loop].owes == L.Nobody
  }

  lemma OneOrNone(w: L.World, s: seq<L.Label>, id: ConnId) returns (x: L.World)
    requires SoundWorld(w) && id < |w.conns| && |s| <= 1
    requires s != [] ==> Asking(w, s[0], id) && L.Enabled(w, s[0])
    ensures L.Legal(w, s) && x == L.After(w, s)
    ensures Knows(w, x, id, if s == [] then WorldView(w, id) else ViewAfter(w, s[0], id))
    ensures AtWork(w, id) && (s == [] || !s[0].Post?) ==> AtWork(x, id)
  {
    x := w;
    if s != [] {
      x := L.Step(w, s[0]);
      OneAsked(w, s[0], id);
      assert s[1..] == [] && L.After(x, []) == x;
      if AtWork(w, id) && !s[0].Post? {
        QueuesStay(w, s[0]);
        ReferencedStays(w, x, id);
      }
    }
  }

  /** The notifications a connection has queued. */
  function Notices(c: C.Conn): nat {
    c.completes + |c.marks|
  }

  /** What a step of the connection may change of what the server knows. */
  ghost predicate AskFacts(c: C.Conn, d: C.Conn) {
    && (d.state != c.state ==> c.state == Connected && d.state == Disconnecting)
    && (d.events != c.events ==> CI.Live(c) && d.events.reading)
    && d.ups == c.ups && d.downs == c.downs && d.removed == c.removed
    && d.queue == c.queue + (if Queued(c, d) != [] && Queued(c, d)[0].Transfer? then [Queued(c, d)[0].id] else [])
    && Notices(d) == Notices(c) + (if Queued(c, d) == [L.Notice] then 1 else 0)
  }

  function StateAsked(id: ConnId, c: C.Conn, d: C.Conn): seq<L.Label> {
    if d.state != c.state then [L.Shutdown(id)] else []
  }

  function MaskAsked(id: ConnId, c: C.Conn, d: C.Conn): seq<L.Label> {
    if d.events != c.events then [L.Writing(id, d.events.writing)] else []
  }

  function PostAsked(id: ConnId, c: C.Conn, d: C.Conn): seq<L.Label> {
    if Queued(c, d) != [] then [L.Post(id, Queued(c, d)[0])] else []
  }

  lemma StateWorks(w: L.World, id: ConnId, c: C.Conn, d: C.Conn) returns (x: L.World)
    requires SoundWorld(w) && id < |w.conns| && AtWork(w, id)
    requires WorldView(w, id) == ConnView(c) && AskFacts(c, d)
    ensures L.Legal(w, StateAsked(id, c, d)) && x == L.After(w, StateAsked(id, c, d)) && AtWork(x, id)
    ensures Knows(w, x, id, ConnView(c).(state := d.state))
  {
    x := OneOrNone(w, StateAsked(id, c, d), id);
  }

  lemma MaskWorks(w: L.World, id: ConnId, c: C.Conn, d: C.Conn) returns (x: L.World)
    requires SoundWorld(w) && id < |w.conns| && AtWork(w, id)
    requires WorldView(w, id) == ConnView(c).(state := d.state) && AskFacts(c, d)
    ensures L.Legal(w, MaskAsked(id, c, d)) && x == L.After(w, MaskAsked(id, c, d)) && AtWork(x, id)
    ensures Knows(w, x, id, ConnView(d).(queue := c.queue))
  {
    x := OneOrNone(w, MaskAsked(id, c, d), id);
  }

  lemma PostWorks(w: L.World, id: ConnId, c: C.Conn, d: C.Conn) returns (x: L.World)
    requires SoundWorld(w) && id < |w.conns| && AtWork(w, id)
    requires WorldView(w, id) == ConnView(d).(queue := c.queue) && AskFacts(c, d)
    ensures L.Legal(w, PostAsked(id, c, d)) && x == L.After(w, PostAsked(id, c, d))
    ensures Knows(w, x, id, ConnView(d))
  {
    x := OneOrNone(w, PostAsked(id, c, d), id);
  }

  /** The server can do all a step of the connection asks for, and then knows the
      connection as the step left it. */
  lemma AskedWorks(w: L.World, id: ConnId, c: C.Conn, d: C.Conn) returns (x: L.World)
    requires SoundWorld(w) && id < |w.conns| && AtWork(w, id)
    requires WorldView(w, id) == ConnView(c) && AskFacts(c, d)
    ensures L.Legal(w, Asked(id, c, d)) && x == L.After(w, Asked(id, c, d))
    ensures Knows(w, x, id, ConnView(d))
  {
    var x1 := StateWorks(w, id, c, d);
    var x2 := MaskWorks(x1, id, c, d);
    x := PostWorks(x2, id, c, d);
    KnowsOn(w, x1, x2, id, WorldView(x1, id), WorldView(x2, id));
    KnowsOn(w, x2, x, id, WorldView(x2, id), WorldView(x, id));
    LS.RunsCompose(w, StateAsked(id, c, d), MaskAsked(id, c, d));
    LS.RunsCompose(w, StateAsked(id, c, d) + MaskAsked(id, c, d), PostAsked(id, c, d));
  }

  lemma SendAsks(c: C.Conn, data: seq<byte>, w: WriteResult)
    requires CI.ModeInv(c) && C.Fits(w, |data|)
    ensures AskFacts(c, C.Send(c, data, w))
  {
    if c.state == Connected {
      if c.output == [] {
        SendsDirectly(c, data, w);
        SendDirectlyAsks(c, data, w);
      } else {
        SendBehindAsks(c, data, w);
      }
    }
  }

  lemma SendsDirectly(c: C.Conn, data: seq<byte>, w: WriteResult)
    requires CI.WritesDirectly(c) && C.Fits(w, |data|)
    ensures C.Send(c, data, w) == C.SentDirectly(c.(sends := c.sends + 1), data, w)
  {
  }

  lemma SendBehindAsks(c: C.Conn, data: seq<byte>, w: WriteResult)
    requires c.state == Connected && c.output != [] && c.events == Interest(true, true) && C.Fits(w, |data|)
    ensures AskFacts(c, C.Send(c, data, w))
  {
    var d := C.Send(c, data, w);
    assert d.state == c.state && d.events == c.events && d.completes == c.completes && d.queue == c.queue;
  }

  lemma SendDirectlyAsks(c: C.Conn, data: seq<byte>, w: WriteResult)
    requires CI.WritesDirectly(c) && C.Fits(w, |data|)
    ensures AskFacts(c, C.SentDirectly(c.(sends := c.sends + 1), data, w))
  {
  }

  lemma ShutdownAsks(c: C.Conn)
    requires CI.Inv(c)
    ensures AskFacts(c, C.Shutdown(c))
  {
  }

  lemma WriteAsks(c: C.Conn, w: WriteResult)
    requires CI.ModeInv(c) && C.Enabled(c, C.DoWrite(w))
    ensures AskFacts(c, C.Step(c, C.DoWrite(w)))
  {
    HandleWriteAsks(c.(stage := C.Idle), w);
  }

  lemma HandleWriteAsks(c: C.Conn, w: WriteResult)
    requires CI.ModeInv(c) && C.Fits(w, |c.output|)
    ensures AskFacts(c, C.HandleWrite(c, w))
  {
  }

  lemma TransferAsks(c: C.Conn, id: nat, w: WriteResult)
    requires id < |c.book| && C.Fits(w, C.Available(c.book[id]))
    ensures AskFacts(c, C.SendFileInLoop(c, id, w))
  {
    if c.state != Disconnecting && !c.events.writing && c.output == [] {
      ChunkAsks(c, id, w);
    } else {
      assert C.SendFileInLoop(c, id, w) == c || C.SendFileInLoop(c, id, w) == c.(queue := c.queue + [id]);
    }
  }

  lemma ChunkAsks(c: C.Conn, id: nat, w: WriteResult)
    requires id < |c.book| && C.Fits(w, C.Available(c.book[id]))
    requires c.state != Disconnecting && !c.events.writing && c.output == []
    ensures AskFacts(c, C.SendFileInLoop(c, id, w))
  {
  }

  lemma SendFileAsks(c: C.Conn, t: C.Transfer, w: WriteResult)
    requires C.Fits(w, C.Available(t))
    ensures AskFacts(c, C.SendFile(c, t, w))
  {
    if c.state == Connected {
      TransferAsks(C.Booked(c, t), |c.book|, w);
    }
  }

  lemma CallAsks(c: C.Conn, l: C.Label)
    requires CI.Inv(c) && C.Enabled(c, l) && UserCall(l)
    ensures AskFacts(c, C.Step(c, l))
  {
    match l {
      case DoSend(data, w) => SendAsks(c, data, w);
      case DoShutdown => ShutdownAsks(c);
      case DoSendFile(file, offset, count, w) => SendFileAsks(c, C.NewTransfer(file, offset, count), w);
      case Consume(_) =>
    }
  }

  lemma RunTransferAsks(c: C.Conn, w: WriteResult)
    requires CI.Inv(c) && C.Enabled(c, C.RunTransfer(w))
    ensures AskFacts(c.(queue := c.queue[1..]), C.Step(c, C.RunTransfer(w)))
  {
    TransferAsks(c.(queue := c.queue[1..]), c.queue[0], w);
  }

  // ---------- The invariant ----------

  ghost predicate ViewAt(v: Net, c: ConnId)
    requires c < |v.conns| && c < |v.world.conns|
  {
    CI.Inv(v.conns[c]) && L.Known(v.world, c) && WorldView(v.world, c) == ConnView(v.conns[c])
  }

  /** A connection in the middle of its dispatch is at the head of what its loop
      has to dispatch, until it is closed. */
  ghost predicate StageAt(w: L.World, c: ConnId, d: C.Conn)
    requires L.Known(w, c)
  {
    var l := w.loops[w.conns[c].loop];
    d.stage != C.Idle ==>
      l.pc == L.Dispatching && (d.state != Disconnected ==> l.active != [] && l.active[0] == c)
  }

  /** A loop dispatches one connection at a time. */
  ghost predicate AloneAt(v: Net, a: ConnId, b: ConnId)
    requires a < |v.conns| && a < |v.world.conns| && b < |v.conns| && b < |v.world.conns|
  {
    a != b && LoopOf(v, a) == LoopOf(v, b) && v.conns[a].stage != C.Idle ==> v.conns[b].stage == C.Idle
  }

  ghost predicate Inv(v: Net) {
    && SoundWorld(v.world) && |v.conns| == |v.world.conns|
    && (forall c: ConnId :: c < |v.conns| ==> ViewAt(v, c) && StageAt(v.world, c, v.conns[c]))
    && (forall a: ConnId, b: ConnId :: a < |v.conns| && b < |v.conns| ==> AloneAt(v, a, b))
  }

  // ---------- Putting the two sides together ----------

  /** The server knows the connections other than c as before, and where they were
      being dispatched nothing moved. */
  ghost predicate OthersStay(v: Net, x: L.World, c: ConnId) {
    && |x.conns| == |v.world.conns|
    && forall d: ConnId :: d < |v.world.conns| && d < |v.conns| && d != c ==> OtherStays(v, x, d)
  }

  ghost predicate OtherStays(v: Net, x: L.World, d: ConnId)
    requires d < |v.world.conns| && d < |v.conns|
  {
    && L.Known(v.world, d) && L.Known(x, d) && x.conns[d].loop == v.world.conns[d].loop
    && WorldView(x, d) == WorldView(v.world, d)
    && (v.conns[d].stage != C.Idle ==> SamePlace(v.world.loops[LoopOf(v, d)], x.loops[LoopOf(v, d)]))
  }

  lemma OneActed(v: Net, x: L.World, c: ConnId, e: C.Conn)
    requires Inv(v) && SoundWorld(x) && c < |v.conns| && OthersStay(v, x, c)
    requires L.Known(x, c) && x.conns[c].loop == LoopOf(v, c) && WorldView(x, c) == ConnView(e)
    requires CI.Inv(e) && StageAt(x, c, e)
    requires e.stage != C.Idle ==> v.conns[c].stage != C.Idle || Quiet(v, LoopOf(v, c))
    ensures Inv(Net(x, v.conns[c := e]))
  {
    var z := Net(x, v.conns[c := e]);
    forall d: ConnId | d < |z.conns| ensures ViewAt(z, d) && StageAt(x, d, z.conns[d]) {
      if d != c {
        assert ViewAt(v, d) && StageAt(v.world, d, v.conns[d]) && OtherStays(v, x, d);
      }
    }
    forall a: ConnId, b: ConnId | a < |z.conns| && b < |z.conns| ensures AloneAt(z, a, b) {
      StillAlone(v, x, c, e, a, b);
    }
  }

  lemma StillAlone(v: Net, x: L.World, c: ConnId, e: C.Conn, a: ConnId, b: ConnId)
    requires |v.conns| == |v.world.conns| && c < |v.conns| && a < |v.conns| && b < |v.conns|
    requires AloneAt(v, a, b) && AloneAt(v, b, a) && OthersStay(v, x, c) && x.conns[c].loop == LoopOf(v, c)
    requires e.stage != C.Idle ==> v.conns[c].stage != C.Idle || Quiet(v, LoopOf(v, c))
    ensures AloneAt(Net(x, v.conns[c := e]), a, b)
  {
    assert a != c ==> OtherStays(v, x, a);
    assert b != c ==> OtherStays(v, x, b);
  }

  /** The server moved by itself. */
  lemma NoneActed(v: Net, x: L.World)
    requires Inv(v) && SoundWorld(x) && OthersStay(v, x, |v.conns|)
    ensures Inv(Net(x, v.conns))
  {
    var z := Net(x, v.conns);
    forall d: ConnId | d < |z.conns| ensures ViewAt(z, d) && StageAt(x, d, z.conns[d]) {
      assert ViewAt(v, d) && StageAt(v.world, d, v.conns[d]) && OtherStays(v, x, d);
    }
    forall a: ConnId, b: ConnId | a < |z.conns| && b < |z.conns| ensures AloneAt(z, a, b) {
      assert AloneAt(v, a, b) && OtherStays(v, x, a) && OtherStays(v, x, b);
    }
  }
}
