/** What every step of the server keeps: where each functor of each connection
    is, what the pollers hold, and which descriptors are open. */
module LifecycleInvariants {
  import opened ConnectionState
  import opened Registration
  import opened ThreadPool
  import opened Names
  import opened Lifecycle

  /** Queued: connectEstablished waits on the connection's loop.  Live: up.
      Leaving: closed, removeConnectionInLoop waits on the base loop.  Detached:
      out of connections_, connectDestroyed waits on the connection's loop.
      Gone: connectDestroyed has run. */
  datatype Phase = Queued | Live | Leaving | Detached | Gone

  function PhaseOf(w: World, c: ConnId): Phase
    requires c < |w.conns|
  {
    match w.conns[c].state
    case Connecting => Queued
    case Connected => Live
    case Disconnecting => Live
    case Disconnected =>
      if NameOf(w, c) in w.connections then Leaving
      else if w.conns[c].destroys == 0 then Detached
      else Gone
  }

  // ---------- Functors ----------

  function Unexecuted(l: LoopState): seq<Task> {
    if l.next <= |l.batch| then l.batch[l.next..] else []
  }

  /** How often a functor is still to be executed by a loop. */
  function Count(l: LoopState, t: Task): nat {
    multiset(l.pending)[t] + multiset(Unexecuted(l))[t]
  }

  /** How often the phase of its connection says it should be. */
  function Expected(w: World, j: LoopId, t: Task): nat
    requires t.c < |w.conns|
  {
    var p := PhaseOf(w, t.c);
    var own := j == w.conns[t.c].loop;
    match t
    case Established(_) => if p == Queued && own then 1 else 0
    case RemoveInLoop(_) => if p == Leaving && j == 0 then 1 else 0
    case Destroyed(_) => if p == Detached && own then 1 else 0
    case Other(_, _) => 0
  }

  ghost predicate TaskAt(w: World, j: LoopId, t: Task)
    requires j < |w.loops|
  {
    t.c < |w.conns| && !t.Other? ==> Count(w.loops[j], t) == Expected(w, j, t)
  }

  ghost predicate TaskInv(w: World) {
    forall j: LoopId, t :: j < |w.loops| ==> TaskAt(w, j, t)
  }

  /** A functor of loop j refers to a connection that has not been freed; what a
      connection queues itself is on its own loop. */
  ghost predicate RefersTo(w: World, j: LoopId, t: Task) {
    t.c < |w.conns| && !w.conns[t.c].freed && (t.Other? ==> w.conns[t.c].loop == j)
  }

  ghost predicate QueueAt(w: World, j: LoopId)
    requires j < |w.loops|
  {
    && (forall i :: 0 <= i < |w.loops[j].pending| ==> RefersTo(w, j, w.loops[j].pending[i]))
    && (forall i :: 0 <= i < |w.loops[j].batch| ==> RefersTo(w, j, w.loops[j].batch[i]))
  }

  // ---------- Connections ----------

  ghost predicate EntryAt(w: World, n: string)
    requires n in w.connections
  {
    var c := w.connections[n];
    c < |w.conns| && NameOf(w, c) == n && !w.conns[c].freed && w.conns[c].destroys == 0
  }

  ghost predicate ConnAt(w: World, c: ConnId)
    requires c < |w.conns|
  {
    var i := w.conns[c];
    && |w.loops| > 0 && i.loop == LoopFor(|w.loops| - 1, c) && i.loop < |w.loops|
    && (i.state != Disconnected ==> NameOf(w, c) in w.connections && w.connections[NameOf(w, c)] == c)
    && (NameOf(w, c) in w.connections ==> w.connections[NameOf(w, c)] == c)
    && (i.state != Disconnected ==> i.destroys == 0) && i.destroys <= 1
    && i.ups == (if i.state == Connecting then 0 else 1)
    && i.downs == (if i.state == Disconnected then 1 else 0)
    && (i.freed ==> PhaseOf(w, c) == Gone)
  }

  /** Names are never shared, and descriptors not while both are open. */
  ghost predicate Apart(w: World, a: ConnId, b: ConnId)
    requires a < |w.conns| && b < |w.conns|
  {
    a != b ==>
      && w.conns[a].name != w.conns[b].name
      && (!w.conns[a].freed && !w.conns[b].freed ==> w.conns[a].fd != w.conns[b].fd)
  }

  ghost predicate ConnInv(w: World) {
    && (forall c: ConnId :: c < |w.conns| ==> ConnAt(w, c))
    && (forall n :: n in w.connections ==> EntryAt(w, n))
    && (forall a: ConnId, b: ConnId :: a < |w.conns| && b < |w.conns| ==> Apart(w, a, b))
    && |w.loops| > 0 && w.nextLoop == NextAfter(|w.loops| - 1, |w.conns|)
  }

  // ---------- Names ----------

  ghost predicate NamedAt(w: World, c: ConnId)
    requires c < |w.conns|
  {
    w.conns[c].name == ConnName(w.server, w.ipPort, c + 1)
  }

  /** Connection c carries the number c + 1, and numbers fit an int. */
  ghost predicate NameInv(w: World) {
    && |w.ipPort| <= 21 && |w.conns| < MAX_INT
    && forall c: ConnId :: c < |w.conns| ==> NamedAt(w, c)
  }

  // ---------- Pollers ----------

  function IndexFor(p: Phase): Index {
    match p
    case Queued => New
    case Live => Added
    case Leaving => Deleted
    case Detached => Deleted
    case Gone => New
  }

  ghost predicate RegAt(w: World, j: LoopId)
    requires j < |w.loops|
  {
    && Agree(w.loops[j].reg) && w.loops[j].reg.errors == 0
    && (forall c :: c in w.loops[j].reg.chans ==> c < |w.conns| && w.conns[c].loop == j)
  }

  ghost predicate ChanAt(w: World, c: ConnId)
    requires c < |w.conns|
  {
    && Known(w, c)
    && var chan := w.loops[w.conns[c].loop].reg.chans[c];
       chan.fd == w.conns[c].fd && chan.index == IndexFor(PhaseOf(w, c))
  }

  ghost predicate RegInv(w: World) {
    && (forall j: LoopId :: j < |w.loops| ==> RegAt(w, j))
    && (forall c: ConnId :: c < |w.conns| ==> ChanAt(w, c))
  }

  // ---------- Loops ----------

  ghost predicate Owing(w: World, i: LoopId, j: LoopId) {
    i < |w.loops| && w.loops[i].owes == Loop(j)
  }

  /** Work waiting for a loop that will not look by itself has been announced. */
  ghost predicate WakeAt(w: World, j: LoopId)
    requires j < |w.loops|
  {
    var l := w.loops[j];
    l.pc != Dispatching && l.pending != [] ==> l.counter > 0 || exists i :: Owing(w, i, j)
  }

  ghost predicate ActiveAt(w: World, j: LoopId)
    requires j < |w.loops|
  {
    var l := w.loops[j];
    && (forall i :: 0 <= i < |l.active| ==>
          l.active[i] < |w.conns| && w.conns[l.active[i]].loop == j && PhaseOf(w, l.active[i]) == Live)
    && (forall i, k :: 0 <= i < k < |l.active| ==> l.active[i] != l.active[k])
  }

  ghost predicate LoopAt(w: World, j: LoopId)
    requires j < |w.loops|
  {
    var l := w.loops[j];
    && l.next <= |l.batch|
    && (l.pc != Running ==> l.batch == [] && l.next == 0)
    && (l.pc != Dispatching ==> l.active == [] && !l.wake)
    && (l.owes != Nobody ==> l.pc != Polling && l.owes.k < |w.loops|)
  }

  ghost predicate LoopInv(w: World) {
    forall j: LoopId :: j < |w.loops| ==> QueueAt(w, j) && WakeAt(w, j) && ActiveAt(w, j) && LoopAt(w, j)
  }

  ghost predicate Inv(w: World) {
    TaskInv(w) && ConnInv(w) && RegInv(w) && LoopInv(w)
  }

  // ---------- Counting functors ----------

  lemma PushCounts(l: LoopState, t: Task, u: Task)
    ensures Count(l.(pending := l.pending + [t]), u) == Count(l, u) + (if u == t then 1 else 0)
  {
  }

  lemma PopCounts(l: LoopState, u: Task)
    requires l.next < |l.batch|
    ensures Count(l.(next := l.next + 1), u) + (if u == l.batch[l.next] then 1 else 0) == Count(l, u)
  {
    assert l.batch[l.next..] == [l.batch[l.next]] + l.batch[l.next + 1..];
  }

  lemma SwapCounts(l: LoopState, u: Task)
    requires l.batch == [] && l.next == 0
    ensures Count(l.(pc := Running, batch := l.pending, next := 0, pending := []), u) == Count(l, u)
  {
    assert l.pending[0..] == l.pending;
  }

  lemma CountedOccurs(l: LoopState, t: Task)
    requires Count(l, t) > 0
    ensures Mentions(l, t.c)
  {
    if t in l.pending {
      var i :| 0 <= i < |l.pending| && l.pending[i] == t;
    } else {
      assert t in Unexecuted(l);
      var i :| 0 <= i < |Unexecuted(l)| && Unexecuted(l)[i] == t;
      assert l.batch[l.next + i] == t;
    }
  }

  // ---------- Steps that move a loop only ----------

  /** Loop j changed, its poller apart; nothing else did. */
  ghost predicate LoopMoved(w: World, v: World, j: LoopId) {
    && j < |w.loops| && |v.loops| == |w.loops|
    && v == w.(loops := v.loops)
    && v.loops[j].reg == w.loops[j].reg
    && (forall k :: 0 <= k < |w.loops| && k != j ==> v.loops[k] == w.loops[k])
  }

  lemma LoopMovedKeeps(w: World, v: World, j: LoopId)
    requires ConnInv(w) && RegInv(w) && LoopMoved(w, v, j)
    ensures ConnInv(v) && RegInv(v)
  {
    forall c: ConnId | c < |v.conns| ensures ConnAt(v, c) && ChanAt(v, c) {
      assert ConnAt(w, c) && ChanAt(w, c);
    }
    forall n | n in v.connections ensures EntryAt(v, n) {
      assert EntryAt(w, n);
    }
    forall a: ConnId, b: ConnId | a < |v.conns| && b < |v.conns| ensures Apart(v, a, b) {
      assert Apart(w, a, b);
    }
    forall k: LoopId | k < |v.loops| ensures RegAt(v, k) {
      assert RegAt(w, k);
    }
  }

  lemma SameExpected(w: World, v: World, j: LoopId, t: Task)
    requires v == w.(loops := v.loops) && t.c < |w.conns|
    ensures Expected(v, j, t) == Expected(w, j, t)
  {
    assert PhaseOf(v, t.c) == PhaseOf(w, t.c);
  }

  lemma SameCountsKeep(w: World, v: World, j: LoopId)
    requires TaskInv(w) && LoopMoved(w, v, j)
    requires forall t: Task :: !t.Other? ==> Count(v.loops[j], t) == Count(w.loops[j], t)
    ensures TaskInv(v)
  {
    forall k: LoopId, t | k < |v.loops| ensures TaskAt(v, k, t) {
      assert TaskAt(w, k, t);
      assert t.Other? || Count(v.loops[k], t) == Count(w.loops[k], t);
      if t.c < |w.conns| {
        SameExpected(w, v, k, t);
      }
    }
  }

  /** The loops other than j keep what they had, if j still owes what it owed. */
  lemma OtherLoopsKeep(w: World, v: World, j: LoopId)
    requires LoopInv(w) && LoopMoved(w, v, j)
    requires v.loops[j].owes == w.loops[j].owes || w.loops[j].owes == Nobody
    requires QueueAt(v, j) && WakeAt(v, j) && ActiveAt(v, j) && LoopAt(v, j)
    ensures LoopInv(v)
  {
    forall k: LoopId | k < |v.loops|
      ensures QueueAt(v, k) && WakeAt(v, k) && ActiveAt(v, k) && LoopAt(v, k)
    {
      assert QueueAt(w, k) && WakeAt(w, k) && ActiveAt(w, k) && LoopAt(w, k);
      if k != j && exists i :: Owing(w, i, k) {
        var i :| Owing(w, i, k);
        assert Owing(v, i, k);
      }
    }
  }

  lemma LoopStep(w: World, v: World, j: LoopId)
    requires Inv(w) && LoopMoved(w, v, j)
    requires forall t: Task :: !t.Other? ==> Count(v.loops[j], t) == Count(w.loops[j], t)
    requires v.loops[j].owes == w.loops[j].owes || w.loops[j].owes == Nobody
    requires QueueAt(v, j) && WakeAt(v, j) && ActiveAt(v, j) && LoopAt(v, j)
    ensures Inv(v)
  {
    LoopMovedKeeps(w, v, j);
    SameCountsKeep(w, v, j);
    OtherLoopsKeep(w, v, j);
  }

  lemma ReturnKeeps(w: World, j: LoopId, active: seq<ConnId>, wake: bool)
    requires Inv(w) && Enabled(w, Return(j, active, wake))
    ensures Inv(Step(w, Return(j, active, wake)))
  {
    var v := Step(w, Return(j, active, wake));
    assert QueueAt(w, j) && LoopAt(w, j) && RegAt(w, j);
    forall i | 0 <= i < |active|
      ensures active[i] < |v.conns| && v.conns[active[i]].loop == j && PhaseOf(v, active[i]) == Live
    {
      var c := active[i];
      assert AgreeAt(w.loops[j].reg, c) && ChanAt(w, c);
      assert PhaseOf(v, c) == PhaseOf(w, c);
    }
    LoopStep(w, v, j);
  }

  lemma EndDispatchKeeps(w: World, j: LoopId)
    requires Inv(w) && Enabled(w, EndDispatch(j))
    ensures Inv(Step(w, EndDispatch(j)))
  {
    var v := Step(w, EndDispatch(j));
    assert QueueAt(w, j) && LoopAt(w, j);
    forall t ensures Count(v.loops[j], t) == Count(w.loops[j], t) {
      SwapCounts(w.loops[j], t);
    }
    LoopStep(w, v, j);
  }

  lemma EndBatchKeeps(w: World, j: LoopId)
    requires Inv(w) && Enabled(w, EndBatch(j))
    ensures Inv(Step(w, EndBatch(j)))
  {
    var v := Step(w, EndBatch(j));
    assert QueueAt(w, j) && LoopAt(w, j) && WakeAt(w, j);
    if exists i :: Owing(w, i, j) {
      var i :| Owing(w, i, j);
      assert Owing(v, i, j);
    }
    assert Unexecuted(w.loops[j]) == [] == Unexecuted(v.loops[j]);
    LoopStep(w, v, j);
  }

  lemma WakeReadKeeps(w: World, j: LoopId)
    requires Inv(w) && Enabled(w, WakeRead(j))
    ensures Inv(Step(w, WakeRead(j)))
  {
    var v := Step(w, WakeRead(j));
    assert QueueAt(w, j) && LoopAt(w, j) && ActiveAt(w, j);
    forall i | 0 <= i < |v.loops[j].active|
      ensures PhaseOf(v, v.loops[j].active[i]) == Live
    {
      assert PhaseOf(v, w.loops[j].active[i]) == PhaseOf(w, w.loops[j].active[i]);
    }
    LoopStep(w, v, j);
  }

  /** Only a debt or a counter changed, in any loops. */
  ghost predicate OnlyWoken(w: World, v: World) {
    && |v.loops| == |w.loops| && v == w.(loops := v.loops)
    && forall i :: 0 <= i < |w.loops| ==>
         v.loops[i] == w.loops[i].(owes := v.loops[i].owes, counter := v.loops[i].counter)
  }

  lemma OnlyWokenKeeps(w: World, v: World)
    requires ConnInv(w) && RegInv(w) && TaskInv(w) && OnlyWoken(w, v)
    ensures ConnInv(v) && RegInv(v) && TaskInv(v)
  {
    forall c: ConnId | c < |v.conns| ensures ConnAt(v, c) && ChanAt(v, c) {
      assert ConnAt(w, c) && ChanAt(w, c);
    }
    forall n | n in v.connections ensures EntryAt(v, n) {
      assert EntryAt(w, n);
    }
    forall a: ConnId, b: ConnId | a < |v.conns| && b < |v.conns| ensures Apart(v, a, b) {
      assert Apart(w, a, b);
    }
    forall i: LoopId | i < |v.loops| ensures RegAt(v, i) {
      assert RegAt(w, i);
    }
    forall i: LoopId, t: Task | i < |v.loops| ensures TaskAt(v, i, t) {
      assert TaskAt(w, i, t) && Count(v.loops[i], t) == Count(w.loops[i], t);
      if t.c < |w.conns| {
        SameExpected(w, v, i, t);
      }
    }
  }

  /** The wakeup that was owed is made: the debt becomes a positive counter. */
  lemma WakeKeeps(w: World, j: LoopId)
    requires Inv(w) && Enabled(w, Wake(j))
    ensures Inv(Step(w, Wake(j)))
  {
    var v := Step(w, Wake(j));
    OnlyWokenKeeps(w, v);
    forall i: LoopId | i < |v.loops|
      ensures QueueAt(v, i) && WakeAt(v, i) && ActiveAt(v, i) && LoopAt(v, i)
    {
      WokenLoop(w, j, i);
    }
  }

  lemma WokenLoop(w: World, j: LoopId, i: LoopId)
    requires LoopInv(w) && Enabled(w, Wake(j)) && i < |w.loops|
    ensures var v := Step(w, Wake(j));
            QueueAt(v, i) && WakeAt(v, i) && ActiveAt(v, i) && LoopAt(v, i)
  {
    var v := Step(w, Wake(j));
    assert QueueAt(w, i) && WakeAt(w, i) && LoopAt(w, i);
    SameActive(w, v, i);
    if i != w.loops[j].owes.k && exists m :: Owing(w, m, i) {
      var m :| Owing(w, m, i);
      assert Owing(v, m, i);
    }
  }

  lemma SameActive(w: World, v: World, i: LoopId)
    requires i < |w.loops| && i < |v.loops| && ActiveAt(w, i)
    requires v == w.(loops := v.loops) && v.loops[i].active == w.loops[i].active
    ensures ActiveAt(v, i)
  {
    forall n | 0 <= n < |v.loops[i].active|
      ensures PhaseOf(v, v.loops[i].active[n]) == Live
    {
      assert PhaseOf(v, w.loops[i].active[n]) == PhaseOf(w, w.loops[i].active[n]);
    }
  }

  // ---------- Pushing ----------

  lemma ReferencedAlive(w: World, c: ConnId)
    requires Inv(w) && Referenced(w, c)
    ensures c < |w.conns| && !w.conns[c].freed
  {
    if n :| n in w.connections && w.connections[n] == c {
      assert EntryAt(w, n);
    } else {
      var j :| 0 <= j < |w.loops| && Mentions(w.loops[j], c);
      assert QueueAt(w, j);
      if i :| 0 <= i < |w.loops[j].pending| && w.loops[j].pending[i].c == c {
        assert RefersTo(w, j, w.loops[j].pending[i]);
      } else {
        var i :| 0 <= i < |w.loops[j].batch| && w.loops[j].batch[i].c == c;
        assert RefersTo(w, j, w.loops[j].batch[i]);
      }
    }
  }

  /** Owing k keeps every announcement, and makes one for k. */
  lemma QueueInLoopKeeps(w: World, j: LoopId, k: LoopId, t: Task)
    requires ConnInv(w) && RegInv(w) && LoopInv(w)
    requires j < |w.loops| && k < |w.loops| && RefersTo(w, k, t)
    requires w.loops[j].pc != Polling && w.loops[j].owes == Nobody
    ensures var v := QueueInLoop(w, j, k, t);
            && ConnInv(v) && RegInv(v) && LoopInv(v)
            && v == w.(loops := v.loops) && |v.loops| == |w.loops|
            && forall i, u :: 0 <= i < |w.loops| ==>
                 Count(v.loops[i], u) == Count(w.loops[i], u) + (if i == k && u == t then 1 else 0)
  {
    var p := Push(w, k, t);
    var v := QueueInLoop(w, j, k, t);
    LoopMovedKeeps(w, p, k);
    LoopMovedKeeps(p, v, j);
    forall i, u | 0 <= i < |w.loops|
      ensures Count(v.loops[i], u) == Count(w.loops[i], u) + (if i == k && u == t then 1 else 0)
    {
      PushCounts(w.loops[k], t, u);
      assert Count(v.loops[i], u) == Count(p.loops[i], u);
    }
    forall i: LoopId | i < |v.loops|
      ensures QueueAt(v, i) && WakeAt(v, i) && ActiveAt(v, i) && LoopAt(v, i)
    {
      PushedLoop(w, j, k, t, i);
    }
  }

  lemma PushedLoop(w: World, j: LoopId, k: LoopId, t: Task, i: LoopId)
    requires LoopInv(w) && i < |w.loops|
    requires j < |w.loops| && k < |w.loops| && RefersTo(w, k, t)
    requires w.loops[j].pc != Polling && w.loops[j].owes == Nobody
    ensures var v := QueueInLoop(w, j, k, t);
            QueueAt(v, i) && WakeAt(v, i) && ActiveAt(v, i) && LoopAt(v, i)
  {
    var v := QueueInLoop(w, j, k, t);
    assert QueueAt(w, i) && WakeAt(w, i) && LoopAt(w, i);
    SameActive(w, v, i);
    if i == k && (j != k || w.loops[j].pc == Running) {
      assert Owing(v, j, k);
    } else if exists m :: Owing(w, m, i) {
      var m :| Owing(w, m, i);
      assert Owing(v, m, i);
    }
  }

  lemma PostKeeps(w: World, c: ConnId, work: Work)
    requires Inv(w) && Enabled(w, Post(c, work))
    ensures Inv(Step(w, Post(c, work)))
  {
    var v := Step(w, Post(c, work));
    var k := w.conns[c].loop;
    ReferencedAlive(w, c);
    QueueInLoopKeeps(w, k, k, Other(c, work));
    SameCountsKeep(w, v, k);
  }

  // ---------- Steps of one connection ----------

  /** Connection c changed, perhaps its phase; the others and the frame of the
      world did not. */
  ghost predicate ConnMoved(w: World, v: World, c: ConnId) {
    && c < |w.conns| && |v.conns| == |w.conns| && |v.loops| == |w.loops|
    && v.server == w.server && v.ipPort == w.ipPort && v.nextLoop == w.nextLoop
    && v.conns[c].loop == w.conns[c].loop && v.conns[c].fd == w.conns[c].fd
    && v.conns[c].name == w.conns[c].name
    && (forall d: ConnId :: d < |w.conns| && d != c ==> v.conns[d] == w.conns[d])
    && (v.connections == w.connections || v.connections == w.connections - {NameOf(w, c)})
  }

  lemma OtherPhases(w: World, v: World, c: ConnId, d: ConnId)
    requires ConnInv(w) && ConnMoved(w, v, c) && d < |w.conns| && d != c
    ensures NameOf(v, d) == NameOf(w, d)
    ensures NameOf(v, d) in v.connections <==> NameOf(w, d) in w.connections
    ensures NameOf(w, d) in w.connections ==> v.connections[NameOf(v, d)] == w.connections[NameOf(w, d)]
    ensures PhaseOf(v, d) == PhaseOf(w, d)
  {
    assert Apart(w, c, d);
  }

  lemma ConnMovedKeeps(w: World, v: World, c: ConnId)
    requires ConnInv(w) && ConnMoved(w, v, c) && ConnAt(v, c)
    requires w.conns[c].freed ==> v.conns[c].freed
    requires NameOf(w, c) in v.connections ==> v.conns[c].destroys == 0 && !v.conns[c].freed
    ensures ConnInv(v)
  {
    forall d: ConnId | d < |v.conns| ensures ConnAt(v, d) {
      if d != c {
        assert ConnAt(w, d);
        OtherPhases(w, v, c, d);
      }
    }
    forall n | n in v.connections ensures EntryAt(v, n) {
      assert EntryAt(w, n);
      assert NameOf(v, v.connections[n]) == NameOf(w, w.connections[n]);
    }
    forall a: ConnId, b: ConnId | a < |v.conns| && b < |v.conns| ensures Apart(v, a, b) {
      assert Apart(w, a, b);
    }
  }

  /** The poller of c's loop changed for c alone. */
  ghost predicate RegMoved(w: World, v: World, c: ConnId) {
    && Known(w, c) && |v.loops| == |w.loops|
    && var k := w.conns[c].loop;
       && (forall j :: 0 <= j < |w.loops| && j != k ==> v.loops[j].reg == w.loops[j].reg)
       && c in v.loops[k].reg.chans
       && v.loops[k].reg.chans == w.loops[k].reg.chans[c := v.loops[k].reg.chans[c]]
       && v.loops[k].reg.chans[c].fd == w.loops[k].reg.chans[c].fd
       && v.loops[k].reg.errors == w.loops[k].reg.errors
       && Agree(v.loops[k].reg)
  }

  lemma RegMovedKeeps(w: World, v: World, c: ConnId)
    requires ConnInv(w) && RegInv(w) && ConnMoved(w, v, c) && RegMoved(w, v, c)
    requires v.loops[w.conns[c].loop].reg.chans[c].index == IndexFor(PhaseOf(v, c))
    ensures RegInv(v)
  {
    forall d: ConnId | d < |v.conns| ensures ChanAt(v, d) {
      assert ChanAt(w, d);
      if d != c {
        OtherPhases(w, v, c, d);
      }
    }
    forall j: LoopId | j < |v.loops| ensures RegAt(v, j) {
      assert RegAt(w, j) && ChanAt(w, c);
    }
  }

  /** No loop changed, its poller apart. */
  ghost predicate LoopsStill(w: World, v: World) {
    && |v.loops| == |w.loops|
    && forall j :: 0 <= j < |w.loops| ==> v.loops[j] == w.loops[j].(reg := v.loops[j].reg)
  }

  lemma LoopsStillKeep(w: World, v: World, c: ConnId)
    requires ConnInv(w) && LoopInv(w) && ConnMoved(w, v, c) && LoopsStill(w, v)
    requires v.conns[c].freed ==> w.conns[c].freed
    requires w.conns[c].loop < |w.loops|
    requires PhaseOf(v, c) == Live || c !in w.loops[w.conns[c].loop].active
    ensures LoopInv(v)
  {
    forall j: LoopId | j < |v.loops|
      ensures QueueAt(v, j) && WakeAt(v, j) && ActiveAt(v, j) && LoopAt(v, j)
    {
      StillLoop(w, v, c, j);
    }
  }

  lemma StillLoop(w: World, v: World, c: ConnId, j: LoopId)
    requires ConnInv(w) && LoopInv(w) && ConnMoved(w, v, c) && LoopsStill(w, v) && j < |w.loops|
    requires v.conns[c].freed ==> w.conns[c].freed
    requires w.conns[c].loop < |w.loops|
    requires PhaseOf(v, c) == Live || c !in w.loops[w.conns[c].loop].active
    ensures QueueAt(v, j) && WakeAt(v, j) && ActiveAt(v, j) && LoopAt(v, j)
  {
    assert QueueAt(w, j) && WakeAt(w, j) && ActiveAt(w, j) && LoopAt(w, j);
    forall i | 0 <= i < |w.loops[j].pending| ensures RefersTo(v, j, w.loops[j].pending[i]) {
      assert RefersTo(w, j, w.loops[j].pending[i]);
    }
    forall i | 0 <= i < |w.loops[j].batch| ensures RefersTo(v, j, w.loops[j].batch[i]) {
      assert RefersTo(w, j, w.loops[j].batch[i]);
    }
    forall i | 0 <= i < |w.loops[j].active|
      ensures v.conns[w.loops[j].active[i]].loop == j && PhaseOf(v, w.loops[j].active[i]) == Live
    {
      if w.loops[j].active[i] != c {
        OtherPhases(w, v, c, w.loops[j].active[i]);
      }
    }
    if exists i :: Owing(w, i, j) {
      var i :| Owing(w, i, j);
      assert Owing(v, i, j);
    }
  }

  /** The functors of connections other than c are where they should be. */
  ghost predicate TasksBut(w: World, c: ConnId) {
    forall j: LoopId, t: Task :: j < |w.loops| && t.c != c ==> TaskAt(w, j, t)
  }

  /** Functors of other connections are where they were; those of c are where its
      phase says. */
  lemma TasksMoved(w: World, v: World, c: ConnId)
    requires ConnInv(w) && TasksBut(w, c) && ConnMoved(w, v, c)
    requires forall j, t: Task :: 0 <= j < |w.loops| && t.c != c && !t.Other? ==>
               Count(v.loops[j], t) == Count(w.loops[j], t)
    requires forall j: LoopId :: j < |w.loops| ==>
               TaskAt(v, j, Established(c)) && TaskAt(v, j, RemoveInLoop(c)) && TaskAt(v, j, Destroyed(c))
    ensures TaskInv(v)
  {
    forall j: LoopId, t: Task | j < |v.loops| ensures TaskAt(v, j, t) {
      if t.c < |w.conns| && t.c != c && !t.Other? {
        assert TaskAt(w, j, t);
        OtherPhases(w, v, c, t.c);
        assert Count(v.loops[j], t) == Count(w.loops[j], t);
      }
      assert t.c == c ==> t.Other? || t == Established(c) || t == RemoveInLoop(c) || t == Destroyed(c);
    }
  }

  /** Nothing that the functors depend on changed. */
  lemma TasksStill(w: World, v: World, c: ConnId)
    requires ConnInv(w) && TaskInv(w) && ConnMoved(w, v, c) && LoopsStill(w, v)
    requires PhaseOf(v, c) == PhaseOf(w, c)
    ensures TaskInv(v)
  {
    forall j, t | 0 <= j < |w.loops| ensures Count(v.loops[j], t) == Count(w.loops[j], t) {
      assert v.loops[j] == w.loops[j].(reg := v.loops[j].reg);
    }
    forall j: LoopId | j < |w.loops|
      ensures TaskAt(v, j, Established(c)) && TaskAt(v, j, RemoveInLoop(c)) && TaskAt(v, j, Destroyed(c))
    {
      assert TaskAt(w, j, Established(c)) && TaskAt(w, j, RemoveInLoop(c)) && TaskAt(w, j, Destroyed(c));
    }
    TasksMoved(w, v, c);
  }

  /** A change that leaves the phase alone. */
  lemma PhaseKept(w: World, v: World, c: ConnId)
    requires Inv(w) && ConnMoved(w, v, c) && LoopsStill(w, v) && ConnAt(v, c)
    requires v.connections == w.connections && PhaseOf(v, c) == PhaseOf(w, c)
    requires v.conns[c].destroys == w.conns[c].destroys && v.conns[c].freed == w.conns[c].freed
    requires RegMoved(w, v, c)
    requires v.loops[w.conns[c].loop].reg.chans[c].index == w.loops[w.conns[c].loop].reg.chans[c].index
    ensures Inv(v)
  {
    assert ConnAt(w, c) && ChanAt(w, c) && ActiveAt(w, w.conns[c].loop);
    if NameOf(w, c) in w.connections {
      assert EntryAt(w, NameOf(w, c));
    }
    ConnMovedKeeps(w, v, c);
    RegMovedKeeps(w, v, c);
    LoopsStillKeep(w, v, c);
    TasksStill(w, v, c);
  }

  lemma SameReg(w: World, c: ConnId)
    requires RegInv(w) && c < |w.conns|
    ensures RegMoved(w, w, c)
  {
    assert ChanAt(w, c) && RegAt(w, w.conns[c].loop);
    var chans := w.loops[w.conns[c].loop].reg.chans;
    assert chans == chans[c := chans[c]];
  }

  lemma ShutdownKeeps(w: World, c: ConnId)
    requires Inv(w) && Enabled(w, Shutdown(c))
    ensures Inv(Step(w, Shutdown(c)))
  {
    var v := Step(w, Shutdown(c));
    assert ConnAt(w, c);
    assert NameOf(v, c) == NameOf(w, c);
    SameReg(w, c);
    PhaseKept(w, v, c);
  }

  // ---------- The poller of a connection ----------

  function RegOf(w: World, c: ConnId): Poll<ConnId>
    requires Known(w, c)
  {
    w.loops[w.conns[c].loop].reg
  }

  /** An open descriptor belongs to one connection, so registering or removing its
      channel cannot clash, even when the kernel has reused the number. */
  lemma FdIsFree(w: World, c: ConnId)
    requires ConnInv(w) && RegInv(w) && c < |w.conns| && !w.conns[c].freed
    ensures Known(w, c) && FdFree(RegOf(w, c), c) && Agree(RegOf(w, c)) && RegOf(w, c).errors == 0
  {
    assert ChanAt(w, c) && RegAt(w, w.conns[c].loop);
    var reg := RegOf(w, c);
    var fd := reg.chans[c].fd;
    assert AgreeAt(reg, c);
    if fd in reg.table {
      var d := reg.table[fd];
      assert TableAt(reg, fd) && AgreeAt(reg, d);
      assert ChanAt(w, d) && ConnAt(w, d) && Apart(w, c, d);
      assert d == c;
    }
  }

  lemma PollerSets(w: World, c: ConnId, events: Interest)
    requires ConnInv(w) && RegInv(w) && c < |w.conns| && !w.conns[c].freed
    ensures Known(w, c)
    ensures var reg, q := RegOf(w, c), SetEvents(RegOf(w, c), c, events);
            && Agree(q) && q.errors == 0
            && q.chans == reg.chans[c := Chan(w.conns[c].fd, events,
                 if reg.chans[c].index == Added && events == NO_INTEREST then Deleted else Added)]
  {
    FdIsFree(w, c);
    assert ChanAt(w, c);
    SetEventsKeepsAgreement(RegOf(w, c), c, events);
    SetEventsRegisters(RegOf(w, c), c, events);
  }

  lemma PollerRemoves(w: World, c: ConnId)
    requires ConnInv(w) && RegInv(w) && c < |w.conns| && !w.conns[c].freed
    ensures Known(w, c)
    ensures var reg, q := RegOf(w, c), RemoveChannel(RegOf(w, c), c);
            && Agree(q) && q.errors == 0
            && q.chans == reg.chans[c := reg.chans[c].(index := New)]
  {
    FdIsFree(w, c);
    RemoveKeepsAgreement(RegOf(w, c), c);
    RemoveUnregisters(RegOf(w, c), c);
  }

  function Moved(w: World, c: ConnId, info: Info, reg: Poll<ConnId>): World
    requires Known(w, c)
  {
    SetReg(SetInfo(w, c, info), w.conns[c].loop, reg)
  }

  lemma MovedShape(w: World, c: ConnId, info: Info, reg: Poll<ConnId>)
    requires ConnInv(w) && RegInv(w) && Known(w, c)
    requires info.loop == w.conns[c].loop && info.fd == w.conns[c].fd && info.name == w.conns[c].name
    requires Agree(reg) && reg.errors == 0 && c in reg.chans
    requires reg.chans == RegOf(w, c).chans[c := reg.chans[c]] && reg.chans[c].fd == w.conns[c].fd
    ensures var v := Moved(w, c, info, reg);
            ConnMoved(w, v, c) && RegMoved(w, v, c) && LoopsStill(w, v) && NameOf(v, c) == NameOf(w, c)
  {
    assert ChanAt(w, c) && RegAt(w, w.conns[c].loop);
  }

  lemma WritingKeeps(w: World, c: ConnId, on: bool)
    requires Inv(w) && Enabled(w, Writing(c, on))
    ensures Inv(Step(w, Writing(c, on)))
  {
    var v := Step(w, Writing(c, on));
    var q := SetEvents(RegOf(w, c), c, Interest(true, on));
    assert ConnAt(w, c) && ChanAt(w, c);
    PollerSets(w, c, Interest(true, on));
    assert v == Moved(w, c, w.conns[c], q) by {
      assert w.conns[c := w.conns[c]] == w.conns;
    }
    MovedShape(w, c, w.conns[c], q);
    PhaseKept(w, v, c);
  }

  // ---------- Freeing ----------

  /** Until connectDestroyed has run, something refers to the connection. */
  lemma ReferencedUntilGone(w: World, c: ConnId)
    requires Inv(w) && c < |w.conns|
    ensures PhaseOf(w, c) != Gone || NameOf(w, c) in w.connections ==> Referenced(w, c)
  {
    assert ConnAt(w, c);
    if NameOf(w, c) in w.connections {
      assert w.connections[NameOf(w, c)] == c;
    } else if PhaseOf(w, c) == Detached {
      var k := w.conns[c].loop;
      assert TaskAt(w, k, Destroyed(c));
      CountedOccurs(w.loops[k], Destroyed(c));
    }
  }

  lemma FreeKeeps(w: World, c: ConnId)
    requires Inv(w) && Enabled(w, Free(c))
    ensures Inv(Step(w, Free(c)))
  {
    var v := Step(w, Free(c));
    ReferencedUntilGone(w, c);
    assert ConnAt(w, c);
    assert NameOf(v, c) == NameOf(w, c);
    SameReg(w, c);
    assert ChanAt(w, c);
    ConnMovedKeeps(w, v, c);
    RegMovedKeeps(w, v, c);
    TasksStill(w, v, c);
    forall j: LoopId | j < |v.loops|
      ensures QueueAt(v, j) && WakeAt(v, j) && ActiveAt(v, j) && LoopAt(v, j)
    {
      FreedLoop(w, c, j);
    }
  }

  lemma FreedLoop(w: World, c: ConnId, j: LoopId)
    requires Inv(w) && Enabled(w, Free(c)) && j < |w.loops|
    ensures var v := Step(w, Free(c));
            QueueAt(v, j) && WakeAt(v, j) && ActiveAt(v, j) && LoopAt(v, j)
  {
    var v := Step(w, Free(c));
    assert QueueAt(w, j) && WakeAt(w, j) && ActiveAt(w, j) && LoopAt(w, j);
    assert !Mentions(w.loops[j], c);
    forall i | 0 <= i < |w.loops[j].pending| ensures RefersTo(v, j, w.loops[j].pending[i]) {
      assert RefersTo(w, j, w.loops[j].pending[i]);
    }
    forall i | 0 <= i < |w.loops[j].batch| ensures RefersTo(v, j, w.loops[j].batch[i]) {
      assert RefersTo(w, j, w.loops[j].batch[i]);
    }
    forall i | 0 <= i < |w.loops[j].active|
      ensures PhaseOf(v, w.loops[j].active[i]) == Live
    {
      var d := w.loops[j].active[i];
      ReferencedUntilGone(w, c);
      assert NameOf(v, d) == NameOf(w, d);
    }
    if exists i :: Owing(w, i, j) {
      var i :| Owing(w, i, j);
      assert Owing(v, i, j);
    }
  }

  // ---------- Closing ----------

  /** All but the functors. */
  ghost predicate Rest(w: World) {
    ConnInv(w) && RegInv(w) && LoopInv(w)
  }

  /** The counts of every loop are those of w, plus `extra` on loop k. */
  ghost predicate Counts(w: World, v: World, k: LoopId, extra: Task) {
    |v.loops| == |w.loops| &&
    forall i, u :: 0 <= i < |w.loops| ==>
      Count(v.loops[i], u) == Count(w.loops[i], u) + (if i == k && u == extra then 1 else 0)
  }

  lemma StillCounts(w: World, v: World)
    requires LoopsStill(w, v)
    ensures forall i, u :: 0 <= i < |w.loops| ==> Count(v.loops[i], u) == Count(w.loops[i], u)
  {
    forall i, u | 0 <= i < |w.loops| ensures Count(v.loops[i], u) == Count(w.loops[i], u) {
      assert v.loops[i] == w.loops[i].(reg := v.loops[i].reg);
    }
  }

  ghost predicate InPhase(w: World, c: ConnId, p: Phase) {
    c < |w.conns| && PhaseOf(w, c) == p
  }

  lemma ClosedKeeps(w: World, c: ConnId)
    requires Rest(w) && InPhase(w, c, Live) && Known(w, c)
    requires c !in w.loops[w.conns[c].loop].active
    ensures var v := Closed(w, c);
            Rest(v) && InPhase(v, c, Leaving) && Known(v, c) && ConnMoved(w, v, c) && LoopsStill(w, v)
    ensures Closed(w, c).connections == w.connections
  {
    var v := Closed(w, c);
    assert ConnAt(w, c) && ChanAt(w, c);
    PollerSets(w, c, NO_INTEREST);
    var info := w.conns[c].(state := Disconnected, downs := w.conns[c].downs + 1);
    MovedShape(w, c, info, SetEvents(RegOf(w, c), c, NO_INTEREST));
    assert EntryAt(w, NameOf(w, c));
    ConnMovedKeeps(w, v, c);
    RegMovedKeeps(w, v, c);
    LoopsStillKeep(w, v, c);
  }

  /** Taken out of the map, the connection is detached. */
  lemma ErasedKeeps(w: World, c: ConnId)
    requires Rest(w) && InPhase(w, c, Leaving) && Known(w, c)
    requires c !in w.loops[w.conns[c].loop].active
    ensures var v := w.(connections := w.connections - {NameOf(w, c)});
            Rest(v) && InPhase(v, c, Detached) && Known(v, c) && ConnMoved(w, v, c)
  {
    var v := w.(connections := w.connections - {NameOf(w, c)});
    assert ConnAt(w, c) && ChanAt(w, c) && EntryAt(w, NameOf(w, c));
    assert NameOf(v, c) == NameOf(w, c);
    SameReg(w, c);
    ConnMovedKeeps(w, v, c);
    RegMovedKeeps(w, v, c);
    LoopsStillKeep(w, v, c);
  }

  lemma RemovalKeeps(w: World, c: ConnId)
    requires Rest(w) && InPhase(w, c, Leaving) && Known(w, c)
    requires c !in w.loops[w.conns[c].loop].active
    requires w.loops[0].pc != Polling && w.loops[0].owes == Nobody
    ensures var v := RemoveConnectionInLoop(w, c);
            Rest(v) && InPhase(v, c, Detached) && ConnMoved(w, v, c)
            && Counts(w, v, w.conns[c].loop, Destroyed(c))
  {
    var u := w.(connections := w.connections - {NameOf(w, c)});
    ErasedKeeps(w, c);
    assert RefersTo(u, w.conns[c].loop, Destroyed(c)) by {
      assert ConnAt(u, c);
    }
    QueueInLoopKeeps(u, 0, w.conns[c].loop, Destroyed(c));
    var v := RemoveConnectionInLoop(w, c);
    assert NameOf(v, c) == NameOf(u, c);
  }

  /** The three functors of connection c are where its phase says. */
  ghost predicate TasksOf(w: World, c: ConnId) {
    forall j: LoopId :: j < |w.loops| ==>
      TaskAt(w, j, Established(c)) && TaskAt(w, j, RemoveInLoop(c)) && TaskAt(w, j, Destroyed(c))
  }

  lemma TasksOfAll(w: World, c: ConnId)
    requires TaskInv(w)
    ensures TasksOf(w, c) && TasksBut(w, c)
  {
    forall j: LoopId | j < |w.loops|
      ensures TaskAt(w, j, Established(c)) && TaskAt(w, j, RemoveInLoop(c)) && TaskAt(w, j, Destroyed(c))
    {
    }
  }

  ghost predicate NoTasksAt(w: World, c: ConnId, i: LoopId)
    requires i < |w.loops|
  {
    && Count(w.loops[i], Established(c)) == 0
    && Count(w.loops[i], RemoveInLoop(c)) == 0
    && Count(w.loops[i], Destroyed(c)) == 0
  }

  ghost predicate NoTasks(w: World, c: ConnId) {
    forall i: LoopId :: i < |w.loops| ==> NoTasksAt(w, c, i)
  }

  /** A connection gains one functor together with the phase that asks for it. */
  lemma TaskGained(w: World, v: World, c: ConnId, k: LoopId, t: Task)
    requires ConnInv(w) && TasksBut(w, c) && ConnMoved(w, v, c) && Counts(w, v, k, t) && t.c == c
    requires NoTasks(w, c)
    requires match t
             case Established(_) => PhaseOf(v, c) == Queued && k == w.conns[c].loop
             case RemoveInLoop(_) => PhaseOf(v, c) == Leaving && k == 0
             case Destroyed(_) => PhaseOf(v, c) == Detached && k == w.conns[c].loop
             case Other(_, _) => false
    ensures TaskInv(v)
  {
    forall j: LoopId | j < |w.loops|
      ensures TaskAt(v, j, Established(c)) && TaskAt(v, j, RemoveInLoop(c)) && TaskAt(v, j, Destroyed(c))
    {
      assert NoTasksAt(w, c, j);
      assert Count(v.loops[j], Established(c))
          == Count(w.loops[j], Established(c)) + (if j == k && Established(c) == t then 1 else 0);
      assert Count(v.loops[j], RemoveInLoop(c))
          == Count(w.loops[j], RemoveInLoop(c)) + (if j == k && RemoveInLoop(c) == t then 1 else 0);
      assert Count(v.loops[j], Destroyed(c))
          == Count(w.loops[j], Destroyed(c)) + (if j == k && Destroyed(c) == t then 1 else 0);
    }
    TasksMoved(w, v, c);
  }

  lemma LiveHasNoTasks(w: World, c: ConnId, j: LoopId)
    requires TaskInv(w) && j < |w.loops| && c < |w.conns|
    requires PhaseOf(w, c) == Live || PhaseOf(w, c) == Gone
    ensures NoTasksAt(w, c, j)
  {
    assert TaskAt(w, j, Established(c)) && TaskAt(w, j, RemoveInLoop(c)) && TaskAt(w, j, Destroyed(c));
  }

  /** A close on the base loop removes the connection at once; on a sub loop it
      leaves that to the base loop. */
  lemma HandleCloseKeeps(w: World, c: ConnId)
    requires Inv(w) && InPhase(w, c, Live) && Known(w, c)
    requires c !in w.loops[w.conns[c].loop].active
    requires At(w, w.conns[c].loop, Dispatching)
    ensures Inv(HandleClose(w, c))
  {
    var j := w.conns[c].loop;
    var u := Closed(w, c);
    var v := HandleClose(w, c);
    ClosedKeeps(w, c);
    StillCounts(w, u);
    TasksOfAll(w, c);
    forall i: LoopId | i < |w.loops| ensures NoTasksAt(w, c, i) {
      LiveHasNoTasks(w, c, i);
    }
    assert u.loops[j] == w.loops[j].(reg := u.loops[j].reg);
    if j == 0 {
      RemovalKeeps(u, c);
      TaskGained(w, v, c, 0, Destroyed(c));
    } else {
      LeavingQueued(u, j, c);
      TaskGained(w, v, c, 0, RemoveInLoop(c));
    }
  }

  lemma LeavingQueued(u: World, j: LoopId, c: ConnId)
    requires Rest(u) && InPhase(u, c, Leaving) && At(u, j, Dispatching)
    ensures var v := QueueInLoop(u, j, 0, RemoveInLoop(c));
            Rest(v) && InPhase(v, c, Leaving) && Counts(u, v, 0, RemoveInLoop(c)) && v == u.(loops := v.loops)
  {
    assert ConnAt(u, c);
    QueueInLoopKeeps(u, j, 0, RemoveInLoop(c));
    var v := QueueInLoop(u, j, 0, RemoveInLoop(c));
    assert NameOf(v, c) == NameOf(u, c);
  }
}
