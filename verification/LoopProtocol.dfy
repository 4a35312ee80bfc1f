/** One event loop and any number of other threads, as interleaved steps: the
    lock, the swap, the flags and the eventfd counter.  The loop thread walks
    through loop(); any other thread may push a functor or ask the loop to quit,
    and wakes the loop in a step of its own. */
module LoopProtocol {

  type Tid = nat

  /** Where the loop thread stands.
      Entry: called, quit_ not yet reset.   Test: at `while (!quit_)`.
      Poll: in epoll_wait.                  Dispatch: handling active channels.
      Swap: callingPendingFunctors_ set.    Run: executing the swapped batch. */
  datatype Pc = Entry | Test | Poll | Dispatch(wake: bool) | Swap | Run | Done

  const COUNTER_MAX: nat := 0xFFFF_FFFF_FFFF_FFFE

  datatype State<F> = State(
    pc: Pc,
    quit: bool,
    calling: bool,
    pending: seq<F>,
    batch: seq<F>,      // functors of doPendingFunctors
    next: nat,          // the first of them not yet executed
    counter: nat,       // of the eventfd
    owes: set<Tid>,     // other threads between their unlock (or store) and wakeup()
    selfOwes: bool,     // the loop thread, likewise, inside a functor
    log: seq<F>,        // every functor, in lock-acquisition order
    executed: seq<F>)

  datatype Label<F> =
    | Reset
    | TestQuit
    | Return(wake: bool)   // epoll_wait returns, with or without the eventfd
    | HandleWake
    | EndDispatch
    | SwapOut
    | Execute
    | EndBatch
    | OwnPush(f: F)        // queueInLoop called by a handler or a functor
    | OwnWakeup
    | OwnQuit
    | Push(t: Tid, f: F)   // queueInLoop called by another thread
    | Quit(t: Tid)
    | Wakeup(t: Tid)

  predicate Enabled<F>(s: State<F>, l: Label<F>) {
    match l
    case Reset => s.pc == Entry
    case TestQuit => s.pc == Test
    case Return(wake) => s.pc == Poll && (wake ==> s.counter > 0)
    case HandleWake => s.pc == Dispatch(true)
    case EndDispatch => s.pc == Dispatch(false)
    case SwapOut => s.pc == Swap
    case Execute => s.pc == Run && !s.selfOwes && s.next < |s.batch|
    case EndBatch => s.pc == Run && !s.selfOwes && s.next == |s.batch|
    case OwnPush(_) => (s.pc.Dispatch? || s.pc == Run) && !s.selfOwes
    case OwnWakeup => s.selfOwes
    case OwnQuit => (s.pc.Dispatch? || s.pc == Run) && !s.selfOwes
    case Push(t, _) => t !in s.owes
    case Quit(t) => t !in s.owes
    case Wakeup(t) => t in s.owes
  }

  /** write of 1 to a non-blocking eventfd: refused, not wrapped, at the top. */
  function Bump(counter: nat): nat {
    if counter < COUNTER_MAX then counter + 1 else counter
  }

  function Step<F>(s: State<F>, l: Label<F>): State<F>
    requires Enabled(s, l)
  {
    match l
    case Reset => s.(pc := Test, quit := false)
    case TestQuit => s.(pc := if s.quit then Done else Poll)
    case Return(wake) => s.(pc := Dispatch(wake))
    case HandleWake => s.(pc := Dispatch(false), counter := 0)
    case EndDispatch => s.(pc := Swap, calling := true)
    case SwapOut => s.(pc := Run, batch := s.pending, next := 0, pending := [])
    case Execute => s.(next := s.next + 1, executed := s.executed + [s.batch[s.next]])
    case EndBatch => s.(pc := Test, calling := false)
    case OwnPush(f) => s.(pending := s.pending + [f], log := s.log + [f], selfOwes := s.calling)
    case OwnWakeup => s.(counter := Bump(s.counter), selfOwes := false)
    case OwnQuit => s.(quit := true)
    case Push(t, f) => s.(pending := s.pending + [f], log := s.log + [f], owes := s.owes + {t})
    case Quit(t) => s.(quit := true, owes := s.owes + {t})
    case Wakeup(t) => s.(counter := Bump(s.counter), owes := s.owes - {t})
  }

  // ---------- Runs ----------

  predicate Legal<F>(s: State<F>, run: seq<Label<F>>)
    decreases |run|
  {
    run == [] || (Enabled(s, run[0]) && Legal(Step(s, run[0]), run[1..]))
  }

  function After<F>(s: State<F>, run: seq<Label<F>>): State<F>
    requires Legal(s, run)
    decreases |run|
  {
    if run == [] then s else After(Step(s, run[0]), run[1..])
  }

  lemma ShortRuns<F>(s: State<F>, a: Label<F>, b: Label<F>)
    requires Enabled(s, a)
    ensures Legal(s, [a]) && After(s, [a]) == Step(s, a)
    ensures Enabled(Step(s, a), b) ==>
              Legal(s, [a, b]) && After(s, [a, b]) == Step(Step(s, a), b)
  {
    assert [a][1..] == [] && [a, b][1..] == [b] && [b][1..] == [];
    assert After(Step(s, a), []) == Step(s, a);
    if Enabled(Step(s, a), b) {
      assert Legal(Step(s, a), [b]);
      assert After(Step(s, a), [b]) == After(Step(Step(s, a), b), []);
    }
  }

  lemma {:induction false} RunsCompose<F>(s: State<F>, a: seq<Label<F>>, b: seq<Label<F>>)
    requires Legal(s, a) && Legal(After(s, a), b)
    ensures Legal(s, a + b) && After(s, a + b) == After(After(s, a), b)
    decreases |a|
  {
    if a == [] {
      assert a + b == b;
    } else {
      RunsCompose(Step(s, a[0]), a[1..], b);
      assert (a + b)[1..] == a[1..] + b;
    }
  }

  /** loop() has just been called; functors, notifications and threads on their
      way to a wakeup may be there already. */
  ghost predicate Start<F>(s: State<F>) {
    && s.pc == Entry && !s.calling && !s.selfOwes
    && s.batch == [] && s.next == 0 && s.executed == [] && s.log == s.pending
  }

  // ---------- No lost wakeup ----------

  ghost predicate Notified<F>(s: State<F>) {
    s.counter > 0 || s.owes != {}
  }

  /** Queued work is never left behind a blocked poll. */
  ghost predicate NoLostWakeup<F>(s: State<F>) {
    s.pc == Poll && s.pending != [] ==> Notified(s)
  }

  /** Nor is a request to quit. */
  ghost predicate NoLostQuit<F>(s: State<F>) {
    s.pc == Poll && s.quit ==> Notified(s)
  }

  /** The condition at the call of loop(): nothing was queued before it without
      a notification. */
  ghost predicate Covered<F>(s: State<F>) {
    s.pending == [] || Notified(s)
  }

  ghost predicate ControlInv<F>(s: State<F>) {
    && (s.calling <==> s.pc == Swap || s.pc == Run)
    && (s.selfOwes ==> s.pc == Run)
    && s.next <= |s.batch|
    && (s.pc != Run ==> s.next == |s.batch|)
    && NoLostQuit(s)
  }

  ghost predicate WakeInv<F>(s: State<F>) {
    s.pc in {Entry, Test, Poll, Run} ==> s.pending == [] || s.selfOwes || Notified(s)
  }

  ghost predicate QueueInv<F>(s: State<F>)
    requires s.next <= |s.batch|
  {
    s.executed + s.batch[s.next..] + s.pending == s.log
  }

  lemma StepKeepsControl<F>(s: State<F>, l: Label<F>)
    requires ControlInv(s) && Enabled(s, l)
    ensures ControlInv(Step(s, l))
    ensures WakeInv(s) ==> WakeInv(Step(s, l))
  {
    if l.Push? || l.Quit? {
      assert l.t in Step(s, l).owes;
    }
  }

  lemma StepKeepsQueue<F>(s: State<F>, l: Label<F>)
    requires ControlInv(s) && QueueInv(s) && Enabled(s, l)
    requires Step(s, l).next <= |Step(s, l).batch|
    ensures QueueInv(Step(s, l))
  {
    if l.Execute? {
      assert s.batch[s.next..] == [s.batch[s.next]] + s.batch[s.next + 1..];
    }
  }

  lemma {:induction false} RunKeepsInvariants<F>(s: State<F>, run: seq<Label<F>>)
    requires ControlInv(s) && QueueInv(s) && Legal(s, run)
    ensures var t := After(s, run); ControlInv(t) && QueueInv(t) && (WakeInv(s) ==> WakeInv(t))
    decreases |run|
  {
    if run != [] {
      StepKeepsControl(s, run[0]);
      StepKeepsQueue(s, run[0]);
      RunKeepsInvariants(Step(s, run[0]), run[1..]);
    }
  }

  /** Whatever the interleaving, work is never stranded behind a blocked poll,
      exactly when nothing had been queued unannounced before loop(). */
  lemma NoLostWakeupIff<F>(s: State<F>)
    requires Start(s)
    ensures Covered(s) <==> forall run :: Legal(s, run) ==> NoLostWakeup(After(s, run))
  {
    if Covered(s) {
      forall run | Legal(s, run) ensures NoLostWakeup(After(s, run)) {
        RunKeepsInvariants(s, run);
      }
    } else {
      var run: seq<Label<F>> := [Reset, TestQuit];
      ShortRuns(s, Reset, TestQuit);
      assert !NoLostWakeup(After(s, run));
    }
  }

  /** A request to quit always reaches a blocked poll ... */
  lemma QuitWakesPoll<F>(s: State<F>, run: seq<Label<F>>)
    requires Start(s) && Legal(s, run)
    ensures NoLostQuit(After(s, run))
  {
    RunKeepsInvariants(s, run);
  }

  lemma {:induction false} QuitStays<F>(s: State<F>, run: seq<Label<F>>)
    requires s.quit && s.pc != Entry && Legal(s, run)
    ensures After(s, run).quit
    decreases |run|
  {
    if run != [] {
      QuitStays(Step(s, run[0]), run[1..]);
    }
  }

  /** ... and holds for good, exactly when it comes after the reset in loop(). */
  lemma QuitHoldsIff<F>(s: State<F>)
    requires s.quit
    ensures s.pc != Entry <==> forall run :: Legal(s, run) ==> After(s, run).quit
  {
    if s.pc != Entry {
      forall run | Legal(s, run) ensures After(s, run).quit {
        QuitStays(s, run);
      }
    } else {
      var run: seq<Label<F>> := [Reset];
      ShortRuns(s, Reset, TestQuit);
      assert !After(s, run).quit;
    }
  }

  // ---------- Conservation and the snapshot ----------

  /** Every functor is executed once, in the order the lock was taken. */
  lemma FunctorsConserved<F>(s: State<F>, run: seq<Label<F>>)
    requires Start(s) && Legal(s, run)
    ensures var t := After(s, run);
            && t.next <= |t.batch|
            && t.executed + t.batch[t.next..] + t.pending == t.log
  {
    RunKeepsInvariants(s, run);
  }

  function Executions<F>(run: seq<Label<F>>): nat {
    if run == [] then 0 else (if run[0].Execute? then 1 else 0) + Executions(run[1..])
  }

  lemma StepUntilSwap<F>(s: State<F>, l: Label<F>)
    requires s.next <= |s.batch| && Enabled(s, l) && !l.SwapOut?
    ensures var t := Step(s, l);
            && t.batch == s.batch
            && t.next == (if l.Execute? then s.next + 1 else s.next) <= |s.batch|
            && t.executed == s.executed + s.batch[s.next..t.next]
  {
  }

  lemma {:induction false} UntilNextSwap<F>(s: State<F>, run: seq<Label<F>>)
    requires s.next <= |s.batch| && Legal(s, run)
    requires forall i :: 0 <= i < |run| ==> !run[i].SwapOut?
    ensures var t := After(s, run);
            && t.batch == s.batch && s.next <= t.next <= |t.batch|
            && Executions(run) == t.next - s.next
            && t.executed == s.executed + s.batch[s.next..t.next]
    decreases |run|
  {
    if run != [] {
      var m := Step(s, run[0]);
      StepUntilSwap(s, run[0]);
      UntilNextSwap(m, run[1..]);
      var t := After(m, run[1..]);
      assert s.batch[s.next..t.next] == s.batch[s.next..m.next] + s.batch[m.next..t.next];
    }
  }

  /** Between a swap and the end of its batch exactly the functors pending at the
      swap run, in order, whatever is pushed meanwhile, by whomever: their number
      is fixed at the swap, so the iteration ends. */
  lemma SnapshotRuns<F>(s: State<F>, run: seq<Label<F>>)
    requires s.pc == Swap && Legal(Step(s, SwapOut), run)
    requires forall i :: 0 <= i < |run| ==> !run[i].SwapOut?
    ensures var t := After(Step(s, SwapOut), run);
            && Executions(run) <= |s.pending|
            && t.executed == s.executed + s.pending[..Executions(run)]
            && (t.next == |t.batch| ==> t.executed == s.executed + s.pending)
  {
    var b := Step(s, SwapOut);
    assert b.batch == s.pending && b.next == 0 && b.executed == s.executed;
    UntilNextSwap(b, run);
    assert s.pending[..|s.pending|] == s.pending;
  }
}
