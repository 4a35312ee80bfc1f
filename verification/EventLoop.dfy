/** EventLoop as an object.  Beside its own fields it carries, as ghost state, its
    place in LoopProtocol; every method is a legal run of that protocol. */
module EventLoopObject {
  import opened LoopProtocol

  datatype Caller = LoopThread | Other(t: Tid)

  datatype Call<F> = Call(caller: Caller, f: F)

  function Functors<F>(calls: seq<Call<F>>): (fs: seq<F>)
    ensures |fs| == |calls|
    ensures forall i :: 0 <= i < |calls| ==> fs[i] == calls[i].f
  {
    seq(|calls|, i requires 0 <= i < |calls| => calls[i].f)
  }

  /** What executing `batch` leaves in the queue: before each functor other
      threads push `arrivals(f)`, then the functor itself pushes `effect(f)`. */
  function Requeued<F>(batch: seq<F>, arrivals: F -> seq<Call<F>>, effect: F -> seq<F>): seq<F> {
    if batch == [] then []
    else
      var rest := batch[..|batch| - 1];
      var f := batch[|batch| - 1];
      Requeued(rest, arrivals, effect) + Functors(arrivals(f)) + effect(f)
  }

  class EventLoop<F(==)> {
    var quit: bool
    var callingPendingFunctors: bool
    var pendingFunctors: seq<F>
    var counter: nat
    ghost var st: State<F>

    ghost predicate Valid()
      reads this
    {
      && ControlInv(st) && QueueInv(st)
      && st.quit == quit && st.calling == callingPendingFunctors
      && st.pending == pendingFunctors && st.counter == counter
    }

    constructor ()
      ensures Valid() && Start(st) && pendingFunctors == [] && counter == 0 && !quit
    {
      quit, callingPendingFunctors, pendingFunctors, counter := false, false, [], 0;
      st := State(Entry, false, false, [], [], 0, 0, {}, false, [], []);
    }

    /** One step of the protocol, taken in the ghost state. */
    ghost method Take(l: Label<F>)
      requires Enabled(st, l) && ControlInv(st) && QueueInv(st)
      modifies this`st
      ensures st == Step(old(st), l) && ControlInv(st) && QueueInv(st)
      ensures Legal(old(st), [l]) && st == After(old(st), [l])
    {
      ShortRuns(st, l, l);
      StepKeepsControl(st, l);
      StepKeepsQueue(st, l);
      st := Step(st, l);
    }

    /** write(wakeupFd_). */
    method Wakeup(caller: Caller)
      requires Valid() && (if caller.Other? then caller.t in st.owes else st.selfOwes)
      modifies this`counter, this`st
      ensures Valid() && counter == Bump(old(counter))
      ensures var l := if caller.Other? then Label<F>.Wakeup(caller.t) else OwnWakeup;
              Legal(old(st), [l]) && st == After(old(st), [l]) == Step(old(st), l)
    {
      if counter < COUNTER_MAX {
        counter := counter + 1;
      }
      Take(if caller.Other? then Label<F>.Wakeup(caller.t) else OwnWakeup);
    }

    ghost predicate MayCall(caller: Caller)
      reads this
    {
      if caller.Other? then caller.t !in st.owes
      else (st.pc.Dispatch? || st.pc == Run) && !st.selfOwes
    }

    /** The functor goes to the back of the queue; the loop is woken unless the
        call comes from a handler of the loop itself, whose iteration has yet to
        run its functors. */
    method QueueInLoop(caller: Caller, f: F) returns (ghost run: seq<Label<F>>)
      requires Valid() && MayCall(caller)
      modifies this`pendingFunctors, this`counter, this`st
      ensures Valid() && Legal(old(st), run) && st == After(old(st), run)
      ensures pendingFunctors == old(pendingFunctors) + [f]
      ensures counter == if caller == LoopThread && !callingPendingFunctors
                         then old(counter) else Bump(old(counter))
      ensures st == old(st).(pending := pendingFunctors, log := old(st).log + [f], counter := counter)
    {
      pendingFunctors := pendingFunctors + [f];
      run := [if caller.Other? then Push(caller.t, f) else OwnPush(f)];
      Take(run[0]);
      if caller != LoopThread || callingPendingFunctors {
        Wakeup(caller);
        ghost var l := if caller.Other? then Label<F>.Wakeup(caller.t) else OwnWakeup;
        RunsCompose(old(st), run, [l]);
        run := run + [l];
      }
    }

    method QueueAll(calls: seq<Call<F>>) returns (ghost run: seq<Label<F>>)
      requires Valid() && forall i :: 0 <= i < |calls| ==> MayCall(calls[i].caller)
      modifies this`pendingFunctors, this`counter, this`st
      ensures Valid() && Legal(old(st), run) && st == After(old(st), run)
      ensures pendingFunctors == old(pendingFunctors) + Functors(calls)
      ensures st == old(st).(pending := pendingFunctors, log := st.log, counter := counter)
    {
      run := [];
      for i := 0 to |calls|
        invariant Valid() && Legal(old(st), run) && st == After(old(st), run)
        invariant pendingFunctors == old(pendingFunctors) + Functors(calls)[..i]
        invariant st == old(st).(pending := pendingFunctors, log := st.log, counter := counter)
      {
        ghost var more := QueueInLoop(calls[i].caller, calls[i].f);
        RunsCompose(old(st), run, more);
        run := run + more;
        assert Functors(calls)[..i + 1] == Functors(calls)[..i] + [calls[i].f];
      }
      assert Functors(calls)[..|calls|] == Functors(calls);
    }

    /** Stores the flag and, from another thread, wakes the loop. */
    method Quit(caller: Caller) returns (ghost run: seq<Label<F>>)
      requires Valid() && MayCall(caller)
      modifies this`quit, this`counter, this`st
      ensures Valid() && quit && Legal(old(st), run) && st == After(old(st), run)
      ensures counter == if caller == LoopThread then old(counter) else Bump(old(counter))
    {
      quit := true;
      run := [if caller.Other? then Label<F>.Quit(caller.t) else OwnQuit];
      Take(run[0]);
      if caller.Other? {
        Wakeup(caller);
        RunsCompose(old(st), run, [Label<F>.Wakeup(caller.t)]);
        run := run + [Label<F>.Wakeup(caller.t)];
      }
    }

    /** Sets the flag and swaps the queue out under the lock. */
    method SwapPending() returns (functors: seq<F>, ghost run: seq<Label<F>>)
      requires Valid() && st.pc == Dispatch(false)
      modifies this`callingPendingFunctors, this`pendingFunctors, this`st
      ensures Valid() && Legal(old(st), run) && st == After(old(st), run)
      ensures callingPendingFunctors && functors == old(pendingFunctors)
      ensures st == old(st).(pc := Run, calling := true, batch := functors, next := 0, pending := [])
    {
      callingPendingFunctors := true;
      Take(EndDispatch);
      functors := pendingFunctors;
      pendingFunctors := [];
      Take(SwapOut);
      run := [EndDispatch, SwapOut];
      ShortRuns(old(st), EndDispatch, SwapOut);
    }

    ghost predicate Arriving(calls: seq<Call<F>>)
      reads this
    {
      forall i :: 0 <= i < |calls| ==> calls[i].caller.Other? && calls[i].caller.t !in st.owes
    }

    /** Swaps the queue out and executes it.  Exactly the functors that were
        pending run, in order; what they and others push meanwhile stays. */
    method DoPendingFunctors(arrivals: F -> seq<Call<F>>, effect: F -> seq<F>)
      returns (ghost run: seq<Label<F>>)
      requires Valid() && st.pc == Dispatch(false) && !st.selfOwes
      requires forall f :: f in pendingFunctors ==> Arriving(arrivals(f))
      modifies this`callingPendingFunctors, this`pendingFunctors, this`counter, this`st
      ensures Valid() && Legal(old(st), run) && st == After(old(st), run)
      ensures st.pc == Test && !callingPendingFunctors && st.owes == old(st).owes
      ensures st.executed == old(st).executed + old(pendingFunctors)
      ensures pendingFunctors == Requeued(old(pendingFunctors), arrivals, effect)
    {
      var functors;
      functors, run := SwapPending();
      ghost var more := RunBatch(functors, arrivals, effect);
      RunsCompose(old(st), run, more);
      run := run + more;
      callingPendingFunctors := false;
      Take(EndBatch);
      RunsCompose(old(st), run, [EndBatch]);
      run := run + [EndBatch];
    }

    /** for (functor : functors) functor(). */
    method RunBatch(functors: seq<F>, arrivals: F -> seq<Call<F>>, effect: F -> seq<F>)
      returns (ghost run: seq<Label<F>>)
      requires Valid() && st.pc == Run && st.batch == functors && st.next == 0 && !st.selfOwes
      requires pendingFunctors == [] && forall f :: f in functors ==> Arriving(arrivals(f))
      modifies this`pendingFunctors, this`counter, this`st
      ensures Valid() && Legal(old(st), run) && st == After(old(st), run)
      ensures pendingFunctors == Requeued(functors, arrivals, effect)
      ensures st == old(st).(pending := pendingFunctors, log := st.log, counter := counter,
                             next := |functors|, executed := old(st).executed + functors)
    {
      run := [];
      for i := 0 to |functors|
        invariant Valid() && Legal(old(st), run) && st == After(old(st), run)
        invariant st == old(st).(pending := pendingFunctors, log := st.log, counter := counter,
                                 next := i, executed := old(st).executed + functors[..i])
        invariant pendingFunctors == Requeued(functors[..i], arrivals, effect)
      {
        ghost var more := RunOne(functors[i], arrivals, effect);
        RunsCompose(old(st), run, more);
        run := run + more;
        assert functors[..i + 1][..i] == functors[..i];
        assert functors[..i + 1] == functors[..i] + [functors[i]];
      }
      assert functors[..|functors|] == functors;
    }

    method RunOne(f: F, arrivals: F -> seq<Call<F>>, effect: F -> seq<F>)
      returns (ghost run: seq<Label<F>>)
      requires Valid() && Enabled(st, Execute) && st.batch[st.next] == f && Arriving(arrivals(f))
      modifies this`pendingFunctors, this`counter, this`st
      ensures Valid() && Legal(old(st), run) && st == After(old(st), run)
      ensures pendingFunctors == old(pendingFunctors) + Functors(arrivals(f)) + effect(f)
      ensures st == old(st).(pending := pendingFunctors, log := st.log, counter := counter,
                             next := old(st).next + 1, executed := old(st).executed + [f])
    {
      run := QueueAll(arrivals(f));
      ghost var more := ExecuteOne(f, effect);
      RunsCompose(old(st), run, more);
      run := run + more;
    }

    /** functor(): it may queue further functors on its own loop. */
    method ExecuteOne(f: F, effect: F -> seq<F>) returns (ghost run: seq<Label<F>>)
      requires Valid() && Enabled(st, Execute) && st.batch[st.next] == f
      modifies this`pendingFunctors, this`counter, this`st
      ensures Valid() && Legal(old(st), run) && st == After(old(st), run)
      ensures pendingFunctors == old(pendingFunctors) + effect(f)
      ensures st == old(st).(pending := pendingFunctors, log := st.log, counter := counter,
                             next := old(st).next + 1, executed := old(st).executed + [f])
    {
      Take(Execute);
      run := [Execute];
      var more := effect(f);
      var calls := seq(|more|, i requires 0 <= i < |more| => Call(LoopThread, more[i]));
      assert Functors(calls) == more;
      ghost var r := QueueAll(calls);
      RunsCompose(old(st), run, r);
      run := run + r;
    }

    /** handleRead on the eventfd: the counter goes back to zero. */
    method HandleRead()
      requires Valid() && st.pc == Dispatch(true)
      modifies this`counter, this`st
      ensures Valid() && counter == 0 && st == Step(old(st), HandleWake)
      ensures Legal(old(st), [HandleWake]) && st == After(old(st), [HandleWake])
    {
      counter := 0;
      Take(HandleWake);
    }

    /** One pass of the loop in loop(): poll, dispatch, functors.  `calls` are the
        functors queued meanwhile, by handlers of this loop or by other threads.
        Unless the loop was told to quit, everything queued before the swap is
        executed, in order, and only that. */
    method Iterate(wake: bool, calls: seq<Call<F>>, arrivals: F -> seq<Call<F>>, effect: F -> seq<F>)
      returns (ghost run: seq<Label<F>>)
      requires Valid() && st.pc == Test && (wake ==> counter > 0)
      requires forall i :: 0 <= i < |calls| && calls[i].caller.Other? ==> calls[i].caller.t !in st.owes
      requires forall f :: f in pendingFunctors + Functors(calls) ==> Arriving(arrivals(f))
      modifies this
      ensures Valid() && Legal(old(st), run) && st == After(old(st), run)
      ensures old(quit) ==> st.pc == Done && pendingFunctors == old(pendingFunctors)
      ensures !old(quit) ==>
                && st.pc == Test
                && st.executed == old(st).executed + old(pendingFunctors) + Functors(calls)
                && pendingFunctors == Requeued(old(pendingFunctors) + Functors(calls), arrivals, effect)
    {
      if quit {
        run := [TestQuit];
        Take(TestQuit);
        return;
      }
      run := PollOnce(wake);
      ghost var more := QueueAll(calls);
      RunsCompose(old(st), run, more);
      run := run + more;
      more := DoPendingFunctors(arrivals, effect);
      RunsCompose(old(st), run, more);
      run := run + more;
    }

    method PollOnce(wake: bool) returns (ghost run: seq<Label<F>>)
      requires Valid() && st.pc == Test && !quit && (wake ==> counter > 0)
      modifies this`counter, this`st
      ensures Valid() && Legal(old(st), run) && st == After(old(st), run)
      ensures counter == if wake then 0 else old(counter)
      ensures st == old(st).(pc := Dispatch(false), counter := counter)
    {
      Take(TestQuit);
      Take(Return(wake));
      run := [TestQuit, Return(wake)];
      ShortRuns(old(st), TestQuit, Return(wake));
      if wake {
        HandleRead();
        RunsCompose(old(st), run, [HandleWake]);
        run := run + [HandleWake];
      }
    }
  }
}
