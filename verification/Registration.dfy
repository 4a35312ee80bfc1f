/** Channel registration: the index_ of each channel, the table channels_ of the
    poller and the interest set of the kernel, and the choice of ADD, MOD or DEL
    that is made from index_ alone. */
module Registration {

  /** The interest a channel registers: kReadEvent and kWriteEvent. */
  datatype Interest = Interest(reading: bool, writing: bool)

  const NO_INTEREST := Interest(false, false)

  /** The bits of one reported event. */
  datatype Revents = Revents(hup: bool, err: bool, in_: bool, pri: bool, out: bool)

  const NO_REVENTS := Revents(false, false, false, false, false)

  datatype Index = New | Added | Deleted

  datatype Chan = Chan(fd: int, events: Interest, index: Index)

  datatype Entry<Id> = Entry(events: Interest, channel: Id)

  datatype Ctl = ADD | MOD | DEL

  /** `errors` counts the epoll_ctl calls the kernel has refused. */
  datatype Poll<Id(==)> = Poll(
    chans: map<Id, Chan>,
    table: map<int, Id>,
    kernel: map<int, Entry<Id>>,
    errors: nat)

  /** epoll_ctl: ADD on a registered descriptor and MOD or DEL on an
      unregistered one are refused and change nothing. */
  function EpollCtl<Id(==)>(p: Poll<Id>, op: Ctl, id: Id): Poll<Id>
    requires id in p.chans
  {
    var fd := p.chans[id].fd;
    if (op == ADD) == (fd in p.kernel) then p.(errors := p.errors + 1)
    else if op == DEL then p.(kernel := p.kernel - {fd})
    else p.(kernel := p.kernel[fd := Entry(p.chans[id].events, id)])
  }

  function SetIndex<Id(==)>(p: Poll<Id>, id: Id, index: Index): Poll<Id>
    requires id in p.chans
  {
    p.(chans := p.chans[id := p.chans[id].(index := index)])
  }

  function UpdateChannel<Id(==)>(p: Poll<Id>, id: Id): Poll<Id>
    requires id in p.chans
  {
    var c := p.chans[id];
    if c.index == New then
      EpollCtl(SetIndex(p.(table := p.table[c.fd := id]), id, Added), ADD, id)
    else if c.index == Deleted then
      EpollCtl(SetIndex(p, id, Added), ADD, id)
    else if c.events == NO_INTEREST then
      SetIndex(EpollCtl(p, DEL, id), id, Deleted)
    else
      EpollCtl(p, MOD, id)
  }

  /** enableReading, enableWriting, disableWriting, disableAll: store the new
      mask, then update. */
  function SetEvents<Id(==)>(p: Poll<Id>, id: Id, events: Interest): Poll<Id>
    requires id in p.chans
  {
    UpdateChannel(p.(chans := p.chans[id := p.chans[id].(events := events)]), id)
  }

  /** The table entry of the descriptor goes whatever channel it names. */
  function RemoveChannel<Id(==)>(p: Poll<Id>, id: Id): Poll<Id>
    requires id in p.chans
  {
    var c := p.chans[id];
    var q := p.(table := p.table - {c.fd});
    SetIndex(if c.index == Added then EpollCtl(q, DEL, id) else q, id, New)
  }

  predicate HasChannel<Id(==)>(p: Poll<Id>, id: Id)
    requires id in p.chans
  {
    var fd := p.chans[id].fd;
    fd in p.table && p.table[fd] == id
  }

  // ---------- Three-way agreement ----------

  predicate InKernel<Id(==)>(p: Poll<Id>, id: Id)
    requires id in p.chans
  {
    var c := p.chans[id];
    c.fd in p.kernel && p.kernel[c.fd] == Entry(c.events, id)
  }

  ghost predicate AgreeAt<Id>(p: Poll<Id>, id: Id)
    requires id in p.chans
  {
    && (p.chans[id].index == Added <==> InKernel(p, id))
    && (p.chans[id].index != New <==> HasChannel(p, id))
  }

  ghost predicate TableAt<Id>(p: Poll<Id>, fd: int)
    requires fd in p.table
  {
    p.table[fd] in p.chans && p.chans[p.table[fd]].fd == fd
  }

  ghost predicate KernelAt<Id>(p: Poll<Id>, fd: int)
    requires fd in p.kernel
  {
    var id := p.kernel[fd].channel;
    id in p.chans && p.chans[id].fd == fd && p.chans[id].index == Added
  }

  ghost predicate Agree<Id>(p: Poll<Id>) {
    && (forall id :: id in p.chans ==> AgreeAt(p, id))
    && (forall fd :: fd in p.table ==> TableAt(p, fd))
    && (forall fd :: fd in p.kernel ==> KernelAt(p, fd))
  }

  /** What a caller can see before it registers or removes a channel: a channel
      that is not in the table has its descriptor to itself. */
  predicate FdFree<Id(==)>(p: Poll<Id>, id: Id)
    requires id in p.chans
  {
    p.chans[id].index == New ==> p.chans[id].fd !in p.table
  }

  /** The channel ends up in the table and, unless a registered channel gave up
      all interest, in the kernel with its new mask; no call is refused. */
  ghost function Registered<Id>(p: Poll<Id>, id: Id, events: Interest): Poll<Id>
    requires id in p.chans
  {
    var fd := p.chans[id].fd;
    if p.chans[id].index == Added && events == NO_INTEREST then
      p.(chans := p.chans[id := Chan(fd, events, Deleted)], kernel := p.kernel - {fd})
    else
      p.(chans := p.chans[id := Chan(fd, events, Added)],
         table := p.table[fd := id],
         kernel := p.kernel[fd := Entry(events, id)])
  }

  ghost function Unregistered<Id>(p: Poll<Id>, id: Id): Poll<Id>
    requires id in p.chans
  {
    var fd := p.chans[id].fd;
    p.(chans := p.chans[id := p.chans[id].(index := New)],
       table := p.table - {fd},
       kernel := p.kernel - {fd})
  }

  lemma SetEventsRegisters<Id>(p: Poll<Id>, id: Id, events: Interest)
    requires id in p.chans && Agree(p) && FdFree(p, id)
    ensures SetEvents(p, id, events) == Registered(p, id, events)
  {
    var q := SetEvents(p, id, events);
    var fd := p.chans[id].fd;
    assert AgreeAt(p, id);
    if fd in p.kernel {
      assert KernelAt(p, fd) && AgreeAt(p, p.kernel[fd].channel);
      assert p.chans[id].index == Added;
    }
    assert q.chans == Registered(p, id, events).chans;
    assert q.table == Registered(p, id, events).table;
    assert q.kernel == Registered(p, id, events).kernel;
  }

  lemma RemoveUnregisters<Id>(p: Poll<Id>, id: Id)
    requires id in p.chans && Agree(p) && FdFree(p, id)
    ensures RemoveChannel(p, id) == Unregistered(p, id)
  {
    var q := RemoveChannel(p, id);
    var fd := p.chans[id].fd;
    assert AgreeAt(p, id);
    if fd in p.kernel {
      assert KernelAt(p, fd) && AgreeAt(p, p.kernel[fd].channel);
      assert p.chans[id].index == Added;
    }
    assert q.chans == Unregistered(p, id).chans;
    assert q.kernel == Unregistered(p, id).kernel;
  }

  /** A channel other than `id` that is in the table has another descriptor. */
  lemma OthersApart<Id>(p: Poll<Id>, id: Id, other: Id)
    requires id in p.chans && other in p.chans && other != id && Agree(p) && FdFree(p, id)
    requires p.chans[other].index != New
    ensures p.chans[other].fd != p.chans[id].fd
  {
    assert AgreeAt(p, id) && AgreeAt(p, other);
  }

  /** A channel with some interest is in the kernel with it, from whichever state. */
  lemma InterestIsWatched<Id>(p: Poll<Id>, id: Id, events: Interest)
    requires id in p.chans && Agree(p) && FdFree(p, id) && events != NO_INTEREST
    ensures InKernel(SetEvents(p, id, events), id)
  {
    SetEventsRegisters(p, id, events);
  }

  lemma RemovedIsGone<Id>(p: Poll<Id>, id: Id)
    requires id in p.chans && Agree(p) && FdFree(p, id)
    ensures var q, fd := RemoveChannel(p, id), p.chans[id].fd;
            q.chans[id].index == New && fd !in q.table && fd !in q.kernel
  {
    RemoveUnregisters(p, id);
  }

  lemma RegisteredAgrees<Id>(p: Poll<Id>, id: Id, events: Interest)
    requires id in p.chans && Agree(p) && FdFree(p, id)
    ensures Agree(Registered(p, id, events))
  {
    var q := Registered(p, id, events);
    forall other | other in q.chans ensures AgreeAt(q, other) {
      assert AgreeAt(p, other);
      if other != id && p.chans[other].index != New {
        OthersApart(p, id, other);
      }
    }
    forall fd | fd in q.table ensures TableAt(q, fd) {
      assert fd in p.table ==> TableAt(p, fd);
    }
    forall fd | fd in q.kernel ensures KernelAt(q, fd) {
      assert fd in p.kernel ==> KernelAt(p, fd);
    }
  }

  lemma UnregisteredAgrees<Id>(p: Poll<Id>, id: Id)
    requires id in p.chans && Agree(p) && FdFree(p, id)
    ensures Agree(Unregistered(p, id))
  {
    var q := Unregistered(p, id);
    forall other | other in q.chans ensures AgreeAt(q, other) {
      assert AgreeAt(p, other);
      if other != id && p.chans[other].index != New {
        OthersApart(p, id, other);
      }
    }
    forall fd | fd in q.table ensures TableAt(q, fd) {
      assert TableAt(p, fd);
    }
    forall fd | fd in q.kernel ensures KernelAt(q, fd) {
      assert KernelAt(p, fd) && AgreeAt(p, p.kernel[fd].channel);
    }
  }

  /** Any change of interest keeps the agreement, with no call refused, exactly
      when the descriptor of an unregistered channel is free. */
  lemma SetEventsKeepsAgreement<Id>(p: Poll<Id>, id: Id, events: Interest)
    requires id in p.chans && Agree(p)
    ensures FdFree(p, id) <==> Agree(SetEvents(p, id, events))
    ensures FdFree(p, id) ==> SetEvents(p, id, events).errors == p.errors
  {
    if FdFree(p, id) {
      SetEventsRegisters(p, id, events);
      RegisteredAgrees(p, id, events);
    } else {
      var other := p.table[p.chans[id].fd];
      assert TableAt(p, p.chans[id].fd) && AgreeAt(p, other) && AgreeAt(p, id);
      var q := SetEvents(p, id, events);
      assert q.chans[other] == p.chans[other] && !AgreeAt(q, other);
    }
  }

  /** Once updated, a channel is in the table for good. */
  lemma UpdatedIsFree<Id>(p: Poll<Id>, id: Id, events: Interest)
    requires id in p.chans
    ensures FdFree(SetEvents(p, id, events), id)
  {
  }

  lemma RemovedIsFree<Id>(p: Poll<Id>, id: Id)
    requires id in p.chans
    ensures FdFree(RemoveChannel(p, id), id)
  {
  }

  /** The same condition decides whether removal is clean. */
  lemma RemoveKeepsAgreement<Id>(p: Poll<Id>, id: Id)
    requires id in p.chans && Agree(p)
    ensures FdFree(p, id) <==> Agree(RemoveChannel(p, id))
    ensures RemoveChannel(p, id).errors == p.errors
  {
    assert AgreeAt(p, id);
    if FdFree(p, id) {
      RemoveUnregisters(p, id);
      UnregisteredAgrees(p, id);
    } else {
      var other := p.table[p.chans[id].fd];
      assert TableAt(p, p.chans[id].fd) && AgreeAt(p, other);
      var q := RemoveChannel(p, id);
      assert q.chans[other] == p.chans[other] && !AgreeAt(q, other);
    }
  }

  /** disableAll takes a channel out of the kernel only when it was registered:
      on a channel in any other state it registers it, with an empty mask. */
  lemma DisableAllUnregistersOnlyAdded<Id>(p: Poll<Id>, id: Id)
    requires id in p.chans && Agree(p) && FdFree(p, id)
    ensures var q := SetEvents(p, id, NO_INTEREST);
            && (p.chans[id].index == Added <==> p.chans[id].fd !in q.kernel)
            && (p.chans[id].index != Added ==> q.kernel[p.chans[id].fd] == Entry(NO_INTEREST, id))
  {
    SetEventsRegisters(p, id, NO_INTEREST);
  }

  /** A channel that has just been constructed disturbs nothing. */
  lemma NewChannelAgrees<Id>(p: Poll<Id>, id: Id, fd: int)
    requires id !in p.chans && Agree(p)
    ensures Agree(p.(chans := p.chans[id := Chan(fd, NO_INTEREST, New)]))
  {
    var q := p.(chans := p.chans[id := Chan(fd, NO_INTEREST, New)]);
    forall other | other in q.chans ensures AgreeAt(q, other) {
      if other == id {
        assert fd in p.table ==> TableAt(p, fd);
      } else {
        assert AgreeAt(p, other);
      }
    }
    forall f | f in q.table ensures TableAt(q, f) {
      assert TableAt(p, f);
    }
    forall f | f in q.kernel ensures KernelAt(q, f) {
      assert KernelAt(p, f);
    }
  }

  // ---------- Runs ----------

  datatype Op<Id> = Set(id: Id, events: Interest) | Remove(id: Id)

  function Apply<Id(==)>(p: Poll<Id>, op: Op<Id>): (q: Poll<Id>)
    requires op.id in p.chans
  {
    match op
    case Set(id, events) => SetEvents(p, id, events)
    case Remove(id) => RemoveChannel(p, id)
  }

  lemma ApplyKeepsChannels<Id>(p: Poll<Id>, op: Op<Id>)
    requires op.id in p.chans
    ensures Apply(p, op).chans.Keys == p.chans.Keys
    ensures forall id :: id in p.chans ==> Apply(p, op).chans[id].fd == p.chans[id].fd
  {
  }

  function Run<Id(==)>(p: Poll<Id>, ops: seq<Op<Id>>): Poll<Id>
    requires forall i :: 0 <= i < |ops| ==> ops[i].id in p.chans
    decreases |ops|
  {
    assert ops != [] ==> Apply(p, ops[0]).chans.Keys == p.chans.Keys;
    if ops == [] then p else Run(Apply(p, ops[0]), ops[1..])
  }

  ghost predicate DistinctFds<Id>(p: Poll<Id>) {
    forall a, b :: a in p.chans && b in p.chans && p.chans[a].fd == p.chans[b].fd ==> a == b
  }

  /** With one channel to a descriptor, no sequence of enable, disable and remove
      makes the kernel refuse a call or breaks the agreement; hasChannel then
      answers exactly whether the index is not kNew. */
  lemma {:induction false} RunKeepsAgreement<Id>(p: Poll<Id>, ops: seq<Op<Id>>)
    requires forall i :: 0 <= i < |ops| ==> ops[i].id in p.chans
    requires Agree(p) && DistinctFds(p)
    ensures Agree(Run(p, ops)) && Run(p, ops).errors == p.errors
    ensures forall id :: id in Run(p, ops).chans ==>
              (HasChannel(Run(p, ops), id) <==> Run(p, ops).chans[id].index != New)
    decreases |ops|
  {
    if ops != [] {
      var id := ops[0].id;
      assert FdFree(p, id) by {
        assert p.chans[id].fd in p.table ==> TableAt(p, p.chans[id].fd);
        assert AgreeAt(p, id);
      }
      ApplyKeepsChannels(p, ops[0]);
      match ops[0] {
        case Set(_, events) => SetEventsKeepsAgreement(p, id, events);
        case Remove(_) => RemoveKeepsAgreement(p, id);
      }
      RunKeepsAgreement(Apply(p, ops[0]), ops[1..]);
    } else {
      forall other | other in p.chans
        ensures HasChannel(p, other) <==> p.chans[other].index != New
      {
        assert AgreeAt(p, other);
      }
    }
  }
}
