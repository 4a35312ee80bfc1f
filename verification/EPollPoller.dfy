/** Channel and EPollPoller as objects.  The poller's abstract value is a
    Registration.Poll over its channels; each method makes the move of the same
    name there. */
module EPoll {
  import opened Registration

  const INIT_EVENT_LIST_SIZE: nat := 16

  /** One event of epoll_wait: the mask and the data.ptr registered with it. */
  datatype Ready = Ready(revents: Revents, channel: Channel)

  /** What epoll_wait came back with: events, none when the time ran out, or an
      error, perhaps only a signal. */
  datatype Wait = Events(ready: seq<Ready>) | WaitError(interrupted: bool)

  class Channel {
    const poller: EPollPoller
    const fd: int
    var events: Interest
    var revents: Revents
    var index: Index

    ghost predicate Known()
      reads poller
    {
      this in poller.known
    }

    /** The records of the poller agree, and this channel's descriptor is its own. */
    ghost predicate InOrder()
      requires Known()
      reads poller, poller.known
    {
      Agree(poller.Abs()) && FdFree(poller.Abs(), this)
    }

    /** The kernel has this channel, with the mask it stores. */
    ghost predicate Watched()
      requires Known()
      reads poller, poller.known
    {
      InKernel(poller.Abs(), this)
    }

    /** The channel has left the table and the kernel. */
    ghost predicate Gone()
      reads this, poller
    {
      index == New && fd !in poller.channels && fd !in poller.kernel
    }

    /** The poller has been told this mask, and nothing else, since the old state. */
    twostate predicate Told(mask: Interest)
      requires old(Known())
      reads this, poller, poller.known
    {
      events == mask && Known() && poller.Abs() == SetEvents(old(poller.Abs()), this, mask)
    }

    /** Nor even that. */
    twostate predicate Untold()
      reads this, poller, poller.known
    {
      events == old(events) && poller.known == old(poller.known) && poller.Abs() == old(poller.Abs())
    }

    /** The records are still in agreement, and no call was refused. */
    twostate predicate OrderKept()
      requires old(Known())
      reads this, poller, poller.known
    {
      Known() && (old(InOrder()) ==> InOrder() && poller.errors == old(poller.errors))
    }

    twostate lemma ToldKeepsOrder(mask: Interest)
      requires old(Known()) && Told(mask)
      ensures OrderKept()
      ensures old(InOrder()) && mask != NO_INTEREST ==> Watched()
    {
      var p := old(poller.Abs());
      if old(InOrder()) {
        SetEventsKeepsAgreement(p, this, mask);
        UpdatedIsFree(p, this, mask);
        if mask != NO_INTEREST {
          InterestIsWatched(p, this, mask);
        }
      }
    }

    constructor (poller: EPollPoller, fd: int)
      modifies poller`known
      ensures Known() && this.poller == poller && this.fd == fd
      ensures poller.known == old(poller.known) + {this}
      ensures events == NO_INTEREST && revents == NO_REVENTS && index == New
    {
      this.poller := poller;
      this.fd := fd;
      events, revents, index := NO_INTEREST, NO_REVENTS, New;
      new;
      poller.known := poller.known + {this};
    }

    method Update(mask: Interest)
      requires Known()
      modifies this`events, this`index, poller
      ensures events == mask && poller.known == old(poller.known)
      ensures poller.Abs() == SetEvents(old(poller.Abs()), this, mask)
      ensures old(InOrder()) ==> InOrder() && poller.errors == old(poller.errors)
    {
      ghost var before := poller.Abs();
      events := mask;
      assert poller.Abs() == before.(chans := before.chans[this := Chan(fd, mask, index)]);
      poller.UpdateChannel(this);
      if old(InOrder()) {
        SetEventsKeepsAgreement(before, this, mask);
        UpdatedIsFree(before, this, mask);
      }
    }

    method EnableReading()
      requires Known()
      modifies this`events, this`index, poller
      ensures events == old(events).(reading := true) && poller.known == old(poller.known)
      ensures poller.Abs() == SetEvents(old(poller.Abs()), this, events)
      ensures old(InOrder()) ==> InOrder() && poller.errors == old(poller.errors)
    {
      Update(events.(reading := true));
    }

    method EnableWriting()
      requires Known()
      modifies this`events, this`index, poller
      ensures events == old(events).(writing := true) && poller.known == old(poller.known)
      ensures poller.Abs() == SetEvents(old(poller.Abs()), this, events)
      ensures old(InOrder()) ==> InOrder() && poller.errors == old(poller.errors)
    {
      Update(events.(writing := true));
    }

    method DisableWriting()
      requires Known()
      modifies this`events, this`index, poller
      ensures events == old(events).(writing := false) && poller.known == old(poller.known)
      ensures poller.Abs() == SetEvents(old(poller.Abs()), this, events)
      ensures old(InOrder()) ==> InOrder() && poller.errors == old(poller.errors)
    {
      Update(events.(writing := false));
    }

    method DisableAll()
      requires Known()
      modifies this`events, this`index, poller
      ensures events == NO_INTEREST && poller.known == old(poller.known)
      ensures poller.Abs() == SetEvents(old(poller.Abs()), this, NO_INTEREST)
      ensures old(InOrder()) ==> InOrder() && poller.errors == old(poller.errors)
    {
      Update(NO_INTEREST);
    }

    method Remove()
      requires Known()
      modifies this`index, poller
      ensures poller.known == old(poller.known)
      ensures poller.Abs() == RemoveChannel(old(poller.Abs()), this)
      ensures old(InOrder()) ==> InOrder() && poller.errors == old(poller.errors)
    {
      ghost var before := poller.Abs();
      poller.RemoveChannel(this);
      if old(InOrder()) {
        RemoveKeepsAgreement(before, this);
        RemovedIsFree(before, this);
      }
    }
  }

  class EPollPoller {
    var channels: map<int, Channel>
    var capacity: nat                          // events_.size()
    ghost var known: set<Channel>              // channels built on this poller
    ghost var kernel: map<int, Entry<Channel>> // interest set of epollfd_
    ghost var errors: nat                      // refused epoll_ctl calls

    ghost function Abs(): (p: Poll<Channel>)
      reads this, known
      ensures p.chans.Keys == known
    {
      Registration.Poll.Poll(map c | c in known :: Chan(c.fd, c.events, c.index), channels, kernel, errors)
    }

    constructor ()
      ensures known == {} && channels == map[] && kernel == map[] && errors == 0
      ensures capacity == INIT_EVENT_LIST_SIZE
      ensures Agree(Abs())
    {
      channels, capacity := map[], INIT_EVENT_LIST_SIZE;
      known, kernel, errors := {}, map[], 0;
    }

    ghost method Control(op: Ctl, channel: Channel)
      requires channel in known
      modifies this`kernel, this`errors
      ensures Abs() == EpollCtl(old(Abs()), op, channel)
    {
      var q := EpollCtl(Abs(), op, channel);
      kernel, errors := q.kernel, q.errors;
    }

    method SetChannelIndex(channel: Channel, index: Index)
      requires channel in known
      modifies channel`index
      ensures channel.index == index
      ensures Abs() == SetIndex(old(Abs()), channel, index)
    {
      ghost var q := SetIndex(Abs(), channel, index);
      channel.index := index;
      assert Abs().chans == q.chans;
    }

    method UpdateChannel(channel: Channel)
      requires channel in known
      modifies this, channel`index
      ensures known == old(known)
      ensures Abs() == Registration.UpdateChannel(old(Abs()), channel)
    {
      var index := channel.index;
      if index == New || index == Deleted {
        if index == New {
          channels := channels[channel.fd := channel];
        }
        SetChannelIndex(channel, Added);
        Control(ADD, channel);
      } else {
        if channel.events == NO_INTEREST {
          Control(DEL, channel);
          SetChannelIndex(channel, Deleted);
        } else {
          Control(MOD, channel);
        }
      }
    }

    method RemoveChannel(channel: Channel)
      requires channel in known
      modifies this, channel`index
      ensures known == old(known)
      ensures Abs() == Registration.RemoveChannel(old(Abs()), channel)
    {
      ghost var q := Abs().(table := Abs().table - {channel.fd});
      channels := channels - {channel.fd};
      assert Abs() == q;
      var index := channel.index;
      if index == Added {
        Control(DEL, channel);
      }
      SetChannelIndex(channel, New);
    }

    predicate HasChannel(channel: Channel)
      reads this, channel
    {
      channel.fd in channels && channels[channel.fd] == channel
    }

    /** With the three records in agreement the lookup answers what the index
        says. */
    lemma HasChannelReadsIndex(channel: Channel)
      requires channel in known && Agree(Abs())
      ensures HasChannel(channel) <==> channel.index != New
    {
      assert AgreeAt(Abs(), channel);
    }

    /** What epoll_wait may report: registered channels, each descriptor once, at
        most as many as the event list holds. */
    ghost predicate Reportable(ready: seq<Ready>)
      reads this, known
    {
      && |ready| <= capacity
      && (forall i :: 0 <= i < |ready| ==>
            ready[i].channel.fd in kernel
            && kernel[ready[i].channel.fd].channel == ready[i].channel)
      && (forall i, j :: 0 <= i < j < |ready| ==>
            ready[i].channel.fd != ready[j].channel.fd)
    }

    /** Every reported channel is activated once, in the order reported, with its
        own mask, and is one that the table still names; the event list doubles
        when it was filled.  A timeout or an error activates nothing and changes
        nothing. */
    method Poll(wait: Wait) returns (active: seq<Channel>)
      requires Agree(Abs()) && (wait.Events? ==> Reportable(wait.ready))
      modifies this`capacity, (set c | c in known)`revents
      ensures wait.Events? ==> Activated(active, wait.ready)
      ensures wait.WaitError? || wait.ready == [] ==> active == []
      ensures forall i :: 0 <= i < |active| ==>
                active[i] in known && active[i].index == Added && HasChannel(active[i])
      ensures forall c :: c in known && c !in active ==> c.revents == old(c.revents)
      ensures capacity == if active != [] && |active| == old(capacity) then 2 * old(capacity) else old(capacity)
      ensures Abs() == old(Abs())
    {
      active := [];
      if wait.Events? && |wait.ready| > 0 {
        forall i | 0 <= i < |wait.ready|
          ensures wait.ready[i].channel in known && wait.ready[i].channel.index == Added
          ensures HasChannel(wait.ready[i].channel)
        {
          assert KernelAt(Abs(), wait.ready[i].channel.fd) && AgreeAt(Abs(), wait.ready[i].channel);
        }
        active := FillActiveChannels(wait.ready);
        if |wait.ready| == capacity {
          capacity := capacity * 2;
        }
      }
    }

    ghost predicate Activated(active: seq<Channel>, ready: seq<Ready>)
      reads active
    {
      && |active| == |ready|
      && forall i :: 0 <= i < |ready| ==> active[i] == ready[i].channel && active[i].revents == ready[i].revents
    }

    method FillActiveChannels(ready: seq<Ready>) returns (active: seq<Channel>)
      requires forall i :: 0 <= i < |ready| ==> ready[i].channel in known
      requires forall i, j :: 0 <= i < j < |ready| ==> ready[i].channel != ready[j].channel
      modifies (set c | c in known)`revents
      ensures |active| == |ready|
      ensures forall i :: 0 <= i < |ready| ==>
                active[i] == ready[i].channel && active[i].revents == ready[i].revents
      ensures forall c :: c in known && c !in active ==> c.revents == old(c.revents)
    {
      active := [];
      for i := 0 to |ready|
        invariant |active| == i
        invariant forall k :: 0 <= k < i ==>
                    active[k] == ready[k].channel && active[k].revents == ready[k].revents
        invariant forall c :: c in known && c !in active ==> c.revents == old(c.revents)
      {
        var channel := ready[i].channel;
        channel.revents := ready[i].revents;
        active := active + [channel];
      }
    }
  }
}
