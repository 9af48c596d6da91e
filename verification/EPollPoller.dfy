/** `Channel` (include/Channel.h, src/Channel.cc) and `EPollPoller`
    (src/EPollPoller.cc, src/Poller.cc) as mutable objects.

    `channels` is the poller's map, `kernel` the interest set behind the epoll
    descriptor, and `clients` the channels constructed for this poller and not
    yet destroyed. `Valid` says that all three agree for every client. */
module Pollers {
  import opened Registrations

  const INIT_EVENT_LIST_SIZE: nat := 16

  datatype Entry = Entry(channel: Channel, mask: Mask)

  /** One element of the array `epoll_wait` fills. */
  datatype Ready = Ready(fd: int, revents: Mask)

  datatype WaitOutcome = Interrupted | Events(ready: seq<Ready>)

  class Channel {
    const fd: int
    const poller: EPollPoller
    var index: Index
    var events: Mask
    var revents: Mask
    var tied: bool

    function State(): ChannelState
      reads this
    {
      ChannelState(index, events)
    }

    /** The descriptor must not belong to another live channel of the loop. */
    constructor (poller: EPollPoller, fd: int)
      requires poller.Valid()
      requires forall c :: c in poller.clients ==> c.fd != fd
      modifies poller`clients
      ensures this.poller == poller && this.fd == fd && !tied && revents == {}
      ensures State() == ChannelState(New, NONE_EVENT)
      ensures poller.Valid() && poller.clients == old(poller.clients) + {this}
    {
      this.fd := fd;
      this.poller := poller;
      index, events, revents, tied := New, NONE_EVENT, {}, false;
      new;
      poller.clients := poller.clients + {this};
    }

    method Tie()
      modifies this`tied
      ensures tied
    {
      tied := true;
    }

    predicate IsNoneEvent()
      reads this
    {
      events == NONE_EVENT
    }

    predicate IsWriting()
      reads this
    {
      Out in events
    }

    /** `enableReading` and its siblings: change the interest, then push it. */
    method SetInterest(change: Change)
      requires poller.Valid() && this in poller.clients
      modifies this`events, this`index, poller`channels, poller`kernel, poller`refusals
      ensures poller.Valid()
      ensures State() == Apply(old(State()), Interest(change))
      ensures poller.refusals == old(poller.refusals)
      ensures poller.channels == old(poller.channels)[fd := this]
      ensures poller.kernel == WithEntry(old(poller.kernel), this, State())
    {
      events := Changed(events, change);
      poller.UpdateChannel(this);
    }

    method Unregister()
      requires poller.Valid() && this in poller.clients
      modifies this`index, poller`channels, poller`kernel, poller`refusals
      ensures poller.Valid()
      ensures State() == Apply(old(State()), Remove)
      ensures poller.refusals == old(poller.refusals)
      ensures poller.channels == old(poller.channels) - {fd}
      ensures poller.kernel == old(poller.kernel) - {fd}
    {
      poller.RemoveChannel(this);
    }
  }

  function WithEntry(kernel: map<int, Entry>, c: Channel, s: ChannelState): map<int, Entry> {
    if s.index == Added then kernel[c.fd := Entry(c, s.events)] else kernel - {c.fd}
  }

  class EPollPoller {
    var channels: map<int, Channel>
    var kernel: map<int, Entry>
    var eventListSize: nat
    /** How often the kernel has refused a call of this poller. */
    var refusals: nat
    ghost var clients: set<Channel>

    /** The poller's two maps agree with the index and interest of `c`. */
    ghost predicate Agrees(c: Channel)
      reads this, c
    {
      && (c.index == New ==> c.fd !in channels && c.fd !in kernel)
      && (c.index != New ==> c.fd in channels && channels[c.fd] == c)
      && (c.index == Added ==> c.fd in kernel && kernel[c.fd] == Entry(c, c.events))
      && (c.index == Deleted ==> c.fd !in kernel && c.events == NONE_EVENT)
    }

    /** `Agrees` while the interest of `c` has changed and has not been pushed. */
    ghost predicate Stale(c: Channel)
      reads this, c
    {
      && (c.index == New ==> c.fd !in channels && c.fd !in kernel)
      && (c.index != New ==> c.fd in channels && channels[c.fd] == c)
      && (c.index == Added <==> c.fd in kernel)
    }

    ghost predicate Wired()
      reads this, clients
    {
      && eventListSize >= INIT_EVENT_LIST_SIZE
      && (forall c :: c in clients ==> c.poller == this)
      && (forall c, d :: c in clients && d in clients && c.fd == d.fd ==> c == d)
      && (forall fd :: fd in channels ==> channels[fd] in clients && channels[fd].fd == fd)
      && (forall fd :: fd in kernel ==> fd in channels)
    }

    ghost predicate Valid()
      reads this, clients
    {
      Wired() && forall c :: c in clients ==> Agrees(c)
    }

    constructor ()
      ensures Valid() && fresh(this)
      ensures channels == map[] && kernel == map[] && clients == {} && refusals == 0
      ensures eventListSize == INIT_EVENT_LIST_SIZE
    {
      channels, kernel, clients := map[], map[], {};
      refusals, eventListSize := 0, INIT_EVENT_LIST_SIZE;
    }

    /** The kernel's `epoll_ctl`: answers -1 and changes nothing when it refuses. */
    method EpollCtl(call: Ctl, c: Channel) returns (rc: int)
      modifies this`kernel
      ensures rc == 0 || rc == -1
      ensures rc == 0 <==> (call.Add? <==> c.fd !in old(kernel))
      ensures rc == -1 ==> kernel == old(kernel)
      ensures rc == 0 ==> kernel == if call.Del? then old(kernel) - {c.fd}
                                    else old(kernel)[c.fd := Entry(c, call.mask)]
    {
      rc := -1;
      match call
      case Add(mask) =>
        if c.fd !in kernel {
          kernel := kernel[c.fd := Entry(c, mask)];
          rc := 0;
        }
      case Mod(mask) =>
        if c.fd in kernel {
          kernel := kernel[c.fd := Entry(c, mask)];
          rc := 0;
        }
      case Del =>
        if c.fd in kernel {
          kernel := kernel - {c.fd};
          rc := 0;
        }
    }

    /** `update`: a refused call is logged (DEL) or ends the process (ADD, MOD);
        either way it is counted here. */
    method Update(call: Ctl, c: Channel)
      modifies this`kernel, this`refusals
      ensures refusals == old(refusals) + if call.Add? <==> c.fd !in old(kernel) then 0 else 1
      ensures (call.Add? <==> c.fd !in old(kernel)) ==>
                kernel == if call.Del? then old(kernel) - {c.fd}
                          else old(kernel)[c.fd := Entry(c, call.mask)]
    {
      var rc := EpollCtl(call, c);
      if rc < 0 {
        refusals := refusals + 1;
      }
    }

    /** A channel that is new or was deleted: put it in the map and add it. */
    method AddChannel(c: Channel)
      requires Wired() && c in clients && Stale(c) && c.index != Added
      modifies this`channels, this`kernel, this`refusals, c`index
      ensures c.index == Added && refusals == old(refusals)
      ensures channels == old(channels)[c.fd := c]
      ensures kernel == old(kernel)[c.fd := Entry(c, c.events)]
    {
      if c.index == New {
        channels := channels[c.fd := c];
      }
      c.index := Added;
      Update(Add(c.events), c);
    }

    /** A channel that is added: delete it when it has no interest left. */
    method ModifyChannel(c: Channel)
      requires Wired() && c in clients && Stale(c) && c.index == Added
      modifies this`kernel, this`refusals, c`index
      ensures c.State() == Updated(Added, c.events) && refusals == old(refusals)
      ensures kernel == WithEntry(old(kernel), c, c.State())
    {
      if c.IsNoneEvent() {
        Update(Del, c);
        c.index := Deleted;
      } else {
        Update(Mod(c.events), c);
      }
    }

    method UpdateChannel(c: Channel)
      requires Wired() && c in clients && Stale(c)
      requires forall d :: d in clients && d != c ==> Agrees(d)
      modifies this`channels, this`kernel, this`refusals, c`index
      ensures Valid()
      ensures c.State() == Updated(old(c.index), c.events)
      ensures refusals == old(refusals)
      ensures channels == old(channels)[c.fd := c]
      ensures kernel == WithEntry(old(kernel), c, c.State())
    {
      if c.index == New || c.index == Deleted {
        AddChannel(c);
      } else {
        ModifyChannel(c);
        assert channels == channels[c.fd := c];
      }
      OthersAgree(c);
    }

    /** Nothing but the entries of `c` has changed, so all others still agree. */
    twostate lemma OthersAgree(c: Channel)
      requires old(Wired()) && c in old(clients) && clients == old(clients) && eventListSize == old(eventListSize)
      requires forall d :: d in clients && d != c ==> old(Agrees(d)) && unchanged(d)
      requires c.State() == Updated(old(c.index), c.events)
      requires channels == old(channels)[c.fd := c] && kernel == WithEntry(old(kernel), c, c.State())
      ensures Valid()
    {
      assert Agrees(c);
      forall d | d in clients && d != c
        ensures Agrees(d)
      {
        assert d.fd != c.fd && old(Agrees(d));
      }
    }

    method RemoveChannel(c: Channel)
      requires Valid() && c in clients
      modifies this`channels, this`kernel, this`refusals, c`index
      ensures Valid()
      ensures c.State() == Apply(old(c.State()), Remove)
      ensures refusals == old(refusals)
      ensures channels == old(channels) - {c.fd}
      ensures kernel == old(kernel) - {c.fd}
    {
      channels := channels - {c.fd};
      if c.index == Added {
        Update(Del, c);
      }
      c.index := New;
    }

    predicate HasChannel(c: Channel)
      reads this
    {
      c.fd in channels && channels[c.fd] == c
    }

    /** `hasChannel` is true of exactly the live channels of this poller whose index
        says so, and of no channel of another loop or of the past that happens to
        share a descriptor; the kernel watches exactly the added ones. */
    lemma HasChannelIffIndexed(c: Channel)
      requires Valid()
      ensures HasChannel(c) <==> c in clients && c.index != New
      ensures (c.fd in kernel && kernel[c.fd].channel == c) <==> c in clients && c.index == Added
    {
      if c.fd in kernel {
        assert Agrees(channels[c.fd]);
      }
    }

    /** The channel object dies. Only an unregistered channel may: afterwards
        neither map mentions it. */
    ghost method Forget(c: Channel)
      requires Valid() && c in clients && c.index == New
      modifies this`clients
      ensures Valid() && clients == old(clients) - {c}
      ensures forall fd :: fd in channels ==> channels[fd] != c
    {
      clients := clients - {c};
    }

    /** What `epoll_wait` may report: at most as many descriptors as the list
        has room for, each once and each in the interest set. */
    predicate Feasible(ready: seq<Ready>)
      reads this
    {
      && |ready| <= eventListSize
      && (forall i :: 0 <= i < |ready| ==> ready[i].fd in kernel)
      && (forall i, j :: 0 <= i < j < |ready| ==> ready[i].fd != ready[j].fd)
    }

    method Poll(outcome: WaitOutcome) returns (active: seq<Channel>)
      requires Valid()
      requires outcome.Events? ==> Feasible(outcome.ready)
      modifies this`eventListSize, clients`revents
      ensures Valid()
      ensures outcome.Interrupted? ==> active == [] && eventListSize == old(eventListSize)
      ensures outcome.Events? ==> Reported(outcome.ready, active)
      ensures outcome.Events? ==>
                eventListSize == if |outcome.ready| == old(eventListSize) then 2 * old(eventListSize)
                                 else old(eventListSize)
      ensures forall c :: c in clients && c !in active ==> c.revents == old(c.revents)
    {
      active := [];
      match outcome
      case Interrupted =>
      case Events(ready) =>
        if |ready| > 0 {
          active := FillActiveChannels(ready);
          if |ready| == eventListSize {
            eventListSize := eventListSize * 2;
          }
        }
    }

    /** `active` lists, in order, the channel registered for each reported
        descriptor, carrying its events. */
    ghost predicate Reported(ready: seq<Ready>, active: seq<Channel>)
      reads this, active
    {
      && |active| == |ready|
      && forall i :: 0 <= i < |active| ==>
           && active[i].fd == ready[i].fd
           && active[i].revents == ready[i].revents
           && active[i].fd in channels && channels[active[i].fd] == active[i]
           && active[i].index == Added
    }

    method FillActiveChannels(ready: seq<Ready>) returns (active: seq<Channel>)
      requires Valid() && Feasible(ready)
      modifies clients`revents
      ensures Valid()
      ensures Reported(ready, active)
      ensures forall c :: c in clients && c !in active ==> c.revents == old(c.revents)
    {
      active := [];
      for i := 0 to |ready|
        invariant Valid()
        invariant Reported(ready[..i], active)
        invariant forall c :: c in clients && c !in active ==> c.revents == old(c.revents)
      {
        var c := kernel[ready[i].fd].channel;
        assert kernel[ready[i].fd] == Entry(channels[ready[i].fd], channels[ready[i].fd].events);
        c.revents := ready[i].revents;
        active := active + [c];
      }
      assert ready[..|ready|] == ready;
    }
  }
}
