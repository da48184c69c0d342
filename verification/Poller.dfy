/**
 `Poller` and `Channel`. The index kept in each channel agrees with the map `channels_` and
 with the kernel's interest list after every operation, so that the assertions in
 `fillActiveChannels` hold for whatever the kernel reports.
 */
module Poller {
  import opened Registration

  /** One entry of the epoll interest list: the subscribed mask and `data.ptr`. */
  datatype Interest = Interest(mask: Mask, channel: Channel)

  /** One `epoll_event` returned by `epoll_wait`. */
  datatype Event = Event(revents: nat, channel: Channel)

  datatype Operation = CtlAdd | CtlMod | CtlDel

  class Channel {
    const fd: int
    var events: Mask
    var revents: nat
    var index: Index
    var addedToLoop: bool

    constructor (fd: int)
      ensures this.fd == fd && events == Mask(false, false) && index == New && !addedToLoop
    {
      this.fd := fd;
      events, revents, index, addedToLoop := Mask(false, false), 0, New, false;
    }

    /** The event-mask setters: store the new mask, then `update()`. */
    method SetEvents(m: Mask, p: EpollPoller)
      requires p.Valid() && this in p.known
      requires index.New? ==> fd !in p.channels
      modifies this, p`channels, p`interest
      ensures p.Valid() && p.known == old(p.known)
      ensures events == m && index == Updated(old(index), m) && revents == old(revents) && addedToLoop
      ensures p.channels == old(p.channels)[fd := this]
      ensures fd in p.interest <==> index.Added?
      ensures p.interest - {fd} == old(p.interest) - {fd}
    {
      ghost var was := events;
      events := m;
      addedToLoop := true;
      p.UpdateChannel(this, was);
    }

    method EnableReading(p: EpollPoller)
      requires p.Valid() && this in p.known
      requires index.New? ==> fd !in p.channels
      modifies this, p`channels, p`interest
      ensures p.Valid() && p.known == old(p.known)
      ensures events == old(events).(read := true) && index == Added && addedToLoop
      ensures p.channels == old(p.channels)[fd := this] && p.interest - {fd} == old(p.interest) - {fd}
    {
      SetEvents(events.(read := true), p);
    }

    /** What `stopRead` does to the channel. */
    method DisableReading(p: EpollPoller)
      requires p.Valid() && this in p.known
      requires index.New? ==> fd !in p.channels
      modifies this, p`channels, p`interest
      ensures p.Valid() && p.known == old(p.known)
      ensures events == old(events).(read := false) && addedToLoop
      ensures index.Deleted? <==> old(index).Added? && !events.write
      ensures p.channels == old(p.channels)[fd := this] && p.interest - {fd} == old(p.interest) - {fd}
    {
      SetEvents(events.(read := false), p);
    }

    method EnableWriting(p: EpollPoller)
      requires p.Valid() && this in p.known
      requires index.New? ==> fd !in p.channels
      modifies this, p`channels, p`interest
      ensures p.Valid() && p.known == old(p.known)
      ensures events == old(events).(write := true) && index == Added && addedToLoop
      ensures p.channels == old(p.channels)[fd := this] && p.interest - {fd} == old(p.interest) - {fd}
    {
      SetEvents(events.(write := true), p);
    }

    method DisableWriting(p: EpollPoller)
      requires p.Valid() && this in p.known
      requires index.New? ==> fd !in p.channels
      modifies this, p`channels, p`interest
      ensures p.Valid() && p.known == old(p.known)
      ensures events == old(events).(write := false) && addedToLoop
      ensures index.Deleted? <==> old(index).Added? && !events.read
      ensures p.channels == old(p.channels)[fd := this] && p.interest - {fd} == old(p.interest) - {fd}
    {
      SetEvents(events.(write := false), p);
    }

    /** Emptying the mask takes the channel out of the kernel's list only if it was in; else it is put in. */
    method DisableAll(p: EpollPoller)
      requires p.Valid() && this in p.known
      requires index.New? ==> fd !in p.channels
      modifies this, p`channels, p`interest
      ensures p.Valid() && p.known == old(p.known)
      ensures events.None() && (index.Deleted? <==> old(index).Added?) && addedToLoop
      ensures p.channels == old(p.channels)[fd := this] && p.interest - {fd} == old(p.interest) - {fd}
    {
      SetEvents(Mask(false, false), p);
    }

    method Remove(p: EpollPoller)
      requires p.Valid() && this in p.known
      requires events.None() && !index.New?
      modifies this`index, this`addedToLoop, p`channels, p`interest
      ensures p.Valid() && p.known == old(p.known)
      ensures index.New? && !addedToLoop && fd !in p.channels && fd !in p.interest
      ensures p.channels == old(p.channels) - {fd} && p.interest == old(p.interest) - {fd}
    {
      addedToLoop := false;
      p.RemoveChannel(this);
    }
  }

  class EpollPoller {
    var channels: map<int, Channel>
    /** The kernel's side of `epollfd_`. */
    ghost var interest: map<int, Interest>
    /** Every channel of this loop, registered or not. Descriptors may be reused among them. */
    ghost var known: set<Channel>

    /** The channel's index tells the truth, taking `mask` for the mask it last registered. */
    ghost predicate Agrees(c: Channel, mask: Mask)
      reads this, c
    {
      && (c.index.New? <==> !(c.fd in channels && channels[c.fd] == c))
      && (c.index.Added? <==> c.fd in interest && interest[c.fd].channel == c)
      && (c.index.Added? ==> interest[c.fd].mask == mask)
    }

    ghost predicate Indexed()
      reads this
    {
      && (forall fd :: fd in channels ==> channels[fd] in known && channels[fd].fd == fd)
      && (forall fd :: fd in interest ==> fd in channels && channels[fd] == interest[fd].channel)
    }

    ghost predicate Valid()
      reads this, known
    {
      Indexed() && forall c :: c in known ==> Agrees(c, c.events)
    }

    constructor ()
      ensures Valid() && channels == map[] && known == {}
    {
      channels, interest, known := map[], map[], {};
    }

    /** A new channel joins the loop. */
    ghost method Adopt(c: Channel)
      requires Valid() && c !in known && c.index.New?
      modifies this`known
      ensures Valid() && known == old(known) + {c}
    {
      known := known + {c};
    }

    /** Every channel but `c` is truthfully indexed, and `c` was, when its mask was `was`. */
    ghost predicate Stale(c: Channel, was: Mask)
      reads this, known, c
    {
      && c in known && Indexed() && Agrees(c, was)
      && (forall d :: d in known && d != c ==> Agrees(d, d.events))
      && (c.index.New? ==> c.fd !in channels)
    }

    /** `updateChannel` for a channel whose mask has just changed from `was`. */
    method UpdateChannel(c: Channel, ghost was: Mask)
      requires Stale(c, was)
      modifies this`channels, this`interest, c`index
      ensures Valid()
      ensures c.index == Updated(old(c.index), c.events)
      ensures channels == old(channels)[c.fd := c]
      ensures c.fd in interest <==> c.index.Added?
      ensures interest - {c.fd} == old(interest) - {c.fd}
    {
      if c.index.New? || c.index.Deleted? {
        AddToKernel(c, was);
      } else {
        ModifyInKernel(c, was);
      }
    }

    method AddToKernel(c: Channel, ghost was: Mask)
      requires Stale(c, was) && !c.index.Added?
      modifies this`channels, this`interest, c`index
      ensures Valid() && c.index.Added? && c.fd in interest
      ensures channels == old(channels)[c.fd := c]
      ensures interest - {c.fd} == old(interest) - {c.fd}
    {
      if c.index.New? {
        assert c.fd !in channels;
        channels := channels[c.fd := c];
      } else {
        assert c.fd in channels && channels[c.fd] == c;
      }
      c.index := Added;
      Update(CtlAdd, c);
    }

    method ModifyInKernel(c: Channel, ghost was: Mask)
      requires Stale(c, was) && c.index.Added?
      modifies this`interest, c`index
      ensures Valid() && c.fd in channels && channels[c.fd] == c
      ensures c.index == if c.events.None() then Deleted else Added
      ensures c.fd in interest <==> c.index.Added?
      ensures interest - {c.fd} == old(interest) - {c.fd}
    {
      assert c.fd in channels && channels[c.fd] == c;
      if c.events.None() {
        Update(CtlDel, c);
        c.index := Deleted;
      } else {
        Update(CtlMod, c);
      }
    }

    method RemoveChannel(c: Channel)
      requires Valid() && c in known
      requires c.events.None() && !c.index.New?
      modifies this`channels, this`interest, c`index
      ensures Valid() && c.index.New?
      ensures channels == old(channels) - {c.fd} && interest == old(interest) - {c.fd}
    {
      assert c.fd in channels && channels[c.fd] == c;
      var index := c.index;
      channels := channels - {c.fd};
      if index.Added? {
        Update(CtlDel, c);
      }
      c.index := New;
    }

    /** `update`: its precondition is what makes `epoll_ctl` succeed, so no branch logs or aborts. */
    method Update(op: Operation, c: Channel)
      requires op.CtlAdd? <==> c.fd !in interest
      modifies this`interest
      ensures interest == if op.CtlDel? then old(interest) - {c.fd} else old(interest)[c.fd := Interest(c.events, c)]
    {
      interest := if op.CtlDel? then interest - {c.fd} else interest[c.fd := Interest(c.events, c)];
    }

    method HasChannel(c: Channel) returns (b: bool)
      requires Valid() && c in known
      ensures b <==> !c.index.New?
    {
      b := c.fd in channels && channels[c.fd] == c;
    }

    /** `fillActiveChannels`: every event the kernel can report names a registered channel. */
    method FillActiveChannels(reported: seq<Event>) returns (active: seq<Channel>)
      requires Valid()
      requires forall i :: 0 <= i < |reported| ==> Reportable(reported[i])
      requires forall i, j :: 0 <= i < j < |reported| ==> reported[i].channel.fd != reported[j].channel.fd
      modifies set i | 0 <= i < |reported| :: reported[i].channel`revents
      ensures Valid() && |active| == |reported|
      ensures forall i :: 0 <= i < |reported| ==>
                active[i] == reported[i].channel && active[i].revents == reported[i].revents && active[i].index.Added?
    {
      active := [];
      for i := 0 to |reported|
        invariant Valid() && |active| == i
        invariant forall k :: 0 <= k < |reported| ==> Reportable(reported[k])
        invariant forall k :: 0 <= k < i ==> active[k] == reported[k].channel && active[k].revents == reported[k].revents
      {
        var c := reported[i].channel;
        assert Reportable(reported[i]);
        assert c.fd in channels && channels[c.fd] == c;
        c.revents := reported[i].revents;
        active := active + [c];
      }
    }

    /** The event's `data.ptr` is one the kernel holds. */
    ghost predicate Reportable(e: Event)
      reads this
    {
      exists fd :: fd in interest && interest[fd].channel == e.channel
    }
  }
}
