/**
 `Connector` over the real `Channel` and `Poller` classes. A socket it made is closed, handed
 over, or under the one channel that the poller watches for writing; the channel object
 outlives its registration until the queued reset runs.
 */
module Connector {
  import opened Wrappers
  import opened Registration
  import opened Poller
  import CL = ClientLoop

  /** What became of a socket. */
  datatype Fate = Owned | Closed | Handed

  datatype Made = Made(fd: int, fate: Fate)

  lemma ChangedOnlyAt<T>(m: map<int, T>, was: map<int, T>, k: int)
    requires m - {k} == was - {k} && k in m
    ensures m == was[k := m[k]]
  {
    forall i | i != k ensures (i in m <==> i in was) && (i in m ==> m[i] == was[i]) {
      assert i in m <==> i in m - {k};
      assert i in was <==> i in was - {k};
      if i in m { assert (m - {k})[i] == (was - {k})[i]; }
    }
  }

  /** The last socket meets its fate. */
  ghost function Settled(sockets: seq<Made>, fate: Fate): seq<Made>
    requires sockets != []
  {
    sockets[|sockets| - 1 := sockets[|sockets| - 1].(fate := fate)]
  }

  class Connector {
    const poller: EpollPoller
    var state: CL.ConnectorState
    var connect: bool
    var channel: Channel?
    /** The functors it has queued in the loop. */
    var queued: seq<CL.Task>
    /** History: the sockets made, in order. Descriptors may repeat. */
    ghost var sockets: seq<Made>

    /** The last socket is still owned, as `fd`, and every other is settled; or all are. */
    ghost predicate Owns(fd: Option<int>)
      reads this
    {
      && (fd.Some? ==> sockets != [] && sockets[|sockets| - 1] == Made(fd.value, Owned))
      && (forall i :: 0 <= i < |sockets| ==> (sockets[i].fate.Owned? <==> fd.Some? && i == |sockets| - 1))
    }

    /** The channel, if any, is registered for writing while it is tried, and else not at all. */
    ghost predicate Registered(tried: bool)
      reads this, poller, poller.known
    {
      && poller.Valid()
      && (channel != null ==> channel in poller.known)
      && (channel != null ==> channel.events == Mask(false, tried) && channel.index == if tried then Added else New)
      && (channel != null ==> channel.addedToLoop == tried)
      && (tried ==> channel != null)
      && CL.Resets(queued) == Unit(channel != null && !tried)
    }

    ghost predicate Valid()
      reads this, poller, poller.known
    {
      && Registered(state.KConnecting?)
      && Owns(if state.KConnecting? then Some(channel.fd) else None)
    }

    constructor (poller: EpollPoller)
      requires poller.Valid()
      ensures Valid() && state.KDisconnected? && !connect && channel == null && sockets == [] && queued == []
      ensures this.poller == poller
    {
      this.poller := poller;
      state, connect, channel, queued, sockets := CL.KDisconnected, false, null, [], [];
    }

    /** The kernel watches the connector's channel exactly while it connects, for writing, under its own descriptor. */
    lemma RegisteredIffConnecting(fd: int)
      requires Valid()
      ensures fd in poller.interest && poller.interest[fd].channel == channel
              <==> state.KConnecting? && fd == channel.fd
      ensures state.KConnecting? ==> poller.interest[channel.fd] == Interest(Mask(false, true), channel)
    {
      if channel != null { assert poller.Agrees(channel, channel.events); }
    }

    // ---- Attempts -----------------------------------------------------------------------

    /** What an attempt leaves: a socket under watch for writing, or a closed one and the poller as it was. */
    ghost predicate Attempted(sockfd: int, r: CL.ConnectResult, sockets0: seq<Made>, interest0: map<int, Interest>)
      reads this, poller, channel
    {
      && sockets == sockets0 + [Made(sockfd, if r.InProgress? then Owned else Closed)]
      && state == (if r.InProgress? then CL.KConnecting else CL.KDisconnected)
      && (if r.InProgress? then channel != null && channel.fd == sockfd && sockfd !in interest0
                                && poller.interest == interest0[sockfd := Interest(Mask(false, true), channel)]
          else channel == null && poller.interest == interest0)
    }

    /** `start` in the loop thread; `sockfd` is the descriptor the kernel gives for a new socket. */
    method Start(sockfd: int, r: CL.ConnectResult)
      requires Valid() && state.KDisconnected? && channel == null && sockfd !in poller.channels
      modifies this, poller
      ensures Valid() && connect && queued == old(queued)
      ensures Attempted(sockfd, r, old(sockets), old(poller.interest))
    {
      connect := true;
      StartInLoop(sockfd, r);
    }

    method StartInLoop(sockfd: int, r: CL.ConnectResult)
      requires Valid() && state.KDisconnected? && channel == null && sockfd !in poller.channels
      modifies this, poller
      ensures Valid() && connect == old(connect) && queued == old(queued)
      ensures connect ==> Attempted(sockfd, r, old(sockets), old(poller.interest))
      ensures !connect ==> state.KDisconnected? && channel == null && sockets == old(sockets)
                           && poller.interest == old(poller.interest)
    {
      if connect {
        Connect(sockfd, r);
      }
    }

    /** Forgets the connection handed over before, which has closed. */
    method Restart(sockfd: int, r: CL.ConnectResult)
      requires Valid() && channel == null && sockfd !in poller.channels
      modifies this, poller
      ensures Valid() && connect && queued == old(queued)
      ensures Attempted(sockfd, r, old(sockets), old(poller.interest))
    {
      state := CL.KDisconnected;
      connect := true;
      StartInLoop(sockfd, r);
    }

    method Connect(sockfd: int, r: CL.ConnectResult)
      requires Valid() && state.KDisconnected? && channel == null && sockfd !in poller.channels
      modifies this, poller
      ensures Valid() && connect == old(connect) && queued == old(queued)
      ensures Attempted(sockfd, r, old(sockets), old(poller.interest))
    {
      assert sockfd !in poller.interest;
      sockets := sockets + [Made(sockfd, Owned)];
      match r
      case InProgress => Connecting(sockfd);
      case Retryable => Retry(sockfd);
      case Fatal => CloseSocket(sockfd);
    }

    method Connecting(sockfd: int)
      requires Registered(false) && Owns(Some(sockfd)) && channel == null && sockfd !in poller.channels
      modifies this`state, this`channel, poller
      ensures Valid() && state.KConnecting? && channel != null && fresh(channel) && channel.fd == sockfd
      ensures poller.interest == old(poller.interest)[sockfd := Interest(Mask(false, true), channel)]
      ensures poller.channels == old(poller.channels)[sockfd := channel]
    {
      state := CL.KConnecting;
      var c := new Channel(sockfd);
      poller.Adopt(c);
      channel := c;
      ghost var was := poller.interest;
      c.EnableWriting(poller);
      assert poller.Agrees(c, c.events);
      ChangedOnlyAt(poller.interest, was, sockfd);
    }

    /** `sockets::close`: only of the socket still owned, and never while the poller has a channel on it. */
    method CloseSocket(sockfd: int)
      requires Owns(Some(sockfd)) && sockfd !in poller.channels
      modifies this`sockets
      ensures Owns(None) && sockets == Settled(old(sockets), Closed)
    {
      sockets := Settled(sockets, Closed);
    }

    method Retry(sockfd: int)
      requires Registered(false) && Owns(Some(sockfd)) && sockfd !in poller.channels
      modifies this`sockets, this`state
      ensures Valid() && state.KDisconnected? && sockets == Settled(old(sockets), Closed)
    {
      CloseSocket(sockfd);
      state := CL.KDisconnected;
    }

    // ---- The end of an attempt --------------------------------------------------------------

    /** No longer watched, other registrations kept, a reset on its way, and the socket settled. */
    ghost predicate Ended(sockfd: int, fate: Fate, channels0: map<int, Channel>, interest0: map<int, Interest>,
                          queued0: seq<CL.Task>, sockets0: seq<Made>)
      reads this, poller
      requires sockets0 != []
    {
      && poller.channels == channels0 - {sockfd} && poller.interest == interest0 - {sockfd}
      && queued == queued0 + [CL.ResetChannel] && sockets == Settled(sockets0, fate)
    }

    /** The channel leaves the poller now; the object goes when the queued functor runs. */
    method RemoveAndResetChannel() returns (sockfd: int)
      requires channel != null && Registered(true)
      modifies this`queued, channel, poller`channels, poller`interest
      ensures Registered(false) && sockfd == channel.fd && queued == old(queued) + [CL.ResetChannel]
      ensures poller.channels == old(poller.channels) - {sockfd} && poller.interest == old(poller.interest) - {sockfd}
    {
      assert poller.Agrees(channel, channel.events);
      channel.DisableAll(poller);
      channel.Remove(poller);
      sockfd := channel.fd;
      CL.ResetsAppend(queued, CL.ResetChannel);
      queued := queued + [CL.ResetChannel];
    }

    /** The good end: to the new-connection callback, or closed if stopped meanwhile. */
    method HandOver(sockfd: int)
      requires Registered(false) && Owns(Some(sockfd)) && sockfd !in poller.channels
      modifies this`state, this`sockets
      ensures Valid() && state.KConnected? && sockets == Settled(old(sockets), if connect then Handed else Closed)
    {
      state := CL.KConnected;
      if connect {
        sockets := Settled(sockets, Handed);
      } else {
        CloseSocket(sockfd);
      }
    }

    method HandleWrite(probe: CL.Probe)
      requires Valid() && !state.KConnected?
      modifies this`state, this`queued, this`sockets, channel, poller`channels, poller`interest
      ensures Valid()
      ensures old(state).KConnecting? ==>
                && Ended(channel.fd, if probe.Good? && connect then Handed else Closed,
                         old(poller.channels), old(poller.interest), old(queued), old(sockets))
                && state == (if probe.Good? then CL.KConnected else CL.KDisconnected)
      ensures !old(state).KConnecting? ==>
                state == old(state) && queued == old(queued) && sockets == old(sockets) && poller.interest == old(poller.interest)
    {
      if state.KConnecting? {
        var sockfd := RemoveAndResetChannel();
        if probe.Good? {
          HandOver(sockfd);
        } else {
          Retry(sockfd);
        }
      } else {
        assert state.KDisconnected?;
      }
    }

    method HandleError()
      requires Valid()
      modifies this`state, this`queued, this`sockets, channel, poller`channels, poller`interest
      ensures Valid()
      ensures old(state).KConnecting? ==>
                state.KDisconnected?
                && Ended(channel.fd, Closed, old(poller.channels), old(poller.interest), old(queued), old(sockets))
      ensures !old(state).KConnecting? ==>
                state == old(state) && queued == old(queued) && sockets == old(sockets) && poller.interest == old(poller.interest)
    {
      if state.KConnecting? {
        var sockfd := RemoveAndResetChannel();
        Retry(sockfd);
      }
    }

    method Stop()
      requires Valid()
      modifies this`connect, this`queued
      ensures Valid() && !connect && queued == old(queued) + [CL.StopInLoop]
    {
      connect := false;
      CL.ResetsAppend(queued, CL.StopInLoop);
      queued := queued + [CL.StopInLoop];
    }

    method StopInLoop()
      requires Valid()
      modifies this`state, this`queued, this`sockets, channel, poller`channels, poller`interest
      ensures Valid()
      ensures old(state).KConnecting? ==>
                state.KDisconnected?
                && Ended(channel.fd, Closed, old(poller.channels), old(poller.interest), old(queued), old(sockets))
      ensures !old(state).KConnecting? ==>
                state == old(state) && queued == old(queued) && sockets == old(sockets) && poller.interest == old(poller.interest)
    {
      if state.KConnecting? {
        state := CL.KDisconnected;
        var sockfd := RemoveAndResetChannel();
        Retry(sockfd);
      }
    }

    /**
     The loop runs the first queued functor. A reset only ever destroys a channel that the poller
     has let go, which is what `~Channel` asserts; after a stop no attempt is left.
     */
    method RunFunctor()
      requires Valid() && queued != []
      modifies this`state, this`queued, this`sockets, this`channel, channel, poller`channels, poller`interest
      ensures Valid()
      ensures old(queued[0]).ResetChannel? ==>
                && old(channel) != null && old(channel.index).New? && !old(channel.addedToLoop) && channel == null && state == old(state)
                && poller.interest == old(poller.interest) && queued == old(queued)[1..] && sockets == old(sockets)
      ensures old(queued[0]).StopInLoop? ==>
                && !state.KConnecting? && channel == old(channel)
                && sockets == if old(state).KConnecting? then Settled(old(sockets), Closed) else old(sockets)
      ensures !old(queued[0]).ResetChannel? && !old(queued[0]).StopInLoop? ==>
                state == old(state) && channel == old(channel) && sockets == old(sockets)
    {
      var k := queued[0];
      queued := queued[1..];
      match k
      case ResetChannel => channel := null;
      case StopInLoop => StopInLoop();
      case _ =>
    }
  }
}
