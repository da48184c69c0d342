/**
 `EventLoop` as its own thread sees it, between the interleavings of module `EventLoop`: the
 in-place queue, and `doPendingFunctors` over functors that themselves queue more functors.
 */
module EventLoopObject {
  /** A functor, and the functors it passes to `queueInLoop` while it runs. */
  datatype Functor = Functor(name: nat, spawns: seq<Functor>)

  /** Everything a batch queues, in order. */
  ghost function Spawned(fs: seq<Functor>): seq<Functor> {
    if fs == [] then [] else Spawned(fs[..|fs| - 1]) + fs[|fs| - 1].spawns
  }

  class Loop {
    var calling: bool
    var pending: seq<Functor>
    var eventfd: nat
    /** History of the functors run. */
    ghost var ran: seq<Functor>

    constructor ()
      ensures !calling && pending == [] && eventfd == 0 && ran == []
    {
      calling, pending, eventfd, ran := false, [], 0, [];
    }

    method QueueInLoop(f: Functor, inLoopThread: bool)
      modifies this`pending, this`eventfd
      ensures pending == old(pending) + [f]
      ensures eventfd == old(eventfd) + if !inLoopThread || calling then 1 else 0
    {
      pending := pending + [f];
      if !inLoopThread || calling {
        eventfd := eventfd + 1;
      }
    }

    /** One functor's body. */
    method Run(f: Functor)
      requires calling
      modifies this`pending, this`eventfd, this`ran
      ensures ran == old(ran) + [f] && pending == old(pending) + f.spawns
      ensures eventfd == old(eventfd) + |f.spawns|
    {
      ran := ran + [f];
      for i := 0 to |f.spawns|
        invariant pending == old(pending) + f.spawns[..i]
        invariant eventfd == old(eventfd) + i
        invariant ran == old(ran) + [f]
      {
        QueueInLoop(f.spawns[i], true);
        assert f.spawns[..i + 1] == f.spawns[..i] + [f.spawns[i]];
      }
    }

    /**
     `doPendingFunctors`: exactly the functors that were pending run, in order; what they queue
     is left for the next iteration, with one wakeup each so that the next poll returns.
     */
    method DoPendingFunctors()
      requires !calling
      modifies this
      ensures !calling
      ensures ran == old(ran) + old(pending)
      ensures pending == Spawned(old(pending))
      ensures eventfd == old(eventfd) + |pending|
    {
      calling := true;
      var functors := pending;
      pending := [];
      for i := 0 to |functors|
        invariant calling
        invariant ran == old(ran) + functors[..i]
        invariant pending == Spawned(functors[..i])
        invariant eventfd == old(eventfd) + |pending|
      {
        Run(functors[i]);
        assert functors[..i + 1][..i] == functors[..i];
      }
      assert functors[..|functors|] == functors;
      calling := false;
    }
  }
}
