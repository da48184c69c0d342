/**
 How one connection gets on when it is left alone: from every state of a run without failures
 its loop can empty its queue, its socket can take the queued bytes, and its peer can read them.
 */
module TransportProgress {
  import opened Framing
  import opened ConnectionSpec
  import EL = EventLoop
  import T = Transport

  // ---- Continuing a run ---------------------------------------------------------------

  ghost function RunFrom<M>(f: Format<M>, s: T.Sys<M>, bs: seq<T.Act<M>>): T.Sys<M>
    requires Sound(f)
    decreases |bs|
  {
    if bs == [] then s else RunFrom(f, T.Step(f, s, bs[0]), bs[1..])
  }

  lemma {:induction false} RunFromJoin<M>(f: Format<M>, s: T.Sys<M>, a: seq<T.Act<M>>, b: seq<T.Act<M>>)
    requires Sound(f)
    ensures RunFrom(f, s, a + b) == RunFrom(f, RunFrom(f, s, a), b)
    decreases |a|
  {
    if a == [] {
      assert a + b == b;
    } else {
      assert (a + b)[1..] == a[1..] + b;
      RunFromJoin(f, T.Step(f, s, a[0]), a[1..], b);
    }
  }

  lemma RunFromOne<M>(f: Format<M>, s: T.Sys<M>, b: T.Act<M>)
    requires Sound(f)
    ensures RunFrom(f, s, [b]) == T.Step(f, s, b)
  {
    assert [b][1..] == [];
    assert RunFrom(f, T.Step(f, s, b), []) == T.Step(f, s, b);
  }

  // ---- Steps that hand over nothing new ---------------------------------------------------

  /** A calm step of the loop, the socket or the peer. */
  predicate Inner<M>(b: T.Act<M>) {
    T.Calm(b) && !b.RemoteSend? && !b.LocalSend? && (b.Loop? ==> !b.a.Quit? && !b.a.Push?)
  }

  ghost predicate AllInner<M>(bs: seq<T.Act<M>>) {
    forall i :: 0 <= i < |bs| ==> Inner(bs[i])
  }

  /** Nobody has told the loop to quit, and nothing has failed or closed. */
  ghost predicate Alive<M>(s: T.Sys<M>) {
    T.CalmSoFar(s) && !s.loop.quit && !s.loop.pc.Exited?
  }

  /** The loop thread is free to act. */
  predicate AtEase<M>(s: T.Sys<M>) {
    EL.LOOP !in s.loop.owing
  }

  /** What the steps below leave as it was. */
  ghost predicate Onward<M>(s: T.Sys<M>, s': T.Sys<M>) {
    Alive(s') && AtEase(s') && (s.conn.state.Connected? ==> s'.conn.state.Connected?)
  }

  lemma LoopAlive<M>(f: Format<M>, s: T.Sys<M>, b: EL.Action<T.Task<M>>)
    requires Sound(f) && Alive(s) && T.Enabled(f, s, T.Loop(b)) && !b.Quit? && !b.Push?
    requires AtEase(s) || b == EL.Wakeup(EL.LOOP)
    ensures RunFrom(f, s, [T.Loop(b)]) == T.LoopStep(s, b) && Onward(s, T.LoopStep(s, b)) && Inner<M>(T.Loop(b))
  {
    T.CalmStep(f, s, T.Loop(b));
    RunFromOne(f, s, T.Loop(b));
  }

  /** One functor of the batch; the socket takes nothing yet. */
  lemma RunAlive<M>(f: Format<M>, s: T.Sys<M>)
    requires Sound(f) && Alive(s) && AtEase(s) && s.loop.pc.Running? && s.loop.batch != []
    ensures T.Enabled(f, s, T.Run(WouldBlock))
    ensures var s' := T.Step(f, s, T.Run(WouldBlock));
            Onward(s, s') && s'.loop == s.loop.(batch := s.loop.batch[1..], ran := s.loop.ran + [s.loop.batch[0]])
  {
    T.CalmStep(f, s, T.Run(WouldBlock));
    assert s.loop.batch[0] in T.Work(s);
  }

  // ---- A round of the loop ----------------------------------------------------------------------

  lemma FinishBatch<M>(f: Format<M>, s: T.Sys<M>) returns (bs: seq<T.Act<M>>)
    requires Sound(f) && Alive(s) && AtEase(s) && s.loop.pc.Running?
    ensures AllInner(bs)
    ensures var s' := RunFrom(f, s, bs);
            Onward(s, s') && s'.loop.pc.Running? && s'.loop.batch == [] && s'.loop.pending == s.loop.pending
    decreases |s.loop.batch|
  {
    if s.loop.batch == [] {
      bs := [];
    } else {
      RunAlive(f, s);
      var rest := FinishBatch(f, T.Step(f, s, T.Run(WouldBlock)));
      bs := [T.Run(WouldBlock)] + rest;
      assert bs[1..] == rest;
    }
  }

  /** The loop polls again and no event is reported. */
  lemma NextPoll<M>(f: Format<M>, s: T.Sys<M>) returns (bs: seq<T.Act<M>>)
    requires Sound(f) && Alive(s) && AtEase(s) && s.loop.pc.Running? && s.loop.batch == []
    ensures AllInner(bs)
    ensures var s' := RunFrom(f, s, bs);
            && Onward(s, s') && s'.loop.pc.Handling? && !s'.loop.woken && T.Work(s') == s.loop.pending
            && s' == s.(loop := s'.loop, readAsked := s.conn.reading, writeAsked := s.conn.writing)
  {
    var s1 := T.LoopStep(s, EL.EndRun);
    LoopAlive(f, s, EL.EndRun);
    bs := FromCheck(f, s1);
    RunFromJoin(f, s, [T.Loop(EL.EndRun)], bs);
    bs := [T.Loop(EL.EndRun)] + bs;
  }

  lemma FromCheck<M>(f: Format<M>, s: T.Sys<M>) returns (bs: seq<T.Act<M>>)
    requires Sound(f) && Alive(s) && AtEase(s) && s.loop.pc.AtCheck?
    ensures AllInner(bs)
    ensures var s' := RunFrom(f, s, bs);
            && Onward(s, s') && s'.loop.pc.Handling? && !s'.loop.woken && T.Work(s') == s.loop.pending
            && s' == s.(loop := s'.loop, readAsked := s.conn.reading, writeAsked := s.conn.writing)
  {
    var s1 := T.LoopStep(s, EL.Check);
    LoopAlive(f, s, EL.Check);
    LoopAlive(f, s1, EL.Poll(false));
    RunFromJoin(f, s, [T.Loop(EL.Check)], [T.Loop(EL.Poll(false))]);
    bs := [T.Loop(EL.Check)] + [T.Loop(EL.Poll(false))];
  }

  /** Events are handled and the queue is swapped in. */
  lemma StartBatch<M>(f: Format<M>, s: T.Sys<M>) returns (bs: seq<T.Act<M>>)
    requires Sound(f) && Alive(s) && AtEase(s) && s.loop.pc.Handling? && !s.loop.woken
    ensures AllInner(bs)
    ensures var s' := RunFrom(f, s, bs);
            && Onward(s, s') && s'.loop.pc.Running? && s'.loop.batch == s.loop.pending && s'.loop.pending == []
            && s' == s.(loop := s'.loop)
  {
    var s1 := T.LoopStep(s, EL.EndHandling);
    LoopAlive(f, s, EL.EndHandling);
    LoopAlive(f, s1, EL.Swap);
    RunFromJoin(f, s, [T.Loop(EL.EndHandling)], [T.Loop(EL.Swap)]);
    bs := [T.Loop(EL.EndHandling)] + [T.Loop(EL.Swap)];
  }

  // ---- Settling ------------------------------------------------------------------------------------

  /** The loop thread pays the wakeup it owes. */
  lemma Ease<M>(f: Format<M>, s: T.Sys<M>) returns (bs: seq<T.Act<M>>)
    requires Sound(f) && Alive(s)
    ensures AllInner(bs) && Onward(s, RunFrom(f, s, bs))
  {
    if AtEase(s) {
      bs := [];
    } else {
      LoopAlive(f, s, EL.Wakeup(EL.LOOP));
      bs := [T.Loop(EL.Wakeup(EL.LOOP))];
    }
  }

  ghost predicate Handles<M>(s: T.Sys<M>) {
    AtEase(s) && s.loop.pc.Handling? && !s.loop.woken
  }

  lemma FinishRound<M>(f: Format<M>, s: T.Sys<M>) returns (bs: seq<T.Act<M>>)
    requires Sound(f) && Alive(s) && AtEase(s) && s.loop.pc.Running?
    ensures AllInner(bs)
    ensures var s' := RunFrom(f, s, bs); Onward(s, s') && Handles(s') && T.Work(s') == s.loop.pending
  {
    var a := FinishBatch(f, s);
    var b := NextPoll(f, RunFrom(f, s, a));
    RunFromJoin(f, s, a, b);
    bs := a + b;
  }

  lemma FromSwap<M>(f: Format<M>, s: T.Sys<M>) returns (bs: seq<T.Act<M>>)
    requires Sound(f) && Alive(s) && AtEase(s) && s.loop.pc.AtSwap?
    ensures AllInner(bs)
    ensures var s' := RunFrom(f, s, bs); Onward(s, s') && Handles(s')
  {
    LoopAlive(f, s, EL.Swap);
    bs := FinishRound(f, T.LoopStep(s, EL.Swap));
    RunFromJoin(f, s, [T.Loop(EL.Swap)], bs);
    bs := [T.Loop(EL.Swap)] + bs;
  }

  /** From wherever it stands, the loop comes to handling events. */
  lemma Regain<M>(f: Format<M>, s: T.Sys<M>) returns (bs: seq<T.Act<M>>)
    requires Sound(f) && Alive(s) && AtEase(s)
    ensures AllInner(bs)
    ensures var s' := RunFrom(f, s, bs); Onward(s, s') && Handles(s')
  {
    match s.loop.pc
    case AtCheck => bs := FromCheck(f, s);
    case AtPoll =>
      LoopAlive(f, s, EL.Poll(false));
      bs := [T.Loop(EL.Poll(false))];
    case Handling =>
      if s.loop.woken {
        LoopAlive(f, s, EL.ReadWakeup);
        bs := [T.Loop(EL.ReadWakeup)];
      } else {
        bs := [];
      }
    case AtSwap => bs := FromSwap(f, s);
    case Running => bs := FinishRound(f, s);
    case Exited => assert false;
  }

  lemma Connect<M>(f: Format<M>, s: T.Sys<M>) returns (bs: seq<T.Act<M>>)
    requires Sound(f) && Alive(s) && Handles(s)
    ensures AllInner(bs)
    ensures var s' := RunFrom(f, s, bs); Onward(s, s') && Handles(s') && s'.conn.state.Connected?
  {
    if s.conn.state.Connecting? {
      T.CalmStep(f, s, T.Establish);
      RunFromOne(f, s, T.Establish);
      bs := [T.Establish];
    } else {
      bs := [];
    }
  }

  lemma EmptyQueue<M>(f: Format<M>, s: T.Sys<M>) returns (bs: seq<T.Act<M>>)
    requires Sound(f) && Alive(s) && Handles(s)
    ensures AllInner(bs)
    ensures var s' := RunFrom(f, s, bs); Onward(s, s') && Handles(s') && T.Work(s') == []
  {
    var a := StartBatch(f, s);
    var b := FinishRound(f, RunFrom(f, s, a));
    RunFromJoin(f, s, a, b);
    bs := a + b;
  }

  /** Connected, with nothing queued, and free to act. */
  ghost predicate Settled<M>(s: T.Sys<M>) {
    Alive(s) && Handles(s) && s.conn.state.Connected? && T.Work(s) == []
  }

  lemma Settle<M>(f: Format<M>, s: T.Sys<M>) returns (bs: seq<T.Act<M>>)
    requires Sound(f) && Alive(s)
    ensures AllInner(bs) && Settled(RunFrom(f, s, bs))
  {
    var a := Ease(f, s);
    var b := Regain(f, RunFrom(f, s, a));
    RunFromJoin(f, s, a, b);
    var c := Connect(f, RunFrom(f, s, a + b));
    RunFromJoin(f, s, a + b, c);
    var d := EmptyQueue(f, RunFrom(f, s, a + b + c));
    RunFromJoin(f, s, a + b + c, d);
    bs := a + b + c + d;
  }

  // ---- Draining --------------------------------------------------------------------------------------

  /** A round with nothing queued: only what the poll asked for is new. */
  lemma IdleRound<M>(f: Format<M>, s: T.Sys<M>) returns (bs: seq<T.Act<M>>)
    requires Sound(f) && Settled(s)
    ensures AllInner(bs)
    ensures var s' := RunFrom(f, s, bs);
            Settled(s') && s' == s.(loop := s'.loop, readAsked := s.conn.reading, writeAsked := s.conn.writing)
  {
    var a := StartBatch(f, s);
    var s1 := RunFrom(f, s, a);
    var b := NextPoll(f, s1);
    RunFromJoin(f, s, a, b);
    bs := a + b;
  }

  /** The socket takes all that is queued. */
  lemma WriteAll<M>(f: Format<M>, s: T.Sys<M>) returns (bs: seq<T.Act<M>>)
    requires Sound(f) && Settled(s) && (s.conn.writing <==> s.conn.out != [])
    ensures AllInner(bs)
    ensures var s' := RunFrom(f, s, bs);
            && Settled(s') && s'.log == s.log && s'.read == s.read && s'.conn.out == []
            && s'.conn.wire == s.conn.wire + s.conn.out
  {
    if s.conn.out == [] {
      bs := [];
    } else {
      var a := IdleRound(f, s);
      var s1, b := RunFrom(f, s, a), T.WriteEvent(Wrote(|s.conn.out|));
      T.CalmStep(f, s1, b);
      RunFromOne(f, s1, b);
      RunFromJoin(f, s, a, [b]);
      bs := a + [b];
    }
  }

  lemma ReadAll<M>(f: Format<M>, s: T.Sys<M>) returns (bs: seq<T.Act<M>>)
    requires Sound(f) && Settled(s) && s.read <= |s.conn.wire|
    ensures AllInner(bs)
    ensures var s' := RunFrom(f, s, bs);
            && Settled(s') && s'.log == s.log && s'.read == |s.conn.wire| && s'.conn == s.conn
  {
    var b := T.Receive(|s.conn.wire| - s.read);
    T.CalmStep(f, s, b);
    RunFromOne(f, s, b);
    bs := [b];
  }

  /** Every byte of what was accepted reaches the peer. */
  lemma Drain<M(!new)>(f: Format<M>, s: T.Sys<M>) returns (bs: seq<T.Act<M>>)
    requires Lawful(f) && Settled(s) && T.Reached(f, s)
    ensures AllInner(bs)
    ensures var s' := RunFrom(f, s, bs);
            Settled(s') && s'.log == s.log && s'.read == |Frames(f, T.Accepted(s'.log))|
  {
    T.ReachedBytes(f, s);
    var a := WriteAll(f, s);
    var s1 := RunFrom(f, s, a);
    var b := ReadAll(f, s1);
    RunFromJoin(f, s, a, b);
    bs := a + b;
  }
}
