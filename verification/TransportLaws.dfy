/**
 What the actions of a run of `Transport` bring about, told from the list of actions alone and
 not from any history that the steps keep.
 */
module TransportLaws {
  import Framing
  import opened ConnectionSpec
  import opened Transport
  import EL = EventLoop

  ghost function At<M>(f: Framing.Format<M>, acts: seq<Act<M>>, k: nat): Sys<M>
    requires Framing.Sound(f) && k <= |acts|
  {
    Exec(f, acts[..k])
  }

  /** The action was enabled when its turn came. */
  ghost predicate Happens<M>(f: Framing.Format<M>, acts: seq<Act<M>>, k: nat)
    requires Framing.Sound(f)
  {
    k < |acts| && Enabled(f, At(f, acts, k), acts[k])
  }

  lemma Earlier<M>(f: Framing.Format<M>, acts: seq<Act<M>>, k: nat)
    requires Framing.Sound(f) && k + 1 < |acts|
    ensures At(f, acts[..|acts| - 1], k) == At(f, acts, k)
    ensures Happens(f, acts[..|acts| - 1], k) <==> Happens(f, acts, k)
  {
    assert acts[..|acts| - 1][..k] == acts[..k];
  }

  /** How many bytes the action's call to `write` took, if it makes one. */
  ghost function Written<M>(f: Framing.Format<M>, s: Sys<M>, a: Act<M>): nat {
    if !Enabled(f, s, a) then 0
    else match a
      case LocalSend(_, r) => if s.conn.Direct() then Count(r) else 0
      case Run(r) =>
        if s.loop.batch[0].SendTask? && !s.conn.state.Disconnected? && s.conn.Direct() then Count(r) else 0
      case WriteEvent(r) => Count(r)
      case _ => 0
  }

  ghost function AllWritten<M>(f: Framing.Format<M>, acts: seq<Act<M>>): nat
    requires Framing.Sound(f)
  {
    if acts == [] then 0
    else AllWritten(f, acts[..|acts| - 1]) + Written(f, Exec(f, acts[..|acts| - 1]), acts[|acts| - 1])
  }

  lemma WireStep<M>(f: Framing.Format<M>, s: Sys<M>, a: Act<M>)
    requires Framing.Sound(f) && Enabled(f, s, a)
    ensures |Apply(f, s, a).conn.wire| == |s.conn.wire| + Written(f, s, a)
  {
    match a
    case LocalSend(m, r) => WireLocal(f, s, m, r);
    case Run(r) => WireRun(f, s, r);
    case WriteEvent(r) => WireEvent(f, s, r);
    case _ =>
  }

  lemma WireLocal<M>(f: Framing.Format<M>, s: Sys<M>, m: M, r: WriteResult)
    requires Framing.Sound(f) && Enabled(f, s, LocalSend(m, r))
    ensures |Apply(f, s, LocalSend(m, r)).conn.wire| == |s.conn.wire| + Written(f, s, LocalSend(m, r))
  {
    SendTakes(s.conn, f.frame(m), r);
  }

  lemma WireEvent<M>(f: Framing.Format<M>, s: Sys<M>, r: WriteResult)
    requires Framing.Sound(f) && Enabled(f, s, WriteEvent(r))
    ensures |Apply(f, s, WriteEvent(r)).conn.wire| == |s.conn.wire| + Written(f, s, WriteEvent(r))
  {
    WriteTakes(s.conn, r);
  }

  lemma WireRun<M>(f: Framing.Format<M>, s: Sys<M>, r: WriteResult)
    requires Framing.Sound(f) && Enabled(f, s, Run(r))
    ensures |Apply(f, s, Run(r)).conn.wire| == |s.conn.wire| + Written(f, s, Run(r))
  {
    if s.loop.batch[0].SendTask? { SendTakes(s.conn, f.frame(s.loop.batch[0].m), r); }
  }

  /** In every run the socket holds exactly as many bytes as the calls to `write` took. */
  lemma {:induction false} WireIsWhatWasWritten<M>(f: Framing.Format<M>, acts: seq<Act<M>>)
    requires Framing.Sound(f)
    ensures |Exec(f, acts).conn.wire| == AllWritten(f, acts)
  {
    if acts != [] {
      WireIsWhatWasWritten(f, acts[..|acts| - 1]);
      var s, a := Exec(f, acts[..|acts| - 1]), acts[|acts| - 1];
      if Enabled(f, s, a) { WireStep(f, s, a); }
    }
  }

  /** What the action gives to `send` for thread `t`. */
  ghost function Gives<M>(f: Framing.Format<M>, s: Sys<M>, a: Act<M>, t: EL.Tid): seq<M> {
    if !Enabled(f, s, a) then []
    else match a
      case RemoteSend(u, m) => if u == t then [m] else []
      case LocalSend(m, _) => if t == EL.LOOP then [m] else []
      case _ => []
  }

  /** The messages that thread `t` gave to `send`, read off the actions. */
  ghost function GivenBy<M>(f: Framing.Format<M>, acts: seq<Act<M>>, t: EL.Tid): seq<M>
    requires Framing.Sound(f)
  {
    if acts == [] then []
    else GivenBy(f, acts[..|acts| - 1], t) + Gives(f, Exec(f, acts[..|acts| - 1]), acts[|acts| - 1], t)
  }

  lemma IssuedStep<M>(f: Framing.Format<M>, s: Sys<M>, a: Act<M>, t: EL.Tid)
    requires Framing.Sound(f)
    ensures Issued(Step(f, s, a), t) == Issued(s, t) + Gives(f, s, a, t)
  {
  }

  lemma {:induction false} IssuedIsGiven<M>(f: Framing.Format<M>, acts: seq<Act<M>>, t: EL.Tid)
    requires Framing.Sound(f)
    ensures Issued(Exec(f, acts), t) == GivenBy(f, acts, t)
  {
    if acts != [] {
      IssuedIsGiven(f, acts[..|acts| - 1], t);
      IssuedStep(f, Exec(f, acts[..|acts| - 1]), acts[|acts| - 1], t);
    }
  }

  /** Each thread's messages reach `sendInLoop` or wait in the queue, in the order in which it gave them to `send`. */
  lemma GivenReachOrWait<M>(f: Framing.Format<M>, acts: seq<Act<M>>, t: EL.Tid)
    requires Framing.Sound(f) && Framing.Stable(f)
    ensures var s := Exec(f, acts); By(s.log, t) + Queued(Work(s), t) == GivenBy(f, acts, t)
  {
    WholeMessagesInThreadOrder(f, acts, t);
    IssuedIsGiven(f, acts, t);
  }

  /** What an action has brought about, then and for good. */
  ghost predicate Effected<M>(s: Sys<M>, a: Act<M>) {
    match a
    case Establish => !s.conn.state.Connecting?
    case CloseEvent => s.conn.state.Disconnected?
    case Shutdown(t) =>
      && (s.conn.state.Disconnecting? || s.conn.state.Disconnected?)
      && (if t == EL.LOOP then s.conn.Open() ==> s.conn.shutWr || (s.conn.writing && s.conn.out != [])
          else ShutdownTask in s.loop.ran || ShutdownTask in Work(s))
    case ForceClose(t) =>
      && (s.conn.state.Disconnecting? || s.conn.state.Disconnected?)
      && (ForceCloseTask in s.loop.ran || ForceCloseTask in Work(s))
    case _ => true
  }

  /** What the functors that ran have brought about. */
  ghost predicate RanEffect<M>(s: Sys<M>) {
    && (ShutdownTask in s.loop.ran && s.conn.Open() ==> s.conn.shutWr || (s.conn.writing && s.conn.out != []))
    && (ForceCloseTask in s.loop.ran ==> s.conn.state.Disconnected?)
    && (s.conn.reading <==> s.conn.Open())
  }

  /** Ran or still to run. */
  ghost predicate Pushed<M>(s: Sys<M>, k: Task<M>) {
    k in s.loop.ran || k in Work(s)
  }

  /** Half-closed, or with bytes yet to write first. */
  ghost predicate HalfClosing<M>(s: Sys<M>) {
    s.conn.shutWr || (s.conn.writing && s.conn.out != [])
  }

  ghost predicate Ending<M>(s: Sys<M>) {
    s.conn.state.Disconnecting? || s.conn.state.Disconnected?
  }

  /** Nothing takes these back. */
  ghost predicate Lasting<M>(s: Sys<M>, s': Sys<M>) {
    && Forward(s.conn.state, s'.conn.state)
    && (s.conn.state.Disconnected? ==> s'.conn.state.Disconnected?)
    && (Ending(s) && HalfClosing(s) && s'.conn.Open() ==> HalfClosing(s'))
    && (Pushed(s, ShutdownTask) ==> Pushed(s', ShutdownTask))
    && (Pushed(s, ForceCloseTask) ==> Pushed(s', ForceCloseTask))
  }

  lemma QueueLasting<M>(s: EL.State<Task<M>>, a: EL.Action<Task<M>>, k: Task<M>)
    requires EL.Enabled(s, a) && (s.pc.Running? || s.batch == [])
    requires k in s.ran || k in s.batch + s.pending
    ensures var s' := EL.Apply(s, a); k in s'.ran || k in s'.batch + s'.pending
  {
    WorkStep(s, a);
    if a.RunOne? && k in s.batch + s.pending { assert s.batch == [s.batch[0]] + s.batch[1..]; }
  }

  lemma QueuesLast<M>(s: Sys<M>, s': Sys<M>, a: EL.Action<Task<M>>)
    requires EL.Enabled(s.loop, a) && Staged(s) && s'.loop == EL.Apply(s.loop, a)
    ensures Pushed(s, ShutdownTask) ==> Pushed(s', ShutdownTask)
    ensures Pushed(s, ForceCloseTask) ==> Pushed(s', ForceCloseTask)
  {
    if Pushed(s, ShutdownTask) { QueueLasting(s.loop, a, ShutdownTask); }
    if Pushed(s, ForceCloseTask) { QueueLasting(s.loop, a, ForceCloseTask); }
  }

  lemma PerformLasting<M>(f: Framing.Format<M>, s: Sys<M>, k: Task<M>, r: WriteResult)
    requires Bytes(f, s) && (k.SendTask? ==> Allowed(s.conn, |f.frame(k.m)|, r) && !s.conn.state.Connecting?)
    ensures var s' := Perform(f, s, k, r);
            && Forward(s.conn.state, s'.conn.state) && (s.conn.state.Disconnected? ==> s'.conn.state.Disconnected?)
            && (HalfClosing(s) && s'.conn.Open() ==> HalfClosing(s')) && s'.loop == s.loop
  {
  }

  lemma LastingStep<M>(f: Framing.Format<M>, s: Sys<M>, a: Act<M>)
    requires Framing.Sound(f) && Enabled(f, s, a) && Bytes(f, s) && Staged(s)
    ensures Lasting(s, Apply(f, s, a))
  {
    match a
    case Loop(b) => QueuesLast(s, Apply(f, s, a), b);
    case RemoteSend(t, m) => QueuesLast(s, Apply(f, s, a), EL.Push(t, SendTask(t, m)));
    case Shutdown(t) => if t != EL.LOOP { QueuesLast(s, Apply(f, s, a), EL.Push(t, ShutdownTask)); }
    case ForceClose(t) => QueuesLast(s, Apply(f, s, a), EL.Push(t, ForceCloseTask));
    case Run(r) => LastingRun(f, s, r);
    case _ => LastingConn(f, s, a);
  }

  lemma LastingRun<M>(f: Framing.Format<M>, s: Sys<M>, r: WriteResult)
    requires Framing.Sound(f) && Enabled(f, s, Run(r)) && Bytes(f, s) && Staged(s)
    ensures Lasting(s, Apply(f, s, Run(r)))
  {
    assert s.loop.batch[0] in Work(s);
    QueuesLast(s, Apply(f, s, Run(r)), EL.RunOne);
    PerformLasting(f, s.(loop := EL.Apply(s.loop, EL.RunOne)), s.loop.batch[0], r);
  }

  lemma LastingConn<M>(f: Framing.Format<M>, s: Sys<M>, a: Act<M>)
    requires Framing.Sound(f) && Enabled(f, s, a) && Bytes(f, s)
    requires a.Establish? || a.LocalSend? || a.WriteEvent? || a.CloseEvent? || a.Receive?
    ensures Lasting(s, Apply(f, s, a))
  {
  }

  lemma EffectedNow<M>(f: Framing.Format<M>, s: Sys<M>, a: Act<M>)
    requires Framing.Sound(f) && Enabled(f, s, a) && Bytes(f, s)
    ensures Effected(Apply(f, s, a), a)
  {
  }

  lemma EffectedStays<M>(s: Sys<M>, s': Sys<M>, a: Act<M>)
    requires Effected(s, a) && Lasting(s, s')
    ensures Effected(s', a)
  {
  }

  /** Whatever happened once shows for the rest of the run: an establishment, a close, a shutdown, a forced close. */
  lemma {:induction false} EffectsLast<M>(f: Framing.Format<M>, acts: seq<Act<M>>, k: nat)
    requires Framing.Sound(f) && Framing.Stable(f) && Happens(f, acts, k)
    ensures Effected(Exec(f, acts), acts[k])
  {
    var n := |acts| - 1;
    var s := Exec(f, acts[..n]);
    Runs(f, acts[..n]);
    if k == n {
      EffectedNow(f, s, acts[n]);
    } else {
      Earlier(f, acts, k);
      EffectsLast(f, acts[..n], k);
      if Enabled(f, s, acts[n]) {
        LastingStep(f, s, acts[n]);
        EffectedStays(s, Exec(f, acts), acts[k]);
      }
    }
  }

  /** A control functor is only queued on a connection that is ending. */
  ghost predicate PushedEnding<M>(s: Sys<M>) {
    Pushed(s, ShutdownTask) || Pushed(s, ForceCloseTask) ==> Ending(s)
  }

  lemma PushedEndingStep<M>(f: Framing.Format<M>, s: Sys<M>, a: Act<M>)
    requires Framing.Sound(f) && Enabled(f, s, a) && Bytes(f, s) && Staged(s) && PushedEnding(s)
    ensures PushedEnding(Apply(f, s, a))
  {
    LastingStep(f, s, a);
    match a
    case Loop(b) => PushedBefore(s, Apply(f, s, a), b);
    case RemoteSend(t, m) => PushedBefore(s, Apply(f, s, a), EL.Push(t, SendTask(t, m)));
    case Run(r) => PushedBefore(s, Apply(f, s, a), EL.RunOne);
    case _ =>
  }

  /** What the loop's step did not push was there before. */
  lemma PushedBefore<M>(s: Sys<M>, s': Sys<M>, a: EL.Action<Task<M>>)
    requires EL.Enabled(s.loop, a) && Staged(s) && s'.loop == EL.Apply(s.loop, a)
    requires a.Push? ==> !a.f.ShutdownTask? && !a.f.ForceCloseTask?
    ensures Pushed(s', ShutdownTask) ==> Pushed(s, ShutdownTask)
    ensures Pushed(s', ForceCloseTask) ==> Pushed(s, ForceCloseTask)
  {
    WorkStep(s.loop, a);
  }

  lemma RanEffectRun<M>(f: Framing.Format<M>, s: Sys<M>, r: WriteResult)
    requires Framing.Sound(f) && Enabled(f, s, Run(r)) && Bytes(f, s) && Staged(s) && RanEffect(s) && PushedEnding(s)
    ensures RanEffect(Apply(f, s, Run(r)))
  {
    var s1, k := s.(loop := EL.Apply(s.loop, EL.RunOne)), s.loop.batch[0];
    assert k in Work(s);
    PerformLasting(f, s1, k, r);
    PerformEffect(f, s1, k, r);
  }

  lemma PerformEffect<M>(f: Framing.Format<M>, s: Sys<M>, k: Task<M>, r: WriteResult)
    requires Bytes(f, s) && (k.SendTask? ==> Allowed(s.conn, |f.frame(k.m)|, r))
    requires s.conn.reading <==> s.conn.Open()
    requires k.ShutdownTask? || k.ForceCloseTask? ==> Ending(s)
    ensures var s' := Perform(f, s, k, r);
            && (k.ShutdownTask? && s'.conn.Open() ==> HalfClosing(s'))
            && (k.ForceCloseTask? ==> s'.conn.state.Disconnected?)
            && (s'.conn.reading <==> s'.conn.Open())
  {
  }

  lemma RanEffectLoop<M>(f: Framing.Format<M>, s: Sys<M>, a: Act<M>)
    requires Framing.Sound(f) && Enabled(f, s, a) && RanEffect(s)
    requires a.Loop? || a.RemoteSend? || a.ForceClose?
    requires Lasting(s, Apply(f, s, a)) && PushedEnding(s)
    ensures RanEffect(Apply(f, s, a))
  {
    assert Apply(f, s, a).loop.ran == s.loop.ran;
  }

  lemma RanEffectShutdown<M>(f: Framing.Format<M>, s: Sys<M>, t: EL.Tid)
    requires Framing.Sound(f) && Enabled(f, s, Shutdown(t)) && RanEffect(s)
    requires Lasting(s, Apply(f, s, Shutdown(t))) && PushedEnding(s)
    ensures RanEffect(Apply(f, s, Shutdown(t)))
  {
    assert Apply(f, s, Shutdown(t)).loop.ran == s.loop.ran;
  }

  lemma RanEffectStep<M>(f: Framing.Format<M>, s: Sys<M>, a: Act<M>)
    requires Framing.Sound(f) && Enabled(f, s, a) && Bytes(f, s) && Staged(s) && RanEffect(s) && PushedEnding(s)
    ensures RanEffect(Apply(f, s, a))
  {
    LastingStep(f, s, a);
    match a
    case Run(r) => RanEffectRun(f, s, r);
    case LocalSend(_, _) =>
    case WriteEvent(_) =>
    case CloseEvent =>
    case Establish =>
    case Receive(_) =>
    case Shutdown(t) => RanEffectShutdown(f, s, t);
    case _ => RanEffectLoop(f, s, a);
  }

  /**
   In every run, once a queued shutdown has run, an open connection is half-closed or still has
   bytes to write first; once a queued forced close has run, the connection is closed; and it
   reads exactly while it is open.
   */
  lemma {:induction false} RanEffects<M>(f: Framing.Format<M>, acts: seq<Act<M>>)
    requires Framing.Sound(f) && Framing.Stable(f)
    ensures RanEffect(Exec(f, acts)) && PushedEnding(Exec(f, acts))
  {
    if acts != [] {
      var n := |acts| - 1;
      RanEffects(f, acts[..n]);
      Runs(f, acts[..n]);
      if Enabled(f, Exec(f, acts[..n]), acts[n]) {
        RanEffectStep(f, Exec(f, acts[..n]), acts[n]);
        PushedEndingStep(f, Exec(f, acts[..n]), acts[n]);
      }
    }
  }

  lemma LastStep<M>(f: Framing.Format<M>, acts: seq<Act<M>>, k: nat)
    requires Framing.Sound(f) && Happens(f, acts, k)
    ensures At(f, acts, k + 1) == Apply(f, At(f, acts, k), acts[k])
  {
    assert acts[..k + 1][..k] == acts[..k];
  }

  /** When a poll returns on an open connection, its close can be reported, and a write event exactly if it was writing. */
  lemma PollReports<M>(f: Framing.Format<M>, acts: seq<Act<M>>, k: nat)
    requires Framing.Sound(f) && Framing.Stable(f) && Happens(f, acts, k) && acts[k].Loop? && acts[k].a.Poll?
    ensures var s := At(f, acts, k + 1);
            && (Enabled(f, s, CloseEvent) <==> s.conn.Open())
            && (Enabled(f, s, WriteEvent(Wrote(|s.conn.out|))) <==> s.conn.writing)
            && s.conn == At(f, acts, k).conn
  {
    LastStep(f, acts, k);
    RanEffects(f, acts[..k]);
  }

  /** The message whose `sendInLoop` the action runs. */
  ghost function Executes<M>(f: Framing.Format<M>, acts: seq<Act<M>>, k: nat): seq<M>
    requires Framing.Sound(f)
  {
    if !Happens(f, acts, k) then []
    else match acts[k]
      case LocalSend(m, _) => [m]
      case Run(_) => if At(f, acts, k).loop.batch[0].SendTask? then [At(f, acts, k).loop.batch[0].m] else []
      case _ => []
  }

  /**
   Over a network that fails no write, a message whose `sendInLoop` runs on a connection that is
   not closed joins the accepted ones if SHUT_WR was not issued by then, and is dropped if it was.
   */
  lemma TakenIffBeforeShutWr<M>(f: Framing.Format<M>, acts: seq<Act<M>>, k: nat)
    requires Framing.Sound(f) && Framing.Stable(f) && FaultsOnlyAfterShutWr(f, acts)
    requires Executes(f, acts, k) != [] && !At(f, acts, k).conn.state.Disconnected?
    ensures var s := At(f, acts, k);
            Accepted(At(f, acts, k + 1).log) == Accepted(s.log) + if s.conn.shutWr then [] else Executes(f, acts, k)
  {
    var s := At(f, acts, k);
    LastStep(f, acts, k);
    AcceptedStep(f, s, acts[k]);
    Runs(f, acts[..k]);
    if acts[k].Run? { assert s.loop.batch[0] in Work(s); }
  }
}
