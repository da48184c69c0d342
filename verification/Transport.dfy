/**
 One connection from end to end: threads that send, the event loop that carries their
 messages to `sendInLoop`, a socket that takes bytes as it pleases, and a peer that reads
 them in chunks of any size and runs the decoder.
 */
module Transport {
  import opened Endian
  import opened Framing
  import opened ConnectionSpec
  import EL = EventLoop

  /** What the connection puts into the loop's queue. */
  datatype Task<+M> = SendTask(t: EL.Tid, m: M) | ShutdownTask | ForceCloseTask | OtherTask

  /** One execution of `sendInLoop`: whose message, whether accepted, and whether SHUT_WR came before it. */
  datatype Entry<+M> = Entry(t: EL.Tid, m: M, taken: bool, late: bool)

  datatype Sys<M> = Sys(
    loop: EL.State<Task<M>>,
    conn: Conn,
    readAsked: bool,              // subscribed to reading when the last poll returned
    writeAsked: bool,             // to writing, and POLLOUT of this round not yet handled
    issued: map<EL.Tid, seq<M>>,  // history: messages that `send` passed on, by thread
    log: seq<Entry<M>>,           // history: executions of `sendInLoop`, in order
    read: nat,                    // how many wire bytes the peer has read
    rest: seq<Byte>,              // the peer's input buffer
    delivered: seq<M>)            // history: messages the peer's codec has called back

  datatype Act<M> =
    | Loop(a: EL.Action<Task<M>>)              // loop machinery, other threads' wakeups, unrelated functors
    | Establish
    | RemoteSend(t: EL.Tid, m: M)              // the push in `send`; the state may have moved on since the test
    | LocalSend(m: M, r: WriteResult)
    | Run(r: WriteResult)                      // run the next functor of the batch
    | WriteEvent(r: WriteResult)
    | CloseEvent
    | Shutdown(t: EL.Tid)
    | ForceClose(t: EL.Tid)
    | Receive(n: nat)

  function Issued<M>(s: Sys<M>, t: EL.Tid): seq<M> {
    if t in s.issued then s.issued[t] else []
  }

  function Work<M>(s: Sys<M>): seq<Task<M>> {
    s.loop.batch + s.loop.pending
  }

  predicate Enabled<M>(f: Format<M>, s: Sys<M>, a: Act<M>) {
    match a
    case Loop(b) => EL.Enabled(s.loop, b) && !b.RunOne? && (b.Push? ==> b.f.OtherTask?)
    case Establish => s.conn.state.Connecting? && EL.HasControl(s.loop)
    case RemoteSend(t, m) =>
      t != EL.LOOP && f.sendable(m) && !s.conn.state.Connecting? && EL.Enabled(s.loop, EL.Push(t, SendTask(t, m)))
    case LocalSend(m, r) =>
      s.conn.state.Connected? && f.sendable(m) && EL.HasControl(s.loop) && Allowed(s.conn, |f.frame(m)|, r)
    case Run(r) =>
      && EL.Enabled(s.loop, EL.RunOne)
      && (s.loop.batch[0].SendTask? ==> Allowed(s.conn, |f.frame(s.loop.batch[0].m)|, r))
    case WriteEvent(r) => s.loop.pc.Handling? && s.writeAsked && s.conn.writing && Bounded(|s.conn.out|, r)
    case CloseEvent => s.loop.pc.Handling? && (s.readAsked || s.writeAsked) && s.conn.Open()
    case Shutdown(t) => s.conn.state.Connected? && EL.Enabled(s.loop, EL.Push(t, ShutdownTask))
    case ForceClose(t) => s.conn.Open() && EL.Enabled(s.loop, EL.Push(t, ForceCloseTask))
    case Receive(n) => s.read + n <= |s.conn.wire|
  }

  /** `sendInLoop` with its history. */
  function Execute<M>(f: Format<M>, s: Sys<M>, t: EL.Tid, m: M, r: WriteResult): Sys<M>
    requires Allowed(s.conn, |f.frame(m)|, r)
  {
    s.(conn := SendInLoop(s.conn, f.frame(m), r),
       log := s.log + [Entry(t, m, Accepts(s.conn, r), s.conn.shutWr)])
  }

  /** The body of a functor. */
  function Perform<M>(f: Format<M>, s: Sys<M>, k: Task<M>, r: WriteResult): Sys<M>
    requires k.SendTask? ==> Allowed(s.conn, |f.frame(k.m)|, r)
  {
    match k
    case SendTask(t, m) => Execute(f, s, t, m, r)
    case ShutdownTask => s.(conn := ShutdownInLoop(s.conn))
    case ForceCloseTask => if s.conn.Open() then s.(conn := HandleClose(s.conn)) else s
    case OtherTask => s
  }

  /** A poll reports what was subscribed while it waited; only the loop thread changes that. */
  function LoopStep<M>(s: Sys<M>, b: EL.Action<Task<M>>): Sys<M>
    requires EL.Enabled(s.loop, b)
  {
    var s' := s.(loop := EL.Apply(s.loop, b));
    if b.Poll? then s'.(readAsked := s.conn.reading, writeAsked := s.conn.writing) else s'
  }

  ghost function Apply<M>(f: Format<M>, s: Sys<M>, a: Act<M>): Sys<M>
    requires Sound(f) && Enabled(f, s, a)
  {
    match a
    case Loop(b) => LoopStep(s, b)
    case Establish => s.(conn := ConnectEstablished(s.conn))
    case RemoteSend(t, m) =>
      s.(loop := EL.Apply(s.loop, EL.Push(t, SendTask(t, m))), issued := s.issued[t := Issued(s, t) + [m]])
    case LocalSend(m, r) =>
      Execute(f, s, EL.LOOP, m, r).(issued := s.issued[EL.LOOP := Issued(s, EL.LOOP) + [m]])
    case Run(r) =>
      Perform(f, s.(loop := EL.Apply(s.loop, EL.RunOne)), s.loop.batch[0], r)
    case WriteEvent(r) => s.(conn := HandleWrite(s.conn, r), writeAsked := false)
    case CloseEvent => s.(conn := HandleClose(s.conn))
    case Shutdown(t) =>
      var c := MarkDisconnecting(s.conn);
      if t == EL.LOOP then s.(conn := ShutdownInLoop(c))
      else s.(conn := c, loop := EL.Apply(s.loop, EL.Push(t, ShutdownTask)))
    case ForceClose(t) =>
      s.(conn := MarkDisconnecting(s.conn), loop := EL.Apply(s.loop, EL.Push(t, ForceCloseTask)))
    case Receive(n) =>
      var d := Decode(f, s.rest + s.conn.wire[s.read..s.read + n]);
      s.(read := s.read + n, rest := d.rest, delivered := s.delivered + d.msgs)
  }

  ghost function Step<M>(f: Format<M>, s: Sys<M>, a: Act<M>): Sys<M>
    requires Sound(f)
  {
    if Enabled(f, s, a) then Apply(f, s, a) else s
  }

  ghost function Exec<M>(f: Format<M>, acts: seq<Act<M>>): Sys<M>
    requires Sound(f)
  {
    if acts == [] then Sys(EL.Start([], 0, {}), Fresh(), false, false, map[], [], 0, [], [])
    else Step(f, Exec(f, acts[..|acts| - 1]), acts[|acts| - 1])
  }

  // ---- What the histories mean -------------------------------------------------------

  /** The messages of thread `t` that reached `sendInLoop`. */
  ghost function By<M>(log: seq<Entry<M>>, t: EL.Tid): seq<M> {
    if log == [] then []
    else
      var n := |log| - 1;
      By(log[..n], t) + if log[n].t == t then [log[n].m] else []
  }

  /** The messages of thread `t` still in the loop's queue. */
  ghost function Queued<M>(work: seq<Task<M>>, t: EL.Tid): seq<M> {
    if work == [] then []
    else One(work[0], t) + Queued(work[1..], t)
  }

  ghost function One<M>(k: Task<M>, t: EL.Tid): seq<M> {
    if k.SendTask? && k.t == t then [k.m] else []
  }

  /** The accepted messages, whole, in the order the connection took them. */
  ghost function Accepted<M>(log: seq<Entry<M>>): seq<M> {
    if log == [] then []
    else
      var n := |log| - 1;
      Accepted(log[..n]) + if log[n].taken then [log[n].m] else []
  }

  lemma LogAppend<M>(log: seq<Entry<M>>, e: Entry<M>, t: EL.Tid)
    ensures By(log + [e], t) == By(log, t) + if e.t == t then [e.m] else []
    ensures Accepted(log + [e]) == Accepted(log) + if e.taken then [e.m] else []
  {
  }

  lemma {:induction false} QueuedAppend<M>(work: seq<Task<M>>, k: Task<M>, t: EL.Tid)
    ensures Queued(work + [k], t) == Queued(work, t) + One(k, t)
  {
    if work == [] {
      assert work + [k] == [k] && [k][1..] == [];
      assert Queued([k], t) == One(k, t) + Queued([], t);
    } else {
      var q, one := Queued(work[1..], t), One(work[0], t);
      assert (work + [k])[1..] == work[1..] + [k];
      QueuedAppend(work[1..], k, t);
      assert one + (q + One(k, t)) == one + q + One(k, t);
    }
  }

  // ---- The invariant, in three parts ---------------------------------------------------

  ghost predicate Bytes<M>(f: Format<M>, s: Sys<M>) {
    Inv(s.conn, Frames(f, Accepted(s.log)))
  }

  /** Each thread's messages are conserved in its own order. */
  ghost predicate OrderedFor<M>(s: Sys<M>, t: EL.Tid) {
    && By(s.log, t) + Queued(Work(s), t) == Issued(s, t)
    && (t == EL.LOOP ==> Queued(Work(s), t) == [])
  }

  ghost predicate Ordered<M>(s: Sys<M>) {
    forall t :: OrderedFor(s, t)
  }

  /** What the connection state says about the queue and the log. */
  ghost predicate Staged<M>(s: Sys<M>) {
    && (s.loop.pc.Running? || s.loop.batch == [])
    && (forall k :: k in Work(s) && k.SendTask? ==> !s.conn.state.Connecting?)
    && (forall k :: k in Work(s) && k.ShutdownTask? ==> s.conn.state.Disconnecting? || s.conn.state.Disconnected?)
  }

  ghost predicate Read<M>(f: Format<M>, s: Sys<M>)
    requires Sound(f)
  {
    && s.read <= |s.conn.wire|
    && Decode(f, s.conn.wire[..s.read]) == Decoded(s.delivered, s.rest)
  }

  /** Whatever was or will be encoded is what the encoder may be given. */
  ghost predicate Encodable<M>(f: Format<M>, s: Sys<M>) {
    && (forall i :: 0 <= i < |s.log| ==> f.sendable(s.log[i].m))
    && (forall k :: k in Work(s) && k.SendTask? ==> f.sendable(k.m))
  }

  ghost predicate SysInv<M>(f: Format<M>, s: Sys<M>)
    requires Sound(f)
  {
    Bytes(f, s) && Ordered(s) && Staged(s) && Read(f, s) && Encodable(f, s)
  }

  // ---- Preservation ----------------------------------------------------------------------

  lemma BytesStep<M>(f: Format<M>, s: Sys<M>, a: Act<M>)
    requires Sound(f) && Enabled(f, s, a) && Bytes(f, s) && Staged(s)
    ensures Bytes(f, Apply(f, s, a))
    ensures s.conn.wire <= Apply(f, s, a).conn.wire
  {
    var taken := Frames(f, Accepted(s.log));
    match a
    case LocalSend(m, r) => ExecuteBytes(f, s, EL.LOOP, m, r);
    case Run(r) => RunBytes(f, s, r);
    case WriteEvent(r) => WriteKeepsInv(s.conn, taken, r);
    case Shutdown(t) =>
      ControlKeepsInv(s.conn, taken);
      ControlKeepsInv(MarkDisconnecting(s.conn), taken);
    case _ =>
      ControlKeepsInv(s.conn, taken);
  }

  lemma RunBytes<M>(f: Format<M>, s: Sys<M>, r: WriteResult)
    requires Sound(f) && Enabled(f, s, Run(r)) && Bytes(f, s) && Staged(s)
    ensures Bytes(f, Apply(f, s, Run(r)))
    ensures s.conn.wire <= Apply(f, s, Run(r)).conn.wire
  {
    var k := s.loop.batch[0];
    assert k in Work(s);
    if k.SendTask? {
      ExecuteBytes(f, s.(loop := EL.Apply(s.loop, EL.RunOne)), k.t, k.m, r);
    } else {
      ControlKeepsInv(s.conn, Frames(f, Accepted(s.log)));
    }
  }

  lemma ExecuteBytes<M>(f: Format<M>, s: Sys<M>, t: EL.Tid, m: M, r: WriteResult)
    requires Bytes(f, s) && !s.conn.state.Connecting? && Allowed(s.conn, |f.frame(m)|, r)
    ensures Bytes(f, Execute(f, s, t, m, r))
    ensures s.conn.wire <= Execute(f, s, t, m, r).conn.wire
  {
    var e := Entry(t, m, Accepts(s.conn, r), s.conn.shutWr);
    LogAppend(s.log, e, t);
    FramesAppend(f, Accepted(s.log), m);
    assert Accepted(s.log) + [] == Accepted(s.log);
    SendKeepsInv(s.conn, Frames(f, Accepted(s.log)), f.frame(m), r);
  }

  /** Where a task enters the queue, and how the next one leaves it. */
  lemma WorkStep<M>(s: EL.State<Task<M>>, a: EL.Action<Task<M>>)
    requires EL.Enabled(s, a) && (s.pc.Running? || s.batch == [])
    ensures var s' := EL.Apply(s, a); var w, w' := s.batch + s.pending, s'.batch + s'.pending;
            && (s'.pc.Running? || s'.batch == [])
            && w' == if a.Push? then w + [a.f] else if a.RunOne? then w[1..] else w
    ensures a.RunOne? ==> s.batch + s.pending != [] && (s.batch + s.pending)[0] == s.batch[0]
  {
  }

  /** A step that appends `k` to the queue, and to its thread's history if it is a send. */
  lemma PushOrdered<M>(s: Sys<M>, s': Sys<M>, k: Task<M>, t: EL.Tid)
    requires OrderedFor(s, t) && s'.log == s.log && Work(s') == Work(s) + [k]
    requires Issued(s', t) == Issued(s, t) + One(k, t) && (t == EL.LOOP ==> One(k, t) == [])
    ensures OrderedFor(s', t)
  {
    QueuedAppend(Work(s), k, t);
    var b, q, one := By(s.log, t), Queued(Work(s), t), One(k, t);
    assert b + (q + one) == b + q + one;
  }

  lemma LoopOrdered<M>(f: Format<M>, s: Sys<M>, b: EL.Action<Task<M>>, t: EL.Tid)
    requires Sound(f) && Enabled(f, s, Loop(b)) && OrderedFor(s, t) && Staged(s)
    ensures OrderedFor(Apply(f, s, Loop(b)), t)
  {
    WorkStep(s.loop, b);
    var s' := LoopStep(s, b);
    if b.Push? {
      assert Issued(s, t) + [] == Issued(s, t);
      PushOrdered(s, s', b.f, t);
    }
    assert OrderedFor(s', t);
  }

  lemma RemoteOrdered<M>(f: Format<M>, s: Sys<M>, u: EL.Tid, m: M, t: EL.Tid)
    requires Sound(f) && Enabled(f, s, RemoteSend(u, m)) && OrderedFor(s, t) && Staged(s)
    ensures OrderedFor(Apply(f, s, RemoteSend(u, m)), t)
  {
    WorkStep(s.loop, EL.Push(u, SendTask(u, m)));
    assert Issued(s, t) + [] == Issued(s, t);
    PushOrdered(s, Apply(f, s, RemoteSend(u, m)), SendTask(u, m), t);
  }

  /** A step that logs a message of the loop thread and adds it to that thread's history. */
  lemma DirectOrdered<M>(s: Sys<M>, s': Sys<M>, m: M, t: EL.Tid)
    requires OrderedFor(s, t) && Work(s') == Work(s)
    requires By(s'.log, t) == By(s.log, t) + (if t == EL.LOOP then [m] else [])
    requires Issued(s', t) == Issued(s, t) + (if t == EL.LOOP then [m] else [])
    ensures OrderedFor(s', t)
  {
    assert t != EL.LOOP ==> By(s.log, t) + [] == By(s.log, t);
  }

  lemma ExecuteLogs<M>(f: Format<M>, s: Sys<M>, u: EL.Tid, m: M, r: WriteResult, t: EL.Tid)
    requires Allowed(s.conn, |f.frame(m)|, r)
    ensures var s' := Execute(f, s, u, m, r);
            s'.loop == s.loop && s'.issued == s.issued && By(s'.log, t) == By(s.log, t) + if u == t then [m] else []
  {
    LogAppend(s.log, Entry(u, m, Accepts(s.conn, r), s.conn.shutWr), t);
  }

  lemma LocalOrdered<M>(f: Format<M>, s: Sys<M>, m: M, r: WriteResult, t: EL.Tid)
    requires Sound(f) && Enabled(f, s, LocalSend(m, r)) && OrderedFor(s, t)
    ensures OrderedFor(Apply(f, s, LocalSend(m, r)), t)
  {
    ExecuteLogs(f, s, EL.LOOP, m, r, t);
    var s' := Execute(f, s, EL.LOOP, m, r).(issued := s.issued[EL.LOOP := Issued(s, EL.LOOP) + [m]]);
    assert Issued(s', t) == Issued(s, t) + if t == EL.LOOP then [m] else [];
    DirectOrdered(s, s', m, t);
  }

  /** `shutdown` and `forceClose`, from whichever thread. */
  lemma ControlOrdered<M>(f: Format<M>, s: Sys<M>, a: Act<M>, t: EL.Tid)
    requires Sound(f) && (a.Shutdown? || a.ForceClose?) && Enabled(f, s, a) && OrderedFor(s, t) && Staged(s)
    ensures OrderedFor(Apply(f, s, a), t)
  {
    var k: Task<M> := if a.Shutdown? then ShutdownTask else ForceCloseTask;
    WorkStep(s.loop, EL.Push(a.t, k));
    assert Issued(s, t) + [] == Issued(s, t);
    PushOrdered(s, s.(loop := EL.Apply(s.loop, EL.Push(a.t, k))), k, t);
  }

  lemma OrderedStep<M>(f: Format<M>, s: Sys<M>, a: Act<M>, t: EL.Tid)
    requires Sound(f) && Enabled(f, s, a) && OrderedFor(s, t) && Staged(s)
    ensures OrderedFor(Apply(f, s, a), t)
  {
    match a
    case Loop(b) => LoopOrdered(f, s, b, t);
    case RemoteSend(u, m) => RemoteOrdered(f, s, u, m, t);
    case LocalSend(m, r) => LocalOrdered(f, s, m, r, t);
    case Run(r) => RunOrdered(f, s, r, t);
    case Shutdown(_) => ControlOrdered(f, s, a, t);
    case ForceClose(_) => ControlOrdered(f, s, a, t);
    case _ =>
  }

  /** A step that takes the first task off the queue and, if it is a send, logs it. */
  lemma PopOrdered<M>(s: Sys<M>, s': Sys<M>, k: Task<M>, t: EL.Tid)
    requires OrderedFor(s, t) && s'.issued == s.issued
    requires Work(s) != [] && Work(s)[0] == k && Work(s') == Work(s)[1..]
    requires By(s'.log, t) == By(s.log, t) + One(k, t)
    ensures OrderedFor(s', t)
  {
  }

  lemma RunOrdered<M>(f: Format<M>, s: Sys<M>, r: WriteResult, t: EL.Tid)
    requires Sound(f) && Enabled(f, s, Run(r)) && OrderedFor(s, t) && Staged(s)
    ensures OrderedFor(Apply(f, s, Run(r)), t)
  {
    WorkStep(s.loop, EL.RunOne);
    PerformLogs(f, s.(loop := EL.Apply(s.loop, EL.RunOne)), s.loop.batch[0], r, t);
    PopOrdered(s, Apply(f, s, Run(r)), s.loop.batch[0], t);
  }

  lemma PerformLogs<M>(f: Format<M>, s: Sys<M>, k: Task<M>, r: WriteResult, t: EL.Tid)
    requires k.SendTask? ==> Allowed(s.conn, |f.frame(k.m)|, r)
    ensures var s' := Perform(f, s, k, r);
            s'.loop == s.loop && s'.issued == s.issued && By(s'.log, t) == By(s.log, t) + One(k, t)
  {
  }

  /** The connection never goes back to connecting, nor from closing to connected. */
  ghost predicate Forward(c: ConnState, c': ConnState) {
    && (!c.Connecting? ==> !c'.Connecting?)
    && (c.Disconnecting? || c.Disconnected? ==> c'.Disconnecting? || c'.Disconnected?)
  }

  lemma StagedQueue<M>(s: Sys<M>, s': Sys<M>, b: EL.Action<Task<M>>)
    requires Staged(s) && EL.Enabled(s.loop, b) && s'.loop == EL.Apply(s.loop, b)
    requires Forward(s.conn.state, s'.conn.state)
    requires b.Push? && b.f.SendTask? ==> !s'.conn.state.Connecting?
    requires b.Push? && b.f.ShutdownTask? ==> s'.conn.state.Disconnecting?
    ensures Staged(s')
  {
  }

  lemma StagedStep<M>(f: Format<M>, s: Sys<M>, a: Act<M>)
    requires Sound(f) && Enabled(f, s, a) && Staged(s)
    ensures Staged(Apply(f, s, a))
  {
    match a
    case Loop(b) => StagedQueue(s, Apply(f, s, a), b);
    case RemoteSend(t, m) => StagedQueue(s, Apply(f, s, a), EL.Push(t, SendTask(t, m)));
    case Shutdown(t) => if t != EL.LOOP { StagedQueue(s, Apply(f, s, a), EL.Push(t, ShutdownTask)); }
    case ForceClose(t) => StagedQueue(s, Apply(f, s, a), EL.Push(t, ForceCloseTask));
    case Run(r) => StagedQueue(s, Apply(f, s, a), EL.RunOne);
    case _ => StagedConn(f, s, a);
  }

  lemma StagedConn<M>(f: Format<M>, s: Sys<M>, a: Act<M>)
    requires Sound(f) && Enabled(f, s, a) && Staged(s)
    requires a.Establish? || a.LocalSend? || a.WriteEvent? || a.CloseEvent? || a.Receive?
    ensures Staged(Apply(f, s, a))
  {
    assert Apply(f, s, a).loop == s.loop && Forward(s.conn.state, Apply(f, s, a).conn.state);
  }

  lemma ReadStep<M>(f: Format<M>, s: Sys<M>, a: Act<M>)
    requires Sound(f) && Stable(f) && Enabled(f, s, a) && Read(f, s)
    requires s.conn.wire <= Apply(f, s, a).conn.wire
    ensures Read(f, Apply(f, s, a))
  {
    if a.Receive? {
      var wire, n := s.conn.wire, s.read + a.n;
      assert wire[..n] == wire[..s.read] + wire[s.read..n];
      Streaming(f, wire[..s.read], wire[s.read..n]);
    } else {
      ReadKept(f, s, Apply(f, s, a));
    }
  }

  lemma ReadKept<M>(f: Format<M>, s: Sys<M>, s': Sys<M>)
    requires Sound(f) && Read(f, s) && s.conn.wire <= s'.conn.wire
    requires s'.read == s.read && s'.rest == s.rest && s'.delivered == s.delivered
    ensures Read(f, s')
  {
    assert s'.conn.wire[..s.read] == s.conn.wire[..s.read];
  }

  lemma EncodableQueue<M>(f: Format<M>, s: Sys<M>, s': Sys<M>, b: EL.Action<Task<M>>)
    requires Encodable(f, s) && Staged(s) && EL.Enabled(s.loop, b) && s'.loop == EL.Apply(s.loop, b)
    requires b.Push? && b.f.SendTask? ==> f.sendable(b.f.m)
    requires forall i :: 0 <= i < |s'.log| ==> f.sendable(s'.log[i].m)
    ensures Encodable(f, s')
  {
    WorkStep(s.loop, b);
    forall k | k in Work(s') ensures k in Work(s) || (b.Push? && k == b.f) {
    }
  }

  lemma EncodableStep<M>(f: Format<M>, s: Sys<M>, a: Act<M>)
    requires Sound(f) && Enabled(f, s, a) && Encodable(f, s) && Staged(s)
    ensures Encodable(f, Apply(f, s, a))
  {
    match a
    case Loop(b) => EncodableQueue(f, s, Apply(f, s, a), b);
    case RemoteSend(t, m) => EncodableQueue(f, s, Apply(f, s, a), EL.Push(t, SendTask(t, m)));
    case Shutdown(t) => if t != EL.LOOP { EncodableQueue(f, s, Apply(f, s, a), EL.Push(t, ShutdownTask)); }
    case ForceClose(t) => EncodableQueue(f, s, Apply(f, s, a), EL.Push(t, ForceCloseTask));
    case Run(r) =>
      assert s.loop.batch[0] in Work(s);
      EncodableQueue(f, s, Apply(f, s, a), EL.RunOne);
    case _ =>
  }

  /** Hence all that was accepted is. */
  lemma {:induction false} AcceptedSendable<M>(f: Format<M>, log: seq<Entry<M>>)
    requires forall i :: 0 <= i < |log| ==> f.sendable(log[i].m)
    ensures AllSendable(f, Accepted(log))
  {
    if log != [] { AcceptedSendable(f, log[..|log| - 1]); }
  }

  lemma {:induction false} Runs<M>(f: Format<M>, acts: seq<Act<M>>)
    requires Sound(f) && Stable(f)
    ensures SysInv(f, Exec(f, acts))
  {
    if acts == [] {
      EmptyWaits(f);
      assert Exec(f, acts).conn.wire[..0] == [];
    } else {
      var s, a := Exec(f, acts[..|acts| - 1]), acts[|acts| - 1];
      Runs(f, acts[..|acts| - 1]);
      if Enabled(f, s, a) {
        BytesStep(f, s, a);
        StagedStep(f, s, a);
        ReadStep(f, s, a);
        EncodableStep(f, s, a);
        forall t ensures OrderedFor(Apply(f, s, a), t) {
          OrderedStep(f, s, a, t);
        }
      }
    }
  }

  // ---- The theorems ----------------------------------------------------------------------

  /**
   In every run, with any schedule of partial writes, faults, shutdowns and closes: bytes on
   the wire followed by bytes queued are the accepted messages, whole and in order; and each
   thread's messages went through `sendInLoop` or still wait, in the order it sent them.
   */
  lemma WholeMessagesInThreadOrder<M>(f: Format<M>, acts: seq<Act<M>>, t: EL.Tid)
    requires Sound(f) && Stable(f)
    ensures var s := Exec(f, acts);
            && s.conn.wire + s.conn.out == Frames(f, Accepted(s.log))
            && By(s.log, t) + Queued(s.loop.batch + s.loop.pending, t) == Issued(s, t)
  {
    Runs(f, acts);
    assert OrderedFor(Exec(f, acts), t);
  }

  /**
   In every run the peer has been given a prefix of the accepted messages, and all of them
   exactly when it has read every byte of their frames and every frame fits.
   */
  lemma EndToEnd<M(!new)>(f: Format<M>, acts: seq<Act<M>>)
    requires Lawful(f)
    ensures var s := Exec(f, acts); var sent := Accepted(s.log);
            && s.delivered <= sent
            && (s.delivered == sent <==> AllFit(f, sent) && s.read == |Frames(f, sent)|)
  {
    Runs(f, acts);
    var s := Exec(f, acts);
    var all := Frames(f, Accepted(s.log));
    assert all[..s.read] == s.conn.wire[..s.read];
    AcceptedSendable(f, s.log);
    StreamDeliveredIff(f, Accepted(s.log), s.read);
  }

  // ---- What is dropped, and when ------------------------------------------------------------

  /** Every message that reached `sendInLoop`, in order. */
  ghost function Messages<M>(log: seq<Entry<M>>): seq<M> {
    if log == [] then [] else Messages(log[..|log| - 1]) + [log[|log| - 1].m]
  }

  /** No write fails for good, and nobody closes or half-closes. */
  predicate Calm<M>(a: Act<M>) {
    match a
    case LocalSend(_, r) => !r.Fault?
    case Run(r) => !r.Fault?
    case CloseEvent => false
    case Shutdown(_) => false
    case ForceClose(_) => false
    case _ => true
  }

  ghost predicate CalmSoFar<M>(s: Sys<M>) {
    && (s.conn.state.Connecting? || s.conn.state.Connected?) && !s.conn.shutWr
    && (s.loop.pc.Running? || s.loop.batch == [])
    && (forall k :: k in Work(s) ==> !k.ShutdownTask? && !k.ForceCloseTask?)
    && Accepted(s.log) == Messages(s.log)
  }

  lemma CalmQueue<M>(s: Sys<M>, s': Sys<M>, b: EL.Action<Task<M>>)
    requires CalmSoFar(s) && EL.Enabled(s.loop, b) && s'.loop == EL.Apply(s.loop, b)
    requires b.Push? ==> !b.f.ShutdownTask? && !b.f.ForceCloseTask?
    requires (s'.conn.state.Connecting? || s'.conn.state.Connected?) && !s'.conn.shutWr
    requires Accepted(s'.log) == Messages(s'.log)
    ensures CalmSoFar(s')
  {
    WorkStep(s.loop, b);
    forall k | k in Work(s') ensures k in Work(s) || (b.Push? && k == b.f) {
    }
  }

  lemma CalmLog<M>(log: seq<Entry<M>>, e: Entry<M>)
    requires Accepted(log) == Messages(log) && e.taken
    ensures Accepted(log + [e]) == Messages(log + [e])
  {
    assert (log + [e])[..|log|] == log;
  }

  lemma CalmStep<M>(f: Format<M>, s: Sys<M>, a: Act<M>)
    requires Sound(f) && Enabled(f, s, a) && CalmSoFar(s) && Calm(a)
    ensures CalmSoFar(Apply(f, s, a))
  {
    match a
    case Loop(b) => CalmQueue(s, Apply(f, s, a), b);
    case RemoteSend(t, m) => CalmQueue(s, Apply(f, s, a), EL.Push(t, SendTask(t, m)));
    case LocalSend(m, r) => CalmLog(s.log, Entry(EL.LOOP, m, true, false));
    case Run(r) => CalmRun(f, s, r);
    case _ =>
  }

  lemma CalmRun<M>(f: Format<M>, s: Sys<M>, r: WriteResult)
    requires Sound(f) && Enabled(f, s, Run(r)) && CalmSoFar(s) && !r.Fault?
    ensures CalmSoFar(Apply(f, s, Run(r)))
  {
    var k := s.loop.batch[0];
    assert k in Work(s);
    CalmPerform(f, s.(loop := EL.Apply(s.loop, EL.RunOne)), k, r);
    CalmQueue(s, Apply(f, s, Run(r)), EL.RunOne);
  }

  lemma CalmPerform<M>(f: Format<M>, s: Sys<M>, k: Task<M>, r: WriteResult)
    requires k.SendTask? ==> Allowed(s.conn, |f.frame(k.m)|, r)
    requires (s.conn.state.Connecting? || s.conn.state.Connected?) && !s.conn.shutWr && !r.Fault?
    requires !k.ShutdownTask? && !k.ForceCloseTask? && Accepted(s.log) == Messages(s.log)
    ensures var s' := Perform(f, s, k, r);
            && s'.conn.state == s.conn.state && !s'.conn.shutWr && s'.loop == s.loop
            && Accepted(s'.log) == Messages(s'.log)
  {
    if k.SendTask? { CalmLog(s.log, Entry(k.t, k.m, true, false)); }
  }

  lemma {:induction false} CalmRuns<M>(f: Format<M>, acts: seq<Act<M>>)
    requires Sound(f) && forall i :: 0 <= i < |acts| ==> Calm(acts[i])
    ensures CalmSoFar(Exec(f, acts))
  {
    if acts != [] {
      var s, a := Exec(f, acts[..|acts| - 1]), acts[|acts| - 1];
      CalmRuns(f, acts[..|acts| - 1]);
      if Enabled(f, s, a) { CalmStep(f, s, a); }
    }
  }

  /**
   In a run with no EPIPE or ECONNRESET, no shutdown and no close, nothing is dropped: the
   accepted messages are all that reached `sendInLoop`; and once the queue is empty and the peer
   has read every byte, it has been given everything every thread sent, in each one's order.
   */
  lemma NothingDropped<M(!new)>(f: Format<M>, acts: seq<Act<M>>)
    requires Lawful(f) && forall i :: 0 <= i < |acts| ==> Calm(acts[i])
    ensures var s := Exec(f, acts); var all := Messages(s.log);
            && Accepted(s.log) == all
            && (Work(s) == [] && s.read == |Frames(f, all)| && AllFit(f, all) ==>
                  s.delivered == all && forall t :: By(s.log, t) == Issued(s, t))
  {
    CalmRuns(f, acts);
    EndToEnd(f, acts);
    var s := Exec(f, acts);
    if Work(s) == [] {
      forall t ensures By(s.log, t) == Issued(s, t) { WholeMessagesInThreadOrder(f, acts, t); }
    }
  }

  /** The write result an action brings to `sendInLoop`. */
  predicate BringsFault<M>(a: Act<M>) {
    (a.LocalSend? || a.Run?) && a.r.Fault?
  }

  /** The network never fails a write: the only faults are the EPIPEs that follow SHUT_WR. */
  ghost predicate FaultsOnlyAfterShutWr<M>(f: Format<M>, acts: seq<Act<M>>)
    requires Sound(f)
  {
    forall i :: 0 <= i < |acts| && BringsFault(acts[i]) ==> Exec(f, acts[..i]).conn.shutWr
  }

  ghost predicate LateIffDropped<M>(s: Sys<M>) {
    forall i :: 0 <= i < |s.log| ==> (s.log[i].taken <==> !s.log[i].late)
  }

  lemma LateIffDroppedStep<M>(f: Format<M>, s: Sys<M>, a: Act<M>)
    requires Sound(f) && Enabled(f, s, a) && Bytes(f, s) && Staged(s) && (BringsFault(a) ==> s.conn.shutWr)
    requires !s.conn.state.Disconnected? ==> LateIffDropped(s)
    ensures !Apply(f, s, a).conn.state.Disconnected? ==> LateIffDropped(Apply(f, s, a))
  {
    if a.Run? { LateIffDroppedRun(f, s, a.r); }
  }

  lemma LateIffDroppedRun<M>(f: Format<M>, s: Sys<M>, r: WriteResult)
    requires Sound(f) && Enabled(f, s, Run(r)) && Bytes(f, s) && Staged(s) && (r.Fault? ==> s.conn.shutWr)
    requires !s.conn.state.Disconnected? ==> LateIffDropped(s)
    ensures !Apply(f, s, Run(r)).conn.state.Disconnected? ==> LateIffDropped(Apply(f, s, Run(r)))
  {
    assert s.loop.batch[0] in Work(s);
  }

  /**
   On a connection that has not been closed, over a network that fails no write, a message that
   `send` passed on is dropped exactly when SHUT_WR was issued before its `sendInLoop` ran.
   */
  lemma {:induction false} DroppedIffAfterShutWr<M>(f: Format<M>, acts: seq<Act<M>>)
    requires Sound(f) && Stable(f) && FaultsOnlyAfterShutWr(f, acts)
    ensures var s := Exec(f, acts);
            !s.conn.state.Disconnected? ==> forall i :: 0 <= i < |s.log| ==> (s.log[i].taken <==> !s.log[i].late)
  {
    if acts != [] {
      var n := |acts| - 1;
      var s, a := Exec(f, acts[..n]), acts[n];
      assert FaultsOnlyAfterShutWr(f, acts[..n]) by {
        assert forall i :: 0 <= i < n ==> acts[..n][..i] == acts[..i];
      }
      DroppedIffAfterShutWr(f, acts[..n]);
      Runs(f, acts[..n]);
      if Enabled(f, s, a) { LateIffDroppedStep(f, s, a); }
    }
  }

  // Single steps of a given action list, for the concrete runs below.

  lemma NextLoop<M>(f: Format<M>, acts: seq<Act<M>>, k: nat, s: Sys<M>, b: EL.Action<Task<M>>)
    requires Sound(f) && k < |acts| && Exec(f, acts[..k]) == s
    requires acts[k] == Loop(b) && EL.Enabled(s.loop, b) && !b.Push? && !b.RunOne?
    ensures Exec(f, acts[..k + 1]) == LoopStep(s, b)
  {
    assert acts[..k + 1][..k] == acts[..k];
  }

  lemma NextRemote<M>(f: Format<M>, acts: seq<Act<M>>, k: nat, s: Sys<M>, t: EL.Tid, m: M)
    requires Sound(f) && k < |acts| && Exec(f, acts[..k]) == s
    requires acts[k] == RemoteSend(t, m) && t != EL.LOOP && t !in s.loop.owing && !s.conn.state.Connecting? && f.sendable(m)
    ensures Exec(f, acts[..k + 1]) ==
              s.(loop := EL.Apply(s.loop, EL.Push(t, SendTask(t, m))), issued := s.issued[t := Issued(s, t) + [m]])
  {
    assert acts[..k + 1][..k] == acts[..k];
  }

  lemma NextShutdown<M>(f: Format<M>, acts: seq<Act<M>>, k: nat, s: Sys<M>, t: EL.Tid)
    requires Sound(f) && k < |acts| && Exec(f, acts[..k]) == s
    requires acts[k] == Shutdown(t) && s.conn.state.Connected? && EL.MayAct(s.loop, t)
    ensures var c := MarkDisconnecting(s.conn);
            Exec(f, acts[..k + 1]) ==
              if t == EL.LOOP then s.(conn := ShutdownInLoop(c))
              else s.(conn := c, loop := EL.Apply(s.loop, EL.Push(t, ShutdownTask)))
  {
    assert acts[..k + 1][..k] == acts[..k];
  }

  lemma NextConn<M>(f: Format<M>, acts: seq<Act<M>>, k: nat, s: Sys<M>)
    requires Sound(f) && k < |acts| && Exec(f, acts[..k]) == s && Enabled(f, s, acts[k])
    ensures acts[k].Establish? ==> Exec(f, acts[..k + 1]) == s.(conn := ConnectEstablished(s.conn))
    ensures acts[k].CloseEvent? ==> Exec(f, acts[..k + 1]) == s.(conn := HandleClose(s.conn))
    ensures acts[k].WriteEvent? ==>
              Exec(f, acts[..k + 1]) == s.(conn := HandleWrite(s.conn, acts[k].r), writeAsked := false)
    ensures acts[k].LocalSend? ==>
              Exec(f, acts[..k + 1]) == Execute(f, s, EL.LOOP, acts[k].m, acts[k].r)
                                        .(issued := s.issued[EL.LOOP := Issued(s, EL.LOOP) + [acts[k].m]])
  {
    assert acts[..k + 1][..k] == acts[..k];
  }

  /** Handling ends, the batch is swapped in, and its first functor runs. */
  lemma NextBatch<M>(f: Format<M>, acts: seq<Act<M>>, k: nat, s: Sys<M>, r: WriteResult)
    requires Sound(f) && |acts| == k + 3 && Exec(f, acts[..k]) == s
    requires acts[k] == Loop(EL.EndHandling) && acts[k + 1] == Loop(EL.Swap) && acts[k + 2] == Run(r)
    requires s.loop.pc.Handling? && !s.loop.woken && EL.LOOP !in s.loop.owing && s.loop.pending != []
    requires s.loop.pending[0].SendTask? ==> Allowed(s.conn, |f.frame(s.loop.pending[0].m)|, r)
    ensures exists s0: Sys<M> ::
              s0 == s.(loop := s0.loop) && Exec(f, acts) == Perform(f, s0, s.loop.pending[0], r)
  {
    NextLoop(f, acts, k, s, EL.EndHandling);
    NextLoop(f, acts, k + 1, Exec(f, acts[..k + 1]), EL.Swap);
    var s2 := Exec(f, acts[..k + 2]);
    assert acts[..k + 3] == acts && acts[..k + 3][..k + 2] == acts[..k + 2];
    assert Exec(f, acts) == Perform(f, s2.(loop := EL.Apply(s2.loop, EL.RunOne)), s.loop.pending[0], r);
  }

  /** An established connection in a loop that is handling events. */
  function Established<M>(): Sys<M> {
    Sys(EL.Start([], 0, {}).(pc := EL.Handling), ConnectEstablished(Fresh()), false, false, map[], [], 0, [], [])
  }

  function Opening<M>(): seq<Act<M>> {
    [Loop(EL.Check), Loop(EL.Poll(false)), Establish]
  }

  lemma Opened<M>(f: Format<M>, acts: seq<Act<M>>)
    requires Sound(f) && |acts| >= 3 && acts[..3] == Opening<M>()
    ensures Exec(f, acts[..3]) == Established()
  {
    assert acts[..0] == [];
    assert acts[0] == acts[..3][0] && acts[1] == acts[..3][1] && acts[2] == acts[..3][2];
    NextLoop(f, acts, 0, Exec(f, acts[..0]), EL.Check);
    NextLoop(f, acts, 1, Exec(f, acts[..1]), EL.Poll(false));
    NextConn(f, acts, 2, Exec(f, acts[..2]));
  }

  /** Thread 1 sends; before its functor runs, the loop thread shuts the connection down. */
  function SendThenShutdown<M>(m: M): seq<Act<M>> {
    Opening<M>() + [RemoteSend(1, m), Shutdown(EL.LOOP), Loop(EL.EndHandling), Loop(EL.Swap), Run(Fault)]
  }

  /** A message that `send` passed on before the program's own `shutdown` is lost, on a faultless network. */
  lemma SentBeforeShutdownLost<M>(f: Format<M>, m: M)
    requires Sound(f) && f.sendable(m)
    ensures var s := Exec(f, SendThenShutdown(m));
            Issued(s, 1) == [m] && s.log == [Entry(1, m, false, true)] && s.conn.state.Disconnecting? && s.conn.wire == []
  {
    var acts: seq<Act<M>> := SendThenShutdown(m);
    Opened(f, acts);
    NextRemote(f, acts, 3, Established(), 1, m);
    NextShutdown(f, acts, 4, Exec(f, acts[..4]), EL.LOOP);
    NextBatch(f, acts, 5, Exec(f, acts[..5]), Fault);
  }

  /** The loop thread sends, the socket takes nothing, and the next poll waits for it to drain. */
  function BlockedRound<M>(m: M): seq<Act<M>> {
    [Loop(EL.Check), Loop(EL.Poll(false)), Establish, LocalSend(m, WouldBlock), Loop(EL.EndHandling),
     Loop(EL.Swap), Loop(EL.EndRun), Loop(EL.Check), Loop(EL.Poll(false))]
  }

  ghost function BlockedSys<M>(f: Format<M>, m: M): Sys<M> {
    Sys(EL.Start([], 0, {}).(pc := EL.Handling), SendInLoop(ConnectEstablished(Fresh()), f.frame(m), WouldBlock),
        true, true, map[EL.LOOP := [m]], [Entry(EL.LOOP, m, true, false)], 0, [], [])
  }

  lemma Blocked<M>(f: Format<M>, acts: seq<Act<M>>, m: M)
    requires Sound(f) && |acts| >= 9 && acts[..9] == BlockedRound(m) && f.frame(m) != [] && f.sendable(m)
    ensures Exec(f, acts[..9]) == BlockedSys(f, m)
  {
    FirstNine(acts, m);
    Opened(f, acts);
    BlockedSend(f, acts, m);
    NextRound(f, acts, 4, Exec(f, acts[..4]));
  }

  lemma BlockedSend<M>(f: Format<M>, acts: seq<Act<M>>, m: M)
    requires Sound(f) && |acts| > 3 && acts[3] == LocalSend(m, WouldBlock) && Exec(f, acts[..3]) == Established()
    requires f.sendable(m)
    ensures Exec(f, acts[..4]) == BlockedSys(f, m).(readAsked := false, writeAsked := false)
  {
    NextConn(f, acts, 3, Established());
    var none: seq<M>, noEntry: seq<Entry<M>> := [], [];
    assert none + [m] == [m] && noEntry + [Entry(EL.LOOP, m, true, false)] == [Entry(EL.LOOP, m, true, false)];
  }

  lemma FirstNine<M>(acts: seq<Act<M>>, m: M)
    requires |acts| >= 9 && acts[..9] == BlockedRound(m)
    ensures acts[..3] == Opening<M>() && acts[3] == LocalSend(m, WouldBlock)
    ensures acts[4] == Loop(EL.EndHandling) && acts[5] == Loop(EL.Swap) && acts[6] == Loop(EL.EndRun)
    ensures acts[7] == Loop(EL.Check) && acts[8] == Loop(EL.Poll(false))
  {
    assert acts[..3] == acts[..9][..3];
    assert acts[3] == acts[..9][3] && acts[4] == acts[..9][4] && acts[5] == acts[..9][5];
    assert acts[6] == acts[..9][6] && acts[7] == acts[..9][7] && acts[8] == acts[..9][8];
  }

  /** A round of the loop with nothing queued, up to the return of the next poll. */
  lemma NextRound<M>(f: Format<M>, acts: seq<Act<M>>, k: nat, s: Sys<M>)
    requires Sound(f) && |acts| >= k + 5 && Exec(f, acts[..k]) == s
    requires acts[k] == Loop(EL.EndHandling) && acts[k + 1] == Loop(EL.Swap) && acts[k + 2] == Loop(EL.EndRun)
    requires acts[k + 3] == Loop(EL.Check) && acts[k + 4] == Loop(EL.Poll(false))
    requires s.loop == EL.Start([], 0, {}).(pc := EL.Handling)
    ensures Exec(f, acts[..k + 5]) == s.(readAsked := s.conn.reading, writeAsked := s.conn.writing)
  {
    NextLoop(f, acts, k, s, EL.EndHandling);
    NextLoop(f, acts, k + 1, Exec(f, acts[..k + 1]), EL.Swap);
    NextLoop(f, acts, k + 2, Exec(f, acts[..k + 2]), EL.EndRun);
    NextLoop(f, acts, k + 3, Exec(f, acts[..k + 3]), EL.Check);
    NextLoop(f, acts, k + 4, Exec(f, acts[..k + 4]), EL.Poll(false));
  }

  /** Behind that send thread 1 sends and thread 2 then shuts down; the socket drains before either functor runs. */
  function SendDrainShutdown<M>(f: Format<M>, m1: M, m2: M): seq<Act<M>> {
    BlockedRound(m1) + [RemoteSend(1, m2), Shutdown(2), WriteEvent(Wrote(|f.frame(m1)|)),
                        Loop(EL.EndHandling), Loop(EL.Swap), Run(Fault)]
  }

  /** `handleWrite` half-closes when it drains, ahead of a message queued before the shutdown. */
  lemma DrainOvertakesQueuedSend<M>(f: Format<M>, m1: M, m2: M)
    requires Sound(f) && f.frame(m1) != [] && f.sendable(m1) && f.sendable(m2)
    ensures var s := Exec(f, SendDrainShutdown(f, m1, m2));
            && s.log == [Entry(EL.LOOP, m1, true, false), Entry(1, m2, false, true)]
            && s.conn.state.Disconnecting? && s.conn.wire == f.frame(m1)
  {
    var acts: seq<Act<M>> := SendDrainShutdown(f, m1, m2);
    assert acts[..9] == BlockedRound(m1);
    Blocked(f, acts, m1);
    Drained(f, acts, m1, m2);
    NextBatch(f, acts, 12, Exec(f, acts[..12]), Fault);
  }

  lemma Drained<M>(f: Format<M>, acts: seq<Act<M>>, m1: M, m2: M)
    requires Sound(f) && |acts| > 11 && Exec(f, acts[..9]) == BlockedSys(f, m1) && f.frame(m1) != []
    requires f.sendable(m2)
    requires acts[9] == RemoteSend(1, m2) && acts[10] == Shutdown(2) && acts[11] == WriteEvent(Wrote(|f.frame(m1)|))
    ensures var s' := Exec(f, acts[..12]);
            && s'.loop.pc.Handling? && !s'.loop.woken && EL.LOOP !in s'.loop.owing && s'.log == BlockedSys(f, m1).log
            && s'.loop.pending != [] && s'.loop.pending[0] == SendTask(1, m2)
            && s'.conn.state.Disconnecting? && s'.conn.shutWr && s'.conn.Direct() && s'.conn.wire == f.frame(m1)
  {
    DrainHalfCloses(f.frame(m1));
    NextRemote(f, acts, 9, BlockedSys(f, m1), 1, m2);
    NextShutdown(f, acts, 10, Exec(f, acts[..10]), 2);
    NextConn(f, acts, 11, Exec(f, acts[..11]));
  }

  /** Behind that send thread 1 shuts down, and the peer closes before the functor runs. */
  function ShutdownThenClose<M>(m: M): seq<Act<M>> {
    BlockedRound(m) + [Shutdown(1), CloseEvent, Loop(EL.EndHandling), Loop(EL.Swap), Run(WouldBlock)]
  }

  /** SHUT_WR does get issued over a whole unsent message, on a connection that is closed by then. */
  lemma ShutdownOverUnsentMessage<M>(f: Format<M>, m: M)
    requires Sound(f) && f.frame(m) != [] && f.sendable(m)
    ensures var s := Exec(f, ShutdownThenClose(m));
            && s.log == [Entry(EL.LOOP, m, true, false)] && s.conn.state.Disconnected?
            && s.conn.shutWr && s.conn.wire == [] && s.conn.out == f.frame(m)
  {
    var acts: seq<Act<M>> := ShutdownThenClose(m);
    assert acts[..9] == BlockedRound(m);
    Blocked(f, acts, m);
    NextShutdown(f, acts, 9, BlockedSys(f, m), 1);
    NextConn(f, acts, 10, Exec(f, acts[..10]));
    NextBatch(f, acts, 11, Exec(f, acts[..11]), WouldBlock);
  }

  /**
   Half-close: on an open connection SHUT_WR is never ahead of a queued byte, and once
   `shutdownInLoop` has run either it was issued or there is still something to write.
   */
  lemma HalfCloseSafe<M>(f: Format<M>, acts: seq<Act<M>>)
    requires Sound(f) && Stable(f)
    ensures var c := Exec(f, acts).conn;
            && (c.writing <==> c.Open() && c.out != [])
            && (c.shutWr && c.Open() ==> c.out == [])
            && (c.halfClosing && c.Open() ==> c.shutWr || (c.writing && c.out != []))
  {
    Runs(f, acts);
  }

  /** Once SHUT_WR is issued no queued byte is left to write, so no queued write is even attempted. */
  lemma NoQueuedWriteAfterShutWr<M>(f: Format<M>, acts: seq<Act<M>>)
    requires Sound(f) && Stable(f)
    ensures var s := Exec(f, acts);
            s.conn.shutWr ==> !s.conn.writing && forall r :: !Enabled(f, s, WriteEvent(r))
  {
    Runs(f, acts);
  }

  lemma FrozenApply<M>(f: Format<M>, s: Sys<M>, a: Act<M>)
    requires Sound(f) && Enabled(f, s, a) && Bytes(f, s) && Staged(s) && s.conn.shutWr
    ensures Apply(f, s, a).conn.wire == s.conn.wire && Apply(f, s, a).conn.shutWr
  {
    match a
    case LocalSend(m, r) => SendKeepsInv(s.conn, Frames(f, Accepted(s.log)), f.frame(m), r);
    case Run(r) => FrozenRun(f, s, r);
    case WriteEvent(r) => WriteKeepsInv(s.conn, Frames(f, Accepted(s.log)), r);
    case _ =>
  }

  lemma FrozenRun<M>(f: Format<M>, s: Sys<M>, r: WriteResult)
    requires Sound(f) && Enabled(f, s, Run(r)) && Bytes(f, s) && Staged(s) && s.conn.shutWr
    ensures Apply(f, s, Run(r)).conn.wire == s.conn.wire && Apply(f, s, Run(r)).conn.shutWr
  {
    assert s.loop.batch[0] in Work(s);
    if s.loop.batch[0].SendTask? {
      SendKeepsInv(s.conn, Frames(f, Accepted(s.log)), f.frame(s.loop.batch[0].m), r);
    }
  }

  lemma FrozenStep<M>(f: Format<M>, acts: seq<Act<M>>, a: Act<M>)
    requires Sound(f) && Stable(f) && Exec(f, acts).conn.shutWr
    ensures Exec(f, acts + [a]).conn.wire == Exec(f, acts).conn.wire && Exec(f, acts + [a]).conn.shutWr
  {
    var s := Exec(f, acts);
    Runs(f, acts);
    assert (acts + [a])[..|acts|] == acts;
    assert Exec(f, acts + [a]) == Step(f, s, a);
    if Enabled(f, s, a) { FrozenApply(f, s, a); }
  }

  /** Whatever runs after SHUT_WR was issued, the socket takes no further byte. */
  lemma {:induction false} WireFrozenAfterShutWr<M>(f: Format<M>, acts: seq<Act<M>>, more: seq<Act<M>>)
    requires Sound(f) && Stable(f) && Exec(f, acts).conn.shutWr
    ensures Exec(f, acts + more).conn.wire == Exec(f, acts).conn.wire
    decreases |more|
  {
    if more == [] {
      assert acts + more == acts;
    } else {
      FrozenStep(f, acts, more[0]);
      assert acts + more == acts + [more[0]] + more[1..];
      WireFrozenAfterShutWr(f, acts + [more[0]], more[1..]);
    }
  }

  // ---- The connection as a queue of messages ----------------------------------------------------

  /** Accepted and not yet delivered. */
  ghost function InFlight<M>(s: Sys<M>): seq<M> {
    if |s.delivered| <= |Accepted(s.log)| then Accepted(s.log)[|s.delivered|..] else []
  }

  lemma LogGrows<M>(f: Format<M>, s: Sys<M>, a: Act<M>)
    requires Sound(f) && Enabled(f, s, a)
    ensures Grown(s, Apply(f, s, a))
  {
  }

  ghost predicate Grown<M>(s: Sys<M>, s': Sys<M>) {
    && s.delivered <= s'.delivered
    && (s'.log == s.log || (|s'.log| == |s.log| + 1 && s'.log[..|s.log|] == s.log))
  }

  /** One step of a first-in first-out queue: at most one message joins, some may leave. */
  ghost predicate QueueStep<M>(s: Sys<M>, s': Sys<M>) {
    && Accepted(s.log) <= Accepted(s'.log) && |Accepted(s'.log)| <= |Accepted(s.log)| + 1
    && s.delivered <= s'.delivered
    && s'.delivered + InFlight(s') == s.delivered + InFlight(s) + Accepted(s'.log)[|Accepted(s.log)|..]
  }

  lemma GrownIsQueueStep<M>(s: Sys<M>, s': Sys<M>)
    requires Grown(s, s') && s.delivered <= Accepted(s.log) && s'.delivered <= Accepted(s'.log)
    ensures QueueStep(s, s')
  {
    assert s.delivered + InFlight(s) == Accepted(s.log);
    assert s'.delivered + InFlight(s') == Accepted(s'.log);
  }

  /**
   Seen from above, every step of the whole machine is a step of a first-in first-out queue: at
   most one message joins at the back, some leave at the front, and nothing else changes.
   */
  lemma ChannelIsFifo<M(!new)>(f: Format<M>, acts: seq<Act<M>>, a: Act<M>)
    requires Lawful(f)
    ensures QueueStep(Exec(f, acts), Exec(f, acts + [a]))
  {
    var s, s' := Exec(f, acts), Exec(f, acts + [a]);
    EndToEnd(f, acts);
    EndToEnd(f, acts + [a]);
    assert Grown(s, s') by {
      assert (acts + [a])[..|acts|] == acts;
      if Enabled(f, s, a) { LogGrows(f, s, a); }
    }
    GrownIsQueueStep(s, s');
  }

  // ---- What a step sends, and what waits to be sent -----------------------------------------------

  /** What the step adds to the accepted messages. */
  ghost function Sent<M>(s: Sys<M>, a: Act<M>): seq<M> {
    match a
    case LocalSend(m, r) => if Accepts(s.conn, r) then [m] else []
    case Run(r) =>
      if s.loop.batch != [] && s.loop.batch[0].SendTask? && Accepts(s.conn, r) then [s.loop.batch[0].m] else []
    case _ => []
  }

  lemma AcceptedStep<M>(f: Format<M>, s: Sys<M>, a: Act<M>)
    requires Sound(f) && Enabled(f, s, a)
    ensures Accepted(Apply(f, s, a).log) == Accepted(s.log) + Sent(s, a)
  {
    match a
    case LocalSend(m, r) => LogAppend(s.log, Entry(EL.LOOP, m, Accepts(s.conn, r), s.conn.shutWr), EL.LOOP);
    case Run(r) =>
      var k := s.loop.batch[0];
      if k.SendTask? { LogAppend(s.log, Entry(k.t, k.m, Accepts(s.conn, r), s.conn.shutWr), k.t); }
    case _ =>
  }

  /** The messages in the loop's queue, whoever sent them. */
  ghost function Waiting<M>(work: seq<Task<M>>): seq<M> {
    if work == [] then [] else Payload(work[0]) + Waiting(work[1..])
  }

  ghost function Payload<M>(k: Task<M>): seq<M> {
    if k.SendTask? then [k.m] else []
  }

  lemma {:induction false} WaitingAppend<M>(work: seq<Task<M>>, k: Task<M>)
    ensures Waiting(work + [k]) == Waiting(work) + Payload(k)
  {
    if work == [] {
      assert work + [k] == [k] && [k][1..] == [];
      assert Waiting([k]) == Payload(k) + Waiting([]);
    } else {
      var q, one := Waiting(work[1..]), Payload(work[0]);
      assert (work + [k])[1..] == work[1..] + [k];
      WaitingAppend(work[1..], k);
      assert one + (q + Payload(k)) == one + q + Payload(k);
    }
  }

  lemma WaitingPush<M>(s: Sys<M>, s': Sys<M>, t: EL.Tid, k: Task<M>)
    requires EL.Enabled(s.loop, EL.Push(t, k)) && s'.loop == EL.Apply(s.loop, EL.Push(t, k))
    ensures Waiting(Work(s')) == Waiting(Work(s)) + Payload(k)
  {
    WaitingAppend(Work(s), k);
    assert Work(s') == Work(s) + [k];
  }

  lemma WaitingStep<M>(f: Format<M>, s: Sys<M>, a: Act<M>)
    requires Sound(f) && Enabled(f, s, a) && (s.loop.pc.Running? || s.loop.batch == [])
    ensures var w, w' := Waiting(Work(s)), Waiting(Work(Apply(f, s, a)));
            match a
            case RemoteSend(_, m) => w' == w + [m]
            case Run(_) => w == Payload(s.loop.batch[0]) + w'
            case _ => w' == w
  {
    match a
    case Loop(b) => WaitingLoop(s, b);
    case RemoteSend(t, m) => WaitingPush(s, Apply(f, s, a), t, SendTask(t, m));
    case Shutdown(t) => if t != EL.LOOP { WaitingPush(s, Apply(f, s, a), t, ShutdownTask); }
    case ForceClose(t) => WaitingPush(s, Apply(f, s, a), t, ForceCloseTask);
    case Run(r) => WorkStep(s.loop, EL.RunOne);
    case _ =>
  }

  lemma WaitingLoop<M>(s: Sys<M>, b: EL.Action<Task<M>>)
    requires EL.Enabled(s.loop, b) && !b.RunOne? && (b.Push? ==> b.f.OtherTask?)
    requires s.loop.pc.Running? || s.loop.batch == []
    ensures Waiting(Work(LoopStep(s, b))) == Waiting(Work(s))
  {
    if b.Push? { WaitingPush(s, LoopStep(s, b), b.t, b.f); } else { WorkStep(s.loop, b); }
  }

  /** Reachable states, for machines that contain this one. */
  ghost predicate Reached<M(!new)>(f: Format<M>, s: Sys<M>)
    requires Sound(f)
  {
    exists acts :: s == Exec(f, acts)
  }

  lemma ReachedStep<M(!new)>(f: Format<M>, s: Sys<M>, a: Act<M>)
    requires Sound(f) && Reached(f, s) && Enabled(f, s, a)
    ensures Reached(f, Apply(f, s, a))
  {
    var acts :| s == Exec(f, acts);
    assert (acts + [a])[..|acts|] == acts;
    assert Apply(f, s, a) == Exec(f, acts + [a]);
  }

  lemma ReachedFacts<M(!new)>(f: Format<M>, s: Sys<M>)
    requires Lawful(f) && Reached(f, s)
    ensures s.loop.pc.Running? || s.loop.batch == []
    ensures s.delivered <= Accepted(s.log)
    ensures s.delivered == Accepted(s.log)
            <==> AllFit(f, Accepted(s.log)) && s.read == |Frames(f, Accepted(s.log))|
  {
    var acts :| s == Exec(f, acts);
    Runs(f, acts);
    EndToEnd(f, acts);
  }

  lemma ReachedBytes<M(!new)>(f: Format<M>, s: Sys<M>)
    requires Lawful(f) && Reached(f, s)
    ensures Bytes(f, s) && s.read <= |s.conn.wire|
  {
    var acts :| s == Exec(f, acts);
    Runs(f, acts);
  }
}
