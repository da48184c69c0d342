/**
 A `TcpClient` in its loop: the `Connector` that owns sockets until it hands one over, the
 connection made from it, and the loop's phases. Functors queued while events are handled run
 before the next poll, and that is what makes the connector's assertions true.
 */
module ClientLoop {
  import opened Wrappers

  type Socket = nat   // numbered in order of creation

  /** The two `Channel` objects a socket can have in its life. */
  datatype Chan = Trying(sock: Socket) | Serving(sock: Socket)

  datatype ConnectorState = KDisconnected | KConnecting | KConnected

  datatype Task = ResetChannel | StopInLoop | ForceCloseInLoop(sock: Socket) | ConnectDestroyed(sock: Socket) | OtherTask

  datatype Phase = AtPoll | Handling | Functors

  /** How `::connect` ends: in progress, an error worth retrying, or any other error. */
  datatype ConnectResult = InProgress | Retryable | Fatal

  /** What `handleWrite` finds on the socket. */
  datatype Probe = SocketError | SelfConnect | Good

  datatype Client = Client(
    phase: Phase,
    polled: seq<Chan>,            // activeChannels_, whole until the round ends
    active: seq<Chan>,            // those of them not yet handled
    current: Option<Chan>,        // currentActiveChannel_
    batch: seq<Task>,
    pending: seq<Task>,
    registered: set<Chan>,        // channels in the kernel's list
    state: ConnectorState,
    connect: bool,
    channel: Option<Socket>,      // Connector::channel_
    conn: Option<Socket>,         // TcpClient::connection_
    created: nat,                 // sockets made so far
    closed: set<Socket>,          // closed by the connector
    handed: set<Socket>,          // handed to the new-connection callback
    ok: bool)                     // every assert met so far has held

  datatype Action =
    | Poll(active: seq<Chan>)
    | HandleTrying(writable: bool, probe: Probe, error: bool)
    | HandleServing(closes: bool, retry: bool, r: ConnectResult)
    | EndHandling
    | RunTask(retry: bool, r: ConnectResult)
    | EndFunctors
    | Start(r: ConnectResult)
    | Stop
    | ForceClose(sock: Socket)
    | QueueOther

  // ---- Connector ------------------------------------------------------------------------

  function Check(s: Client, held: bool): Client {
    s.(ok := s.ok && held)
  }

  function Queue(s: Client, k: Task): Client {
    s.(pending := s.pending + [k])
  }

  /** `sockets::close`, which must meet a socket the connector still owns. */
  function CloseSocket(s: Client, n: Socket): Client {
    Check(s, n !in s.closed && n !in s.handed).(closed := s.closed + {n})
  }

  function Retry(s: Client, n: Socket): Client {
    CloseSocket(s, n).(state := KDisconnected)
  }

  function StartInLoop(s: Client, r: ConnectResult): Client {
    var s' := Check(s, s.state.KDisconnected?);
    if s.connect then Connect(s', r) else s'
  }

  /** `connect`: a new socket, and one of the three groups of errno. */
  function Connect(s: Client, r: ConnectResult): Client {
    var n, s' := s.created, s.(created := s.created + 1);
    match r
    case InProgress => Connecting(s', n)
    case Retryable => Retry(s', n)
    case Fatal => CloseSocket(s', n)
  }

  function Connecting(s: Client, n: Socket): Client {
    Check(s, s.channel.None?).(state := KConnecting, channel := Some(n), registered := s.registered + {Trying(n)})
  }

  /** The assertion in `EventLoop::removeChannel`, which searches the whole round. */
  predicate MayRemove(s: Client, c: Chan) {
    s.phase.Handling? ==> s.current == Some(c) || c !in s.polled
  }

  /** `removeAndResetChannel` for a channel on socket `n`. */
  function RemoveAndReset(s: Client, n: Socket): Client {
    var c := Trying(n);
    Queue(Check(s, c in s.registered && MayRemove(s, c)).(registered := s.registered - {c}), ResetChannel)
  }

  function HandleWrite(s: Client, probe: Probe): Client {
    if s.state.KConnecting? && s.channel.Some? then
      var n := s.channel.value;
      var s' := RemoveAndReset(s, n);
      if !probe.Good? then Retry(s', n)
      else if s.connect then NewConnection(s'.(state := KConnected), n)
      else CloseSocket(s'.(state := KConnected), n)
    else Check(s, s.state.KDisconnected?)
  }

  function HandleError(s: Client): Client {
    if s.state.KConnecting? && s.channel.Some? then Retry(RemoveAndReset(s, s.channel.value), s.channel.value) else s
  }

  function StopNow(s: Client): Client {
    if s.state.KConnecting? && s.channel.Some? then
      Retry(RemoveAndReset(s.(state := KDisconnected), s.channel.value), s.channel.value)
    else s
  }

  // ---- TcpClient --------------------------------------------------------------------------

  /** `newConnection`: the socket changes owner and its connection starts reading. */
  function NewConnection(s: Client, n: Socket): Client {
    Check(s, n !in s.closed && n !in s.handed)
    .(handed := s.handed + {n}, conn := Some(n), registered := s.registered + {Serving(n)})
  }

  /** `handleClose`, `removeConnection` and, when the client retries, `restart`. */
  function CloseConnection(s: Client, n: Socket, retry: bool, r: ConnectResult): Client {
    var s' := Queue(Check(s, s.conn == Some(n)).(registered := s.registered - {Serving(n)}, conn := None),
                    ConnectDestroyed(n));
    if retry then StartInLoop(s'.(state := KDisconnected, connect := true), r) else s'
  }

  function Perform(s: Client, k: Task, retry: bool, r: ConnectResult): Client {
    match k
    case ResetChannel => s.(channel := None)
    case StopInLoop => StopNow(s)
    case ForceCloseInLoop(n) => if s.conn == Some(n) then CloseConnection(s, n, retry, r) else s
    case ConnectDestroyed(n) => Check(s, Serving(n) !in s.registered && MayRemove(s, Serving(n)))
    case OtherTask => s
  }

  // ---- Runs ----------------------------------------------------------------------------------

  ghost predicate Distinct(cs: seq<Chan>) {
    forall i, j :: 0 <= i < j < |cs| ==> cs[i] != cs[j]
  }

  ghost predicate Enabled(s: Client, a: Action) {
    match a
    case Poll(active) => s.phase.AtPoll? && Distinct(active) && forall c :: c in active ==> c in s.registered
    case HandleTrying(_, _, _) => s.phase.Handling? && s.active != [] && s.active[0].Trying?
    case HandleServing(_, _, _) => s.phase.Handling? && s.active != [] && s.active[0].Serving?
    case EndHandling => s.phase.Handling? && s.active == []
    case RunTask(_, _) => s.phase.Functors? && s.batch != []
    case EndFunctors => s.phase.Functors? && s.batch == []
    case Start(_) => s.state.KDisconnected? && s.channel.None?
    case Stop => true
    case ForceClose(n) => s.conn == Some(n)
    case QueueOther => true
  }

  /** The loop takes the next active channel. */
  function Take(s: Client): Client
    requires s.active != []
  {
    s.(current := Some(s.active[0]), active := s.active[1..])
  }

  ghost function Apply(s: Client, a: Action): Client
    requires Enabled(s, a)
  {
    match a
    case Poll(active) => s.(phase := Handling, polled := active, active := active, current := None)
    case HandleTrying(writable, probe, error) =>
      var s1 := if writable then HandleWrite(Take(s), probe) else Take(s);
      if error then HandleError(s1) else s1
    case HandleServing(closes, retry, r) =>
      if closes then CloseConnection(Take(s), s.active[0].sock, retry, r) else Take(s)
    case EndHandling => s.(phase := Functors, current := None, batch := s.pending, pending := [])
    case RunTask(retry, r) => Perform(s.(batch := s.batch[1..]), s.batch[0], retry, r)
    case EndFunctors => s.(phase := AtPoll)
    case Start(r) => StartInLoop(s.(connect := true), r)
    case Stop => Queue(s.(connect := false), StopInLoop)
    case ForceClose(n) => Queue(s, ForceCloseInLoop(n))
    case QueueOther => Queue(s, OtherTask)
  }

  ghost function Step(s: Client, a: Action): Client {
    if Enabled(s, a) then Apply(s, a) else s
  }

  ghost function Exec(acts: seq<Action>): Client {
    if acts == [] then
      Client(AtPoll, [], [], None, [], [], {}, KDisconnected, false, None, None, 0, {}, {}, true)
    else Step(Exec(acts[..|acts| - 1]), acts[|acts| - 1])
  }

  // ---- The invariant -----------------------------------------------------------------------------

  ghost function Resets(q: seq<Task>): nat {
    if q == [] then 0 else Unit(q[0].ResetChannel?) + Resets(q[1..])
  }

  /** A reset is queued, and no forced close of `n` comes before it. */
  ghost predicate ResetFirst(q: seq<Task>, n: Socket) {
    q != [] && (q[0].ResetChannel? || (q[0] != ForceCloseInLoop(n) && ResetFirst(q[1..], n)))
  }

  ghost predicate IsTrying(s: Client, n: Socket) {
    s.state.KConnecting? && s.channel == Some(n)
  }

  /** Each socket has one owner: closed, handed over, or being tried. */
  ghost predicate Owned(s: Client, n: Socket) {
    Unit(n in s.closed) + Unit(n in s.handed) + Unit(IsTrying(s, n)) == Unit(n < s.created)
  }

  /** The kernel's list: the channel being tried and that of the live connection, nothing else. */
  ghost predicate Listed(s: Client, c: Chan) {
    c in s.registered <==> match c case Trying(n) => IsTrying(s, n) case Serving(n) => s.conn == Some(n)
  }

  ghost predicate Queues(s: Client) {
    && (s.state.KConnecting? ==> s.channel.Some?)
    && (s.conn.Some? ==> s.state.KConnected? && s.conn.value in s.handed)
    && Resets(s.batch + s.pending) == Unit(s.channel.Some? && !s.state.KConnecting?)
    && (!s.phase.Functors? ==> s.batch == [])
    && (forall n :: ForceCloseInLoop(n) in s.batch + s.pending ==> n in s.handed)
    && (forall n :: ConnectDestroyed(n) in s.batch + s.pending ==> n in s.handed && s.conn != Some(n))
  }

  ghost predicate Phases(s: Client) {
    && Distinct(s.active)
    && (forall c :: c in s.active ==> c in s.registered)
    && (!s.phase.Handling? ==> s.active == [])
  }

  /** While a handed-over channel still awaits its reset, the new connection cannot be closed first. */
  ghost predicate ResetBeforeClose(s: Client) {
    s.conn.Some? && s.channel.Some? ==>
      && !s.phase.AtPoll?
      && ResetFirst(if s.phase.Handling? then s.pending else s.batch, s.conn.value)
      && Serving(s.conn.value) !in s.active
  }

  ghost predicate Inv(s: Client) {
    && s.ok && Queues(s) && Phases(s) && ResetBeforeClose(s)
    && (forall n :: Owned(s, n)) && (forall c :: Listed(s, c))
  }

  // ---- Queue lemmas ----------------------------------------------------------------------------------

  lemma {:induction false} ResetsAppend(q: seq<Task>, k: Task)
    ensures Resets(q + [k]) == Resets(q) + Unit(k.ResetChannel?)
  {
    if q == [] {
      assert q + [k] == [k] && [k][1..] == [];
    } else {
      assert (q + [k])[1..] == q[1..] + [k];
      ResetsAppend(q[1..], k);
    }
  }

  lemma {:induction false} ResetFirstGrows(q: seq<Task>, k: Task, n: Socket)
    requires ResetFirst(q, n)
    ensures ResetFirst(q + [k], n)
  {
    if !q[0].ResetChannel? {
      assert (q + [k])[1..] == q[1..] + [k];
      ResetFirstGrows(q[1..], k, n);
    }
  }

  lemma {:induction false} ResetFirstNew(q: seq<Task>, n: Socket)
    requires ForceCloseInLoop(n) !in q
    ensures ResetFirst(q + [ResetChannel], n)
  {
    if q != [] {
      assert (q + [ResetChannel])[1..] == q[1..] + [ResetChannel];
      ResetFirstNew(q[1..], n);
    }
  }

  /** Queueing anything but a reset. */
  lemma QueueKept(s: Client, k: Task)
    requires Inv(s) && !k.ResetChannel?
    requires k.ForceCloseInLoop? ==> k.sock in s.handed
    requires k.ConnectDestroyed? ==> k.sock in s.handed && s.conn != Some(k.sock)
    ensures Inv(Queue(s, k))
  {
    assert s.batch + (s.pending + [k]) == s.batch + s.pending + [k];
    ResetsAppend(s.batch + s.pending, k);
    if s.conn.Some? && s.channel.Some? && s.phase.Handling? {
      ResetFirstGrows(s.pending, k, s.conn.value);
    }
    OwnedSame(s, Queue(s, k));
  }

  lemma OwnedSame(s: Client, s': Client)
    requires forall n :: Owned(s, n)
    requires forall c :: Listed(s, c)
    requires s'.closed == s.closed && s'.handed == s.handed && s'.created == s.created
    requires s'.conn == s.conn && s'.registered == s.registered
    requires forall n :: IsTrying(s', n) == IsTrying(s, n)
    ensures forall n :: Owned(s', n)
    ensures forall c :: Listed(s', c)
  {
    forall n ensures Owned(s', n) { assert Owned(s, n); }
    forall c ensures Listed(s', c) { assert Listed(s, c); }
  }

  // ---- Sockets and the kernel's list -------------------------------------------------------------------

  lemma RetryOwned(s: Client, n: Socket)
    requires IsTrying(s, n) && (forall k :: Owned(s, k)) && (forall c :: Listed(s, c)) && s.conn.None?
    ensures var s' := Retry(RemoveAndReset(s, n), n);
            (forall k :: Owned(s', k)) && (forall c :: Listed(s', c))
  {
    var s' := Retry(RemoveAndReset(s, n), n);
    forall k ensures Owned(s', k) { assert Owned(s, k); }
    forall c ensures Listed(s', c) { assert Listed(s, c); }
  }

  /** The connecting channel is given up: `handleError`, a failed `handleWrite`, or `stopInLoop`. */
  lemma GiveUpKept(s: Client, n: Socket)
    requires Inv(s) && IsTrying(s, n) && Trying(n) !in s.active
    requires s.phase.Handling? ==> s.current == Some(Trying(n))
    ensures Inv(Retry(RemoveAndReset(s, n), n))
  {
    assert Owned(s, n) && Listed(s, Trying(n));
    RetryOwned(s, n);
    assert s.batch + (s.pending + [ResetChannel]) == s.batch + s.pending + [ResetChannel];
    ResetsAppend(s.batch + s.pending, ResetChannel);
  }

  /** The socket is connected: handed to the client, or closed if it was stopped meanwhile. */
  lemma ConnectedKept(s: Client, n: Socket)
    requires Inv(s) && IsTrying(s, n) && Trying(n) !in s.active && s.phase.Handling? && s.current == Some(Trying(n))
    ensures var s1 := RemoveAndReset(s, n).(state := KConnected);
            Inv(if s.connect then NewConnection(s1, n) else CloseSocket(s1, n))
  {
    var s1 := RemoveAndReset(s, n).(state := KConnected);
    var s' := if s.connect then NewConnection(s1, n) else CloseSocket(s1, n);
    assert Owned(s, n) && Listed(s, Trying(n)) && Listed(s, Serving(n));
    forall k ensures Owned(s', k) { assert Owned(s, k); }
    forall c ensures Listed(s', c) { assert Listed(s, c); }
    assert s.batch + (s.pending + [ResetChannel]) == s.batch + s.pending + [ResetChannel];
    ResetsAppend(s.batch + s.pending, ResetChannel);
    assert ForceCloseInLoop(n) !in s.pending by {
      assert forall k :: k in s.pending ==> k in s.batch + s.pending;
    }
    ResetFirstNew(s.pending, n);
  }

  lemma HandleWriteKept(s: Client, probe: Probe, n: Socket)
    requires Inv(s) && IsTrying(s, n) && Trying(n) !in s.active && s.phase.Handling? && s.current == Some(Trying(n))
    ensures Inv(HandleWrite(s, probe)) && !HandleWrite(s, probe).state.KConnecting?
  {
    GiveUpKept(s, n);
    ConnectedKept(s, n);
  }

  /** `startInLoop` from a disconnected connector that holds no channel. */
  lemma StartKept(s: Client, r: ConnectResult)
    requires Inv(s) && s.state.KDisconnected? && s.channel.None?
    ensures Inv(StartInLoop(s, r))
  {
    var s' := StartInLoop(s, r);
    assert Owned(s, s.created);
    forall k ensures Owned(s', k) { assert Owned(s, k); }
    forall c ensures Listed(s', c) { assert Listed(s, c); }
  }

  /** The live connection closes; by then the connector's channel has been reset. */
  lemma CloseKept(s: Client, n: Socket, retry: bool, r: ConnectResult)
    requires Inv(s) && s.conn == Some(n) && s.channel.None? && Serving(n) !in s.active
    ensures Inv(CloseConnection(s, n, retry, r))
  {
    var s1 := s.(registered := s.registered - {Serving(n)}, conn := None);
    forall k ensures Owned(s1, k) { assert Owned(s, k); }
    forall c ensures Listed(s1, c) { assert Listed(s, c); }
    assert Inv(s1);
    QueueKept(s1, ConnectDestroyed(n));
    if retry {
      var s2 := Queue(s1, ConnectDestroyed(n)).(state := KDisconnected, connect := true);
      OwnedSame(Queue(s1, ConnectDestroyed(n)), s2);
      StartKept(s2, r);
    }
  }

  // ---- Steps -----------------------------------------------------------------------------------------------

  lemma TakeKept(s: Client)
    requires Inv(s) && s.active != []
    ensures Inv(Take(s)) && s.active[0] !in Take(s).active && s.active[0] in s.registered
  {
    OwnedSame(s, Take(s));
  }

  lemma TryingKept(s: Client, writable: bool, probe: Probe, error: bool)
    requires Inv(s) && Enabled(s, HandleTrying(writable, probe, error))
    ensures Inv(Apply(s, HandleTrying(writable, probe, error)))
  {
    TakeKept(s);
    var t, n := Take(s), s.active[0].sock;
    assert Listed(s, Trying(n));
    if writable {
      HandleWriteKept(t, probe, n);
    } else if error {
      GiveUpKept(t, n);
    }
  }

  lemma ServingKept(s: Client, closes: bool, retry: bool, r: ConnectResult)
    requires Inv(s) && Enabled(s, HandleServing(closes, retry, r))
    ensures Inv(Apply(s, HandleServing(closes, retry, r)))
  {
    TakeKept(s);
    assert Listed(s, s.active[0]);
    if closes { CloseKept(Take(s), s.active[0].sock, retry, r); }
  }

  /** The loop takes the first functor of the batch. */
  lemma PopKept(s: Client)
    requires Inv(s) && s.phase.Functors? && s.batch != [] && !s.batch[0].ResetChannel?
    requires s.conn.Some? && s.channel.Some? ==> s.batch[0] != ForceCloseInLoop(s.conn.value)
    ensures Inv(s.(batch := s.batch[1..]))
  {
    assert (s.batch + s.pending)[1..] == s.batch[1..] + s.pending;
    assert forall k :: k in s.batch[1..] + s.pending ==> k in s.batch + s.pending;
    OwnedSame(s, s.(batch := s.batch[1..]));
  }

  lemma ResetKept(s: Client)
    requires Inv(s) && s.phase.Functors? && s.batch != [] && s.batch[0].ResetChannel?
    ensures Inv(s.(batch := s.batch[1..], channel := None))
  {
    assert (s.batch + s.pending)[1..] == s.batch[1..] + s.pending;
    assert forall k :: k in s.batch[1..] + s.pending ==> k in s.batch + s.pending;
    OwnedSame(s, s.(batch := s.batch[1..], channel := None));
  }

  lemma TaskKept(s: Client, retry: bool, r: ConnectResult)
    requires Inv(s) && Enabled(s, RunTask(retry, r))
    ensures Inv(Apply(s, RunTask(retry, r)))
  {
    var k := s.batch[0];
    assert k in s.batch + s.pending;
    match k
    case ResetChannel => ResetKept(s);
    case ForceCloseInLoop(n) =>
      PopKept(s);
      if s.conn == Some(n) { CloseKept(s.(batch := s.batch[1..]), n, retry, r); }
    case StopInLoop =>
      PopKept(s);
      if s.state.KConnecting? { GiveUpKept(s.(batch := s.batch[1..]), s.channel.value); }
    case ConnectDestroyed(n) =>
      PopKept(s);
      assert Listed(s, Serving(n));
    case OtherTask => PopKept(s);
  }

  lemma PhaseKept(s: Client, a: Action)
    requires (a.Poll? || a.EndHandling? || a.EndFunctors?) && Inv(s) && Enabled(s, a)
    ensures Inv(Apply(s, a))
  {
    OwnedSame(s, Apply(s, a));
    assert s.phase.Handling? ==> s.pending + [] == s.batch + s.pending;
  }

  lemma StepKept(s: Client, a: Action)
    requires Inv(s) && Enabled(s, a)
    ensures Inv(Apply(s, a))
  {
    match a
    case HandleTrying(writable, probe, error) => TryingKept(s, writable, probe, error);
    case HandleServing(closes, retry, r) => ServingKept(s, closes, retry, r);
    case RunTask(retry, r) => TaskKept(s, retry, r);
    case Start(r) =>
      OwnedSame(s, s.(connect := true));
      StartKept(s.(connect := true), r);
    case Stop =>
      OwnedSame(s, s.(connect := false));
      QueueKept(s.(connect := false), StopInLoop);
    case ForceClose(n) => QueueKept(s, ForceCloseInLoop(n));
    case QueueOther => QueueKept(s, OtherTask);
    case _ => PhaseKept(s, a);
  }

  lemma {:induction false} Runs(acts: seq<Action>)
    ensures Inv(Exec(acts))
  {
    if acts != [] {
      Runs(acts[..|acts| - 1]);
      var s, a := Exec(acts[..|acts| - 1]), acts[|acts| - 1];
      if Enabled(s, a) { StepKept(s, a); }
    }
  }

  // ---- The theorems ------------------------------------------------------------------------------------------

  /**
   In every run no assertion fails: none in `startInLoop`, `connecting`, `handleWrite`,
   `removeConnection` or `removeChannel`; no socket is closed or handed over twice; and every
   channel that was polled and waits to be handled is still registered.
   */
  lemma AssertionsHold(acts: seq<Action>)
    ensures var s := Exec(acts); s.ok && forall c :: c in s.active ==> c in s.registered
  {
    Runs(acts);
  }

  /** Sockets created are those closed, those handed over, and the one being tried, without overlap. */
  lemma SocketsConserved(acts: seq<Action>)
    ensures var s := Exec(acts);
            && s.closed !! s.handed
            && s.created == |s.closed| + |s.handed| + Unit(s.state.KConnecting?)
  {
    Runs(acts);
    var s := Exec(acts);
    var trying := if s.state.KConnecting? then {s.channel.value} else {};
    forall n: Socket ensures n in s.closed + s.handed + trying <==> n < s.created { assert Owned(s, n); }
    forall n | n in s.closed ensures n !in s.handed && n !in trying { assert Owned(s, n); }
    forall n | n in s.handed ensures n !in trying { assert Owned(s, n); }
    SizeBelow(s.closed + s.handed + trying, s.created);
    assert |s.closed + s.handed + trying| == |s.closed| + |s.handed| + |trying|;
  }

  lemma {:induction false} SizeBelow(xs: set<Socket>, n: nat)
    requires forall k: Socket :: k in xs <==> k < n
    ensures |xs| == n
  {
    if n == 0 {
      assert xs == {};
    } else {
      SizeBelow(xs - {n - 1}, n - 1);
    }
  }

  /** Whenever the live connection can close, the connector's channel is gone, so `restart` may connect. */
  lemma RestartFindsNoChannel(acts: seq<Action>)
    ensures var s := Exec(acts);
            s.conn.Some? && (s.phase.AtPoll? || Serving(s.conn.value) in s.active
                             || (s.batch != [] && s.batch[0] == ForceCloseInLoop(s.conn.value)))
            ==> s.channel.None?
  {
    Runs(acts);
    var s := Exec(acts);
    assert s.batch != [] ==> s.phase.Functors?;
  }

  /**
   The condition under which runs let `start` be issued is exact: in any reachable state it is
   what keeps the asserts of `startInLoop` and `connecting` from failing. In particular a start
   between a failed attempt and its queued reset aborts.
   */
  lemma StartSafeIff(acts: seq<Action>)
    ensures var s := Exec(acts);
            (forall r :: StartInLoop(s.(connect := true), r).ok) <==> s.state.KDisconnected? && s.channel.None?
  {
    Runs(acts);
    var s := Exec(acts);
    assert Owned(s, s.created);
    if s.state.KDisconnected? && s.channel.Some? {
      assert !StartInLoop(s.(connect := true), InProgress).ok;
    } else if !s.state.KDisconnected? {
      assert !StartInLoop(s.(connect := true), Fatal).ok;
    }
  }

  /**
   The state they exclude is met in a run: the first attempt is refused while its events are
   handled, and its channel is still there when the handler returns.
   */
  lemma FailedAttemptBeforeReset()
    ensures var s := Exec([Start(InProgress), Poll([Trying(0)]), HandleTrying(true, SocketError, false)]);
            s.state.KDisconnected? && s.channel == Some(0) && !StartInLoop(s.(connect := true), InProgress).ok
  {
    var a, b, c := Start(InProgress), Poll([Trying(0)]), HandleTrying(true, SocketError, false);
    assert [a, b, c][..2] == [a, b] && [a, b][..1] == [a] && [a][..0] == [];
    assert Exec([a]) == Step(Exec([]), a);
    assert Exec([a, b]) == Step(Exec([a]), b);
    assert Exec([a, b, c]) == Step(Exec([a, b]), c);
  }
}
