/**
 What the steps of a run of `ClientLoop` bring about for the client: who owns the socket
 afterwards, what is still watched, what is queued, and whether another attempt is under way.
 */
module ClientLaws {
  import opened Wrappers
  import opened ClientLoop

  /** The socket being tried, if any. */
  function Tried(s: Client): Option<Socket> {
    if s.state.KConnecting? then s.channel else None
  }

  /** A new socket was made: it is being tried and watched, or it is closed and nothing is tried. */
  ghost predicate Attempted(s: Client, s': Client, r: ConnectResult) {
    && s'.created == s.created + 1
    && (if r.InProgress? then Tried(s') == Some(s.created) && Trying(s.created) in s'.registered
        else Tried(s') == None && s.created in s'.closed && s'.state.KDisconnected? && Trying(s.created) !in s'.registered)
    && s'.handed == s.handed
  }

  /** No attempt was made and no socket changed hands. */
  ghost predicate Unattempted(s: Client, s': Client) {
    s'.created == s.created && s'.closed == s.closed && s'.handed == s.handed
  }

  /** The attempt on `n` was given up: closed, unwatched, and its channel to be reset. */
  ghost predicate GivenUp(s: Client, s': Client, n: Socket) {
    && s'.state.KDisconnected? && s'.closed == s.closed + {n} && s'.handed == s.handed && s'.created == s.created
    && Trying(n) !in s'.registered && s'.pending == s.pending + [ResetChannel] && s'.conn == s.conn
  }

  /** The attempt on `n` succeeded: its socket serves a connection, or is closed if the client was stopped. */
  ghost predicate Succeeded(s: Client, s': Client, n: Socket) {
    && s'.state.KConnected? && Trying(n) !in s'.registered && s'.pending == s.pending + [ResetChannel]
    && s'.created == s.created
    && (if s.connect then s'.handed == s.handed + {n} && s'.conn == Some(n) && Serving(n) in s'.registered && s'.closed == s.closed
        else s'.closed == s.closed + {n} && s'.conn == s.conn && s'.handed == s.handed)
  }

  /** The connection on `n` closed: unwatched, gone from the client, its end queued, and a new attempt made if wanted. */
  ghost predicate Closed(s: Client, s': Client, n: Socket, retry: bool, r: ConnectResult) {
    && s'.conn.None? && Serving(n) !in s'.registered && s'.pending == s.pending + [ConnectDestroyed(n)]
    && (if retry then Attempted(s, s', r) && s'.connect else Unattempted(s, s') && s'.state == s.state && s'.connect == s.connect)
  }

  lemma GiveUpShows(s: Client, n: Socket)
    requires Inv(s) && Tried(s) == Some(n)
    ensures GivenUp(s, Retry(RemoveAndReset(s, n), n), n)
  {
  }

  lemma StartShows(s: Client, r: ConnectResult)
    requires Inv(s) && s.state.KDisconnected? && s.channel.None?
    ensures s.connect ==> Attempted(s, StartInLoop(s, r), r) && StartInLoop(s, r).pending == s.pending
    ensures s.connect ==> StartInLoop(s, r).connect && StartInLoop(s, r).conn == s.conn
    ensures forall c :: c in s.registered ==> c in StartInLoop(s, r).registered
    ensures forall c: Chan :: c.Serving? && c in StartInLoop(s, r).registered ==> c in s.registered
  {
    assert Listed(s, Trying(s.created)) && Owned(s, s.created);
  }

  lemma CloseShows(s: Client, n: Socket, retry: bool, r: ConnectResult)
    requires Inv(s) && s.conn == Some(n) && s.channel.None? && Serving(n) !in s.active
    ensures Closed(s, CloseConnection(s, n, retry, r), n, retry, r)
  {
    CloseKept(s, n, false, r);
    var s1 := CloseConnection(s, n, false, r);
    if retry {
      var s2 := s1.(state := KDisconnected, connect := true);
      OwnedSame(s1, s2);
      StartShows(s2, r);
    }
  }

  /** The event loop handles the connector's channel. */
  lemma TryingShows(acts: seq<Action>, writable: bool, probe: Probe, error: bool)
    requires Enabled(Exec(acts), HandleTrying(writable, probe, error))
    ensures var s, s' := Exec(acts), Exec(acts + [HandleTrying(writable, probe, error)]);
            && Tried(s) == Some(s.active[0].sock) && s'.active == s.active[1..]
            && (if writable && probe.Good? then Succeeded(s, s', s.active[0].sock)
                else if writable || error then GivenUp(s, s', s.active[0].sock)
                else s' == Take(s))
  {
    var s, n := Exec(acts), Exec(acts).active[0].sock;
    Runs(acts);
    TakeKept(s);
    assert Listed(s, Trying(n)) && Listed(s, Serving(n));
    Appended(acts, HandleTrying(writable, probe, error));
    if (writable && !probe.Good?) || (!writable && error) { GiveUpShows(Take(s), n); }
  }

  /** The event loop handles the channel of the live connection. */
  lemma ServingShows(acts: seq<Action>, closes: bool, retry: bool, r: ConnectResult)
    requires Enabled(Exec(acts), HandleServing(closes, retry, r))
    ensures var s, s' := Exec(acts), Exec(acts + [HandleServing(closes, retry, r)]);
            && s.conn == Some(s.active[0].sock) && s'.active == s.active[1..]
            && (if closes then Closed(s, s', s.active[0].sock, retry, r) else s' == Take(s))
  {
    var s, n := Exec(acts), Exec(acts).active[0].sock;
    Runs(acts);
    TakeKept(s);
    assert Listed(s, Serving(n));
    Appended(acts, HandleServing(closes, retry, r));
    if closes { CloseShows(Take(s), n, retry, r); }
  }

  /** What functor `k` does when it runs. */
  ghost predicate Ran(s: Client, s': Client, k: Task, retry: bool, r: ConnectResult) {
    match k
    case ResetChannel => s.channel.Some? && !s.state.KConnecting? && s' == s.(batch := s'.batch, channel := None)
    case StopInLoop => if Tried(s).Some? then GivenUp(s, s', Tried(s).value) else s' == s.(batch := s'.batch)
    case ForceCloseInLoop(n) => if s.conn == Some(n) then Closed(s, s', n, retry, r) else s' == s.(batch := s'.batch)
    case ConnectDestroyed(n) => s' == s.(batch := s'.batch) && Serving(n) !in s.registered
    case OtherTask => s' == s.(batch := s'.batch)
  }

  /** The loop runs a functor. */
  lemma TaskShows(acts: seq<Action>, retry: bool, r: ConnectResult)
    requires Enabled(Exec(acts), RunTask(retry, r))
    ensures var s, s' := Exec(acts), Exec(acts + [RunTask(retry, r)]);
            s'.batch == s.batch[1..] && Ran(s, s', s.batch[0], retry, r)
  {
    var s := Exec(acts);
    Runs(acts);
    Appended(acts, RunTask(retry, r));
    Runs(acts + [RunTask(retry, r)]);
    var k, t := s.batch[0], s.(batch := s.batch[1..]);
    assert k in s.batch + s.pending;
    match k
    case StopInLoop =>
      PopKept(s);
      if Tried(s).Some? { GiveUpShows(t, Tried(s).value); }
    case ForceCloseInLoop(n) =>
      PopKept(s);
      if s.conn == Some(n) { CloseShows(t, n, retry, r); }
    case ConnectDestroyed(n) => assert Listed(s, Serving(n));
    case _ =>
  }

  /** What the user asks for, and the phases. */
  ghost predicate Asked(s: Client, s': Client, a: Action) {
    match a
    case Poll(active) => s' == s.(phase := Handling, polled := active, active := active, current := None)
    case EndHandling => s'.phase.Functors? && s'.batch == s.pending && s'.pending == []
    case EndFunctors => s'.phase.AtPoll? && s.batch == []
    case Start(r) => Attempted(s, s', r) && s'.connect && s'.pending == s.pending && s'.conn == s.conn
    case Stop => !s'.connect && s'.pending == s.pending + [StopInLoop] && Unattempted(s, s') && Tried(s') == Tried(s)
    case ForceClose(n) => s'.pending == s.pending + [ForceCloseInLoop(n)] && Unattempted(s, s') && s'.conn == s.conn
    case QueueOther => s'.pending == s.pending + [OtherTask] && Unattempted(s, s')
    case _ => true
  }

  lemma OthersShow(acts: seq<Action>, a: Action)
    requires Enabled(Exec(acts), a)
    ensures Asked(Exec(acts), Exec(acts + [a]), a)
  {
    var s := Exec(acts);
    Runs(acts);
    Appended(acts, a);
    if a.Start? {
      OwnedSame(s, s.(connect := true));
      StartShows(s.(connect := true), a.r);
    }
  }

  lemma Appended(acts: seq<Action>, a: Action)
    requires Enabled(Exec(acts), a)
    ensures Exec(acts + [a]) == Apply(Exec(acts), a)
  {
    assert (acts + [a])[..|acts|] == acts;
  }
}
