/**
 Two RPC endpoints over two real connections. `up` is the caller's loop and the bytes on their
 way to the server, `down` the server's loop and the bytes coming back. Every run of the whole
 is a run of `RpcRun`, whose two queues turn out to be what the connections have accepted and
 the other end has not yet handled.
 */
module RpcOverTransport {
  import opened Wrappers
  import opened Endian
  import opened Framing
  import CS = ConnectionSpec
  import EL = EventLoop
  import T = Transport
  import R = RpcRun

  type Request = (int, R.Call)
  type Response = (int, R.Reply)

  datatype Setting = Setting(services: R.Services, start: int, upFormat: Format<Request>, downFormat: Format<Response>)

  /** `ends` is `RpcRun` without its queues, which stay empty in it. */
  datatype World = World(
    up: T.Sys<Request>,
    down: T.Sys<Response>,
    handledUp: nat,       // requests the codec has called back and the server's channel has handled
    handledDown: nat,     // likewise responses, at the caller
    ends: R.Sys)

  datatype Action =
    | Draw(call: R.Call)
    | File(i: nat)
    | SendRemote(t: EL.Tid, i: nat)              // `send` from another thread
    | SendLocal(i: nat, r: CS.WriteResult)       // `send` in the loop thread
    | SendRefused(i: nat)                        // `send` on a connection that is not connected
    | Up(b: T.Act<Request>)                      // any other step of the caller's loop and connection
    | Serve(r: CS.WriteResult)                   // the server handles the next request; a refusal is sent at once
    | FinishRemote(t: EL.Tid, i: nat, response: seq<Byte>)
    | FinishLocal(i: nat, response: seq<Byte>, r: CS.WriteResult)
    | FinishRefused(i: nat, response: seq<Byte>)
    | Down(d: T.Act<Response>)
    | Receive                                    // the caller handles the next response

  ghost predicate Proper(c: Setting) {
    Lawful(c.upFormat) && Lawful(c.downFormat)
  }

  // ---- Steps --------------------------------------------------------------------------------

  function Cut(s: R.Sys): R.Sys {
    s.(requests := [], responses := [])
  }

  function Next<V>(q: seq<V>, n: nat): seq<V> {
    if n < |q| then [q[n]] else []
  }

  /** What the two RPC layers see: their own state, and the next message their codec calls back. */
  function View(w: World): R.Sys {
    w.ends.(requests := Next(w.up.delivered, w.handledUp), responses := Next(w.down.delivered, w.handledDown))
  }

  ghost function IndexOf<V>(q: seq<(int, V)>, id: int): (i: nat)
    requires R.Count(q, id) > 0
    ensures i < |q| && q[i].0 == id
  {
    if q[|q| - 1].0 == id then |q| - 1 else IndexOf(q[..|q| - 1], id)
  }

  /** The functor that `Run` would run next sends a message. */
  predicate RunsSend<V>(s: T.Sys<V>, b: T.Act<V>) {
    b.Run? && s.loop.batch != [] && s.loop.batch[0].SendTask?
  }

  function Refusal(services: R.Services, e: Request): Response {
    (e.0, R.Reply(R.RequestError(services, e.1), []))
  }

  /** Whether handling the next request ends in a refusal that goes on the connection. */
  predicate SendsRefusal(c: Setting, w: World) {
    && w.handledUp < |w.up.delivered| && w.down.conn.state.Connected?
    && R.RequestError(c.services, w.up.delivered[w.handledUp].1) != R.NO_ERROR
  }

  predicate InRange(w: World, a: Action) {
    match a
    case SendRemote(_, i) => i < |w.ends.filed|
    case SendLocal(i, _) => i < |w.ends.filed|
    case SendRefused(i) => i < |w.ends.filed|
    case FinishRemote(_, i, _) => i < |w.ends.serving|
    case FinishLocal(i, _, _) => i < |w.ends.serving|
    case FinishRefused(i, _) => i < |w.ends.serving|
    case _ => true
  }

  /** The step of the caller's connection. */
  function UpStep(w: World, a: Action): Option<T.Act<Request>>
    requires InRange(w, a)
  {
    match a
    case SendRemote(t, i) => Some(T.RemoteSend(t, w.ends.filed[i]))
    case SendLocal(i, r) => Some(T.LocalSend(w.ends.filed[i], r))
    case Up(b) => Some(b)
    case _ => None
  }

  /** The step of the server's connection. */
  function DownStep(c: Setting, w: World, a: Action): Option<T.Act<Response>>
    requires InRange(w, a)
  {
    match a
    case FinishRemote(t, i, bytes) => Some(T.RemoteSend(t, (w.ends.serving[i].0, R.Reply(R.NO_ERROR, bytes))))
    case FinishLocal(i, bytes, r) => Some(T.LocalSend((w.ends.serving[i].0, R.Reply(R.NO_ERROR, bytes)), r))
    case Serve(r) =>
      if SendsRefusal(c, w) then Some(T.LocalSend(Refusal(c.services, w.up.delivered[w.handledUp]), r)) else None
    case Down(d) => Some(d)
    case _ => None
  }

  /**
   The step of the RPC layers. A call counts as sent, and a reply as given, when its `sendInLoop`
   runs; until then its message waits in the loop's queue.
   */
  ghost function RpcStep(w: World, a: Action): Option<R.Action> {
    match a
    case Draw(call) => Some(R.Draw(call))
    case File(i) => Some(R.File(i))
    case SendRemote(_, _) => None
    case SendLocal(i, r) => Some(R.Send(i, CS.Accepts(w.up.conn, r)))
    case SendRefused(i) => Some(R.Send(i, false))
    case Up(b) =>
      if RunsSend(w.up, b) && R.Count(w.ends.filed, w.up.loop.batch[0].m.0) > 0 then
        Some(R.Send(IndexOf(w.ends.filed, w.up.loop.batch[0].m.0), CS.Accepts(w.up.conn, b.r)))
      else None
    case Serve(r) => Some(R.Serve(w.down.conn.state.Connected? && CS.Accepts(w.down.conn, r)))
    case FinishRemote(_, _, _) => None
    case FinishLocal(i, bytes, r) => Some(R.Finish(i, bytes, CS.Accepts(w.down.conn, r)))
    case FinishRefused(i, bytes) => Some(R.Finish(i, bytes, false))
    case Down(d) =>
      if RunsSend(w.down, d) && R.Count(w.ends.serving, w.down.loop.batch[0].m.0) > 0 then
        Some(R.Finish(IndexOf(w.ends.serving, w.down.loop.batch[0].m.0), w.down.loop.batch[0].m.1.response,
                      CS.Accepts(w.down.conn, d.r)))
      else None
    case Receive => Some(R.Receive)
  }

  /** What the RPC layers demand: a message is handed to `send` once, and read on an established connection. */
  ghost predicate Allowed(w: World, a: Action)
    requires InRange(w, a)
  {
    match a
    case SendRemote(_, i) => R.Count(T.Waiting(T.Work(w.up)), w.ends.filed[i].0) == 0
    case SendLocal(i, _) => R.Count(T.Waiting(T.Work(w.up)), w.ends.filed[i].0) == 0
    case SendRefused(i) => R.Count(T.Waiting(T.Work(w.up)), w.ends.filed[i].0) == 0 && !w.up.conn.state.Connected?
    case Up(b) => !b.RemoteSend? && !b.LocalSend?
    case Serve(_) => !w.down.conn.state.Connecting?
    case FinishRemote(_, i, _) => R.Count(T.Waiting(T.Work(w.down)), w.ends.serving[i].0) == 0
    case FinishLocal(i, _, _) => R.Count(T.Waiting(T.Work(w.down)), w.ends.serving[i].0) == 0
    case FinishRefused(i, _) =>
      R.Count(T.Waiting(T.Work(w.down)), w.ends.serving[i].0) == 0 && !w.down.conn.state.Connected?
    case Down(d) => !d.RemoteSend? && !d.LocalSend?
    case Receive => !w.up.conn.state.Connecting?
    case _ => true
  }

  ghost predicate Enabled(c: Setting, w: World, a: Action) {
    && InRange(w, a) && Allowed(w, a)
    && (UpStep(w, a).Some? ==> T.Enabled(c.upFormat, w.up, UpStep(w, a).value))
    && (DownStep(c, w, a).Some? ==> T.Enabled(c.downFormat, w.down, DownStep(c, w, a).value))
    && (RpcStep(w, a).Some? ==> R.Enabled(View(w), RpcStep(w, a).value))
  }

  ghost function Apply(c: Setting, w: World, a: Action): World
    requires Proper(c) && Enabled(c, w, a)
  {
    var up, down, rpc := UpStep(w, a), DownStep(c, w, a), RpcStep(w, a);
    World(
      if up.Some? then T.Apply(c.upFormat, w.up, up.value) else w.up,
      if down.Some? then T.Apply(c.downFormat, w.down, down.value) else w.down,
      w.handledUp + Unit(a.Serve?),
      w.handledDown + Unit(a.Receive?),
      if rpc.Some? then Cut(R.Apply(c.services, View(w), rpc.value)) else w.ends)
  }

  ghost function Step(c: Setting, w: World, a: Action): World
    requires Proper(c)
  {
    if Enabled(c, w, a) then Apply(c, w, a) else w
  }

  ghost function Exec(c: Setting, acts: seq<Action>): World
    requires Proper(c)
  {
    if acts == [] then World(T.Exec(c.upFormat, []), T.Exec(c.downFormat, []), 0, 0, R.Exec(c.services, c.start, []))
    else Step(c, Exec(c, acts[..|acts| - 1]), acts[|acts| - 1])
  }

  // ---- The abstraction ----------------------------------------------------------------------

  /** Accepted by the connection and not yet handled by the RPC layer at its other end. */
  ghost function InFlight<V>(s: T.Sys<V>, handled: nat): seq<V> {
    if handled <= |T.Accepted(s.log)| then T.Accepted(s.log)[handled..] else []
  }

  ghost function Abs(w: World): R.Sys {
    w.ends.(requests := InFlight(w.up, w.handledUp), responses := InFlight(w.down, w.handledDown))
  }

  /** The run of `RpcRun` behind a run of the whole. */
  ghost function Trace(c: Setting, acts: seq<Action>): seq<R.Action>
    requires Proper(c)
  {
    if acts == [] then []
    else
      var n := |acts| - 1;
      NextTrace(c, Exec(c, acts[..n]), acts[n], Trace(c, acts[..n]))
  }

  ghost function NextTrace(c: Setting, w: World, a: Action, trace: seq<R.Action>): seq<R.Action> {
    if Enabled(c, w, a) && RpcStep(w, a).Some? then trace + [RpcStep(w, a).value] else trace
  }

  // ---- One direction ---------------------------------------------------------------------------

  lemma ChannelMoves<V(!new)>(f: Format<V>, s: T.Sys<V>, b: T.Act<V>, handled: nat)
    requires Lawful(f) && T.Reached(f, s) && T.Enabled(f, s, b) && handled <= |s.delivered|
    ensures var s' := T.Apply(f, s, b);
            && T.Reached(f, s') && handled <= |s'.delivered| && InFlight(s', handled) == InFlight(s, handled) + T.Sent(s, b)
  {
    T.ReachedFacts(f, s);
    T.ReachedStep(f, s, b);
    T.AcceptedStep(f, s, b);
    T.LogGrows(f, s, b);
  }

  lemma ChannelHead<V(!new)>(f: Format<V>, s: T.Sys<V>, handled: nat)
    requires Lawful(f) && T.Reached(f, s) && handled < |s.delivered|
    ensures var q := InFlight(s, handled);
            q != [] && q[0] == s.delivered[handled] && InFlight(s, handled + 1) == q[1..]
  {
    T.ReachedFacts(f, s);
  }

  /** What waits in one end's loop is among what that end still has to send: each entry at most once. */
  ghost predicate QueuedFrom<A, B>(q: seq<(int, A)>, from: seq<(int, B)>) {
    forall id :: R.Count(q, id) <= R.Count(from, id)
  }

  lemma QueuedPush<A, B>(q: seq<(int, A)>, from: seq<(int, B)>, e: (int, A), i: nat)
    requires QueuedFrom(q, from) && i < |from| && from[i].0 == e.0 && R.Count(q, e.0) == 0
    ensures QueuedFrom(q + [e], from)
  {
    R.CountPositive(from, i);
    forall id ensures R.Count(q + [e], id) <= R.Count(from, id) { R.CountAppend(q, e, id); }
  }

  lemma QueuedPop<A, B>(e: (int, A), q: seq<(int, A)>, from: seq<(int, B)>)
    requires QueuedFrom([e] + q, from)
    ensures R.Count(from, e.0) > 0 && QueuedFrom(q, R.Without(from, IndexOf(from, e.0)))
  {
    assert ([e] + q)[1..] == q;
    R.CountTail([e] + q, e.0);
    assert R.Count([e] + q, e.0) <= R.Count(from, e.0);
    var i := IndexOf(from, e.0);
    forall id ensures R.Count(q, id) <= R.Count(R.Without(from, i), id) {
      R.CountTail([e] + q, id);
      R.CountWithout(from, i, id);
      assert R.Count([e] + q, id) <= R.Count(from, id);
    }
  }

  lemma QueuedDrop<A, B>(q: seq<(int, A)>, from: seq<(int, B)>, i: nat)
    requires QueuedFrom(q, from) && i < |from| && R.Count(q, from[i].0) == 0
    ensures QueuedFrom(q, R.Without(from, i))
  {
    forall id ensures R.Count(q, id) <= R.Count(R.Without(from, i), id) {
      R.CountWithout(from, i, id);
      assert R.Count(q, id) <= R.Count(from, id);
    }
  }

  lemma QueuedGrow<A, B>(q: seq<(int, A)>, from: seq<(int, B)>, e: (int, B))
    requires QueuedFrom(q, from)
    ensures QueuedFrom(q, from + [e])
  {
    forall id ensures R.Count(q, id) <= R.Count(from + [e], id) {
      R.CountAppend(from, e, id);
      assert R.Count(q, id) <= R.Count(from, id);
    }
  }

  // ---- The invariant -----------------------------------------------------------------------------

  ghost predicate Wired(c: Setting, w: World)
    requires Proper(c)
  {
    && T.Reached(c.upFormat, w.up) && T.Reached(c.downFormat, w.down)
    && w.handledUp <= |w.up.delivered| && w.handledDown <= |w.down.delivered|
    && w.ends == Cut(w.ends)
  }

  ghost predicate CallsQueued(w: World) {
    var q := T.Waiting(T.Work(w.up));
    QueuedFrom(q, w.ends.filed) && R.Calls(w.ends.issued, q)
  }

  ghost predicate RepliesQueued(w: World) {
    var q := T.Waiting(T.Work(w.down));
    QueuedFrom(q, w.ends.serving) && forall i :: 0 <= i < |q| ==> q[i].1.error == R.NO_ERROR
  }

  ghost predicate Linked(c: Setting, w: World)
    requires Proper(c)
  {
    Wired(c, w) && CallsQueued(w) && RepliesQueued(w)
  }

  /** What every state of `RpcRun` satisfies, as far as it is needed here. */
  ghost predicate Known(s: R.Sys) {
    R.Calls(s.issued, s.filed) && s.counter + 1 !in s.issued
  }

  // ---- The two connections during a step ------------------------------------------------------------

  lemma WiredStep(c: Setting, w: World, a: Action)
    requires Proper(c) && Enabled(c, w, a) && Wired(c, w)
    ensures Wired(c, Apply(c, w, a))
  {
    if UpStep(w, a).Some? { ChannelMoves(c.upFormat, w.up, UpStep(w, a).value, w.handledUp); }
    if DownStep(c, w, a).Some? { ChannelMoves(c.downFormat, w.down, DownStep(c, w, a).value, w.handledDown); }
  }

  /** The functor that is about to send is that of an entry still to be sent. */
  lemma RunsQueued<A(!new), B>(f: Format<(int, A)>, s: T.Sys<(int, A)>, b: T.Act<(int, A)>, from: seq<(int, B)>)
    requires Lawful(f) && T.Reached(f, s) && T.Enabled(f, s, b) && RunsSend(s, b)
    requires QueuedFrom(T.Waiting(T.Work(s)), from)
    ensures var m, q, q' := s.loop.batch[0].m, T.Waiting(T.Work(s)), T.Waiting(T.Work(T.Apply(f, s, b)));
            && q == [m] + q' && R.Count(from, m.0) > 0 && QueuedFrom(q', R.Without(from, IndexOf(from, m.0)))
  {
    T.ReachedFacts(f, s);
    T.WaitingStep(f, s, b);
    QueuedPop(s.loop.batch[0].m, T.Waiting(T.Work(T.Apply(f, s, b))), from);
  }

  /** Any step but a push or the run of a send leaves alone what waits. */
  lemma WaitingSame<V(!new)>(f: Format<V>, s: T.Sys<V>, b: T.Act<V>)
    requires Lawful(f) && T.Reached(f, s) && T.Enabled(f, s, b) && !RunsSend(s, b) && !b.RemoteSend?
    ensures T.Waiting(T.Work(T.Apply(f, s, b))) == T.Waiting(T.Work(s))
  {
    T.ReachedFacts(f, s);
    T.WaitingStep(f, s, b);
  }

  lemma WaitingPushed<V(!new)>(f: Format<V>, s: T.Sys<V>, t: EL.Tid, m: V)
    requires Lawful(f) && T.Reached(f, s) && T.Enabled(f, s, T.RemoteSend(t, m))
    ensures T.Waiting(T.Work(T.Apply(f, s, T.RemoteSend(t, m)))) == T.Waiting(T.Work(s)) + [m]
  {
    T.ReachedFacts(f, s);
    T.WaitingStep(f, s, T.RemoteSend(t, m));
  }

  // ---- What waits, kept by every step -------------------------------------------------------------------

  lemma CallsQueuedUp(c: Setting, w: World, b: T.Act<Request>)
    requires Proper(c) && Enabled(c, w, Up(b)) && Wired(c, w) && CallsQueued(w)
    ensures CallsQueued(Apply(c, w, Up(b)))
    ensures RunsSend(w.up, b) <==> RpcStep(w, Up(b)).Some?
    ensures RunsSend(w.up, b) && Known(w.ends) ==>
              w.ends.filed[IndexOf(w.ends.filed, w.up.loop.batch[0].m.0)] == w.up.loop.batch[0].m
  {
    if RunsSend(w.up, b) {
      RunsQueued(c.upFormat, w.up, b, w.ends.filed);
      CallsBehind(w.ends.issued, w.up.loop.batch[0].m, T.Waiting(T.Work(T.Apply(c.upFormat, w.up, b))));
    } else {
      WaitingSame(c.upFormat, w.up, b);
    }
  }

  lemma CallsBehind(issued: map<int, R.Call>, e: Request, q: seq<Request>)
    requires R.Calls(issued, [e] + q)
    ensures e.0 in issued && issued[e.0] == e.1 && R.Calls(issued, q)
  {
    assert ([e] + q)[0] == e;
    forall i | 0 <= i < |q| ensures q[i].0 in issued && issued[q[i].0] == q[i].1 { assert ([e] + q)[i + 1] == q[i]; }
  }

  lemma CallsQueuedRemote(c: Setting, w: World, t: EL.Tid, i: nat)
    requires Proper(c) && Enabled(c, w, SendRemote(t, i)) && Wired(c, w) && CallsQueued(w) && Known(w.ends)
    ensures CallsQueued(Apply(c, w, SendRemote(t, i)))
  {
    WaitingPushed(c.upFormat, w.up, t, w.ends.filed[i]);
    QueuedPush(T.Waiting(T.Work(w.up)), w.ends.filed, w.ends.filed[i], i);
  }

  lemma CallsQueuedLocal(c: Setting, w: World, i: nat, r: CS.WriteResult)
    requires Proper(c) && Enabled(c, w, SendLocal(i, r)) && Wired(c, w) && CallsQueued(w)
    ensures CallsQueued(Apply(c, w, SendLocal(i, r)))
  {
    WaitingSame(c.upFormat, w.up, T.LocalSend(w.ends.filed[i], r));
    QueuedDrop(T.Waiting(T.Work(w.up)), w.ends.filed, i);
  }

  /** The server's steps leave the caller's records alone ... */
  lemma ServerSide(services: R.Services, s: R.Sys, a: R.Action)
    requires R.Enabled(s, a) && (a.Serve? || a.Finish? || a.Receive?)
    ensures R.Apply(services, s, a).filed == s.filed && R.Apply(services, s, a).issued == s.issued
    ensures R.Apply(services, s, a).drawn == s.drawn
  {
  }

  /** ... and the caller's the server's. */
  lemma CallerSide(services: R.Services, s: R.Sys, a: R.Action)
    requires R.Enabled(s, a) && (a.Draw? || a.File? || a.Send? || a.Receive?)
    ensures R.Apply(services, s, a).serving == s.serving
  {
  }

  lemma CallsQueuedElse(c: Setting, w: World, a: Action)
    requires Proper(c) && Enabled(c, w, a) && CallsQueued(w)
    requires a.Serve? || a.Receive? || a.FinishRemote? || a.FinishLocal? || a.FinishRefused? || a.Down?
    ensures CallsQueued(Apply(c, w, a))
  {
    if RpcStep(w, a).Some? { ServerSide(c.services, View(w), RpcStep(w, a).value); }
  }

  lemma CallsQueuedDraw(c: Setting, w: World, call: R.Call)
    requires Proper(c) && Enabled(c, w, Draw(call)) && CallsQueued(w) && Known(w.ends)
    ensures CallsQueued(Apply(c, w, Draw(call)))
  {
  }

  lemma CallsQueuedStep(c: Setting, w: World, a: Action)
    requires Proper(c) && Enabled(c, w, a) && Wired(c, w) && CallsQueued(w) && Known(w.ends)
    ensures CallsQueued(Apply(c, w, a))
  {
    match a
    case Draw(call) => CallsQueuedDraw(c, w, call);
    case File(i) => QueuedGrow(T.Waiting(T.Work(w.up)), w.ends.filed, w.ends.drawn[i]);
    case SendRemote(t, i) => CallsQueuedRemote(c, w, t, i);
    case SendLocal(i, r) => CallsQueuedLocal(c, w, i, r);
    case SendRefused(i) => QueuedDrop(T.Waiting(T.Work(w.up)), w.ends.filed, i);
    case Up(b) => CallsQueuedUp(c, w, b);
    case _ => CallsQueuedElse(c, w, a);
  }

  lemma RepliesQueuedDown(c: Setting, w: World, d: T.Act<Response>)
    requires Proper(c) && Enabled(c, w, Down(d)) && Wired(c, w) && RepliesQueued(w)
    ensures RepliesQueued(Apply(c, w, Down(d)))
    ensures RunsSend(w.down, d) <==> RpcStep(w, Down(d)).Some?
    ensures RunsSend(w.down, d) ==> w.down.loop.batch[0].m.1.error == R.NO_ERROR
  {
    if RunsSend(w.down, d) {
      RunsQueued(c.downFormat, w.down, d, w.ends.serving);
      NoErrorsBehind(w.down.loop.batch[0].m, T.Waiting(T.Work(T.Apply(c.downFormat, w.down, d))));
    } else {
      WaitingSame(c.downFormat, w.down, d);
    }
  }

  lemma NoErrorsBehind(e: Response, q: seq<Response>)
    requires forall i :: 0 <= i < |[e] + q| ==> ([e] + q)[i].1.error == R.NO_ERROR
    ensures e.1.error == R.NO_ERROR && forall i :: 0 <= i < |q| ==> q[i].1.error == R.NO_ERROR
  {
    assert ([e] + q)[0] == e;
    forall i | 0 <= i < |q| ensures q[i].1.error == R.NO_ERROR { assert ([e] + q)[i + 1] == q[i]; }
  }

  lemma RepliesQueuedRemote(c: Setting, w: World, t: EL.Tid, i: nat, bytes: seq<Byte>)
    requires Proper(c) && Enabled(c, w, FinishRemote(t, i, bytes)) && Wired(c, w) && RepliesQueued(w)
    ensures RepliesQueued(Apply(c, w, FinishRemote(t, i, bytes)))
  {
    var e := (w.ends.serving[i].0, R.Reply(R.NO_ERROR, bytes));
    WaitingPushed(c.downFormat, w.down, t, e);
    QueuedPush(T.Waiting(T.Work(w.down)), w.ends.serving, e, i);
  }

  lemma RepliesQueuedLocal(c: Setting, w: World, i: nat, bytes: seq<Byte>, r: CS.WriteResult)
    requires Proper(c) && Enabled(c, w, FinishLocal(i, bytes, r)) && Wired(c, w) && RepliesQueued(w)
    ensures RepliesQueued(Apply(c, w, FinishLocal(i, bytes, r)))
  {
    WaitingSame(c.downFormat, w.down, DownStep(c, w, FinishLocal(i, bytes, r)).value);
    QueuedDrop(T.Waiting(T.Work(w.down)), w.ends.serving, i);
  }

  lemma RepliesQueuedServe(c: Setting, w: World, r: CS.WriteResult)
    requires Proper(c) && Enabled(c, w, Serve(r)) && Wired(c, w) && RepliesQueued(w)
    ensures RepliesQueued(Apply(c, w, Serve(r)))
  {
    var e := w.up.delivered[w.handledUp];
    QueuedGrow(T.Waiting(T.Work(w.down)), w.ends.serving, e);
    if DownStep(c, w, Serve(r)).Some? { WaitingSame(c.downFormat, w.down, DownStep(c, w, Serve(r)).value); }
  }

  lemma RepliesQueuedStep(c: Setting, w: World, a: Action)
    requires Proper(c) && Enabled(c, w, a) && Wired(c, w) && RepliesQueued(w)
    ensures RepliesQueued(Apply(c, w, a))
  {
    match a
    case Serve(r) => RepliesQueuedServe(c, w, r);
    case FinishRemote(t, i, bytes) => RepliesQueuedRemote(c, w, t, i, bytes);
    case FinishLocal(i, bytes, r) => RepliesQueuedLocal(c, w, i, bytes, r);
    case FinishRefused(i, _) => QueuedDrop(T.Waiting(T.Work(w.down)), w.ends.serving, i);
    case Down(d) => RepliesQueuedDown(c, w, d);
    case _ => RepliesQueuedElse(c, w, a);
  }

  lemma RepliesQueuedElse(c: Setting, w: World, a: Action)
    requires Proper(c) && Enabled(c, w, a) && RepliesQueued(w)
    requires a.Draw? || a.File? || a.SendRemote? || a.SendLocal? || a.SendRefused? || a.Up? || a.Receive?
    ensures RepliesQueued(Apply(c, w, a))
  {
    if RpcStep(w, a).Some? { CallerSide(c.services, View(w), RpcStep(w, a).value); }
  }

  // ---- Every step is one of RpcRun, or none -----------------------------------------------------------------

  /** The same RPC state, with as much of the queues as the step looks at. */
  ghost predicate Alike(v: R.Sys, s: R.Sys) {
    && Cut(v) == Cut(s)
    && (v.requests != [] ==> s.requests != [] && s.requests[0] == v.requests[0])
    && (v.responses != [] ==> s.responses != [] && s.responses[0] == v.responses[0])
  }

  lemma RespondAlike(v: R.Sys, s: R.Sys, e: Request, r: R.Reply, kept: bool)
    requires Cut(v) == Cut(s)
    ensures Cut(R.Respond(s, e, r, kept)) == Cut(R.Respond(v, e, r, kept))
  {
  }

  lemma ServeAlike(services: R.Services, v: R.Sys, s: R.Sys, kept: bool)
    requires Alike(v, s) && R.Enabled(v, R.Serve(kept))
    ensures Cut(R.Apply(services, s, R.Serve(kept))) == Cut(R.Apply(services, v, R.Serve(kept)))
  {
    var e := s.requests[0];
    RespondAlike(v.(requests := v.requests[1..]), s.(requests := s.requests[1..]), e,
                 R.Reply(R.RequestError(services, e.1), []), kept);
  }

  lemma ReceiveAlike(v: R.Sys, s: R.Sys)
    requires Alike(v, s) && v.responses != []
    ensures Cut(R.HandleResponse(s.(responses := s.responses[1..]), s.responses[0]))
            == Cut(R.HandleResponse(v.(responses := v.responses[1..]), v.responses[0]))
  {
  }

  lemma FinishAlike(services: R.Services, v: R.Sys, s: R.Sys, i: nat, bytes: seq<Byte>, kept: bool)
    requires Alike(v, s) && i < |s.serving|
    ensures Cut(R.Apply(services, s, R.Finish(i, bytes, kept))) == Cut(R.Apply(services, v, R.Finish(i, bytes, kept)))
  {
    RespondAlike(v.(serving := R.Without(s.serving, i)), s.(serving := R.Without(s.serving, i)), s.serving[i],
                 R.Reply(R.NO_ERROR, bytes), kept);
  }

  lemma ViewAgrees(services: R.Services, v: R.Sys, s: R.Sys, a: R.Action)
    requires Alike(v, s) && R.Enabled(v, a) && !a.Stray?
    ensures R.Enabled(s, a) && Cut(R.Apply(services, s, a)) == Cut(R.Apply(services, v, a))
  {
    match a
    case Serve(kept) => ServeAlike(services, v, s, kept);
    case Finish(i, bytes, kept) => FinishAlike(services, v, s, i, bytes, kept);
    case Receive => ReceiveAlike(v, s);
    case _ =>
  }

  lemma HeadsAgree(c: Setting, w: World)
    requires Proper(c) && Wired(c, w)
    ensures Alike(View(w), Abs(w))
  {
    if w.handledUp < |w.up.delivered| { ChannelHead(c.upFormat, w.up, w.handledUp); }
    if w.handledDown < |w.down.delivered| { ChannelHead(c.downFormat, w.down, w.handledDown); }
  }

  /** What a step of `RpcRun` does to the two queues. */
  function Requests(s: R.Sys, a: R.Action): seq<Request>
    requires R.Enabled(s, a)
  {
    match a
    case Send(i, kept) => s.requests + if kept then [s.filed[i]] else []
    case Serve(_) => s.requests[1..]
    case _ => s.requests
  }

  function Responses(services: R.Services, s: R.Sys, a: R.Action): seq<Response>
    requires R.Enabled(s, a)
  {
    match a
    case Serve(kept) =>
      s.responses + if kept && R.RequestError(services, s.requests[0].1) != R.NO_ERROR then [Refusal(services, s.requests[0])] else []
    case Finish(i, bytes, kept) =>
      s.responses + if kept then [(s.serving[i].0, R.Reply(R.NO_ERROR, bytes))] else []
    case Receive => s.responses[1..]
    case _ => s.responses
  }

  lemma QueueEffect(services: R.Services, s: R.Sys, a: R.Action)
    requires R.Enabled(s, a) && !a.Stray?
    ensures R.Apply(services, s, a).requests == Requests(s, a)
    ensures R.Apply(services, s, a).responses == Responses(services, s, a)
  {
  }

  lemma UpEffectUp(c: Setting, w: World, b: T.Act<Request>)
    requires Proper(c) && Enabled(c, w, Up(b)) && Wired(c, w) && CallsQueued(w) && Known(w.ends)
    ensures RpcStep(w, Up(b)).Some? ==> R.Enabled(Abs(w), RpcStep(w, Up(b)).value)
    ensures InFlight(Apply(c, w, Up(b)).up, w.handledUp)
            == if RpcStep(w, Up(b)).Some? then Requests(Abs(w), RpcStep(w, Up(b)).value) else InFlight(w.up, w.handledUp)
  {
    CallsQueuedUp(c, w, b);
    ChannelMoves(c.upFormat, w.up, b, w.handledUp);
  }

  lemma UpEffectLocal(c: Setting, w: World, i: nat, r: CS.WriteResult)
    requires Proper(c) && Enabled(c, w, SendLocal(i, r)) && Wired(c, w)
    ensures InFlight(Apply(c, w, SendLocal(i, r)).up, w.handledUp)
            == Requests(Abs(w), R.Send(i, CS.Accepts(w.up.conn, r)))
  {
    ChannelMoves(c.upFormat, w.up, T.LocalSend(w.ends.filed[i], r), w.handledUp);
  }

  lemma UpEffectRemote(c: Setting, w: World, t: EL.Tid, i: nat)
    requires Proper(c) && Enabled(c, w, SendRemote(t, i)) && Wired(c, w)
    ensures InFlight(Apply(c, w, SendRemote(t, i)).up, w.handledUp) == InFlight(w.up, w.handledUp)
  {
    ChannelMoves(c.upFormat, w.up, T.RemoteSend(t, w.ends.filed[i]), w.handledUp);
  }

  lemma UpEffectServe(c: Setting, w: World, r: CS.WriteResult)
    requires Proper(c) && Enabled(c, w, Serve(r)) && Wired(c, w)
    ensures Abs(w).requests != [] && InFlight(Apply(c, w, Serve(r)).up, w.handledUp + 1) == Abs(w).requests[1..]
  {
    ChannelHead(c.upFormat, w.up, w.handledUp);
  }

  /** Steps that concern the server's end alone, or no connection. */
  lemma UpEffectElse(c: Setting, w: World, a: Action)
    requires Proper(c) && Enabled(c, w, a)
    requires !a.Up? && !a.SendRemote? && !a.SendLocal? && !a.Serve?
    requires RpcStep(w, a).Some? ==> R.Enabled(Abs(w), RpcStep(w, a).value)
    ensures Apply(c, w, a).up == w.up
    ensures RpcStep(w, a).Some? ==> Requests(Abs(w), RpcStep(w, a).value) == Abs(w).requests
  {
  }

  lemma UpEffect(c: Setting, w: World, a: Action)
    requires Proper(c) && Enabled(c, w, a) && Wired(c, w) && CallsQueued(w) && Known(w.ends)
    requires RpcStep(w, a).Some? ==> R.Enabled(Abs(w), RpcStep(w, a).value)
    ensures InFlight(Apply(c, w, a).up, w.handledUp + Unit(a.Serve?))
            == if RpcStep(w, a).Some? then Requests(Abs(w), RpcStep(w, a).value) else InFlight(w.up, w.handledUp)
  {
    match a
    case Up(b) => UpEffectUp(c, w, b);
    case SendRemote(t, i) => UpEffectRemote(c, w, t, i);
    case SendLocal(i, r) => UpEffectLocal(c, w, i, r);
    case Serve(r) => UpEffectServe(c, w, r);
    case _ => UpEffectElse(c, w, a);
  }

  lemma DownEffectDown(c: Setting, w: World, d: T.Act<Response>)
    requires Proper(c) && Enabled(c, w, Down(d)) && Wired(c, w) && RepliesQueued(w)
    ensures RpcStep(w, Down(d)).Some? ==> R.Enabled(Abs(w), RpcStep(w, Down(d)).value)
    ensures InFlight(Apply(c, w, Down(d)).down, w.handledDown)
            == if RpcStep(w, Down(d)).Some? then Responses(c.services, Abs(w), RpcStep(w, Down(d)).value)
               else InFlight(w.down, w.handledDown)
  {
    RepliesQueuedDown(c, w, d);
    ChannelMoves(c.downFormat, w.down, d, w.handledDown);
  }

  lemma DownEffectLocal(c: Setting, w: World, i: nat, bytes: seq<Byte>, r: CS.WriteResult)
    requires Proper(c) && Enabled(c, w, FinishLocal(i, bytes, r)) && Wired(c, w)
    ensures InFlight(Apply(c, w, FinishLocal(i, bytes, r)).down, w.handledDown)
            == Responses(c.services, Abs(w), R.Finish(i, bytes, CS.Accepts(w.down.conn, r)))
  {
    ChannelMoves(c.downFormat, w.down, DownStep(c, w, FinishLocal(i, bytes, r)).value, w.handledDown);
  }

  lemma DownEffectRemote(c: Setting, w: World, t: EL.Tid, i: nat, bytes: seq<Byte>)
    requires Proper(c) && Enabled(c, w, FinishRemote(t, i, bytes)) && Wired(c, w)
    ensures InFlight(Apply(c, w, FinishRemote(t, i, bytes)).down, w.handledDown) == InFlight(w.down, w.handledDown)
  {
    ChannelMoves(c.downFormat, w.down, DownStep(c, w, FinishRemote(t, i, bytes)).value, w.handledDown);
  }

  lemma DownEffectServe(c: Setting, w: World, r: CS.WriteResult)
    requires Proper(c) && Enabled(c, w, Serve(r)) && Wired(c, w)
    ensures R.Enabled(Abs(w), RpcStep(w, Serve(r)).value)
    ensures InFlight(Apply(c, w, Serve(r)).down, w.handledDown)
            == Responses(c.services, Abs(w), RpcStep(w, Serve(r)).value)
  {
    ChannelHead(c.upFormat, w.up, w.handledUp);
    if SendsRefusal(c, w) { ChannelMoves(c.downFormat, w.down, DownStep(c, w, Serve(r)).value, w.handledDown); }
  }

  lemma DownEffectReceive(c: Setting, w: World)
    requires Proper(c) && Enabled(c, w, Receive) && Wired(c, w)
    ensures Abs(w).responses != [] && InFlight(Apply(c, w, Receive).down, w.handledDown + 1) == Abs(w).responses[1..]
  {
    ChannelHead(c.downFormat, w.down, w.handledDown);
  }

  /** Steps that concern the caller's end alone, or no connection. */
  lemma DownEffectElse(c: Setting, w: World, a: Action)
    requires Proper(c) && Enabled(c, w, a)
    requires !a.Down? && !a.FinishRemote? && !a.FinishLocal? && !a.Serve? && !a.Receive?
    requires RpcStep(w, a).Some? ==> R.Enabled(Abs(w), RpcStep(w, a).value)
    ensures Apply(c, w, a).down == w.down
    ensures RpcStep(w, a).Some? ==> Responses(c.services, Abs(w), RpcStep(w, a).value) == Abs(w).responses
  {
  }

  lemma DownEffect(c: Setting, w: World, a: Action)
    requires Proper(c) && Enabled(c, w, a) && Wired(c, w) && RepliesQueued(w)
    requires RpcStep(w, a).Some? ==> R.Enabled(Abs(w), RpcStep(w, a).value)
    ensures InFlight(Apply(c, w, a).down, w.handledDown + Unit(a.Receive?))
            == if RpcStep(w, a).Some? then Responses(c.services, Abs(w), RpcStep(w, a).value)
               else InFlight(w.down, w.handledDown)
  {
    match a
    case Down(d) => DownEffectDown(c, w, d);
    case FinishRemote(t, i, bytes) => DownEffectRemote(c, w, t, i, bytes);
    case FinishLocal(i, bytes, r) => DownEffectLocal(c, w, i, bytes, r);
    case Serve(r) => DownEffectServe(c, w, r);
    case Receive => DownEffectReceive(c, w);
    case _ => DownEffectElse(c, w, a);
  }

  lemma ByParts(w: World, s: R.Sys)
    requires w.ends == Cut(s)
    requires InFlight(w.up, w.handledUp) == s.requests && InFlight(w.down, w.handledDown) == s.responses
    ensures Abs(w) == s
  {
  }

  lemma EndsMove(c: Setting, w: World, a: Action, rpc: R.Action)
    requires Proper(c) && Enabled(c, w, a) && Wired(c, w) && RpcStep(w, a) == Some(rpc)
    ensures R.Enabled(Abs(w), rpc) && Apply(c, w, a).ends == Cut(R.Apply(c.services, Abs(w), rpc))
  {
    HeadsAgree(c, w);
    ViewAgrees(c.services, View(w), Abs(w), rpc);
  }

  lemma RequestsMove(c: Setting, w: World, a: Action, rpc: R.Action)
    requires Proper(c) && Enabled(c, w, a) && Linked(c, w) && Known(w.ends) && RpcStep(w, a) == Some(rpc)
    requires R.Enabled(Abs(w), rpc)
    ensures InFlight(Apply(c, w, a).up, Apply(c, w, a).handledUp) == R.Apply(c.services, Abs(w), rpc).requests
  {
    UpEffect(c, w, a);
    QueueEffect(c.services, Abs(w), rpc);
  }

  lemma ResponsesMove(c: Setting, w: World, a: Action, rpc: R.Action)
    requires Proper(c) && Enabled(c, w, a) && Linked(c, w) && RpcStep(w, a) == Some(rpc)
    requires R.Enabled(Abs(w), rpc)
    ensures InFlight(Apply(c, w, a).down, Apply(c, w, a).handledDown) == R.Apply(c.services, Abs(w), rpc).responses
  {
    DownEffect(c, w, a);
    QueueEffect(c.services, Abs(w), rpc);
  }

  lemma AbsMoves(c: Setting, w: World, a: Action, rpc: R.Action)
    requires Proper(c) && Enabled(c, w, a) && Linked(c, w) && Known(w.ends) && RpcStep(w, a) == Some(rpc)
    ensures R.Enabled(Abs(w), rpc) && Abs(Apply(c, w, a)) == R.Apply(c.services, Abs(w), rpc)
  {
    EndsMove(c, w, a, rpc);
    RequestsMove(c, w, a, rpc);
    ResponsesMove(c, w, a, rpc);
    ByParts(Apply(c, w, a), R.Apply(c.services, Abs(w), rpc));
  }

  lemma AbsStays(c: Setting, w: World, a: Action)
    requires Proper(c) && Enabled(c, w, a) && Linked(c, w) && Known(w.ends) && RpcStep(w, a).None?
    ensures Abs(Apply(c, w, a)) == Abs(w)
  {
    UpEffect(c, w, a);
    DownEffect(c, w, a);
    ByParts(Apply(c, w, a), Abs(w));
  }

  lemma LinkedStep(c: Setting, w: World, a: Action)
    requires Proper(c) && Enabled(c, w, a) && Linked(c, w) && Known(w.ends)
    ensures Linked(c, Apply(c, w, a))
  {
    WiredStep(c, w, a);
    CallsQueuedStep(c, w, a);
    RepliesQueuedStep(c, w, a);
  }

  lemma KnownRuns(services: R.Services, start: int, acts: seq<R.Action>)
    requires R.Honest(acts)
    ensures Known(R.Exec(services, start, acts))
  {
    R.Runs(services, start, acts);
    var s := R.Exec(services, start, acts);
    assert R.Placed(s, s.counter + 1);
  }

  lemma LinkedAtStart(c: Setting)
    requires Proper(c)
    ensures Linked(c, Exec(c, [])) && Abs(Exec(c, [])) == R.Exec(c.services, c.start, [])
  {
    assert T.Reached(c.upFormat, T.Exec(c.upFormat, [])) && T.Reached(c.downFormat, T.Exec(c.downFormat, []));
  }

  lemma StepRefines(c: Setting, w: World, a: Action, trace: seq<R.Action>)
    requires Proper(c) && Linked(c, w)
    requires R.Honest(trace) && Abs(w) == R.Exec(c.services, c.start, trace)
    ensures var next := NextTrace(c, w, a, trace);
            && Linked(c, Step(c, w, a))
            && R.Honest(next) && Abs(Step(c, w, a)) == R.Exec(c.services, c.start, next)
  {
    if Enabled(c, w, a) {
      KnownRuns(c.services, c.start, trace);
      KnownParts(w);
      LinkedStep(c, w, a);
      match RpcStep(w, a)
      case Some(rpc) =>
        AbsMoves(c, w, a, rpc);
        TraceStep(c, trace, rpc);
      case None => AbsStays(c, w, a);
    }
  }

  lemma KnownParts(w: World)
    requires Known(Abs(w))
    ensures Known(w.ends)
  {
  }

  lemma TraceStep(c: Setting, trace: seq<R.Action>, a: R.Action)
    ensures R.Exec(c.services, c.start, trace + [a]) == R.Step(c.services, R.Exec(c.services, c.start, trace), a)
  {
    assert (trace + [a])[..|trace|] == trace;
  }

  /**
   Refinement: whatever the threads, loops, sockets and readers of the two connections do, the
   two RPC endpoints go through a run of `RpcRun` in which nobody but the server answers.
   */
  lemma {:induction false} RefinesRpcRun(c: Setting, acts: seq<Action>)
    requires Proper(c)
    ensures Linked(c, Exec(c, acts))
    ensures R.Honest(Trace(c, acts)) && Abs(Exec(c, acts)) == R.Exec(c.services, c.start, Trace(c, acts))
  {
    if acts == [] {
      LinkedAtStart(c);
    } else {
      var n := |acts| - 1;
      RefinesRpcRun(c, acts[..n]);
      StepRefines(c, Exec(c, acts[..n]), acts[n], Trace(c, acts[..n]));
    }
  }

  // ---- What the whole promises -----------------------------------------------------------------------

  /** Everything the connection accepted has been read, fits its frame, and has been handled. */
  ghost predicate Drained<V(!new)>(f: Format<V>, s: T.Sys<V>, handled: nat)
    requires Sound(f)
  {
    s.read == |Frames(f, T.Accepted(s.log))| && AllFit(f, T.Accepted(s.log)) && handled == |s.delivered|
  }

  /** No call is on its way, on either side or between. */
  ghost predicate AtRest(c: Setting, w: World)
    requires Proper(c)
  {
    && w.ends.drawn == [] && w.ends.filed == [] && w.ends.serving == []
    && Drained(c.upFormat, w.up, w.handledUp) && Drained(c.downFormat, w.down, w.handledDown)
  }

  lemma DrainedEmpty<V(!new)>(f: Format<V>, s: T.Sys<V>, handled: nat)
    requires Lawful(f) && T.Reached(f, s) && Drained(f, s, handled)
    ensures InFlight(s, handled) == []
  {
    T.ReachedFacts(f, s);
  }

  /** When all has come to rest, each call was either completed, once, or dropped by a connection, once. */
  lemma RestAccountsForAll(c: Setting, acts: seq<Action>, id: int)
    requires Proper(c) && AtRest(c, Exec(c, acts))
    ensures var s := Exec(c, acts).ends;
            && R.Count(s.completed, id) + R.Count(s.lost, id) == Unit(id in s.issued)
            && (id in s.outstanding <==> id in s.issued && R.Count(s.completed, id) == 0)
  {
    var w := Exec(c, acts);
    RefinesRpcRun(c, acts);
    DrainedEmpty(c.upFormat, w.up, w.handledUp);
    DrainedEmpty(c.downFormat, w.down, w.handledDown);
    R.ExactlyOnePlace(c.services, c.start, Trace(c, acts), id);
    assert Abs(w) == R.Exec(c.services, c.start, Trace(c, acts));
  }

  /** No write fails for good, no call is made before its connection is up, and nobody closes or half-closes. */
  predicate Calm(a: Action) {
    match a
    case SendLocal(_, r) => !r.Fault?
    case SendRefused(_) => false
    case Up(b) => T.Calm(b)
    case Serve(r) => !r.Fault?
    case FinishLocal(_, _, r) => !r.Fault?
    case FinishRefused(_, _) => false
    case Down(d) => T.Calm(d)
    case _ => true
  }

  ghost predicate CalmSoFar(w: World) {
    T.CalmSoFar(w.up) && T.CalmSoFar(w.down) && w.ends.lost == []
  }

  /** A step that keeps what it sends loses nothing. */
  lemma NothingLost(services: R.Services, s: R.Sys, a: R.Action)
    requires R.Enabled(s, a)
    requires a.Send? || a.Serve? || a.Finish? ==> a.kept
    ensures R.Apply(services, s, a).lost == s.lost
  {
  }

  lemma CalmKeeps(w: World, a: Action)
    requires CalmSoFar(w) && Calm(a) && InRange(w, a) && Allowed(w, a) && RpcStep(w, a).Some?
    ensures var rpc := RpcStep(w, a).value; rpc.Send? || rpc.Serve? || rpc.Finish? ==> rpc.kept
  {
  }

  lemma CalmStep(c: Setting, w: World, a: Action)
    requires Proper(c) && Enabled(c, w, a) && CalmSoFar(w) && Calm(a)
    ensures CalmSoFar(Apply(c, w, a))
  {
    if UpStep(w, a).Some? { T.CalmStep(c.upFormat, w.up, UpStep(w, a).value); }
    if DownStep(c, w, a).Some? { T.CalmStep(c.downFormat, w.down, DownStep(c, w, a).value); }
    if RpcStep(w, a).Some? {
      CalmKeeps(w, a);
      NothingLost(c.services, View(w), RpcStep(w, a).value);
    }
  }

  lemma {:induction false} CalmRuns(c: Setting, acts: seq<Action>)
    requires Proper(c) && forall i :: 0 <= i < |acts| ==> Calm(acts[i])
    ensures CalmSoFar(Exec(c, acts))
  {
    if acts != [] {
      var w, a := Exec(c, acts[..|acts| - 1]), acts[|acts| - 1];
      CalmRuns(c, acts[..|acts| - 1]);
      if Enabled(c, w, a) { CalmStep(c, w, a); }
    }
  }

  /**
   What the library is for: on connections that neither fail nor close, once all has come to
   rest every call that was ever made has completed, exactly once, and none is outstanding.
   */
  lemma EveryCallCompletes(c: Setting, acts: seq<Action>, id: int)
    requires Proper(c) && AtRest(c, Exec(c, acts)) && forall i :: 0 <= i < |acts| ==> Calm(acts[i])
    ensures var s := Exec(c, acts).ends;
            R.Count(s.completed, id) == Unit(id in s.issued) && id !in s.outstanding
  {
    CalmRuns(c, acts);
    RestAccountsForAll(c, acts, id);
  }
}
