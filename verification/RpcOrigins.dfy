/**
 Where the replies that closures see over two real connections come from, told from the list
 of actions: the call as it was drawn, and the bytes with which its service ended.
 */
module RpcOrigins {
  import opened Wrappers
  import opened Endian
  import Framing
  import opened RpcOverTransport
  import CS = ConnectionSpec
  import T = Transport
  import R = RpcRun

  ghost predicate Happens(c: Setting, acts: seq<Action>, k: nat)
    requires Proper(c)
  {
    k < |acts| && Enabled(c, Exec(c, acts[..k]), acts[k])
  }

  /** The service ended with the bytes of `m`, in its own thread or in the loop's, while it served that call. */
  ghost predicate FinishedAt(c: Setting, acts: seq<Action>, k: nat, m: Response)
    requires Proper(c)
  {
    && Happens(c, acts, k)
    && var serving := Exec(c, acts[..k]).ends.serving;
       match acts[k]
       case FinishRemote(_, i, bytes) => serving[i].0 == m.0 && bytes == m.1.response
       case FinishLocal(i, bytes, _) => serving[i].0 == m.0 && bytes == m.1.response
       case _ => false
  }

  /** An answer without an error is one with which a service ended. */
  ghost predicate Genuine(c: Setting, acts: seq<Action>, m: Response)
    requires Proper(c)
  {
    m.1.error == R.NO_ERROR ==> exists k :: 0 <= k < |acts| && FinishedAt(c, acts, k, m)
  }

  lemma GenuineBefore(c: Setting, acts: seq<Action>, m: Response)
    requires Proper(c) && acts != [] && Genuine(c, acts[..|acts| - 1], m)
    ensures Genuine(c, acts, m)
  {
    var n := |acts| - 1;
    if m.1.error == R.NO_ERROR {
      var k :| 0 <= k < n && FinishedAt(c, acts[..n], k, m);
      assert acts[..n][..k] == acts[..k];
      assert FinishedAt(c, acts, k, m);
    }
  }

  /** The messages that wait in the server's loop, that its connection accepted, or that closures saw. */
  ghost predicate About(w: World, m: Response) {
    m in T.Waiting(T.Work(w.down)) || m in T.Accepted(w.down.log) || m in w.ends.completed
  }

  /** The step is a service ending with the bytes of `m`. */
  ghost predicate Ends(w: World, a: Action, m: Response)
    requires InRange(w, a)
  {
    match a
    case FinishRemote(_, i, bytes) => w.ends.serving[i].0 == m.0 && bytes == m.1.response
    case FinishLocal(i, bytes, _) => w.ends.serving[i].0 == m.0 && bytes == m.1.response
    case _ => false
  }

  lemma DownFacts(c: Setting, w: World, d: T.Act<Response>)
    requires Proper(c) && Linked(c, w) && T.Enabled(c.downFormat, w.down, d)
    ensures var s' := T.Apply(c.downFormat, w.down, d);
            && (forall m :: m in T.Waiting(T.Work(s')) ==>
                  m in T.Waiting(T.Work(w.down)) || (d.RemoteSend? && m == d.m))
            && (forall m :: m in T.Accepted(s'.log) ==>
                  m in T.Accepted(w.down.log) || m in T.Waiting(T.Work(w.down)) || (d.LocalSend? && m == d.m))
  {
    T.ReachedFacts(c.downFormat, w.down);
    T.WaitingStep(c.downFormat, w.down, d);
    T.AcceptedStep(c.downFormat, w.down, d);
  }

  /** A message the server's connection has after the step it had before, or the step is where it comes from. */
  lemma DownFrom(c: Setting, w: World, a: Action, m: Response)
    requires Proper(c) && Enabled(c, w, a) && Linked(c, w)
    requires var w' := Apply(c, w, a); m in T.Waiting(T.Work(w'.down)) || m in T.Accepted(w'.down.log)
    ensures About(w, m) || Ends(w, a, m) || m.1.error != R.NO_ERROR
  {
    if DownStep(c, w, a).Some? {
      DownFacts(c, w, DownStep(c, w, a).value);
    }
  }

  /** A closure sees what the connection has delivered. */
  lemma CompletedFrom(c: Setting, w: World, a: Action, m: Response)
    requires Proper(c) && Enabled(c, w, a) && Linked(c, w) && m in Apply(c, w, a).ends.completed
    ensures About(w, m)
  {
    if a.Receive? {
      T.ReachedFacts(c.downFormat, w.down);
      assert w.handledDown < |w.down.delivered|;
      assert w.down.delivered[w.handledDown] == T.Accepted(w.down.log)[w.handledDown];
    } else if RpcStep(w, a).Some? {
      CompletedStays(c.services, View(w), RpcStep(w, a).value);
    }
  }

  lemma CompletedStays(services: R.Services, s: R.Sys, a: R.Action)
    requires R.Enabled(s, a) && !a.Receive?
    ensures R.Apply(services, s, a).completed == s.completed
  {
  }

  lemma {:induction false} RepliesAreGenuine(c: Setting, acts: seq<Action>, m: Response)
    requires Proper(c) && About(Exec(c, acts), m)
    ensures Genuine(c, acts, m)
  {
    if acts != [] {
      var n := |acts| - 1;
      var w, a := Exec(c, acts[..n]), acts[n];
      RefinesRpcRun(c, acts[..n]);
      if Enabled(c, w, a) {
        if m in Exec(c, acts).ends.completed { CompletedFrom(c, w, a, m); } else { DownFrom(c, w, a, m); }
      }
      if About(w, m) {
        RepliesAreGenuine(c, acts[..n], m);
        GenuineBefore(c, acts, m);
      } else if m.1.error == R.NO_ERROR {
        assert FinishedAt(c, acts, n, m);
      }
    }
  }

  /** The call was drawn under that id by the action at `k`. */
  ghost predicate DrawnAt(c: Setting, acts: seq<Action>, k: nat, id: int, call: R.Call)
    requires Proper(c)
  {
    Happens(c, acts, k) && acts[k] == Draw(call) && Exec(c, acts[..k]).ends.counter + 1 == id
  }

  lemma IssuedStep(services: R.Services, s: R.Sys, a: R.Action, id: int)
    requires R.Enabled(s, a) && id in R.Apply(services, s, a).issued
    ensures var call := R.Apply(services, s, a).issued[id];
            (id in s.issued && s.issued[id] == call) || (a == R.Draw(call) && s.counter + 1 == id)
  {
  }

  lemma {:induction false} IssuedIsDrawn(c: Setting, acts: seq<Action>, id: int) returns (k: nat)
    requires Proper(c) && id in Exec(c, acts).ends.issued
    ensures DrawnAt(c, acts, k, id, Exec(c, acts).ends.issued[id])
  {
    var n := |acts| - 1;
    var w, a := Exec(c, acts[..n]), acts[n];
    if Enabled(c, w, a) && RpcStep(w, a).Some? { IssuedStep(c.services, View(w), RpcStep(w, a).value, id); }
    if id in w.ends.issued && w.ends.issued[id] == Exec(c, acts).ends.issued[id] {
      k := IssuedIsDrawn(c, acts[..n], id);
      assert acts[..n][..k] == acts[..k];
    } else {
      k := n;
    }
  }

  /** In every run a service is given the call that was drawn under its id. */
  lemma ServicesGetTheDrawnCall(c: Setting, acts: seq<Action>, i: nat) returns (k: nat)
    requires Proper(c) && i < |Exec(c, acts).ends.serving|
    ensures DrawnAt(c, acts, k, Exec(c, acts).ends.serving[i].0, Exec(c, acts).ends.serving[i].1)
  {
    RefinesRpcRun(c, acts);
    R.Runs(c.services, c.start, Trace(c, acts));
    var e := Exec(c, acts).ends.serving[i];
    assert Abs(Exec(c, acts)).serving[i] == e;
    assert R.Truthful(c.services, Abs(Exec(c, acts)));
    k := IssuedIsDrawn(c, acts, e.0);
  }

  /**
   In every run over real connections a closure runs at most once, for a call that was drawn, and
   what it sees is the bytes with which that call's service ended, or the refusal the call deserves.
   */
  lemma OwnReplyOverTransport(c: Setting, acts: seq<Action>, i: nat, j: nat)
    requires Proper(c) && i < |Exec(c, acts).ends.completed| && j < |Exec(c, acts).ends.completed|
    ensures var s := Exec(c, acts).ends; var e := s.completed[i];
            && R.Answered(c.services, s, e)
            && (e.0 == s.completed[j].0 ==> i == j)
            && (exists k, call :: DrawnAt(c, acts, k, e.0, call) && R.RequestError(c.services, call) == e.1.error)
            && (e.1.error == R.NO_ERROR ==> exists k :: 0 <= k < |acts| && FinishedAt(c, acts, k, e))
            && (e.1.error != R.NO_ERROR ==> e.1.response == [])
  {
    var s := Exec(c, acts).ends;
    RefinesRpcRun(c, acts);
    assert s.completed == Abs(Exec(c, acts)).completed;
    R.CompletedOnceWithOwnReply(c.services, c.start, Trace(c, acts), i, j);
    RepliesAreGenuine(c, acts, s.completed[i]);
    var k := IssuedIsDrawn(c, acts, s.completed[i].0);
  }

  // ---- What each step of the two ends brings about --------------------------------------------------

  /** The two connections and how much of them was handled are as before. */
  ghost predicate Still(w: World, w': World) {
    w'.up == w.up && w'.down == w.down && w'.handledUp == w.handledUp && w'.handledDown == w.handledDown
  }

  ghost predicate CallShows(w: World, w': World, a: Action)
    requires InRange(w, a)
  {
    var e, e' := w.ends, w'.ends;
    match a
    case Draw(call) => Still(w, w') && e'.counter == e.counter + 1 && e'.drawn == e.drawn + [(e'.counter, call)]
    case File(i) =>
      Still(w, w') && i < |e.drawn| && e'.drawn == R.Without(e.drawn, i) && e'.filed == e.filed + [e.drawn[i]]
      && e'.outstanding == e.outstanding + {e.drawn[i].0}
    case SendRemote(_, i) =>
      T.Waiting(T.Work(w'.up)) == T.Waiting(T.Work(w.up)) + [e.filed[i]] && w'.down == w.down && e' == e
    case SendLocal(i, r) =>
      && T.Accepted(w'.up.log) == T.Accepted(w.up.log) + (if CS.Accepts(w.up.conn, r) then [e.filed[i]] else [])
      && w'.down == w.down && e'.filed == R.Without(e.filed, i)
      && e'.lost == e.lost + (if CS.Accepts(w.up.conn, r) then [] else [(e.filed[i].0, false)])
    case SendRefused(i) =>
      Still(w, w') && e'.filed == R.Without(e.filed, i) && e'.lost == e.lost + [(e.filed[i].0, false)]
    case _ => true
  }

  ghost predicate ReplyShows(c: Setting, w: World, w': World, a: Action)
    requires InRange(w, a)
  {
    var e, e' := w.ends, w'.ends;
    match a
    case FinishRemote(_, i, bytes) =>
      && T.Waiting(T.Work(w'.down)) == T.Waiting(T.Work(w.down)) + [(e.serving[i].0, R.Reply(R.NO_ERROR, bytes))]
      && w'.up == w.up && e' == e
    case FinishLocal(i, bytes, r) =>
      && T.Accepted(w'.down.log) == T.Accepted(w.down.log)
                                    + (if CS.Accepts(w.down.conn, r) then [(e.serving[i].0, R.Reply(R.NO_ERROR, bytes))] else [])
      && w'.up == w.up && e'.serving == R.Without(e.serving, i)
      && e'.lost == e.lost + (if CS.Accepts(w.down.conn, r) then [] else [(e.serving[i].0, true)])
    case FinishRefused(i, _) =>
      Still(w, w') && e'.serving == R.Without(e.serving, i) && e'.lost == e.lost + [(e.serving[i].0, true)]
    case Receive =>
      && w.handledDown < |w.down.delivered| && w'.handledDown == w.handledDown + 1 && w'.down == w.down && w'.up == w.up
      && var m := w.down.delivered[w.handledDown];
         && m.0 !in e'.outstanding
         && e'.completed == e.completed + if m.0 in e.outstanding then [m] else []
    case _ => true
  }

  /** The server handles the next request that was delivered: it serves it, or refuses it with the error it deserves. */
  ghost predicate ServeShows(c: Setting, w: World, w': World, r: CS.WriteResult) {
    && w.handledUp < |w.up.delivered| && w'.handledUp == w.handledUp + 1 && w'.up == w.up
    && var m := w.up.delivered[w.handledUp]; var error := R.RequestError(c.services, m.1);
       if error == R.NO_ERROR then w'.ends.serving == w.ends.serving + [m] && w'.down == w.down
       else
         && w'.ends.serving == w.ends.serving
         && (if w.down.conn.state.Connected? && CS.Accepts(w.down.conn, r) then
               T.Accepted(w'.down.log) == T.Accepted(w.down.log) + [(m.0, R.Reply(error, []))] && w'.ends.lost == w.ends.lost
             else T.Accepted(w'.down.log) == T.Accepted(w.down.log) && w'.ends.lost == w.ends.lost + [(m.0, true)])
  }

  lemma CallStepShows(c: Setting, w: World, a: Action)
    requires Proper(c) && Enabled(c, w, a) && Linked(c, w)
    ensures CallShows(w, Apply(c, w, a), a)
  {
    match a
    case SendRemote(t, i) => WaitingPushed(c.upFormat, w.up, t, w.ends.filed[i]);
    case SendLocal(i, r) => LocalShows(c, w, i, r);
    case _ =>
  }

  lemma LocalShows(c: Setting, w: World, i: nat, r: CS.WriteResult)
    requires Proper(c) && Enabled(c, w, SendLocal(i, r))
    ensures CallShows(w, Apply(c, w, SendLocal(i, r)), SendLocal(i, r))
  {
    T.AcceptedStep(c.upFormat, w.up, T.LocalSend(w.ends.filed[i], r));
  }

  lemma ReplyStepShows(c: Setting, w: World, a: Action)
    requires Proper(c) && Enabled(c, w, a) && Linked(c, w)
    ensures ReplyShows(c, w, Apply(c, w, a), a)
  {
    match a
    case FinishRemote(t, i, bytes) => WaitingPushed(c.downFormat, w.down, t, DownStep(c, w, a).value.m);
    case FinishLocal(i, bytes, r) => AnswerShows(c, w, i, bytes, r);
    case _ =>
  }

  lemma AnswerShows(c: Setting, w: World, i: nat, bytes: seq<Byte>, r: CS.WriteResult)
    requires Proper(c) && Enabled(c, w, FinishLocal(i, bytes, r))
    ensures ReplyShows(c, w, Apply(c, w, FinishLocal(i, bytes, r)), FinishLocal(i, bytes, r))
  {
    T.AcceptedStep(c.downFormat, w.down, DownStep(c, w, FinishLocal(i, bytes, r)).value);
  }

  lemma ServeStepShows(c: Setting, w: World, r: CS.WriteResult)
    requires Proper(c) && Enabled(c, w, Serve(r))
    ensures ServeShows(c, w, Apply(c, w, Serve(r)), r)
  {
    if SendsRefusal(c, w) { T.AcceptedStep(c.downFormat, w.down, DownStep(c, w, Serve(r)).value); }
  }

  /** In every run each step of the two ends shows its effect on their records and connections. */
  lemma StepShows(c: Setting, acts: seq<Action>, a: Action)
    requires Proper(c) && Enabled(c, Exec(c, acts), a)
    ensures var w, w' := Exec(c, acts), Exec(c, acts + [a]);
            CallShows(w, w', a) && ReplyShows(c, w, w', a) && (a.Serve? ==> ServeShows(c, w, w', a.r))
  {
    var w := Exec(c, acts);
    RefinesRpcRun(c, acts);
    assert (acts + [a])[..|acts|] == acts;
    CallStepShows(c, w, a);
    ReplyStepShows(c, w, a);
    if a.Serve? { ServeStepShows(c, w, a.r); }
  }
}
