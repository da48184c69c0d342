/**
 No call gets stuck. From every state of two connected RPC ends that neither failed nor were
 told to stop there is a way on, without new calls, to one at rest in which every call that was
 ever made has completed.
 */
module RpcProgress {
  import opened Wrappers
  import opened Endian
  import Framing
  import opened RpcOverTransport
  import CS = ConnectionSpec
  import EL = EventLoop
  import T = Transport
  import P = TransportProgress
  import R = RpcRun

  /** A calm step that tells neither loop to quit. */
  predicate Undisturbed(a: Action) {
    Calm(a) && (a.Up? && a.b.Loop? ==> !a.b.a.Quit?) && (a.Down? && a.d.Loop? ==> !a.d.a.Quit?)
  }

  ghost predicate Continuation(more: seq<Action>) {
    forall i :: 0 <= i < |more| ==> Undisturbed(more[i]) && !more[i].Draw?
  }

  ghost function RunOn(c: Setting, w: World, more: seq<Action>): World
    requires Proper(c)
    decreases |more|
  {
    if more == [] then w else RunOn(c, Step(c, w, more[0]), more[1..])
  }

  lemma {:induction false} RunOnJoin(c: Setting, w: World, a: seq<Action>, b: seq<Action>)
    requires Proper(c)
    ensures RunOn(c, w, a + b) == RunOn(c, RunOn(c, w, a), b)
    decreases |a|
  {
    if a == [] {
      assert a + b == b;
    } else {
      assert (a + b)[1..] == a[1..] + b;
      RunOnJoin(c, Step(c, w, a[0]), a[1..], b);
    }
  }

  lemma RunOnFirst(c: Setting, w: World, a: Action, rest: seq<Action>)
    requires Proper(c)
    ensures RunOn(c, w, [a] + rest) == RunOn(c, Step(c, w, a), rest)
  {
    assert ([a] + rest)[1..] == rest;
  }

  lemma {:induction false} ExecRunOn(c: Setting, acts: seq<Action>, more: seq<Action>)
    requires Proper(c)
    ensures Exec(c, acts + more) == RunOn(c, Exec(c, acts), more)
    decreases |more|
  {
    if more == [] {
      assert acts + more == acts;
    } else {
      var next := acts + [more[0]];
      assert next[..|acts|] == acts && acts + more == next + more[1..];
      ExecRunOn(c, next, more[1..]);
    }
  }

  /** Some continuation goes from the one to the other. */
  ghost predicate Leads(c: Setting, w: World, w': World)
    requires Proper(c)
  {
    exists more :: Continuation(more) && w' == RunOn(c, w, more)
  }

  lemma LeadsOne(c: Setting, w: World, a: Action)
    requires Proper(c) && Undisturbed(a) && !a.Draw?
    ensures Leads(c, w, Step(c, w, a))
  {
    RunOnFirst(c, w, a, []);
    assert RunOn(c, Step(c, w, a), []) == Step(c, w, a) && [a] + [] == [a];
    assert Continuation([a]);
  }

  lemma LeadsNowhere(c: Setting, w: World)
    requires Proper(c)
    ensures Leads(c, w, w)
  {
    assert RunOn(c, w, []) == w && Continuation([]);
  }

  lemma LeadsOn(c: Setting, w: World, w1: World, w2: World)
    requires Proper(c) && Leads(c, w, w1) && Leads(c, w1, w2)
    ensures Leads(c, w, w2)
  {
    var a :| Continuation(a) && w1 == RunOn(c, w, a);
    var b :| Continuation(b) && w2 == RunOn(c, w1, b);
    RunOnJoin(c, w, a, b);
    assert Continuation(a + b);
  }

  // ---- What an undisturbed run keeps ---------------------------------------------------------

  /** The RPC ends are those of some run of `RpcRun` in which nobody but the server answers. */
  ghost predicate Traced(c: Setting, w: World)
    requires Proper(c)
  {
    exists trace :: R.Honest(trace) && Abs(w) == R.Exec(c.services, c.start, trace)
  }

  ghost predicate Good(c: Setting, w: World)
    requires Proper(c)
  {
    Linked(c, w) && CalmSoFar(w) && P.Alive(w.up) && P.Alive(w.down) && Traced(c, w)
  }

  lemma AliveStep<M>(f: Framing.Format<M>, s: T.Sys<M>, b: T.Act<M>)
    requires Framing.Sound(f) && T.Enabled(f, s, b) && P.Alive(s) && T.Calm(b) && (b.Loop? ==> !b.a.Quit?)
    ensures P.Alive(T.Apply(f, s, b))
  {
    T.CalmStep(f, s, b);
  }

  lemma GoodStep(c: Setting, w: World, a: Action)
    requires Proper(c) && Good(c, w) && Undisturbed(a)
    ensures Good(c, Step(c, w, a))
  {
    TracedStep(c, w, a);
    if Enabled(c, w, a) {
      CalmStep(c, w, a);
      BothAlive(c, w, a);
    }
  }

  lemma TracedStep(c: Setting, w: World, a: Action)
    requires Proper(c) && Linked(c, w) && Traced(c, w)
    ensures Linked(c, Step(c, w, a)) && Traced(c, Step(c, w, a))
  {
    var trace :| R.Honest(trace) && Abs(w) == R.Exec(c.services, c.start, trace);
    StepRefines(c, w, a, trace);
  }

  lemma BothAlive(c: Setting, w: World, a: Action)
    requires Proper(c) && Enabled(c, w, a) && P.Alive(w.up) && P.Alive(w.down) && Undisturbed(a)
    ensures P.Alive(Apply(c, w, a).up) && P.Alive(Apply(c, w, a).down)
  {
    if UpStep(w, a).Some? { AliveStep(c.upFormat, w.up, UpStep(w, a).value); }
    if DownStep(c, w, a).Some? { AliveStep(c.downFormat, w.down, DownStep(c, w, a).value); }
  }

  lemma {:induction false} GoodRuns(c: Setting, acts: seq<Action>)
    requires Proper(c) && forall i :: 0 <= i < |acts| ==> Undisturbed(acts[i])
    ensures Good(c, Exec(c, acts))
  {
    if acts == [] {
      LinkedAtStart(c);
      assert R.Honest([]) && Abs(Exec(c, [])) == R.Exec(c.services, c.start, []);
    } else {
      GoodRuns(c, acts[..|acts| - 1]);
      GoodStep(c, Exec(c, acts[..|acts| - 1]), acts[|acts| - 1]);
    }
  }

  /** What the ends know of each other's ids. */
  lemma GoodFacts(c: Setting, w: World)
    requires Proper(c) && Good(c, w)
    ensures Known(w.ends)
    ensures R.Calls(w.ends.issued, w.ends.filed) && R.Calls(w.ends.issued, w.ends.serving)
    ensures w.handledUp < |w.up.delivered| ==> w.up.delivered[w.handledUp].0 in w.ends.issued
  {
    var trace :| R.Honest(trace) && Abs(w) == R.Exec(c.services, c.start, trace);
    KnownRuns(c.services, c.start, trace);
    KnownParts(w);
    R.Runs(c.services, c.start, trace);
    assert R.Truthful(c.services, Abs(w));
    if w.handledUp < |w.up.delivered| {
      ChannelHead(c.upFormat, w.up, w.handledUp);
      assert R.Calls(w.ends.issued, InFlight(w.up, w.handledUp));
    }
  }

  // ---- Messages that fit --------------------------------------------------------------------------

  /** The request can be sent and read, and so can a reply with nothing in it. */
  ghost predicate Suitable(c: Setting, id: int, call: R.Call) {
    && c.upFormat.sendable((id, call)) && c.upFormat.fits((id, call))
    && forall e: R.ErrorCode :: c.downFormat.sendable((id, R.Reply(e, []))) && c.downFormat.fits((id, R.Reply(e, [])))
  }

  /** Nothing too long for the decoder was accepted so far, or is yet to be sent. */
  ghost predicate Fitting(c: Setting, w: World) {
    && Framing.AllFit(c.upFormat, T.Accepted(w.up.log)) && Framing.AllFit(c.downFormat, T.Accepted(w.down.log))
    && Framing.AllFit(c.downFormat, T.Waiting(T.Work(w.down)))
    && forall id :: id in w.ends.issued ==> Suitable(c, id, w.ends.issued[id])
  }

  ghost predicate Fine(c: Setting, w: World)
    requires Proper(c)
  {
    Good(c, w) && Fitting(c, w)
  }

  lemma IssuedStays(services: R.Services, s: R.Sys, a: R.Action)
    requires R.Enabled(s, a) && !a.Draw?
    ensures R.Apply(services, s, a).issued == s.issued
  {
  }

  lemma FitMore<V(!new)>(f: Framing.Format<V>, s: T.Sys<V>, b: T.Act<V>)
    requires Framing.Lawful(f) && T.Enabled(f, s, b) && Framing.AllFit(f, T.Accepted(s.log)) && Framing.AllFit(f, T.Sent(s, b))
    ensures Framing.AllFit(f, T.Accepted(T.Apply(f, s, b).log))
  {
    T.AcceptedStep(f, s, b);
  }

  // ---- Steps of one connection, seen from the whole ----------------------------------------------------

  /** All but the caller's connection and the calls still to be sent is as before. */
  ghost predicate UpOnly(w: World, w': World) {
    && w'.down == w.down && w'.handledUp == w.handledUp && w'.handledDown == w.handledDown
    && w'.ends == w.ends.(filed := w'.ends.filed) && |w'.ends.filed| <= |w.ends.filed|
  }

  lemma UpInner(c: Setting, w: World, b: T.Act<Request>)
    requires Proper(c) && Fine(c, w) && P.Inner(b)
    ensures var w' := Step(c, w, Up(b)); Fine(c, w') && w'.up == T.Step(c.upFormat, w.up, b) && UpOnly(w, w')
  {
    GoodStep(c, w, Up(b));
    if T.Enabled(c.upFormat, w.up, b) {
      assert Enabled(c, w, Up(b));
      UpInnerEnds(c, w, b);
      UpInnerFits(c, w, b);
    }
  }

  lemma UpInnerEnds(c: Setting, w: World, b: T.Act<Request>)
    requires Proper(c) && Enabled(c, w, Up(b)) && Linked(c, w) && CalmSoFar(w) && P.Inner(b)
    ensures UpOnly(w, Apply(c, w, Up(b)))
  {
    if RpcStep(w, Up(b)).Some? { CalmKeeps(w, Up(b)); }
  }

  lemma UpInnerFits(c: Setting, w: World, b: T.Act<Request>)
    requires Proper(c) && Enabled(c, w, Up(b)) && Fine(c, w) && P.Inner(b)
    ensures Framing.AllFit(c.upFormat, T.Accepted(T.Apply(c.upFormat, w.up, b).log))
  {
    if RunsSend(w.up, b) {
      GoodFacts(c, w);
      CallsQueuedUp(c, w, b);
      var m := w.up.loop.batch[0].m;
      assert m == w.ends.filed[IndexOf(w.ends.filed, m.0)];
    }
    FitMore(c.upFormat, w.up, b);
  }

  lemma LiftUp(c: Setting, w: World, bs: seq<T.Act<Request>>) returns (w': World)
    requires Proper(c) && Fine(c, w) && P.AllInner(bs)
    ensures Leads(c, w, w') && Fine(c, w') && w'.up == P.RunFrom(c.upFormat, w.up, bs) && UpOnly(w, w')
    decreases |bs|
  {
    if bs == [] {
      LeadsNowhere(c, w);
      w' := w;
    } else {
      var w1 := Step(c, w, Up(bs[0]));
      UpInner(c, w, bs[0]);
      LeadsOne(c, w, Up(bs[0]));
      w' := LiftUp(c, w1, bs[1..]);
      LeadsOn(c, w, w1, w');
    }
  }

  /** All but the server's connection and the calls being served is as before. */
  ghost predicate DownOnly(w: World, w': World) {
    && w'.up == w.up && w'.handledUp == w.handledUp && w'.handledDown == w.handledDown
    && w'.ends == w.ends.(serving := w'.ends.serving, served := w'.ends.served)
    && |w'.ends.serving| <= |w.ends.serving|
  }

  lemma DownInner(c: Setting, w: World, d: T.Act<Response>)
    requires Proper(c) && Fine(c, w) && P.Inner(d)
    ensures var w' := Step(c, w, Down(d)); Fine(c, w') && w'.down == T.Step(c.downFormat, w.down, d) && DownOnly(w, w')
  {
    GoodStep(c, w, Down(d));
    if T.Enabled(c.downFormat, w.down, d) {
      assert Enabled(c, w, Down(d));
      DownInnerEnds(c, w, d);
      DownInnerFits(c, w, d);
    }
  }

  lemma DownInnerEnds(c: Setting, w: World, d: T.Act<Response>)
    requires Proper(c) && Enabled(c, w, Down(d)) && Linked(c, w) && CalmSoFar(w) && P.Inner(d)
    ensures DownOnly(w, Apply(c, w, Down(d)))
  {
    if RpcStep(w, Down(d)).Some? { CalmKeeps(w, Down(d)); }
  }

  lemma DownInnerFits(c: Setting, w: World, d: T.Act<Response>)
    requires Proper(c) && Enabled(c, w, Down(d)) && Fine(c, w) && P.Inner(d)
    ensures var s' := T.Apply(c.downFormat, w.down, d);
            Framing.AllFit(c.downFormat, T.Accepted(s'.log)) && Framing.AllFit(c.downFormat, T.Waiting(T.Work(s')))
  {
    RepliesFit(c.downFormat, w.down, d, w.ends.serving);
    FitMore(c.downFormat, w.down, d);
  }

  lemma RepliesFit(f: Framing.Format<Response>, s: T.Sys<Response>, d: T.Act<Response>, serving: seq<Request>)
    requires Framing.Lawful(f) && T.Reached(f, s) && T.Enabled(f, s, d) && P.Inner(d)
    requires Framing.AllFit(f, T.Waiting(T.Work(s))) && QueuedFrom(T.Waiting(T.Work(s)), serving)
    ensures Framing.AllFit(f, T.Sent(s, d)) && Framing.AllFit(f, T.Waiting(T.Work(T.Apply(f, s, d))))
  {
    if RunsSend(s, d) {
      RunsQueued(f, s, d, serving);
      FitBehind(f, s.loop.batch[0].m, T.Waiting(T.Work(T.Apply(f, s, d))));
    } else {
      WaitingSame(f, s, d);
    }
  }

  lemma FitBehind<V>(f: Framing.Format<V>, m: V, q: seq<V>)
    requires Framing.AllFit(f, [m] + q)
    ensures f.fits(m) && Framing.AllFit(f, q)
  {
    assert ([m] + q)[0] == m;
    forall i | 0 <= i < |q| ensures f.fits(q[i]) { assert ([m] + q)[i + 1] == q[i]; }
  }

  lemma LiftDown(c: Setting, w: World, ds: seq<T.Act<Response>>) returns (w': World)
    requires Proper(c) && Fine(c, w) && P.AllInner(ds)
    ensures Leads(c, w, w') && Fine(c, w') && w'.down == P.RunFrom(c.downFormat, w.down, ds) && DownOnly(w, w')
    decreases |ds|
  {
    if ds == [] {
      LeadsNowhere(c, w);
      w' := w;
    } else {
      var w1 := Step(c, w, Down(ds[0]));
      DownInner(c, w, ds[0]);
      LeadsOne(c, w, Down(ds[0]));
      w' := LiftDown(c, w1, ds[1..]);
      LeadsOn(c, w, w1, w');
    }
  }

  // ---- Steps of the RPC ends --------------------------------------------------------------------------

  lemma TakeStep(c: Setting, w: World, a: Action) returns (w': World)
    requires Proper(c) && Good(c, w) && Enabled(c, w, a) && Undisturbed(a) && !a.Draw?
    ensures w' == Apply(c, w, a) && Leads(c, w, w') && Good(c, w')
  {
    w' := Step(c, w, a);
    GoodStep(c, w, a);
    LeadsOne(c, w, a);
  }

  lemma FileOne(c: Setting, w: World) returns (w': World)
    requires Proper(c) && Fine(c, w) && w.ends.drawn != []
    ensures Leads(c, w, w') && Fine(c, w')
    ensures w'.up == w.up && w'.down == w.down && |w'.ends.drawn| < |w.ends.drawn|
  {
    assert Enabled(c, w, File(0));
    w' := TakeStep(c, w, File(0));
  }

  lemma FileAll(c: Setting, w: World) returns (w': World)
    requires Proper(c) && Fine(c, w)
    ensures Leads(c, w, w') && Fine(c, w')
    ensures w'.up == w.up && w'.down == w.down && w'.ends.drawn == []
    decreases |w.ends.drawn|
  {
    if w.ends.drawn == [] {
      LeadsNowhere(c, w);
      w' := w;
    } else {
      var w1 := FileOne(c, w);
      w' := FileAll(c, w1);
      LeadsOn(c, w, w1, w');
    }
  }

  /** The loop thread of a settled connection may send; the socket takes nothing yet. */
  lemma SettledSends<V(!new)>(f: Framing.Format<V>, s: T.Sys<V>, m: V)
    requires Framing.Lawful(f) && P.Settled(s) && f.sendable(m)
    ensures T.Waiting(T.Work(s)) == [] && T.Enabled(f, s, T.LocalSend(m, CS.WouldBlock))
    ensures T.Sent(s, T.LocalSend(m, CS.WouldBlock)) == [m]
    ensures P.Settled(T.Apply(f, s, T.LocalSend(m, CS.WouldBlock)))
  {
    T.CalmStep(f, s, T.LocalSend(m, CS.WouldBlock));
  }

  lemma SendEnabled(c: Setting, w: World)
    requires Proper(c) && Fine(c, w) && P.Settled(w.up) && w.ends.filed != []
    ensures Enabled(c, w, SendLocal(0, CS.WouldBlock))
    ensures var s' := T.Apply(c.upFormat, w.up, T.LocalSend(w.ends.filed[0], CS.WouldBlock));
            P.Settled(s') && Framing.AllFit(c.upFormat, T.Accepted(s'.log))
  {
    var m := w.ends.filed[0];
    GoodFacts(c, w);
    assert Suitable(c, m.0, w.ends.issued[m.0]);
    SettledSends(c.upFormat, w.up, m);
    FitMore(c.upFormat, w.up, T.LocalSend(m, CS.WouldBlock));
  }

  lemma SendShape(c: Setting, w: World, i: nat, r: CS.WriteResult)
    requires Proper(c) && Enabled(c, w, SendLocal(i, r))
    ensures var w' := Apply(c, w, SendLocal(i, r));
            && w'.up == T.Apply(c.upFormat, w.up, T.LocalSend(w.ends.filed[i], r)) && w'.down == w.down
            && w'.ends.drawn == w.ends.drawn && |w'.ends.filed| < |w.ends.filed| && w'.ends.issued == w.ends.issued
  {
  }

  lemma SendOne(c: Setting, w: World) returns (w': World)
    requires Proper(c) && Fine(c, w) && P.Settled(w.up) && w.ends.filed != []
    ensures Leads(c, w, w') && Fine(c, w')
    ensures P.Settled(w'.up) && w'.ends.drawn == w.ends.drawn && |w'.ends.filed| < |w.ends.filed|
  {
    SendEnabled(c, w);
    SendShape(c, w, 0, CS.WouldBlock);
    w' := TakeStep(c, w, SendLocal(0, CS.WouldBlock));
  }

  lemma SendAll(c: Setting, w: World) returns (w': World)
    requires Proper(c) && Fine(c, w) && P.Settled(w.up) && w.ends.drawn == []
    ensures Leads(c, w, w') && Fine(c, w')
    ensures P.Settled(w'.up) && w'.ends.drawn == [] && w'.ends.filed == []
    decreases |w.ends.filed|
  {
    if w.ends.filed == [] {
      LeadsNowhere(c, w);
      w' := w;
    } else {
      var w1 := SendOne(c, w);
      w' := SendAll(c, w1);
      LeadsOn(c, w, w1, w');
    }
  }

  /** Every call is filed, sent, and read by the server's end. */
  ghost predicate Asked(c: Setting, w: World)
    requires Proper(c)
  {
    && P.Settled(w.up) && w.ends.drawn == [] && w.ends.filed == []
    && w.up.read == |Framing.Frames(c.upFormat, T.Accepted(w.up.log))|
  }

  /** The server handles the next request, and a refusal can be sent. */
  lemma ServeEnabled(c: Setting, w: World)
    requires Proper(c) && Fine(c, w) && P.Settled(w.down) && w.handledUp < |w.up.delivered|
    ensures Enabled(c, w, Serve(CS.WouldBlock))
    ensures DownStep(c, w, Serve(CS.WouldBlock)).Some? ==>
              var s' := T.Apply(c.downFormat, w.down, DownStep(c, w, Serve(CS.WouldBlock)).value);
              P.Settled(s') && Framing.AllFit(c.downFormat, T.Accepted(s'.log))
  {
    var e := w.up.delivered[w.handledUp];
    var m := Refusal(c.services, e);
    GoodFacts(c, w);
    assert Suitable(c, e.0, w.ends.issued[e.0]);
    SettledSends(c.downFormat, w.down, m);
    FitMore(c.downFormat, w.down, T.LocalSend(m, CS.WouldBlock));
  }

  lemma ServeShape(c: Setting, w: World, r: CS.WriteResult)
    requires Proper(c) && Enabled(c, w, Serve(r))
    ensures var w', d := Apply(c, w, Serve(r)), DownStep(c, w, Serve(r));
            && w'.down == (if d.Some? then T.Apply(c.downFormat, w.down, d.value) else w.down)
            && w'.up == w.up && w'.handledUp == w.handledUp + 1
  {
  }

  /** The server's steps leave the caller's records alone. */
  lemma CallerStays(c: Setting, w: World, a: Action)
    requires Proper(c) && Enabled(c, w, a) && (a.Serve? || a.FinishLocal?)
    ensures var e := Apply(c, w, a).ends; e.drawn == w.ends.drawn && e.filed == w.ends.filed && e.issued == w.ends.issued
  {
    ServerSide(c.services, View(w), RpcStep(w, a).value);
  }

  lemma ServeOne(c: Setting, w: World) returns (w': World)
    requires Proper(c) && Fine(c, w) && Asked(c, w) && P.Settled(w.down) && w.handledUp < |w.up.delivered|
    ensures Leads(c, w, w') && Fine(c, w')
    ensures Asked(c, w') && P.Settled(w'.down) && w'.up == w.up && w'.handledUp == w.handledUp + 1
  {
    ServeEnabled(c, w);
    ServeShape(c, w, CS.WouldBlock);
    CallerStays(c, w, Serve(CS.WouldBlock));
    w' := TakeStep(c, w, Serve(CS.WouldBlock));
  }

  lemma ServeAll(c: Setting, w: World) returns (w': World)
    requires Proper(c) && Fine(c, w) && Asked(c, w) && P.Settled(w.down)
    ensures Leads(c, w, w') && Fine(c, w')
    ensures Asked(c, w') && P.Settled(w'.down) && w'.handledUp == |w'.up.delivered|
    decreases |w.up.delivered| - w.handledUp
  {
    if w.handledUp == |w.up.delivered| {
      LeadsNowhere(c, w);
      w' := w;
    } else {
      var w1 := ServeOne(c, w);
      w' := ServeAll(c, w1);
      LeadsOn(c, w, w1, w');
    }
  }

  /** Every request has been handled. */
  ghost predicate Heard(c: Setting, w: World)
    requires Proper(c)
  {
    Asked(c, w) && w.handledUp == |w.up.delivered|
  }

  /** A service answers with nothing, in the loop thread. */
  lemma FinishEnabled(c: Setting, w: World)
    requires Proper(c) && Fine(c, w) && P.Settled(w.down) && w.ends.serving != []
    ensures Enabled(c, w, FinishLocal(0, [], CS.WouldBlock))
    ensures var s' := T.Apply(c.downFormat, w.down, DownStep(c, w, FinishLocal(0, [], CS.WouldBlock)).value);
            P.Settled(s') && Framing.AllFit(c.downFormat, T.Accepted(s'.log))
  {
    var id := w.ends.serving[0].0;
    var m := (id, R.Reply(R.NO_ERROR, []));
    GoodFacts(c, w);
    assert Suitable(c, id, w.ends.issued[id]);
    SettledSends(c.downFormat, w.down, m);
    FitMore(c.downFormat, w.down, T.LocalSend(m, CS.WouldBlock));
  }

  lemma FinishShape(c: Setting, w: World, i: nat, bytes: seq<Byte>, r: CS.WriteResult)
    requires Proper(c) && Enabled(c, w, FinishLocal(i, bytes, r))
    ensures var w' := Apply(c, w, FinishLocal(i, bytes, r));
            && w'.down == T.Apply(c.downFormat, w.down, DownStep(c, w, FinishLocal(i, bytes, r)).value)
            && w'.up == w.up && w'.handledUp == w.handledUp && |w'.ends.serving| < |w.ends.serving|
  {
  }

  lemma FinishOne(c: Setting, w: World) returns (w': World)
    requires Proper(c) && Fine(c, w) && Heard(c, w) && P.Settled(w.down) && w.ends.serving != []
    ensures Leads(c, w, w') && Fine(c, w')
    ensures Heard(c, w') && P.Settled(w'.down) && |w'.ends.serving| < |w.ends.serving|
  {
    FinishEnabled(c, w);
    FinishShape(c, w, 0, [], CS.WouldBlock);
    CallerStays(c, w, FinishLocal(0, [], CS.WouldBlock));
    w' := TakeStep(c, w, FinishLocal(0, [], CS.WouldBlock));
  }

  lemma FinishAll(c: Setting, w: World) returns (w': World)
    requires Proper(c) && Fine(c, w) && Heard(c, w) && P.Settled(w.down)
    ensures Leads(c, w, w') && Fine(c, w')
    ensures Heard(c, w') && P.Settled(w'.down) && w'.ends.serving == []
    decreases |w.ends.serving|
  {
    if w.ends.serving == [] {
      LeadsNowhere(c, w);
      w' := w;
    } else {
      var w1 := FinishOne(c, w);
      w' := FinishAll(c, w1);
      LeadsOn(c, w, w1, w');
    }
  }

  /** Every request is answered and the answers have been read by the caller's end. */
  ghost predicate Answered(c: Setting, w: World)
    requires Proper(c)
  {
    && Heard(c, w) && w.ends.serving == []
    && w.down.read == |Framing.Frames(c.downFormat, T.Accepted(w.down.log))|
  }

  lemma ReceiveMoves(c: Setting, w: World)
    requires Proper(c) && P.Settled(w.up) && w.handledDown < |w.down.delivered|
    ensures Enabled(c, w, Receive)
    ensures var w' := Apply(c, w, Receive);
            && w'.up == w.up && w'.down == w.down && w'.handledUp == w.handledUp && w'.handledDown == w.handledDown + 1
            && w'.ends.drawn == w.ends.drawn && w'.ends.filed == w.ends.filed && w'.ends.serving == w.ends.serving
            && w'.ends.issued == w.ends.issued
  {
  }

  lemma ReceiveOne(c: Setting, w: World) returns (w': World)
    requires Proper(c) && Fine(c, w) && Answered(c, w) && w.handledDown < |w.down.delivered|
    ensures Leads(c, w, w') && Fine(c, w')
    ensures Answered(c, w') && w'.down == w.down && w'.handledDown == w.handledDown + 1
  {
    ReceiveMoves(c, w);
    w' := TakeStep(c, w, Receive);
  }

  lemma ReceiveAll(c: Setting, w: World) returns (w': World)
    requires Proper(c) && Fine(c, w) && Answered(c, w)
    ensures Leads(c, w, w') && Fine(c, w')
    ensures Answered(c, w') && w'.handledDown == |w'.down.delivered|
    decreases |w.down.delivered| - w.handledDown
  {
    if w.handledDown == |w.down.delivered| {
      LeadsNowhere(c, w);
      w' := w;
    } else {
      var w1 := ReceiveOne(c, w);
      w' := ReceiveAll(c, w1);
      LeadsOn(c, w, w1, w');
    }
  }

  // ---- All together ----------------------------------------------------------------------------------

  lemma SettleUp(c: Setting, w: World) returns (w': World)
    requires Proper(c) && Fine(c, w)
    ensures Leads(c, w, w') && Fine(c, w') && P.Settled(w'.up)
  {
    var bs := P.Settle(c.upFormat, w.up);
    w' := LiftUp(c, w, bs);
  }

  lemma DrainUp(c: Setting, w: World) returns (w': World)
    requires Proper(c) && Fine(c, w) && P.Settled(w.up) && w.ends.drawn == [] && w.ends.filed == []
    ensures Leads(c, w, w') && Fine(c, w') && Asked(c, w')
  {
    var bs := P.Drain(c.upFormat, w.up);
    w' := LiftUp(c, w, bs);
  }

  lemma Ask(c: Setting, w: World) returns (w': World)
    requires Proper(c) && Fine(c, w)
    ensures Leads(c, w, w') && Fine(c, w') && Asked(c, w')
  {
    var w1 := SettleUp(c, w);
    var w2 := FileAll(c, w1);
    LeadsOn(c, w, w1, w2);
    var w3 := SendAll(c, w2);
    LeadsOn(c, w, w2, w3);
    w' := DrainUp(c, w3);
    LeadsOn(c, w, w3, w');
  }

  lemma SettleDown(c: Setting, w: World) returns (w': World)
    requires Proper(c) && Fine(c, w) && Asked(c, w)
    ensures Leads(c, w, w') && Fine(c, w') && Asked(c, w') && P.Settled(w'.down)
  {
    var ds := P.Settle(c.downFormat, w.down);
    w' := LiftDown(c, w, ds);
  }

  lemma DrainDown(c: Setting, w: World) returns (w': World)
    requires Proper(c) && Fine(c, w) && Heard(c, w) && P.Settled(w.down) && w.ends.serving == []
    ensures Leads(c, w, w') && Fine(c, w') && Answered(c, w')
  {
    var ds := P.Drain(c.downFormat, w.down);
    w' := LiftDown(c, w, ds);
  }

  lemma Answer(c: Setting, w: World) returns (w': World)
    requires Proper(c) && Fine(c, w) && Asked(c, w)
    ensures Leads(c, w, w') && Fine(c, w') && Answered(c, w')
  {
    var w1 := SettleDown(c, w);
    var w2 := ServeAll(c, w1);
    LeadsOn(c, w, w1, w2);
    var w3 := FinishAll(c, w2);
    LeadsOn(c, w, w2, w3);
    w' := DrainDown(c, w3);
    LeadsOn(c, w, w3, w');
  }

  lemma ComeToRest(c: Setting, w: World) returns (w': World)
    requires Proper(c) && Fine(c, w)
    ensures Leads(c, w, w') && AtRest(c, w')
  {
    var w1 := Ask(c, w);
    var w2 := Answer(c, w1);
    LeadsOn(c, w, w1, w2);
    w' := ReceiveAll(c, w2);
    LeadsOn(c, w, w2, w');
  }

  lemma {:induction false} SameCalls(c: Setting, w: World, more: seq<Action>)
    requires Proper(c) && Continuation(more)
    ensures RunOn(c, w, more).ends.issued == w.ends.issued
    decreases |more|
  {
    if more != [] {
      var a := more[0];
      if Enabled(c, w, a) && RpcStep(w, a).Some? { IssuedStays(c.services, View(w), RpcStep(w, a).value); }
      SameCalls(c, Step(c, w, a), more[1..]);
    }
  }

  /**
   From every state of a run in which nothing failed or closed and no loop was told to quit, and
   whose messages fit, there is a way on, without new calls and of the same kind, to rest. There
   every call that was ever made has completed, exactly once.
   */
  lemma EveryCallCanComplete(c: Setting, acts: seq<Action>) returns (more: seq<Action>)
    requires Proper(c) && (forall i :: 0 <= i < |acts| ==> Undisturbed(acts[i])) && Fitting(c, Exec(c, acts))
    ensures Continuation(more) && AtRest(c, Exec(c, acts + more))
    ensures Exec(c, acts + more).ends.issued == Exec(c, acts).ends.issued
    ensures forall id :: R.Count(Exec(c, acts + more).ends.completed, id) == Unit(id in Exec(c, acts).ends.issued)
  {
    var w := Exec(c, acts);
    GoodRuns(c, acts);
    var w' := ComeToRest(c, w);
    more :| Continuation(more) && w' == RunOn(c, w, more);
    ExecRunOn(c, acts, more);
    SameCalls(c, w, more);
    forall id ensures R.Count(Exec(c, acts + more).ends.completed, id) == Unit(id in w.ends.issued) {
      EveryCallCompletes(c, acts + more, id);
    }
  }
}
