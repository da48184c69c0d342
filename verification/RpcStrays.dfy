/**
 Responses nobody owes, among the honest ones of `RpcRun`. Those received under an id that is
 not outstanding leave no trace, and repeated answers are always of that kind, because the
 channel keeps them behind the answer they repeat.
 */
module RpcStrays {
  import opened Wrappers
  import opened Endian
  import opened RpcRun

  // ---- Strays that find no call leave no trace -----------------------------------------------------

  /** Which of the responses in flight are strays. */
  ghost function Tags(services: Services, start: int, acts: seq<Action>): seq<bool> {
    if acts == [] then []
    else
      var n := |acts| - 1;
      NextTags(services, Exec(services, start, acts[..n]), acts[n], Tags(services, start, acts[..n]))
  }

  ghost function NextTags(services: Services, s: Sys, a: Action, tags: seq<bool>): seq<bool> {
    var s' := Step(services, s, a);
    if |s'.responses| > |s.responses| then tags + [a.Stray?]
    else if |s'.responses| < |s.responses| && tags != [] then tags[1..]
    else tags
  }

  ghost predicate ReceivesStray(s: Sys, a: Action, tags: seq<bool>) {
    a.Receive? && s.responses != [] && tags != [] && tags[0]
  }

  /** Whenever a stray is received, its id is not outstanding. */
  ghost predicate Harmless(services: Services, start: int, acts: seq<Action>) {
    acts != [] ==>
      var n := |acts| - 1;
      var s := Exec(services, start, acts[..n]);
      && Harmless(services, start, acts[..n])
      && (ReceivesStray(s, acts[n], Tags(services, start, acts[..n])) ==> s.responses[0].0 !in s.outstanding)
  }

  /** The run without its strays. */
  ghost function Erased(services: Services, start: int, acts: seq<Action>): seq<Action> {
    if acts == [] then []
    else
      var n := |acts| - 1;
      var s, rest := Exec(services, start, acts[..n]), Erased(services, start, acts[..n]);
      if acts[n].Stray? || ReceivesStray(s, acts[n], Tags(services, start, acts[..n])) then rest else rest + [acts[n]]
  }

  ghost function Genuine<T>(q: seq<T>, tags: seq<bool>): seq<T>
    requires |q| == |tags|
  {
    if q == [] then []
    else Genuine(q[..|q| - 1], tags[..|q| - 1]) + if tags[|q| - 1] then [] else [q[|q| - 1]]
  }

  lemma GenuineAppend<T>(q: seq<T>, tags: seq<bool>, e: T, tag: bool)
    requires |q| == |tags|
    ensures Genuine(q + [e], tags + [tag]) == Genuine(q, tags) + if tag then [] else [e]
  {
    assert (q + [e])[..|q|] == q && (tags + [tag])[..|q|] == tags;
  }

  lemma {:induction false} GenuineTail<T>(q: seq<T>, tags: seq<bool>)
    requires |q| == |tags| && q != []
    ensures Genuine(q, tags) == (if tags[0] then [] else [q[0]]) + Genuine(q[1..], tags[1..])
  {
    var n := |q| - 1;
    if n > 0 {
      GenuineTail(q[..n], tags[..n]);
      assert q[1..][..n - 1] == q[..n][1..] && tags[1..][..n - 1] == tags[..n][1..];
    }
  }

  /** `e` is `s` without the strays in flight. */
  ghost predicate WithoutStrays(s: Sys, e: Sys, tags: seq<bool>) {
    |tags| == |s.responses| && e == s.(responses := Genuine(s.responses, tags))
  }

  lemma RespondErased(s: Sys, e: Sys, tags: seq<bool>, c: (int, Call), r: Reply, kept: bool)
    requires WithoutStrays(s, e, tags)
    ensures WithoutStrays(Respond(s, c, r, kept), Respond(e, c, r, kept), if kept then tags + [false] else tags)
  {
    GenuineAppend(s.responses, tags, (c.0, r), false);
  }

  lemma StrayErased(s: Sys, e: Sys, tags: seq<bool>, x: (int, Reply))
    requires WithoutStrays(s, e, tags)
    ensures WithoutStrays(s.(responses := s.responses + [x]), e, tags + [true])
  {
    GenuineAppend(s.responses, tags, x, true);
  }

  lemma ReceiveErased(s: Sys, e: Sys, tags: seq<bool>)
    requires WithoutStrays(s, e, tags) && s.responses != []
    requires tags[0] ==> s.responses[0].0 !in s.outstanding
    ensures !tags[0] ==> e.responses != [] && e.responses[0] == s.responses[0]
    ensures var s' := HandleResponse(s.(responses := s.responses[1..]), s.responses[0]);
            if tags[0] then WithoutStrays(s', e, tags[1..])
            else WithoutStrays(s', HandleResponse(e.(responses := e.responses[1..]), e.responses[0]), tags[1..])
  {
    GenuineTail(s.responses, tags);
  }

  lemma ErasedStep(services: Services, s: Sys, a: Action, tags: seq<bool>, e: Sys)
    requires WithoutStrays(s, e, tags)
    requires ReceivesStray(s, a, tags) ==> s.responses[0].0 !in s.outstanding
    ensures WithoutStrays(Step(services, s, a),
                          if a.Stray? || ReceivesStray(s, a, tags) then e else Step(services, e, a),
                          NextTags(services, s, a, tags))
  {
    if Enabled(s, a) {
      match a
      case Stray(x) => StrayErased(s, e, tags, x);
      case Receive => ReceiveErased(s, e, tags);
      case Finish(i, bytes, kept) =>
        RespondErased(s.(serving := Without(s.serving, i)), e.(serving := Without(s.serving, i)), tags, s.serving[i],
                      Reply(NO_ERROR, bytes), kept);
      case Serve(kept) =>
        var c := s.requests[0];
        RespondErased(s.(requests := s.requests[1..]), e.(requests := s.requests[1..]), tags, c,
                      Reply(RequestError(services, c.1), []), kept);
      case _ =>
    }
  }

  /** A run whose strays find no call is, but for the strays in flight, the honest run without them. */
  lemma {:induction false} StraysErased(services: Services, start: int, acts: seq<Action>)
    requires Harmless(services, start, acts)
    ensures var s, tags := Exec(services, start, acts), Tags(services, start, acts);
            && Honest(Erased(services, start, acts))
            && |tags| == |s.responses|
            && Exec(services, start, Erased(services, start, acts)) == s.(responses := Genuine(s.responses, tags))
  {
    if acts != [] {
      var n := |acts| - 1;
      var rest := Erased(services, start, acts[..n]);
      StraysErased(services, start, acts[..n]);
      ErasedStep(services, Exec(services, start, acts[..n]), acts[n], Tags(services, start, acts[..n]),
                 Exec(services, start, rest));
      assert (rest + [acts[n]])[..|rest|] == rest;
    }
  }

  lemma {:induction false} HonestIsHarmless(services: Services, start: int, acts: seq<Action>)
    requires Honest(acts)
    ensures Harmless(services, start, acts)
    ensures forall i :: 0 <= i < |Tags(services, start, acts)| ==> !Tags(services, start, acts)[i]
  {
    if acts != [] { HonestIsHarmless(services, start, acts[..|acts| - 1]); }
  }

  /** Own replies, once each, also among strays, so long as none is received while its id is outstanding. */
  lemma OwnReplyDespiteStrays(services: Services, start: int, acts: seq<Action>, i: nat, j: nat)
    requires Harmless(services, start, acts)
    requires i < |Exec(services, start, acts).completed| && j < |Exec(services, start, acts).completed|
    ensures var s := Exec(services, start, acts);
            && Answered(services, s, s.completed[i])
            && (s.completed[i].0 == s.completed[j].0 ==> i == j)
  {
    StraysErased(services, start, acts);
    CompletedOnceWithOwnReply(services, start, Erased(services, start, acts), i, j);
  }

  // ---- Repeated answers are such strays --------------------------------------------------------------

  /** Every stray is a response under an id whose answer the server has already put on the channel. */
  ghost predicate Repeats(services: Services, start: int, acts: seq<Action>) {
    acts != [] ==>
      var n := |acts| - 1;
      var s := Exec(services, start, acts[..n]);
      && Repeats(services, start, acts[..n])
      && (acts[n].Stray? ==> acts[n].e.0 in s.served && Count(s.lost, acts[n].e.0) == 0)
  }

  /** A call that was answered is behind the server: nowhere before the answer. */
  ghost predicate AnsweredAt(s: Sys, id: int) {
    id in s.served ==>
      && id in s.issued
      && Count(s.drawn, id) == 0 && Count(s.filed, id) == 0 && Count(s.requests, id) == 0 && Count(s.serving, id) == 0
  }

  lemma RespondAnswered(s: Sys, e: (int, Call), r: Reply, kept: bool, id: int)
    requires AnsweredAt(s, id) && (e.0 == id ==> AnsweredAt(s.(served := s.served[id := (e.1, r)]), id))
    ensures AnsweredAt(Respond(s, e, r, kept), id)
  {
  }

  lemma ServeAnswered(services: Services, s: Sys, kept: bool, id: int)
    requires Enabled(s, Serve(kept)) && AnsweredAt(s, id) && Placed(s, id)
    ensures AnsweredAt(Apply(services, s, Serve(kept)), id)
  {
    var e, s' := s.requests[0], s.(requests := s.requests[1..]);
    CountTail(s.requests, id);
    if RequestError(services, e.1) == NO_ERROR {
      CountAppend(s.serving, e, id);
    } else {
      RespondAnswered(s', e, Reply(RequestError(services, e.1), []), kept, id);
    }
  }

  lemma FinishAnswered(services: Services, s: Sys, i: nat, bytes: seq<Byte>, kept: bool, id: int)
    requires Enabled(s, Finish(i, bytes, kept)) && AnsweredAt(s, id) && Placed(s, id)
    ensures AnsweredAt(Apply(services, s, Finish(i, bytes, kept)), id)
  {
    CountWithout(s.serving, i, id);
    RespondAnswered(s.(serving := Without(s.serving, i)), s.serving[i], Reply(NO_ERROR, bytes), kept, id);
  }

  lemma MoveAnswered(services: Services, s: Sys, a: Action, id: int)
    requires Enabled(s, a) && AnsweredAt(s, id) && Placed(s, id) && (a.Draw? || a.File? || a.Send?)
    ensures AnsweredAt(Apply(services, s, a), id)
  {
    match a
    case Draw(c) => CountAppend(s.drawn, (s.counter + 1, c), id);
    case File(i) =>
      CountWithout(s.drawn, i, id);
      CountAppend(s.filed, s.drawn[i], id);
    case Send(i, kept) =>
      CountWithout(s.filed, i, id);
      CountAppend(s.requests, s.filed[i], id);
  }

  lemma {:induction false} AnsweredRuns(services: Services, start: int, acts: seq<Action>, id: int)
    requires Honest(acts)
    ensures AnsweredAt(Exec(services, start, acts), id)
  {
    if acts != [] {
      var s, a := Exec(services, start, acts[..|acts| - 1]), acts[|acts| - 1];
      AnsweredRuns(services, start, acts[..|acts| - 1], id);
      Runs(services, start, acts[..|acts| - 1]);
      assert Placed(s, id);
      if Enabled(s, a) {
        match a
        case Serve(kept) => ServeAnswered(services, s, kept, id);
        case Finish(i, bytes, kept) => FinishAnswered(services, s, i, bytes, kept, id);
        case Receive =>
        case _ => MoveAnswered(services, s, a, id);
      }
    }
  }

  /** A stray in flight belongs to an answered call: completed, or with the true answer still ahead of the stray. */
  ghost predicate Covered(s: Sys, tags: seq<bool>, i: nat)
    requires |tags| == |s.responses| && i < |tags|
  {
    var id := s.responses[i].0;
    tags[i] ==> id in s.served && (id in s.outstanding ==> Count(Genuine(s.responses[..i], tags[..i]), id) > 0)
  }

  ghost predicate AllCovered(s: Sys, tags: seq<bool>) {
    |tags| == |s.responses| && forall i :: 0 <= i < |tags| ==> Covered(s, tags, i)
  }

  lemma CoveredAppend(s: Sys, s': Sys, tags: seq<bool>, x: (int, Reply), tag: bool)
    requires AllCovered(s, tags) && s'.responses == s.responses + [x]
    requires s.served.Keys <= s'.served.Keys && s'.outstanding == s.outstanding
    requires tag ==> x.0 in s'.served && (x.0 in s'.outstanding ==> Count(Genuine(s.responses, tags), x.0) > 0)
    ensures AllCovered(s', tags + [tag])
  {
    var tags' := tags + [tag];
    forall i | 0 <= i < |tags'| ensures Covered(s', tags', i) {
      if i < |tags| {
        assert Covered(s, tags, i);
        assert s'.responses[..i] == s.responses[..i] && tags'[..i] == tags[..i];
      } else {
        assert s'.responses[..i] == s.responses && tags'[..i] == tags;
      }
    }
  }

  lemma CoveredReceive(s: Sys, tags: seq<bool>)
    requires AllCovered(s, tags) && s.responses != []
    ensures tags[0] ==> s.responses[0].0 !in s.outstanding
    ensures AllCovered(HandleResponse(s.(responses := s.responses[1..]), s.responses[0]), tags[1..])
  {
    assert Covered(s, tags, 0);
    var s' := HandleResponse(s.(responses := s.responses[1..]), s.responses[0]);
    forall i | 0 <= i < |tags| - 1 ensures Covered(s', tags[1..], i) {
      assert Covered(s, tags, i + 1);
      CoveredShift(s, s', tags, i);
    }
  }

  lemma CoveredShift(s: Sys, s': Sys, tags: seq<bool>, i: nat)
    requires |tags| == |s.responses| && i + 1 < |tags| && Covered(s, tags, i + 1)
    requires s'.responses == s.responses[1..] && s'.served == s.served && s'.outstanding == s.outstanding - {s.responses[0].0}
    ensures Covered(s', tags[1..], i)
  {
    if s.responses[0].0 != s.responses[i + 1].0 {
      GenuineTailCount(s.responses[..i + 1], tags[..i + 1], s.responses[i + 1].0);
    }
    assert s.responses[..i + 1][1..] == s'.responses[..i] && tags[..i + 1][1..] == tags[1..][..i];
  }

  lemma GenuineTailCount(q: seq<(int, Reply)>, tags: seq<bool>, id: int)
    requires |q| == |tags| && q != [] && q[0].0 != id
    ensures Count(Genuine(q[1..], tags[1..]), id) == Count(Genuine(q, tags), id)
  {
    GenuineTail(q, tags);
    CountBehind(q[0], tags[0], Genuine(q[1..], tags[1..]), id);
  }

  lemma CountBehind(e: (int, Reply), gone: bool, q: seq<(int, Reply)>, id: int)
    requires e.0 != id
    ensures Count((if gone then [] else [e]) + q, id) == Count(q, id)
  {
    if gone {
      assert [] + q == q;
    } else {
      CountFront(e, q, id);
    }
  }

  lemma CountFront<T>(e: (int, T), q: seq<(int, T)>, id: int)
    ensures Count([e] + q, id) == Unit(e.0 == id) + Count(q, id)
  {
    CountTail([e] + q, id);
    assert ([e] + q)[1..] == q;
  }

  /** A step that leaves the responses alone. */
  lemma CoveredSame(s: Sys, s': Sys, tags: seq<bool>)
    requires AllCovered(s, tags) && s'.responses == s.responses && s.served.Keys <= s'.served.Keys
    requires forall id :: id in s'.outstanding && id in s.served ==> id in s.outstanding
    ensures AllCovered(s', tags)
  {
    forall i | 0 <= i < |tags| ensures Covered(s', tags, i) { assert Covered(s, tags, i); }
  }

  lemma RespondCovered(s: Sys, tags: seq<bool>, e: (int, Call), r: Reply, kept: bool)
    requires AllCovered(s, tags)
    ensures AllCovered(Respond(s, e, r, kept), if kept then tags + [false] else tags)
  {
    if kept { CoveredAppend(s, Respond(s, e, r, kept), tags, (e.0, r), false); }
    else { CoveredSame(s, Respond(s, e, r, kept), tags); }
  }

  lemma CoveredStep(services: Services, s: Sys, a: Action, tags: seq<bool>)
    requires AllCovered(s, tags)
    requires a.Stray? ==> a.e.0 in s.served && (a.e.0 in s.outstanding ==> Count(Genuine(s.responses, tags), a.e.0) > 0)
    requires a.File? && Enabled(s, a) ==> s.drawn[a.i].0 !in s.served
    ensures AllCovered(Step(services, s, a), NextTags(services, s, a, tags))
  {
    if Enabled(s, a) {
      match a
      case Stray(x) => CoveredAppend(s, Apply(services, s, a), tags, x, true);
      case Receive => CoveredReceive(s, tags);
      case Finish(i, bytes, kept) =>
        var s' := s.(serving := Without(s.serving, i));
        CoveredSame(s, s', tags);
        RespondCovered(s', tags, s.serving[i], Reply(NO_ERROR, bytes), kept);
      case Serve(kept) => ServeCovered(services, s, tags, kept);
      case _ => CoveredSame(s, Apply(services, s, a), tags);
    }
  }

  lemma ServeCovered(services: Services, s: Sys, tags: seq<bool>, kept: bool)
    requires AllCovered(s, tags) && Enabled(s, Serve(kept))
    ensures AllCovered(Apply(services, s, Serve(kept)), NextTags(services, s, Serve(kept), tags))
  {
    var e, s' := s.requests[0], s.(requests := s.requests[1..]);
    if RequestError(services, e.1) == NO_ERROR {
      CoveredSame(s, s'.(serving := s.serving + [e]), tags);
    } else {
      CoveredSame(s, s', tags);
      RespondCovered(s', tags, e, Reply(RequestError(services, e.1), []), kept);
    }
  }

  /** In the honest run that remains, an answered call that was not lost is completed or its answer is in flight. */
  lemma AnswerAhead(services: Services, start: int, acts: seq<Action>, id: int)
    requires Harmless(services, start, acts) && Count(Exec(services, start, acts).lost, id) == 0
    requires id in Exec(services, start, acts).served
    ensures var s, tags := Exec(services, start, acts), Tags(services, start, acts);
            |tags| == |s.responses| && (id in s.outstanding ==> Count(Genuine(s.responses, tags), id) > 0)
  {
    StraysErased(services, start, acts);
    var honest := Erased(services, start, acts);
    AnsweredRuns(services, start, honest, id);
    ExactlyOnePlace(services, start, honest, id);
  }

  lemma FiledUnanswered(services: Services, start: int, acts: seq<Action>, i: nat)
    requires Harmless(services, start, acts) && i < |Exec(services, start, acts).drawn|
    ensures var s := Exec(services, start, acts); s.drawn[i].0 !in s.served
  {
    StraysErased(services, start, acts);
    var s := Exec(services, start, acts);
    AnsweredRuns(services, start, Erased(services, start, acts), s.drawn[i].0);
    CountPositive(s.drawn, i);
  }

  /** Answers that repeat one the channel has taken, in any number and of any content, are harmless. */
  lemma {:induction false} RepeatsHarmless(services: Services, start: int, acts: seq<Action>)
    requires Repeats(services, start, acts)
    ensures Harmless(services, start, acts)
    ensures AllCovered(Exec(services, start, acts), Tags(services, start, acts))
  {
    if acts != [] {
      var n := |acts| - 1;
      var s, a, tags := Exec(services, start, acts[..n]), acts[n], Tags(services, start, acts[..n]);
      RepeatsHarmless(services, start, acts[..n]);
      if a.Stray? { AnswerAhead(services, start, acts[..n], a.e.0); }
      if a.File? && Enabled(s, a) { FiledUnanswered(services, start, acts[..n], a.i); }
      if a.Receive? && s.responses != [] { CoveredReceive(s, tags); }
      CoveredStep(services, s, a, tags);
    }
  }

  /** So a server may answer as often as it likes: closures see its first answer, once. */
  lemma OwnReplyDespiteRepeats(services: Services, start: int, acts: seq<Action>, i: nat, j: nat)
    requires Repeats(services, start, acts)
    requires i < |Exec(services, start, acts).completed| && j < |Exec(services, start, acts).completed|
    ensures var s := Exec(services, start, acts);
            && Answered(services, s, s.completed[i])
            && (s.completed[i].0 == s.completed[j].0 ==> i == j)
  {
    RepeatsHarmless(services, start, acts);
    OwnReplyDespiteStrays(services, start, acts, i, j);
  }
}
