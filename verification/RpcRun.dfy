/**
 Two RPC endpoints joined by the ordered message channel. Caller threads draw an id, file the
 call and send it; the server answers calls in whatever order its services finish. Every call
 is at each moment in exactly one place, and completes at most once, with its own reply.
 */
module RpcRun {
  import opened Wrappers
  import opened Endian

  const INT64_MAX := 0x7fff_ffff_ffff_ffff

  datatype ErrorCode = NO_ERROR | WRONG_PROTO | NO_SERVICE | NO_METHOD | INVALID_REQUEST | INVALID_RESPONSE | TIMEOUT

  datatype Call = Call(service: string, name: string, request: seq<Byte>)
  datatype Reply = Reply(error: ErrorCode, response: seq<Byte>)

  /** For each method of each service, which request bytes parse; none if no map was set. */
  type Services = Option<map<string, map<string, seq<Byte> -> bool>>>

  /** The branch tree of `handle_request_msg`. */
  function RequestError(services: Services, c: Call): (e: ErrorCode)
    ensures e in {NO_ERROR, NO_SERVICE, NO_METHOD, INVALID_REQUEST}
    ensures e != NO_SERVICE <==> services.Some? && c.service in services.value
    ensures e == NO_METHOD ==> c.name !in services.value[c.service]
    ensures e == INVALID_REQUEST ==>
              c.name in services.value[c.service] && !services.value[c.service][c.name](c.request)
    ensures e == NO_ERROR <==>
              && services.Some? && c.service in services.value
              && c.name in services.value[c.service] && services.value[c.service][c.name](c.request)
  {
    if services.None? || c.service !in services.value then NO_SERVICE
    else if c.name !in services.value[c.service] then NO_METHOD
    else if !services.value[c.service][c.name](c.request) then INVALID_REQUEST
    else NO_ERROR
  }

  /** Entries carry the call id first. */
  datatype Sys = Sys(
    counter: int,                       // id_
    drawn: seq<(int, Call)>,            // id taken, call not yet filed
    filed: seq<(int, Call)>,            // in outstandings_, request not yet sent
    outstanding: set<int>,              // the keys of outstandings_
    requests: seq<(int, Call)>,         // on the way to the server
    serving: seq<(int, Call)>,          // handed to a service that has not run its closure
    responses: seq<(int, Reply)>,       // on the way back
    completed: seq<(int, Reply)>,       // history: closures run, with the reply they saw
    lost: seq<(int, bool)>,             // history: messages dropped by send; true for a reply
    issued: map<int, Call>,             // history: the call each id was drawn for
    served: map<int, (Call, Reply)>)    // history: the call the server saw under each id, and its answer

  datatype Action =
    | Draw(call: Call)
    | File(i: nat)
    | Send(i: nat, kept: bool)
    | Serve(kept: bool)
    | Finish(i: nat, response: seq<Byte>, kept: bool)
    | Receive
    | Stray(e: (int, Reply))

  function Without<T>(s: seq<T>, i: nat): seq<T>
    requires i < |s|
  {
    s[..i] + s[i + 1..]
  }

  predicate Enabled(s: Sys, a: Action) {
    match a
    case Draw(_) => s.counter < INT64_MAX
    case File(i) => i < |s.drawn|
    case Send(i, _) => i < |s.filed|
    case Serve(_) => s.requests != []
    case Finish(i, _, _) => i < |s.serving|
    case Receive => s.responses != []
    case Stray(_) => true
  }

  /** The server answers a call: the reply goes on the channel, or `send` drops it. */
  function Respond(s: Sys, e: (int, Call), r: Reply, kept: bool): Sys {
    var s' := s.(served := s.served[e.0 := (e.1, r)]);
    if kept then s'.(responses := s.responses + [(e.0, r)]) else s'.(lost := s.lost + [(e.0, true)])
  }

  function Apply(services: Services, s: Sys, a: Action): Sys
    requires Enabled(s, a)
  {
    match a
    case Draw(c) =>
      var id := s.counter + 1;
      s.(counter := id, drawn := s.drawn + [(id, c)], issued := s.issued[id := c])
    case File(i) =>
      s.(drawn := Without(s.drawn, i), filed := s.filed + [s.drawn[i]],
         outstanding := s.outstanding + {s.drawn[i].0})
    case Send(i, kept) =>
      var s' := s.(filed := Without(s.filed, i));
      if kept then s'.(requests := s.requests + [s.filed[i]])
      else s'.(lost := s.lost + [(s.filed[i].0, false)])
    case Serve(kept) =>
      var e, s' := s.requests[0], s.(requests := s.requests[1..]);
      var error := RequestError(services, e.1);
      if error == NO_ERROR then s'.(serving := s.serving + [e])
      else Respond(s', e, Reply(error, []), kept)
    case Finish(i, bytes, kept) =>
      Respond(s.(serving := Without(s.serving, i)), s.serving[i], Reply(NO_ERROR, bytes), kept)
    case Receive =>
      HandleResponse(s.(responses := s.responses[1..]), s.responses[0])
    // A response nobody owes, such as that of a service which runs its closure twice.
    case Stray(e) => s.(responses := s.responses + [e])
  }

  /** `handle_response_msg`. */
  function HandleResponse(s: Sys, e: (int, Reply)): Sys {
    if e.0 in s.outstanding then s.(outstanding := s.outstanding - {e.0}, completed := s.completed + [e]) else s
  }

  function Step(services: Services, s: Sys, a: Action): Sys {
    if Enabled(s, a) then Apply(services, s, a) else s
  }

  /** `id_` has no initializer, so it starts anywhere. */
  function Exec(services: Services, start: int, acts: seq<Action>): Sys {
    if acts == [] then Sys(start, [], [], {}, [], [], [], [], [], map[], map[])
    else Step(services, Exec(services, start, acts[..|acts| - 1]), acts[|acts| - 1])
  }

  /** `CallMethod` run through without a pause: the id is drawn, the call filed, and the request sent. */
  function CallSteps(services: Services, s: Sys, c: Call, kept: bool): Sys {
    Step(services, Step(services, Step(services, s, Draw(c)), File(|s.drawn|)), Send(|s.filed|, kept))
  }

  lemma CallMoves(services: Services, s: Sys, c: Call, kept: bool)
    requires s.counter < INT64_MAX
    ensures var s' := CallSteps(services, s, c, kept);
            && s'.counter == s.counter + 1 && s'.outstanding == s.outstanding + {s.counter + 1}
            && s'.drawn == s.drawn && s'.filed == s.filed
            && s'.requests == s.requests + (if kept then [(s.counter + 1, c)] else [])
  {
  }

  // ---- Counting ids ----------------------------------------------------------------------

  /** How many entries carry `id`. */
  ghost function Count<T>(s: seq<(int, T)>, id: int): nat {
    if s == [] then 0 else Count(s[..|s| - 1], id) + Unit(s[|s| - 1].0 == id)
  }

  lemma CountAppend<T>(s: seq<(int, T)>, e: (int, T), id: int)
    ensures Count(s + [e], id) == Count(s, id) + Unit(e.0 == id)
  {
  }

  lemma {:induction false} CountWithout<T>(s: seq<(int, T)>, i: nat, id: int)
    requires i < |s|
    ensures Count(s, id) == Count(Without(s, i), id) + Unit(s[i].0 == id)
  {
    var n := |s| - 1;
    if i == n {
      assert Without(s, i) == s[..n];
    } else {
      CountWithout(s[..n], i, id);
      assert Without(s, i) == Without(s[..n], i) + [s[n]];
      CountAppend(Without(s[..n], i), s[n], id);
    }
  }

  lemma CountTail<T>(s: seq<(int, T)>, id: int)
    requires s != []
    ensures Count(s, id) == Count(s[1..], id) + Unit(s[0].0 == id)
  {
    CountWithout(s, 0, id);
    assert Without(s, 0) == s[1..];
  }

  /** In how many of the places a call can be, and how often, `id` occurs. */
  ghost function Places(s: Sys, id: int): nat {
    Count(s.drawn, id) + Count(s.filed, id) + Count(s.requests, id) + Count(s.serving, id)
    + Count(s.responses, id) + Count(s.completed, id) + Count(s.lost, id)
  }

  // ---- The invariant -----------------------------------------------------------------------

  /** An issued id is in one place, once; outstanding means filed and not completed. */
  ghost predicate Placed(s: Sys, id: int) {
    && Places(s, id) == Unit(id in s.issued)
    && (id in s.outstanding <==> id in s.issued && Count(s.drawn, id) == 0 && Count(s.completed, id) == 0)
    && (id in s.issued ==> id <= s.counter)
  }

  /** What travels under an id is the call drawn for it ... */
  ghost predicate Calls(issued: map<int, Call>, q: seq<(int, Call)>) {
    forall i :: 0 <= i < |q| ==> q[i].0 in issued && issued[q[i].0] == q[i].1
  }

  /** ... and then the answer that the server gave to that call. */
  ghost predicate Answered(services: Services, s: Sys, e: (int, Reply)) {
    && e.0 in s.issued && e.0 in s.served
    && s.served[e.0] == (s.issued[e.0], e.1)
    && e.1.error == RequestError(services, s.issued[e.0])
    && (e.1.error != NO_ERROR ==> e.1.response == [])
  }

  ghost predicate Replies(services: Services, s: Sys, q: seq<(int, Reply)>) {
    forall i :: 0 <= i < |q| ==> Answered(services, s, q[i])
  }

  ghost predicate Truthful(services: Services, s: Sys) {
    && Calls(s.issued, s.drawn) && Calls(s.issued, s.filed) && Calls(s.issued, s.requests) && Calls(s.issued, s.serving)
    && Replies(services, s, s.responses) && Replies(services, s, s.completed)
    && (forall i :: 0 <= i < |s.serving| ==> RequestError(services, s.serving[i].1) == NO_ERROR)
  }

  // ---- Preservation: places ------------------------------------------------------------------

  lemma RespondPlaced(s: Sys, e: (int, Call), r: Reply, kept: bool, id: int)
    ensures Places(Respond(s, e, r, kept), id) == Places(s, id) + Unit(e.0 == id)
  {
  }

  lemma DrawPlaced(services: Services, s: Sys, c: Call, id: int)
    requires Enabled(s, Draw(c)) && Placed(s, id)
    ensures Placed(Apply(services, s, Draw(c)), id)
  {
  }

  lemma FilePlaced(services: Services, s: Sys, i: nat, id: int)
    requires Enabled(s, File(i)) && Placed(s, id)
    ensures Placed(Apply(services, s, File(i)), id)
  {
    CountWithout(s.drawn, i, id);
    CountAppend(s.filed, s.drawn[i], id);
  }

  lemma SentPlaced(s: Sys, i: nat, id: int)
    requires i < |s.filed| && Placed(s, id)
    ensures Placed(s.(filed := Without(s.filed, i), requests := s.requests + [s.filed[i]]), id)
  {
    CountWithout(s.filed, i, id);
    CountAppend(s.requests, s.filed[i], id);
  }

  lemma UnsentPlaced(s: Sys, i: nat, id: int)
    requires i < |s.filed| && Placed(s, id)
    ensures Placed(s.(filed := Without(s.filed, i), lost := s.lost + [(s.filed[i].0, false)]), id)
  {
    CountWithout(s.filed, i, id);
    CountAppend(s.lost, (s.filed[i].0, false), id);
  }

  lemma SendPlaced(services: Services, s: Sys, i: nat, kept: bool, id: int)
    requires Enabled(s, Send(i, kept)) && Placed(s, id)
    ensures Placed(Apply(services, s, Send(i, kept)), id)
  {
    if kept { SentPlaced(s, i, id); } else { UnsentPlaced(s, i, id); }
  }

  lemma ServePlaced(services: Services, s: Sys, kept: bool, id: int)
    requires Enabled(s, Serve(kept)) && Placed(s, id)
    ensures Placed(Apply(services, s, Serve(kept)), id)
  {
    var e := s.requests[0];
    CountTail(s.requests, id);
    if RequestError(services, e.1) == NO_ERROR {
      CountAppend(s.serving, e, id);
    } else {
      RespondPlaced(s.(requests := s.requests[1..]), e, Reply(RequestError(services, e.1), []), kept, id);
    }
  }

  lemma FinishPlaced(services: Services, s: Sys, i: nat, bytes: seq<Byte>, kept: bool, id: int)
    requires Enabled(s, Finish(i, bytes, kept)) && Placed(s, id)
    ensures Placed(Apply(services, s, Finish(i, bytes, kept)), id)
  {
    CountWithout(s.serving, i, id);
    RespondPlaced(s.(serving := Without(s.serving, i)), s.serving[i], Reply(NO_ERROR, bytes), kept, id);
  }

  lemma InFlightOutstanding(s: Sys, i: nat)
    requires i < |s.responses| && Placed(s, s.responses[i].0)
    ensures s.responses[i].0 in s.outstanding
  {
    CountWithout(s.responses, i, s.responses[i].0);
  }

  lemma ReceivePlaced(services: Services, s: Sys, id: int)
    requires Enabled(s, Receive) && Placed(s, id) && Placed(s, s.responses[0].0)
    ensures Placed(Apply(services, s, Receive), id)
  {
    InFlightOutstanding(s, 0);
    CountTail(s.responses, id);
    CountAppend(s.completed, s.responses[0], id);
  }

  lemma PlacedStep(services: Services, s: Sys, a: Action)
    requires Enabled(s, a) && !a.Stray? && forall id :: Placed(s, id)
    ensures forall id :: Placed(Apply(services, s, a), id)
  {
    forall id ensures Placed(Apply(services, s, a), id) {
      assert Placed(s, id);
      match a
      case Draw(c) => DrawPlaced(services, s, c, id);
      case File(i) => FilePlaced(services, s, i, id);
      case Send(i, kept) => SendPlaced(services, s, i, kept, id);
      case Serve(kept) => ServePlaced(services, s, kept, id);
      case Finish(i, bytes, kept) => FinishPlaced(services, s, i, bytes, kept, id);
      case Receive => ReceivePlaced(services, s, id);
    }
  }

  // ---- Preservation: contents -------------------------------------------------------------------

  lemma {:induction false} CountPositive<T>(s: seq<(int, T)>, i: nat)
    requires i < |s|
    ensures Count(s, s[i].0) > 0
  {
    CountWithout(s, i, s[i].0);
  }

  /** Answering a call cannot disturb an answer already given: no other place holds its id. */
  lemma RespondTruthful(services: Services, s: Sys, e: (int, Call), r: Reply, kept: bool)
    requires Truthful(services, s) && Places(s, e.0) == 0
    requires e.0 in s.issued && s.issued[e.0] == e.1 && r.error == RequestError(services, e.1)
    requires r.error != NO_ERROR ==> r.response == []
    ensures Truthful(services, Respond(s, e, r, kept))
  {
    forall i | 0 <= i < |s.responses| ensures s.responses[i].0 != e.0 { CountPositive(s.responses, i); }
    forall i | 0 <= i < |s.completed| ensures s.completed[i].0 != e.0 { CountPositive(s.completed, i); }
  }

  lemma ServeTruthful(services: Services, s: Sys, kept: bool)
    requires Enabled(s, Serve(kept)) && Truthful(services, s) && Placed(s, s.requests[0].0)
    ensures Truthful(services, Apply(services, s, Serve(kept)))
  {
    var e, s' := s.requests[0], s.(requests := s.requests[1..]);
    CountTail(s.requests, e.0);
    if RequestError(services, e.1) != NO_ERROR {
      RespondTruthful(services, s', e, Reply(RequestError(services, e.1), []), kept);
    }
  }

  lemma FinishTruthful(services: Services, s: Sys, i: nat, bytes: seq<Byte>, kept: bool)
    requires Enabled(s, Finish(i, bytes, kept)) && Truthful(services, s) && Placed(s, s.serving[i].0)
    ensures Truthful(services, Apply(services, s, Finish(i, bytes, kept)))
  {
    CountWithout(s.serving, i, s.serving[i].0);
    RespondTruthful(services, s.(serving := Without(s.serving, i)), s.serving[i], Reply(NO_ERROR, bytes), kept);
  }

  lemma DrawTruthful(services: Services, s: Sys, c: Call)
    requires Enabled(s, Draw(c)) && Truthful(services, s) && s.counter + 1 !in s.issued
    ensures Truthful(services, Apply(services, s, Draw(c)))
  {
  }

  lemma FileTruthful(services: Services, s: Sys, i: nat)
    requires Enabled(s, File(i)) && Truthful(services, s)
    ensures Truthful(services, Apply(services, s, File(i)))
  {
  }

  lemma SendTruthful(services: Services, s: Sys, i: nat, kept: bool)
    requires Enabled(s, Send(i, kept)) && Truthful(services, s)
    ensures Truthful(services, Apply(services, s, Send(i, kept)))
  {
  }

  lemma ReceiveTruthful(services: Services, s: Sys)
    requires Enabled(s, Receive) && Truthful(services, s)
    ensures Truthful(services, Apply(services, s, Receive))
  {
  }

  lemma TruthfulStep(services: Services, s: Sys, a: Action)
    requires Enabled(s, a) && !a.Stray? && Truthful(services, s) && forall id :: Placed(s, id)
    ensures Truthful(services, Apply(services, s, a))
  {
    match a
    case Serve(kept) =>
      assert Placed(s, s.requests[0].0);
      ServeTruthful(services, s, kept);
    case Finish(i, bytes, kept) =>
      assert Placed(s, s.serving[i].0);
      FinishTruthful(services, s, i, bytes, kept);
    case Draw(c) =>
      assert Placed(s, s.counter + 1);
      DrawTruthful(services, s, c);
    case File(i) => FileTruthful(services, s, i);
    case Send(i, kept) => SendTruthful(services, s, i, kept);
    case Receive => ReceiveTruthful(services, s);
  }

  /** The server answers each call once, and nobody else answers. */
  ghost predicate Honest(acts: seq<Action>) {
    forall i :: 0 <= i < |acts| ==> !acts[i].Stray?
  }

  lemma {:induction false} Runs(services: Services, start: int, acts: seq<Action>)
    requires Honest(acts)
    ensures var s := Exec(services, start, acts); Truthful(services, s) && forall id :: Placed(s, id)
  {
    if acts != [] {
      var s, a := Exec(services, start, acts[..|acts| - 1]), acts[|acts| - 1];
      Runs(services, start, acts[..|acts| - 1]);
      if Enabled(s, a) {
        TruthfulStep(services, s, a);
        PlacedStep(services, s, a);
      }
    }
  }

  // ---- The theorems -------------------------------------------------------------------------------

  /** Every issued id is in exactly one place, and no id that was not issued is anywhere. */
  lemma ExactlyOnePlace(services: Services, start: int, acts: seq<Action>, id: int)
    requires Honest(acts)
    ensures var s := Exec(services, start, acts);
            && Places(s, id) == Unit(id in s.issued)
            && (id in s.outstanding <==> id in s.issued && Count(s.drawn, id) == 0 && Count(s.completed, id) == 0)
  {
    Runs(services, start, acts);
    assert Placed(Exec(services, start, acts), id);
  }

  // ---- Where it all comes from, told from the list of actions ---------------------------------------

  predicate Happens(services: Services, start: int, acts: seq<Action>, k: nat) {
    k < |acts| && Enabled(Exec(services, start, acts[..k]), acts[k])
  }

  /** Call `id` was drawn for `call` by the action at `k`. */
  predicate DrawnAt(services: Services, start: int, acts: seq<Action>, k: nat, id: int, call: Call) {
    Happens(services, start, acts, k) && acts[k] == Draw(call) && Exec(services, start, acts[..k]).counter + 1 == id
  }

  /** The action at `k` put response `e` on the channel: a refusal, a service's answer, or a stray. */
  predicate MadeAt(services: Services, start: int, acts: seq<Action>, k: nat, e: (int, Reply)) {
    && Happens(services, start, acts, k)
    && var s := Exec(services, start, acts[..k]);
       match acts[k]
       case Serve(kept) =>
         && kept && s.requests[0].0 == e.0 && RequestError(services, s.requests[0].1) != NO_ERROR
         && e.1 == Reply(RequestError(services, s.requests[0].1), [])
       case Finish(i, bytes, kept) => kept && s.serving[i].0 == e.0 && e.1 == Reply(NO_ERROR, bytes)
       case Stray(x) => x == e
       case _ => false
  }

  ghost predicate Made(services: Services, start: int, acts: seq<Action>, e: (int, Reply)) {
    exists k :: 0 <= k < |acts| && MadeAt(services, start, acts, k, e)
  }

  lemma MadeBefore(services: Services, start: int, acts: seq<Action>, e: (int, Reply))
    requires acts != [] && Made(services, start, acts[..|acts| - 1], e)
    ensures Made(services, start, acts, e)
  {
    var n := |acts| - 1;
    var k :| 0 <= k < n && MadeAt(services, start, acts[..n], k, e);
    assert acts[..n][..k] == acts[..k];
    assert MadeAt(services, start, acts, k, e);
  }

  /** A response in flight or completed after the step was so before, or the step made it. */
  lemma MadeNow(services: Services, start: int, acts: seq<Action>, e: (int, Reply))
    requires acts != []
    requires e in Exec(services, start, acts).responses || e in Exec(services, start, acts).completed
    ensures var n := |acts| - 1; var s := Exec(services, start, acts[..n]);
            e in s.responses || e in s.completed || MadeAt(services, start, acts, n, e)
  {
  }

  /** No response comes from nowhere, in any run. */
  lemma {:induction false} ResponsesAreMade(services: Services, start: int, acts: seq<Action>, e: (int, Reply))
    requires e in Exec(services, start, acts).responses || e in Exec(services, start, acts).completed
    ensures Made(services, start, acts, e)
  {
    if acts != [] {
      var n := |acts| - 1;
      var s := Exec(services, start, acts[..n]);
      MadeNow(services, start, acts, e);
      if e in s.responses || e in s.completed {
        ResponsesAreMade(services, start, acts[..n], e);
        MadeBefore(services, start, acts, e);
      }
    }
  }

  /** What is on record for an id is what it was drawn for. */
  lemma {:induction false} IssuedIsDrawn(services: Services, start: int, acts: seq<Action>, id: int) returns (k: nat)
    requires id in Exec(services, start, acts).issued
    ensures DrawnAt(services, start, acts, k, id, Exec(services, start, acts).issued[id])
  {
    var n := |acts| - 1;
    var s := Exec(services, start, acts[..n]);
    if Enabled(s, acts[n]) && acts[n].Draw? && s.counter + 1 == id {
      k := n;
    } else {
      k := IssuedIsDrawn(services, start, acts[..n], id);
      assert acts[..n][..k] == acts[..k];
    }
  }

  /** The service ended with these bytes while it served the call of `e`. */
  predicate FinishedAt(services: Services, start: int, acts: seq<Action>, k: nat, e: (int, Reply)) {
    && Happens(services, start, acts, k) && acts[k].Finish? && acts[k].response == e.1.response
    && Exec(services, start, acts[..k]).serving[acts[k].i].0 == e.0
  }

  /**
   A closure runs at most once, and what it sees is the server's answer to that very call: the
   bytes with which the service ended, or the refusal that the drawn call deserves.
   */
  lemma CompletedOnceWithOwnReply(services: Services, start: int, acts: seq<Action>, i: nat, j: nat)
    requires Honest(acts)
    requires i < |Exec(services, start, acts).completed| && j < |Exec(services, start, acts).completed|
    ensures var s := Exec(services, start, acts); var e := s.completed[i];
            && Answered(services, s, e)
            && (e.0 == s.completed[j].0 ==> i == j)
            && (exists k, call :: DrawnAt(services, start, acts, k, e.0, call) && RequestError(services, call) == e.1.error)
            && (e.1.error == NO_ERROR ==> exists k :: FinishedAt(services, start, acts, k, e))
            && (e.1.error != NO_ERROR ==> e.1.response == [])
  {
    Runs(services, start, acts);
    var s := Exec(services, start, acts);
    var e := s.completed[i];
    assert Placed(s, e.0);
    if i != j && e.0 == s.completed[j].0 { CountTwice(s.completed, i, j); }
    var d := IssuedIsDrawn(services, start, acts, e.0);
    ResponsesAreMade(services, start, acts, e);
    var k :| 0 <= k < |acts| && MadeAt(services, start, acts, k, e);
    if e.1.error == NO_ERROR { assert FinishedAt(services, start, acts, k, e); }
  }

  lemma CountTwice<T>(s: seq<(int, T)>, i: nat, j: nat)
    requires i < |s| && j < |s| && i != j && s[i].0 == s[j].0
    ensures Count(s, s[i].0) >= 2
  {
    CountWithout(s, i, s[i].0);
    var k := if j < i then j else j - 1;
    assert Without(s, i)[k] == s[j];
    CountPositive(Without(s, i), k);
  }

  /** Every response in flight, in every run, will find its call outstanding. */
  lemma ResponseExpected(services: Services, start: int, acts: seq<Action>, i: nat)
    requires Honest(acts) && i < |Exec(services, start, acts).responses|
    ensures var s := Exec(services, start, acts); s.responses[i].0 in s.outstanding
  {
    Runs(services, start, acts);
    var s := Exec(services, start, acts);
    assert Placed(s, s.responses[i].0);
    InFlightOutstanding(s, i);
  }

  // ---- Calls that are never answered --------------------------------------------------------------

  lemma {:induction false} LostGrows(services: Services, start: int, acts: seq<Action>, more: seq<Action>, id: int)
    ensures Count(Exec(services, start, acts).lost, id) <= Count(Exec(services, start, acts + more).lost, id)
    decreases |more|
  {
    if more == [] {
      assert acts + more == acts;
    } else {
      var rest, a := acts + more[..|more| - 1], more[|more| - 1];
      LostGrows(services, start, acts, more[..|more| - 1], id);
      assert (acts + more)[..|acts + more| - 1] == rest && (acts + more)[|acts + more| - 1] == a;
      LostStep(services, Exec(services, start, rest), a, id);
    }
  }

  lemma LostStep(services: Services, s: Sys, a: Action, id: int)
    ensures Count(s.lost, id) <= Count(Step(services, s, a).lost, id)
  {
    if Enabled(s, a) {
      var s' := Apply(services, s, a);
      assert s'.lost == s.lost || (s'.lost != [] && s'.lost[..|s'.lost| - 1] == s.lost);
    }
  }

  /** A call whose request or reply `send` dropped stays outstanding whatever happens later. */
  lemma LostStaysOutstanding(services: Services, start: int, acts: seq<Action>, more: seq<Action>, id: int)
    requires Honest(acts + more) && Count(Exec(services, start, acts).lost, id) > 0
    ensures id in Exec(services, start, acts + more).outstanding
  {
    LostGrows(services, start, acts, more, id);
    ExactlyOnePlace(services, start, acts + more, id);
  }

  // ---- At most once, whoever answers ---------------------------------------------------------------

  /** An id that was issued is drawn, outstanding or completed: one of these, and once. */
  ghost predicate Once(s: Sys, id: int) {
    && Count(s.drawn, id) + Unit(id in s.outstanding) + Count(s.completed, id) == Unit(id in s.issued)
    && (id in s.issued ==> id <= s.counter)
  }

  lemma OnceReceive(s: Sys, e: (int, Reply), id: int)
    requires Once(s, id)
    ensures Once(HandleResponse(s, e), id)
  {
    CountAppend(s.completed, e, id);
  }

  lemma OnceDraw(services: Services, s: Sys, c: Call, id: int)
    requires Enabled(s, Draw(c)) && Once(s, id)
    ensures Once(Apply(services, s, Draw(c)), id)
  {
    CountAppend(s.drawn, (s.counter + 1, c), id);
  }

  lemma OnceFile(services: Services, s: Sys, i: nat, id: int)
    requires Enabled(s, File(i)) && Once(s, id)
    ensures Once(Apply(services, s, File(i)), id)
  {
    CountWithout(s.drawn, i, id);
  }

  lemma OnceStep(services: Services, s: Sys, a: Action, id: int)
    requires Enabled(s, a) && Once(s, id)
    ensures Once(Apply(services, s, a), id)
  {
    match a
    case Draw(c) => OnceDraw(services, s, c, id);
    case File(i) => OnceFile(services, s, i, id);
    case Receive => OnceReceive(s.(responses := s.responses[1..]), s.responses[0], id);
    case _ =>
  }

  /** With any number of stray and repeated responses too, no closure runs twice and none runs for an id not issued. */
  lemma {:induction false} CompletedAtMostOnce(services: Services, start: int, acts: seq<Action>, id: int)
    ensures var s := Exec(services, start, acts);
            && Count(s.drawn, id) + Unit(id in s.outstanding) + Count(s.completed, id) == Unit(id in s.issued)
            && (id in s.issued ==> id <= s.counter)
  {
    if acts != [] {
      var s, a := Exec(services, start, acts[..|acts| - 1]), acts[|acts| - 1];
      CompletedAtMostOnce(services, start, acts[..|acts| - 1], id);
      if Enabled(s, a) { OnceStep(services, s, a, id); }
    }
  }

  lemma IssuedKept(services: Services, s: Sys, a: Action, id: int)
    requires id in s.issued && id <= s.counter
    ensures var s' := Step(services, s, a); id in s'.issued && s'.issued[id] == s.issued[id]
  {
  }

  /** And every draw that happens is on record for the rest of the run. */
  lemma {:induction false} DrawnIsIssued(services: Services, start: int, acts: seq<Action>, k: nat, id: int, call: Call)
    requires DrawnAt(services, start, acts, k, id, call)
    ensures var s := Exec(services, start, acts); id in s.issued && s.issued[id] == call
  {
    var n := |acts| - 1;
    if k < n {
      assert acts[..n][..k] == acts[..k];
      DrawnIsIssued(services, start, acts[..n], k, id, call);
      CompletedAtMostOnce(services, start, acts[..n], id);
      IssuedKept(services, Exec(services, start, acts[..n]), acts[n], id);
    }
  }
}
