/** `RpcChannel` itself: the table of outstanding calls and the messages handed to the codec. */
module RpcChannel {
  import opened Wrappers
  import opened Endian
  import opened RpcRun

  datatype RpcMessage = Request(id: int, call: Call) | Response(id: int, reply: Reply) | OtherType

  /** Whether the caller gave a response object and a closure. */
  datatype OutstandingCall = OutstandingCall(response: bool, done: bool)

  /** What handling a message made the channel do besides updating its table. */
  datatype Effect = Ignored | Completed(parsed: bool, ran: bool) | Served | Refused(error: ErrorCode)

  class Channel {
    /** `conn_`, as the number of a connection. */
    const conn: nat
    var id: int
    var outstandings: map<int, OutstandingCall>
    const services: Services
    /** History: what was passed to `codec_.send`. */
    ghost var sent: seq<RpcMessage>

    /** Ids already used lie at or below the counter. */
    ghost predicate Valid()
      reads this
    {
      forall k :: k in outstandings ==> k <= id
    }

    /** As the calling end of a run of `RpcRun`: the counter and the keys of the table are those of the machine. */
    ghost predicate Mirrors(s: Sys)
      reads this
    {
      s.counter == id && s.outstanding == outstandings.Keys
    }

    constructor (conn: nat, start: int, services: Services)
      ensures this.conn == conn
      ensures Valid() && id == start && outstandings == map[] && sent == [] && this.services == services
    {
      this.conn := conn;
      id, outstandings, sent := start, map[], [];
      this.services := services;
    }

    /** `kept` is whether the connection takes the message. */
    method CallMethod(call: Call, out: OutstandingCall, ghost s: Sys, ghost kept: bool) returns (callId: int)
      requires Valid() && id < INT64_MAX
      modifies this
      ensures Valid() && callId == id == old(id) + 1 && callId !in old(outstandings)
      ensures outstandings == old(outstandings)[callId := out]
      ensures sent == old(sent) + [Request(callId, call)]
      ensures old(Mirrors(s)) ==>
                && Mirrors(CallSteps(services, s, call, kept))
                && CallSteps(services, s, call, kept).requests == s.requests + if kept then [(callId, call)] else []
    {
      if s.counter == id { CallMoves(services, s, call, kept); }
      id := id + 1;
      callId := id;
      outstandings := outstandings[callId := out];
      sent := sent + [Request(callId, call)];
    }

    /** `onRpcMessage`; that the message came on this channel's own connection is asserted. */
    method OnRpcMessage(from: nat, m: RpcMessage, ghost s: Sys) returns (e: Effect)
      requires Valid() && from == conn
      modifies this`outstandings, this`sent
      ensures Valid()
      ensures m.OtherType? ==> e == Ignored && outstandings == old(outstandings) && sent == old(sent)
      ensures m.Response? ==> sent == old(sent) && outstandings == old(outstandings) - {m.id}
      ensures m.Response? && m.id !in old(outstandings) ==> e == Ignored && outstandings == old(outstandings)
      ensures m.Response? && m.id in old(outstandings) ==>
                e == if old(outstandings)[m.id].response then Completed(m.reply.response != [], old(outstandings)[m.id].done)
                     else Ignored
      ensures m.Response? && old(Mirrors(s)) && s.responses != [] && s.responses[0] == (m.id, m.reply) ==>
                Mirrors(Step(services, s, Receive))
      ensures m.Request? ==> outstandings == old(outstandings)
      ensures m.Request? ==> (e == Served <==> RequestError(services, m.call) == NO_ERROR)
      ensures m.Request? && e != Served ==>
                && e == Refused(RequestError(services, m.call))
                && sent == old(sent) + [Response(m.id, Reply(RequestError(services, m.call), []))]
      ensures m.Request? && e == Served ==> sent == old(sent)
    {
      assert from == conn;
      match m
      case Response(k, reply) => e := HandleResponse(k, reply, s);
      case Request(k, call) => e := HandleRequest(k, call, s);
      case OtherType => e := Ignored;
    }

    /** The entry is taken out once, and its closure run only then; error replies run it too. */
    method HandleResponse(k: int, reply: Reply, ghost s: Sys) returns (e: Effect)
      requires Valid()
      modifies this`outstandings
      ensures Valid() && outstandings == old(outstandings) - {k}
      ensures e.Ignored? <==> !(k in old(outstandings) && old(outstandings)[k].response)
      ensures e.Ignored? || e == Completed(reply.response != [], old(outstandings)[k].done)
      ensures old(Mirrors(s)) && s.responses != [] && s.responses[0] == (k, reply) ==>
                var s' := Step(services, s, Receive);
                Mirrors(s') && s'.completed == s.completed + if k in old(outstandings) then [(k, reply)] else []
    {
      var out := OutstandingCall(false, false);
      if k in outstandings {
        out := outstandings[k];
        outstandings := outstandings - {k};
      }
      if out.response {
        e := Completed(reply.response != [], out.done);
      } else {
        e := Ignored;
      }
    }

    /** A call a service takes is answered later by `DoneCallback`; any other at once, with its error. */
    method HandleRequest(k: int, call: Call, ghost s: Sys) returns (e: Effect)
      modifies this`sent
      ensures e == if RequestError(services, call) == NO_ERROR then Served else Refused(RequestError(services, call))
      ensures sent == if e == Served then old(sent) else old(sent) + [Response(k, Reply(RequestError(services, call), []))]
      ensures s.requests != [] && s.requests[0] == (k, call) ==>
                var s' := Step(services, s, Serve(true));
                && s'.serving == s.serving + (if e == Served then [(k, call)] else [])
                && AsMessages(s'.responses) == AsMessages(s.responses) + sent[|old(sent)|..]
    {
      AppendAsMessages(s.responses, (k, Reply(RequestError(services, call), [])));
      var error := WRONG_PROTO;
      if services.Some? {
        if call.service in services.value {
          var methods := services.value[call.service];
          if call.name in methods {
            error := if methods[call.name](call.request) then NO_ERROR else INVALID_REQUEST;
          } else {
            error := NO_METHOD;
          }
        } else {
          error := NO_SERVICE;
        }
      } else {
        error := NO_SERVICE;
      }
      if error != NO_ERROR {
        sent := sent + [Response(k, Reply(error, []))];
        e := Refused(error);
      } else {
        e := Served;
      }
    }

    /** The closure given to the service for entry `i` of those being served. */
    method DoneCallback(k: int, response: seq<Byte>, ghost s: Sys, ghost i: nat)
      modifies this`sent
      ensures sent == old(sent) + [Response(k, Reply(NO_ERROR, response))]
      ensures i < |s.serving| && s.serving[i].0 == k ==>
                AsMessages(Step(services, s, Finish(i, response, true)).responses)
                == AsMessages(s.responses) + sent[|old(sent)|..]
    {
      AppendAsMessages(s.responses, (k, Reply(NO_ERROR, response)));
      sent := sent + [Response(k, Reply(NO_ERROR, response))];
    }
  }

  ghost function AsMessages(q: seq<(int, Reply)>): seq<RpcMessage> {
    seq(|q|, i requires 0 <= i < |q| => Response(q[i].0, q[i].1))
  }

  lemma AppendAsMessages(q: seq<(int, Reply)>, e: (int, Reply))
    ensures AsMessages(q + [e]) == AsMessages(q) + [Response(e.0, e.1)]
  {
  }
}
