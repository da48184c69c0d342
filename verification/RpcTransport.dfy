/** The RPC codec over the transport: what the two layers give together. */
module RpcTransport {
  import opened Wrappers
  import opened Framing
  import opened RpcCodec
  import T = Transport
  import R = RpcRun
  import RT = RpcOverTransport
  import RP = RpcProgress

  /**
   For every run of senders, loop, socket and reader, given messages that protobuf gives back:
   the messages called back on one side are a prefix of those accepted on the other, and all
   of them exactly when every byte has been read and no message exceeds the 64 MiB limit.
   */
  lemma RpcEndToEnd<M(!new)>(w: Wire<M>, acts: seq<T.Act<M>>)
    ensures Lawful(Rpc(w))
    ensures var s := T.Exec(Rpc(w), acts); var sent := T.Accepted(s.log);
            && s.delivered <= sent
            && (s.delivered == sent <==>
                  (forall i :: 0 <= i < |sent| ==> Fits(w, sent[i])) && s.read == |Frames(Rpc(w), sent)|)
  {
    RpcIsLawful(w);
    T.EndToEnd(Rpc(w), acts);
    var sent := T.Accepted(T.Exec(Rpc(w), acts).log);
    assert AllFit(Rpc(w), sent) <==> forall i :: 0 <= i < |sent| ==> Fits(w, sent[i]);
  }

  /**
   RPC calls over that codec in both directions: on connections that neither fail nor close,
   once every message has been read and handled and none exceeded the limit, every call made
   has completed, exactly once.
   */
  lemma RpcCallsComplete(up: Wire<RT.Request>, down: Wire<RT.Response>, services: R.Services, start: int,
                         acts: seq<RT.Action>, id: int)
    requires forall i :: 0 <= i < |acts| ==> RT.Calm(acts[i])
    ensures var c := RT.Setting(services, start, Rpc(up), Rpc(down));
            RT.Proper(c)
            && (RT.AtRest(c, RT.Exec(c, acts)) ==>
                  var s := RT.Exec(c, acts).ends;
                  R.Count(s.completed, id) == Unit(id in s.issued) && id !in s.outstanding)
  {
    RpcIsLawful(up);
    RpcIsLawful(down);
    var c := RT.Setting(services, start, Rpc(up), Rpc(down));
    if RT.AtRest(c, RT.Exec(c, acts)) { RT.EveryCallCompletes(c, acts, id); }
  }

  /** Protobuf gives the message back and the decoder admits its frame. */
  ghost predicate Passes<M>(w: Wire<M>, m: M) {
    RoundTrips(w, m) && Fits(w, m)
  }

  /** A call that was drawn, and its empty replies, pass. */
  ghost predicate CallPasses(up: Wire<RT.Request>, down: Wire<RT.Response>, id: int, call: R.Call) {
    Passes(up, (id, call)) && forall e: R.ErrorCode :: Passes(down, (id, R.Reply(e, [])))
  }

  /**
   It does happen: with messages that pass, a call drawn at the start can complete over that
   codec, in a run without failures that ends at rest.
   */
  lemma OneCallCanComplete(up: Wire<RT.Request>, down: Wire<RT.Response>, services: R.Services, start: int, call: R.Call)
    returns (acts: seq<RT.Action>)
    requires start < R.INT64_MAX && CallPasses(up, down, start + 1, call)
    ensures var c := RT.Setting(services, start, Rpc(up), Rpc(down));
            && RT.Proper(c) && (forall i :: 0 <= i < |acts| ==> RT.Calm(acts[i])) && RT.AtRest(c, RT.Exec(c, acts))
            && R.Count(RT.Exec(c, acts).ends.completed, start + 1) == 1
  {
    RpcIsLawful(up);
    RpcIsLawful(down);
    var c := RT.Setting(services, start, Rpc(up), Rpc(down));
    var drawn := [RT.Draw(call)];
    assert RP.Suitable(c, start + 1, call) by {
      assert forall e: R.ErrorCode :: Passes(down, (start + 1, R.Reply(e, [])));
    }
    OneCallFits(c, call);
    var more := RP.EveryCallCanComplete(c, drawn);
    acts := drawn + more;
  }

  lemma OneCallFits(c: RT.Setting, call: R.Call)
    requires RT.Proper(c) && c.start < R.INT64_MAX && RP.Suitable(c, c.start + 1, call)
    ensures RP.Fitting(c, RT.Exec(c, [RT.Draw(call)])) && c.start + 1 in RT.Exec(c, [RT.Draw(call)]).ends.issued
  {
    assert [RT.Draw(call)][..0] == [];
    assert RT.Exec(c, [RT.Draw(call)]) == RT.Step(c, RT.Exec(c, []), RT.Draw(call));
  }
}
