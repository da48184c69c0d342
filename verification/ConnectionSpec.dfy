/**
 The output side of `TcpConnection` as a value: what `sendInLoop`, `handleWrite`,
 `shutdownInLoop` and `handleClose` do to the connection and to the socket behind it.
 */
module ConnectionSpec {
  import opened Endian

  datatype ConnState = Disconnected | Connecting | Connected | Disconnecting

  /** `wire` is what the socket has taken; `shutWr` that SHUT_WR was issued; `halfClosing` that
      `shutdownInLoop` has run while the connection was open. */
  datatype Conn = Conn(
    state: ConnState,
    reading: bool,
    writing: bool,
    out: seq<Byte>,
    wire: seq<Byte>,
    shutWr: bool,
    halfClosing: bool)
  {
    predicate Open() { state.Connected? || state.Disconnecting? }
    /** Nothing queued, so `sendInLoop` goes to the socket first. */
    predicate Direct() { !writing && out == [] }
  }

  /** What `write` can return: a count, EWOULDBLOCK, EPIPE or ECONNRESET, or another error. */
  datatype WriteResult = Wrote(n: nat) | WouldBlock | Fault | OtherError

  /** The kernel takes no more than offered ... */
  predicate Bounded(len: nat, r: WriteResult) {
    r.Wrote? ==> r.n <= len
  }

  /** ... and answers a write after SHUT_WR with EPIPE. */
  predicate Allowed(c: Conn, len: nat, r: WriteResult) {
    Bounded(len, r) && (c.shutWr ==> r.Fault?)
  }

  function Fresh(): Conn {
    Conn(Connecting, false, false, [], [], false, false)
  }

  /** Whether `sendInLoop` takes responsibility for the message. */
  predicate Accepts(c: Conn, r: WriteResult) {
    !c.state.Disconnected? && !(c.Direct() && r.Fault?)
  }

  function SendInLoop(c: Conn, data: seq<Byte>, r: WriteResult): Conn
    requires Allowed(c, |data|, r)
  {
    if !Accepts(c, r) then c
    else
      var n := if c.Direct() && r.Wrote? then r.n else 0;
      var rest := data[n..];
      c.(wire := c.wire + data[..n], out := c.out + rest, writing := c.writing || rest != [])
  }

  function HandleWrite(c: Conn, r: WriteResult): Conn
    requires Bounded(|c.out|, r)
  {
    if !c.writing || !r.Wrote? || r.n == 0 then c
    else
      var c' := c.(wire := c.wire + c.out[..r.n], out := c.out[r.n..]);
      if c'.out != [] then c'
      else
        var idle := c'.(writing := false);
        if c.state.Disconnecting? then ShutdownInLoop(idle) else idle
  }

  function ShutdownInLoop(c: Conn): Conn {
    c.(shutWr := c.shutWr || !c.writing, halfClosing := c.halfClosing || c.Open())
  }

  /** The check and the store of `shutdown()`; `shutdownInLoop` follows when it held. */
  function MarkDisconnecting(c: Conn): Conn {
    if c.Open() then c.(state := Disconnecting) else c
  }

  function ConnectEstablished(c: Conn): Conn {
    c.(state := Connected, reading := true)
  }

  function HandleClose(c: Conn): Conn {
    c.(state := Disconnected, reading := false, writing := false)
  }

  // ---- Invariants of every run ------------------------------------------------------

  /**
   `taken` is the concatenation of the accepted messages. No byte of it is lost, duplicated or
   reordered; writing is subscribed exactly while an open connection has bytes queued; SHUT_WR
   never overtakes queued bytes of an open connection; and a half-close in progress has either
   reached the socket or still has bytes to write first.
   */
  ghost predicate Inv(c: Conn, taken: seq<Byte>) {
    && c.wire + c.out == taken
    && (c.writing <==> c.Open() && c.out != [])
    && (c.state.Connecting? ==> taken == [] && !c.reading && !c.halfClosing)
    && (c.shutWr && c.Open() ==> c.out == [])
    && (c.halfClosing && c.Open() ==> c.state.Disconnecting? && (c.shutWr || c.writing))
  }

  lemma SendKeepsInv(c: Conn, taken: seq<Byte>, data: seq<Byte>, r: WriteResult)
    requires Inv(c, taken) && !c.state.Connecting? && Allowed(c, |data|, r)
    ensures Inv(SendInLoop(c, data, r), if Accepts(c, r) then taken + data else taken)
    ensures c.shutWr ==> SendInLoop(c, data, r).wire == c.wire
  {
  }

  lemma WriteKeepsInv(c: Conn, taken: seq<Byte>, r: WriteResult)
    requires Inv(c, taken) && Bounded(|c.out|, r)
    ensures Inv(HandleWrite(c, r), taken)
    ensures c.shutWr ==> HandleWrite(c, r).wire == c.wire
  {
  }

  /** How many bytes the call to `write` took. */
  function Count(r: WriteResult): nat {
    if r.Wrote? then r.n else 0
  }

  /**
   The socket gains exactly as many bytes as `write` took, and `write` is called exactly when the
   connection is not closed and nothing waits. Together with the total this fixes wire and queue.
   */
  lemma SendTakes(c: Conn, data: seq<Byte>, r: WriteResult)
    requires Allowed(c, |data|, r)
    ensures var c', closed := SendInLoop(c, data, r), c.state.Disconnected?;
            && |c'.wire| == |c.wire| + (if !closed && c.Direct() then Count(r) else 0)
            && c'.wire + c'.out == c.wire + c.out + (if closed || (c.Direct() && r.Fault?) then [] else data)
            && (c'.writing <==> c.writing || |c'.out| > |c.out|)
            && c'.state == c.state && c'.reading == c.reading && c'.shutWr == c.shutWr
  {
  }

  /** `handleWrite` writes only while writing is subscribed, and stops and half-closes only when drained. */
  lemma WriteTakes(c: Conn, r: WriteResult)
    requires Bounded(|c.out|, r)
    ensures var c', drained := HandleWrite(c, r), c.writing && Count(r) > 0 && Count(r) == |c.out|;
            && |c'.wire| == |c.wire| + (if c.writing then Count(r) else 0)
            && c'.wire + c'.out == c.wire + c.out
            && (c'.writing <==> c.writing && !drained)
            && (c'.shutWr <==> c.shutWr || (drained && c.state.Disconnecting?))
            && c'.state == c.state && c'.reading == c.reading
  {
  }

  /** Established connections: the other transitions keep the invariant with nothing new taken. */
  lemma ControlKeepsInv(c: Conn, taken: seq<Byte>)
    requires Inv(c, taken)
    ensures c.state.Disconnecting? || c.state.Disconnected? ==> Inv(ShutdownInLoop(c), taken)
    ensures Inv(MarkDisconnecting(c), taken)
    ensures c.state.Connecting? ==> Inv(ConnectEstablished(c), taken)
    ensures Inv(HandleClose(c), taken)
  {
  }

  /** A message that reaches `sendInLoop` of an open connection after SHUT_WR is dropped whole. */
  lemma LateSendDropped(c: Conn, taken: seq<Byte>, data: seq<Byte>, r: WriteResult)
    requires Inv(c, taken) && c.Open() && c.shutWr && Allowed(c, |data|, r)
    ensures !Accepts(c, r) && SendInLoop(c, data, r) == c
  {
  }

  /** Draining the queue of a connection that is being shut down half-closes it at once. */
  lemma DrainHalfCloses(data: seq<Byte>)
    requires data != []
    ensures var blocked := SendInLoop(ConnectEstablished(Fresh()), data, WouldBlock);
            var c := HandleWrite(MarkDisconnecting(blocked), Wrote(|data|));
            && blocked.state.Connected? && blocked.writing && blocked.out == data
            && c.state.Disconnecting? && c.shutWr && c.Direct() && c.wire == data
  {
  }

  /** Over unsent bytes, SHUT_WR is issued exactly when the connection is already closed. */
  lemma ShutdownOverBytesIff(c: Conn, taken: seq<Byte>)
    requires Inv(c, taken) && !c.shutWr && c.out != []
    ensures ShutdownInLoop(c).shutWr <==> !c.Open()
  {
  }
}
