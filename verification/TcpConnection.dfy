/** `TcpConnection` with its two buffers, refining the value-level `ConnectionSpec`. */
module TcpConnection {
  import opened Endian
  import opened Framing
  import opened RpcCodec
  import opened Buffers
  import opened CodecOnBuffer
  import opened ConnectionSpec

  class Connection {
    var state: ConnState
    var reading: bool
    var writing: bool
    const input: Buffer
    const output: Buffer
    // The socket: what it has taken, whether SHUT_WR was issued, and whether it was asked for.
    ghost var wire: seq<Byte>
    ghost var shutWr: bool
    ghost var halfClosing: bool

    ghost predicate Valid()
      reads this, input, output
    {
      input.Valid() && output.Valid() && input != output && input.storage != output.storage
    }

    ghost function Abs(): Conn
      requires Valid()
      reads this, input, output, output.storage
    {
      Conn(state, reading, writing, output.Contents(), wire, shutWr, halfClosing)
    }

    constructor ()
      ensures Valid() && Abs() == Fresh() && input.Contents() == []
      ensures fresh(input) && fresh(output) && fresh(input.storage) && fresh(output.storage)
    {
      state, reading, writing := Connecting, false, false;
      input := new Buffer(INITIAL_SIZE);
      output := new Buffer(INITIAL_SIZE);
      wire, shutWr, halfClosing := [], false, false;
    }

    /** `sendInLoop`; `complete` is whether the write-complete callback is queued. */
    method Send(data: seq<Byte>, r: WriteResult) returns (complete: bool)
      requires Valid() && Allowed(Abs(), |data|, r)
      modifies this`writing, this`wire, output, output.storage
      ensures Valid() && Abs() == SendInLoop(old(Abs()), data, r)
      ensures complete <==> !old(state).Disconnected? && old(Abs()).Direct() && r == Wrote(|data|)
      ensures complete ==> Abs().out == [] && Abs().wire == old(Abs()).wire + data
      ensures input.Contents() == old(input.Contents())
    {
      complete := false;
      if state.Disconnected? {
        return;
      }
      var nwrote, fault := 0, false;
      if !writing && output.ReadableBytes() == 0 {
        nwrote, fault := WriteDirect(data, r);
        complete := r.Wrote? && nwrote == |data|;
      }
      if !fault {
        Enqueue(data[nwrote..]);
      }
    }

    method WriteDirect(data: seq<Byte>, r: WriteResult) returns (nwrote: nat, fault: bool)
      requires r.Wrote? ==> r.n <= |data|
      modifies this`wire
      ensures nwrote <= |data| && wire == old(wire) + data[..nwrote]
      ensures fault == r.Fault? && nwrote == if r.Wrote? then r.n else 0
    {
      nwrote, fault := if r.Wrote? then r.n else 0, r.Fault?;
      wire := wire + data[..nwrote];
    }

    /** Queues what the socket did not take, and asks to be told when it can take more. */
    method Enqueue(rest: seq<Byte>)
      requires Valid()
      modifies this`writing, output, output.storage
      ensures Valid() && Abs() == old(Abs()).(out := old(Abs()).out + rest, writing := old(writing) || rest != [])
      ensures input.Contents() == old(input.Contents())
    {
      if rest != [] {
        output.Append(rest);
        if !writing {
          writing := true;
        }
      }
    }

    /** `handleWrite`; `complete` is whether the write-complete callback is queued. */
    method OnWritable(r: WriteResult) returns (complete: bool)
      requires Valid() && Bounded(|Abs().out|, r)
      modifies this`writing, this`wire, this`shutWr, this`halfClosing, output`readerIndex, output`writerIndex
      ensures Valid() && Abs() == HandleWrite(old(Abs()), r)
      ensures complete <==> old(writing) && r.Wrote? && r.n > 0 && r.n == |old(Abs()).out|
      ensures complete ==> Abs().out == [] && !writing
    {
      complete := false;
      if writing {
        match r
        case Wrote(n) =>
          if n > 0 {
            wire := wire + output.Contents()[..n];
            output.Retrieve(n);
            if output.ReadableBytes() == 0 {
              writing := false;
              complete := true;
              if state.Disconnecting? {
                ShutdownNow();
              }
            }
          }
        case _ =>
      }
    }

    /** `shutdownInLoop`. */
    method ShutdownNow()
      requires Valid()
      modifies this`shutWr, this`halfClosing
      ensures Valid() && Abs() == ShutdownInLoop(old(Abs()))
    {
      halfClosing := halfClosing || state.Connected? || state.Disconnecting?;
      if !writing {
        shutWr := true;
      }
    }

    /** `shutdown` called in the loop thread. */
    method Shutdown()
      requires Valid()
      modifies this`state, this`shutWr, this`halfClosing
      ensures Valid()
      ensures Abs() == if old(state).Connected? then ShutdownInLoop(MarkDisconnecting(old(Abs()))) else old(Abs())
    {
      if state.Connected? {
        state := Disconnecting;
        ShutdownNow();
      }
    }

    /** `forceClose`; `queued` is whether `forceCloseInLoop` was queued. */
    method ForceClose() returns (queued: bool)
      requires Valid()
      modifies this`state
      ensures Valid() && Abs() == MarkDisconnecting(old(Abs())) && queued == old(Abs().Open())
    {
      queued := state.Connected? || state.Disconnecting?;
      if queued {
        state := Disconnecting;
      }
    }

    method Establish()
      requires Valid() && state.Connecting?
      modifies this`state, this`reading
      ensures Valid() && Abs() == ConnectEstablished(old(Abs()))
    {
      state, reading := Connected, true;
    }

    /** `handleClose`: the assertion on the state is the caller's obligation. */
    method Close()
      requires Valid() && (state.Connected? || state.Disconnecting?)
      modifies this`state, this`reading, this`writing
      ensures Valid() && Abs() == HandleClose(old(Abs()))
    {
      state, reading, writing := Disconnected, false, false;
    }

    /** `handleRead` with the codec as message callback: bytes in, whole messages out. */
    method OnReadable<M>(w: Wire<M>, result: ReadResult) returns (delivered: seq<M>)
      requires Valid() && (state.Connected? || state.Disconnecting?)
      requires result.Bytes? ==> |result.data| <= input.ReadCapacity()
      modifies this`state, this`reading, this`writing, input, input.storage
      ensures Valid() && Sound(Rpc(w))
      ensures Abs() == if result == Bytes([]) then HandleClose(old(Abs())) else old(Abs())
      ensures result.ReadError? || result.data == [] ==> delivered == [] && input.Contents() == old(input.Contents())
      ensures result.Bytes? && result.data != [] ==>
                Decoded(delivered, input.Contents()) == Decode(Rpc(w), old(input.Contents()) + result.data)
    {
      delivered := [];
      RpcIsSound(w);
      var n := input.ReadFd(result);
      if n > 0 {
        delivered := OnMessage(w, input);
      } else if n == 0 {
        Close();
      }
    }
  }
}
