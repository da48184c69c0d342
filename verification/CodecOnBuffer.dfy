/** The two halves of `ProtoRpcCodec` that work on a `Buffer` in place. */
module CodecOnBuffer {
  import opened Endian
  import opened Adler32
  import opened Framing
  import opened RpcCodec
  import opened Buffers

  lemma FrameIs<M>(w: Wire<M>, m: M, data: seq<Byte>, sum: Int32, len: Int32, all: seq<Byte>)
    requires data == TAG + w.serialize(m) && sum == Checksum(data) && len == ToInt32(|data| + CHECKSUM_LEN)
    requires all == HostToNetwork32(len) + (data + HostToNetwork32(sum))
    ensures all == Frame(w, m)
  {
  }

  /** `fillEmptyBuffer`: tag, payload, checksum appended, then the length put in front. */
  method FillEmptyBuffer<M>(w: Wire<M>, m: M, buf: Buffer)
    requires Representable(w, m)
    requires buf.Valid() && buf.ReadableBytes() == 0 && buf.PrependableBytes() >= HEADER_LEN
    modifies buf, buf.storage
    ensures buf.Valid() && buf.Grown()
    ensures buf.Contents() == Frame(w, m)
    ensures Fits(w, m) ==> buf.Contents() == Framed(w.serialize(m))
  {
    buf.Append(TAG);
    SerializeToBuffer(w, m, buf);
    var data := buf.storage[buf.readerIndex..buf.writerIndex];
    var sum := Checksum(data);
    buf.AppendInt32(sum);
    var len := ToInt32(buf.ReadableBytes());
    buf.Prepend(HostToNetwork32(len));
    FrameIs(w, m, data, sum, len, buf.Contents());
    if Fits(w, m) { FrameIsFramed(w, m); }
  }

  /** `serializeToBuffer`: the payload is written behind room that also holds the checksum. */
  method SerializeToBuffer<M>(w: Wire<M>, m: M, buf: Buffer)
    requires buf.Valid() && Representable(w, m)
    modifies buf, buf.storage
    ensures buf.Valid() && buf.Grown()
    ensures buf.Contents() == old(buf.Contents()) + w.serialize(m)
    ensures buf.WritableBytes() >= CHECKSUM_LEN
    ensures buf.readerIndex == old(buf.readerIndex) || buf.readerIndex == CHEAP_PREPEND < old(buf.readerIndex)
  {
    var payload := w.serialize(m);
    buf.EnsureWritableBytes(|payload| + CHECKSUM_LEN);
    buf.Fill(payload);
  }

  /** One pass over the front of the buffer: the branch tree inside the `onMessage` loop. */
  method Pass<M>(w: Wire<M>, buf: Buffer) returns (r: Step<M>)
    requires buf.Valid()
    ensures r == DecodeOne(w, buf.Contents())
  {
    if buf.ReadableBytes() < MIN_MESSAGE_LEN + HEADER_LEN {
      return Wait;
    }
    var len := buf.PeekInt32();
    if len > MAX_MESSAGE_LEN || len < MIN_MESSAGE_LEN {
      return Reject;
    }
    if buf.ReadableBytes() < HEADER_LEN + len {
      return Wait;
    }
    var at := buf.readerIndex + HEADER_LEN;
    var body := buf.storage[at..at + len];
    assert body == buf.Contents()[HEADER_LEN..HEADER_LEN + len];
    match Parse(w, body)
    case Parsed(m) => r := Deliver(m, HEADER_LEN + len);
    case Failed(_) => r := Reject;
  }

  /** `onMessage`: the loop refines `Decode`, for any buffer contents whatever. */
  method OnMessage<M>(w: Wire<M>, buf: Buffer) returns (delivered: seq<M>)
    requires buf.Valid()
    modifies buf`readerIndex, buf`writerIndex
    ensures buf.Valid() && Sound(Rpc(w))
    ensures Decoded(delivered, buf.Contents()) == Decode(Rpc(w), old(buf.Contents()))
    ensures Consumes(w, old(buf.Contents()), buf.Contents(), delivered)
  {
    ghost var f := Rpc(w);
    RpcIsSound(w);
    delivered := [];
    var pass := Pass(w, buf);
    while pass.Deliver?
      invariant buf.Valid() && pass == f.step(buf.Contents())
      invariant Resumes(f, delivered, buf.Contents(), old(buf.Contents()))
      decreases buf.ReadableBytes()
    {
      ResumeStep(f, delivered, buf.Contents(), old(buf.Contents()));
      delivered := delivered + [pass.msg];
      buf.Retrieve(pass.size);
      pass := Pass(w, buf);
    }
    ConsumedIsFrames(w, old(buf.Contents()));
  }
}
