/**
 The frame format of `ProtoRpcCodec`: a length word, the tag "RPC0", the payload and an
 Adler-32 word, together with the incremental decoder. Protobuf itself is a parameter, a
 `Wire` record holding a serializer and a parser.
 */
module RpcCodec {
  import opened Wrappers
  import opened Endian
  import opened Adler32
  import opened Framing

  const HEADER_LEN := 4
  const CHECKSUM_LEN := 4
  const MIN_MESSAGE_LEN := 4
  const MAX_MESSAGE_LEN := 64 * 1024 * 1024
  const INT32_MAX := 0x7fff_ffff
  const TAG: seq<Byte> := [0x52, 0x50, 0x43, 0x30]

  /** Protobuf seen from the codec: how a message becomes bytes and back. */
  datatype Wire<!M> = Wire(serialize: M -> seq<Byte>, parse: seq<Byte> -> Option<M>)

  /** Protobuf gives the message back. */
  ghost predicate RoundTrips<M>(w: Wire<M>, m: M) {
    w.parse(w.serialize(m)) == Some(m)
  }

  /** The size arithmetic of `serializeToBuffer` stays within `int`. */
  ghost predicate Representable<M>(w: Wire<M>, m: M) {
    |w.serialize(m)| + CHECKSUM_LEN <= INT32_MAX
  }

  /** The length word of the frame is one that the decoder admits. */
  predicate Fits<M>(w: Wire<M>, m: M) {
    |w.serialize(m)| + |TAG| + CHECKSUM_LEN <= MAX_MESSAGE_LEN
  }

  // ---- Parsing one frame body ----------------------------------------------------

  datatype ErrorCode = InvalidLength | CheckSumError | InvalidNameLen | UnknownMessageType | ParseError
  datatype ParseResult<+M> = Parsed(msg: M) | Failed(code: ErrorCode)

  predicate ValidateChecksum(body: seq<Byte>)
    requires |body| >= CHECKSUM_LEN
  {
    var n := |body| - CHECKSUM_LEN;
    Checksum(body[..n]) == NetworkToHost32(body[n..])
  }

  /**
   The length check lets 4 to 7 through, but no body that short satisfies both the checksum
   and the tag: the tag bytes force small sums, whose high byte is never the next tag byte.
   */
  lemma ShortBodyRejected(body: seq<Byte>)
    requires CHECKSUM_LEN <= |body| < |TAG| + CHECKSUM_LEN
    requires ValidateChecksum(body)
    ensures body[..|TAG|] != TAG
  {
    var n := |body| - CHECKSUM_LEN;
    if body[..n] == TAG[..n] {
      var s := SumsOf(body[..n]);
      TagSums(n);
      HighByte(s);
      EncodeDecode32(body[n..]);
      assert body[..|TAG|][n] == body[n..][0] == s.b / 0x100 < 2;
    } else {
      assert body[..|TAG|][..n] == body[..n];
    }
  }

  lemma HighByte(s: Sums)
    requires s.a < BASE && s.b < 0x8000
    ensures HostToNetwork32(ToInt32(s.b * 0x1_0000 + s.a))[0] == s.b / 0x100
  {
  }

  /** The sums of a proper prefix of the tag are small. */
  lemma TagSums(n: nat)
    requires n < |TAG|
    ensures SumsOf(TAG[..n]).b < 0x200
  {
    var t1, t2, t3 := TAG[..1], TAG[..2], TAG[..3];
    assert t1[..0] == [] && t2[..1] == t1 && t3[..2] == t2;
    assert SumsOf([]) == Sums(1, 0);
    assert SumsOf(t1) == Sums(83, 83);
    assert SumsOf(t2) == Sums(163, 246);
    assert SumsOf(t3) == Sums(230, 476);
    assert n == 0 ==> TAG[..n] == [];
  }

  /** `parse`. The payload slice is well defined because short bodies never reach it. */
  function Parse<M>(w: Wire<M>, body: seq<Byte>): (r: ParseResult<M>)
    requires |body| >= CHECKSUM_LEN
    ensures r.Parsed? ==> |body| >= |TAG| + CHECKSUM_LEN
  {
    if !ValidateChecksum(body) then Failed(CheckSumError)
    else if body[..|TAG|] != TAG then Failed(UnknownMessageType)
    else
      assert |body| >= |TAG| + CHECKSUM_LEN by {
        if |body| < |TAG| + CHECKSUM_LEN { ShortBodyRejected(body); }
      }
      match w.parse(body[|TAG|..|body| - CHECKSUM_LEN])
      case Some(m) => Parsed(m)
      case None => Failed(ParseError)
  }

  /** The checksum word of the body, and what it should be. */
  ghost predicate Checked(body: seq<Byte>)
    requires |body| >= CHECKSUM_LEN
  {
    body[|body| - CHECKSUM_LEN..] == HostToNetwork32(Checksum(body[..|body| - CHECKSUM_LEN]))
  }

  lemma CheckedIsValid(body: seq<Byte>)
    requires |body| >= CHECKSUM_LEN
    ensures ValidateChecksum(body) <==> Checked(body)
  {
    var n := |body| - CHECKSUM_LEN;
    EncodeDecode32(body[n..]);
    DecodeEncode32(Checksum(body[..n]));
  }

  /** Exactly when each result comes, in the bytes of the body. */
  lemma ParseOutcome<M>(w: Wire<M>, body: seq<Byte>)
    requires |body| >= CHECKSUM_LEN
    ensures var r, n := Parse(w, body), |body| - CHECKSUM_LEN;
            && (r == Failed(CheckSumError) <==> !Checked(body))
            && (r == Failed(UnknownMessageType) <==> Checked(body) && !(TAG <= body))
            && (r == Failed(ParseError) <==>
                  Checked(body) && TAG <= body && |TAG| <= n && w.parse(body[|TAG|..n]).None?)
            && (forall m :: r == Parsed(m) <==>
                  Checked(body) && TAG <= body && |TAG| <= n && w.parse(body[|TAG|..n]) == Some(m))
  {
    CheckedIsValid(body);
    if ValidateChecksum(body) && |body| < |TAG| + CHECKSUM_LEN { ShortBodyRejected(body); }
  }

  // ---- What corruption does to a frame body ---------------------------------------

  /** Any one byte changed after the length word, in data or checksum, is reported. */
  lemma AnySubstitutionRejected<M>(w: Wire<M>, body: seq<Byte>, k: nat, y: Byte)
    requires |body| >= CHECKSUM_LEN && ValidateChecksum(body)
    requires k < |body| && y != body[k]
    ensures Parse(w, body[k := y]) == Failed(CheckSumError)
  {
    var n, changed := |body| - CHECKSUM_LEN, body[k := y];
    if k < n {
      assert changed[..n] == body[..n][k := y] && changed[n..] == body[n..];
      SubstitutionDetected(body[..n], k, y);
    } else {
      assert changed[..n] == body[..n] && changed[n..] == body[n..][k - n := y];
      assert changed[n..][k - n] != body[n..][k - n];
      EncodeDecode32(body[n..]);
      EncodeDecode32(changed[n..]);
    }
  }

  /** Exchanging two unequal tag or payload bytes escapes the checksum only at multiples of 65521. */
  lemma SwapRejectedIff<M>(w: Wire<M>, body: seq<Byte>, i: nat, j: nat)
    requires |body| >= CHECKSUM_LEN && ValidateChecksum(body)
    requires i < j < |body| - CHECKSUM_LEN && body[i] != body[j]
    ensures Parse(w, Swapped(body, i, j)) == Failed(CheckSumError) <==> (j - i) % BASE != 0
  {
    var n, changed := |body| - CHECKSUM_LEN, Swapped(body, i, j);
    assert changed[..n] == Swapped(body[..n], i, j) && changed[n..] == body[n..];
    SwapUnnoticedIff(body[..n], i, j);
  }

  // ---- The decoder ----------------------------------------------------------------

  /** One pass of the `onMessage` loop; the error code of a refused frame is discarded there. */
  function DecodeOne<M>(w: Wire<M>, buf: seq<Byte>): (r: Step<M>)
    ensures r.Deliver? ==> HEADER_LEN + |TAG| + CHECKSUM_LEN <= r.size <= |buf|
  {
    if |buf| < MIN_MESSAGE_LEN + HEADER_LEN then Wait
    else
      var len := NetworkToHost32(buf[..HEADER_LEN]);
      if len > MAX_MESSAGE_LEN || len < MIN_MESSAGE_LEN then Reject
      else if |buf| >= HEADER_LEN + len then
        match Parse(w, buf[HEADER_LEN..HEADER_LEN + len])
        case Parsed(m) => Deliver(m, HEADER_LEN + len)
        case Failed(code) => Reject
      else Wait
  }

  /** A payload in its frame. */
  function Framed(p: seq<Byte>): (f: seq<Byte>)
    requires |p| + |TAG| + CHECKSUM_LEN <= MAX_MESSAGE_LEN
    ensures |f| == |p| + HEADER_LEN + |TAG| + CHECKSUM_LEN
  {
    HostToNetwork32(|p| + |TAG| + CHECKSUM_LEN) + TAG + p + HostToNetwork32(Checksum(TAG + p))
  }

  /** The buffer begins with the frame of payload `p`, which protobuf reads as `m`. */
  ghost predicate Carries<M>(w: Wire<M>, buf: seq<Byte>, p: seq<Byte>, m: M) {
    |p| + |TAG| + CHECKSUM_LEN <= MAX_MESSAGE_LEN && Framed(p) <= buf && w.parse(p) == Some(m)
  }

  ghost predicate Ready<M>(w: Wire<M>, buf: seq<Byte>, p: seq<Byte>) {
    w.parse(p).Some? && Carries(w, buf, p, w.parse(p).value)
  }

  /** A pass delivers exactly what is framed at the front of the buffer. */
  lemma DeliveredIff<M>(w: Wire<M>, buf: seq<Byte>, m: M, n: nat)
    ensures DecodeOne(w, buf) == Deliver(m, n) <==> exists p :: Carries(w, buf, p, m) && n == |Framed(p)|
  {
    if DecodeOne(w, buf) == Deliver(m, n) {
      var p := DeliveredIsFramed(w, buf, m, n);
    }
    forall p | Carries(w, buf, p, m) && n == |Framed(p)| ensures DecodeOne(w, buf) == Deliver(m, n) {
      FramedIsDelivered(w, buf, p, m);
    }
  }

  /** What stands in the frame behind the length word. */
  function Body(p: seq<Byte>): (b: seq<Byte>)
    ensures |b| == |p| + |TAG| + CHECKSUM_LEN
  {
    TAG + p + HostToNetwork32(Checksum(TAG + p))
  }

  lemma FramedParts(p: seq<Byte>)
    requires |p| + |TAG| + CHECKSUM_LEN <= MAX_MESSAGE_LEN
    ensures Framed(p) == HostToNetwork32(|p| + |TAG| + CHECKSUM_LEN) + Body(p)
  {
  }

  /** A body with its checksum and tag in order is that of the payload between them. */
  lemma CheckedBody(body: seq<Byte>) returns (p: seq<Byte>)
    requires |body| >= |TAG| + CHECKSUM_LEN && Checked(body) && TAG <= body
    ensures body == Body(p) && p == body[|TAG|..|body| - CHECKSUM_LEN]
  {
    var n := |body| - CHECKSUM_LEN;
    p := body[|TAG|..n];
    assert body[..n] == TAG + p;
    assert body == body[..n] + body[n..];
  }

  lemma BodyChecked(p: seq<Byte>)
    ensures var b := Body(p); Checked(b) && TAG <= b && b[|TAG|..|b| - CHECKSUM_LEN] == p
  {
    var b := Body(p);
    assert b[..|b| - CHECKSUM_LEN] == TAG + p;
  }

  lemma DeliveredIsFramed<M>(w: Wire<M>, buf: seq<Byte>, m: M, n: nat) returns (p: seq<Byte>)
    requires DecodeOne(w, buf) == Deliver(m, n)
    ensures Carries(w, buf, p, m) && n == |Framed(p)|
  {
    var body := buf[HEADER_LEN..n];
    ParseOutcome(w, body);
    p := CheckedBody(body);
    EncodeDecode32(buf[..HEADER_LEN]);
    FramedParts(p);
    assert buf[..n] == buf[..HEADER_LEN] + body;
  }

  lemma FramedSlices(buf: seq<Byte>, p: seq<Byte>)
    requires |p| + |TAG| + CHECKSUM_LEN <= MAX_MESSAGE_LEN && Framed(p) <= buf
    ensures buf[..HEADER_LEN] == HostToNetwork32(|Body(p)|) && buf[HEADER_LEN..|Framed(p)|] == Body(p)
  {
    FramedParts(p);
    assert buf[..|Framed(p)|] == HostToNetwork32(|Body(p)|) + Body(p);
  }

  lemma FramedIsDelivered<M>(w: Wire<M>, buf: seq<Byte>, p: seq<Byte>, m: M)
    requires Carries(w, buf, p, m)
    ensures DecodeOne(w, buf) == Deliver(m, |Framed(p)|)
  {
    FramedSlices(buf, p);
    DecodeEncode32(|Body(p)|);
    BodyChecked(p);
    ParseOutcome(w, Body(p));
  }

  /** The length word at the front, as a signed base-256 numeral. */
  ghost function LengthWord(buf: seq<Byte>): int
    requires |buf| >= HEADER_LEN
  {
    ToInt32(Numeral(buf[..HEADER_LEN]))
  }

  /** A pass waits exactly for the rest of a length word and tag, or of a body of admitted length. */
  lemma WaitsIff<M>(w: Wire<M>, buf: seq<Byte>)
    ensures DecodeOne(w, buf).Wait? <==>
              || |buf| < HEADER_LEN + MIN_MESSAGE_LEN
              || (MIN_MESSAGE_LEN <= LengthWord(buf) <= MAX_MESSAGE_LEN && |buf| < HEADER_LEN + LengthWord(buf))
  {
    if |buf| >= HEADER_LEN { DecodedNumeral(buf[..HEADER_LEN]); }
  }

  lemma DecodeOneStable<M>(w: Wire<M>, a: seq<Byte>, b: seq<Byte>)
    requires !DecodeOne(w, a).Wait?
    ensures DecodeOne(w, a + b) == DecodeOne(w, a)
  {
    assert (a + b)[..HEADER_LEN] == a[..HEADER_LEN];
    var len := NetworkToHost32(a[..HEADER_LEN]);
    if MIN_MESSAGE_LEN <= len <= MAX_MESSAGE_LEN {
      assert (a + b)[HEADER_LEN..HEADER_LEN + len] == a[HEADER_LEN..HEADER_LEN + len];
    }
  }

  // ---- Writing frames --------------------------------------------------------------

  /** The bytes `fillEmptyBuffer` leaves in the buffer. */
  function Frame<M>(w: Wire<M>, m: M): (f: seq<Byte>)
    ensures |f| == HEADER_LEN + |TAG| + |w.serialize(m)| + CHECKSUM_LEN
  {
    var data := TAG + w.serialize(m);
    HostToNetwork32(ToInt32(|data| + CHECKSUM_LEN)) + data + HostToNetwork32(Checksum(data))
  }

  /** A message that fits is written as its payload's frame. */
  lemma FrameIsFramed<M>(w: Wire<M>, m: M)
    requires Fits(w, m)
    ensures Frame(w, m) == Framed(w.serialize(m))
  {
  }

  lemma FrameHeader<M>(w: Wire<M>, m: M, tail: seq<Byte>)
    ensures NetworkToHost32((Frame(w, m) + tail)[..HEADER_LEN]) == ToInt32(|w.serialize(m)| + 8)
  {
    var len := ToInt32(|w.serialize(m)| + 8);
    assert (Frame(w, m) + tail)[..HEADER_LEN] == HostToNetwork32(len);
    DecodeEncode32(len);
  }

  lemma FrameBodyParses<M>(w: Wire<M>, m: M)
    requires RoundTrips(w, m)
    ensures Parse(w, Frame(w, m)[HEADER_LEN..]) == Parsed(m)
  {
    var data := TAG + w.serialize(m);
    var body := Frame(w, m)[HEADER_LEN..];
    var n := |body| - CHECKSUM_LEN;
    assert body[..n] == data && body[n..] == HostToNetwork32(Checksum(data));
    DecodeEncode32(Checksum(data));
    assert body[..|TAG|] == TAG && body[|TAG|..n] == w.serialize(m);
  }

  /** Round trip, with anything following. */
  lemma FrameDecodes<M>(w: Wire<M>, m: M, tail: seq<Byte>)
    requires RoundTrips(w, m) && Fits(w, m)
    ensures DecodeOne(w, Frame(w, m) + tail) == Deliver(m, |Frame(w, m)|)
  {
    var buf := Frame(w, m) + tail;
    FrameHeader(w, m, tail);
    FrameBodyParses(w, m);
    assert buf[HEADER_LEN..|Frame(w, m)|] == Frame(w, m)[HEADER_LEN..];
  }

  /** The encoder happily writes a frame that the decoder refuses. */
  lemma OversizeFrameRejected<M>(w: Wire<M>, m: M, tail: seq<Byte>)
    requires Representable(w, m) && !Fits(w, m)
    ensures DecodeOne(w, Frame(w, m) + tail) == Reject
  {
    FrameHeader(w, m, tail);
    OversizeLength(|w.serialize(m)| + 8);
  }

  lemma OversizeLength(n: nat)
    requires MAX_MESSAGE_LEN < n <= INT32_MAX + 4
    ensures ToInt32(n) > MAX_MESSAGE_LEN || ToInt32(n) < MIN_MESSAGE_LEN
  {
  }

  /** The RPC codec as an instance of incremental framing. */
  ghost function Rpc<M>(w: Wire<M>): Format<M> {
    Format(b => DecodeOne(w, b), m => Frame(w, m), m => Fits(w, m), m => RoundTrips(w, m) && Representable(w, m))
  }

  lemma RpcIsSound<M>(w: Wire<M>)
    ensures Sound(Rpc(w))
  {
    forall b ensures SoundAt(Rpc(w), b) {
      assert Rpc(w).step(b) == DecodeOne(w, b);
    }
  }

  /** The bytes are the frames of the messages, one behind the other. */
  ghost predicate MadeOf<M>(w: Wire<M>, bytes: seq<Byte>, ms: seq<M>)
    decreases |ms|
  {
    if ms == [] then bytes == []
    else exists p :: Carries(w, bytes, p, ms[0]) && MadeOf(w, bytes[|Framed(p)|..], ms[1..])
  }

  /** From `before` to `after`, just the frames of `ms` are gone from the front, and no whole frame is left there. */
  ghost predicate Consumes<M>(w: Wire<M>, before: seq<Byte>, after: seq<Byte>, ms: seq<M>) {
    var n := |before| - |after|;
    && n >= 0 && before[n..] == after && MadeOf(w, before[..n], ms)
    && forall p :: !Ready(w, after, p)
  }

  lemma ConsumesMore<M>(w: Wire<M>, buf: seq<Byte>, p: seq<Byte>, m: M, after: seq<Byte>, ms: seq<M>)
    requires Carries(w, buf, p, m) && Consumes(w, buf[|Framed(p)|..], after, ms)
    ensures Consumes(w, buf, after, [m] + ms)
  {
    var size, n := |Framed(p)|, |buf| - |after|;
    assert buf[size..][..n - size] == buf[..n][size..];
    assert Carries(w, buf[..n], p, m);
    assert ([m] + ms)[1..] == ms;
  }

  /** What the receive loop takes from the buffer is the frames of what it delivers. */
  lemma {:induction false} ConsumedIsFrames<M>(w: Wire<M>, buf: seq<Byte>)
    requires Sound(Rpc(w))
    ensures Consumes(w, buf, Decode(Rpc(w), buf).rest, Decode(Rpc(w), buf).msgs)
    decreases |buf|
  {
    assert SoundAt(Rpc(w), buf);
    match DecodeOne(w, buf)
    case Deliver(m, size) =>
      var d := Decode(Rpc(w), buf[size..]);
      ConsumedIsFrames(w, buf[size..]);
      var p := DeliveredIsFramed(w, buf, m, size);
      ConsumesMore(w, buf, p, m, d.rest, d.msgs);
    case _ =>
      forall p | Ready(w, buf, p) ensures false { FramedIsDelivered(w, buf, p, w.parse(p).value); }
  }

  /** Hence the streaming, chunking, blocking and prefix laws of `Framing` all hold of the codec. */
  lemma RpcIsLawful<M(!new)>(w: Wire<M>)
    ensures Lawful(Rpc(w))
  {
    var f := Rpc(w);
    RpcIsSound(w);
    forall a, b ensures StableAt(f, a, b) {
      if !DecodeOne(w, a).Wait? { DecodeOneStable(w, a, b); }
    }
    forall m, tail ensures ReadableAt(f, m, tail) {
      if RoundTrips(w, m) && Representable(w, m) {
        if Fits(w, m) { FrameDecodes(w, m, tail); } else { OversizeFrameRejected(w, m, tail); }
      }
    }
  }
}
