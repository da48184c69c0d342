/**
 Incremental decoding, independent of any frame format: a `step` inspects the front of a
 buffer, and the receive loop repeats it until it stops delivering. What the loop yields is
 a property of the byte stream alone, not of how reads cut it.
 */
module Framing {
  import opened Endian

  /** What one pass of the receive loop finds at the front of the buffer. */
  datatype Step<+M> = Wait | Reject | Deliver(msg: M, size: nat)

  /** `sendable` is what the encoder is given; of other messages nothing is said. */
  datatype Format<!M> = Format(step: seq<Byte> -> Step<M>, frame: M -> seq<Byte>, fits: M -> bool, sendable: M -> bool)

  /** A delivered frame is a nonempty front part of the buffer. */
  ghost predicate SoundAt<M>(f: Format<M>, b: seq<Byte>) {
    f.step(b).Deliver? ==> 0 < f.step(b).size <= |b|
  }

  ghost predicate Sound<M>(f: Format<M>) {
    forall b :: SoundAt(f, b)
  }

  /** Once a pass has an outcome, later bytes cannot change it. */
  ghost predicate StableAt<M>(f: Format<M>, a: seq<Byte>, b: seq<Byte>) {
    !f.step(a).Wait? ==> f.step(a + b) == f.step(a)
  }

  ghost predicate Stable<M>(f: Format<M>) {
    forall a, b :: StableAt(f, a, b)
  }

  /** The encoder's frames are decoded when they fit and refused for ever when they do not. */
  ghost predicate ReadableAt<M>(f: Format<M>, m: M, tail: seq<Byte>) {
    f.sendable(m) ==> f.step(f.frame(m) + tail) == if f.fits(m) then Deliver(m, |f.frame(m)|) else Reject
  }

  ghost predicate Readable<M(!new)>(f: Format<M>) {
    forall m, tail :: ReadableAt(f, m, tail)
  }

  ghost predicate Lawful<M(!new)>(f: Format<M>) {
    Sound(f) && Stable(f) && Readable(f)
  }

  datatype Decoded<+M> = Decoded(msgs: seq<M>, rest: seq<Byte>)

  /** The receive loop: the messages called back and the bytes left in the buffer. */
  ghost function Decode<M>(f: Format<M>, buf: seq<Byte>): Decoded<M>
    requires Sound(f)
    decreases |buf|
  {
    assert SoundAt(f, buf);
    match f.step(buf)
    case Deliver(m, size) =>
      var d := Decode(f, buf[size..]);
      Decoded([m] + d.msgs, d.rest)
    case _ => Decoded([], buf)
  }

  lemma EmptyWaits<M>(f: Format<M>)
    requires Sound(f)
    ensures Decode(f, []) == Decoded([], [])
  {
    assert SoundAt(f, []);
  }

  /** After delivering `msgs`, decoding `rest` completes the decoding of `all`. */
  ghost predicate Resumes<M>(f: Format<M>, msgs: seq<M>, rest: seq<Byte>, all: seq<Byte>)
    requires Sound(f)
  {
    var d := Decode(f, rest);
    Decode(f, all) == Decoded(msgs + d.msgs, d.rest)
  }

  lemma ResumeStep<M>(f: Format<M>, msgs: seq<M>, rest: seq<Byte>, all: seq<Byte>)
    requires Sound(f) && Resumes(f, msgs, rest, all) && f.step(rest).Deliver?
    ensures 0 < f.step(rest).size <= |rest|
    ensures Resumes(f, msgs + [f.step(rest).msg], rest[f.step(rest).size..], all)
  {
    assert SoundAt(f, rest);
    var Deliver(m, size) := f.step(rest);
    var d := Decode(f, rest[size..]);
    assert msgs + ([m] + d.msgs) == msgs + [m] + d.msgs;
  }

  /** Streaming law: splitting the input anywhere changes neither the messages nor the leftover. */
  lemma {:induction false} Streaming<M>(f: Format<M>, a: seq<Byte>, b: seq<Byte>)
    requires Sound(f) && Stable(f)
    ensures var d := Decode(f, a); var e := Decode(f, d.rest + b);
            Decode(f, a + b) == Decoded(d.msgs + e.msgs, e.rest)
    decreases |a|
  {
    assert SoundAt(f, a) && StableAt(f, a, b);
    match f.step(a)
    case Deliver(m, size) =>
      assert (a + b)[size..] == a[size..] + b;
      Streaming(f, a[size..], b);
      var d := Decode(f, a[size..]);
      var e := Decode(f, d.rest + b);
      assert [m] + (d.msgs + e.msgs) == [m] + d.msgs + e.msgs;
    case _ =>
      assert [] + Decode(f, a + b).msgs == Decode(f, a + b).msgs;
  }

  /** Feeding the decoder read by read, keeping the leftover in between. */
  ghost function Feed<M>(f: Format<M>, chunks: seq<seq<Byte>>): Decoded<M>
    requires Sound(f)
  {
    if chunks == [] then Decoded([], [])
    else
      var n := |chunks| - 1;
      var before := Feed(f, chunks[..n]);
      var now := Decode(f, before.rest + chunks[n]);
      Decoded(before.msgs + now.msgs, now.rest)
  }

  ghost function Joined(chunks: seq<seq<Byte>>): seq<Byte> {
    if chunks == [] then [] else Joined(chunks[..|chunks| - 1]) + chunks[|chunks| - 1]
  }

  /** However the reads cut the stream, the result is that of decoding it in one piece. */
  lemma {:induction false} ChunkingIrrelevant<M>(f: Format<M>, chunks: seq<seq<Byte>>)
    requires Sound(f) && Stable(f)
    ensures Feed(f, chunks) == Decode(f, Joined(chunks))
  {
    if chunks == [] {
      EmptyWaits(f);
    } else {
      var n := |chunks| - 1;
      ChunkingIrrelevant(f, chunks[..n]);
      Streaming(f, Joined(chunks[..n]), chunks[n]);
    }
  }

  lemma {:induction false} JoinedCons(head: seq<Byte>, chunks: seq<seq<Byte>>)
    ensures Joined([head] + chunks) == head + Joined(chunks)
  {
    var all := [head] + chunks;
    if chunks == [] {
      assert all[..0] == [];
      assert Joined(all) == Joined(all[..0]) + head;
    } else {
      var n := |chunks| - 1;
      assert all[..|all| - 1] == [head] + chunks[..n];
      JoinedCons(head, chunks[..n]);
    }
  }

  /** A rejected frame stays at the head for ever: nothing behind it is delivered, however it is cut. */
  lemma RejectedHeadBlocks<M>(f: Format<M>, head: seq<Byte>, chunks: seq<seq<Byte>>)
    requires Sound(f) && Stable(f) && f.step(head).Reject?
    ensures Feed(f, [head] + chunks) == Decoded([], head + Joined(chunks))
  {
    ChunkingIrrelevant(f, [head] + chunks);
    JoinedCons(head, chunks);
    assert StableAt(f, head, Joined(chunks));
  }

  // ---- Streams of frames -----------------------------------------------------------

  ghost function Frames<M>(f: Format<M>, ms: seq<M>): seq<Byte> {
    if ms == [] then [] else f.frame(ms[0]) + Frames(f, ms[1..])
  }

  lemma {:induction false} FramesAppend<M>(f: Format<M>, ms: seq<M>, m: M)
    ensures Frames(f, ms + [m]) == Frames(f, ms) + f.frame(m)
  {
    if ms != [] {
      assert (ms + [m])[1..] == ms[1..] + [m];
      FramesAppend(f, ms[1..], m);
    } else {
      assert [m][1..] == [];
    }
  }

  ghost predicate AllFit<M>(f: Format<M>, ms: seq<M>) {
    forall i :: 0 <= i < |ms| ==> f.fits(ms[i])
  }

  ghost predicate AllSendable<M>(f: Format<M>, ms: seq<M>) {
    forall i :: 0 <= i < |ms| ==> f.sendable(ms[i])
  }

  /** How many frames of the stream lie wholly in its first `n` bytes, before any that does not fit. */
  ghost function Whole<M>(f: Format<M>, ms: seq<M>, n: nat): (k: nat)
    ensures k <= |ms|
  {
    if ms == [] || !f.fits(ms[0]) || n < |f.frame(ms[0])| then 0
    else 1 + Whole(f, ms[1..], n - |f.frame(ms[0])|)
  }

  /** No proper part of one frame is delivered, nor any part of one that does not fit. */
  lemma PartialFrameHeld<M(!new)>(f: Format<M>, m: M, n: nat)
    requires Lawful(f) && f.sendable(m) && n <= |f.frame(m)|
    requires n < |f.frame(m)| || !f.fits(m)
    ensures !f.step(f.frame(m)[..n]).Deliver?
  {
    var part, rest := f.frame(m)[..n], f.frame(m)[n..];
    assert part + rest == f.frame(m) + [];
    assert ReadableAt(f, m, []) && StableAt(f, part, rest) && SoundAt(f, part);
  }

  /** From any prefix of a stream of frames the decoder delivers exactly the whole frames in it. */
  lemma {:induction false} PrefixDecodes<M(!new)>(f: Format<M>, ms: seq<M>, n: nat)
    requires Lawful(f) && AllSendable(f, ms) && n <= |Frames(f, ms)|
    ensures Decode(f, Frames(f, ms)[..n]).msgs == ms[..Whole(f, ms, n)]
    decreases |ms|
  {
    var buf := Frames(f, ms)[..n];
    if ms == [] {
      EmptyWaits(f);
    } else {
      var m, fr := ms[0], f.frame(ms[0]);
      assert AllSendable(f, ms[1..]);
      if n < |fr| {
        PartialFrameHeld(f, m, n);
        assert buf == fr[..n];
      } else {
        var rest := Frames(f, ms[1..])[..n - |fr|];
        assert buf == fr + rest && buf[|fr|..] == rest;
        assert ReadableAt(f, m, rest);
        if f.fits(m) {
          PrefixDecodes(f, ms[1..], n - |fr|);
          assert [m] + ms[1..][..Whole(f, ms, n) - 1] == ms[..Whole(f, ms, n)];
        }
      }
    }
  }

  lemma {:induction false} AllWholeIff<M>(f: Format<M>, ms: seq<M>, n: nat)
    requires n <= |Frames(f, ms)|
    ensures Whole(f, ms, n) == |ms| <==> AllFit(f, ms) && n == |Frames(f, ms)|
    decreases |ms|
  {
    if ms != [] && f.fits(ms[0]) && n >= |f.frame(ms[0])| {
      AllWholeIff(f, ms[1..], n - |f.frame(ms[0])|);
      assert AllFit(f, ms) <==> AllFit(f, ms[1..]) by {
        assert forall i :: 1 <= i < |ms| ==> ms[i] == ms[1..][i - 1];
      }
    }
  }

  /** All messages come out exactly when all bytes went in and every frame fits. */
  lemma StreamDeliveredIff<M(!new)>(f: Format<M>, ms: seq<M>, n: nat)
    requires Lawful(f) && AllSendable(f, ms) && n <= |Frames(f, ms)|
    ensures Decode(f, Frames(f, ms)[..n]).msgs <= ms
    ensures Decode(f, Frames(f, ms)[..n]).msgs == ms <==> AllFit(f, ms) && n == |Frames(f, ms)|
  {
    PrefixDecodes(f, ms, n);
    AllWholeIff(f, ms, n);
  }
}
