/**
 `Buffer`: a byte vector with a read index and a write index. Its readable region behaves
 as a plain byte sequence under every operation.
 */
module Buffers {
  import opened Endian

  const CHEAP_PREPEND := 8
  const INITIAL_SIZE := 4 * 1024
  const EXTRA_SIZE := 1024 * 1024

  function Max(a: int, b: int): int { if a >= b then a else b }

  /** What `readv` may return: an error, or at most the bytes it was given room for. */
  datatype ReadResult = ReadError | Bytes(data: seq<Byte>)

  class Buffer {
    var storage: array<Byte>
    var readerIndex: nat
    var writerIndex: nat

    /** The `initialSize` given to the constructor. */
    ghost const initialSize: nat
    /** The largest readable-plus-requested count `EnsureWritableBytes` has seen. */
    ghost var demand: nat

    /** Index order, and the bounds on the vector's size that hold over any run. */
    ghost predicate Valid()
      reads this
    {
      && readerIndex <= writerIndex <= storage.Length
      && CHEAP_PREPEND + initialSize <= storage.Length
      && storage.Length <= Max(CHEAP_PREPEND + initialSize, 2 * demand + 7)
    }

    /** The vector is the old one, or a fresh one that is no smaller. */
    twostate predicate Grown()
      reads this
    {
      (storage == old(storage) || fresh(storage)) && storage.Length >= old(storage.Length)
    }

    ghost function Contents(): (s: seq<Byte>)
      requires Valid()
      reads this, storage
    {
      storage[readerIndex..writerIndex]
    }

    constructor (size: nat)
      ensures Valid() && fresh(storage) && Contents() == []
      ensures readerIndex == CHEAP_PREPEND && storage.Length == CHEAP_PREPEND + size
      ensures initialSize == size && demand == 0
    {
      storage := new Byte[CHEAP_PREPEND + size];
      readerIndex, writerIndex := CHEAP_PREPEND, CHEAP_PREPEND;
      initialSize, demand := size, 0;
    }

    function ReadableBytes(): (n: nat)
      requires Valid()
      reads this, storage
      ensures n == |Contents()|
    {
      writerIndex - readerIndex
    }

    function WritableBytes(): nat
      requires Valid()
      reads this
    {
      storage.Length - writerIndex
    }

    function PrependableBytes(): nat
      reads this
    {
      readerIndex
    }

    /** Drops the first `len` bytes; emptying the buffer resets both indices. */
    method Retrieve(len: nat)
      requires Valid() && len <= ReadableBytes()
      modifies this`readerIndex, this`writerIndex
      ensures Valid()
      ensures Contents() == old(Contents())[len..]
      ensures Contents() == [] ==> readerIndex == CHEAP_PREPEND
    {
      if len < ReadableBytes() {
        readerIndex := readerIndex + len;
      } else {
        RetrieveAll();
      }
    }

    method RetrieveAll()
      requires Valid()
      modifies this`readerIndex, this`writerIndex
      ensures Valid() && Contents() == [] && readerIndex == CHEAP_PREPEND
    {
      readerIndex, writerIndex := CHEAP_PREPEND, CHEAP_PREPEND;
    }

    method RetrieveAsString(len: nat) returns (r: seq<Byte>)
      requires Valid() && len <= ReadableBytes()
      modifies this`readerIndex, this`writerIndex
      ensures Valid()
      ensures r + Contents() == old(Contents()) && |r| == len
    {
      r := storage[readerIndex..readerIndex + len];
      Retrieve(len);
    }

    /** `ensureWritableBytes`: room for `len` more bytes, with the contents untouched. */
    method EnsureWritableBytes(len: nat)
      requires Valid()
      modifies this, storage
      ensures Valid() && Grown() && Contents() == old(Contents())
      ensures WritableBytes() >= len
      ensures demand == Max(old(demand), |Contents()| + len)
      ensures readerIndex == old(readerIndex) || readerIndex == CHEAP_PREPEND < old(readerIndex)
    {
      demand := Max(demand, ReadableBytes() + len);
      if WritableBytes() < len {
        MakeSpace(len);
      }
    }

    /** `makeSpace`: grow the vector, or slide the readable bytes down over the dead ones. */
    method MakeSpace(len: nat)
      requires Valid() && WritableBytes() < len && ReadableBytes() + len <= demand
      modifies this`storage, this`readerIndex, this`writerIndex, storage
      ensures Valid() && Grown() && Contents() == old(Contents())
      ensures WritableBytes() >= len
      ensures readerIndex == old(readerIndex) || readerIndex == CHEAP_PREPEND < old(readerIndex)
    {
      if WritableBytes() + PrependableBytes() < len + CHEAP_PREPEND {
        Resize(writerIndex + len);
      } else {
        assert CHEAP_PREPEND < readerIndex;
        SlideDown();
      }
    }

    /** `buffer_.resize(size)` for a larger size. */
    method Resize(size: nat)
      requires Valid() && storage.Length < size <= 2 * demand + 7
      modifies this`storage
      ensures Valid() && Grown() && Contents() == old(Contents()) && storage.Length == size
    {
      var grown := new Byte[size];
      forall i | 0 <= i < storage.Length {
        grown[i] := storage[i];
      }
      storage := grown;
    }

    /** The forward copy onto an overlapping, lower range. */
    method SlideDown()
      requires Valid() && CHEAP_PREPEND < readerIndex
      modifies this`readerIndex, this`writerIndex, storage
      ensures Valid() && Contents() == old(Contents()) && readerIndex == CHEAP_PREPEND
      ensures WritableBytes() == old(WritableBytes() + readerIndex) - CHEAP_PREPEND
    {
      var readable := ReadableBytes();
      ghost var was := Contents();
      var i := 0;
      while i < readable
        modifies storage
        invariant 0 <= i <= readable
        invariant storage[CHEAP_PREPEND..CHEAP_PREPEND + i] == was[..i]
        invariant storage[readerIndex + i..writerIndex] == was[i..]
      {
        storage[CHEAP_PREPEND + i] := storage[readerIndex + i];
        i := i + 1;
      }
      readerIndex := CHEAP_PREPEND;
      writerIndex := readerIndex + readable;
    }

    /** Copies `data` behind the readable bytes, where room has been made. */
    method Fill(data: seq<Byte>)
      requires Valid() && |data| <= WritableBytes()
      modifies this`writerIndex, storage
      ensures Valid() && Contents() == old(Contents()) + data
    {
      forall i | 0 <= i < |data| {
        storage[writerIndex + i] := data[i];
      }
      writerIndex := writerIndex + |data|;
    }

    method Append(data: seq<Byte>)
      requires Valid()
      modifies this, storage
      ensures Valid() && Grown() && Contents() == old(Contents()) + data
      ensures demand == Max(old(demand), |old(Contents())| + |data|)
      ensures readerIndex == old(readerIndex) || readerIndex == CHEAP_PREPEND < old(readerIndex)
    {
      EnsureWritableBytes(|data|);
      Fill(data);
    }

    method Unwrite(len: nat)
      requires Valid() && len <= ReadableBytes()
      modifies this`writerIndex
      ensures Valid() && Contents() == old(Contents())[..|old(Contents())| - len]
    {
      writerIndex := writerIndex - len;
    }

    method Prepend(data: seq<Byte>)
      requires Valid() && |data| <= PrependableBytes()
      modifies this`readerIndex, storage
      ensures Valid() && Contents() == data + old(Contents())
    {
      readerIndex := readerIndex - |data|;
      forall i | 0 <= i < |data| {
        storage[readerIndex + i] := data[i];
      }
    }

    method AppendInt32(x: Int32)
      requires Valid()
      modifies this, storage
      ensures Valid() && Grown() && Contents() == old(Contents()) + HostToNetwork32(x)
      ensures readerIndex == old(readerIndex) || readerIndex == CHEAP_PREPEND < old(readerIndex)
    {
      Append(HostToNetwork32(x));
    }

    method PeekInt32() returns (x: Int32)
      requires Valid() && ReadableBytes() >= 4
      ensures x == NetworkToHost32(Contents()[..4])
    {
      var word := storage[readerIndex..readerIndex + 4];
      assert word == Contents()[..4];
      x := NetworkToHost32(word);
    }

    method ReadInt32() returns (x: Int32)
      requires Valid() && ReadableBytes() >= 4
      modifies this`readerIndex, this`writerIndex
      ensures Valid() && HostToNetwork32(x) + Contents() == old(Contents())
    {
      x := PeekInt32();
      EncodeDecode32(Contents()[..4]);
      Retrieve(4);
    }

    /** The room `readFd` offers to `readv`: the writable tail, plus a stack buffer when that is small. */
    function ReadCapacity(): nat
      requires Valid()
      reads this
    {
      WritableBytes() + if WritableBytes() < EXTRA_SIZE then EXTRA_SIZE else 0
    }

    /** `readFd`: exactly the bytes read are appended, even when they overflow into the stack buffer. */
    method ReadFd(result: ReadResult) returns (n: int)
      requires Valid()
      requires result.Bytes? ==> |result.data| <= ReadCapacity()
      modifies this, storage
      ensures Valid() && Grown()
      ensures result.ReadError? ==> n == -1 && Contents() == old(Contents())
      ensures result.Bytes? ==> n == |result.data| && Contents() == old(Contents()) + result.data
    {
      var writable := WritableBytes();
      match result
      case ReadError => n := -1;
      case Bytes(data) =>
        n := |data|;
        if n <= writable {
          Fill(data);
        } else {
          Fill(data[..writable]);
          assert writerIndex == storage.Length;
          Append(data[writable..]);
          assert data[..writable] + data[writable..] == data;
        }
    }
  }
}
