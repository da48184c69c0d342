/** Bytes and the big-endian 32-bit integers of the wire format. */
module Endian {
  type Byte = b: int | 0 <= b < 0x100
  type Int32 = i: int | -0x8000_0000 <= i < 0x8000_0000

  const TWO_32 := 0x1_0000_0000

  /** `static_cast<int32_t>`: the value kept by the low 32 bits. */
  function ToInt32(x: int): (r: Int32)
    ensures -0x8000_0000 <= x < 0x8000_0000 ==> r == x
    ensures r % TWO_32 == x % TWO_32
  {
    var u := x % TWO_32;
    if u < 0x8000_0000 then u else u - TWO_32
  }

  /** The four bytes that `hostToNetwork32` leaves in memory, most significant first. */
  function HostToNetwork32(x: Int32): (s: seq<Byte>)
    ensures |s| == 4
  {
    var u := x % TWO_32;
    [u / 0x100_0000, u / 0x1_0000 % 0x100, u / 0x100 % 0x100, u % 0x100]
  }

  function NetworkToHost32(s: seq<Byte>): (x: Int32)
    requires |s| == 4
  {
    ToInt32(s[0] as int * 0x100_0000 + s[1] as int * 0x1_0000 + s[2] as int * 0x100 + s[3])
  }

  lemma DecodeEncode32(x: Int32)
    ensures NetworkToHost32(HostToNetwork32(x)) == x
  {
    var u := x % TWO_32;
    Digits(u);
    assert ToInt32(u) == x;
  }

  lemma Digits(u: nat)
    ensures u == u / 0x100_0000 * 0x100_0000 + u / 0x1_0000 % 0x100 * 0x1_0000 + u / 0x100 % 0x100 * 0x100 + u % 0x100
  {
    var v := u / 0x100;
    var w := v / 0x100;
    assert v == u / 0x100 && w == u / 0x1_0000 && w / 0x100 == u / 0x100_0000;
  }

  lemma EncodeDecode32(s: seq<Byte>)
    requires |s| == 4
    ensures HostToNetwork32(NetworkToHost32(s)) == s
  {
    var a, b, c, d: int := s[0], s[1], s[2], s[3];
    var u := ((a * 0x100 + b) * 0x100 + c) * 0x100 + d;
    assert ToInt32(u) % TWO_32 == u;
    Peel((a * 0x100 + b) * 0x100 + c, d);
    Peel(a * 0x100 + b, c);
    Peel(a, b);
    assert u / 0x1_0000 == u / 0x100 / 0x100 && u / 0x100_0000 == u / 0x1_0000 / 0x100;
  }

  lemma Peel(high: nat, low: Byte)
    ensures (high * 0x100 + low) / 0x100 == high && (high * 0x100 + low) % 0x100 == low
  {
  }

  /** The bytes read as one number, most significant first. */
  ghost function Numeral(s: seq<Byte>): nat {
    if s == [] then 0 else Numeral(s[..|s| - 1]) * 0x100 + s[|s| - 1]
  }

  lemma NumeralOfFour(s: seq<Byte>)
    requires |s| == 4
    ensures Numeral(s) == ((s[0] as int * 0x100 + s[1]) * 0x100 + s[2]) * 0x100 + s[3]
  {
    assert s[..3][..2] == s[..2] && s[..2][..1] == s[..1] && s[..1][..0] == [];
    assert Numeral(s[..1]) == Numeral(s[..1][..0]) * 0x100 + s[0];
    assert Numeral(s[..2]) == Numeral(s[..2][..1]) * 0x100 + s[1];
    assert Numeral(s[..3]) == Numeral(s[..3][..2]) * 0x100 + s[2];
  }

  /** Network order: the four bytes are the base-256 digits of the unsigned value. */
  lemma EncodedNumeral(x: Int32)
    ensures Numeral(HostToNetwork32(x)) == x % TWO_32
  {
    Digits(x % TWO_32);
    NumeralOfFour(HostToNetwork32(x));
  }

  lemma DecodedNumeral(s: seq<Byte>)
    requires |s| == 4
    ensures NetworkToHost32(s) % TWO_32 == Numeral(s)
  {
    EncodeDecode32(s);
    EncodedNumeral(NetworkToHost32(s));
  }
}
