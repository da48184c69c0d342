/** Adler-32 as section 8.2 of RFC 1950 defines it, and which corruptions it notices. */
module Adler32 {
  import opened Endian

  /** The largest prime below 65536. */
  const BASE := 65521

  /** The two running sums, s1 and s2 in the RFC. */
  datatype Sums = Sums(a: nat, b: nat)

  function Update(s: Sums, x: Byte): Sums {
    var a := (s.a + x) % BASE;
    Sums(a, (s.b + a) % BASE)
  }

  function SumsOf(data: seq<Byte>): (s: Sums)
    ensures s.a < BASE && s.b < BASE
  {
    if data == [] then Sums(1, 0) else Update(SumsOf(data[..|data| - 1]), data[|data| - 1])
  }

  /** `checksum`: the 32-bit Adler value seen as an `int32_t`. */
  function Checksum(data: seq<Byte>): Int32 {
    var s := SumsOf(data);
    ToInt32(s.b * 0x1_0000 + s.a)
  }

  lemma ChecksumInjective(s: seq<Byte>, t: seq<Byte>)
    ensures Checksum(s) == Checksum(t) <==> SumsOf(s) == SumsOf(t)
  {
    PackInjective(SumsOf(s), SumsOf(t));
  }

  lemma PackInjective(s: Sums, t: Sums)
    requires s.a < BASE && s.b < BASE && t.a < BASE && t.b < BASE
    ensures ToInt32(s.b * 0x1_0000 + s.a) == ToInt32(t.b * 0x1_0000 + t.a) <==> s == t
  {
  }

  // ---- The sums without reduction -------------------------------------------------

  ghost function RawA(data: seq<Byte>): int {
    if data == [] then 1 else RawA(data[..|data| - 1]) + data[|data| - 1]
  }

  ghost function RawB(data: seq<Byte>): int {
    if data == [] then 0 else RawB(data[..|data| - 1]) + RawA(data)
  }

  lemma ModAdd(x: int, y: int)
    ensures (x % BASE + y) % BASE == (x + y) % BASE
  {
    var q := x / BASE;
    assert x + y == (x % BASE + y) + q * BASE;
  }

  lemma {:induction false} SumsAreRaw(data: seq<Byte>)
    ensures SumsOf(data) == Sums(RawA(data) % BASE, RawB(data) % BASE)
  {
    if data != [] {
      var front := data[..|data| - 1];
      SumsAreRaw(front);
      ModAdd(RawA(front), data[|data| - 1]);
      ModAdd(RawB(front), RawA(data) % BASE);
      ModAdd(RawA(data), RawB(front));
    }
  }

  /** The checksum word of the RFC: s2 in the high half, s1 in the low. */
  lemma ChecksumValue(data: seq<Byte>)
    ensures Checksum(data) % TWO_32 == RawB(data) % BASE * 0x1_0000 + RawA(data) % BASE
  {
    SumsAreRaw(data);
  }

  ghost function Total(data: seq<Byte>): nat {
    if data == [] then 0 else data[0] as nat + Total(data[1..])
  }

  /** The first byte counts as often as there are bytes, the last one once. */
  ghost function Weighted(data: seq<Byte>): nat {
    if data == [] then 0 else |data| * data[0] + Weighted(data[1..])
  }

  lemma {:induction false} TotalAppend(data: seq<Byte>, x: Byte)
    ensures Total(data + [x]) == Total(data) + x
  {
    if data == [] {
      assert (data + [x])[1..] == [];
    } else {
      assert (data + [x])[1..] == data[1..] + [x];
      TotalAppend(data[1..], x);
    }
  }

  lemma {:induction false} WeightedAppend(data: seq<Byte>, x: Byte)
    ensures Weighted(data + [x]) == Weighted(data) + Total(data) + x
  {
    if data == [] {
      assert (data + [x])[1..] == [];
    } else {
      assert (data + [x])[1..] == data[1..] + [x] && (data + [x])[0] == data[0];
      WeightedAppend(data[1..], x);
      OneMore(|data|, data[0]);
    }
  }

  lemma OneMore(n: nat, x: int)
    ensures (n + 1) * x == n * x + x
  {
  }

  /** s1 is one more than the sum of the bytes, s2 their number plus their weighted sum. */
  lemma {:induction false} RawSums(data: seq<Byte>)
    ensures RawA(data) == 1 + Total(data)
    ensures RawB(data) == |data| + Weighted(data)
  {
    if data != [] {
      var n := |data| - 1;
      RawSums(data[..n]);
      TotalAppend(data[..n], data[n]);
      WeightedAppend(data[..n], data[n]);
      assert data[..n] + [data[n]] == data;
    }
  }

  /** The worked values: nothing, "ab" and "abc". */
  lemma ChecksumSamples()
    ensures Checksum([]) == 1
    ensures Checksum([0x61, 0x62]) == 0x0126_00C4
    ensures Checksum([0x61, 0x62, 0x63]) == 0x024D_0127
  {
    assert [0x61, 0x62, 0x63][..2] == [0x61, 0x62] && [0x61, 0x62][..1] == [0x61] && [0x61][..0] == [];
    assert SumsOf([]) == Sums(1, 0);
    assert SumsOf([0x61]) == Sums(98, 98);
    assert SumsOf([0x61, 0x62]) == Sums(196, 294);
    assert SumsOf([0x61, 0x62, 0x63]) == Sums(295, 589);
  }

  /** Replacing one byte shifts s1 by the difference ... */
  lemma {:induction false} RawReplaceA(data: seq<Byte>, k: nat, y: Byte)
    requires k < |data|
    ensures RawA(data[k := y]) == RawA(data) + (y - data[k])
  {
    var n := |data| - 1;
    if k == n {
      assert data[k := y][..n] == data[..n];
    } else {
      RawReplaceA(data[..n], k, y);
      assert data[k := y][..n] == data[..n][k := y];
    }
  }

  /** ... and s2 by that difference once for every position from there on. */
  lemma {:induction false} RawReplaceB(data: seq<Byte>, k: nat, n: nat, x: Byte, y: Byte)
    requires k < |data| == n && data[k] == x
    ensures RawB(data[k := y]) == RawB(data) + (n - k) * (y as int - x)
  {
    var m, d: int := n - 1, y as int - x;
    RawReplaceA(data, k, y);
    if k == m {
      assert data[k := y][..m] == data[..m];
    } else {
      RawReplaceB(data[..m], k, m, x, y);
      assert data[k := y][..m] == data[..m][k := y];
      assert (m - k) * d + d == (n - k) * d;
    }
  }

  // ---- BASE has no small factor --------------------------------------------------

  lemma NoByteFactor(c: nat)
    requires 2 <= c < 0x100
    ensures BASE % c != 0
  {
    NoByteDivisor(c, BASE / c);
  }

  lemma NoByteDivisor(c: nat, q: int)
    requires 2 <= c < 0x100
    ensures c * q != 65521
  {
  }

  /** A byte difference is invertible modulo BASE, so only multiples of BASE vanish against it. */
  lemma {:induction false} ByteCancels(d: int, c: nat)
    requires 0 < c < 0x100
    requires d * c % BASE == 0
    ensures d % BASE == 0
    decreases c
  {
    if c > 1 {
      NoByteFactor(c);
      var q, r := BASE / c, BASE % c;
      var m := d * c / BASE;
      assert d * c == m * BASE;
      assert d * r == (d - m * q) * BASE by {
        calc {
          d * r;
          d * (BASE - q * c);
          d * BASE - q * (d * c);
          d * BASE - q * (m * BASE);
          (d - m * q) * BASE;
        }
      }
      MultipleOfBase(d - m * q);
      ByteCancels(d, r);
    }
  }

  lemma MultipleOfBase(k: int)
    ensures k * BASE % BASE == 0
  {
  }

  lemma SameResidue(x: int, d: int)
    ensures (x + d) % BASE == x % BASE <==> d % BASE == 0
  {
    if (x + d) % BASE == x % BASE {
      assert d == ((x + d) / BASE - x / BASE) * BASE;
    }
  }

  // ---- Corruptions ---------------------------------------------------------------

  lemma ResidueMoves(x: int, d: int)
    requires -0x100 < d < 0x100 && d != 0
    ensures (x + d) % BASE != x % BASE
  {
    SameResidue(x, d);
  }

  /** No single-byte substitution survives the checksum, whatever the length of the data. */
  lemma SubstitutionDetected(data: seq<Byte>, k: nat, y: Byte)
    requires k < |data| && y != data[k]
    ensures Checksum(data[k := y]) != Checksum(data)
  {
    var changed := data[k := y];
    assert SumsOf(changed) != SumsOf(data) by {
      RawReplaceA(data, k, y);
      SumsAreRaw(data);
      SumsAreRaw(changed);
      ResidueMoves(RawA(data), y - data[k]);
    }
    ChecksumInjective(changed, data);
  }

  function Swapped(data: seq<Byte>, i: nat, j: nat): (r: seq<Byte>)
    requires i < |data| && j < |data|
    ensures |r| == |data|
  {
    data[i := data[j]][j := data[i]]
  }

  lemma Telescope(b0: int, b1: int, b2: int, n: int, i: int, j: int, x: int, y: int)
    requires b1 == b0 + (n - i) * (y - x)
    requires b2 == b1 + (n - j) * (x - y)
    ensures b2 == b0 + (j - i) * (y - x)
  {
  }

  lemma RawSwapA(data: seq<Byte>, i: nat, j: nat)
    requires i < j < |data|
    ensures RawA(Swapped(data, i, j)) == RawA(data)
  {
    RawReplaceA(data, i, data[j]);
    RawReplaceA(data[i := data[j]], j, data[i]);
  }

  lemma RawSwapB(data: seq<Byte>, i: nat, j: nat, x: Byte, y: Byte)
    requires i < j < |data| && data[i] == x && data[j] == y
    ensures RawB(Swapped(data, i, j)) == RawB(data) + (j - i) * (y as int - x)
  {
    var n, mid := |data|, data[i := y];
    var b0, b1, b2 := RawB(data), RawB(mid), RawB(mid[j := x]);
    assert b1 == b0 + (n - i) * (y as int - x) by { RawReplaceB(data, i, n, x, y); }
    assert b2 == b1 + (n - j) * (x as int - y) by { RawReplaceB(mid, j, n, y, x); }
    Telescope(b0, b1, b2, n, i, j, x, y);
  }

  /** Exchanging two different bytes goes unnoticed exactly when BASE divides their distance. */
  lemma SwapUnnoticedIff(data: seq<Byte>, i: nat, j: nat)
    requires i < j < |data| && data[i] != data[j]
    ensures Checksum(Swapped(data, i, j)) == Checksum(data) <==> (j - i) % BASE == 0
  {
    var delta: int := data[j] as int - data[i];
    RawSwapA(data, i, j);
    RawSwapB(data, i, j, data[i], data[j]);
    SumsAreRaw(data);
    SumsAreRaw(Swapped(data, i, j));
    SameResidue(RawB(data), (j - i) * delta);
    ChecksumInjective(Swapped(data, i, j), data);
    DeltaCancels(j - i, delta);
  }

  lemma DeltaCancels(d: int, delta: int)
    requires -0x100 < delta < 0x100 && delta != 0
    ensures d * delta % BASE == 0 <==> d % BASE == 0
  {
    if d % BASE == 0 {
      assert d * delta == (d / BASE * delta) * BASE;
      MultipleOfBase(d / BASE * delta);
    } else if d * delta % BASE == 0 {
      if delta > 0 {
        ByteCancels(d, delta);
      } else {
        assert d * -delta == -(d * delta / BASE) * BASE;
        MultipleOfBase(-(d * delta / BASE));
        ByteCancels(d, -delta);
      }
      assert false;
    }
  }
}
