/**
 * java.nio.ByteBuffer's big-endian layout of `short` and `long` values, and the
 * readings that invert it.
 */
module ByteBuffers {
  import opened JavaLang

  type byte = x: int | 0 <= x < 256

  function Pow256(n: nat): (r: nat)
    ensures r >= 1
  {
    if n == 0 then 1 else 256 * Pow256(n - 1)
  }

  /** The n low-order bytes of v, most significant first. */
  function BigEndian(v: nat, n: nat): (bs: seq<byte>)
    ensures |bs| == n
  {
    if n == 0 then [] else BigEndian(v / 256, n - 1) + [v % 256]
  }

  /** The unsigned number whose big-endian bytes are bs. */
  function FromBigEndian(bs: seq<byte>): nat {
    if bs == [] then 0 else FromBigEndian(bs[..|bs| - 1]) * 256 + bs[|bs| - 1]
  }

  lemma MulAtLeast(d: int, m: int)
    requires d >= 1 && m > 0
    ensures d * m >= m
  {
  }

  /** Division and remainder are determined by any decomposition v == k * m + x with 0 <= x < m. */
  lemma DivModUnique(v: int, m: int, k: int, x: int)
    requires m > 0 && v == k * m + x && 0 <= x < m
    ensures v / m == k && v % m == x
  {
    var d := v / m - k;
    assert d * m == x - v % m;
    if d >= 1 {
      MulAtLeast(d, m);
    } else if d <= -1 {
      MulAtLeast(-d, m);
    }
  }

  lemma DivModStep(v: nat, m: nat)
    requires m >= 1
    ensures (v / 256) % m * 256 + v % 256 == v % (256 * m)
  {
    var q, r := v / 256, v % 256;
    var q1, q2 := q / m, q % m;
    assert v == q * 256 + r;
    assert q == q1 * m + q2;
    assert v == q1 * (256 * m) + (q2 * 256 + r);
    DivModUnique(v, 256 * m, q1, q2 * 256 + r);
  }

  /** Reading back the bytes BigEndian writes gives v modulo 256^n. */
  lemma {:induction false} BigEndianRoundTrip(v: nat, n: nat)
    ensures FromBigEndian(BigEndian(v, n)) == v % Pow256(n)
  {
    if n > 0 {
      BigEndianRoundTrip(v / 256, n - 1);
      var bs := BigEndian(v, n);
      assert bs[..|bs| - 1] == BigEndian(v / 256, n - 1);
      DivModStep(v, Pow256(n - 1));
    }
  }

  /** ByteBuffer.putLong: the eight bytes of v's two's-complement form. */
  function PutLong(v: Int64): (bs: seq<byte>)
    ensures |bs| == 8
  {
    BigEndian(if v < 0 then v + TWO_64 else v, 8)
  }

  /** ByteBuffer.getLong on eight bytes. */
  function GetLong(bs: seq<byte>): Int64
    requires |bs| == 8
  {
    var u := FromBigEndian(bs) % TWO_64;
    if u >= TWO_63 then u - TWO_64 else u
  }

  /** Eight bytes hold exactly the 64-bit values. */
  lemma Pow256Eight()
    ensures Pow256(8) == TWO_64
  {
    assert Pow256(2) == 0x1_0000;
    assert Pow256(4) == 0x1_0000_0000 by {
      assert Pow256(3) == 0x100_0000;
    }
    assert Pow256(6) == 0x1_0000_0000_0000 by {
      assert Pow256(5) == 0x100_0000_0000;
    }
    assert Pow256(7) == 0x100_0000_0000_0000;
  }

  lemma PutLongRoundTrip(v: Int64)
    ensures GetLong(PutLong(v)) == v
  {
    var u: nat := if v < 0 then v + TWO_64 else v;
    var bs := PutLong(v);
    assert bs == BigEndian(u, 8);
    BigEndianRoundTrip(u, 8);
    Pow256Eight();
    DivModUnique(u, TWO_64, 0, u);
    assert FromBigEndian(bs) == u;
  }

  /** ByteBuffer.putShort on the 16-bit pattern of a short. */
  function PutShort(bits: int): (bs: seq<byte>)
    requires 0 <= bits < 0x10000
    ensures |bs| == 2 && bs[0] as int * 256 + bs[1] as int == bits
  {
    [bits / 256, bits % 256]
  }
}
