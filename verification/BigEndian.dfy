/** Integers in network byte order. */
module BigEndian {
  import opened Arithmetic

  type byte = x: int | 0 <= x < 256

  function Pow256(n: nat): (p: nat)
    ensures p > 0
  {
    if n == 0 then 1 else 256 * Pow256(n - 1)
  }

  /** The unsigned value of a field. */
  function Unsigned(field: seq<byte>): (v: nat)
    ensures v < Pow256(|field|)
  {
    if field == [] then 0 else Unsigned(field[..|field| - 1]) * 256 + field[|field| - 1]
  }

  /** The two's complement value of a field. */
  function Signed(field: seq<byte>): int {
    var v: int := Unsigned(field);
    if 2 * v >= Pow256(|field|) then v - Pow256(|field|) else v
  }

  predicate FitsSigned(v: int, size: nat) {
    0 <= Pow256(size) + 2 * v && 2 * v < Pow256(size)
  }

  function ToUnsigned(v: nat, size: nat): (field: seq<byte>)
    requires v < Pow256(size)
    ensures |field| == size
  {
    if size == 0 then [] else ToUnsigned(v / 256, size - 1) + [v % 256]
  }

  function ToSigned(v: int, size: nat): (field: seq<byte>)
    requires FitsSigned(v, size)
    ensures |field| == size
  {
    ToUnsigned(if v < 0 then v + Pow256(size) else v, size)
  }

  lemma {:induction false} UnsignedOfTo(v: nat, size: nat)
    requires v < Pow256(size)
    ensures Unsigned(ToUnsigned(v, size)) == v
  {
    if size == 0 {
    } else {
      UnsignedOfTo(v / 256, size - 1);
      var field := ToUnsigned(v, size);
      assert field[..size - 1] == ToUnsigned(v / 256, size - 1) && field[size - 1] == v % 256;
    }
  }

  lemma {:induction false} ToOfUnsigned(field: seq<byte>)
    ensures ToUnsigned(Unsigned(field), |field|) == field
  {
    if field == [] {
    } else {
      var n := |field| - 1;
      ToOfUnsigned(field[..n]);
      assert Unsigned(field) / 256 == Unsigned(field[..n]) && Unsigned(field) % 256 == field[n];
    }
  }

  /** The first byte counts most: a field is worth its front part, shifted by the size of
      its back part, and then its back part. */
  lemma {:induction false} UnsignedConcat(a: seq<byte>, b: seq<byte>)
    ensures Unsigned(a + b) == Unsigned(a) * Pow256(|b|) + Unsigned(b)
  {
    if b == [] {
      assert a + b == a;
    } else {
      var n := |b| - 1;
      UnsignedConcat(a, b[..n]);
      assert (a + b)[..|a + b| - 1] == a + b[..n];
      Shifted(Unsigned(a), Pow256(n), Unsigned(b[..n]), b[n]);
    }
  }

  lemma Shifted(a: nat, p: nat, b: nat, x: nat)
    ensures (a * p + b) * 256 + x == a * (256 * p) + (b * 256 + x)
  {
  }

  lemma UnsignedByte(x: byte)
    ensures Unsigned([x]) == x
  {
    assert [x][..0] == [];
  }

  /** The byte at each place of an encoding. */
  lemma {:induction false} ToUnsignedAt(v: nat, size: nat, i: nat)
    requires v < Pow256(size) && i < size
    ensures ToUnsigned(v, size)[i] == v / Pow256(size - 1 - i) % 256
  {
    if i == size - 1 {
      assert Pow256(0) == 1;
    } else {
      ToUnsignedAt(v / 256, size - 1, i);
      DivDiv(v, 256, Pow256(size - 2 - i));
    }
  }

  /** A signed field has the unsigned value, or that less the size of the range, whichever
      lies in the signed range. */
  lemma SignedRange(field: seq<byte>)
    ensures FitsSigned(Signed(field), |field|)
    ensures Signed(field) == Unsigned(field) || Signed(field) == Unsigned(field) - Pow256(|field|)
  {
  }

  /** The signed ranges of the field sizes in use. */
  lemma SignedSizes(v: int)
    ensures FitsSigned(v, 1) <==> -0x80 <= v < 0x80
    ensures FitsSigned(v, 2) <==> -0x8000 <= v < 0x8000
    ensures FitsSigned(v, 4) <==> -0x8000_0000 <= v < 0x8000_0000
  {
    assert Pow256(1) == 0x100 && Pow256(2) == 0x1_0000;
    assert Pow256(3) == 0x100_0000 && Pow256(4) == 0x1_0000_0000;
  }

  /** Fields hold every value of their range, and each value has one encoding. */
  lemma SignedOfTo(v: int, size: nat)
    requires FitsSigned(v, size)
    ensures Signed(ToSigned(v, size)) == v
  {
    UnsignedOfTo(if v < 0 then v + Pow256(size) else v, size);
  }

  lemma ToOfSigned(field: seq<byte>)
    ensures FitsSigned(Signed(field), |field|) && ToSigned(Signed(field), |field|) == field
  {
    ToOfUnsigned(field);
  }
}
