/** The INT case of `encode_data` and `decode_data`: signed little-endian two's complement. */
module IntCodec {
  import opened Common

  newtype byte = b: int | 0 <= b < 256

  const WIDTH: nat := 8

  function Pow256(n: nat): (p: nat)
    ensures p >= 1
  {
    if n == 0 then 1 else 256 * Pow256(n - 1)
  }

  /** The value fits the width: -2^(8n-1) <= v < 2^(8n-1). */
  predicate Fits(v: int, n: nat) {
    0 <= 2 * v + Pow256(n) && 2 * v < Pow256(n)
  }

  // ----- Unsigned digits -----

  function Digits(u: nat, n: nat): seq<byte> {
    if n == 0 then [] else [(u % 256) as byte] + Digits(u / 256, n - 1)
  }

  function Weigh(bs: seq<byte>): nat {
    if bs == [] then 0 else bs[0] as nat + 256 * Weigh(bs[1..])
  }

  lemma {:induction false} WeighDigits(u: nat, n: nat)
    requires u < Pow256(n)
    ensures |Digits(u, n)| == n && Weigh(Digits(u, n)) == u
    decreases n
  {
    if n > 0 {
      WeighDigits(u / 256, n - 1);
      assert Digits(u, n)[1..] == Digits(u / 256, n - 1);
    }
  }

  lemma OneDigit(b: nat, rest: nat)
    requires b < 256
    ensures (b + 256 * rest) % 256 == b && (b + 256 * rest) / 256 == rest
  {}

  lemma {:induction false} DigitsWeigh(bs: seq<byte>)
    ensures Weigh(bs) < Pow256(|bs|) && Digits(Weigh(bs), |bs|) == bs
    decreases |bs|
  {
    if bs != [] {
      var b, rest := bs[0] as nat, Weigh(bs[1..]);
      DigitsWeigh(bs[1..]);
      OneDigit(b, rest);
      assert Digits(b + 256 * rest, |bs|) == [b as byte] + Digits(rest, |bs| - 1);
      assert bs == [bs[0]] + bs[1..];
    }
  }

  // ----- Signed values -----

  /** `v.to_bytes(n, "little", signed=True)`; nothing stands for OverflowError. */
  function Encode(v: int, n: nat): Option<seq<byte>> {
    if Fits(v, n) then Some(Digits(if v < 0 then v + Pow256(n) else v, n)) else None
  }

  /** `int.from_bytes(bs, "little", signed=True)`, for a string of any length. */
  function Decode(bs: seq<byte>): int {
    if bs != [] && bs[|bs| - 1] >= 128 then Weigh(bs) - Pow256(|bs|) else Weigh(bs)
  }

  lemma UpperHalf(b: nat, w: nat, p: nat)
    requires b < 256 && p % 2 == 0
    ensures 2 * (b + 256 * w) >= 256 * p <==> 2 * w >= p
  {}

  /** The top bit says which half of the range the unsigned value is in. */
  lemma {:induction false} TopBit(bs: seq<byte>)
    requires bs != []
    ensures bs[|bs| - 1] >= 128 <==> 2 * Weigh(bs) >= Pow256(|bs|)
    decreases |bs|
  {
    if |bs| == 1 {
      assert Weigh(bs[1..]) == 0 && Pow256(1) == 256 * Pow256(0);
    } else {
      var rest := bs[1..];
      TopBit(rest);
      HalfIsDivisible(|rest|);
      UpperHalf(bs[0] as nat, Weigh(rest), Pow256(|rest|));
      assert rest[|rest| - 1] == bs[|bs| - 1];
    }
  }

  lemma HalfIsDivisible(n: nat)
    requires n >= 1
    ensures Pow256(n) % 2 == 0
  {
    assert Pow256(n) == 2 * (128 * Pow256(n - 1));
  }

  /** Encoding succeeds exactly on the values in range, gives n bytes, and decoding gives the value back. */
  lemma DecodeEncode(v: int, n: nat)
    requires n >= 1
    ensures Encode(v, n).Some? <==> Fits(v, n)
    ensures Fits(v, n) ==> |Encode(v, n).value| == n && Decode(Encode(v, n).value) == v
  {
    if Fits(v, n) {
      var u: nat := if v < 0 then v + Pow256(n) else v;
      WeighDigits(u, n);
      TopBit(Digits(u, n));
    }
  }

  /** Every string of n >= 1 bytes decodes to a value in range that encodes to the same string. */
  lemma EncodeDecode(bs: seq<byte>)
    requires |bs| >= 1
    ensures Fits(Decode(bs), |bs|) && Encode(Decode(bs), |bs|) == Some(bs)
  {
    DigitsWeigh(bs);
    TopBit(bs);
    HalfIsDivisible(|bs|);
  }

  // ----- The bytes themselves -----

  lemma DivMod(u: int, k: nat)
    requires k >= 1
    ensures u == (u / k) * k + u % k && 0 <= u % k < k
  {}

  lemma Expand(q: int, b: int, r: int, a: int)
    ensures (q * b + r) * a == q * (a * b) + r * a
  {}

  lemma Remainder(r: nat, b: nat, s: nat, a: nat)
    requires r < b && s < a
    ensures 0 <= r * a + s < a * b
  {
    MulMono(r + 1, b, a);
    assert (r + 1) * a == r * a + a;
  }

  /** Dividing twice. */
  lemma DivDiv(u: int, a: nat, b: nat)
    requires a >= 1 && b >= 1
    ensures a * b >= 1 && (u / a) / b == u / (a * b)
  {
    var q, r := u / a, u % a;
    var q', r' := q / b, q % b;
    DivMod(u, a);
    DivMod(q, b);
    Expand(q', b, r', a);
    Remainder(r', b, r, a);
    QuotientIs(u, a * b, q', r' * a + r);
  }

  lemma MulMono(x: int, y: int, k: nat)
    requires x <= y
    ensures x * k <= y * k
  {}

  lemma QuotientIs(u: int, k: nat, q: int, r: int)
    requires k >= 1 && u == q * k + r && 0 <= r < k
    ensures u / k == q
  {
    var d := u / k - q;
    assert u == (u / k) * k + u % k;
    assert d * k == (u / k) * k - q * k == r - u % k;
    if d >= 1 { MulMono(1, d, k); }
    if d <= -1 { MulMono(d, -1, k); }
  }

  lemma {:induction false} DigitAt(u: nat, n: nat, i: nat)
    requires i < n
    ensures |Digits(u, n)| == n && Digits(u, n)[i] as int == (u / Pow256(i)) % 256
    decreases n
  {
    if i == 0 {
      assert Pow256(0) == 1;
      if n > 1 { DigitAt(u / 256, n - 1, 0); } else { assert Digits(u / 256, 0) == []; }
    } else {
      DigitAt(u / 256, n - 1, i - 1);
      assert Digits(u, n)[i] == Digits(u / 256, n - 1)[i - 1];
      DivDiv(u, 256, Pow256(i - 1));
    }
  }

  lemma {:induction false} PowSum(i: nat, j: nat)
    ensures Pow256(i + j) == Pow256(i) * Pow256(j)
  {
    if i > 0 {
      PowSum(i - 1, j);
      Reassociate(256, Pow256(i - 1), Pow256(j));
    }
  }

  lemma Reassociate(x: int, y: int, z: int)
    ensures x * (y * z) == (x * y) * z
  {}

  lemma ShiftQuotient(v: int, p: nat, k: nat)
    requires p >= 1
    ensures (v + p * k) / p == v / p + k
  {
    var q, r := v / p, v % p;
    assert v == p * q + r;
    Expand(q + k, 1, r, p);
    Share(q, k, p);
    QuotientIs(v + p * k, p, q + k, r);
  }

  lemma Share(q: int, k: int, p: int)
    ensures (q + k) * p == p * q + p * k
  {}

  lemma ShiftDigit(q: int, k: nat)
    ensures (q + 256 * k) % 256 == q % 256
  {}

  /** Adding 256^n changes none of the lower digits. */
  lemma WrapKeepsDigit(v: int, n: nat, i: nat)
    requires i < n
    ensures ((v + Pow256(n)) / Pow256(i)) % 256 == (v / Pow256(i)) % 256
  {
    PowSum(i, n - i);
    ShiftQuotient(v, Pow256(i), Pow256(n - i));
    ShiftDigit(v / Pow256(i), Pow256(n - i - 1));
  }

  /**
   Byte i of an encoding is digit i of the value in base 256, counted from the low end; for a negative
   value the quotient is rounded down, which gives the digits of its two's complement.
   */
  lemma ByteAt(v: int, n: nat, i: nat)
    requires Encode(v, n).Some? && i < n
    ensures |Encode(v, n).value| == n && Encode(v, n).value[i] as int == (v / Pow256(i)) % 256
  {
    if v < 0 {
      DigitAt(v + Pow256(n), n, i);
      WrapKeepsDigit(v, n, i);
    } else {
      DigitAt(v, n, i);
    }
  }

  /** The wire format of the code: eight bytes, for the values of a signed 64-bit integer. */
  lemma EightBytes(v: int)
    ensures Encode(v, WIDTH).Some? <==> -0x8000_0000_0000_0000 <= v <= 0x7FFF_FFFF_FFFF_FFFF
    ensures Encode(v, WIDTH).Some? ==> |Encode(v, WIDTH).value| == 8 && Decode(Encode(v, WIDTH).value) == v
  {
    assert Pow256(8) == 0x1_0000_0000_0000_0000 by {
      assert Pow256(2) == 65536 && Pow256(4) == 65536 * Pow256(2);
      assert Pow256(6) == 65536 * Pow256(4) && Pow256(8) == 65536 * Pow256(6);
    }
    DecodeEncode(v, 8);
  }
}
