/** Little-endian amounts: what encoding/molecule and encoding/channel_state write and what the
    transaction builder reads back (Simple UDT, Nervos CKB RFC 0025, section "SUDT Cell"). */
module LittleEndian {
  import opened Words
  import opened Wrappers

  type byte = x: nat | x < 256

  function Pow256(n: nat): (p: nat)
    ensures p >= 1
  {
    if n == 0 then 1 else 256 * Pow256(n - 1)
  }

  /** The number a little-endian byte string denotes. */
  function Value(b: seq<byte>): nat {
    if b == [] then 0 else b[0] + 256 * Value(b[1..])
  }

  /** The n low-order bytes of x, least significant first. */
  function Digits(x: nat, n: nat): (b: seq<byte>)
    ensures |b| == n
  {
    if n == 0 then [] else [x % 256] + Digits(x / 256, n - 1)
  }

  lemma {:induction false} ValueOfDigits(x: nat, n: nat)
    ensures Value(Digits(x, n)) == x % Pow256(n)
  {
    if n != 0 {
      ValueOfDigits(x / 256, n - 1);
      ModSplit(x, Pow256(n - 1));
      assert Digits(x, n)[1..] == Digits(x / 256, n - 1);
    }
  }

  lemma {:induction false} ModSplit(x: nat, p: nat)
    requires p >= 1
    ensures x % (256 * p) == x % 256 + 256 * ((x / 256) % p)
  {
    var q, r := (x / 256) / p, (x / 256) % p;
    assert x / 256 == q * p + r;
    assert x == 256 * (q * p + r) + x % 256;
    assert x == q * (256 * p) + (256 * r + x % 256);
    assert 256 * r + x % 256 < 256 * p;
    DivModUnique(x, 256 * p, q, 256 * r + x % 256);
  }

  lemma {:induction false} DivModUnique(x: nat, d: nat, q: nat, r: nat)
    requires r < d && x == q * d + r
    ensures x / d == q && x % d == r
  {
    var q', r' := x / d, x % d;
    assert x == q' * d + r';
    assert (q - q') * d == r' - r;
    if q' < q {
      MulAtLeast(q - q', d);
    } else if q' > q {
      MulAtLeast(q' - q, d);
    }
  }

  lemma {:induction false} MulAtLeast(a: nat, d: nat)
    requires a >= 1
    ensures a * d >= d
  {
    assert a * d == d + (a - 1) * d;
  }

  lemma {:induction false} ValueBound(b: seq<byte>)
    ensures Value(b) < Pow256(|b|)
  {
    if b != [] {
      ValueBound(b[1..]);
    }
  }

  lemma {:induction false} DigitsOfValue(b: seq<byte>)
    ensures Digits(Value(b), |b|) == b
  {
    if b != [] {
      DigitsOfValue(b[1..]);
      assert Value(b) % 256 == b[0] && Value(b) / 256 == Value(b[1..]);
    }
  }

  lemma {:induction false} DigitsSplit(x: nat, q: nat, r: nat, m: nat, n: nat)
    requires r < Pow256(m) && x == q * Pow256(m) + r
    ensures Digits(x, m + n) == Digits(r, m) + Digits(q, n)
  {
    if m == 0 {
      assert x == q;
    } else {
      var t := q * Pow256(m - 1);
      assert x == 256 * t + r;
      DigitsSplit(x / 256, q, r / 256, m - 1, n);
      assert x % 256 == r % 256;
      assert Digits(r, m) + Digits(q, n) == [r % 256] + (Digits(r / 256, m - 1) + Digits(q, n));
    }
  }

  lemma {:induction false} Powers()
    ensures Pow256(8) == TWO_64 && Pow256(16) == TWO_128
  {
    assert Pow256(4) == 0x1_0000_0000;
    assert Pow256(8) == 0x1_0000_0000 * 0x1_0000_0000;
    assert Pow256(12) == 0x1_0000_0000 * Pow256(8);
  }

  // ---------- encoding/molecule ----------

  /** A 128-bit integer as the library keeps it: two 64-bit halves. */
  datatype Uint128 = Uint128(lo: uint64, hi: uint64) {
    function Int(): nat {
      lo + TWO_64 * hi
    }

    /** Low half first, each half little-endian. */
    function StoreLittleEndian(): seq<byte> {
      Digits(lo, 8) + Digits(hi, 8)
    }
  }

  datatype AmountError = Overflow | Underflow

  function ToUint128(x: int): Result<Uint128, AmountError> {
    if x > TWO_128 - 1 then Err(Overflow)
    else if x < 0 then Err(Underflow)
    else Ok(Uint128(x % TWO_64, x / TWO_64))
  }

  function PackUint128(x: int): Result<seq<byte>, AmountError> {
    match ToUint128(x)
    case Err(e) => Err(e)
    case Ok(u) => Ok(u.StoreLittleEndian())
  }

  function UnpackUint64(b: seq<byte>): uint64
    requires |b| >= 8
  {
    Powers();
    ValueBound(b[..8]);
    Value(b[..8])
  }

  function UnpackUint128(b: seq<byte>): Uint128
    requires |b| >= 16
  {
    Uint128(UnpackUint64(b), UnpackUint64(b[8..]))
  }

  /** Storing the halves is storing the number: the 16 bytes are the base-256 digits of x. */
  lemma {:induction false} PackedDigits(x: nat)
    requires x < TWO_128
    ensures PackUint128(x) == Ok(Digits(x, 16))
  {
    Powers();
    DigitsSplit(x, x / TWO_64, x % TWO_64, 8, 8);
  }

  /** PackUint128 accepts exactly [0, 2^128); on it UnpackUint128 is its inverse, and the 8-byte read used
      for balancing yields x modulo 2^64. */
  lemma {:induction false} PackUnpack(x: int)
    ensures PackUint128(x).Ok? <==> 0 <= x < TWO_128
    ensures PackUint128(x).Ok? ==>
      var b := PackUint128(x).value;
      |b| == 16 && UnpackUint128(b).Int() == x && UnpackUint64(b) == Wrap(x)
  {
    if 0 <= x < TWO_128 {
      UnpackStored(Uint128(x % TWO_64, x / TWO_64));
    }
  }

  lemma {:induction false} ReadHalf(x: uint64, rest: seq<byte>)
    ensures UnpackUint64(Digits(x, 8) + rest) == x
  {
    Powers();
    assert (Digits(x, 8) + rest)[..8] == Digits(x, 8);
    ValueOfDigits(x, 8);
  }

  lemma {:induction false} UnpackStored(u: Uint128)
    ensures |u.StoreLittleEndian()| == 16
    ensures UnpackUint128(u.StoreLittleEndian()) == u && UnpackUint64(u.StoreLittleEndian()) == u.lo
  {
    var b := u.StoreLittleEndian();
    ReadHalf(u.lo, Digits(u.hi, 8));
    ReadHalf(u.hi, []);
    assert b[8..] == Digits(u.hi, 8) + [];
  }

  /** Reading 16 bytes and writing them again changes nothing, so a cell's amount has one encoding. */
  lemma {:induction false} UnpackPack(b: seq<byte>)
    requires |b| == 16
    ensures UnpackUint128(b).Int() < TWO_128 && PackUint128(UnpackUint128(b).Int()) == Ok(b)
  {
    var u := UnpackUint128(b);
    assert u.Int() % TWO_64 == u.lo && u.Int() / TWO_64 == u.hi;
    DigitsOfValue(b[..8]);
    DigitsOfValue(b[8..][..8]);
    assert b == b[..8] + b[8..][..8];
  }

  // ---------- encoding/channel_state ----------

  /** big.Int.Bytes: the minimal big-endian form of the absolute value, empty for 0. */
  function BigBytes(x: nat): seq<byte> {
    if x == 0 then [] else BigBytes(x / 256) + [x % 256]
  }

  lemma {:induction false} BigBytesDigits(x: nat)
    ensures forall i :: 0 <= i < |BigBytes(x)| ==> BigBytes(x)[|BigBytes(x)| - 1 - i] == Digits(x, |BigBytes(x)|)[i]
    ensures x < Pow256(|BigBytes(x)|)
    ensures x > 0 ==> Pow256(|BigBytes(x)| - 1) <= x
  {
    if x != 0 {
      BigBytesDigits(x / 256);
      var n := |BigBytes(x)|;
      forall i | 0 <= i < n ensures BigBytes(x)[n - 1 - i] == Digits(x, n)[i] {
        if i > 0 {
          assert Digits(x, n)[i] == Digits(x / 256, n - 1)[i - 1];
          assert BigBytes(x)[n - 1 - i] == BigBytes(x / 256)[n - 1 - 1 - (i - 1)];
        }
      }
    }
  }

  lemma {:induction false} PowMonotone(m: nat, n: nat)
    requires m <= n
    ensures Pow256(m) <= Pow256(n)
    decreases n
  {
    if m < n {
      PowMonotone(m, n - 1);
    }
  }

  lemma {:induction false} DigitsOfZero(n: nat)
    ensures forall i :: 0 <= i < n ==> Digits(0, n)[i] == 0
  {
    if n > 0 {
      DigitsOfZero(n - 1);
    }
  }

  lemma {:induction false} BytesOfSmall(x: nat, n: nat)
    ensures |BigBytes(x)| <= n <==> x < Pow256(n)
    ensures x < Pow256(n) ==> forall i :: |BigBytes(x)| <= i < n ==> Digits(x, n)[i] == 0
    ensures x < Pow256(n) ==> Digits(x, n)[..|BigBytes(x)|] == Digits(x, |BigBytes(x)|)
  {
    BigBytesDigits(x);
    var k := |BigBytes(x)|;
    if k <= n {
      PowMonotone(k, n);
      DigitsSplit(x, 0, x, k, n - k);
      DigitsOfZero(n - k);
    } else {
      PowMonotone(n, k - 1);
    }
  }

  lemma {:induction false} PaddedDigits(x: nat, out: seq<byte>)
    requires x < TWO_128 && |out| == 16 && |BigBytes(x)| <= 16
    requires forall j :: 0 <= j < |BigBytes(x)| ==> out[j] == BigBytes(x)[|BigBytes(x)| - 1 - j]
    requires forall j :: |BigBytes(x)| <= j < 16 ==> out[j] == 0
    ensures out == Digits(x, 16)
  {
    Powers();
    BytesOfSmall(x, 16);
    BigBytesDigits(x);
    var k := |BigBytes(x)|;
    forall j | 0 <= j < 16 ensures out[j] == Digits(x, 16)[j] {
      if j < k {
        assert Digits(x, 16)[..k][j] == Digits(x, k)[j];
      }
    }
  }

  /** The reversing loop over big.Int.Bytes. It is the same encoder as PackUint128, on every integer. */
  method ToU128LE(x: int) returns (r: Result<seq<byte>, AmountError>)
    ensures r.Ok? <==> 0 <= x < TWO_128
    ensures r.Ok? ==> r == PackUint128(x)
    ensures r.Err? ==> PackUint128(x).Err?
  {
    hide *;
    PackUnpack(x);
    if x < 0 {
      return Err(Underflow);
    }
    var b := BigBytes(x);
    Powers();
    BytesOfSmall(x, 16);
    if |b| > 16 {
      return Err(Overflow);
    }
    var out: seq<byte> := seq(16, _ => 0);
    for i := 0 to |b|
      invariant |out| == 16
      invariant forall j :: 0 <= j < i ==> out[j] == b[|b| - 1 - j]
      invariant forall j :: i <= j < 16 ==> out[j] == 0
    {
      out := out[i := b[|b| - 1 - i]];
    }
    PaddedDigits(x, out);
    PackedDigits(x);
    r := Ok(out);
  }
}
