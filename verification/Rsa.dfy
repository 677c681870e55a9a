/** The synthetic provider's RSA key generation and PKCS#1 v1.5 signing. */
module Rsa {
  import opened Common
  import opened NumberTheory
  import opened Primality

  // ------------------------------------------------------------ integers as bytes

  function BitLength(n: nat): nat
  {
    if n == 0 then 0 else 1 + BitLength(n / 2)
  }

  lemma {:induction false} BitLengthBounds(n: nat)
    requires n > 0
    ensures BitLength(n) > 0
    ensures Pow(2, BitLength(n) - 1) <= n < Pow(2, BitLength(n))
  {
    if n > 1 {
      BitLengthBounds(n / 2);
    } else {
      assert BitLength(1) == 1 + BitLength(0);
      assert Pow(2, 1) == 2 * Pow(2, 0);
    }
  }

  /** int.from_bytes(b, "big") */
  function FromBytes(b: Bytes): nat
  {
    if |b| == 0 then 0 else 256 * FromBytes(b[..|b| - 1]) + b[|b| - 1] as nat
  }

  /** x.to_bytes(size, "big"); None is the OverflowError. */
  function ToBytes(x: nat, size: nat): Option<Bytes>
  {
    if size == 0 then
      if x == 0 then Some([]) else None
    else
      match ToBytes(x / 256, size - 1)
      case None => None
      case Some(high) => Some(high + [(x % 256) as byte])
  }

  lemma {:induction false} ToBytesExact(x: nat, size: nat)
    ensures ToBytes(x, size).Some? <==> x < Pow(256, size)
    ensures ToBytes(x, size).Some? ==> |ToBytes(x, size).value| == size && FromBytes(ToBytes(x, size).value) == x
  {
    if size > 0 {
      ToBytesExact(x / 256, size - 1);
      if ToBytes(x, size).Some? {
        var b, high := ToBytes(x, size).value, ToBytes(x / 256, size - 1).value;
        assert b[..|b| - 1] == high;
      }
    }
  }

  lemma {:induction false} FromBytesAppend(a: Bytes, b: Bytes)
    ensures FromBytes(a + b) == FromBytes(a) * Pow(256, |b|) + FromBytes(b)
  {
    if b == [] {
      assert a + b == a;
    } else {
      var low := b[..|b| - 1];
      assert (a + b)[..|a + b| - 1] == a + low;
      FromBytesAppend(a, low);
      assert FromBytes(a) * (256 * Pow(256, |low|)) == 256 * (FromBytes(a) * Pow(256, |low|)) by {
        SwapFactors(256, FromBytes(a), Pow(256, |low|));
      }
    }
  }

  lemma {:induction false} FromBytesBound(b: Bytes)
    ensures FromBytes(b) < Pow(256, |b|)
  {
    if |b| > 0 {
      FromBytesBound(b[..|b| - 1]);
    }
  }

  // ------------------------------------------------------------ inverses

  function Gcd(a: nat, b: nat): nat
    decreases b
  {
    if b == 0 then a else Gcd(b, a % b)
  }

  /** Coefficients of the greatest common divisor. */
  function Bezout(a: nat, b: nat): (c: (int, int))
    ensures a * c.0 + b * c.1 == Gcd(a, b)
    decreases b
  {
    if b == 0 then (1, 0) else
      var (x, y) := Bezout(b, a % b);
      BezoutStep(a, b, x, y);
      (y, x - (a / b) * y)
  }

  lemma BezoutStep(a: nat, b: nat, x: int, y: int)
    requires b > 0
    ensures b * x + (a % b) * y == a * y + b * (x - (a / b) * y)
  {
    assert a % b == a - (a / b) * b;
    assert ((a / b) * b) * y == b * ((a / b) * y);
    assert (a - (a / b) * b) * y == a * y - ((a / b) * b) * y;
    assert b * (x - (a / b) * y) == b * x - b * ((a / b) * y);
  }

  /** pow(e, -1, m) for coprime e and m. */
  function Inverse(e: nat, m: nat): (d: nat)
    requires m >= 2 && Gcd(e, m) == 1
    ensures d < m && (e * d) % m == 1
  {
    var x := Bezout(e, m).0;
    InverseResidue(e, m, x, Bezout(e, m).1);
    x % m
  }

  lemma InverseResidue(e: nat, m: nat, x: int, y: int)
    requires m >= 2 && e * x + m * y == 1
    ensures (e * (x % m)) % m == 1
  {
    MulCongruent(x % m, x, e, m);
    OneMore(e * x, m, y);
  }

  lemma OneMore(v: int, m: int, y: int)
    requires m >= 2 && v + m * y == 1
    ensures v % m == 1
  {
    assert (-y) * m == -(m * y);
    ModUnique(v, m, -y, 1);
  }

  // ------------------------------------------------------------ key generation

  datatype Key = Key(n: nat, e: nat, d: nat)

  /** One pass of the random source: the drawn candidate and the draws of its primality test. */
  datatype Draw = Draw(candidate: nat, bases: nat -> nat)

  /** candidate | 1 << (bits - 1) | 1, for a draw of the given number of bits. */
  function OddWithTopBit(candidate: nat, bits: nat): (p: nat)
    requires bits >= 1
  {
    var low := candidate % Pow2(bits);
    var topped := if low < Pow2(bits - 1) then low + Pow2(bits - 1) else low;
    if topped % 2 == 0 then topped + 1 else topped
  }

  lemma OddWithTopBitShape(candidate: nat, bits: nat)
    requires bits >= 1
    ensures OddWithTopBit(candidate, bits) % 2 == 1
    ensures BitLength(OddWithTopBit(candidate, bits)) == bits
  {
    var p := OddWithTopBit(candidate, bits);
    assert Pow2(bits) == 2 * Pow2(bits - 1);
    assert Pow2(bits) % 2 == 0;
    assert Pow(2, bits - 1) <= p < Pow(2, bits);
    BitLengthUnique(p, bits);
  }

  lemma BitLengthUnique(n: nat, bits: nat)
    requires bits >= 1 && Pow(2, bits - 1) <= n < Pow(2, bits)
    ensures BitLength(n) == bits
  {
    PowPositive(2, bits - 1);
    BitLengthBounds(n);
    if BitLength(n) < bits {
      PowMonotone(2, BitLength(n), bits - 1);
    } else if BitLength(n) > bits {
      PowMonotone(2, bits, BitLength(n) - 1);
    }
  }

  /** A candidate that passed the primality test with k rounds. */
  ghost predicate Accepted(draw: Draw, bits: nat, k: nat)
  {
    bits >= 1 && ProbablePrime(OddWithTopBit(draw.candidate, bits), k, draw.bases)
  }

  /** p is the odd full-width number of a draw that passed the test. */
  ghost predicate DrawnFrom(p: nat, draw: Draw, bits: nat, k: nat)
  {
    Accepted(draw, bits, k) && p == OddWithTopBit(draw.candidate, bits)
  }

  /** The source draws without end; here the draws come from a finite stream and may run out.
      A request for zero bits fails in the source too. */
  method GeneratePrime(bits: nat, k: nat, stream: seq<Draw>, start: nat)
    returns (p: Option<nat>, next: nat)
    requires start <= |stream|
    ensures start <= next <= |stream|
    ensures p.Some? ==>
              && start < next && DrawnFrom(p.value, stream[next - 1], bits, k)
              && p.value % 2 == 1 && p.value >= 3 && BitLength(p.value) == bits
    ensures forall i :: start <= i < (if p.Some? then next - 1 else |stream|) ==>
              !Accepted(stream[i], bits, k)
  {
    next := start;
    if bits == 0 {
      return None, next;
    }
    while next < |stream|
      invariant start <= next <= |stream|
      invariant forall i :: start <= i < next ==> !Accepted(stream[i], bits, k)
    {
      var draw := stream[next];
      var candidate := OddWithTopBit(draw.candidate, bits);
      OddWithTopBitShape(draw.candidate, bits);
      var ok := IsProbablePrime(candidate, k, draw.bases);
      next := next + 1;
      if ok {
        return Some(candidate), next;
      }
    }
    return None, next;
  }

  /** The relation between a key pair and the two primes it was made from. */
  ghost predicate KeyOf(key: Key, p: nat, q: nat)
  {
    && p >= 2 && q >= 2 && p != q && key.n == p * q
    && (p - 1) * (q - 1) >= 2
    && key.d < (p - 1) * (q - 1)
    && (key.e * key.d) % ((p - 1) * (q - 1)) == 1
  }

  /** The checks on one pair of candidates. */
  method TryKey(p: nat, q: nat, keySize: nat, e: nat) returns (key: Option<Key>)
    requires p >= 3 && q >= 3
    ensures key.Some? ==> KeyOf(key.value, p, q) && key.value.e == e && BitLength(key.value.n) == keySize
    ensures key.Some? <==>
              p != q && BitLength(p * q) == keySize && Gcd(e, (p - 1) * (q - 1)) == 1
  {
    if p == q {
      return None;
    }
    if BitLength(p * q) != keySize {
      return None;
    }
    ProductAtLeast(p - 1, q - 1);
    var phi := (p - 1) * (q - 1);
    if Gcd(e, phi) == 1 {
      return Some(Key(p * q, e, Inverse(e, phi)));
    }
    return None;
  }

  /** A key comes from two accepted draws i < j, and has the asked-for size. */
  method GenerateKeypair(keySize: nat, e: nat, k: nat, stream: seq<Draw>)
    returns (key: Option<Key>, p: nat, q: nat, ghost i: nat, ghost j: nat)
    ensures key.Some? ==> KeyOf(key.value, p, q) && key.value.e == e
    ensures key.Some? ==> BitLength(key.value.n) == keySize
    ensures key.Some? ==> BitLength(p) == BitLength(q) == keySize / 2
    ensures key.Some? ==> i < j < |stream|
    ensures key.Some? ==> DrawnFrom(p, stream[i], keySize / 2, k) && DrawnFrom(q, stream[j], keySize / 2, k)
  {
    var pos, bits := 0, keySize / 2;
    key, p, q, i, j := None, 0, 0, 0, 0;
    while key.None?
      invariant pos <= |stream|
      invariant key.Some? ==> KeyOf(key.value, p, q) && key.value.e == e
      invariant key.Some? ==> BitLength(key.value.n) == keySize
      invariant key.Some? ==> BitLength(p) == BitLength(q) == bits
      invariant key.Some? ==> i < j < |stream|
      invariant key.Some? ==> DrawnFrom(p, stream[i], bits, k) && DrawnFrom(q, stream[j], bits, k)
      decreases |stream| - pos
    {
      var first, second;
      first, pos := GeneratePrime(bits, k, stream, pos);
      if first.None? {
        return None, 0, 0, 0, 0;
      }
      i := pos - 1;
      second, pos := GeneratePrime(bits, k, stream, pos);
      if second.None? {
        return None, 0, 0, 0, 0;
      }
      j := pos - 1;
      p, q := first.value, second.value;
      key := TryKey(p, q, keySize, e);
    }
  }

  // ------------------------------------------------------------ signing

  /** The DER prefix of a SHA-256 DigestInfo. */
  const SHA256_DER: Bytes :=
    [0x30, 0x31, 0x30, 0x0d, 0x06, 0x09, 0x60, 0x86, 0x48, 0x01,
     0x65, 0x03, 0x04, 0x02, 0x01, 0x05, 0x00, 0x04, 0x20]

  /** Python's b"\xff" * count, which is empty for a negative count. */
  function Ones(count: int): (b: Bytes)
    ensures |b| == if count < 0 then 0 else count
    ensures forall i :: 0 <= i < |b| ==> b[i] == 0xff
  {
    if count <= 0 then [] else Ones(count - 1) + [0xff]
  }

  /** The padded block of a hash: 00 01 ff .. ff 00 DigestInfo. */
  function Encode(hash: Bytes, size: nat): Bytes
  {
    var info := SHA256_DER + hash;
    [0x00, 0x01] + Ones(size - |info| - 3) + [0x00] + info
  }

  function ByteSize(n: nat): nat
  {
    (BitLength(n) + 7) / 8
  }

  /** The block fills the modulus exactly from 54 bytes on, and carries the eight ff bytes of
      section 9.2 of RFC 8017 exactly from 62 bytes on. */
  lemma EncodedLength(hash: Bytes, size: nat)
    requires |hash| == 32
    ensures |Encode(hash, size)| == size <==> size >= 54
    ensures |Ones(size - 51 - 3)| >= 8 <==> size >= 62
  {
  }

  /** No two hashes share a block. */
  lemma EncodedDistinct(hash: Bytes, other: Bytes, size: nat)
    requires |hash| == |other| == 32 && Encode(hash, size) == Encode(other, size)
    ensures hash == other
  {
    var b := Encode(hash, size);
    assert b[|b| - 32..] == hash;
    assert b[|b| - 32..] == Encode(other, size)[|b| - 32..] == other;
  }

  lemma PowersOf256(k: nat)
    ensures Pow(256, k) == Pow(2, 8 * k)
  {
    PowMul(2, 8, k);
    TwoToTheEighth();
  }

  lemma TwoToTheEighth()
    ensures Pow(2, 8) == 256
  {
    PowAdd(2, 4, 4);
    PowAdd(2, 2, 2);
    PowAdd(2, 1, 1);
    assert Pow(2, 1) == 2 * Pow(2, 0);
  }

  /** A modulus of size bytes lies between 256^(size-1) and 256^size. */
  lemma ByteSizeBounds(n: nat)
    requires n > 0
    ensures ByteSize(n) > 0
    ensures Pow(256, ByteSize(n) - 1) <= n < Pow(256, ByteSize(n))
  {
    var size := ByteSize(n);
    BitLengthBounds(n);
    PowersOf256(size - 1);
    PowersOf256(size);
    PowMonotone(2, 8 * (size - 1), BitLength(n) - 1);
    PowMonotone(2, BitLength(n), 8 * size);
  }

  /** The padded block is below the modulus: its leading byte is zero. */
  lemma BlockBelowModulus(hash: Bytes, n: nat)
    requires |hash| == 32 && n > 0 && ByteSize(n) >= 54
    ensures |Encode(hash, ByteSize(n))| == ByteSize(n)
    ensures FromBytes(Encode(hash, ByteSize(n))) < n
  {
    var b := Encode(hash, ByteSize(n));
    EncodedLength(hash, ByteSize(n));
    assert b == [0x00] + b[1..];
    FromBytesAppend([0x00], b[1..]);
    assert FromBytes([0x00]) == 256 * FromBytes([]) + 0;
    FromBytesBound(b[1..]);
    ByteSizeBounds(n);
  }

  /** The public operation undoes the private one, for every message, coprime to n or not. */
  lemma SignThenVerify(key: Key, p: nat, q: nat, m: nat)
    requires Prime(p) && Prime(q) && KeyOf(key, p, q)
    ensures key.n > 0
    ensures Pow(Pow(m, key.d) % key.n, key.e) % key.n == m % key.n
  {
    var a, b, ed := p - 1, q - 1, key.e * key.d;
    var k := ed / (a * b);
    assert ed == 1 + k * (a * b) by {
      assert ed == k * (a * b) + ed % (a * b);
    }
    assert k >= 0 by {
      assert ed >= 0;
    }
    assert k * (a * b) == a * (k * b) by { SwapFactors(a, k, b); }
    assert k * (a * b) == b * (k * a) by { SwapFactors(b, k, a); }
    assert k * b >= 0 && k * a >= 0;
    FermatExponent(m, k * b, p);
    FermatExponent(m, k * a, q);
    ChineseRemainder(Pow(m, ed), m, p, q);
    PowMul(m, key.d, key.e);
    assert key.d * key.e == ed;
    PowResidue(Pow(m, key.d), key.e, key.n);
  }

  lemma ResidueOpens(key: Key, p: nat, q: nat, block: nat, signed: int)
    requires Prime(p) && Prime(q) && KeyOf(key, p, q)
    requires key.n > 0 && block < key.n && signed == Pow(block, key.d) % key.n
    ensures Pow(signed, key.e) % key.n == block
  {
    SignThenVerify(key, p, q, block);
    ModUnique(block, key.n, 0, block);
  }

  // ------------------------------------------------------------ the spelling of a signature

  const DIGITS := "0123456789abcdef"

  /** Two lower-case hexadecimal digits for every byte. */
  function Hex(b: Bytes): string
  {
    if b == [] then "" else Hex(b[..|b| - 1]) + [DIGITS[b[|b| - 1] as nat / 16], DIGITS[b[|b| - 1] as nat % 16]]
  }

  function DigitValue(c: char): Option<nat>
  {
    if '0' <= c <= '9' then Some((c - '0') as nat) else if 'a' <= c <= 'f' then Some(10 + (c - 'a') as nat) else None
  }

  /** What the digits spell, if they spell whole bytes. */
  function FromHex(text: string): Option<Bytes>
  {
    if text == "" then Some([])
    else if |text| == 1 then None
    else
      match (FromHex(text[..|text| - 2]), DigitValue(text[|text| - 2]), DigitValue(text[|text| - 1]))
      case (Some(front), Some(high), Some(low)) => Some(front + [(16 * high + low) as byte])
      case _ => None
  }

  lemma DigitRoundTrip(d: nat)
    requires d < 16
    ensures DigitValue(DIGITS[d]) == Some(d)
  {
  }

  lemma PairReads(text: string, front: Bytes, last: byte)
    requires FromHex(text) == Some(front)
    ensures FromHex(text + [DIGITS[last as nat / 16], DIGITS[last as nat % 16]]) == Some(front + [last])
  {
    var high, low := last as nat / 16, last as nat % 16;
    var more := text + [DIGITS[high], DIGITS[low]];
    assert more[..|more| - 2] == text && more != "";
    DigitRoundTrip(high);
    DigitRoundTrip(low);
    assert (16 * high + low) as byte == last;
  }

  /** No byte is lost or confused in the spelling. */
  lemma {:induction false} HexRoundTrip(b: Bytes)
    ensures |Hex(b)| == 2 * |b| && FromHex(Hex(b)) == Some(b)
  {
    if b != [] {
      var front, last := b[..|b| - 1], b[|b| - 1];
      HexRoundTrip(front);
      PairReads(Hex(front), front, last);
      assert b == front + [last];
    }
  }

  const SCHEME := "bglate_rsa_v1:"

  function Spelled(keyId: string, signature: Bytes): string
  {
    SCHEME + keyId + ":" + Hex(signature)
  }

  /** Under one key id the text determines the signature, byte for byte. */
  lemma SpelledReads(keyId: string, signature: Bytes)
    ensures var text := Spelled(keyId, signature);
            var start := |SCHEME| + |keyId| + 1;
            |text| == start + 2 * |signature| && FromHex(text[start..]) == Some(signature)
  {
    var start := |SCHEME| + |keyId| + 1;
    HexRoundTrip(signature);
    assert Spelled(keyId, signature)[start..] == Hex(signature);
  }

  /** sign_message: the block of the hash, raised to d, spelled behind the scheme and the key id. */
  method SignMessage(key: Key, keyId: string, hash: Bytes) returns (text: string)
    requires key.n > 0
    ensures var size := ByteSize(key.n);
            var value := Pow(FromBytes(Encode(hash, size)), key.d) % key.n;
            var start := |SCHEME| + |keyId| + 1;
            && |text| == start + 2 * size && text[..start] == SCHEME + keyId + ":"
            && FromHex(text[start..]).Some? && |FromHex(text[start..]).value| == size
            && FromBytes(FromHex(text[start..]).value) == value
  {
    var size := ByteSize(key.n);
    var encoded := Encode(hash, size);
    var value := Pow(FromBytes(encoded), key.d) % key.n;
    ByteSizeBounds(key.n);
    ToBytesExact(value, size);
    var signature := ToBytes(value, size);
    SpelledReads(keyId, signature.value);
    text := Spelled(keyId, signature.value);
  }

  /** A signature made with a key over two primes opens to the padded block it was made from. */
  lemma SignatureOpens(key: Key, p: nat, q: nat, hash: Bytes, signature: Bytes)
    requires Prime(p) && Prime(q) && KeyOf(key, p, q) && |hash| == 32 && key.n > 0
    requires ByteSize(key.n) >= 54
    requires FromBytes(signature) == Pow(FromBytes(Encode(hash, ByteSize(key.n))), key.d) % key.n
    ensures Pow(FromBytes(signature), key.e) % key.n == FromBytes(Encode(hash, ByteSize(key.n)))
  {
    var block := FromBytes(Encode(hash, ByteSize(key.n)));
    BlockBelowModulus(hash, key.n);
    ResidueOpens(key, p, q, block, FromBytes(signature));
  }
}
