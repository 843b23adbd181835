/** The private key scalar (share/ccrypto/generate_key_go119.go, after Appendix B.4.1 of FIPS
    186-4): BitLen(N)/8 + 8 random bytes, read as a big-endian number, are reduced into 1..N-1.
    Every value is hit by almost the same number of byte strings. */
module FieldElements {
  import opened Common
  import opened DetermRandom

  function BitLen(n: nat): nat {
    if n == 0 then 0 else 1 + BitLen(n / 2)
  }

  function ByteLen(n: nat): nat { BitLen(n) / 8 + 8 }

  /** big.Int.SetBytes */
  function BytesValue(b: Bytes): nat {
    if b == [] then 0 else 256 * BytesValue(b[..|b| - 1]) + b[|b| - 1]
  }

  function FieldElement(n: nat, b: Bytes): nat
    requires n >= 2
  {
    BytesValue(b) % (n - 1) + 1
  }

  // ---- byte strings of a fixed length and the numbers they spell ----

  function Pow(base: nat, e: nat): nat {
    if e == 0 then 1 else base * Pow(base, e - 1)
  }

  function ToBytes(k: nat, length: nat): (b: Bytes)
    ensures |b| == length
  {
    if length == 0 then [] else ToBytes(k / 256, length - 1) + [k % 256]
  }

  lemma {:induction false} ValueOfToBytes(k: nat, length: nat)
    requires k < Pow(256, length)
    ensures BytesValue(ToBytes(k, length)) == k
  {
    if length > 0 {
      var b := ToBytes(k / 256, length - 1);
      assert ToBytes(k, length)[..length - 1] == b;
      ValueOfToBytes(k / 256, length - 1);
    }
  }

  lemma {:induction false} ToBytesOfValue(b: Bytes)
    ensures BytesValue(b) < Pow(256, |b|) && ToBytes(BytesValue(b), |b|) == b
  {
    if b != [] {
      var front, last := b[..|b| - 1], b[|b| - 1];
      ToBytesOfValue(front);
      assert BytesValue(b) / 256 == BytesValue(front) && BytesValue(b) % 256 == last;
      assert b == front + [last];
    }
  }

  // ---- counting residues ----

  function Residues(m: nat, r: nat, total: nat): set<nat>
    requires m > 0
  {
    set k: nat | k < total && k % m == r
  }

  lemma DivisionStep(t: nat, m: nat)
    requires m > 0
    ensures if (t % m) + 1 == m then (t + 1) / m == t / m + 1 && (t + 1) % m == 0
            else (t + 1) / m == t / m && (t + 1) % m == t % m + 1
  {
    var a, b := t / m, t % m;
    assert t == m * a + b;
    if b + 1 == m {
      assert t + 1 == m * (a + 1);
      DivisionUnique(t + 1, m, a + 1, 0);
    } else {
      DivisionUnique(t + 1, m, a, b + 1);
    }
  }

  lemma DivisionUnique(t: nat, m: nat, q: nat, r: nat)
    requires m > 0 && r < m && t == m * q + r
    ensures t / m == q && t % m == r
  {
    var d := t / m - q;
    assert m * (t / m) + t % m == m * q + r;
    assert m * d == r - t % m;
    Multiple(m, d);
  }

  lemma Multiple(m: nat, d: int)
    ensures d >= 1 ==> m * d >= m
    ensures d <= -1 ==> m * d <= 0 - m
  {}

  lemma {:induction false} ResidueCount(m: nat, r: nat, total: nat)
    requires r < m
    ensures |Residues(m, r, total)| == total / m + (if r < total % m then 1 else 0)
  {
    if total == 0 {
      assert Residues(m, r, 0) == {};
      DivisionUnique(0, m, 0, 0);
    } else {
      var t := total - 1;
      ResidueCount(m, r, t);
      DivisionStep(t, m);
      if t % m == r {
        assert Residues(m, r, total) == Residues(m, r, t) + {t};
      } else {
        assert Residues(m, r, total) == Residues(m, r, t);
      }
    }
  }

  // ---- the preimages of a scalar ----

  /** The byte strings of the length that is drawn which are reduced to v. */
  function Preimages(n: nat, v: nat): set<Bytes>
    requires n >= 2 && 1 <= v
  {
    Spelled(Residues(n - 1, v - 1, Pow(256, ByteLen(n))), ByteLen(n))
  }

  function Spelled(ks: set<nat>, length: nat): set<Bytes> {
    set k | k in ks :: ToBytes(k, length)
  }

  lemma PreimagesAre(n: nat, v: nat, b: Bytes)
    requires n >= 2 && 1 <= v
    ensures b in Preimages(n, v) <==> |b| == ByteLen(n) && FieldElement(n, b) == v
  {
    var length := ByteLen(n);
    if b in Preimages(n, v) {
      var k :| k in Residues(n - 1, v - 1, Pow(256, length)) && b == ToBytes(k, length);
      ValueOfToBytes(k, length);
    }
    if |b| == length && FieldElement(n, b) == v {
      ToBytesOfValue(b);
      assert BytesValue(b) in Residues(n - 1, v - 1, Pow(256, length));
    }
  }

  /** An injective image has as many elements. */
  lemma {:induction false} ImageSize(ks: set<nat>, length: nat)
    requires forall k :: k in ks ==> k < Pow(256, length)
    ensures |Spelled(ks, length)| == |ks|
  {
    if ks == {} {
      assert Spelled(ks, length) == {};
    } else {
      var x :| x in ks;
      var rest := Spelled(ks - {x}, length);
      ImageSize(ks - {x}, length);
      forall k | k in ks - {x} ensures ToBytes(k, length) != ToBytes(x, length) {
        ValueOfToBytes(k, length);
        ValueOfToBytes(x, length);
      }
      assert ToBytes(x, length) !in rest;
      assert Spelled(ks, length) == rest + {ToBytes(x, length)};
    }
  }

  // ---- how many bytes are enough ----

  lemma {:induction false} BitLenBounds(n: nat)
    ensures n < Pow(2, BitLen(n)) && (n > 0 ==> Pow(2, BitLen(n)) <= 2 * n)
  {
    if n > 0 {
      BitLenBounds(n / 2);
      if n / 2 == 0 { assert n == 1 && BitLen(n) == 1 && Pow(2, 1) == 2 * Pow(2, 0); }
    }
  }

  lemma Associates(a: nat, b: nat, c: nat)
    ensures a * (b * c) == (a * b) * c
  {}

  lemma {:induction false} PowAdd(base: nat, a: nat, b: nat)
    ensures Pow(base, a + b) == Pow(base, a) * Pow(base, b)
  {
    if a > 0 {
      PowAdd(base, a - 1, b);
      Associates(base, Pow(base, a - 1), Pow(base, b));
    }
  }

  lemma {:induction false} PowMonotone(base: nat, a: nat, b: nat)
    requires base > 0 && a <= b
    ensures Pow(base, a) <= Pow(base, b)
  {
    if a < b {
      PowMonotone(base, a, b - 1);
      assert Pow(base, b) == base * Pow(base, b - 1) >= 1 * Pow(base, b - 1);
    }
  }

  lemma {:induction false} PowOfBytes(length: nat)
    ensures Pow(256, length) == Pow(2, 8 * length)
  {
    if length > 0 {
      PowOfBytes(length - 1);
      PowAdd(2, 8, 8 * (length - 1));
      assert Pow(2, 8) == 256 by {
        assert Pow(2, 4) == 16;
        PowAdd(2, 4, 4);
      }
    }
  }

  lemma QuotientAtLeast(t: nat, m: nat, q: nat)
    requires m > 0 && m * q <= t
    ensures t / m >= q
  {
    var a := t / m;
    assert t == m * a + t % m;
    Multiple(m, q - a);
    assert m * (q - a) == m * q - m * a;
  }

  /** By how many bits the drawn bytes are longer than the modulus. */
  function SpareBits(n: nat): (bits: nat)
    ensures 57 <= bits <= 64
  {
    8 * ByteLen(n) - BitLen(n)
  }

  /** The drawn bytes have at least 2^57 values for each residue. */
  lemma EnoughBytes(n: nat)
    requires n >= 2
    ensures Pow(256, ByteLen(n)) / (n - 1) >= Pow(2, SpareBits(n))
  {
    BitLenBounds(n);
    PowOfBytes(ByteLen(n));
    PowAdd(2, BitLen(n), SpareBits(n));
    RoomToSpare(Pow(256, ByteLen(n)), n - 1, Pow(2, BitLen(n)), Pow(2, SpareBits(n)));
  }

  lemma RoomToSpare(t: nat, m: nat, b: nat, q: nat)
    requires 0 < m <= b && t == b * q
    ensures t / m >= q
  {
    Product(m, b, q, q);
    QuotientAtLeast(t, m, q);
  }

  lemma Product(a: nat, b: nat, c: nat, d: nat)
    requires a <= b && c <= d
    ensures a * c <= b * d
  {
    assert a * c <= b * c;
    assert b * c <= b * d;
  }

  lemma PreimageCount(n: nat, v: nat, total: nat)
    requires n >= 2 && 1 <= v <= n - 1 && total == Pow(256, ByteLen(n))
    ensures |Preimages(n, v)| == total / (n - 1) + (if v - 1 < total % (n - 1) then 1 else 0)
  {
    ResidueCount(n - 1, v - 1, total);
    ImageSize(Residues(n - 1, v - 1, total), ByteLen(n));
  }

  /** Every scalar in 1..N-1 is the result for floor(256^L/(N-1)) byte strings or one more, at
      least 2^57 in both cases, and nothing outside 1..N-1 is a result. */
  lemma ScalarsAreNearlyUniform(n: nat, v: nat)
    requires n >= 2 && 1 <= v <= n - 1
    ensures var total := Pow(256, ByteLen(n));
            && (forall k: nat :: k <= SpareBits(n) ==> total / (n - 1) >= Pow(2, k))
            && |Preimages(n, v)| == total / (n - 1) + (if v - 1 < total % (n - 1) then 1 else 0)
    ensures forall b :: |b| == ByteLen(n) ==> 1 <= FieldElement(n, b) <= n - 1
    ensures forall b :: b in Preimages(n, v) <==> |b| == ByteLen(n) && FieldElement(n, b) == v
  {
    EnoughBytes(n);
    forall k: nat | k <= SpareBits(n) ensures Pow(256, ByteLen(n)) / (n - 1) >= Pow(2, k) {
      PowMonotone(2, k, SpareBits(n));
    }
    PreimageCount(n, v, Pow(256, ByteLen(n)));
    forall b ensures b in Preimages(n, v) <==> |b| == ByteLen(n) && FieldElement(n, b) == v {
      PreimagesAre(n, v, b);
    }
  }

  /** randFieldElement over the deterministic reader. */
  method RandFieldElement(n: nat, rand: DetermRand) returns (k: nat)
    requires n >= 2
    modifies rand
    ensures k == FieldElement(n, old(ReadStep(rand.hash, rand.next, ByteLen(n)).0)) && 1 <= k <= n - 1
    ensures rand.next == old(ReadStep(rand.hash, rand.next, ByteLen(n)).1)
  {
    var b := new byte[ByteLen(n)];
    var _ := rand.Read(b);
    k := BytesValue(b[..]);
    k := k % (n - 1);
    k := k + 1;
  }
}
