/** The deterministic reader (share/ccrypto/determ_rand.go): a chain of hash blocks whose first
    halves are hashed again and whose second halves are the output. */
module DetermRandom {
  import opened Common

  type Bytes = seq<byte>

  type Half = b: Bytes | |b| == 32 witness seq(32, _ => 0)

  /** A digest of 64 bytes, split into the half that is hashed next and the half that is output. */
  type Hash = Bytes -> (Half, Half)

  const STRENGTHENING := 2048

  function Chain(h: Hash, x: Bytes, i: nat): Bytes {
    if i == 0 then x else h(Chain(h, x, i - 1)).0
  }

  /** The outputs of the first i blocks of the chain that starts at x. */
  function Output(h: Hash, x: Bytes, i: nat): (out: Bytes)
    ensures |out| == 32 * i
  {
    if i == 0 then [] else Output(h, x, i - 1) + h(Chain(h, x, i - 1)).1
  }

  function BlocksFor(size: nat): (i: nat)
    ensures 32 * i >= size && (size > 0 ==> 32 * (i - 1) < size)
  {
    (size + 31) / 32
  }

  /** What a read of the given size returns, and where it leaves the chain. */
  function ReadStep(h: Hash, x: Bytes, size: nat): (Bytes, Bytes) {
    (Output(h, x, BlocksFor(size))[..size], Chain(h, x, BlocksFor(size)))
  }

  lemma {:induction false} ChainSplits(h: Hash, x: Bytes, i: nat, j: nat)
    ensures Chain(h, x, i + j) == Chain(h, Chain(h, x, i), j)
    ensures Output(h, x, i + j) == Output(h, x, i) + Output(h, Chain(h, x, i), j)
    decreases j
  {
    if j == 0 {
      assert Output(h, x, i) + [] == Output(h, x, i);
    } else {
      ChainSplits(h, x, i, j - 1);
    }
  }

  /** Two reads in a row, as one result. */
  function ReadTwice(h: Hash, x: Bytes, a: nat, m: nat): (Bytes, Bytes) {
    var (first, x1) := ReadStep(h, x, a);
    var (second, x2) := ReadStep(h, x1, m);
    (first + second, x2)
  }

  /** After whole blocks a read continues where the one before stopped. */
  lemma AlignedReads(h: Hash, x: Bytes, k: nat, m: nat)
    ensures ReadTwice(h, x, 32 * k, m) == ReadStep(h, x, 32 * k + m)
  {
    var n := BlocksFor(m);
    assert BlocksFor(32 * k) == k && BlocksFor(32 * k + m) == k + n;
    ChainSplits(h, x, k, n);
    var all := Output(h, x, k + n);
    assert all[..32 * k + m] == Output(h, x, k)[..32 * k] + Output(h, Chain(h, x, k), n)[..m];
  }

  /** A digest whose output marks the start of each block. */
  function Marker(x: Bytes): (Half, Half) {
    (seq(32, _ => 0), [0] + seq(31, _ => 1))
  }

  lemma {:induction false} MarkerOutput(x: Bytes, i: nat, p: nat)
    requires p < 32 * i
    ensures Output(Marker, x, i)[p] == if p % 32 == 0 then 0 else 1
  {
    if p < 32 * (i - 1) {
      MarkerOutput(x, i - 1, p);
    } else {
      assert p % 32 == p - 32 * (i - 1);
    }
  }

  /** The rest of the last block is thrown away, so splitting a read changes its result for some
      digest unless the split is at a block boundary or the second read is empty. */
  lemma SplitReadsAgree(a: nat, m: nat)
    ensures (forall h: Hash, x: Bytes :: ReadTwice(h, x, a, m).0 == ReadStep(h, x, a + m).0)
       <==> a % 32 == 0 || m == 0
  {
    if a % 32 == 0 || m == 0 {
      forall h: Hash, x: Bytes ensures ReadTwice(h, x, a, m).0 == ReadStep(h, x, a + m).0 {
        if a % 32 == 0 {
          AlignedReads(h, x, a / 32, m);
        } else {
          var first := ReadStep(h, x, a).0;
          assert first + [] == first;
        }
      }
    } else {
      var x: Bytes := [];
      var (first, x1) := ReadStep(Marker, x, a);
      MarkerOutput(x, BlocksFor(a + m), a);
      MarkerOutput(x1, BlocksFor(m), 0);
      assert ReadTwice(Marker, x, a, m).0[a] == 0;
      assert ReadStep(Marker, x, a + m).0[a] == 1;
      assert exists h: Hash, y: Bytes :: ReadTwice(h, y, a, m).0 != ReadStep(h, y, a + m).0;
    }
  }

  class DetermRand {
    const hash: Hash
    var next: Bytes

    constructor (hash: Hash, seed: Bytes)
      ensures this.hash == hash && next == Chain(hash, seed, STRENGTHENING)
    {
      var current := seed;
      for i := 0 to STRENGTHENING
        invariant current == Chain(hash, seed, i)
      {
        current := hash(current).0;
      }
      this.hash := hash;
      next := current;
    }

    /** Fills the whole buffer with the truncated outputs of successive blocks. */
    method Read(b: array<byte>) returns (n: nat)
      modifies this, b
      ensures n == b.Length
      ensures (b[..], next) == old(ReadStep(hash, next, b.Length))
    {
      n := 0;
      ghost var start := next;
      ghost var i := 0;
      while n < b.Length
        invariant n == if 32 * i <= b.Length then 32 * i else b.Length
        invariant n == b.Length ==> i == BlocksFor(b.Length)
        invariant n <= 32 * i && b[..n] == Output(hash, start, i)[..n]
        invariant next == Chain(hash, start, i)
      {
        var (following, output) := hash(next);
        var count := if b.Length - n < 32 then b.Length - n else 32;
        ghost var done := b[..n];
        Copy(b, n, output[..count]);
        assert b[..n + count] == done + output[..count];
        assert Output(hash, start, i + 1)[..n + count] == Output(hash, start, i)[..n] + output[..count];
        n := n + count;
        next := following;
        i := i + 1;
      }
      assert b[..n] == b[..];
    }

    method Copy(b: array<byte>, at: nat, src: Bytes)
      requires at + |src| <= b.Length
      modifies b
      ensures b[..at] == old(b[..at]) && b[at..at + |src|] == src
    {
      var j := 0;
      while j < |src|
        invariant j <= |src| && b[..at] == old(b[..at])
        invariant forall k :: 0 <= k < j ==> b[at + k] == src[k]
      {
        b[at + j] := src[j];
        j := j + 1;
      }
    }
  }
}
