/** What goes into each compression and what comes out of the last: words, flags and counters, bit by bit and byte
    by byte. */
module Blake3Words {
  import opened Bytes
  import opened Blake3
  import B32 = Base32

  // ---- numbers ----

  /** The weight of the first byte is that of all that follow. */
  lemma {:induction false} FirstByteWeighsMost(b: Byte, s: seq<Byte>)
    ensures FromBE([b] + s) == b * Pow256(|s|) + FromBE(s)
  {
    if s == [] {
      assert [b] + s == [b] && [b][..0] == [];
    } else {
      var front := s[..|s| - 1];
      assert ([b] + s)[..|s|] == [b] + front;
      FirstByteWeighsMost(b, front);
      Distribute(b, Pow256(|front|));
    }
  }

  lemma {:induction false} Distribute(b: nat, p: nat)
    ensures 0x100 * (b * p) == b * (0x100 * p)
  {
  }

  /** A word is four bytes, the least significant first. */
  lemma {:induction false} WordIsLittleEndian(b0: Byte, b1: Byte, b2: Byte, b3: Byte)
    ensures WordFromLE(b0, b1, b2, b3) == FromBE([b3, b2, b1, b0])
    ensures WordFromLE(b0, b1, b2, b3) == b0 + 256 * b1 + 65536 * b2 + 16777216 * b3
  {
    assert [b3, b2, b1, b0][..3] == [b3, b2, b1] && [b3, b2, b1][..2] == [b3, b2] && [b3, b2][..1] == [b3] && [b3][..0] == [];
    assert FromBE([b3]) == b3 && FromBE([b3, b2]) == 0x100 * b3 + b2 && FromBE([b3, b2, b1]) == 0x100 * (0x100 * b3 + b2) + b1;
  }

  /** A block is read word after word. */
  lemma {:induction false} BlockWord(b: seq<Byte>, i: nat)
    requires |b| % 4 == 0 && i < |b| / 4
    ensures WordsFromLE(b)[i] == FromBE([b[4 * i + 3], b[4 * i + 2], b[4 * i + 1], b[4 * i]])
  {
    WordIsLittleEndian(b[4 * i], b[4 * i + 1], b[4 * i + 2], b[4 * i + 3]);
  }

  /** A short block is followed by zeros. */
  lemma {:induction false} PaddedWithZeros(s: seq<Byte>, i: nat)
    requires |s| <= BLOCK_LEN && i < BLOCK_LEN
    ensures Pad(s)[i] == if i < |s| then s[i] else 0
  {
  }

  lemma {:induction false} WordOfItsBytes(w: Word)
    ensures FromBE([w / 0x100_0000 % 0x100, w / 0x1_0000 % 0x100, w / 0x100 % 0x100, w % 0x100]) == w
  {
    WordIsLittleEndian(w % 0x100, w / 0x100 % 0x100, w / 0x1_0000 % 0x100, w / 0x100_0000 % 0x100);
    assert w == w % 0x100 + 0x100 * (w / 0x100) && w / 0x100 == w / 0x100 % 0x100 + 0x100 * (w / 0x1_0000);
    assert w / 0x1_0000 == w / 0x1_0000 % 0x100 + 0x100 * (w / 0x100_0000);
  }

  // ---- flags ----

  /** Bit `k` of a number. */
  predicate Bit(n: nat, k: nat) {
    n / B32.Pow2(k) % 2 == 1
  }

  lemma {:induction false} BitBelow(n: nat, k: nat)
    requires k > 0
    ensures Bit(n, k) == Bit(n / 2, k - 1)
  {
    var p := B32.Pow2(k - 1);
    assert B32.Pow2(k) == 2 * p;
    DivideTwice(n, p);
  }

  lemma {:induction false} DivideTwice(n: nat, p: nat)
    requires p > 0
    ensures n / (2 * p) == n / 2 / p
  {
    var q, r := n / 2 / p, n / 2 % p;
    assert n / 2 == q * p + r;
    assert n == (2 * p) * q + (2 * r + n % 2);
    Quotient(2 * p, q, 2 * r + n % 2);
  }

  lemma {:induction false} Quotient(d: nat, q: nat, r: nat)
    requires d > 0 && r < d
    ensures (d * q + r) / d == q
  {
    var x := (d * q + r) / d;
    Largest(d, q, r, x, (d * q + r) % d);
  }

  lemma {:induction false} Largest(d: nat, q: nat, r: nat, x: nat, s: nat)
    requires r < d && s < d && d * q + r == d * x + s
    ensures x == q
  {
    if x < q {
      AtLeast(d, q, x);
    } else if x > q {
      AtLeast(d, x, q);
    }
  }

  lemma {:induction false} AtLeast(d: nat, more: nat, less: nat)
    requires more > less
    ensures d * more >= d * less + d
  {
    assert d * more == d * less + d * (more - less);
    assert more - less == 1 + (more - less - 1);
    assert d * (more - less) == d + d * (more - less - 1);
  }

  lemma {:induction false} NoBits(k: nat)
    ensures !Bit(0, k)
  {
  }

  /** A flag is set in the whole exactly when it is set in a part. */
  lemma {:induction false} OrBits(a: nat, b: nat, k: nat)
    ensures Bit(Or(a, b), k) <==> Bit(a, k) || Bit(b, k)
    decreases k
  {
    NoBits(k);
    if a != 0 && b != 0 {
      var o := Or(a, b);
      assert o / 2 == Or(a / 2, b / 2) && (o % 2 == 1 <==> a % 2 == 1 || b % 2 == 1);
      if k > 0 {
        BitBelow(o, k);
        BitBelow(a, k);
        BitBelow(b, k);
        OrBits(a / 2, b / 2, k - 1);
      } else {
        assert B32.Pow2(0) == 1;
      }
    }
  }

  /** One flag, one bit. */
  lemma {:induction false} OneBit(j: nat, k: nat)
    ensures Bit(B32.Pow2(j), k) <==> k == j
  {
    if k == 0 {
      assert B32.Pow2(0) == 1;
    } else {
      BitBelow(B32.Pow2(j), k);
      if j == 0 {
        NoBits(k - 1);
      } else {
        OneBit(j - 1, k - 1);
      }
    }
  }

  /** The sizes and flags of the paper, the flags by bit. */
  lemma {:induction false} FlagsAreBits()
    ensures CHUNK_START == B32.Pow2(0) && CHUNK_END == B32.Pow2(1) && PARENT == B32.Pow2(2) && ROOT == B32.Pow2(3)
    ensures KEYED_HASH == B32.Pow2(4) && DERIVE_KEY_CONTEXT == B32.Pow2(5) && DERIVE_KEY_MATERIAL == B32.Pow2(6)
    ensures OUT_LEN == 32 && KEY_LEN == 32 && BLOCK_LEN == 64 && CHUNK_LEN == 1024
  {
    B32.SmallPowers();
  }

  /** Of a chunk, what is left to compress is its last block, of one byte to 64 (none only if the chunk is empty):
      it carries CHUNK_END, and CHUNK_START only if it is the first as well. */
  lemma {:induction false} LastBlock(mode: Mode, counter: nat, done: seq<Byte>, last: seq<Byte>, k: nat)
    requires |done| % BLOCK_LEN == 0 && |last| <= BLOCK_LEN && (done == [] || last != [])
    ensures var o := mode.ChunkOutput(counter, done + last);
            o.cv == CvAfter(mode, counter, done) && o.blockWords == WordsFromLE(Pad(last)) && o.counter == counter && o.blockLen == |last| &&
            (Bit(o.flags, k) <==> k == 1 || (k == 0 && done == []) || Bit(mode.flags, k))
  {
    BlocksSplit(mode, counter, done, last);
    FlagsAreBits();
    OneBit(0, k);
    OneBit(1, k);
    NoBits(k);
    var start := Or(mode.flags, if done == [] then CHUNK_START else 0);
    OrBits(mode.flags, if done == [] then CHUNK_START else 0, k);
    OrBits(start, CHUNK_END, k);
  }

  /** Every earlier block is full and carries CHUNK_START if it is the first, and CHUNK_END never. */
  lemma {:induction false} EarlierBlock(mode: Mode, counter: nat, before: seq<Byte>, block: seq<Byte>) returns (flags: nat)
    requires |before| % BLOCK_LEN == 0 && |block| == BLOCK_LEN
    ensures CvAfter(mode, counter, before + block) ==
            mode.compress(CvAfter(mode, counter, before), WordsFromLE(block), counter, BLOCK_LEN, flags)[..8]
    ensures forall k: nat :: Bit(flags, k) <==> (k == 0 && before == []) || Bit(mode.flags, k)
  {
    flags := Or(mode.flags, if before == [] then CHUNK_START else 0);
    assert (before + block)[..|before|] == before && (before + block)[|before|..] == block;
    forall k: nat ensures Bit(flags, k) <==> (k == 0 && before == []) || Bit(mode.flags, k) {
      FlagsAreBits();
      OneBit(0, k);
      NoBits(k);
      OrBits(mode.flags, if before == [] then CHUNK_START else 0, k);
    }
  }

  /** A parent compresses its left child's value and then its right child's, under the key, with no counter and
      with PARENT. */
  lemma {:induction false} ParentIs(mode: Mode, left: seq<Word>, right: seq<Word>, k: nat)
    requires |left| == 8 && |right| == 8
    ensures var o := mode.ParentOutput(left, right);
            o.cv == mode.key && o.blockWords[..8] == left && o.blockWords[8..] == right && |o.blockWords| == 16 &&
            o.counter == 0 && o.blockLen == 64 && (Bit(o.flags, k) <==> k == 2 || Bit(mode.flags, k))
  {
    FlagsAreBits();
    OneBit(2, k);
    OrBits(PARENT, mode.flags, k);
  }

  /** Four bytes to a word, sixteen words to a block. */
  lemma {:induction false} Place(j: nat, i: nat)
    requires i < 4
    ensures (4 * j + i) / 64 == j / 16 && (4 * j + i) % 64 / 4 == j % 16 && (4 * j + i) % 4 == i
  {
  }

  /** The words of the root come from compressing it once more, with ROOT, under the number of the output block; they
      go out byte by byte, the least significant first. */
  lemma {:induction false} RootWord(o: Output, compress: Compression, j: nat) returns (flags: nat)
    ensures FromBE([o.RootByte(compress, 4 * j + 3), o.RootByte(compress, 4 * j + 2), o.RootByte(compress, 4 * j + 1),
                    o.RootByte(compress, 4 * j)]) ==
            compress(o.cv, o.blockWords, j / 16, o.blockLen, flags)[j % 16]
    ensures forall k: nat :: Bit(flags, k) <==> k == 3 || Bit(o.flags, k)
  {
    flags := Or(o.flags, ROOT);
    var w := compress(o.cv, o.blockWords, j / 16, o.blockLen, flags)[j % 16];
    Place(j, 0);
    Place(j, 1);
    Place(j, 2);
    Place(j, 3);
    WordOfItsBytes(w);
    forall k: nat ensures Bit(flags, k) <==> k == 3 || Bit(o.flags, k) {
      FlagsAreBits();
      OneBit(3, k);
      OrBits(o.flags, ROOT, k);
    }
  }

  /** Between the root and the parameter of the hash nothing is lost: a leaf is one chunk, a parent's children are
      the trees of the two parts. */
  lemma {:induction false} TreeIs(mode: Mode, first: nat, data: seq<Byte>)
    ensures |data| <= 1024 ==> mode.TreeOutput(first, data) == mode.ChunkOutput(first, data)
    ensures |data| > 1024 ==>
              var n := LeftChunks(|data|);
              var left, right := mode.TreeOutput(first, data[..1024 * n]), mode.TreeOutput(first + n, data[1024 * n..]);
              mode.TreeOutput(first, data) ==
              mode.ParentOutput(mode.compress(left.cv, left.blockWords, left.counter, left.blockLen, left.flags)[..8],
                                mode.compress(right.cv, right.blockWords, right.counter, right.blockLen, right.flags)[..8])
  {
  }

  /** The hash is the root's output, byte after byte, of the tree over all the data, whose chunks are counted from 0. */
  lemma {:induction false} HashIs(mode: Mode, data: seq<Byte>, length: nat, i: nat)
    requires i < length
    ensures |mode.Hash(data, length)| == length
    ensures mode.Hash(data, length)[i] == mode.TreeOutput(0, data).RootByte(mode.compress, i)
  {
  }

  /** The initial words: the first 32 bits of the fractional parts of the square roots of the first eight primes. */
  lemma {:induction false} InitialWords(i: nat)
    requires i < 8
    ensures |IV| == 8
    ensures var p, whole := [2, 3, 5, 7, 11, 13, 17, 19][i], [1, 1, 2, 2, 3, 3, 4, 4][i];
            var root: int := whole * 0x1_0000_0000 + (IV[i] as int);
            root * root <= p * 0x1_0000_0000_0000_0000 < (root + 1) * (root + 1)
  {
    if i == 0 { assert IV[i] == 0x6A09E667; } else if i == 1 { assert IV[i] == 0xBB67AE85; }
    else if i == 2 { assert IV[i] == 0x3C6EF372; } else if i == 3 { assert IV[i] == 0xA54FF53A; }
    else if i == 4 { assert IV[i] == 0x510E527F; } else if i == 5 { assert IV[i] == 0x9B05688C; }
    else if i == 6 { assert IV[i] == 0x1F83D9AB; } else { assert IV[i] == 0x5BE0CD19; }
  }
}
