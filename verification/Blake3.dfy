/** The tree hash of the BLAKE3 paper, stated recursively over whole inputs.

    `compress` enters as a parameter: everything here holds of every function of
    its type, so nothing depends on how the seven rounds mix their words. */
module Blake3 {

  import opened Bytes

  type Word = w: int | 0 <= w < 0x1_0000_0000
  type Words16 = s: seq<Word> | |s| == 16 witness seq(16, _ => 0)

  /** Arguments in the order of the source: chaining value, block words, counter, block length, flags. */
  type Compression = (seq<Word>, seq<Word>, nat, nat, nat) -> Words16

  const OUT_LEN := 32
  const KEY_LEN := 32
  const BLOCK_LEN := 64
  const CHUNK_LEN := 1024

  const CHUNK_START := 1
  const CHUNK_END := 2
  const PARENT := 4
  const ROOT := 8
  const KEYED_HASH := 16
  const DERIVE_KEY_CONTEXT := 32
  const DERIVE_KEY_MATERIAL := 64

  const IV: seq<Word> := [0x6A09E667, 0xBB67AE85, 0x3C6EF372, 0xA54FF53A,
                          0x510E527F, 0x9B05688C, 0x1F83D9AB, 0x5BE0CD19]

  /** Bitwise or on unbounded non-negative integers. */
  function Or(a: nat, b: nat): nat
    decreases a + b
  {
    if a == 0 then b else if b == 0 then a
    else 2 * Or(a / 2, b / 2) + (if a % 2 == 1 || b % 2 == 1 then 1 else 0)
  }

  function WordFromLE(b0: int, b1: int, b2: int, b3: int): Word
    requires 0 <= b0 < 0x100 && 0 <= b1 < 0x100 && 0 <= b2 < 0x100 && 0 <= b3 < 0x100
  {
    b0 + 0x100 * b1 + 0x1_0000 * b2 + 0x100_0000 * b3
  }

  function WordsFromLE(b: seq<Byte>): (w: seq<Word>)
    requires |b| % 4 == 0
    ensures |w| == |b| / 4
  {
    seq(|b| / 4, i requires 0 <= i < |b| / 4 => WordFromLE(b[4 * i], b[4 * i + 1], b[4 * i + 2], b[4 * i + 3]))
  }

  function Zeros(n: nat): (z: seq<Byte>)
    ensures |z| == n
  {
    seq(n, _ => 0)
  }

  /** A last block is padded with zeros to the full block length. */
  function Pad(s: seq<Byte>): (p: seq<Byte>)
    requires |s| <= BLOCK_LEN
    ensures |p| == BLOCK_LEN && s <= p
  {
    s + Zeros(BLOCK_LEN - |s|)
  }

  /** A compression that has not been made yet: its chaining value and its root bytes differ in flags and counter. */
  datatype Output = Output(cv: seq<Word>, blockWords: seq<Word>, counter: nat, blockLen: nat, flags: nat) {

    function ChainingValue(compress: Compression): seq<Word> {
      compress(cv, blockWords, counter, blockLen, flags)[..8]
    }

    /** Byte `i` of the unbounded root output: byte `i % 64` of the block with counter `i / 64`. */
    function RootByte(compress: Compression, i: nat): Byte {
      var word := compress(cv, blockWords, i / 64, blockLen, Or(flags, ROOT))[i % 64 / 4];
      if i % 4 == 0 then word % 0x100
      else if i % 4 == 1 then word / 0x100 % 0x100
      else if i % 4 == 2 then word / 0x1_0000 % 0x100
      else word / 0x100_0000 % 0x100
    }

    function RootBytes(compress: Compression, length: nat): (out: seq<Byte>)
      ensures |out| == length
    {
      seq(length, i requires 0 <= i => RootByte(compress, i))
    }
  }

  /** What stays fixed through one hash: the compression, the key words and the mode flag. */
  datatype Mode = Mode(compress: Compression, key: seq<Word>, flags: nat) {

    function Cv(o: Output): seq<Word> {
      o.ChainingValue(compress)
    }

    /** Section 2.5: a parent has no counter, a full block, and the key words as its input chaining value. */
    function ParentOutput(left: seq<Word>, right: seq<Word>): Output {
      Output(key, left + right, 0, BLOCK_LEN, Or(PARENT, flags))
    }

    /** Section 2.4: blocks are chained from `cv` on, all of one chunk counter; the first block of a
        chunk carries CHUNK_START, the last CHUNK_END, and only the last may be short. */
    function BlocksOutput(cv: seq<Word>, isFirst: bool, counter: nat, bytes: seq<Byte>): Output
      decreases |bytes|
    {
      var start := Or(flags, if isFirst then CHUNK_START else 0);
      if |bytes| <= BLOCK_LEN then
        Output(cv, WordsFromLE(Pad(bytes)), counter, |bytes|, Or(start, CHUNK_END))
      else
        var next := compress(cv, WordsFromLE(bytes[..BLOCK_LEN]), counter, BLOCK_LEN, start)[..8];
        BlocksOutput(next, false, counter, bytes[BLOCK_LEN..])
    }

    function ChunkOutput(counter: nat, chunk: seq<Byte>): Output {
      BlocksOutput(key, true, counter, chunk)
    }

    /** Section 2.1: one chunk is a leaf; of more, the left subtree takes the largest power of two of
        chunks that leaves at least one byte to the right. Chunks are counted from `first`. */
    function TreeOutput(first: nat, data: seq<Byte>): Output {
      Subtree(first, data)
    }

    function Subtree(first: nat, data: seq<Byte>): Output
      decreases |data|
    {
      if |data| <= CHUNK_LEN then ChunkOutput(first, data)
      else
        var left := LeftChunks(|data|);
        ParentOutput(Cv(Subtree(first, data[..1024 * left])), Cv(Subtree(first + left, data[1024 * left..])))
    }

    function Hash(data: seq<Byte>, length: nat): seq<Byte> {
      TreeOutput(0, data).RootBytes(compress, length)
    }
  }

  /** Asking for more output never changes what was given for less. */
  lemma ShorterIsPrefix(mode: Mode, data: seq<Byte>, m: nat, n: nat)
    requires m <= n
    ensures mode.Hash(data, m) == mode.Hash(data, n)[..m]
  {
    hide Mode.TreeOutput;
    var o := mode.TreeOutput(0, data);
    forall i | 0 <= i < m ensures o.RootBytes(mode.compress, m)[i] == o.RootBytes(mode.compress, n)[i] {
    }
  }

  ghost predicate IsPow2(p: nat) {
    HalvesToOne(p)
  }

  ghost predicate HalvesToOne(p: nat) {
    p == 1 || (p > 0 && p % 2 == 0 && HalvesToOne(p / 2))
  }

  /** The largest power of two that is at most `n`. */
  function LargestPow2(n: nat): (p: nat)
    requires n >= 1
    ensures IsPow2(p) && 1 <= p <= n < 2 * p
  {
    TopDigit(n)
  }

  function TopDigit(n: nat): (p: nat)
    requires n >= 1
    ensures HalvesToOne(p) && 1 <= p <= n < 2 * p
  {
    if n == 1 then 1 else 2 * TopDigit(n / 2)
  }

  /** Chunks in the left subtree of an input longer than one chunk. */
  function LeftChunks(length: nat): (left: nat)
    requires length > CHUNK_LEN
    ensures left >= 1 && 1024 * left < length
  {
    LargestPow2((length - 1) / CHUNK_LEN)
  }

  lemma {:induction false} Pow2Below(p: nat, q: nat)
    requires IsPow2(p) && IsPow2(q) && q < 2 * p
    ensures q <= p
  {
    if q > 1 && p > 1 { Pow2Below(p / 2, q / 2); }
  }

  /** `LeftChunks` is what section 2.1 asks for: a power of two, room left, and none larger would do. */
  lemma LeftChunksIsLargest(length: nat, other: nat)
    requires length > CHUNK_LEN && IsPow2(other) && 1024 * other < length
    ensures IsPow2(LeftChunks(length)) && other <= LeftChunks(length)
  {
    Pow2Below(LeftChunks(length), other);
  }

  // ---- blocks inside a chunk ----

  /** The chaining value once all of `bytes`, whole blocks, have been compressed without CHUNK_END. */
  function CvAfter(mode: Mode, counter: nat, bytes: seq<Byte>): seq<Word>
    requires |bytes| % BLOCK_LEN == 0
  {
    if bytes == [] then mode.key
    else
      var before := bytes[..|bytes| - BLOCK_LEN];
      mode.compress(CvAfter(mode, counter, before), WordsFromLE(bytes[|bytes| - BLOCK_LEN..]), counter, BLOCK_LEN,
                    Or(mode.flags, if before == [] then CHUNK_START else 0))[..8]
  }

  /** Compressing `done` early and finishing with `rest` gives the chunk's own output, as long as
      something is left for the last block. */
  lemma {:induction false} BlocksSplit(mode: Mode, counter: nat, done: seq<Byte>, rest: seq<Byte>)
    requires |done| % BLOCK_LEN == 0 && (done == [] || rest != [])
    ensures mode.ChunkOutput(counter, done + rest)
         == mode.BlocksOutput(CvAfter(mode, counter, done), done == [], counter, rest)
  {
    if done == [] {
      assert done + rest == rest;
    } else {
      var before, last := done[..|done| - BLOCK_LEN], done[|done| - BLOCK_LEN..];
      assert done + rest == before + (last + rest);
      BlocksSplit(mode, counter, before, last + rest);
      assert (last + rest)[..BLOCK_LEN] == last && (last + rest)[BLOCK_LEN..] == rest;
    }
  }

  // ---- the stack of subtrees ----

  /** Chaining values of the complete subtrees that `count` whole chunks split into, largest first:
      one for every binary digit 1 of `count`. */
  function Stack(mode: Mode, first: nat, count: nat, data: seq<Byte>): seq<seq<Word>>
    requires |data| == 1024 * count
  {
    Roots(mode, first, count, data)
  }

  function Roots(mode: Mode, first: nat, count: nat, data: seq<Byte>): seq<seq<Word>>
    requires |data| == 1024 * count
    decreases count
  {
    if count == 0 then []
    else
      var left := LargestPow2(count);
      [mode.Cv(mode.TreeOutput(first, data[..1024 * left]))]
      + Roots(mode, first + left, count - left, data[1024 * left..])
  }

  function PopCount(n: nat): nat {
    if n == 0 then 0 else n % 2 + PopCount(n / 2)
  }

  lemma {:induction false} PopCountAdd(p: nat, m: nat)
    requires IsPow2(p) && m < p
    ensures PopCount(p + m) == 1 + PopCount(m)
  {
    if p > 1 {
      PopCountAdd(p / 2, m / 2);
      assert (p + m) / 2 == p / 2 + m / 2;
    }
  }

  lemma {:induction false} StackBottom(mode: Mode, first: nat, count: nat, data: seq<Byte>)
    requires |data| == 1024 * count && count > 0
    ensures var left := LargestPow2(count);
            |Stack(mode, first, count, data)| == 1 + |Stack(mode, first + left, count - left, data[1024 * left..])|
  {
    hide Mode.TreeOutput, IsPow2, LargestPow2;
  }

  lemma {:induction false} StackSize(mode: Mode, first: nat, count: nat, data: seq<Byte>)
    requires |data| == 1024 * count
    ensures |Stack(mode, first, count, data)| == PopCount(count)
    decreases count
  {
    hide IsPow2, LargestPow2;
    if count > 0 {
      hide Stack;
      var left := LargestPow2(count);
      StackBottom(mode, first, count, data);
      StackSize(mode, first + left, count - left, data[1024 * left..]);
      PopCountAdd(left, count - left);
    }
  }

  /** A stack of this depth survives the pops that `total` asks for. */
  predicate CanMerge(depth: nat, total: nat) {
    CanCarry(depth, total)
  }

  predicate CanCarry(depth: nat, total: nat) {
    total > 0 && (total % 2 == 0 ==> depth > 0 && CanCarry(depth - 1, total / 2))
  }

  /** The stack after one more chaining value, as binary addition of one carries. */
  function Merge(mode: Mode, stack: seq<seq<Word>>, cv: seq<Word>, total: nat): seq<seq<Word>>
    requires CanMerge(|stack|, total)
  {
    Carry(mode, stack, cv, total)
  }

  function Carry(mode: Mode, stack: seq<seq<Word>>, cv: seq<Word>, total: nat): seq<seq<Word>>
    requires CanCarry(|stack|, total)
    decreases total
  {
    if total % 2 == 1 then stack + [cv]
    else Carry(mode, stack[..|stack| - 1], mode.Cv(mode.ParentOutput(stack[|stack| - 1], cv)), total / 2)
  }

  /** Below the highest digit, merging does not reach the bottom of the stack. */
  lemma {:induction false} MergeAbove(mode: Mode, bottom: seq<Word>, stack: seq<seq<Word>>, cv: seq<Word>, p: nat, total: nat)
    requires IsPow2(p) && 0 < total < p && CanMerge(|stack|, total)
    ensures CanMerge(|stack| + 1, p + total)
    ensures Merge(mode, [bottom] + stack, cv, p + total) == [bottom] + Merge(mode, stack, cv, total)
    decreases total
  {
    hide IsPow2;
    ScalePow2(p);
    if total % 2 == 1 {
      assert ([bottom] + stack) + [cv] == [bottom] + (stack + [cv]);
    } else {
      var top, under := stack[|stack| - 1], stack[..|stack| - 1];
      MergeAbove(mode, bottom, under, mode.Cv(mode.ParentOutput(top, cv)), p / 2, total / 2);
      assert (p + total) / 2 == p / 2 + total / 2;
      assert ([bottom] + stack)[..|stack|] == [bottom] + under;
    }
  }

  /** When merging folds a whole stack into one value, one digit more folds in what lies below it. */
  lemma {:induction false} MergeThrough(mode: Mode, bottom: seq<Word>, stack: seq<seq<Word>>, cv: seq<Word>, p: nat, whole: seq<Word>)
    requires IsPow2(p) && CanMerge(|stack|, p) && Merge(mode, stack, cv, p) == [whole]
    ensures CanMerge(|stack| + 1, 2 * p)
    ensures Merge(mode, [bottom] + stack, cv, 2 * p) == [mode.Cv(mode.ParentOutput(bottom, whole))]
    decreases p
  {
    hide IsPow2;
    ScalePow2(p);
    if p == 1 {
      assert stack == [] by { assert |stack + [cv]| == 1; }
      assert whole == cv by { assert (stack + [cv])[0] == cv; }
      assert ([bottom] + stack)[..0] == [];
    } else {
      var top, under := stack[|stack| - 1], stack[..|stack| - 1];
      MergeThrough(mode, bottom, under, mode.Cv(mode.ParentOutput(top, cv)), p / 2, whole);
      assert ([bottom] + stack)[..|stack|] == [bottom] + under;
    }
  }

  /** Adding one more chunk: the pops never empty the stack, and the result is the stack of the longer input. */
  ghost predicate Pushes(mode: Mode, first: nat, count: nat, data: seq<Byte>, chunk: seq<Byte>)
    requires |data| == 1024 * count && |chunk| == CHUNK_LEN
  {
    var stack := Stack(mode, first, count, data);
    CanMerge(|stack|, count + 1) &&
    Merge(mode, stack, mode.Cv(mode.ChunkOutput(first + count, chunk)), count + 1)
      == Stack(mode, first, count + 1, data + chunk)
  }

  lemma {:induction false} StackPush(mode: Mode, first: nat, count: nat, data: seq<Byte>, chunk: seq<Byte>)
    requires |data| == 1024 * count && |chunk| == CHUNK_LEN
    ensures Pushes(mode, first, count, data, chunk)
    decreases count
  {
    hide Pushes, IsPow2, LargestPow2;
    if count == 0 {
      StackPushFirst(mode, first, data, chunk);
    } else {
      var left := LargestPow2(count);
      var low, high := data[..1024 * left], data[1024 * left..];
      assert data == low + high;
      StackPush(mode, first + left, count - left, high, chunk);
      if count + 1 < 2 * left {
        StackPushAbove(mode, first, left, count, low, high, chunk);
      } else {
        StackPushThrough(mode, first, left, low, high, chunk);
      }
    }
  }

  lemma StackPushFirst(mode: Mode, first: nat, data: seq<Byte>, chunk: seq<Byte>)
    requires data == [] && |chunk| == CHUNK_LEN
    ensures Pushes(mode, first, 0, data, chunk)
  {
    assert data + chunk == chunk;
    StackOfOneTree(mode, first, 1, chunk);
    LeafTree(mode, first, chunk);
  }

  /** The new chunk does not complete the right half of the tree: nothing below the highest digit moves. */
  lemma StackPushAbove(mode: Mode, first: nat, left: nat, count: nat, low: seq<Byte>, high: seq<Byte>, chunk: seq<Byte>)
    requires IsPow2(left) && 1 <= left <= count && count + 1 < 2 * left
    requires |low| == 1024 * left && |high| == 1024 * (count - left) && |chunk| == CHUNK_LEN
    requires Pushes(mode, first + left, count - left, high, chunk)
    ensures Pushes(mode, first, count, low + high, chunk)
  {
    hide Mode.TreeOutput, Mode.ChunkOutput, IsPow2, LargestPow2, Stack, Merge, CanMerge;
    assert low + high + chunk == low + (high + chunk);
    StackOfLowTree(mode, first, left, count, low, high);
    MergeAbove(mode, mode.Cv(mode.TreeOutput(first, low)), Stack(mode, first + left, count - left, high),
               mode.Cv(mode.ChunkOutput(first + count, chunk)), left, count + 1 - left);
    StackOfLowTree(mode, first, left, count + 1, low, high + chunk);
  }

  /** The new chunk completes the right half: the stack folds into one tree of twice the size. */
  lemma StackPushThrough(mode: Mode, first: nat, left: nat, low: seq<Byte>, high: seq<Byte>, chunk: seq<Byte>)
    requires IsPow2(left) && 1 <= left
    requires |low| == 1024 * left && |high| == 1024 * (left - 1) && |chunk| == CHUNK_LEN
    requires Pushes(mode, first + left, left - 1, high, chunk)
    ensures Pushes(mode, first, 2 * left - 1, low + high, chunk)
  {
    hide Mode.TreeOutput, Mode.ChunkOutput, IsPow2, LargestPow2, Stack, Merge, CanMerge;
    assert low + high + chunk == low + (high + chunk);
    StackOfLowTree(mode, first, left, 2 * left - 1, low, high);
    StackOfOneTree(mode, first + left, left, high + chunk);
    MergeThrough(mode, mode.Cv(mode.TreeOutput(first, low)), Stack(mode, first + left, left - 1, high),
                 mode.Cv(mode.ChunkOutput(first + (2 * left - 1), chunk)), left,
                 mode.Cv(mode.TreeOutput(first + left, high + chunk)));
    ScalePow2(left);
    StackOfOneTree(mode, first, 2 * left, low + (high + chunk));
    TreeOfTwo(mode, first, left, low, high + chunk);
  }

  lemma StackOfLowTree(mode: Mode, first: nat, left: nat, count: nat, low: seq<Byte>, high: seq<Byte>)
    requires IsPow2(left) && left <= count < 2 * left
    requires |low| == 1024 * left && |high| == 1024 * (count - left)
    ensures Stack(mode, first, count, low + high)
         == [mode.Cv(mode.TreeOutput(first, low))] + Stack(mode, first + left, count - left, high)
  {
    hide Mode.TreeOutput, IsPow2, LargestPow2;
    LargestPow2Unique(count, left);
    assert (low + high)[..1024 * left] == low && (low + high)[1024 * left..] == high;
  }

  lemma StackOfOneTree(mode: Mode, first: nat, count: nat, data: seq<Byte>)
    requires count >= 1 && IsPow2(count) && |data| == 1024 * count
    ensures Stack(mode, first, count, data) == [mode.Cv(mode.TreeOutput(first, data))]
  {
    hide Mode.TreeOutput, IsPow2, LargestPow2;
    assert data + [] == data;
    StackOfLowTree(mode, first, count, count, data, []);
  }

  lemma LeafTree(mode: Mode, first: nat, chunk: seq<Byte>)
    requires |chunk| <= CHUNK_LEN
    ensures mode.TreeOutput(first, chunk) == mode.ChunkOutput(first, chunk)
  {
  }

  lemma TreeOfTwo(mode: Mode, first: nat, left: nat, low: seq<Byte>, high: seq<Byte>)
    requires IsPow2(left) && |low| == 1024 * left && 0 < |high| <= 1024 * left
    ensures mode.TreeOutput(first, low + high)
         == mode.ParentOutput(mode.Cv(mode.TreeOutput(first, low)), mode.Cv(mode.TreeOutput(first + left, high)))
  {
    hide Mode.ChunkOutput, IsPow2, LargestPow2;
    var data := low + high;
    assert left <= (|data| - 1) / CHUNK_LEN < 2 * left;
    LargestPow2Unique((|data| - 1) / CHUNK_LEN, left);
    assert data[..1024 * left] == low && data[1024 * left..] == high;
  }

  lemma LargestPow2Unique(n: nat, p: nat)
    requires IsPow2(p) && p <= n < 2 * p
    ensures LargestPow2(n) == p
  {
    Pow2Below(p, LargestPow2(n));
    Pow2Below(LargestPow2(n), p);
  }

  lemma ScalePow2(p: nat)
    requires IsPow2(p)
    ensures IsPow2(2 * p)
    ensures p > 1 ==> p % 2 == 0 && IsPow2(p / 2)
  {
  }

  /** Folding the stack from its top under a pending output, as `finalize` does. */
  function Fold(mode: Mode, stack: seq<seq<Word>>, output: Output): Output {
    if stack == [] then output
    else Fold(mode, stack[..|stack| - 1], mode.ParentOutput(stack[|stack| - 1], mode.Cv(output)))
  }

  lemma {:induction false} FoldBottom(mode: Mode, bottom: seq<Word>, stack: seq<seq<Word>>, output: Output)
    ensures Fold(mode, [bottom] + stack, output) == mode.ParentOutput(bottom, mode.Cv(Fold(mode, stack, output)))
    decreases |stack|
  {
    if stack == [] {
      assert [bottom] + stack == [bottom] && [bottom][..0] == [];
    } else {
      var top, under := stack[|stack| - 1], stack[..|stack| - 1];
      FoldBottom(mode, bottom, under, mode.ParentOutput(top, mode.Cv(output)));
      assert ([bottom] + stack)[..|stack|] == [bottom] + under;
    }
  }

  /** The stack of the committed chunks, folded over the output of the last chunk, is the tree of everything. */
  ghost predicate FoldsToTree(mode: Mode, first: nat, count: nat, data: seq<Byte>, last: seq<Byte>)
    requires |data| == 1024 * count
  {
    Fold(mode, Stack(mode, first, count, data), mode.ChunkOutput(first + count, last)) == mode.TreeOutput(first, data + last)
  }

  lemma {:induction false} FoldIsTree(mode: Mode, first: nat, count: nat, data: seq<Byte>, last: seq<Byte>)
    requires |data| == 1024 * count && |last| <= CHUNK_LEN && (count == 0 || last != [])
    ensures FoldsToTree(mode, first, count, data, last)
    decreases count
  {
    hide FoldsToTree, IsPow2, LargestPow2;
    if count == 0 {
      FoldIsLeaf(mode, first, data, last);
    } else {
      var left := LargestPow2(count);
      var low, high := data[..1024 * left], data[1024 * left..];
      assert data == low + high;
      FoldIsTree(mode, first + left, count - left, high, last);
      FoldIsTreeAbove(mode, first, left, count, low, high, last);
    }
  }

  lemma FoldIsLeaf(mode: Mode, first: nat, data: seq<Byte>, last: seq<Byte>)
    requires data == [] && |last| <= CHUNK_LEN
    ensures FoldsToTree(mode, first, 0, data, last)
  {
    assert data + last == last;
    LeafTree(mode, first, last);
  }

  lemma FoldIsTreeAbove(mode: Mode, first: nat, left: nat, count: nat, low: seq<Byte>, high: seq<Byte>, last: seq<Byte>)
    requires IsPow2(left) && 1 <= left <= count < 2 * left
    requires |low| == 1024 * left && |high| == 1024 * (count - left) && 0 < |last| <= CHUNK_LEN
    requires FoldsToTree(mode, first + left, count - left, high, last)
    ensures FoldsToTree(mode, first, count, low + high, last)
  {
    hide Mode.TreeOutput, Mode.ChunkOutput, IsPow2, LargestPow2, Stack;
    StackOfLowTree(mode, first, left, count, low, high);
    FoldBottom(mode, mode.Cv(mode.TreeOutput(first, low)), Stack(mode, first + left, count - left, high),
               mode.ChunkOutput(first + count, last));
    assert low + high + last == low + (high + last);
    TreeOfTwo(mode, first, left, low, high + last);
  }
}
