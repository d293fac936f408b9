/** The streaming hasher: it compresses a block, and commits a chunk, only when more input proves
    that it was not the last one. */
module Blake3Hasher {
  import opened Blake3
  import opened Bytes

  /** Blocks already compressed when `length` bytes of a chunk have come: the last block, even a full one, waits. */
  function BlocksBefore(length: nat): (n: nat)
    ensures BLOCK_LEN * n <= length <= BLOCK_LEN * (n + 1) && (length > 0 ==> BLOCK_LEN * n < length)
  {
    if length == 0 then 0 else (length - 1) / BLOCK_LEN
  }

  lemma Regroup(done: seq<Byte>, pending: seq<Byte>, data: seq<Byte>, take: nat)
    requires take <= |data|
    ensures done + pending + data == done + (pending + data[..take]) + data[take..]
  {
  }

  class ChunkState {
    const mode: Mode
    const chunkCounter: nat
    var cv: seq<Word>
    var block: array<Byte>
    var blockLen: nat
    var blocksCompressed: nat

    /** `done` has been compressed, `pending` sits in the block buffer. */
    ghost predicate Split(done: seq<Byte>, pending: seq<Byte>)
      reads this, block
    {
      block.Length == BLOCK_LEN && blockLen == |pending| <= BLOCK_LEN && block[..] == Pad(pending) &&
      |done| == BLOCK_LEN * blocksCompressed && cv == CvAfter(mode, chunkCounter, done)
    }

    /** Every field is a function of the chunk's bytes so far. */
    ghost predicate Holds(bytes: seq<Byte>)
      reads this, block
    {
      var n := BLOCK_LEN * BlocksBefore(|bytes|);
      Split(bytes[..n], bytes[n..])
    }

    lemma HeldAs(bytes: seq<Byte>) returns (done: seq<Byte>, pending: seq<Byte>)
      requires Holds(bytes)
      ensures Split(done, pending) && bytes == done + pending && (done == [] || pending != [])
    {
      var n := BLOCK_LEN * BlocksBefore(|bytes|);
      done, pending := bytes[..n], bytes[n..];
    }

    lemma SplitHolds(done: seq<Byte>, pending: seq<Byte>)
      requires Split(done, pending) && (done == [] || pending != [])
      ensures Holds(done + pending)
    {
      hide CvAfter;
      assert BlocksBefore(|done + pending|) == blocksCompressed;
      assert (done + pending)[..|done|] == done && (done + pending)[|done|..] == pending;
    }

    constructor (mode: Mode, chunkCounter: nat)
      ensures this.mode == mode && this.chunkCounter == chunkCounter
      ensures Holds([]) && fresh(block)
    {
      this.mode := mode;
      this.chunkCounter := chunkCounter;
      cv := mode.key;
      block := new Byte[BLOCK_LEN](_ => 0);
      blockLen := 0;
      blocksCompressed := 0;
      new;
      assert block[..] == Pad([]);
    }

    function Length(): nat
      reads this
    {
      BLOCK_LEN * blocksCompressed + blockLen
    }

    function StartFlag(): nat
      reads this
    {
      if blocksCompressed == 0 then CHUNK_START else 0
    }

    /** A full block is compressed before anything is added to it, never after. */
    method CompressFullBlock(ghost done: seq<Byte>, ghost pending: seq<Byte>)
      requires Split(done, pending) && blockLen == BLOCK_LEN
      modifies this
      ensures Split(done + pending, []) && fresh(block)
    {
      assert block[..] == pending;
      assert (done + pending)[..|done|] == done && (done + pending)[|done|..] == pending;
      cv := mode.compress(cv, WordsFromLE(block[..]), chunkCounter, BLOCK_LEN, Or(mode.flags, StartFlag()))[..8];
      blocksCompressed := blocksCompressed + 1;
      block := new Byte[BLOCK_LEN](_ => 0);
      blockLen := 0;
      assert block[..] == Pad([]);
    }

    method Append(part: seq<Byte>, ghost done: seq<Byte>, ghost pending: seq<Byte>)
      requires Split(done, pending) && |part| <= BLOCK_LEN - blockLen
      modifies this`blockLen, block
      ensures Split(done, pending + part)
    {
      forall i | 0 <= i < |part| {
        block[blockLen + i] := part[i];
      }
      assert block[..] == Pad(pending + part);
      blockLen := blockLen + |part|;
    }

    method Update(input: seq<Byte>, ghost before: seq<Byte>)
      requires Holds(before)
      modifies this, block
      ensures Holds(before + input) && (block == old(block) || fresh(block))
    {
      hide Holds, CvAfter, Pad, BlocksBefore;
      var data := input;
      ghost var done, pending := HeldAs(before);
      while data != []
        invariant Split(done, pending) && (done == [] || pending != [])
        invariant done + pending + data == before + input
        invariant block == old(block) || fresh(block)
        decreases |data|
      {
        if blockLen == BLOCK_LEN {
          CompressFullBlock(done, pending);
          done, pending := done + pending, [];
        }
        var take := if BLOCK_LEN - blockLen <= |data| then BLOCK_LEN - blockLen else |data|;
        Append(data[..take], done, pending);
        Regroup(done, pending, data, take);
        pending := pending + data[..take];
        data := data[take..];
      }
      SplitHolds(done, pending);
      assert done + pending == before + input;
    }

    function Output(): Output
      reads this, block
      requires block.Length == BLOCK_LEN
    {
      Blake3.Output.Output(cv, WordsFromLE(block[..]), chunkCounter, blockLen,
                           Or(Or(mode.flags, StartFlag()), CHUNK_END))
    }

    lemma OutputIsChunkOutput(bytes: seq<Byte>)
      requires Holds(bytes) && |bytes| <= CHUNK_LEN
      ensures block.Length == BLOCK_LEN && Output() == mode.ChunkOutput(chunkCounter, bytes)
    {
      var n := BLOCK_LEN * BlocksBefore(|bytes|);
      var done, rest := bytes[..n], bytes[n..];
      assert bytes == done + rest;
      BlocksSplit(mode, chunkCounter, done, rest);
    }
  }
  /** Chunks already committed when `length` bytes have come: the last chunk, even a full one, waits. */
  function ChunksBefore(length: nat): (n: nat)
    ensures 1024 * n <= length <= 1024 * (n + 1) && (length > 0 ==> 1024 * n < length)
  {
    if length == 0 then 0 else (length - 1) / CHUNK_LEN
  }

  /** The first `length` root bytes of an output, block after block. */
  method RootOutputBytes(compress: Compression, output: Output, length: nat) returns (bytes: seq<Byte>)
    ensures bytes == output.RootBytes(compress, length)
  {
    var out: seq<Byte> := [];
    var counter := 0;
    while |out| < length
      invariant |out| == 64 * counter
      invariant out == output.RootBytes(compress, 64 * counter)
    {
      var words := compress(output.cv, output.blockWords, counter, output.blockLen, Or(output.flags, ROOT));
      var blockBytes := BytesLE(words);
      assert forall i | 0 <= i < 64 :: blockBytes[i] == output.RootByte(compress, 64 * counter + i);
      out := out + blockBytes;
      counter := counter + 1;
    }
    bytes := out[..length];
  }

  function ByteLE(w: Word, i: nat): Byte
    requires i < 4
  {
    if i == 0 then w % 0x100 else if i == 1 then w / 0x100 % 0x100
    else if i == 2 then w / 0x1_0000 % 0x100 else w / 0x100_0000 % 0x100
  }

  function BytesLE(words: Words16): (bytes: seq<Byte>)
    ensures |bytes| == 64
  {
    seq(64, i requires 0 <= i < 64 => ByteLE(words[i / 4], i % 4))
  }

  class Hasher {
    const mode: Mode
    var chunkState: ChunkState
    var cvStack: seq<seq<Word>>

    /** Every field is a function of the bytes so far. */
    ghost predicate Holds(bytes: seq<Byte>)
      reads this, chunkState, chunkState.block
    {
      var n := ChunksBefore(|bytes|);
      Split(bytes[..1024 * n], bytes[1024 * n..])
    }

    /** `done` has been committed to the stack, `pending` is in the chunk state. */
    ghost predicate Split(done: seq<Byte>, pending: seq<Byte>)
      reads this, chunkState, chunkState.block
    {
      |done| == 1024 * chunkState.chunkCounter && |pending| <= CHUNK_LEN &&
      cvStack == Stack(mode, 0, chunkState.chunkCounter, done) &&
      chunkState.mode == mode && chunkState.Holds(pending)
    }

    lemma HeldAs(bytes: seq<Byte>) returns (done: seq<Byte>, pending: seq<Byte>)
      requires Holds(bytes)
      ensures Split(done, pending) && bytes == done + pending && (done == [] || pending != [])
    {
      var n := 1024 * ChunksBefore(|bytes|);
      done, pending := bytes[..n], bytes[n..];
    }

    lemma SplitHolds(done: seq<Byte>, pending: seq<Byte>)
      requires Split(done, pending) && (done == [] || pending != [])
      ensures Holds(done + pending)
    {
      hide Stack, ChunkState.Holds;
      assert ChunksBefore(|done + pending|) == chunkState.chunkCounter;
      assert (done + pending)[..|done|] == done && (done + pending)[|done|..] == pending;
    }

    constructor (mode: Mode)
      ensures this.mode == mode && Holds([])
      ensures fresh(chunkState) && fresh(chunkState.block)
    {
      this.mode := mode;
      chunkState := new ChunkState(mode, 0);
      cvStack := [];
    }

    /** Never pops an empty stack: `CanMerge` is what `StackPush` shows of every reachable one. */
    method AddChunkCv(cv: seq<Word>, total: nat)
      requires CanMerge(|cvStack|, total)
      modifies this`cvStack
      ensures cvStack == Merge(mode, old(cvStack), cv, total)
    {
      var newCv, totalChunks := cv, total;
      while totalChunks % 2 == 0
        invariant CanCarry(|cvStack|, totalChunks)
        invariant Carry(mode, cvStack, newCv, totalChunks) == Merge(mode, old(cvStack), cv, total)
        decreases totalChunks
      {
        var top := cvStack[|cvStack| - 1];
        cvStack := cvStack[..|cvStack| - 1];
        newCv := mode.ParentOutput(top, newCv).ChainingValue(mode.compress);
        totalChunks := totalChunks / 2;
      }
      cvStack := cvStack + [newCv];
    }

    /** A full chunk is committed before anything is added to it, never after. */
    method CommitFullChunk(ghost done: seq<Byte>, ghost pending: seq<Byte>)
      requires Split(done, pending) && |pending| == CHUNK_LEN
      modifies this
      ensures Split(done + pending, []) && fresh(chunkState) && fresh(chunkState.block)
    {
      hide Stack, Merge, CanMerge, ChunkState.Holds, Mode.ChunkOutput;
      chunkState.OutputIsChunkOutput(pending);
      StackPushes(done, pending);
      var cv := chunkState.Output().ChainingValue(mode.compress);
      var total := chunkState.chunkCounter + 1;
      AddChunkCv(cv, total);
      chunkState := new ChunkState(mode, total);
    }

    lemma StackPushes(done: seq<Byte>, chunk: seq<Byte>)
      requires |done| == 1024 * chunkState.chunkCounter && |chunk| == CHUNK_LEN
      ensures
        var count := chunkState.chunkCounter;
        var stack := Stack(mode, 0, count, done);
        CanMerge(|stack|, count + 1) &&
        Merge(mode, stack, mode.ChunkOutput(count, chunk).ChainingValue(mode.compress), count + 1)
          == Stack(mode, 0, count + 1, done + chunk)
    {
      hide Stack, Merge, CanMerge, Mode.ChunkOutput;
      StackPush(mode, 0, chunkState.chunkCounter, done, chunk);
    }

    method Update(input: seq<Byte>, ghost before: seq<Byte>)
      requires Holds(before)
      modifies this, chunkState, chunkState.block
      ensures Holds(before + input)
      ensures chunkState == old(chunkState) || fresh(chunkState)
      ensures chunkState.block == old(chunkState.block) || fresh(chunkState.block)
    {
      hide Holds, ChunksBefore, ChunkState.Holds, Stack;
      var data := input;
      ghost var done, pending := HeldAs(before);
      while data != []
        invariant Split(done, pending) && (done == [] || pending != [])
        invariant done + pending + data == before + input
        invariant chunkState == old(chunkState) || fresh(chunkState)
        invariant chunkState.block == old(chunkState.block) || fresh(chunkState.block)
        decreases |data|
      {
        LengthIs(pending);
        if chunkState.Length() == CHUNK_LEN {
          CommitFullChunk(done, pending);
          done, pending := done + pending, [];
          LengthIs(pending);
        }
        var room := CHUNK_LEN - chunkState.Length();
        var take := if room <= |data| then room else |data|;
        chunkState.Update(data[..take], pending);
        Regroup(done, pending, data, take);
        pending := pending + data[..take];
        data := data[take..];
      }
      SplitHolds(done, pending);
      assert done + pending == before + input;
    }

    lemma LengthIs(pending: seq<Byte>)
      requires chunkState.Holds(pending)
      ensures chunkState.Length() == |pending|
    {
    }

    method Finalize(length: nat, ghost bytes: seq<Byte>) returns (digest: seq<Byte>)
      requires Holds(bytes)
      ensures digest == mode.Hash(bytes, length)
    {
      ghost var tree := mode.TreeOutput(0, bytes);
      var output := chunkState.Output();
      FoldsToTreeOf(bytes);
      var remaining := |cvStack|;
      while remaining > 0
        invariant 0 <= remaining <= |cvStack|
        invariant Fold(mode, cvStack[..remaining], output) == tree
      {
        remaining := remaining - 1;
        assert cvStack[..remaining + 1][..remaining] == cvStack[..remaining];
        output := mode.ParentOutput(cvStack[remaining], output.ChainingValue(mode.compress));
      }
      digest := RootOutputBytes(mode.compress, output, length);
    }

    lemma FoldsToTreeOf(bytes: seq<Byte>)
      requires Holds(bytes)
      ensures chunkState.block.Length == BLOCK_LEN
      ensures Fold(mode, cvStack[..|cvStack|], chunkState.Output()) == mode.TreeOutput(0, bytes)
    {
      var done, pending := HeldAs(bytes);
      chunkState.OutputIsChunkOutput(pending);
      FoldIsTree(mode, 0, chunkState.chunkCounter, done, pending);
      assert cvStack[..|cvStack|] == cvStack;
    }
  }

  /** However the bytes were cut into updates, the whole state is the same. */
  lemma StateIsDetermined(a: Hasher, b: Hasher, bytes: seq<Byte>)
    requires a.mode == b.mode && a.Holds(bytes) && b.Holds(bytes)
    ensures a.cvStack == b.cvStack && |a.cvStack| == PopCount(ChunksBefore(|bytes|))
    ensures a.chunkState.chunkCounter == b.chunkState.chunkCounter && a.chunkState.cv == b.chunkState.cv
    ensures a.chunkState.block[..] == b.chunkState.block[..] && a.chunkState.blockLen == b.chunkState.blockLen
    ensures a.chunkState.blocksCompressed == b.chunkState.blocksCompressed
    ensures bytes != [] ==> 1 <= a.chunkState.blockLen <= BLOCK_LEN
  {
    hide CvAfter, Stack;
    var n := ChunksBefore(|bytes|);
    StackSize(a.mode, 0, n, bytes[..1024 * n]);
  }

  function Flatten(pieces: seq<seq<Byte>>): seq<Byte> {
    if pieces == [] then [] else Flatten(pieces[..|pieces| - 1]) + pieces[|pieces| - 1]
  }

  method HashPieces(mode: Mode, pieces: seq<seq<Byte>>, length: nat) returns (digest: seq<Byte>)
    ensures digest == mode.Hash(Flatten(pieces), length)
  {
    hide Mode.TreeOutput;
    var h := new Hasher(mode);
    var i := 0;
    while i < |pieces|
      invariant 0 <= i <= |pieces| && fresh(h) && fresh(h.chunkState) && fresh(h.chunkState.block)
      invariant h.mode == mode && h.Holds(Flatten(pieces[..i]))
    {
      assert pieces[..i + 1][..i] == pieces[..i];
      h.Update(pieces[i], Flatten(pieces[..i]));
      i := i + 1;
    }
    assert pieces[..i] == pieces;
    digest := h.Finalize(length, Flatten(pieces));
  }

  /** A new hasher, one update, one digest. */
  method HashOnce(mode: Mode, data: seq<Byte>, length: nat) returns (digest: seq<Byte>)
    ensures digest == mode.Hash(data, length)
  {
    hide Mode.TreeOutput;
    var h := new Hasher(mode);
    h.Update(data, []);
    assert [] + data == data;
    digest := h.Finalize(length, data);
  }

  method Hash(compress: Compression, data: seq<Byte>, length: nat) returns (digest: seq<Byte>)
    ensures digest == Mode(compress, IV, 0).Hash(data, length)
  {
    digest := HashOnce(Mode(compress, IV, 0), data, length);
  }

  method KeyedHash(compress: Compression, key: seq<Byte>, data: seq<Byte>, length: nat) returns (digest: seq<Byte>)
    requires |key| == KEY_LEN
    ensures digest == Mode(compress, WordsFromLE(key), KEYED_HASH).Hash(data, length)
  {
    digest := HashOnce(Mode(compress, WordsFromLE(key), KEYED_HASH), data, length);
  }

  /** Derivation hashes the context for a key, then the material under it. */
  method DeriveKey(compress: Compression, context: seq<Byte>, material: seq<Byte>, length: nat) returns (digest: seq<Byte>)
    ensures
      var contextKey := Mode(compress, IV, DERIVE_KEY_CONTEXT).Hash(context, KEY_LEN);
      digest == Mode(compress, WordsFromLE(contextKey), DERIVE_KEY_MATERIAL).Hash(material, length)
  {
    hide Mode.TreeOutput;
    var contextKey := HashOnce(Mode(compress, IV, DERIVE_KEY_CONTEXT), context, KEY_LEN);
    digest := HashOnce(Mode(compress, WordsFromLE(contextKey), DERIVE_KEY_MATERIAL), material, length);
  }
}
