# What the cores of ratatosk promise

Ratatosk is a messenger. This project models its five most intricate pieces in Dafny and proves what each is
for. `dafny verify dfyconfig.toml` checks everything.

**Hashing** (`Bytes`, `Blake3`, `Blake3Hasher`, `Blake3Words`). The reference BLAKE3 keeps a block buffer, a chunk and
a stack of subtree values, and compresses as late as it can. `Blake3` states the tree hash of the BLAKE3 paper
(sections 2.1, 2.4 and 2.5) as a recursion over the whole input; `Blake3Hasher` holds the two classes with
their buffers and loops. The compression function is a parameter: nothing proved here depends on what it
computes. `Holds(bytes)` ties every field of a state to the bytes fed so far. `Blake3Words` says, by numbers and
single bits, which words, flags and counters enter each compression and which bytes leave the last.

**Canonical CBOR and what is made of it** (`Cbor`, `Canonical`, `CanonicalLaws`, `CanonicalTheorems`, `CanonicalOrder`,
`LooseForms`, `Utf8Text`, `Fields`, `Envelopes`, `Base32`, `Cards`, `Fingerprints`, `WireForms`). `Cbor` is a writer and a reader by
section 3 of RFC 8949; the reader also takes longer heads, indefinite lengths and unsorted maps, up to a depth that is a parameter.
`Denote` gives a value its meaning, in which a map is a multiset of pairs, so that neither order nor sorting
can be confused with what is being said. Canonical form is that of section 4.2.1 of RFC 8949. Base32 is that of
section 6 of RFC 4648. `CanonicalOrder` says the order of keys by the first byte that differs, and gives bytes from
Appendix A of RFC 8949; `LooseForms` what is read only to be refused; `WireForms` under which numbers fields stand and
which letters stand for which bits.

**The companion terminal** (`CompanionProtocol`, `CompanionProtocolLaws`, `CompanionRuns`, `CompanionTerminal`) is
a step machine: one input, a new state, a list of effects. `Step` is the specification;
`CompanionTerminal.CompanionClient` is the object whose methods change its fields in place, each proved to do
what its handler in the specification does. The driver around it (`CompanionDriver`, `CompanionFiles`) writes and
reads files and feeds its own answers back.

* Downloads: `CompanionDownload`, `CompanionFeed`, `CompanionDownloadRuns`. The phone is honest but free in time:
  it serves one or more whole chunks, or the tail, from the index asked, at any moment or never. Every write,
  rename and removal may fail (`Luck`), and a failed write may leave anything in the partial file.
  `CompanionSaveRuns` says which saves have a download behind them; `CompanionFinish` what a finished one leaves on the
  disk, and that none is ever beyond finishing.
* Uploads: `CompanionPhone`, `CompanionUpload`, `CompanionUploadState`, `CompanionUploadFeed`, `CompanionUploadAnswers`,
  `CompanionUploadRuns`. The phone handles any request it was ever sent, any number of times, may refuse, and may
  forget a file as a whole. Answers arrive late, more than once, or never.
* `CompanionResume` says exactly which requests go out, and how both transfers are taken up again over a new link;
  `CompanionUploadFinish` and `CompanionLongText` that a message on its way can still arrive, and exactly when.
* `CompanionSpoiling`, `CompanionLateAnswer` and `CompanionEarlyMessage` say exactly when a message may be begun.

**The terminal's memory** (`CompanionCache`, `CompanionPages`, `CompanionCacheLaws`, `CompanionCacheTheorems`,
`CompanionMemory`, `CompanionNews`, `CompanionForgetting`). The bounded cache is compared with a plain replay (`LastWord`) of what
was ever heard about a message, and its list of chats with the last time each was used; `CompanionForgetting` says what is
forgotten, and that nothing else is. `Snapshots`, `SnapshotLaws` and
`SnapshotTheorems` take it through the codec and back; `CacheOnDisk` takes the snapshot to a disk whose writes fail;
`CompanionRestart` says what a terminal started from the file knows.

**Small cores**: `Timers` (the driver's ordered queue), `Words64`, `Entropy` and `EntropyWords` (the seeded generator,
on words of 64 bits), `Fingerprints`.

Where the source fills or changes something in place, the model has a method or a class that does the same and is
proved equal to a function; the theorems are about that function. No operation has a precondition that the source does
not have: that the phone is honest is a hypothesis of theorems (`Honest`, `HonestRun`, `Fair`) about what the operations
keep. The field `confirmed` of the cache is the source's `fresh`.

## Where a promise does not hold as stated

* A card encodes to the bytes of its normal form exactly when no key of a wrong length had to be dropped
  (`Cards.NormalForm`).
* The order in which chats were last used does not survive a restart, unless it was ascending by id: from then on the
  chat with the smallest id gives way first (`CompanionRestart.OrderComesBackIff`, `CompanionRestart.SmallestGivesWay`).
  `CompanionCacheTheorems.LeastRecentGivesWay` is about one life of a terminal.
* A snapshot whose write failed, followed by turning the cache on at another path, is written over the file that has just
  been read there (`CacheOnDisk.LeftoverGoesAstray` has the exact condition).
* A message begun while the answer to an earlier one's chunk or offer is awaited may name the wrong files, or none: the
  acknowledgement does not compare file ids. It takes no more than a change of mind while a chunk is on its way, with
  every answer in order (`CompanionEarlyMessage.InOrderNamesNothing`); the request that then goes out names no file and
  is one the phone's own decoder refuses (`crates/proto/src/companion.rs:2395`).
  `CompanionLateAnswer.SafeIffQuiet` has the exact condition.
* A save has no download behind it, and blocks every other while it lasts, exactly when its first request did not go out
  or the pairing has been revoked (`CompanionSaveRuns.StuckIff`).
* A message is begun whatever its text, and a text longer than 65221 bytes is refused only when every file is already on
  the phone; the message then neither goes nor ends, until it is given up. That a message under way can still be sent holds
  exactly when its text is no longer (`CompanionLongText.SendableIff`, `CompanionLongText.RefusedLast`).

## Model

| member | source | states |
|---|---|---|
| `Blake3.LeftChunksIsLargest` | `tools/blake3_ref.py:169-174` | the left subtree that the merging builds holds the largest power of two of chunks that leaves at least a byte to the right |
| `Blake3.BlocksSplit` | `tools/blake3_ref.py:122-139` | compressing whole blocks early and finishing with what is left gives the chunk's own output, CHUNK_START on the first block only and CHUNK_END on the last only, as long as the last block was not compressed early |
| `Blake3.StackSize` | `tools/blake3_ref.py:169-174` | after `count` chunks the stack holds as many subtree roots as `count` has one bits |
| `Blake3.MergeAbove` | `tools/blake3_ref.py:169-174` | below the highest binary digit of the chunk count, merging leaves the bottom of the stack alone |
| `Blake3.MergeThrough` | `tools/blake3_ref.py:169-174` | when merging folds a whole stack into one value, one digit more folds in the value below it as the left child |
| `Blake3.StackPush` | `tools/blake3_ref.py:169-174` | for every number of chunks, adding a chunk never pops an empty stack and turns the stack of complete subtrees for `count` chunks into the one for `count + 1` |
| `Blake3.FoldIsTree` | `tools/blake3_ref.py:187-195` | folding the stack from the top over the last, uncommitted chunk is the recursive tree hash of all the bytes |
| `Blake3.ShorterIsPrefix` | `tools/blake3_ref.py:95-104` | a shorter output is a prefix of a longer one, for every input and mode |
| `Blake3Hasher.ChunkState.constructor` | `tools/blake3_ref.py:108-114` | a new chunk holds no bytes |
| `Blake3Hasher.ChunkState.CompressFullBlock` | `tools/blake3_ref.py:122-134` | a full block is compressed only when more bytes are to follow |
| `Blake3Hasher.ChunkState.Append` | `tools/blake3_ref.py:122-134` | bytes put into the block buffer are pending, everything before them stays |
| `Blake3Hasher.ChunkState.Update` | `tools/blake3_ref.py:122-134` | the chunk then holds what it held and the new bytes: block buffer, counters and chaining value all follow from the bytes alone |
| `Blake3Hasher.ChunkState.OutputIsChunkOutput` | `tools/blake3_ref.py:136-139` | the output of a chunk state is the recursive chunk output of exactly the bytes it holds |
| `Blake3Hasher.RootOutputBytes` | `tools/blake3_ref.py:95-104` | the loop over root blocks gives the first `length` bytes of the unbounded root output |
| `Blake3Hasher.Hasher.constructor` | `tools/blake3_ref.py:148-153` | a new hasher holds no bytes |
| `Blake3Hasher.Hasher.AddChunkCv` | `tools/blake3_ref.py:169-174` | the loop is `Merge`, under the condition that keeps it from popping an empty stack, which every reachable stack meets |
| `Blake3Hasher.Hasher.CommitFullChunk` | `tools/blake3_ref.py:176-182` | a full chunk is committed only when more bytes are to follow, and then the stack is that of one chunk more |
| `Blake3Hasher.Hasher.Update` | `tools/blake3_ref.py:176-185` | the hasher then holds what it held and the new bytes |
| `Blake3Hasher.Hasher.Finalize` | `tools/blake3_ref.py:187-195` | the digest of a hasher that holds `bytes` is the recursive tree hash of `bytes`, for every length of output |
| `Blake3Hasher.StateIsDetermined` | `tools/blake3_ref.py:107-195` | two hashers that hold the same bytes are equal in every field, however the bytes were cut into updates; the stack has popcount entries, and a non-empty chunk has 1 to 64 pending bytes |
| `Blake3Hasher.HashPieces` | `tools/blake3_ref.py:176-195` | any sequence of updates hashes to the tree hash of the concatenation |
| `Blake3Hasher.HashOnce` | `tools/blake3_ref.py:198-201` | a new hasher, one update and one digest give the tree hash |
| `Blake3Hasher.Hash` | `tools/blake3_ref.py:198-201` | plain hashing is the tree hash with the initial words and no flags |
| `Blake3Hasher.KeyedHash` | `tools/blake3_ref.py:204-207` | keyed hashing is the tree hash with the key's words and KEYED_HASH |
| `Blake3Hasher.DeriveKey` | `tools/blake3_ref.py:210-215` | derivation is the tree hash of the context under DERIVE_KEY_CONTEXT, whose 32 bytes key the tree hash of the material under DERIVE_KEY_MATERIAL |
| `Cbor.HeadRead` | `crates/codec/src/canonical.rs:67-75` | the reader gives back every head the writer makes, whatever follows |
| `Cbor.ReadWrite` | `crates/codec/src/canonical.rs:67-75` | every value that fits the wire and the reader's limit reads back from its bytes, and the reader stops exactly where they end |
| `CanonicalLaws.WriteInjective` | `crates/codec/src/canonical.rs:128-131` | no two values are written alike |
| `CanonicalTheorems.ReadReadable` | `crates/codec/src/canonical.rs:80-101` | whatever the reader gives, from any bytes (longer heads, indefinite lengths, unsorted maps included), can be written and read again |
| `Canonical.NeighboursSuffice` | `crates/codec/src/canonical.rs:103-126` | after the bytewise sort, comparing neighbours finds a duplicate exactly when there is one |
| `CanonicalLaws.SameKey` | `crates/codec/src/canonical.rs:103-126` | two keys have equal canonical bytes exactly when they mean the same |
| `CanonicalLaws.DistinctIff` | `crates/codec/src/canonical.rs:103-126` | the keyed entries of a map are distinct exactly when no two of its keys mean the same |
| `CanonicalLaws.CanonicalizeFaithful` | `crates/codec/src/canonical.rs:103-126` | the canonical form means the same, is in order at every depth, and stays readable |
| `CanonicalLaws.InOrderUnique` | `crates/codec/src/canonical.rs:103-126` | values in canonical order that mean the same are equal: the sorted form is unique |
| `CanonicalLaws.CanonicalFixed` | `crates/codec/src/canonical.rs:103-126` | a value in canonical order is its own canonical form |
| `CanonicalTheorems.AmbiguityIsMeaning` | `crates/codec/src/canonical.rs:103-126` | whether some map at some depth has two equal keys does not depend on the order of entries anywhere |
| `CanonicalTheorems.EncodesIffUnambiguous` | `crates/codec/src/canonical.rs:67-126` | encoding fails exactly when some map at some depth has two keys that mean the same |
| `CanonicalTheorems.CanonicalizeIdempotent` | `crates/codec/src/canonical.rs:103-126` | canonicalizing twice is canonicalizing once |
| `CanonicalTheorems.EntryOrderIsForgotten` | `crates/codec/src/canonical.rs:67-126` | permuting the entries of any maps at any depth changes neither success nor the bytes |
| `CanonicalTheorems.EncodingIsMeaning` | `crates/codec/src/canonical.rs:67-126` | equal bytes, equal canonical forms and equal meanings are the same thing |
| `CanonicalTheorems.DecodeEncode` | `crates/codec/src/canonical.rs:67-101` | decoding an encoding gives exactly the canonical form |
| `CanonicalTheorems.DecodeSound` | `crates/codec/src/canonical.rs:80-101` | an accepted byte string is the writer's own bytes for a value in canonical order |
| `CanonicalTheorems.DecodeIffEncoding` | `crates/codec/src/canonical.rs:80-101` | decoding accepts exactly the image of encoding, in both directions |
| `CanonicalTheorems.OneEncodingPerMeaning` | `crates/codec/src/canonical.rs:80-101` | of all byte strings of one meaning at most one is accepted |
| `CanonicalTheorems.TrailingBytesRefused` | `crates/codec/src/canonical.rs:80-101` | an accepted string followed by anything at all is refused as not canonical |
| `CanonicalTheorems.CanonicalizeInPlace` | `crates/codec/src/canonical.rs:103-126` | the function that fills, sorts and checks a local vector is `Canonicalize` |
| `CanonicalTheorems.CanonicalizeItems` | `crates/codec/src/canonical.rs:103-126` | the loop over array items stops at the first failure and otherwise keeps order |
| `CanonicalTheorems.CanonicalizeEntries` | `crates/codec/src/canonical.rs:103-126` | the loop over map entries keys every entry by its canonical key bytes |
| `CanonicalTheorems.RefuseDuplicates` | `crates/codec/src/canonical.rs:103-126` | the pairwise scan reports the first duplicate of the sorted vector, or rebuilds the map |
| `CanonicalTheorems.SortInPlace` | `crates/codec/src/canonical.rs:103-126` | the sort of the vector is the stable sort by key bytes |
| `Fields.GetAt` | `crates/codec/src/canonical.rs:137-142` | in a structure with ascending numeric keys, the field at a place is found under its key |
| `Fields.GetWith` | `crates/codec/src/canonical.rs:137-150` | a field pushed is read back, and every other field as if it had not been pushed |
| `Fields.CanonicalField` | `crates/codec/src/canonical.rs:103-150` | canonicalizing a structure with numeric keys canonicalizes the one field that was out of order, and fails exactly when that field does |
| `Envelopes.CodesRoundTrip` | `crates/codec/src/envelope.rs:413-489` | every code survives `from_code` and back; a type survives exactly when it does not call an assigned code unknown |
| `Envelopes.ParseFields` | `crates/codec/src/envelope.rs:551-647` | parsing gives back every field that encoding pushed |
| `Envelopes.EnvelopeRoundTrip` | `crates/codec/src/envelope.rs:551-647` | an envelope with a sound fragment header encodes exactly when its payload canonicalizes, and decodes to itself with the payload in canonical form and the bytes kept |
| `Envelopes.FragmentsValid` | `crates/codec/src/envelope.rs:505-510` | a bad fragment header is never encoded; what decodes has index < total <= 4096 and keeps the received bytes |
| `Envelopes.EncodeInPlace` | `crates/codec/src/envelope.rs:551-594` | pushing the optional entries onto a local vector gives the same bytes as `Encode` |
| `Cards.CardRoundTrip` | `crates/codec/src/card.rs:183-264` | every card encodes, and decodes to its normal form: three relays at most, mesh and nostr keys empty unless 32 bytes |
| `Cards.NormalForm` | `crates/codec/src/card.rs:183-264` | normal form is final, and a card encodes to the bytes of its normal form exactly when no key of a wrong length was dropped |
| `Cards.UriIff` | `crates/codec/src/card.rs:267-281` | a link is accepted with `bytes` exactly when it is the prefix and the unpadded base32 of `bytes` |
| `Cards.LinkRoundTrip` | `crates/codec/src/card.rs:267-281` | a card's link reads back as its normal form; a link that reads is the only one for its bytes |
| `Cards.UpdatesOnlyForward` | `crates/codec/src/card.rs:297-308` | over any run of updates the identity stays and the version only grows; a replaced card is never accepted again |
| `Base32.ShiftAndMask` | `tools/gen_vectors.py:98-111` | shifting and masking five bits of the growing accumulator picks exactly the next group of the bit string |
| `Base32.NextGroup` | `tools/gen_vectors.py:98-111` | one turn of the inner loop appends the next five-bit digit |
| `Base32.LastGroup` | `tools/gen_vectors.py:98-111` | the last, short group is completed with zero bits |
| `Base32.Digits` | `tools/gen_vectors.py:98-111` | the digits of `n` bytes are exactly ceil(8n/5) |
| `Base32.Pack` | `tools/gen_vectors.py:98-111` | the loop with the never-masked accumulator outputs the five-bit digits of the zero-padded bit string |
| `Base32.DigitsInjective` | `tools/gen_vectors.py:98-111` | no two byte strings pack to the same digits |
| `Base32.UndigitsIffDigits` | `crates/codec/src/card.rs:272-281` | text decodes to `data` exactly when it is the encoding of `data`: wrong lengths and non-zero padding bits are refused |
| `Fingerprints.SixGroupsOfFour` | `tools/gen_vectors.py:114-118` | 24 symbols are cut into six groups of four with nothing left over |
| `Fingerprints.FingerprintIff` | `tools/gen_vectors.py:114-118` | two digests have the same fingerprint exactly when their first fifteen bytes are equal |
| `CompanionPages.MergeMembers` | `crates/core/src/companion.rs:332-348` | a merged page holds only messages of the new page, and known ones whose id the new page does not have; a thousand at most |
| `CompanionPages.MergeKeepsNewest` | `crates/core/src/companion.rs:332-348` | a merge is in (time, id) order, loses nothing while there is room, and what it drops is never newer than what it keeps |
| `CompanionPages.MergeOnce` | `crates/core/src/companion.rs:332-348` | an id that occurs once in both pages occurs once in the merge |
| `CompanionPages.IndexOfOnly` | `crates/core/src/companion.rs:420-437` | looking an id up finds the one message that has it |
| `CompanionCacheLaws.EvictedTidy` | `crates/core/src/companion.rs:486-494` | dropping chats from the front of the list keeps list and pages in step and leaves every other page alone |
| `CompanionCacheLaws.TouchTidy` | `crates/core/src/companion.rs:486-494` | after touching, the list has each remembered chat once and at most 64 of them |
| `CompanionCacheLaws.TrimAvatarsTidy` | `crates/core/src/companion.rs:382-389` | after trimming there are at most 256 faces, each with bytes and a stamp |
| `CompanionCacheLaws.ApplyTidy` | `crates/core/src/companion.rs:288-494` | every cache operation keeps all the bounds, the list duplicate-free and equal to the key set of the pages |
| `CompanionCacheLaws.RunTidy` | `crates/core/src/companion.rs:288-494` | so in every reachable cache |
| `CompanionCacheTheorems.ApplyAgrees` | `crates/core/src/companion.rs:332-483` | one operation keeps every shown message equal to the replay of what was heard about its id |
| `CompanionCacheTheorems.ShownIsLastWord` | `crates/core/src/companion.rs:332-483` | over every run, a shown message is the last word about its id: its last full mention with the later updates applied, and no deletion after it |
| `CompanionCacheTheorems.UsedIsShown` | `crates/core/src/companion.rs:332-409` | a chat just used is shown with the newest of what was known and what came |
| `CompanionCacheTheorems.ListedByLastUse` | `crates/core/src/companion.rs:486-494` | the list of chats is always in the order of their last use |
| `CompanionCacheTheorems.LeastRecentGivesWay` | `crates/core/src/companion.rs:486-494` | a chat that gives way to another was used before every chat that stays, and only when there are 64 |
| `CompanionCacheTheorems.AsManyAsListed` | `crates/core/src/companion.rs:486-494` | there are as many pages as chats in the list |
| `CompanionCacheTheorems.ChangeIsMarked` | `crates/core/src/companion.rs:293-494` | an event that changes what a snapshot is made of sets the flag, and only a snapshot lowers it |
| `CompanionCacheTheorems.UnmarkedIsUnchanged` | `crates/core/src/companion.rs:1585-1593` | over any run without a snapshot, while the flag is down the content is unchanged |
| `CompanionMemory.Find` | `crates/core/src/companion.rs:420-437` | the index of the message with an id, if any |
| `CompanionMemory.EachOf` | `crates/core/src/companion.rs:439-470` | every message of a page is mapped, and it is reported whether any carried the file |
| `CompanionMemory.Cache.constructor` | `crates/core/src/companion.rs:213-216` | a new cache is the empty state |
| `CompanionMemory.Cache.Unconfirm` | `crates/core/src/companion.rs:288-290` | the fields changed in place are the state after `Unconfirm` of the specification, on which the cache theorems rest |
| `CompanionMemory.Cache.Touch` | `crates/core/src/companion.rs:486-494` | the fields changed in place are the state after `Touch` of the specification, on which the cache theorems rest |
| `CompanionMemory.Cache.TrimAvatars` | `crates/core/src/companion.rs:382-389` | the fields changed in place are the state after `TrimAvatars` of the specification, on which the cache theorems rest |
| `CompanionMemory.Cache.RememberChats` | `crates/core/src/companion.rs:293-325` | the fields changed in place are the state after `RememberChats` of the specification, on which the cache theorems rest |
| `CompanionMemory.Cache.RememberPage` | `crates/core/src/companion.rs:332-348` | the fields changed in place are the state after `RememberPage` of the specification, on which the cache theorems rest |
| `CompanionMemory.Cache.RememberAvatar` | `crates/core/src/companion.rs:354-374` | the fields changed in place are the state after `RememberAvatar` of the specification, on which the cache theorems rest |
| `CompanionMemory.Cache.Arrived` | `crates/core/src/companion.rs:392-409` | the fields changed in place are the state after `Arrived` of the specification, on which the cache theorems rest |
| `CompanionMemory.Cache.Reacted` | `crates/core/src/companion.rs:411-418` | the fields changed in place are the state after `Reacted` of the specification, on which the cache theorems rest |
| `CompanionMemory.Cache.Edited` | `crates/core/src/companion.rs:420-437` | the fields changed in place are the state after `Edited` of the specification, on which the cache theorems rest |
| `CompanionMemory.Cache.FileProgress` | `crates/core/src/companion.rs:439-457` | the fields changed in place are the state after `FileProgress` of the specification, on which the cache theorems rest |
| `CompanionMemory.Cache.FileGone` | `crates/core/src/companion.rs:459-470` | the fields changed in place are the state after `FileGone` of the specification, on which the cache theorems rest |
| `CompanionMemory.Cache.Gone` | `crates/core/src/companion.rs:472-484` | the fields changed in place are the state after `Gone` of the specification, on which the cache theorems rest |
| `CompanionMemory.Cache.EachMessage` | `crates/core/src/companion.rs:439-470` | all pages are walked; the state is the mapped history, and whether any message carried the file is reported |
| `SnapshotLaws.CanonicalNumbered` | `crates/core/src/companion.rs:496-544` | a structure with ascending numeric keys is canonical as soon as its fields are |
| `SnapshotLaws.SnapshotCanonical` | `crates/core/src/companion.rs:1604-1625` | encoding a snapshot changes nothing but the order inside its items |
| `SnapshotTheorems.CacheRead` | `crates/core/src/companion.rs:556-612` | a snapshot gives back chats, pages, faces and own face exactly, unconfirmed and unmarked, with the list of chats in the order in which they were walked, if and only if all faces are within the size the reader allows; CompanionRestart says what becomes of the order, and that every face is |
| `SnapshotTheorems.AddressReadsBack` | `crates/core/src/companion.rs:1633-1685` | the address comes back exactly when the wire could have carried it |
| `SnapshotTheorems.SnapshotRestores` | `crates/core/src/companion.rs:1633-1685` | from the sealed bytes of any snapshot of a tidy cache, any terminal restores that content, or refuses the whole and stays as it was |
| `SnapshotTheorems.AnyFileWithinBounds` | `crates/core/src/companion.rs:556-632` | whatever a file says, what comes up from it is within the bounds |
| `SnapshotTheorems.TouchNew` | `crates/core/src/companion.rs:556-612` | re-touching while reading appends to the list, so the order of the file is the order of the list |
| `CompanionRestart.OrderComesBackIff` | `crates/core/src/companion.rs:498-612` | the list of chats, which is the order of their last use, comes back from a snapshot as it was if and only if it happened to be ascending by id, for the map is walked by id and each chat touched in turn |
| `CompanionRestart.SmallestGivesWay` | `crates/core/src/companion.rs:486-494` | after a restart with every place taken, the first chat to give way is the one with the smallest id, and that is the least recently used one if and only if its id is the smallest |
| `CompanionRestart.RunSmall` | `crates/proto/src/companion.rs:2747-2770` | over every run, with no answer carrying a face larger than the wire allows, no face held is larger than the file may hold |
| `CompanionRestart.EverySnapshotRestores` | `crates/core/src/companion.rs:1633-1685` | from the sealed bytes of any snapshot of any reachable cache, any terminal restores all that content: nothing is refused |
| `CompanionRestart.FileAlwaysOpens` | `crates/core/src/companion_driver.rs:1144-1170` | whatever writes failed, once nothing is pending or due another terminal comes up from the file with all that this one knows |
| `CacheOnDisk.RunKeeps` | `crates/core/src/companion_driver.rs:1144-1170` | while one path is kept, whatever writes fail, the last snapshot is in hand or is what the file holds, and while nothing is due it is of the memory as it is |
| `CacheOnDisk.FileIsMemory` | `crates/core/src/companion_driver.rs:1144-1170` | once nothing is pending or due, a terminal started from the file knows what this one knows |
| `CacheOnDisk.TwoWritesSuffice` | `crates/core/src/companion_driver.rs:1144-1170` | two writes that succeed, two seconds apart, leave nothing pending and nothing due |
| `CacheOnDisk.KeptFromTheStart` | `crates/core/src/companion_driver.rs:1090-1121` | with nothing left over from an earlier path, nothing is lost from the moment the cache is turned on |
| `CacheOnDisk.LeftoverGoesAstray` | `crates/core/src/companion_driver.rs:1090-1121` | a file that has just come up stays as it is exactly when no other snapshot is left over from an earlier path; a leftover is written over it, and nothing is due to put that right |
| `CacheOnDisk.NothingWrittenAfterOff` | `crates/core/src/companion_driver.rs:1122-1134` | after switching off, nothing reaches the disk over any run |
| `CacheOnDisk.Driver.constructor` | `crates/core/src/companion_driver.rs:653-688` | nothing kept, nothing pending |
| `CacheOnDisk.Driver.PersistCache` | `crates/core/src/companion_driver.rs:1144-1170` | the fields changed in place are the state after `Persist` |
| `CacheOnDisk.Driver.KeepCache` | `crates/core/src/companion_driver.rs:1090-1121` | the fields changed in place are the state after `StartKeeping` |
| `CacheOnDisk.Driver.StopKeeping` | `crates/core/src/companion_driver.rs:1122-1134` | the fields changed in place are the state after `SwitchOff` |
| `CompanionProtocolLaws.AskGoesOut` | `crates/core/src/companion.rs:2077-2172` | a request goes out at most once, over a live unrevoked link with room, under the next number; otherwise at most a number is spent |
| `CompanionProtocolLaws.AskSound` | `crates/core/src/companion.rs:2077-2172` | asking keeps the link sound and every request already on order |
| `CompanionProtocolLaws.FetchSound` | `crates/core/src/companion.rs:1920-1952` | beginning a download keeps the invariant: unless it waits, its next chunk is on order |
| `CompanionProtocolLaws.LostSound` | `crates/core/src/companion.rs:2027-2063` | losing the channel keeps the invariant: no session, nothing outstanding, both transfers waiting |
| `CompanionProtocolLaws.LinkedSound` | `crates/core/src/companion.rs:2314-2390` | a finished handshake keeps it: a download carried over asks for its next chunk again, or ends |
| `CompanionProtocolLaws.ResumeSound` | `crates/core/src/companion.rs:2393-2417` | resuming keeps it |
| `CompanionProtocolLaws.ChunkSound` | `crates/core/src/companion.rs:2737-2801` | a chunk taken or refused keeps it |
| `CompanionProtocolLaws.StagedSound` | `crates/core/src/companion.rs:2450-2546` | a list of staged files keeps it |
| `CompanionProtocolLaws.RevokedStays` | `crates/core/src/companion.rs:2015-2025` | once revoked, any step says nothing to the phone and leaves no link, no transfer and an empty cache |
| `CompanionProtocolLaws.StepSound` | `crates/core/src/companion.rs:1741-1763` | every step keeps the whole invariant, with a phone that answers in kind |
| `CompanionRuns.ReachableSound` | `crates/core/src/companion.rs:1741-1763` | in every reachable state: session exactly if connected, a pending handshake only without a link, at most 64 outstanding numbers, all below the next, and a download that does not wait has exactly its next chunk on order |
| `CompanionRuns.RevokedForGood` | `crates/core/src/companion.rs:2015-2025` | over every run after a revocation: nothing said, nothing linked, nothing kept |
| `CompanionRuns.NoNumberTwice` | `crates/core/src/companion.rs:2142-2172` | numbers of requests strictly rise over every run, across links |
| `CompanionRuns.AnsweredOnce` | `crates/core/src/companion.rs:2548-2575` | an answer is taken at most once: after any run, another under its number changes nothing |
| `CompanionNews.StepTells` | `crates/core/src/companion.rs:1741-1763` | a step changes the cache by one cache event, determined by the input, and in no other way |
| `CompanionNews.TerminalShowsLastWord` | `crates/core/src/companion.rs:1741-1763` | over every run of the whole terminal, what it shows of a message is the last word it has heard about it, within bounds |
| `CompanionNews.NotDueMeansUnchanged` | `crates/core/src/companion.rs:1585-1625` | over every run of steps without a revocation, if `snapshot_due` is false then everything a snapshot is made of is what it was at the last one |
| `CompanionDownload.EatenReaches` | `crates/core/src/companion.rs:2737-2801` | counting the chunks that came by their length neither skips nor repeats, and the total is reached exactly at the end of the file |
| `CompanionDownload.WriteExtends` | `crates/core/src/companion_driver.rs:1252-1277` | writing what was served at its offset extends the first `next * chunk` bytes to the first of the new `next` |
| `CompanionDownload.StepMoves` | `crates/core/src/companion.rs:1741-1763` | every step either leaves the download alone, begins, ends, takes the awaited chunk, or ends it because its file went away, and shows exactly the events of that |
| `CompanionFeed.StepCalls` | `crates/core/src/companion_driver.rs:1176-1193` | one input calls for at most one answer of the driver, and the driver's own answers call for none |
| `CompanionFeed.FeedIsTwoRounds` | `crates/core/src/companion_driver.rs:1176-1193` | the limit of eight rounds never drops anything: after two the queue is empty |
| `CompanionDownloadRuns.FailedWriteCancels` | `crates/core/src/companion_driver.rs:1252-1277` | a write that fails ends the download too |
| `CompanionDownloadRuns.ObeySide` | `crates/core/src/companion_driver.rs:911-980` | every command keeps the partial file equal to the beginning of the phone's file |
| `CompanionDownloadRuns.DownloadsAreWhole` | `crates/core/src/companion_driver.rs:1252-1305` | over every run: while a download lasts, the partial file is the first min(size, next * chunk) bytes of the phone's file; any path under which no file asked to be saved grows holds what it held, or the whole of a file asked to be saved there |
| `CompanionDownloadRuns.SaveStaysBegun` | `crates/core/src/companion_driver.rs:987-1010` | one command: a save begun by it has a download behind it exactly when the request for the first chunk could go out |
| `CompanionSaveRuns.StepEnds` | `crates/core/src/companion.rs:1741-1763` | no download ends without its end being told, but with a revocation |
| `CompanionSaveRuns.ObeyBacked` | `crates/core/src/companion_driver.rs:911-980` | every command keeps it: a save under way has a download behind it exactly when its first request went out, until a revocation |
| `CompanionSaveRuns.StuckIff` | `crates/core/src/companion_driver.rs:987-1010` | over every run from the start of a terminal, a save under way has no download behind it if and only if its first request did not go out or the pairing has been revoked |
| `CompanionSaveRuns.RevokedLeavesSave` | `crates/core/src/companion_driver.rs:1384-1403` | a revocation in the middle of a download drops the download and leaves the save and its partial file |
| `CompanionPhone.SlicesTile` | `crates/core/src/companion.rs:1370-1382` | the slices of a content, joined in order, are the content |
| `CompanionPhone.PieceIsSlice` | `crates/core/src/companion.rs:1370-1382` | the piece asked for by offset and length is the slice of that index, the last one short |
| `CompanionUpload.StagedMoves` | `crates/core/src/companion.rs:2450-2546` | a waiting upload goes on from the first unfinished file: it sends the message, asks for the first missing chunk, or offers the file anew and lets go of later ids |
| `CompanionUpload.StepOther` | `crates/core/src/companion.rs:1741-1763` | every other input leaves an upload where it was, ends it, or lets it wait |
| `CompanionUploadState.BegunGoes` | `crates/core/src/companion.rs:2603-2622` | a place made for the offered file: its id is appended and its first chunk is next |
| `CompanionUploadState.PutGoes` | `crates/core/src/companion.rs:2627-2643` | a chunk put away: the next one is next, or all of the file is there |
| `CompanionUploadState.HoleGoes` | `crates/core/src/companion.rs:2450-2546` | after a relink, a missing chunk of the last file begun is put next |
| `CompanionUploadFeed.PieceFeed` | `crates/core/src/companion_driver.rs:1306-1368` | a piece wanted is read from the chosen file and put as exactly its slice, or the upload is given up |
| `CompanionUploadAnswers.AnswerFeed` | `crates/core/src/companion.rs:2548-2730` | any true answer, with everything the driver does about it, keeps the upload and all its requests good; that an id answered is new and that earlier requests move nothing is shown of every world by NextGood |
| `CompanionUploadRuns.EverythingSaidIsSent` | `crates/core/src/companion_driver.rs:1176-1193` | whatever the terminal says to the phone is in the record of what was sent, so the theorem below speaks of every message |
| `CompanionUploadRuns.NextGood` | `crates/core/src/companion.rs:1766-1904` | every allowed happening keeps the invariant of the whole world: terminal, driver, phone, and what is under way between them |
| `CompanionUploadRuns.MessagesNameWholeFiles` | `crates/core/src/companion.rs:1845-1861` | over every run of losses, relinks, cancels, late, repeated and missing answers, refusals, forgotten files and failed reads, in which messages are begun only while nothing still awaited can move them on: every message sent names one id per chosen file in the chosen order, and every named file the phone has not forgotten is whole there, its chunks joining to the source file |
| `CompanionEarlyMessage.AnswerNamesNoFile` | `crates/core/src/companion.rs:2627-2643` | which file the answered chunk was of makes no difference to the terminal |
| `CompanionEarlyMessage.LastChunkSends` | `crates/core/src/companion.rs:1845-1861` | once the last chunk of the last file counts as stored the message goes out |
| `CompanionEarlyMessage.InOrderNamesNothing` | `crates/core/src/companion.rs:2627-2643` | from an invitation, with a phone that answers everything in order: a message given up while its chunk is on its way, and the next one goes out naming no file, while the place for its file is still being asked for |
| `CompanionSpoiling.EmptyOffered` | `crates/core/src/companion.rs:2603-2622` | an answered offer of an empty file, whoever made it: its id is taken, the upload stands one file further and asks for what comes next |
| `CompanionSpoiling.FullOffered` | `crates/core/src/companion.rs:2603-2622` | an answered offer of any other file: its id is taken, and the piece is put where the upload stands, if it has an id there |
| `CompanionSpoiling.PutStored` | `crates/core/src/companion.rs:2627-2643` | an acknowledged chunk that counts as the last, whichever it was: the upload stands one file further and asks for what comes next |
| `CompanionLateAnswer.Counted` | `crates/core/src/companion.rs:2627-2643` | for every message just begun, an earlier chunk that can still be acknowledged leads to a message that names the wrong files |
| `CompanionLateAnswer.Doubled` | `crates/core/src/companion.rs:2603-2622` | for every message just begun, an earlier offer that can still be answered leads to one |
| `CompanionLateAnswer.NotQuietSpoils` | `crates/core/src/companion.rs:1766-1839` | so begun while anything can still move it on, every message can be made to name the wrong files by true answers alone |
| `CompanionLateAnswer.QuietIsSafe` | `crates/core/src/companion.rs:1766-1839` | begun while nothing can, it names the chosen files, whole, over every continuation |
| `CompanionLateAnswer.SafeIffQuiet` | `crates/core/src/companion.rs:1766-1839` | for every reachable state and every message begun in it: over every continuation every message sent names the chosen files, whole, if and only if no answer still awaited is to an earlier offer, or to an earlier chunk the phone has stored or still can |
| `CompanionLateAnswer.SafeIffClear` | `crates/core/src/companion.rs:1766-1839` | the same by what the terminal can see: it is enough that no offer and no chunk is on order, and with a phone that has not forgotten those chunks' files it is needed; an unanswered earlier message does no harm |
| `CompanionTerminal.CompanionClient.constructor` | `crates/core/src/companion.rs:1430-1461` | a terminal made from an invitation is unlinked, unrevoked, with an empty cache and no transfer |
| `CompanionTerminal.CompanionClient.TakeAsk` | `crates/core/src/companion.rs:2077-2207` | the fields changed in place, and the effects, are those of the specification's handler |
| `CompanionTerminal.CompanionClient.TakeSend` | `crates/core/src/companion.rs:1766-1839` | the fields changed in place, and the effects, are those of the specification's handler |
| `CompanionTerminal.CompanionClient.Advance` | `crates/core/src/companion.rs:1845-1861` | the fields changed in place, and the effects, are those of the specification's handler |
| `CompanionTerminal.CompanionClient.TakePutChunk` | `crates/core/src/companion.rs:1864-1885` | the fields changed in place, and the effects, are those of the specification's handler |
| `CompanionTerminal.CompanionClient.TakeCancelSend` | `crates/core/src/companion.rs:1888-1904` | the fields changed in place, and the effects, are those of the specification's handler |
| `CompanionTerminal.CompanionClient.TakeCancelFetch` | `crates/core/src/companion.rs:1907-1917` | the fields changed in place, and the effects, are those of the specification's handler |
| `CompanionTerminal.CompanionClient.TakeFetch` | `crates/core/src/companion.rs:1920-1952` | the fields changed in place, and the effects, are those of the specification's handler |
| `CompanionTerminal.CompanionClient.TakeReach` | `crates/core/src/companion.rs:1955-1994` | the fields changed in place, and the effects, are those of the specification's handler |
| `CompanionTerminal.CompanionClient.TakeRevoked` | `crates/core/src/companion.rs:2015-2025` | the fields changed in place, and the effects, are those of the specification's handler |
| `CompanionTerminal.CompanionClient.TakeLost` | `crates/core/src/companion.rs:2027-2063` | the fields changed in place, and the effects, are those of the specification's handler |
| `CompanionTerminal.CompanionClient.DropChannel` | `crates/core/src/companion.rs:2027-2063` | the channel and everything asked over it are gone, nothing else changes |
| `CompanionTerminal.CompanionClient.Stall` | `crates/core/src/companion.rs:2027-2063` | what was on its way waits, and that is told |
| `CompanionTerminal.CompanionClient.OpenChannel` | `crates/core/src/companion.rs:2314-2390` | a fresh channel with nothing outstanding |
| `CompanionTerminal.CompanionClient.Greet` | `crates/core/src/companion.rs:2314-2390` | the fields changed in place, and the effects, are those of the specification's handler |
| `CompanionTerminal.CompanionClient.TakeHandshake` | `crates/core/src/companion.rs:2314-2390` | the fields changed in place, and the effects, are those of the specification's handler |
| `CompanionTerminal.CompanionClient.Resume` | `crates/core/src/companion.rs:2393-2417` | the fields changed in place, and the effects, are those of the specification's handler |
| `CompanionTerminal.CompanionClient.GiveUp` | `crates/core/src/companion.rs:2428-2441` | the fields changed in place, and the effects, are those of the specification's handler |
| `CompanionTerminal.CompanionClient.TakeStaged` | `crates/core/src/companion.rs:2450-2546` | the fields changed in place, and the effects, are those of the specification's handler |
| `CompanionTerminal.CompanionClient.TakeOffered` | `crates/core/src/companion.rs:2603-2622` | the fields changed in place, and the effects, are those of the specification's handler |
| `CompanionTerminal.CompanionClient.TakeStored` | `crates/core/src/companion.rs:2627-2643` | the fields changed in place, and the effects, are those of the specification's handler |
| `CompanionTerminal.CompanionClient.Overtake` | `crates/core/src/companion.rs:2565-2578` | the fields changed in place, and the effects, are those of the specification's handler |
| `CompanionTerminal.CompanionClient.TakeResponse` | `crates/core/src/companion.rs:2548-2730` | the fields changed in place, and the effects, are those of the specification's handler |
| `CompanionTerminal.CompanionClient.TakeRefused` | `crates/core/src/companion.rs:2652-2687` | the fields changed in place, and the effects, are those of the specification's handler |
| `CompanionTerminal.CompanionClient.TakeTransferAnswer` | `crates/core/src/companion.rs:2603-2695` | the fields changed in place, and the effects, are those of the specification's handler |
| `CompanionTerminal.CompanionClient.TakeRememberedAnswer` | `crates/core/src/companion.rs:2581-2717` | the fields changed in place, and the effects, are those of the specification's handler |
| `CompanionTerminal.CompanionClient.TakeAnswer` | `crates/core/src/companion.rs:2580-2730` | the fields changed in place, and the effects, are those of the specification's handler |
| `CompanionTerminal.CompanionClient.TakeChunk` | `crates/core/src/companion.rs:2737-2801` | the fields changed in place, and the effects, are those of the specification's handler |
| `CompanionTerminal.CompanionClient.TakeNotice` | `crates/core/src/companion.rs:2803-2880` | the fields changed in place, and the effects, are those of the specification's handler |
| `CompanionTerminal.CompanionClient.TakeFrame` | `crates/core/src/companion.rs:2223-2275` | the fields changed in place, and the effects, are those of the specification's handler |
| `CompanionTerminal.CompanionClient.Take` | `crates/core/src/companion.rs:1741-1763` | one input taken in place is one `Step`, on which every theorem about runs rests |
| `CompanionFiles.ReadFull` | `crates/core/src/companion_driver.rs:1634-1644` | however little each read gives, the buffer ends up with everything from the offset on, up to its length or the end of the file |
| `CompanionFiles.FileDriver.constructor` | `crates/core/src/companion_driver.rs:653-688` | nothing saved, nothing sent |
| `CompanionFiles.FileDriver.AbandonSave` | `crates/core/src/companion_driver.rs:1082-1087` | the save is forgotten and its partial file removed if it can be |
| `CompanionFiles.FileDriver.OnFileBytes` | `crates/core/src/companion_driver.rs:1252-1277` | bytes are written at their offset; a failed write gives the save up and cancels the download |
| `CompanionFiles.FileDriver.OnFileDone` | `crates/core/src/companion_driver.rs:1278-1305` | the partial file gets its name, or is removed |
| `CompanionFiles.FileDriver.OnNeedChunk` | `crates/core/src/companion_driver.rs:1306-1368` | the piece is read through `ReadFull` and put, or the sending is given up |
| `CompanionFiles.FileDriver.TellOfEnd` | `crates/core/src/companion_driver.rs:1376-1447` | the end of a download removes its partial file, and only its own |
| `CompanionFiles.FileDriver.Tell` | `crates/core/src/companion_driver.rs:1250-1447` | one event shown is `ShowEvent` |
| `CompanionFiles.FileDriver.TellAll` | `crates/core/src/companion_driver.rs:1176-1193` | the effects of one step are shown in order |
| `CompanionFiles.FileDriver.Feed` | `crates/core/src/companion_driver.rs:1176-1193` | the loop over the queue is the specification's `Feed` |
| `CompanionFiles.FileDriver.StartSave` | `crates/core/src/companion_driver.rs:987-1010` | a save begins with an empty partial file beside its path, one at a time |
| `CompanionFiles.FileDriver.StartSend` | `crates/core/src/companion_driver.rs:1019-1075` | every file is opened before the first is offered |
| `CompanionFiles.FileDriver.CancelSave` | `crates/core/src/companion_driver.rs:964-968` | cancelling gives up the save and the download |
| `Timers.InsertAdds` | `crates/core/src/driver.rs:2226-2229` | arming adds exactly the one timer |
| `Timers.InsertInOrder` | `crates/core/src/driver.rs:2226-2229` | arming keeps all timers in order of deadline, and of arming within one |
| `Timers.HeadIsFirst` | `crates/core/src/driver.rs:1461-1484` | the first key of the map, for which the loop sleeps, is the earliest deadline |
| `Timers.PassFiresTheDue` | `crates/core/src/driver.rs:2145-2157` | one pass fires exactly the timers whose deadline has come, each once, by deadline and first in first out, whatever is armed meanwhile |
| `Timers.NothingLost` | `crates/core/src/driver.rs:2145-2157` | over every run, each arming is waiting or was fired exactly once, and never before its deadline |
| `Timers.ArmedWhileFiringWaits` | `crates/core/src/driver.rs:2145-2157` | a timer armed while others fire is neither lost nor fired in the same pass |
| `Timers.TimerQueue.constructor` | `crates/core/src/driver.rs:1414-1414` | no timers |
| `Timers.TimerQueue.Place` | `crates/core/src/driver.rs:2226-2229` | the first deadline that is not earlier |
| `Timers.TimerQueue.SetTimer` | `crates/core/src/driver.rs:2226-2229` | the map changed in place is `Insert` at the saturated deadline |
| `Timers.TimerQueue.TakeDue` | `crates/core/src/driver.rs:2147-2152` | splitting the map in place takes out exactly what is due and keeps the rest |
| `Words64.XorUndone` | `crates/core/src/entropy.rs:64-75` | a word xored with its own left shift determines the word |
| `Words64.Mixed17Undone` | `crates/core/src/entropy.rs:64-75` | the shift by 17 in the step can be undone |
| `Words64.MixedDownInjective` | `crates/core/src/entropy.rs:52-61` | xoring a word with its right shift loses nothing |
| `Words64.TimesInjective` | `crates/core/src/entropy.rs:52-61` | wrapping multiplication by a number with an inverse loses nothing |
| `Words64.PlusPlus` | `crates/core/src/entropy.rs:52-61` | wrapping twice is wrapping once |
| `Entropy.PreviousNext` | `crates/core/src/entropy.rs:64-75` | the step can be undone |
| `Entropy.NextPrevious` | `crates/core/src/entropy.rs:64-75` | and everything is the step of something |
| `Entropy.NextIsBijective` | `crates/core/src/entropy.rs:64-75` | the state step is a bijection that maps only zero to zero |
| `Entropy.MixInjective` | `crates/core/src/entropy.rs:52-61` | the finalizer is injective |
| `Entropy.SeededWordsDiffer` | `crates/core/src/entropy.rs:52-61` | for every seed the four words are pairwise different, so at most one is zero |
| `Entropy.NeverStuck` | `crates/core/src/entropy.rs:52-75` | for every seed, no reachable state is zero |
| `Entropy.StreamSplits` | `crates/core/src/entropy.rs:78-85` | filling in two goes is filling in one as long as the first is a whole number of steps |
| `Entropy.SeededEntropy.constructor` | `crates/core/src/entropy.rs:52-61` | the counter advanced four times and mixed gives `Seeded` |
| `Entropy.SeededEntropy.NextU64` | `crates/core/src/entropy.rs:64-75` | the words updated one by one in place are `Next`, and the output is that of the state before |
| `Entropy.SeededEntropy.Fill` | `crates/core/src/entropy.rs:78-85` | the buffer filled chunk by chunk is the stream of the state, and the state has moved by the steps used |
| `Blake3Words.WordIsLittleEndian` | `tools/blake3_ref.py:79-80` | a word is its four bytes read in reverse as a big-endian number |
| `Blake3Words.BlockWord` | `tools/blake3_ref.py:79-80` | the i-th word of a block is made of its bytes 4i to 4i + 3, the first weighing least |
| `Blake3Words.OrBits` | `tools/blake3_ref.py:136-145` | a flag is set in two sets of flags together exactly when it is set in one of them |
| `Blake3Words.FlagsAreBits` | `tools/blake3_ref.py:10-22` | the seven flags are seven different bits, in the order of the paper; the sizes are those of the paper |
| `Blake3Words.LastBlock` | `tools/blake3_ref.py:136-139` | the last block of a chunk, padded with zeros, is compressed under its own length and the chunk's counter, with CHUNK_END, and with CHUNK_START only if it is the first; every other flag is the mode's |
| `Blake3Words.EarlierBlock` | `tools/blake3_ref.py:122-134` | an earlier block is compressed whole, with CHUNK_START exactly if it is the first and CHUNK_END never; the first eight words go on |
| `Blake3Words.ParentIs` | `tools/blake3_ref.py:142-145` | a parent is its left child's eight words and then its right child's, under the key, with counter 0, length 64 and PARENT |
| `Blake3Words.RootWord` | `tools/blake3_ref.py:95-104` | four bytes of the root output, reversed, are the word of the root compressed with ROOT under the number of the output block |
| `Blake3Words.TreeIs` | `tools/blake3_ref.py:169-195` | the children of a parent are the trees over the two parts of its data, by the first eight words of their compressions, the right one's chunks counted on from the left one's |
| `Blake3Words.HashIs` | `tools/blake3_ref.py:187-195` | the i-th byte of a hash is the i-th byte of the root output of the tree over all the data, its chunks counted from 0 |
| `Blake3Words.InitialWords` | `tools/blake3_ref.py:24-25` | each initial word is the first 32 bits of the fractional part of the square root of one of the first eight primes |
| `CanonicalOrder.FirstDifferenceDecides` | `crates/codec/src/canonical.rs:112-112` | keys are compared at the first byte where they differ, and a proper prefix comes first |
| `CanonicalOrder.InOrderIsRising` | `crates/codec/src/canonical.rs:103-126` | a value is in order exactly when in every map at every depth, of any two keys the later is greater at the first byte that differs |
| `CanonicalOrder.CanonicalRises` | `crates/codec/src/canonical.rs:67-126` | what encodes and what decodes has its keys in that order |
| `CanonicalOrder.NumbersRise` | `crates/codec/src/canonical.rs:91-93` | keys that are numbers stand in numeric order, of whatever size |
| `CanonicalOrder.KindsRise` | `crates/codec/src/canonical.rs:128-134` | keys of different kinds stand in the order of their major types, which the first byte begins with |
| `CanonicalOrder.ThreeBeforeTwentyFour` | `crates/codec/src/canonical.rs:103-126` | the keys 24 and 3, given in this order, are written 3 and then 24 |
| `CanonicalOrder.WrittenSmall` | `crates/codec/src/canonical.rs:67-75` | the bytes of small numbers and of false, true and null are those of Appendix A of RFC 8949 |
| `CanonicalOrder.WrittenLarge` | `crates/codec/src/canonical.rs:67-75` | and those of the largest and smallest numbers, in heads of four and eight bytes |
| `CanonicalOrder.WrittenWrapped` | `crates/codec/src/canonical.rs:67-75` | and those of a byte string and of a tagged number |
| `CanonicalOrder.WrittenText` | `crates/codec/src/canonical.rs:67-75` | and those of texts |
| `CanonicalOrder.WrittenArray` | `crates/codec/src/canonical.rs:67-75` | an array of three is 83 and its items |
| `CanonicalOrder.WrittenMap` | `crates/codec/src/canonical.rs:67-75` | a map of two is a2 and its entries, key and then value |
| `CanonicalOrder.DuplicateReported` | `crates/codec/src/canonical.rs:114-116` | of the keys that occur twice the first in order is reported |
| `CanonicalOrder.DecodeRefuses` | `crates/codec/src/canonical.rs:80-87` | what does not read, what has a key twice, and what reads but is not the encoding of what it says are refused as three different things, each exactly then |
| `LooseForms.LongNumberRefused` | `crates/codec/src/canonical.rs:76-87` | a number in a longer head than it needs is read, and refused as not canonical |
| `LooseForms.OpenArrayReads` | `crates/codec/src/canonical.rs:80-82` | an array of no stated length is read up to its break |
| `LooseForms.OpenArrayRefused` | `crates/codec/src/canonical.rs:76-87` | and refused as not canonical |
| `LooseForms.PiecesRead` | `crates/codec/src/canonical.rs:80-82` | a byte string in pieces is read as the pieces joined |
| `Utf8Text.ValidIffEncoded` | `crates/codec/src/canonical.rs:171-176` | a text is exactly the encoding of some sequence of Unicode scalar values |
| `WireForms.GetIsFirst` | `crates/codec/src/canonical.rs:137-141` | a field is the first entry under its number |
| `WireForms.VersionChecked` | `crates/codec/src/canonical.rs:153-160` | version 0 under field 1 is let through; a later one is refused with its number, a missing one as missing, anything else as of the wrong type |
| `WireForms.LaterVersionsRefused` | `crates/codec/src/canonical.rs:153-160` | an envelope or a card of a later version is refused as such, whatever else is in it |
| `WireForms.FixedLength` | `crates/codec/src/canonical.rs:187-189` | a field of fixed length is taken at that length only |
| `WireForms.CodesInOrder` | `crates/codec/src/envelope.rs:413-490` | payload types have the codes 1 to 32 in order, every other code is unknown and kept |
| `WireForms.EnvelopeForm` | `crates/codec/src/envelope.rs:551-595` | the fields of an envelope, of its clock and of its fragment header stand under their numbers, optional ones only where there is something |
| `WireForms.CausesInOrder` | `crates/codec/src/envelope.rs:565-575` | causes stand in order |
| `WireForms.FragmentIff` | `crates/codec/src/envelope.rs:505-511` | a fragment header is good exactly when its index is below a total of at most 4096 |
| `WireForms.CardForm` | `crates/codec/src/card.rs:183-212` | the fields of a card stand under their numbers, with at most three relays, optional ones only where there is something |
| `WireForms.UpdateIff` | `crates/codec/src/card.rs:297-308` | an update is taken exactly when both keys are the known ones and its version is higher; a changed key is refused as such before a stale version |
| `WireForms.NewestIsKnown` | `crates/codec/src/card.rs:297-308` | over any run of updates no card of the identity that was offered is newer than the one known |
| `WireForms.DigitsAreTheNumber` | `tools/gen_vectors.py:98-111` | the digits, as one number, are the bytes as one number, with the zero bits that complete the last digit |
| `WireForms.CardLetters` | `crates/codec/src/card.rs:267-281` | the letters of a link are A to Z and 2 to 7 |
| `WireForms.LinkForm` | `crates/codec/src/card.rs:267-270` | a link is the twelve letters of its scheme and one letter for each digit |
| `WireForms.ComparedSymbols` | `tools/gen_vectors.py:91-95` | the symbols of a fingerprint ascend, and I, L, O and U are none of them |
| `WireForms.FingerprintForm` | `tools/gen_vectors.py:114-118` | a fingerprint is 24 symbols, one for each digit of the first fifteen bytes, in fours with a dash between |
| `WireForms.SnapshotForm` | `crates/core/src/companion.rs:496-554` | the fields of a snapshot, of a page and of a face stand under their numbers |
| `WireForms.VersionRefused` | `crates/core/src/companion.rs:556-566` | a snapshot of another version is refused as such, and nothing else is |
| `WireForms.RestoreAllOrNothing` | `crates/core/src/companion.rs:1633-1685` | a failure leaves the memory as it was, and an address announced live is never replaced |
| `CompanionForgetting.ListForgets` | `crates/core/src/companion.rs:293-300` | after a list of chats a chat is remembered exactly when it was and the list names it; its page is as it was, and the chats stand in the order they stood in |
| `CompanionForgetting.ListForgetsFaces` | `crates/core/src/companion.rs:311-314` | and a face is kept exactly when the list names its chat with a stamp; of more than 256, those of the first 256 entries |
| `CompanionForgetting.ListKeepsFaces` | `crates/core/src/companion.rs:311-314` | within 256 faces none of a chat with a stamp is lost |
| `CompanionForgetting.NothingForgotten` | `crates/core/src/companion.rs:354-470` | an edit, a reaction, a file that moves on or goes, a face, a lost link and a snapshot leave every message in its place |
| `CompanionForgetting.EditReplaces` | `crates/core/src/companion.rs:419-426` | an edit puts the new message where the old one was |
| `CompanionForgetting.ReactionReplaces` | `crates/core/src/companion.rs:411-417` | a reaction changes the reactions of the one message |
| `CompanionForgetting.FilesMoveOn` | `crates/core/src/companion.rs:439-457` | a file moves on in every copy of it, and no other does |
| `CompanionForgetting.FilesGo` | `crates/core/src/companion.rs:459-470` | a file that went is taken out of every message, and no other is |
| `CompanionForgetting.DeletedExactly` | `crates/core/src/companion.rs:472-484` | deleted messages leave their chat, exactly those, with its preview; every other chat is as it was |
| `CompanionForgetting.FaceTaken` | `crates/core/src/companion.rs:354-389` | a face that came is held, an empty one or one without a stamp takes the old one away, others stay within 256 |
| `CompanionForgetting.OwnFaceTaken` | `crates/core/src/companion.rs:354-370` | the same of one's own face |
| `CompanionForgetting.ForgottenIff` | `crates/core/src/companion.rs:293-494` | an event forgets a chat exactly when it is a list that does not name it, its own first page come empty, a revocation, or the use of a chat not remembered while 64 are and this one was used longest ago |
| `CompanionForgetting.ShownWasNamed` | `crates/core/src/companion.rs:293-494` | over every run, a chat shown was used, and since then every list has named it, and no empty first page of it and no revocation has come |
| `CompanionForgetting.TerminalShowsNamed` | `crates/core/src/companion.rs:2548-2870` | the same of a terminal over every run from its invitation |
| `CompanionForgetting.Confirmed` | `crates/core/src/companion.rs:219-222` | what is shown is confirmed from an answer about chats, a page or a face until the link is lost |
| `CompanionForgetting.ByTheClock` | `crates/core/src/companion.rs:332-350` | messages stand by the clock, those of one moment by their ids |
| `CompanionResume.GoesOutIff` | `crates/core/src/companion.rs:2077-2172` | a request goes out, under the next number, exactly when its text fits, the pairing is not revoked, the phone is new enough for it, the link lives with fewer than 64 waiting, and it fits a frame |
| `CompanionResume.AbortsGoOut` | `crates/core/src/companion.rs:1888-1905` | every file begun is given up with the phone, in order, as far as there is room |
| `CompanionResume.CancelAborts` | `crates/core/src/companion.rs:1888-1905` | a change of mind ends the upload and tells the phone so for every file begun |
| `CompanionResume.LinkedGreets` | `crates/core/src/companion.rs:2340-2391` | over a new link the version is asked first, then the chats, then what the phone has of an upload if there is one, then the chunk a download waits for; nothing of the old link waits, and both transfers stand where they stood |
| `CompanionResume.GreetingsWait` | `crates/core/src/companion.rs:2340-2391` | each of these waits under its own number exactly when it fits a frame, and nothing else waits |
| `CompanionResume.StagedIsAsked` | `crates/core/src/companion.rs:2382-2384` | the question what the phone has of an upload is on order over the new link exactly when there is an upload and it fits, once and under one number |
| `CompanionResume.StepAwaits` | `crates/core/src/companion.rs:1741-2870` | every step keeps: an upload that waits over a live link has that question on order if it went out when the link came up |
| `CompanionResume.WaitingIsAsked` | `crates/core/src/companion.rs:1741-2870` | so in every state a terminal can reach with a phone that answers in kind |
| `CompanionResume.LostKeepsPlaces` | `crates/core/src/companion.rs:2027-2067` | losing the channel drops it and what waited on it, and nothing else: both transfers stay where they were and wait, and that is told |
| `CompanionResume.ReachKnocks` | `crates/core/src/companion.rs:1955-2010` | without a link a handshake is begun with one knock that says both addresses |
| `CompanionResume.TakenUpAgain` | `crates/core/src/companion.rs:1955-2420` | lost and found again, both transfers stand where they stood, the download with its next chunk on order, the upload with its question |
| `CompanionResume.FetchBegins` | `crates/core/src/companion.rs:1920-1950` | a download begins exactly when there is none, the file has chunks and the request for the first may go out |
| `CompanionResume.SendBegins` | `crates/core/src/companion.rs:1766-1840` | a message begins to be sent exactly when no other is, it has one to ten files with fair previews, and the first offer may go out |
| `CompanionResume.PieceIsPut` | `crates/core/src/companion.rs:1864-1885` | the piece waited for is put under the id the phone gave; if that cannot go out the message is given up |
| `CompanionResume.ChunksFit` | `crates/proto/src/companion.rs:1424-1445` | as many chunks are asked for at once as an answer can carry, and one at least |
| `CompanionResume.RefusalEnds` | `crates/core/src/companion.rs:2652-2687` | a refusal ends the transfer it refuses, and that is told; any other ends nothing |
| `CompanionResume.GreetingDecides` | `crates/core/src/companion.rs:2428-2448` | an upload that waits is given up exactly when the phone is older than version 9 of the wire |
| `CompanionResume.GreetingUnknown` | `crates/core/src/companion.rs:2560-2580` | an answer that overtakes the greeting's shows a phone older than the greeting, and an upload that waits is given up |
| `CompanionResume.FoundFirst` | `crates/core/src/companion.rs:2450-2475` | of the phone's list the first entry about a file counts |
| `CompanionResume.GoesOnAt` | `crates/core/src/companion.rs:2450-2540` | a waiting upload goes on at the first file the phone does not say it has whole: it sends the message if there is none, puts the first chunk missing if the file is listed, and offers it anew if not |
| `CompanionResume.OtherHandshakes` | `crates/core/src/companion.rs:2314-2350` | a broken or unexpected handshake changes nothing, one that does not agree ends the waiting for one |
| `CompanionResume.RememberedIsShown` | `crates/core/src/companion.rs:2175-2208` | what is remembered is shown before anything is asked, with or without a link |
| `CompanionResume.NotGoneIsTold` | `crates/core/src/companion.rs:2077-2172` | a request that does not go out is told of, and whether it is for want of a link |
| `CompanionResume.AnswerIsShown` | `crates/core/src/companion.rs:2548-2735` | what the phone answers is the last thing shown |
| `CompanionResume.NewsIsShown` | `crates/core/src/companion.rs:2803-2870` | news is shown as it came; an address announced is the known one from then on, and marked if it is another |
| `CompanionResume.SealedIsIgnored` | `crates/core/src/companion.rs:2223-2262` | without a session nothing sealed is looked at |
| `CompanionResume.RevocationEnds` | `crates/core/src/companion.rs:2015-2025` | a revocation ends everything at once; a farewell that does not open is nothing |
| `CompanionResume.OwnAddresses` | `crates/core/src/companion.rs:1741-1764` | the terminal's own addresses are the last ones it was told |
| `CompanionFinish.ChunkTook` | `crates/core/src/companion.rs:2737-2800` | the chunk waited for is told of with its place, and the rest asked for, or the file told to be done |
| `CompanionFinish.NextIsAsked` | `crates/core/src/companion.rs:2737-2800` | with a network that carries everything, the next chunk is on order at once |
| `CompanionFinish.LastChunkNames` | `crates/core/src/companion_driver.rs:1260-1305` | the chunk that completes a file leaves the whole of it under the name asked for, nothing under the partial name, no save and no download, and every other file as it was; where the rename fails neither name has anything new |
| `CompanionFinish.FailedWriteGivesUp` | `crates/core/src/companion_driver.rs:1250-1277` | a failed write leaves no save, no download, and of the file no more than what could not be removed |
| `CompanionFinish.Finishes` | `crates/core/src/companion_driver.rs:1250-1305` | from a download under way, chunk by chunk, to the file saved |
| `CompanionFinish.NeverBeyondCompleting` | `crates/core/src/companion_driver.rs:1250-1305` | whatever was lost, refused a frame or left waiting: as long as the pairing is not revoked and the phone has the file, a new link and the chunks one by one save it whole |
| `CompanionFinish.AlwaysCompletable` | `crates/core/src/companion_driver.rs:1250-1305` | so in every state an honest run reaches from the start of a terminal |
| `CompanionFinish.DoneIsLast` | `crates/core/src/companion.rs:2737-2800` | a file is told to be done only by the answer that brings the rest of it |
| `CompanionFinish.CompletedStays` | `crates/core/src/companion_driver.rs:1278-1305` | over every run, a file told to be done, written and renamed is whole under the name asked for, and stays there over every later run until something is saved over it |
| `CompanionFinish.EndRemoves` | `crates/core/src/companion_driver.rs:1082-1088` | every other end of a download forgets the save and removes what there is of the file |
| `CompanionFinish.CancelledSave` | `crates/core/src/companion_driver.rs:964-968` | a save given up leaves nothing under way, and what there was of the file is removed |
| `CompanionFinish.SendingEnds` | `crates/core/src/companion_driver.rs:1370-1442` | the end of a message frees the driver for the next |
| `CompanionFinish.SendingBegins` | `crates/core/src/companion_driver.rs:1019-1075` | a message begins exactly when none is being sent and every file is there to be opened, and the terminal is told the names, sizes and previews they have |
| `CompanionUploadFinish.LastAnswer` | `crates/core/src/companion.rs:2640-2650` | the answer to the message ends the upload and frees the driver |
| `CompanionUploadFinish.GoesOut` | `crates/core/src/companion.rs:1845-1862` | from the request for what comes next, answer by answer, to the message sent |
| `CompanionUploadFinish.RelinkedAsks` | `crates/core/src/companion.rs:2340-2391` | a message on its way, its link lost and found, waits with the greeting and the question on order |
| `CompanionUploadFinish.NeverBeyondSending` | `crates/core/src/companion.rs:1766-2735` | a message on its way over a pairing not revoked can still be sent, with its text and for its files, by some fair continuation, whatever happened to it before |
| `CompanionUploadFinish.AlwaysSendable` | `crates/core/src/companion.rs:1766-2735` | so in every state a fair run reaches from the start of a terminal |
| `CompanionLongText.StepShort` | `crates/core/src/companion.rs:2077-2095` | no step ever puts a message on order whose text is longer than a message may be |
| `CompanionLongText.SendableIff` | `crates/core/src/companion.rs:1766-2735` | in every state a fair run reaches with a message on its way over a pairing not revoked, it can still be sent exactly when its text is at most 65221 bytes long |
| `CompanionLongText.RefusedLast` | `crates/core/src/companion.rs:2077-2095` | with the last file on the phone a longer text is refused, and the upload stays where it is |
| `CompanionLongText.BegunWhateverTheText` | `crates/core/src/companion.rs:1766-1839` | whether a message is begun does not depend on its text |
| `CacheOnDisk.TwoSecondsApart` | `crates/core/src/companion_driver.rs:1144-1170` | over every run, whatever the clock does, two attempts to write are two seconds apart at least |
| `CacheOnDisk.TickWrites` | `crates/core/src/companion_driver.rs:1144-1170` | where there is something to write and the two seconds are over, a tick writes it |
| `CacheOnDisk.WrittenAtOnce` | `crates/core/src/companion_driver.rs:1115-1121` | turned on with something to write, the cache is written at once |
| `CacheOnDisk.OffRemoves` | `crates/core/src/companion_driver.rs:1122-1134` | switched off, the file goes and no other, and nothing is in hand |
| `Timers.WishesAreArmed` | `crates/core/src/driver.rs:2226-2229` | a timer is due as long after it was wished for as was wished, or at the last moment there is, and carries its token |
| `Timers.PassGrants` | `crates/core/src/driver.rs:2145-2157` | in one pass every due timer fires at that moment, and what the engine wishes for each is armed, in the order it wished |
| `EntropyWords.StepBits` | `crates/core/src/entropy.rs:64-75` | bit by bit, what one step makes of the four words |
| `EntropyWords.OutputNumber` | `crates/core/src/entropy.rs:64-66` | the number given is nine times the second word's five-fold rotated by seven, modulo 2^64 |
| `EntropyWords.CounterNumber` | `crates/core/src/entropy.rs:52-56` | the counters are the seed and one to four times the odd constant |
| `EntropyWords.MixSteps` | `crates/core/src/entropy.rs:52-61` | a counter is mixed by shifts of 30, 27 and 31 with the two multiplications between |
| `EntropyWords.BytesNumber` | `crates/core/src/entropy.rs:78-85` | the bytes of a word are its number, the least significant first |
| `EntropyWords.StreamByte` | `crates/core/src/entropy.rs:78-85` | the n-th byte given is of the word after n / 8 steps |

## Left out

- The compression function of BLAKE3 (`g`, `round_fn`, `permute`, `compress`): a parameter, as nothing about buffering or the tree depends on it. The chunk counter is unbounded.
- CBOR floats and the bignum tags 2 and 3; the reader's depth limit is a parameter. The reader follows section 3 of RFC 8949 where ciborium's own source is not part of this model. Lengths of 2^64 and more are outside it.
- Sealing, opening, handshake keys, the ratchet and the reassembly of fragments: what a frame turns out to hold is part of the input, what sealing gives is a pair of functions of which only "opens what it sealed" is assumed.
- The item codecs of chats and messages: parameters, assumed to round-trip up to canonical order (`CodecRoundTrips`). What a codec does not look at travels in a field `rest`.
- Walks over ordered maps are enumerations passed in (`Walk`), as Dafny's maps have no order; the theorems hold for every enumeration.
- Texts shown to people, and the reasons carried by refusals and ignored frames.
- `env.fits`: whether a request fits one frame is a function passed in.
- Sockets, tasks, channels, clocks: time and luck are inputs. A file is the sequence of its bytes by path, so a file renamed or removed while open for reading is read by its path.
- 64-bit counters of requests and chunk indexes are natural numbers; products of chunk index and chunk size saturate as in the source. The timers' `now + 1` is not wrapped at the end of 64-bit time.
- Which of the two transports to try, when to retry, and how the mesh node is raised.
- `stale_avatars`, the accessors of the cache, the expiry of paired devices, and the account registry: single-branch facts.
- The engine, the store, the rounds of the main driver's `feed` and its limit of 256; a store failure that stops a pass of timers halfway.
- Exactly-once delivery of a message: not promised, since a lost answer to the final request leads to its repetition after a relink.
- AnswerFeed: takes as a hypothesis that an offer is answered with an id not taken before and that earlier requests move nothing; `NextGood` shows both of every world a run reaches.
- MessagesNameWholeFiles: is about runs in which messages are begun only while all is quiet; `SafeIffQuiet` shows that this is needed. Files chosen do not change while they are sent.
- SafeIffQuiet: the phone has unused ids left for the files of the message, and the text is short enough to be sent at all. The phone accepts a chunk by file and index, whatever its length.
- DownloadsAreWhole: of a path that is the partial name of another file asked to be saved it says only what the partial file of the save under way holds; such a file is overwritten when that save begins.
- FragmentsValid: follows from the contracts of `ParseFragment` and `Parse`, where the work is done.
- A two-byte simple value below 32 (`f8 14`) is not well-formed by section 3.3 of RFC 8949 and fails to read; whether ciborium reads it, to be refused as not canonical instead, is not part of this model.
- The terminal keeps its cache as a value; the in-place cache of `CompanionMemory` is proved against the same functions but is not one of the terminal's fields.
- AnyFileWithinBounds: says nothing about an id occurring twice in a page, which the reader does not check.
- NeverBeyondSending: the phone has unused ids left for the files; that the text must be short enough is what `SendableIff` says.
- NeverBeyondCompleting: says that completing remains possible over a network and a disk that work, not that it happens.
- WaitingIsAsked: takes as a hypothesis that the question fitted a frame when the link came up (`WentOver`); where it did not, the upload waits for the next link.
