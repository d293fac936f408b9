/** How a download ends well: what the chunk that completes a file leaves on the disk, that it stays there, and that no
    download is ever beyond completing. */
module CompanionFinish {
  import opened Bytes
  import opened CompanionProtocol
  import opened CompanionProtocolLaws
  import opened CompanionDriver
  import opened CompanionDownload
  import opened CompanionDownloadRuns
  import DR = CompanionDownloadRuns
  import opened CompanionFeed
  import R = CompanionRuns
  import opened CompanionResume
  import U = CompanionUpload
  import S = CompanionSpoiling
  import CC = CompanionCache

  // ---- the terminal takes the chunk it waits for ----

  /** The answer under number `id` brings bytes of the file being fetched, from the place waited for. */
  predicate BringsNext(c: Client, id: nat, bytes: seq<Byte>) {
    c.link.session && c.download.Some? && !c.download.value.stalled && id in c.link.outstanding &&
    c.link.outstanding[id].FileChunk? && c.link.outstanding[id].fileId == c.download.value.fileId &&
    c.link.outstanding[id].index == c.download.value.next
  }

  function Chunk(c: Client, id: nat, bytes: seq<Byte>): Input
    requires BringsNext(c, id, bytes)
  {
    R.Reply(id, Response.FileChunk(c.download.value.next, bytes))
  }

  predicate LeavesDownload(c: Client, id: nat, first: Did) {
    first.client == c.(link := first.client.link, upload := first.client.upload) && first.client.link.nextId == c.link.nextId &&
    FetchEvents(first.effects) == [] && S.Roomy(first.client.link)
  }

  lemma {:induction false} AnsweredRoom(c: Client, id: nat)
    requires Sound(c) && id in c.link.outstanding
    ensures LeavesDownload(c, id, Overtaken(c.(link := c.link.(outstanding := c.link.outstanding - {id})), id))
  {
    hide DownloadSound, UploadSound, NothingLeft, LinkSound, S.KeepsOthers;
    S.LinkLeavesRoom(c.link, id);
    OvertakenIdle(c.(link := c.link.(outstanding := c.link.outstanding - {id})), id);
    SessionOf(c, id);
  }

  lemma {:induction false} SessionOf(c: Client, id: nat)
    requires Sound(c) && id in c.link.outstanding
    ensures c.link.session && c.link.connected && !c.link.revoked
  {
  }

  /** The bytes are told of with their place; the rest is asked for, or the file is told to be done. */
  predicate TookChunk(c: Client, id: nat, bytes: seq<Byte>, did: Did)
    requires BringsNext(c, id, bytes)
  {
    var dl := c.download.value;
    var written := FileBytes(dl.fileId, dl.next, SaturatingMul(dl.next, dl.chunkBytes), bytes);
    var next := dl.next + Eaten(|bytes|, dl.chunkBytes);
    if next >= dl.total then did.client.download.None? && FetchEvents(did.effects) == [written, FileDone(dl.fileId)]
    else SameFetch(did.client.download, Some(dl.(next := next))) && FetchEvents(did.effects) == [written]
  }

  lemma {:induction false} ChunkTook(c: Client, id: nat, bytes: seq<Byte>, env: Env)
    requires Sound(c) && BringsNext(c, id, bytes)
    ensures TookChunk(c, id, bytes, Step(c, Chunk(c, id, bytes), env))
  {
    hide Sound, OnChunk, Overtaken, OnAsk, AnySend, Eaten, SaturatingMul, ChunkRequest;
    var asked := c.link.outstanding[id];
    var first := Overtaken(c.(link := c.link.(outstanding := c.link.outstanding - {id})), id);
    AnsweredRoom(c, id);
    ChunkTakes(first.client, asked, asked.index, bytes, env);
    FetchEventsBoth(first.effects, OnChunk(first.client, asked, asked.index, bytes, env).effects);
    ChunkTold(first.client, asked, bytes, env);
  }

  lemma {:induction false} ChunkTold(c: Client, asked: Request, bytes: seq<Byte>, env: Env)
    requires asked.FileChunk? && c.download.Some? && !c.download.value.stalled && asked.fileId == c.download.value.fileId &&
             asked.index == c.download.value.next
    ensures FetchEvents(OnChunk(c, asked, asked.index, bytes, env).effects) != []
  {
    hide OnAsk, AnySend, Eaten, SaturatingMul, ChunkRequest;
  }

  // ---- the driver writes it ----

  /** With nothing to be read and every write good, the driver has nothing to answer. */
  lemma {:induction false} NothingToAnswer(d: Driver, effects: seq<Effect>, luck: Luck)
    requires U.NoNeed(effects) && luck.writes
    ensures ShowAll(d, effects, luck).answers == []
    decreases |effects|
  {
    hide WriteAt, Remove, U.AboutSend;
    if effects != [] {
      U.SendEventsBoth([effects[0]], effects[1..]);
      assert effects == [effects[0]] + effects[1..];
      NoNeedParts(effects[0], effects[1..]);
      if effects[0].Send? {
        NothingToAnswer(d, effects[1..], luck);
      } else {
        NothingToAnswer(ShowEvent(d, effects[0].event, luck).driver, effects[1..], luck);
      }
    }
  }

  lemma {:induction false} NoNeedParts(first: Effect, others: seq<Effect>)
    requires U.NoNeed([first] + others)
    ensures U.NoNeed(others) && (first.Show? ==> !first.event.NeedChunk?)
  {
    var all := U.SendEvents([first] + others);
    assert ([first] + others)[1..] == others;
    if first.Show? && U.AboutSend(first.event) {
      assert all == [first.event] + U.SendEvents(others);
      assert all[0] == first.event;
      forall i | 0 <= i < |U.SendEvents(others)| ensures !U.SendEvents(others)[i].NeedChunk? {
        assert all[i + 1] == U.SendEvents(others)[i];
      }
    }
  }

  /** An input that wants no piece and tells the disk what `FetchEvents` says, and no more. */
  lemma {:induction false} OneRound(d: Driver, input: Input, env: Env, luck: Luck)
    requires Sound(d.client) && Honest(d.client, input) && luck.writes && U.NoNeed(Step(d.client, input, env).effects)
    ensures var did, e := Step(d.client, input, env), Obey(d, Through(input), env, luck);
            e.client == did.client && SameSide(e, ShowEach(d.(client := did.client), FetchEvents(did.effects), luck))
  {
    hide Sound, Step, Honest, U.NoNeed;
    var did := Step(d.client, input, env);
    var next := d.(client := did.client);
    FeedIsTwoRounds(d, input, FEED_ROUNDS, env, luck);
    NothingToAnswer(next, did.effects, luck);
    ShowAllSide(next, next, did.effects, luck);
    ShowKeepsClient(next, did.effects, luck);
  }

  lemma {:induction false} ChunkWantsNothing(c: Client, id: nat, bytes: seq<Byte>, env: Env)
    requires Sound(c) && BringsNext(c, id, bytes)
    ensures U.NoNeed(Step(c, Chunk(c, id, bytes), env).effects)
  {
    hide Sound, OnChunk, Overtaken, U.NoNeed;
    var less := c.(link := c.link.(outstanding := c.link.outstanding - {id}));
    var asked, first := c.link.outstanding[id], Overtaken(less, id);
    OvertakenWantsNothing(less, id);
    ChunkAloneWantsNothing(first.client, asked, bytes, env);
    U.NoNeedBoth(first.effects, OnChunk(first.client, asked, asked.index, bytes, env).effects);
  }

  lemma {:induction false} OvertakenWantsNothing(c: Client, id: nat)
    ensures U.NoNeed(Overtaken(c, id).effects)
  {
    hide U.NoNeed;
    U.NoNeedNone([]);
    U.NoNeedOne(Wire(None));
    U.NoNeedOne(SendStopped);
    U.NoNeedBoth([Show(Wire(None))], [Show(SendStopped)]);
    U.NoNeedBoth([Show(Wire(None))], []);
  }

  lemma {:induction false} ChunkAloneWantsNothing(c: Client, asked: Request, bytes: seq<Byte>, env: Env)
    requires asked.FileChunk?
    ensures U.NoNeed(OnChunk(c, asked, asked.index, bytes, env).effects)
  {
    hide OnAsk, AnySend, U.NoNeed, Eaten, SaturatingMul, ChunkRequest;
    U.NoNeedOne(Ignored);
    if c.download.Some? {
      var d := c.download.value;
      var event := FileBytes(d.fileId, asked.index, SaturatingMul(asked.index, d.chunkBytes), bytes);
      var further := d.(next := asked.index + Eaten(|bytes|, d.chunkBytes));
      U.NoNeedOne(event);
      U.NoNeedOne(FileDone(d.fileId));
      U.NoNeedBoth([Show(event)], [Show(FileDone(d.fileId))]);
      U.AskTellsNoSend(c.link, c.cache, ChunkRequest(further), env);
      U.NoNeedNone(OnAsk(c.link, c.cache, ChunkRequest(further), env).effects);
      U.NoNeedBoth([Show(event)], OnAsk(c.link, c.cache, ChunkRequest(further), env).effects);
    }
  }

  // ---- the last chunk ----

  /** The bytes are the phone's, from the place waited for to the end of the file. */
  predicate BringsRest(phone: Phone, c: Client, id: nat, bytes: seq<Byte>)
    requires PhoneSound(phone)
  {
    BringsNext(c, id, bytes) && c.download.value.fileId in phone &&
    (var f, dl := phone[c.download.value.fileId], c.download.value;
     Serves(f, dl.next, bytes) && dl.next * f.chunkBytes + |bytes| == |f.bytes|)
  }

  /** What the chunk that completes a file leaves: with a good disk the whole file under the name asked for, nothing under
      the partial name, no save and no download, and everything else untouched; where the rename fails, neither name has
      anything new, and the partial file is gone if it can be removed. */
  lemma {:induction false} LastChunkNames(phone: Phone, d: Driver, id: nat, bytes: seq<Byte>, env: Env, luck: Luck)
    requires PhoneSound(phone) && Sound(d.client) && Holds(phone, d) && BringsRest(phone, d.client, id, bytes) && luck.writes
    requires d.saving.Some? && d.saving.value.partial == PartialName(d.saving.value.path)
    ensures
      var e, s := Obey(d, Through(Chunk(d.client, id, bytes)), env, luck), d.saving.value;
      HonestCommand(phone, d, Through(Chunk(d.client, id, bytes))) && e.saving.None? && e.client.download.None? &&
      (luck.renames ==> e.disk == d.disk[s.path := phone[d.client.download.value.fileId].bytes] - {s.partial}) &&
      (!luck.renames && luck.removes ==> e.disk == d.disk - {s.partial}) &&
      (!luck.renames && !luck.removes ==> e.disk == d.disk[s.partial := phone[d.client.download.value.fileId].bytes])
  {
    hide Sound, Step, WriteAt, Eaten, SaturatingMul, Serves;
    var input, dl, s := Chunk(d.client, id, bytes), d.client.download.value, d.saving.value;
    var f := phone[dl.fileId];
    var did := Step(d.client, input, env);
    var next := d.(client := did.client);
    HonestIsInKind(phone, d.client, input);
    ChunkTook(d.client, id, bytes, env);
    ChunkWantsNothing(d.client, id, bytes, env);
    OneRound(d, input, env, luck);
    EatenReaches(f, dl.next, bytes);
    var written := FileBytes(dl.fileId, dl.next, SaturatingMul(dl.next, dl.chunkBytes), bytes);
    ShowTwo(next, written, FileDone(dl.fileId), luck);
    ChunkWritten(phone, dl, next, bytes, luck);
    PartialIsAnother(s.path);
    var one := OnFileBytes(next, SaturatingMul(dl.next, dl.chunkBytes), bytes, luck).driver;
    assert one.disk == d.disk[s.partial := f.bytes];
    assert d.disk[s.partial := f.bytes][s.path := f.bytes] - {s.partial} == d.disk[s.path := f.bytes] - {s.partial};
    assert d.disk[s.partial := f.bytes] - {s.partial} == d.disk - {s.partial};
  }

  /** A write that fails gives everything up: no save, no download, and of the file no more than what could not be removed. */
  lemma {:induction false} FailedWriteGivesUp(phone: Phone, d: Driver, id: nat, bytes: seq<Byte>, env: Env, luck: Luck)
    requires PhoneSound(phone) && Sound(d.client) && Holds(phone, d) && !luck.writes
    requires BringsNext(d.client, id, bytes) && HonestCommand(phone, d, Through(Chunk(d.client, id, bytes))) && d.saving.Some?
    ensures
      var e, s := Obey(d, Through(Chunk(d.client, id, bytes)), env, luck), d.saving.value;
      e.saving.None? && e.client.download.None? &&
      e.disk == if luck.removes then d.disk - {s.partial} else d.disk[s.partial := luck.spoiled]
  {
    hide Sound, Step, WriteAt, Eaten, SaturatingMul, Holds, Round;
    var input, s := Chunk(d.client, id, bytes), d.saving.value;
    HonestIsInKind(phone, d.client, input);
    FailedRound(d, id, bytes, env, luck);
    RoundCalls(d, input, env, luck);
    var one := Round(d, input, env, luck);
    assert one.answers == [CancelFetch];
    FeedIsTwoRounds(d, input, FEED_ROUNDS, env, luck);
    CancelRound(one.driver, env, luck);
  }

  lemma {:induction false} FailedRound(d: Driver, id: nat, bytes: seq<Byte>, env: Env, luck: Luck)
    requires Sound(d.client) && BringsNext(d.client, id, bytes) && d.saving.Some? && !luck.writes
    ensures var one, partial := Round(d, Chunk(d.client, id, bytes), env, luck), d.saving.value.partial;
            CancelFetch in one.answers && one.driver.saving.None? &&
            one.driver.disk == if luck.removes then d.disk - {partial} else d.disk[partial := luck.spoiled]
  {
    hide Sound, Step, WriteAt, Eaten, SaturatingMul;
    var input, dl, partial := Chunk(d.client, id, bytes), d.client.download.value, d.saving.value.partial;
    var did := Step(d.client, input, env);
    var next := d.(client := did.client);
    ChunkTook(d.client, id, bytes, env);
    ShowAllSide(next, next, did.effects, luck);
    FailedWriteCancels(next, did.effects, luck);
    var written := FileBytes(dl.fileId, dl.next, SaturatingMul(dl.next, dl.chunkBytes), bytes);
    ShowOne(next, written, luck);
    ShowTwo(next, written, FileDone(dl.fileId), luck);
    assert d.disk[partial := luck.spoiled] - {partial} == d.disk - {partial};
  }

  lemma {:induction false} CancelRound(d: Driver, env: Env, luck: Luck)
    requires d.saving.None?
    ensures var e := Round(d, CancelFetch, env, luck).driver; e == d.(client := e.client) && e.client.download.None?
  {
    var did := Step(d.client, CancelFetch, env);
    var next := d.(client := did.client);
    assert did.effects[1..] == [];
    var first := ShowEvent(next, did.effects[0].event, luck);
    assert ShowAll(first.driver, [], luck).driver == first.driver;
  }

  // ---- one chunk of several ----

  /** What carries everything: every frame goes out, every disk operation works. */
  ghost predicate Carries(env: Env) {
    env.starts && env.frames && forall n, r :: env.fits(n, r)
  }

  predicate Works(luck: Luck) {
    luck.creates && luck.writes && luck.renames && luck.removes && luck.opens && luck.readable
  }

  lemma {:induction false} NextIsAsked(c: Client, id: nat, bytes: seq<Byte>, env: Env)
    requires Sound(c) && BringsNext(c, id, bytes) && Carries(env)
    requires c.download.value.next + Eaten(|bytes|, c.download.value.chunkBytes) < c.download.value.total
    ensures var e, dl := Step(c, Chunk(c, id, bytes), env).client, c.download.value;
            var further := dl.(next := dl.next + Eaten(|bytes|, dl.chunkBytes));
            e.download == Some(further) && e.link.session && !e.link.revoked && c.link.nextId in e.link.outstanding &&
            e.link.outstanding[c.link.nextId] == ChunkRequest(further)
  {
    hide LinkSound, DownloadSound, UploadSound, NothingLeft, Overtaken, OnAsk, AnySend, Eaten, SaturatingMul, ChunkRequest, MayGo;
    var asked := c.link.outstanding[id];
    var first := Overtaken(c.(link := c.link.(outstanding := c.link.outstanding - {id})), id);
    AnsweredRoom(c, id);
    var dl := c.download.value;
    var further := dl.(next := dl.next + Eaten(|bytes|, dl.chunkBytes));
    GoesOutIff(first.client.link, c.cache, ChunkRequest(further), env);
    ChunkMayGo(first.client.link, further, env);
  }

  lemma {:induction false} ChunkMayGo(l: Link, dl: Download, env: Env)
    requires S.Roomy(l) && Carries(env)
    ensures MayGo(l, ChunkRequest(dl), env)
  {
  }

  /** One chunk of the file, as the phone cuts it. */
  function Piece(f: PhoneFile, index: nat): (bytes: seq<Byte>)
    requires Sliced(f) && index < Total(f)
    ensures 0 < |bytes| <= f.chunkBytes
  {
    PieceBounds(f, index);
    var from := index * f.chunkBytes;
    if from + f.chunkBytes <= |f.bytes| then f.bytes[from..from + f.chunkBytes] else f.bytes[from..]
  }

  lemma {:induction false} PieceServes(f: PhoneFile, index: nat)
    requires Sliced(f) && index < Total(f)
    ensures Serves(f, index, Piece(f, index)) && Eaten(|Piece(f, index)|, f.chunkBytes) == 1
  {
    hide Eaten;
    PieceBounds(f, index);
    OneFold(f.chunkBytes);
    var from, bytes := index * f.chunkBytes, Piece(f, index);
    if from + f.chunkBytes <= |f.bytes| {
      assert |bytes| == f.chunkBytes && bytes == f.bytes[from..from + |bytes|];
    } else {
      assert from + |bytes| == |f.bytes| && bytes == f.bytes[from..from + |bytes|];
    }
  }

  lemma {:induction false} OneFold(n: nat)
    requires n > 0
    ensures n % n == 0
  {
  }

  lemma {:induction false} PieceBounds(f: PhoneFile, index: nat)
    requires Sliced(f) && index < Total(f)
    ensures index * f.chunkBytes < |f.bytes|
    ensures forall n: nat | 0 < n <= f.chunkBytes :: Eaten(n, f.chunkBytes) == 1
  {
    var cb := f.chunkBytes;
    RoundUp(|f.bytes|, cb);
    Below(index + 1, Total(f), cb);
    Distribute(index, 1, cb);
    forall n: nat | 0 < n <= cb ensures Eaten(n, cb) == 1 {
      RoundUp(n, cb);
      if (n + cb - 1) / cb > 1 { Below(2, (n + cb - 1) / cb, cb); }
    }
  }

  /** A download under way whose file the phone has: its save, and what the chunks so far have made. */
  ghost predicate UnderWay(phone: Phone, wanted: Wanted, start: Disk, d: Driver, id: nat)
    requires PhoneSound(phone)
  {
    Sound(d.client) && Side(phone, wanted, start, d) && Holds(phone, d) && d.saving.Some? &&
    BringsNext(d.client, id, []) && d.client.download.value.fileId in phone
  }

  /** The next chunk, not the last, leaves the download under way one chunk further. */
  lemma {:induction false} OneFurther(phone: Phone, wanted: Wanted, start: Disk, d: Driver, id: nat, env: Env, luck: Luck)
    requires PhoneSound(phone) && UnderWay(phone, wanted, start, d, id) && Carries(env) && Works(luck)
    requires var dl := d.client.download.value; dl.next + 1 < dl.total
    ensures var dl := d.client.download.value;
            var c := Through(R.Reply(id, Response.FileChunk(dl.next, Piece(phone[dl.fileId], dl.next))));
            var e := Obey(d, c, env, luck);
            HonestCommand(phone, d, c) && UnderWay(phone, wanted, start, e, d.client.link.nextId) && e.saving == d.saving &&
            e.client.download == Some(dl.(next := dl.next + 1)) && SameElsewhere(d.disk, e.disk, d.saving.value.partial)
  {
    hide Sound, Side, Step, WriteAt, Eaten, SaturatingMul, Serves, Progress, Piece, Total, ChunkRequest;
    var dl := d.client.download.value;
    HeldParts(phone, d);
    var bytes := Piece(phone[dl.fileId], dl.next);
    PieceServes(phone[dl.fileId], dl.next);
    var input := Chunk(d.client, id, bytes);
    var c := Through(input);
    ObeySide(phone, wanted, start, d, c, env, luck);
    HonestIsInKind(phone, d.client, input);
    ChunkTook(d.client, id, bytes, env);
    ChunkWantsNothing(d.client, id, bytes, env);
    OneRound(d, input, env, luck);
    NextIsAsked(d.client, id, bytes, env);
    var did := Step(d.client, input, env);
    ShowOne(d.(client := did.client), FileBytes(dl.fileId, dl.next, SaturatingMul(dl.next, dl.chunkBytes), bytes), luck);
    AsksNext(dl.(next := dl.next + 1));
  }

  predicate SameElsewhere(a: Disk, b: Disk, path: Path) {
    a - {path} == b - {path}
  }

  lemma {:induction false} AsksNext(dl: Download)
    ensures var r := ChunkRequest(dl); r.FileChunk? && r.fileId == dl.fileId && r.index == dl.next
  {
  }

  lemma {:induction false} HeldParts(phone: Phone, d: Driver)
    requires PhoneSound(phone) && Holds(phone, d) && d.client.download.Some? && d.client.download.value.fileId in phone
    ensures var dl := d.client.download.value;
            d.saving.Some? && d.saving.value.fileId == dl.fileId && Sliced(phone[dl.fileId]) &&
            dl.chunkBytes == phone[dl.fileId].chunkBytes && dl.total == Total(phone[dl.fileId]) && dl.next < dl.total
  {
  }

  // ---- to the end ----

  /** The whole of a file is under the name asked for, nothing under its partial name, and no save is left. */
  predicate Saved(phone: Phone, before: Driver, e: Driver)
    requires before.saving.Some? && before.client.download.Some? && before.client.download.value.fileId in phone
  {
    var s := before.saving.value;
    e.saving.None? && e.client.download.None? && s.path in e.disk && s.partial !in e.disk &&
    e.disk[s.path] == phone[before.client.download.value.fileId].bytes &&
    e.disk - {s.path, s.partial} == before.disk - {s.path, s.partial}
  }

  /** The last piece: the file is saved. */
  lemma {:induction false} LastPiece(phone: Phone, wanted: Wanted, start: Disk, d: Driver, id: nat, env: Env, luck: Luck)
    requires PhoneSound(phone) && UnderWay(phone, wanted, start, d, id) && Carries(env) && Works(luck)
    requires var dl := d.client.download.value; dl.next + 1 >= dl.total
    ensures var dl := d.client.download.value;
            var c := Through(R.Reply(id, Response.FileChunk(dl.next, Piece(phone[dl.fileId], dl.next))));
            HonestCommand(phone, d, c) && Saved(phone, d, Obey(d, c, env, luck))
  {
    hide Sound, OnlyWhole, Obey, WriteAt, Eaten, Progress, Piece, Total, HonestCommand;
    var dl, s := d.client.download.value, d.saving.value;
    HeldParts(phone, d);
    PieceServes(phone[dl.fileId], dl.next);
    var bytes := Piece(phone[dl.fileId], dl.next);
    EatenReaches(phone[dl.fileId], dl.next, bytes);
    PartialIsAnother(s.path);
    LastChunkNames(phone, d, id, bytes, env, luck);
    SavedIs(d.disk, s.path, s.partial, phone[dl.fileId].bytes);
  }

  lemma {:induction false} SavedIs(disk: Disk, path: Path, partial: Path, bytes: seq<Byte>)
    requires path != partial
    ensures var e := disk[path := bytes] - {partial};
            path in e && e[path] == bytes && partial !in e && e - {path, partial} == disk - {path, partial}
  {
  }

  lemma {:induction false} SavedLater(phone: Phone, d: Driver, one: Driver, e: Driver)
    requires d.saving.Some? && d.client.download.Some? && d.client.download.value.fileId in phone
    requires one.saving == d.saving && one.client.download.Some? && one.client.download.value.fileId == d.client.download.value.fileId
    requires SameElsewhere(d.disk, one.disk, d.saving.value.partial) && Saved(phone, one, e)
    ensures Saved(phone, d, e)
  {
    var s := d.saving.value;
    assert one.disk - {s.path, s.partial} == (one.disk - {s.partial}) - {s.path};
    assert d.disk - {s.path, s.partial} == (d.disk - {s.partial}) - {s.path};
  }

  /** From a download under way, chunk by chunk, to the file saved. */
  lemma {:induction false} Finishes(phone: Phone, wanted: Wanted, start: Disk, d: Driver, id: nat, env: Env, luck: Luck)
    returns (run: seq<Order>)
    requires PhoneSound(phone) && UnderWay(phone, wanted, start, d, id) && Carries(env) && Works(luck)
    ensures HonestRun(phone, d, run) && Saved(phone, d, Obeyed(d, run))
    decreases d.client.download.value.total - d.client.download.value.next
  {
    hide Sound, Side, Obey, Progress, Piece, Total, HonestCommand, Holds, Saved;
    var dl := d.client.download.value;
    HeldParts(phone, d);
    var c := Through(R.Reply(id, Response.FileChunk(dl.next, Piece(phone[dl.fileId], dl.next))));
    var first := Order(c, env, luck);
    if dl.next + 1 < dl.total {
      OneFurther(phone, wanted, start, d, id, env, luck);
      var one := Obey(d, c, env, luck);
      var others := Finishes(phone, wanted, start, one, d.client.link.nextId, env, luck);
      run := [first] + others;
      assert run[1..] == others;
      SavedLater(phone, d, one, Obeyed(one, others));
    } else {
      LastPiece(phone, wanted, start, d, id, env, luck);
      run := [first];
      assert run[1..] == [];
      assert Obeyed(Obey(d, c, env, luck), []) == Obey(d, c, env, luck);
    }
  }

  // ---- from anywhere ----

  /** An input of which the disk hears nothing and which wants no piece. */
  lemma {:induction false} QuietRound(d: Driver, input: Input, env: Env, luck: Luck)
    requires Sound(d.client) && Honest(d.client, input) && luck.writes && U.NoNeed(Step(d.client, input, env).effects)
    requires FetchEvents(Step(d.client, input, env).effects) == []
    ensures var e := Obey(d, Through(input), env, luck); e.client == Step(d.client, input, env).client && SameSide(e, d)
  {
    hide Sound, Step, Honest, U.NoNeed;
    OneRound(d, input, env, luck);
    ShowNone(d.(client := Step(d.client, input, env).client), luck);
  }

  lemma {:induction false} LostIsQuiet(c: Client, env: Env)
    requires Sound(c)
    ensures var did := Step(c, Lost, env); U.NoNeed(did.effects) && FetchEvents(did.effects) == []
  {
    hide Sound, U.NoNeed;
    U.LostOther(c);
    if U.Untold(OnLost(c).effects) { U.NoNeedNone(OnLost(c).effects); }
    LostIdle(c);
  }

  lemma {:induction false} ReachIsQuiet(c: Client, env: Env)
    ensures var did := Step(c, Input.Reach, env); U.NoNeed(did.effects) && FetchEvents(did.effects) == []
  {
    hide U.NoNeed;
    ReachIdle(c, env);
    U.NoNeedNone([]);
    U.NoNeedOne(Event.Refused);
    U.NoNeedOne(Ignored);
    var knock := [Effect.Send(Knock(c.ownOnion, c.ownYgg))];
    assert knock[1..] == [] && U.SendEvents(knock) == [];
    U.NoNeedNone(knock);
  }

  lemma {:induction false} LinkedIsQuiet(c: Client, env: Env)
    requires Sound(c) && c.link.pending
    ensures var did := Step(c, Received(Handshake(true, true)), env); U.NoNeed(did.effects) && FetchEvents(did.effects) == []
  {
    hide Sound, U.NoNeed, OnLinked, U.Busy;
    PendingSound(c);
    U.LinkedOther(c, env);
    U.NoNeedNone(OnLinked(c, env).effects);
    LinkedIdle(c, env);
  }

  function AgainOrders(env: Env, luck: Luck): seq<Order> {
    [Order(Through(Lost), env, luck), Order(Through(Input.Reach), env, luck), Order(Through(Received(Handshake(true, true))), env, luck)]
  }

  lemma {:induction false} AgainObeyed(phone: Phone, d: Driver, env: Env, luck: Luck)
    requires PhoneSound(phone) && Sound(d.client) && !d.client.link.revoked && Carries(env) && luck.writes
    ensures var e := Obeyed(d, AgainOrders(env, luck));
            e.client == Again(d.client, env) && SameSide(e, d) && HonestRun(phone, d, AgainOrders(env, luck))
  {
    hide Sound, Step, Obey, U.NoNeed, Again, Greetings;
    var orders := AgainOrders(env, luck);
    assert orders[1..] == [orders[1], orders[2]] && orders[1..][1..] == [orders[2]] && orders[1..][1..][1..] == [];
    AgainIs(d.client, env);
    LostKeepsPlaces(d.client, env);
    LostIsQuiet(d.client, env);
    QuietRound(d, Lost, env, luck);
    var one := Obey(d, Through(Lost), env, luck);
    ReachKnocks(one.client, env);
    ReachIsQuiet(one.client, env);
    QuietRound(one, Input.Reach, env, luck);
    var two := Obey(one, Through(Input.Reach), env, luck);
    LinkedIsQuiet(two.client, env);
    QuietRound(two, Received(Handshake(true, true)), env, luck);
    var three := Obey(two, Through(Received(Handshake(true, true))), env, luck);
    assert Obeyed(three, []) == three && Obeyed(two, [orders[2]]) == three && Obeyed(one, [orders[1], orders[2]]) == three;
    assert HonestRun(phone, three, []) && HonestRun(phone, two, [orders[2]]) && HonestRun(phone, one, [orders[1], orders[2]]);
  }

  lemma {:induction false} RunsJoin(phone: Phone, d: Driver, a: seq<Order>, b: seq<Order>)
    requires PhoneSound(phone) && HonestRun(phone, d, a) && HonestRun(phone, Obeyed(d, a), b)
    ensures HonestRun(phone, d, a + b) && Obeyed(d, a + b) == Obeyed(Obeyed(d, a), b)
    decreases |a|
  {
    hide Obey, HonestCommand;
    if a == [] {
      assert a + b == b;
    } else {
      assert (a + b)[1..] == a[1..] + b;
      RunsJoin(phone, Obey(d, a[0].command, a[0].env, a[0].luck), a[1..], b);
    }
  }

  /** No download is ever beyond completing: whatever has been lost, refused a frame, or left waiting, and as long as the
      pairing is not revoked and the phone has the file, a new link and the file's chunks one by one save it whole. */
  lemma {:induction false} NeverBeyondCompleting(phone: Phone, wanted: Wanted, start: Disk, d: Driver, env: Env, luck: Luck)
    returns (run: seq<Order>)
    requires PhoneSound(phone) && Sound(d.client) && Side(phone, wanted, start, d) && Holds(phone, d)
    requires d.client.download.Some? && d.saving.Some? && d.client.download.value.fileId in phone && !d.client.link.revoked
    requires Carries(env) && Works(luck)
    ensures HonestRun(phone, d, run) && Saved(phone, d, Obeyed(d, run))
  {
    hide Sound, Side, Obeyed, Holds, Saved, Again, HonestRun, Asks;
    AgainObeyed(phone, d, env, luck);
    TakenUpAgain(d.client, env);
    var e := Obeyed(d, AgainOrders(env, luck));
    RunSide(phone, wanted, start, d, AgainOrders(env, luck));
    NothingNewWanted(wanted, env, luck);
    var id := OnOrder(e.client, d.client.download.value);
    var others := Finishes(phone, wanted, start, e, id, env, luck);
    RunsJoin(phone, d, AgainOrders(env, luck), others);
    run := AgainOrders(env, luck) + others;
    SavedLater(phone, d, e, Obeyed(e, others));
  }

  lemma {:induction false} NothingNewWanted(wanted: Wanted, env: Env, luck: Luck)
    ensures WantedBy(wanted, AgainOrders(env, luck)) == wanted
  {
    var orders := AgainOrders(env, luck);
    assert orders[1..] == [orders[1], orders[2]] && [orders[1], orders[2]][1..] == [orders[2]] && [orders[2]][1..] == [];
    assert WantedBy(wanted, [orders[2]]) == WantedBy(wanted, []) == wanted;
    assert WantedBy(wanted, [orders[1], orders[2]]) == wanted;
  }

  lemma {:induction false} OnOrder(c: Client, dl: Download) returns (id: nat)
    requires c.link.session && c.download == Some(dl.(stalled := false)) && Asks(c.link, ChunkRequest(dl))
    ensures BringsNext(c, id, [])
  {
    id :| id in c.link.outstanding && c.link.outstanding[id] == ChunkRequest(dl);
  }

  // ---- over whole runs ----

  /** A file is told to be done only by the answer that brings the rest of it. */
  lemma {:induction false} DoneIsLast(phone: Phone, d: Driver, input: Input, env: Env, fileId: Id) returns (id: nat, bytes: seq<Byte>)
    requires PhoneSound(phone) && Sound(d.client) && Holds(phone, d) && HonestInput(phone, d.client, input)
    requires FileDone(fileId) in FetchEvents(Step(d.client, input, env).effects)
    ensures BringsRest(phone, d.client, id, bytes) && input == Chunk(d.client, id, bytes) && fileId == d.client.download.value.fileId
  {
    hide Sound, Step, Serves, Total, Eaten, SaturatingMul;
    var did := Step(d.client, input, env);
    StepMoves(d.client, input, env);
    id, bytes := input.frame.content.id, input.frame.content.response.bytes;
    var dl := d.client.download.value;
    HeldParts(phone, d);
    EatenReaches(phone[dl.fileId], dl.next, bytes);
    ChunkOnlyRunning(d.client, id, bytes, env);
  }

  /** A chunk for a download that waits, or without a link, tells of nothing. */
  lemma {:induction false} ChunkOnlyRunning(c: Client, id: nat, bytes: seq<Byte>, env: Env)
    requires Sound(c) && id in c.link.outstanding && c.link.outstanding[id].FileChunk?
    ensures var did := Step(c, R.Reply(id, Response.FileChunk(c.link.outstanding[id].index, bytes)), env);
            FetchEvents(did.effects) != [] ==> c.link.session && c.download.Some? && !c.download.value.stalled
  {
    hide LinkSound, DownloadSound, UploadSound, NothingLeft, Overtaken, OnAsk, AnySend, Eaten, SaturatingMul;
    SessionOf(c, id);
    AnsweredRoom(c, id);
    var first := Overtaken(c.(link := c.link.(outstanding := c.link.outstanding - {id})), id);
    if c.download.None? || c.download.value.stalled {
      FetchEventsBoth(first.effects, [Show(Ignored)]);
      IgnoredAlone();
    }
  }

  lemma {:induction false} SavedUnder(phone: Phone, wanted: Wanted, start: Disk, d: Driver)
    requires PhoneSound(phone) && Holds(phone, d) && Side(phone, wanted, start, d) && d.client.download.Some?
    ensures d.saving.Some? && d.saving.value.partial == PartialName(d.saving.value.path)
  {
  }

  lemma {:induction false} NothingSaved(phone: Phone, d: Driver)
    requires PhoneSound(phone) && d.saving.None? && d.client.download.None?
    ensures Side(phone, {}, d.disk, d) && Holds(phone, d)
  {
  }

  lemma {:induction false} StillThere(phone: Phone, wanted: Wanted, start: Disk, disk: Disk, path: Path)
    requires OnlyWhole(phone, wanted, start, disk) && !DR.Partial(wanted, path) && path in start
    ensures path in disk && (disk[path] == start[path] || WholeAt(phone, wanted, disk, path))
  {
  }

  /** Over every run from the start of a terminal: a file told to be done, written and renamed, is whole under the name asked
      for, with nothing under its partial name and nothing left of the save; and over every later run it stays there until
      something is saved over it, and that, if it is a file of the phone, is whole too. */
  lemma {:induction false} CompletedStays(phone: Phone, address: CC.Address, disk: Disk, run: seq<Order>, last: Order, fileId: Id,
                                          more: seq<Order>)
    requires PhoneSound(phone) && last.command.Through? && last.luck.writes && last.luck.renames
    requires HonestRun(phone, FreshDriver(address, disk), run)
    requires var d := Obeyed(FreshDriver(address, disk), run);
             HonestCommand(phone, d, last.command) &&
             FileDone(fileId) in FetchEvents(Step(d.client, last.command.input, last.env).effects) &&
             HonestRun(phone, Obey(d, last.command, last.env, last.luck), more)
    ensures var d := Obeyed(FreshDriver(address, disk), run);
            var e := Obey(d, last.command, last.env, last.luck);
            var z := Obeyed(e, more);
            d.saving.Some? && d.saving.value.fileId == fileId && fileId in phone &&
            (var path := d.saving.value.path;
             path in e.disk && e.disk[path] == phone[fileId].bytes && d.saving.value.partial !in e.disk &&
             e.saving.None? && e.client.download.None? &&
             (!DR.Partial(WantedBy({}, more), path) ==>
                path in z.disk && (z.disk[path] == phone[fileId].bytes || WholeAt(phone, WantedBy({}, more), z.disk, path))))
  {
    hide Sound, Side, Holds, Obeyed, Obey, Step, HonestRun, HonestInput, OnlyWhole, WholeAt, DR.Partial, WantedBy, BringsRest;
    var d := ReachedBy(phone, address, disk, run);
    var input := last.command.input;
    var id, bytes := DoneIsLast(phone, d, input, last.env, fileId);
    RestParts(phone, d, id, bytes);
    SavedUnder(phone, WantedBy({}, run), disk, d);
    HeldParts(phone, d);
    LastChunkNames(phone, d, id, bytes, last.env, last.luck);
    PartialIsAnother(d.saving.value.path);
    var e := Obey(d, last.command, last.env, last.luck);
    NothingSaved(phone, e);
    HonestIsInKind(phone, d.client, input);
    ObeySide(phone, WantedBy({}, run), disk, d, last.command, last.env, last.luck);
    RunSide(phone, {}, e.disk, e, more);
    OnlyWholeOf(phone, WantedBy({}, more), e.disk, Obeyed(e, more));
    if !DR.Partial(WantedBy({}, more), d.saving.value.path) {
      StillThere(phone, WantedBy({}, more), e.disk, Obeyed(e, more).disk, d.saving.value.path);
    }
  }

  lemma {:induction false} OnlyWholeOf(phone: Phone, wanted: Wanted, start: Disk, d: Driver)
    requires PhoneSound(phone) && Side(phone, wanted, start, d)
    ensures OnlyWhole(phone, wanted, start, d.disk)
  {
  }

  lemma {:induction false} RestParts(phone: Phone, d: Driver, id: nat, bytes: seq<Byte>)
    requires PhoneSound(phone) && BringsRest(phone, d.client, id, bytes)
    ensures d.client.download.Some? && d.client.download.value.fileId in phone
  {
  }

  /** What holds of every driver a run from the start reaches. */
  lemma {:induction false} ReachedBy(phone: Phone, address: CC.Address, disk: Disk, run: seq<Order>) returns (d: Driver)
    requires PhoneSound(phone) && HonestRun(phone, FreshDriver(address, disk), run)
    ensures d == Obeyed(FreshDriver(address, disk), run) && Sound(d.client) && Side(phone, WantedBy({}, run), disk, d) && Holds(phone, d)
  {
    hide Sound, Side, Holds, Obeyed, HonestRun, WantedBy;
    d := Obeyed(FreshDriver(address, disk), run);
    FreshSound(phone, address, disk);
    RunSide(phone, {}, disk, FreshDriver(address, disk), run);
    SoundAlong(phone, {}, disk, FreshDriver(address, disk), run);
  }

  lemma {:induction false} SoundAlong(phone: Phone, wanted: Wanted, start: Disk, d: Driver, run: seq<Order>)
    requires PhoneSound(phone) && Sound(d.client) && Side(phone, wanted, start, d) && Holds(phone, d) && HonestRun(phone, d, run)
    ensures Sound(Obeyed(d, run).client)
    decreases |run|
  {
    hide Sound, Side, Holds, Obey, HonestCommand;
    if run != [] {
      ObeySide(phone, wanted, start, d, run[0].command, run[0].env, run[0].luck);
      SoundAlong(phone, Wants(wanted, run[0].command), start, Obey(d, run[0].command, run[0].env, run[0].luck), run[1..]);
    }
  }

  /** The same of a terminal from its start: in every state an honest run reaches, a download of a file the phone has, over a
      pairing not revoked, can still be completed. */
  lemma {:induction false} AlwaysCompletable(phone: Phone, address: CC.Address, disk: Disk, run: seq<Order>, env: Env, luck: Luck)
    returns (more: seq<Order>)
    requires PhoneSound(phone) && HonestRun(phone, FreshDriver(address, disk), run) && Carries(env) && Works(luck)
    requires var d := Obeyed(FreshDriver(address, disk), run);
             d.client.download.Some? && d.client.download.value.fileId in phone && !d.client.link.revoked
    ensures var d := Obeyed(FreshDriver(address, disk), run);
            d.saving.Some? && HonestRun(phone, d, more) && Saved(phone, d, Obeyed(d, more))
  {
    hide Sound, Side, Holds, Obeyed, HonestRun, WantedBy, Saved;
    var d := ReachedBy(phone, address, disk, run);
    SavedUnder(phone, WantedBy({}, run), disk, d);
    more := NeverBeyondCompleting(phone, WantedBy({}, run), disk, d, env, luck);
  }

  // ---- the other ends ----

  /** Every other end of a download forgets the save and removes what there is of the file, if it can be removed. */
  lemma {:induction false} EndRemoves(d: Driver, event: Event, luck: Luck)
    requires d.saving.Some?
    requires event.FetchCancelled? || event.FetchStopped? || event == Noticed(Notice.FileGone(d.saving.value.fileId))
    ensures var e := ShowEvent(d, event, luck).driver;
            e == d.(saving := None, disk := if luck.removes then d.disk - {d.saving.value.partial} else d.disk)
  {
  }

  /** A save given up leaves nothing under way; what there was of the file is removed, if it can be. */
  lemma {:induction false} CancelledSave(phone: Phone, d: Driver, env: Env, luck: Luck)
    requires PhoneSound(phone) && Sound(d.client) && Holds(phone, d) && d.saving.Some?
    ensures var e := Obey(d, Command.CancelSave, env, luck);
            e.saving.None? && e.client.download.None? && e.client.link == d.client.link && e.client.upload == d.client.upload &&
            e.disk == if luck.removes then d.disk - {d.saving.value.partial} else d.disk
  {
    hide Sound;
    FeedIsTwoRounds(d, CancelFetch, FEED_ROUNDS, env, luck);
    RoundCalls(d, CancelFetch, env, luck);
    var did := Step(d.client, CancelFetch, env);
    var next := d.(client := did.client);
    assert did.effects[1..] == [];
    var first := ShowEvent(next, did.effects[0].event, luck);
    assert ShowAll(first.driver, [], luck).driver == first.driver;
  }

  /** The end of a message, sent or not, frees the driver for the next. */
  lemma {:induction false} SendingEnds(d: Driver, event: Event, luck: Luck)
    requires event.Sent? || event.SendStopped?
    ensures ShowEvent(d, event, luck) == Shown(d.(sending := None), [])
  {
  }

  // ---- how a message begins ----

  /** A message begins if none is being sent and every file is there to be opened: then the terminal is told of the files with
      the names, sizes and previews they have, and they are kept by path from the first on. Otherwise nothing changes. */
  lemma {:induction false} SendingBegins(d: Driver, c: Command, env: Env, luck: Luck)
    requires Sound(d.client) && c.SendFiles?
    ensures var e := Obey(d, c, env, luck);
            if d.sending.None? && luck.opens && c.files != [] &&
               (forall i | 0 <= i < |c.files| :: c.files[i].path in d.disk && |d.disk[c.files[i].path]| < 0x1_0000_0000_0000_0000) then
              e.saving == d.saving && e.disk == d.disk && e.sending.Some? && e.sending.value.at == 0 && |e.sending.value.paths| == |c.files| &&
              (forall i | 0 <= i < |c.files| :: e.sending.value.paths[i] == c.files[i].path) &&
              exists items: seq<OutgoingItem> ::
                |items| == |c.files| && e.client == Step(d.client, Input.Send(c.chat, items, c.text), env).client &&
                forall i | 0 <= i < |items| ::
                  items[i] == OutgoingItem(c.files[i].name, |d.disk[c.files[i].path]|, c.files[i].preview)
            else e == d
  {
    hide Sound, Step, Round;
    if d.sending.None? && luck.opens && c.files != [] && AllThere(c.files, d.disk) {
      var items := ItemsOf(c.files, d.disk);
      var input := Input.Send(c.chat, items, c.text);
      var begun := d.(sending := Some(Sending(PathsOf(c.files), 0)));
      FeedIsTwoRounds(begun, input, FEED_ROUNDS, env, luck);
      RoundCalls(begun, input, env, luck);
      SendShows(begun, input, env, luck);
      assert forall i | 0 <= i < |items| :: items[i] == OutgoingItem(c.files[i].name, |d.disk[c.files[i].path]|, c.files[i].preview);
    }
  }

  lemma {:induction false} SendShows(d: Driver, input: Input, env: Env, luck: Luck)
    requires Sound(d.client) && input.Send?
    ensures var e := Round(d, input, env, luck).driver; e.saving == d.saving && e.disk == d.disk && e.sending == d.sending
  {
    hide OnAsk, AnySend;
    if input.items != [] { AskShows(d.client.link, d.client.cache, Offer(input.chat, input.items[0]), env); }
    var did := Step(d.client, input, env);
    assert did.effects[1..] == [];
    var next := d.(client := did.client);
    assert ShowAll(next, [], luck).driver == next;
  }

  lemma {:induction false} AskShows(l: Link, cache: CC.CacheState, r: Request, env: Env)
    requires r.FileOffer?
    ensures var effects := OnAsk(l, cache, r, env).effects;
            |effects| == 1 && (effects[0].Show? ==> effects[0].event.NotLinked? || effects[0].event.Refused?)
  {
  }
}
