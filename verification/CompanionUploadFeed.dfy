/** What one input, with everything the driver answers to it, does to an upload. */
module CompanionUploadFeed {
  import opened Bytes
  import opened CompanionProtocol
  import opened CompanionProtocolLaws
  import opened CompanionDriver
  import opened CompanionDownload
  import opened CompanionFeed
  import opened CompanionPhone
  import opened CompanionUpload
  import opened CompanionUploadState
  import CC = CompanionCache

  predicate Steady(src: map<Path, seq<Byte>>, disk: Disk) {
    forall path | path in src :: path in disk && disk[path] == src[path]
  }

  function PathsNow(d: Driver): seq<Path> {
    if d.sending.Some? then d.sending.value.paths else []
  }

  /** The driver still has the paths of an upload that lives, and the upload goes well. */
  predicate Well(d: Driver, ch: Chosen, st: Store) {
    d.client.upload.Some? ==> d.sending.Some? && Going(d.client.upload.value, Owed(d.client.link, ch.begun), PathsNow(d), ch, st)
  }

  /** A request of an upload that may be believed: its chunk is a slice of the chosen file, its message names
      whole files, one for each path. */
  predicate Believable(ch: Chosen, st: Store, r: Request, paths: seq<Path>) {
    match r
    case FilePut(fid, index, bytes) =>
      Owns(ch, st, fid) && bytes == Slice(ch.src[ch.owner[fid]], index, st.made[fid].chunkBytes)
    case FileSend(fileIds, _) =>
      |fileIds| == |paths| && forall i | 0 <= i < |fileIds| :: Owns(ch, st, fileIds[i]) && ch.owner[fileIds[i]] == paths[i] && Whole(st, fileIds[i])
    case _ => true
  }

  /** The requests of the message being sent that were not on order before. */
  predicate NewBelievable(before: map<nat, Request>, d: Driver, ch: Chosen, st: Store) {
    forall id | id in Owed(d.client.link, ch.begun) && !(id in before && before[id] == Owed(d.client.link, ch.begun)[id]) ::
      Believable(ch, st, Owed(d.client.link, ch.begun)[id], PathsNow(d))
  }

  lemma {:induction false} NothingNew(before: map<nat, Request>, d: Driver, ch: Chosen, st: Store)
    requires Fewer(Owed(d.client.link, ch.begun), before)
    ensures NewBelievable(before, d, ch, st)
  {
  }

  /** What is expected of an upload that goes well may be believed. */
  lemma {:induction false} ExpectedIsBelievable(u: Upload, paths: seq<Path>, ch: Chosen, st: Store, r: Request)
    requires Static(u, paths, ch, st) && OwnersSound(ch, st) && Expected(u, ch, st, r)
    ensures Believable(ch, st, r, paths)
  {
    if r.FileSend? {
      forall i | 0 <= i < |r.fileIds| ensures Owns(ch, st, r.fileIds[i]) && ch.owner[r.fileIds[i]] == paths[i] && Whole(st, r.fileIds[i]) {
        assert u.ids[i] in ch.owner;
      }
    }
  }

  lemma {:induction false} WellIsBelievable(before: map<nat, Request>, d: Driver, ch: Chosen, st: Store)
    requires Well(d, ch, st) && d.client.upload.Some? && OwnersSound(ch, st)
    ensures NewBelievable(before, d, ch, st)
  {
    hide Expected, Static, Believable;
    var u := d.client.upload.value;
    forall id | id in Owed(d.client.link, ch.begun) ensures Believable(ch, st, Owed(d.client.link, ch.begun)[id], PathsNow(d)) {
      ExpectedIsBelievable(u, PathsNow(d), ch, st, Owed(d.client.link, ch.begun)[id]);
    }
  }

  // ---- showing ----

  /** What is told of a download, or of neither, leaves the sending alone and calls for nothing but its end. */
  lemma {:induction false} ShowUntold(d: Driver, effects: seq<Effect>, luck: Luck)
    requires Untold(effects)
    ensures var shown := ShowAll(d, effects, luck);
            shown.driver.sending == d.sending && forall i | 0 <= i < |shown.answers| :: shown.answers[i] == CancelFetch
    decreases |effects|
  {
    hide WriteAt, ReadAt;
    if effects != [] {
      if effects[0].Send? {
        ShowUntold(d, effects[1..], luck);
      } else {
        assert !AboutSend(effects[0].event);
        ShowUntold(ShowEvent(d, effects[0].event, luck).driver, effects[1..], luck);
      }
    }
  }

  lemma {:induction false} ShowNothing(d: Driver, effects: seq<Effect>, luck: Luck)
    requires Untold(effects) && FetchEvents(effects) == []
    ensures ShowAll(d, effects, luck) == Shown(d, [])
    decreases |effects|
  {
    if effects != [] {
      if effects[0].Show? {
        assert !AboutSend(effects[0].event) && !AboutFetch(effects[0].event);
        assert ShowEvent(d, effects[0].event, luck) == Shown(d, []);
      }
      ShowNothing(d, effects[1..], luck);
    }
  }

  /** A piece wanted is the driver's to read. */
  lemma {:induction false} ShowNeed(d: Driver, effects: seq<Effect>, e: Event, luck: Luck)
    requires SendEvents(effects) == [e] && e.NeedChunk? && FetchEvents(effects) == []
    ensures ShowAll(d, effects, luck) == OnNeedChunk(d, e.which, e.index, e.offset, e.len, luck)
    decreases |effects|
  {
    hide OnNeedChunk;
    if effects[0].Show? && AboutSend(effects[0].event) {
      var shown := OnNeedChunk(d, e.which, e.index, e.offset, e.len, luck);
      assert SendEvents(effects) == [effects[0].event] + SendEvents(effects[1..]);
      assert SendEvents(effects)[0] == effects[0].event && |SendEvents(effects[1..])| == 0;
      ShowNothing(shown.driver, effects[1..], luck);
      assert shown.answers + [] == shown.answers;
    } else {
      if effects[0].Show? {
        assert !AboutFetch(effects[0].event);
        assert ShowEvent(d, effects[0].event, luck) == Shown(d, []);
      }
      ShowNeed(d, effects[1..], e, luck);
    }
  }

  // ---- rounds ----

  /** Once there is no upload, no answer of the driver's makes one. */
  lemma {:induction false} NoneStays(d: Driver, input: Input, env: Env, luck: Luck)
    requires Sound(d.client) && d.client.upload.None? && (input.PutChunk? || input.CancelSend? || input.CancelFetch?)
    ensures var e := Round(d, input, env, luck).driver;
            e.client.upload.None? && Fewer(Busy(e.client.link), Busy(d.client.link))
  {
    hide Busy, LinkSound, DownloadSound, NothingLeft, AnySend, OnAsk;
    var did := Step(d.client, input, env);
    FewerRefl(Busy(d.client.link));
    RoundKeepsClient(d, input, env, luck);
  }

  lemma {:induction false} RoundKeepsClient(d: Driver, input: Input, env: Env, luck: Luck)
    ensures Round(d, input, env, luck).driver.client == Step(d.client, input, env).client
  {
    hide Step;
    var did := Step(d.client, input, env);
    ShowCalls(d.(client := did.client), did.effects, luck);
  }

  lemma {:induction false} NotMovedOwes(c: Client, did: Did, begun: nat)
    requires NotMoved(c, did)
    ensures Fewer(Owed(did.client.link, begun), Owed(c.link, begun))
    ensures Waits(c, did) ==> Owed(did.client.link, begun) == map[]
  {
    hide Busy, Owed, Fewer, NoNeed, Untold, Told;
    if Waits(c, did) {
      OwedNone(did.client.link, begun);
      FewerNone(Owed(c.link, begun));
    } else {
      OwedFewer(did.client.link, c.link, begun);
    }
  }

  /** An input that does not move the upload leaves it well. */
  lemma {:induction false} StillRound(d: Driver, input: Input, env: Env, luck: Luck, ch: Chosen, st: Store)
    requires Well(d, ch, st) && NotMoved(d.client, Step(d.client, input, env))
    ensures var shown := Round(d, input, env, luck);
            Well(shown.driver, ch, st) && Fewer(Owed(shown.driver.client.link, ch.begun), Owed(d.client.link, ch.begun)) &&
            (shown.driver.client.upload.Some? ==>
               shown.driver.sending == d.sending && forall i | 0 <= i < |shown.answers| :: shown.answers[i] == CancelFetch)
  {
    hide Step, Going, Busy, Owed, NoNeed, Untold;
    var did := Step(d.client, input, env);
    var next := d.(client := did.client);
    RoundKeepsClient(d, input, env, luck);
    NotMovedOwes(d.client, did, ch.begun);
    if did.client.upload.Some? {
      ShowUntold(next, did.effects, luck);
      var u := d.client.upload.value;
      if Waits(d.client, did) {
        WaitingGoes(u, Owed(d.client.link, ch.begun), PathsNow(d), ch, st);
      } else {
        FewerGoes(u, Owed(d.client.link, ch.begun), Owed(did.client.link, ch.begun), PathsNow(d), ch, st);
      }
    }
  }

  lemma {:induction false} CancelFetchStill(d: Driver, env: Env)
    ensures NotMoved(d.client, Step(d.client, CancelFetch, env))
  {
    CancelFetchOther(d.client);
  }

  lemma {:induction false} CancelFetchKeeps(d: Driver, env: Env, luck: Luck)
    ensures Round(d, CancelFetch, env, luck).driver.client.upload == d.client.upload
  {
    RoundKeepsClient(d, CancelFetch, env, luck);
  }

  /** With whatever the driver answers to it. */
  lemma {:induction false} StillFeed(d: Driver, input: Input, env: Env, luck: Luck, ch: Chosen, st: Store)
    requires Sound(d.client) && Honest(d.client, input) && Well(d, ch, st) && NotMoved(d.client, Step(d.client, input, env))
    requires OwnersSound(ch, st)
    ensures var e := Feed(d, [input], FEED_ROUNDS, env, luck);
            Well(e, ch, st) && NewBelievable(Owed(d.client.link, ch.begun), e, ch, st) && Fewer(Owed(e.client.link, ch.begun), Owed(d.client.link, ch.begun)) &&
            (e.client.upload.Some? ==> e.client.upload == Step(d.client, input, env).client.upload) &&
            (input.Lost? ==> e.client == Step(d.client, input, env).client)
  {
    hide Step, Busy, Owed, NotMoved, Well, Sound, Honest, Round, OwnersSound, NewBelievable, Fewer;
    FeedIsTwoRounds(d, input, FEED_ROUNDS, env, luck);
    RoundCalls(d, input, env, luck);
    StepSound(d.client, input, env);
    StillRound(d, input, env, luck, ch, st);
    var one := Round(d, input, env, luck);
    if one.answers != [] { SecondStill(d, input, one, env, luck, ch, st); }
    NothingNew(Owed(d.client.link, ch.begun), Feed(d, [input], FEED_ROUNDS, env, luck), ch, st);
  }

  lemma {:induction false} SecondStill(d: Driver, input: Input, one: Shown, env: Env, luck: Luck, ch: Chosen, st: Store)
    requires one == Round(d, input, env, luck) && one.answers != [] && Sound(one.driver.client) && Well(one.driver, ch, st)
    requires Fewer(Owed(one.driver.client.link, ch.begun), Owed(d.client.link, ch.begun))
    requires one.driver.client.upload.Some? ==> one.answers[0] == CancelFetch
    ensures var e := Round(one.driver, one.answers[0], env, luck).driver;
            Well(e, ch, st) && Fewer(Owed(e.client.link, ch.begun), Owed(d.client.link, ch.begun)) &&
            (e.client.upload.Some? ==> e.client.upload == one.driver.client.upload)
  {
    hide Step, Busy, Owed, NotMoved, Sound, Round, Fewer, Going;
    var e := Round(one.driver, one.answers[0], env, luck).driver;
    if one.driver.client.upload.Some? {
      CancelFetchStill(one.driver, env);
      CancelFetchKeeps(one.driver, env, luck);
      StillRound(one.driver, CancelFetch, env, luck, ch, st);
    } else {
      AnswersAreTheDrivers(d, input, env, luck);
      NoneStays(one.driver, one.answers[0], env, luck);
      OwedFewer(e.client.link, one.driver.client.link, ch.begun);
    }
    FewerChain(Owed(e.client.link, ch.begun), Owed(one.driver.client.link, ch.begun), Owed(d.client.link, ch.begun));
  }

  lemma {:induction false} AnswersAreTheDrivers(d: Driver, input: Input, env: Env, luck: Luck)
    ensures forall i | 0 <= i < |Round(d, input, env, luck).answers| ::
              var answer := Round(d, input, env, luck).answers[i]; answer.PutChunk? || answer.CancelSend? || answer.CancelFetch?
  {
    hide Step;
    var did := Step(d.client, input, env);
    ShowAnswersAreTheDrivers(d.(client := did.client), did.effects, luck);
  }

  lemma {:induction false} ShowAnswersAreTheDrivers(d: Driver, effects: seq<Effect>, luck: Luck)
    ensures forall i | 0 <= i < |ShowAll(d, effects, luck).answers| ::
              var answer := ShowAll(d, effects, luck).answers[i]; answer.PutChunk? || answer.CancelSend? || answer.CancelFetch?
    decreases |effects|
  {
    hide WriteAt, ReadAt;
    if effects != [] {
      if effects[0].Send? {
        ShowAnswersAreTheDrivers(d, effects[1..], luck);
      } else {
        ShowAnswersAreTheDrivers(ShowEvent(d, effects[0].event, luck).driver, effects[1..], luck);
      }
    }
  }

  // ---- the piece wanted ----

  /** The round in which a piece is wanted, read and asked to be put: the upload goes on well, or is given up. */
  lemma {:induction false} PieceRound(d: Driver, c: Client, did: Did, u: Upload, fileId: Id, env: Env, luck: Luck, ch: Chosen, st: Store)
    requires WantsPiece(c, u, fileId, u.next, did) && FetchEvents(did.effects) == [] && Owed(c.link, ch.begun) == map[] && StoreSound(st)
    requires d.client == did.client && d.sending.Some? && Steady(ch.src, d.disk)
    requires Static(u, PathsNow(d), ch, st) && Putting(u, st) && !u.stalled && OwnersSound(ch, st)
    ensures var shown := ShowAll(d, did.effects, luck);
            shown.driver.client == did.client &&
            ((shown.answers == [PutChunk(u.next, Slice(ch.src[PathsNow(d)[u.at]], u.next, st.made[u.ids[u.at]].chunkBytes))] &&
              shown.driver.sending.Some? && PathsNow(shown.driver) == PathsNow(d)) ||
             shown.answers == [CancelSend])
  {
    hide ReadAt, Upload.Piece, Slice, HasBelow, EarlierWhole, Whole;
    var need := SendEvents(did.effects)[0];
    ShowNeed(d, did.effects, need, luck);
    var path := PathsNow(d)[u.at];
    var fid := u.ids[u.at];
    assert Owns(ch, st, fid) && ch.owner[fid] == path;
    LastIsMade(u, PathsNow(d), ch, st);
    PieceIsSlice(u, u.next, ch.src[path]);
  }

  lemma {:induction false} LastIsMade(u: Upload, paths: seq<Path>, ch: Chosen, st: Store)
    requires Static(u, paths, ch, st) && Putting(u, st) && StoreSound(st) && OwnersSound(ch, st)
    ensures u.at < |u.items| && u.chunkBytes > 0 && u.items[u.at].sizeBytes == |ch.src[paths[u.at]]|
    ensures u.next < Count(|ch.src[paths[u.at]]|, u.chunkBytes) && u.chunkBytes == st.made[u.ids[u.at]].chunkBytes
  {
    hide HasBelow, EarlierWhole, Whole;
    var fid := u.ids[u.at];
    assert Owns(ch, st, fid) && ch.owner[fid] == paths[u.at];
    assert MadeSound(st.made[fid]);
  }

  lemma {:induction false} AskOwed(l: Link, cache: CC.CacheState, r: Request, env: Env, begun: nat)
    requires LinkSound(l) && l.nextId >= begun && OfUpload(r)
    ensures var a := OnAsk(l, cache, r, env);
            SendEvents(a.effects) == [] &&
            Owed(a.link, begun) == if AnySend(a.effects) then Owed(l, begun)[l.nextId := r] else Owed(l, begun)
  {
    hide OnAsk, AnySend, Busy, Owed, LinkSound, SendEvents;
    AskBusy(l, cache, r, env);
    var a := OnAsk(l, cache, r, env);
    if AnySend(a.effects) { OwedMore(l, a.link, begun, l.nextId, r); } else { OwedSame(l, a.link, begun); }
  }

  /** The put itself. */
  lemma {:induction false} PutRound(d: Driver, u: Upload, bytes: seq<Byte>, env: Env, luck: Luck, ch: Chosen, st: Store)
    requires Sound(d.client) && d.client.upload == Some(u) && Owed(d.client.link, ch.begun) == map[] && d.sending.Some?
    requires ch.begun <= d.client.link.nextId
    requires Static(u, PathsNow(d), ch, st) && Putting(u, st) && !u.stalled && OwnersSound(ch, st)
    requires bytes == Slice(ch.src[PathsNow(d)[u.at]], u.next, st.made[u.ids[u.at]].chunkBytes)
    ensures var shown := Round(d, PutChunk(u.next, bytes), env, luck);
            Well(shown.driver, ch, st) && shown.answers == [] &&
            (shown.driver.client.upload.Some? ==> shown.driver.client.upload == Some(u) && PathsNow(shown.driver) == PathsNow(d)) &&
            (shown.driver.client.upload.None? ==> Owed(shown.driver.client.link, ch.begun) == map[])
  {
    hide OnAsk, AnySend, Busy, Owed, LinkSound, Slice, HasBelow, Whole, EarlierWhole, DownloadSound, NothingLeft;
    var fid := u.ids[u.at];
    var r := Request.FilePut(fid, u.next, bytes);
    var asking := OnAsk(d.client.link, d.client.cache, r, env);
    var did := Step(d.client, PutChunk(u.next, bytes), env);
    AskOwed(d.client.link, d.client.cache, r, env, ch.begun);
    AskTellsNothing(d.client.link, d.client.cache, r, env);
    ShowNothing(d.(client := did.client), did.effects, luck);
    assert Owns(ch, st, fid) && ch.owner[fid] == PathsNow(d)[u.at];
    if AnySend(asking.effects) { PutGoing(u, d.client.link.nextId, r, PathsNow(d), ch, st); }
  }

  lemma {:induction false} PutGoing(u: Upload, id: nat, r: Request, paths: seq<Path>, ch: Chosen, st: Store)
    requires Static(u, paths, ch, st) && Putting(u, st) && !u.stalled && Expected(u, ch, st, r)
    ensures Going(u, map[id := r], paths, ch, st)
  {
  }

  /** From a piece wanted, through the put, to the end of the circle. */
  lemma {:induction false} PieceFeed(d: Driver, input: Input, c: Client, did: Did, u: Upload, fileId: Id, env: Env, luck: Luck,
                                     ch: Chosen, st: Store)
    requires did == Step(d.client, input, env) && Sound(d.client) && Honest(d.client, input) && FetchEvents(did.effects) == []
    requires did.client == c.(upload := Some(u)) && SendEvents(did.effects) == [NeedChunk(fileId, u.at, u.next, u.Piece(u.next).0, u.Piece(u.next).1)]
    requires Owed(c.link, ch.begun) == map[] && ch.begun <= c.link.nextId && d.sending.Some? && Steady(ch.src, d.disk) && StoreSound(st)
    requires Static(u, PathsNow(d), ch, st) && Putting(u, st) && !u.stalled && OwnersSound(ch, st)
    ensures var e := Feed(d, [input], FEED_ROUNDS, env, luck);
            Well(e, ch, st) && (e.client.upload.Some? ==> e.client.upload == Some(u)) &&
            (e.client.upload.None? ==> Owed(e.client.link, ch.begun) == map[])
  {
    hide Step, Busy, Owed, Well, Sound, Honest, Slice, Static, Putting, OwnersSound, Upload.Piece, Steady;
    var next := d.(client := did.client);
    FeedIsTwoRounds(d, input, FEED_ROUNDS, env, luck);
    StepSound(d.client, input, env);
    PieceRound(next, c, did, u, fileId, env, luck, ch, st);
    var one := Round(d, input, env, luck);
    if one.answers == [CancelSend] {
      CancelRound(one.driver, env, luck, ch, st);
    } else {
      PutRound(one.driver, u, one.answers[0].bytes, env, luck, ch, st);
    }
  }

  lemma {:induction false} CancelRound(d: Driver, env: Env, luck: Luck, ch: Chosen, st: Store)
    requires Sound(d.client) && Owed(d.client.link, ch.begun) == map[]
    ensures var e := Round(d, CancelSend, env, luck).driver;
            e.client.upload.None? && Well(e, ch, st) && Owed(e.client.link, ch.begun) == map[]
  {
    hide Busy, Owed, LinkSound, DownloadSound, UploadSound, NothingLeft, AbortEach;
    RoundKeepsClient(d, CancelSend, env, luck);
    if d.client.upload.Some? { AbortOther(d.client.link, d.client.cache, d.client.upload.value.ids, env); }
    OwedSame(d.client.link, Round(d, CancelSend, env, luck).driver.client.link, ch.begun);
  }

  // ---- the next request ----

  /** A round that ends in the next request of the upload, or without it. */
  lemma {:induction false} OnwardFeed(d: Driver, input: Input, c: Client, did: Did, u: Upload, env: Env, luck: Luck, ch: Chosen, st: Store)
    requires did == Step(d.client, input, env) && Sound(d.client) && Honest(d.client, input) && FetchEvents(did.effects) == []
    requires AsksNext(c, u, did) && Going(u, Owed(did.client.link, ch.begun), PathsNow(d), ch, st) && d.sending.Some?
    ensures var e := Feed(d, [input], FEED_ROUNDS, env, luck); Well(e, ch, st) && e.client.upload == Some(u)
  {
    hide Step, Busy, Owed, Sound, Honest, Going;
    FeedIsTwoRounds(d, input, FEED_ROUNDS, env, luck);
    ShowNothing(d.(client := did.client), did.effects, luck);
  }
}
