/** The answers that move an upload on: a place made, a chunk put away, a list of what is staged. */
module CompanionUploadAnswers {
  import opened Bytes
  import opened CompanionProtocol
  import opened CompanionProtocolLaws
  import opened CompanionDriver
  import opened CompanionDownload
  import opened CompanionFeed
  import opened CompanionPhone
  import opened CompanionUpload
  import opened CompanionUploadState
  import opened CompanionUploadFeed
  import opened CompanionRuns
  import CC = CompanionCache

  /** Which chosen file the newest id was taken for. */
  function Adopt(owner: map<Id, Path>, d: Driver): map<Id, Path> {
    if d.client.upload.Some? && d.client.upload.value.ids != [] && |d.client.upload.value.ids| <= |PathsNow(d)| &&
       d.client.upload.value.ids[|d.client.upload.value.ids| - 1] !in owner
    then owner[d.client.upload.value.ids[|d.client.upload.value.ids| - 1] := PathsNow(d)[|d.client.upload.value.ids| - 1]]
    else owner
  }

  lemma {:induction false} NothingAdopted(d: Driver, ch: Chosen, st: Store)
    requires Well(d, ch, st)
    ensures Adopt(ch.owner, d) == ch.owner
  {
    hide Paced, EarlierWhole, Matches;
    if d.client.upload.Some? && d.client.upload.value.ids != [] {
      var u := d.client.upload.value;
      assert u.ids[|u.ids| - 1] in ch.owner;
    }
  }

  /** What an answer leaves: the upload well, what was asked believable, and at most one id newly owned. */
  ghost predicate Settled(before: map<nat, Request>, e: Driver, ch: Chosen, st: Store, fid: Option<Id>) {
    var more := ch.(owner := Adopt(ch.owner, e));
    Well(e, more, st) && OwnersSound(more, st) && NewBelievable(before, e, more, st) &&
    (more == ch || (fid.Some? && fid.value !in ch.owner && more.owner.Keys == ch.owner.Keys + {fid.value} &&
                    forall other | other in ch.owner :: more.owner[other] == ch.owner[other]))
  }

  /** The upload is what it was, or lives, or waits with nothing on order. */
  predicate Lively(before: Option<Upload>, e: Driver) {
    e.client.upload.Some? && e.client.upload.value.stalled ==> e.client.upload == before || e.client.link.outstanding == map[]
  }

  lemma {:induction false} SettledSame(before: map<nat, Request>, e: Driver, ch: Chosen, st: Store, fid: Option<Id>)
    requires Well(e, ch, st) && OwnersSound(ch, st) && (e.client.upload.None? ==> Fewer(Owed(e.client.link, ch.begun), before))
    ensures Settled(before, e, ch, st, fid)
  {
    hide Well, OwnersSound, NewBelievable, Busy, Owed, Fewer, Adopt;
    NothingAdopted(e, ch, st);
    if e.client.upload.Some? { WellIsBelievable(before, e, ch, st); } else { NothingNew(before, e, ch, st); }
  }

  lemma {:induction false} SettledMore(before: map<nat, Request>, e: Driver, ch: Chosen, fid: Id, path: Path, st: Store)
    requires var more := ch.(owner := ch.owner[fid := path]);
             OwnersSound(ch, st) && Owns(more, st, fid) && fid !in ch.owner && Well(e, more, st)
    requires e.client.upload.Some? ==>
               e.client.upload.value.ids != [] && e.client.upload.value.ids[|e.client.upload.value.ids| - 1] == fid &&
               |e.client.upload.value.ids| <= |PathsNow(e)| && PathsNow(e)[|e.client.upload.value.ids| - 1] == path
    requires e.client.upload.None? ==> Owed(e.client.link, ch.begun) == map[]
    ensures Settled(before, e, ch, st, Some(fid))
  {
    hide Busy, Owed, NewBelievable, Going;
    var more := ch.(owner := ch.owner[fid := path]);
    MoreOwners(ch, fid, path, st);
    if e.client.upload.Some? {
      WellIsBelievable(before, e, more, st);
    } else {
      FewerNone(before);
      NothingNew(before, e, ch, st);
    }
  }

  lemma {:induction false} MoreOwners(ch: Chosen, fid: Id, path: Path, st: Store)
    requires OwnersSound(ch, st) && Owns(ch.(owner := ch.owner[fid := path]), st, fid)
    ensures OwnersSound(ch.(owner := ch.owner[fid := path]), st)
  {
    var more := ch.(owner := ch.owner[fid := path]);
    forall other | other in more.owner ensures Owns(more, st, other) {
      if other != fid { assert Owns(ch, st, other); }
    }
  }


  /** Taking an answer up: the first of it. */
  lemma {:induction false} TakeUp(d: Driver, id: nat, response: Response, env: Env, begun: nat) returns (first: Did)
    requires Sound(d.client) && id in d.client.link.outstanding
    ensures first == Overtaken(d.client.(link := d.client.link.(outstanding := d.client.link.outstanding - {id})), id)
    ensures Step(d.client, Reply(id, response), env) == OnAnswer(first.client, d.client.link.outstanding[id], response, first.effects, env)
    ensures LinkSound(first.client.link) && first.client.link.session && FetchEvents(first.effects) == [] && Told(first.client, first.effects)
    ensures Busy(first.client.link) == Busy(d.client.link) - {id} && first.client.link.nextId == d.client.link.nextId
    ensures Owed(first.client.link, begun) == Owed(d.client.link, begun) - {id}
    ensures first.client.upload == d.client.upload || first.client.upload.None?
  {
    hide Busy, Owed, LinkSound, OnAnswer, Told, DownloadSound, UploadSound, NothingLeft;
    var less := d.client.(link := d.client.link.(outstanding := d.client.link.outstanding - {id}));
    first := Overtaken(less, id);
    OvertakenUpload(d.client, id);
    OvertakenIdle(less, id);
    OwedWithout(d.client.link, first.client.link, begun, id);
    WaitingIsLinked(d.client, id);
  }

  lemma {:induction false} WaitingIsLinked(c: Client, id: nat)
    requires Sound(c) && id in c.link.outstanding
    ensures c.link.session
  {
  }

  lemma {:induction false} HonestReply(c: Client, st: Store, id: nat, response: Response)
    requires id in c.link.outstanding ==> TrueAnswer(st, id, c.link.outstanding[id], response)
    ensures Honest(c, Reply(id, response))
  {
  }

  // ---- an upload no longer there ----

  lemma {:induction false} GoneAnswer(d: Driver, id: nat, response: Response, env: Env, luck: Luck, ch: Chosen, st: Store)
    requires Sound(d.client) && id in d.client.link.outstanding && Well(d, ch, st) && OwnersSound(ch, st)
    requires TrueAnswer(st, id, d.client.link.outstanding[id], response) && Moving(d.client.link.outstanding[id], response)
    requires Overtaken(d.client.(link := d.client.link.(outstanding := d.client.link.outstanding - {id})), id).client.upload.None?
    ensures Settled(Owed(d.client.link, ch.begun), Feed(d, [Reply(id, response)], FEED_ROUNDS, env, luck), ch, st, None)
    ensures Lively(d.client.upload, Feed(d, [Reply(id, response)], FEED_ROUNDS, env, luck))
  {
    hide Busy, Owed, LinkSound, Told, Well, Sound, OwnersSound, TrueAnswer, Step, Overtaken;
    var asked := d.client.link.outstanding[id];
    var first := TakeUp(d, id, response, env, ch.begun);
    var did := Step(d.client, Reply(id, response), env);
    GoneDid(first.client, asked, response, first.effects, env);
    FewerWithout(Busy(d.client.link), id);
    HonestReply(d.client, st, id, response);
    StillFeed(d, Reply(id, response), env, luck, ch, st);
    SettledSame(Owed(d.client.link, ch.begun), Feed(d, [Reply(id, response)], FEED_ROUNDS, env, luck), ch, st, None);
  }

  lemma {:induction false} GoneDid(c: Client, asked: Request, response: Response, earlier: seq<Effect>, env: Env)
    requires c.upload.None? && Moving(asked, response) && Told(c, earlier)
    ensures var did := OnAnswer(c, asked, response, earlier, env);
            did.client == c && NoNeed(did.effects)
  {
    NoNeedOne(Ignored);
    NoNeedBoth(earlier, [Show(Ignored)]);
  }

  // ---- a place made ----

  /** The upload's own offer is answered: what it becomes, and what is asked or wanted next. */
  ghost predicate Opened(d: Driver, id: nat, response: Response, c: Client, did: Did, ch: Chosen, st: Store)
    requires response.FileOffer? && d.client.upload.Some?
  {
    var u, paths := d.client.upload.value, PathsNow(d);
    var v := Begun(u, response.fileId, response.chunkTotal, response.chunkBytes);
    u.at < |paths| && !u.stalled && Owed(c.link, ch.begun) == map[] && ch.begun <= c.link.nextId &&
    FetchEvents(did.effects) == [] && u.at == |u.ids| &&
    (var more := ch.(owner := ch.owner[response.fileId := paths[u.at]]);
     Static(v, paths, more, st) && Owns(more, st, response.fileId) &&
     if response.chunkTotal == 0 then AsksNext(c, v.(at := v.at + 1), did) && AllWhole(v, st)
     else WantsPiece(c, v, response.fileId, 0, did) && Putting(v, st))
  }

  /** An offer on order of the message being sent is of the file it stands at. */
  lemma {:induction false} OfferIsDue(d: Driver, id: nat, response: Response, ch: Chosen, st: Store)
    requires Well(d, ch, st) && id in d.client.link.outstanding && ch.begun <= id && d.client.upload.Some?
    requires response.FileOffer? && TrueAnswer(st, id, d.client.link.outstanding[id], response)
    ensures var u, asked := d.client.upload.value, d.client.link.outstanding[id];
            Static(u, PathsNow(d), ch, st) && Offering(u, st) && !u.stalled && u.at == |u.ids| < |PathsNow(d)| &&
            asked == Offer(u.chat, u.items[u.at]) && Owed(d.client.link, ch.begun) - {id} == map[] &&
            response.fileId in st.made && st.made[response.fileId] == Made(id, asked, response.chunkTotal, response.chunkBytes)
  {
    hide Whole, HasBelow, EarlierWhole, AllWhole, Slice, InKind;
    assert Owed(d.client.link, ch.begun)[id] == d.client.link.outstanding[id];
    OnlyOne(Owed(d.client.link, ch.begun), id);
  }

  lemma {:induction false} OfferIsOpened(d: Driver, id: nat, response: Response, env: Env, ch: Chosen, st: Store) returns (c: Client)
    requires Sound(d.client) && id in d.client.link.outstanding && Well(d, ch, st) && StoreSound(st)
    requires response.FileOffer? && TrueAnswer(st, id, d.client.link.outstanding[id], response) && response.fileId !in ch.owner
    requires ch.begun <= id && ch.begun <= d.client.link.nextId
    requires Overtaken(d.client.(link := d.client.link.(outstanding := d.client.link.outstanding - {id})), id).client.upload == d.client.upload
    requires d.client.upload.Some?
    ensures Opened(d, id, response, c, Step(d.client, Reply(id, response), env), ch, st)
  {
    hide LinkSound, Told, Sound, Step, Overtaken, Static, Putting, AllWhole, Upload.Piece, OnAnswer, AsksNext, WantsPiece, Owed, Busy,
         Well, TrueAnswer, Owns, Whole, StoreSound;
    var u := d.client.upload.value;
    var asked := d.client.link.outstanding[id];
    var first := TakeUp(d, id, response, env, ch.begun);
    c := first.client;
    OfferIsDue(d, id, response, ch, st);
    UntoldFirst(first);
    OfferedIdle(c, response.fileId, response.chunkTotal, response.chunkBytes, first.effects, env);
    OfferedMoves(c, response.fileId, response.chunkTotal, response.chunkBytes, first.effects, env);
    OfferedIs(c, asked, response, first.effects, env);
    BegunGoes(u, id, asked, response.fileId, response.chunkTotal, response.chunkBytes, PathsNow(d), ch, st);
  }

  lemma {:induction false} OfferedFeed(d: Driver, id: nat, response: Response, env: Env, luck: Luck, ch: Chosen, st: Store)
    requires Sound(d.client) && id in d.client.link.outstanding && Well(d, ch, st) && OwnersSound(ch, st) && StoreSound(st)
    requires response.FileOffer? && TrueAnswer(st, id, d.client.link.outstanding[id], response) && response.fileId !in ch.owner
    requires ch.begun <= id && ch.begun <= d.client.link.nextId
    requires Overtaken(d.client.(link := d.client.link.(outstanding := d.client.link.outstanding - {id})), id).client.upload == d.client.upload
    requires d.client.upload.Some? && Steady(ch.src, d.disk)
    ensures Settled(Owed(d.client.link, ch.begun), Feed(d, [Reply(id, response)], FEED_ROUNDS, env, luck), ch, st, Some(response.fileId))
    ensures Lively(d.client.upload, Feed(d, [Reply(id, response)], FEED_ROUNDS, env, luck))
  {
    hide LinkSound, Sound, OwnersSound, Step, Overtaken, Whole, HasBelow, Matches, EarlierWhole, Upload.Piece, Steady, Busy, Owed,
         TrueAnswer, Going;
    var u, paths := d.client.upload.value, PathsNow(d);
    var fid := response.fileId;
    var did := Step(d.client, Reply(id, response), env);
    var c := OfferIsOpened(d, id, response, env, ch, st);
    HonestReply(d.client, st, id, response);
    var v, more := Begun(u, fid, response.chunkTotal, response.chunkBytes), ch.(owner := ch.owner[fid := paths[u.at]]);
    MoreOwners(ch, fid, paths[u.at], st);
    var e := Feed(d, [Reply(id, response)], FEED_ROUNDS, env, luck);
    if response.chunkTotal == 0 {
      AsksOwed(c, v.(at := v.at + 1), did, ch.begun);
      OnwardGoes(v, c.link.nextId, Owed(did.client.link, ch.begun), paths, more, st);
      OnwardFeed(d, Reply(id, response), c, did, v.(at := v.at + 1), env, luck, more, st);
    } else {
      PieceFeed(d, Reply(id, response), c, did, v, fid, env, luck, more, st);
    }
    AdoptedPath(e, v, paths, more, st);
    SettledMore(Owed(d.client.link, ch.begun), e, ch, fid, paths[u.at], st);
  }

  lemma {:induction false} OfferedIs(c: Client, asked: Request, response: Response, earlier: seq<Effect>, env: Env)
    requires response.FileOffer?
    ensures OnAnswer(c, asked, response, earlier, env) ==
            OnOffered(c, response.fileId, response.chunkTotal, response.chunkBytes, earlier, env)
  {
    hide OnOffered;
  }

  lemma {:induction false} UntoldFirst(first: Did)
    requires Told(first.client, first.effects)
    ensures first.client.upload.Some? ==> SendEvents(first.effects) == []
  {
  }

  /** The newest id stands for the path it was taken for. */
  lemma {:induction false} AdoptedPath(e: Driver, v: Upload, paths: seq<Path>, ch: Chosen, st: Store)
    requires Well(e, ch, st) && v.ids != []
    requires e.client.upload.Some? ==> e.client.upload.value.ids == v.ids
    requires |v.ids| <= |paths| && v.ids[|v.ids| - 1] in ch.owner && ch.owner[v.ids[|v.ids| - 1]] == paths[|v.ids| - 1]
    ensures e.client.upload.Some? ==> |v.ids| <= |PathsNow(e)| && PathsNow(e)[|v.ids| - 1] == paths[|v.ids| - 1]
  {
    hide Paced, EarlierWhole, Matches;
  }

  // ---- a chunk put away ----

  ghost predicate PutOn(u: Upload, c: Client, did: Did, paths: seq<Path>, fileId: Id, ch: Chosen, st: Store) {
    var v := u.(next := u.next + 1);
    Static(v, paths, ch, st) && !u.stalled && Owed(c.link, ch.begun) == map[] && ch.begun <= c.link.nextId &&
    FetchEvents(did.effects) == [] && u.at + 1 == |u.ids| &&
    if v.next < v.total then WantsPiece(c, v, fileId, v.next, did) && Putting(v, st)
    else AsksNext(c, v.(at := v.at + 1), did) && AllWhole(v, st)
  }

  lemma {:induction false} StoredIs(c: Client, asked: Request, earlier: seq<Effect>, env: Env)
    requires asked.FilePut?
    ensures OnAnswer(c, asked, Response.Done, earlier, env) == OnStored(c, asked.fileId, earlier, env)
  {
    hide OnStored;
  }

  /** A chunk on order of the message being sent is the one it stands at. */
  lemma {:induction false} PutIsDue(d: Driver, id: nat, ch: Chosen, st: Store)
    requires Well(d, ch, st) && id in d.client.link.outstanding && ch.begun <= id && d.client.upload.Some?
    requires var asked := d.client.link.outstanding[id]; asked.FilePut? && TrueAnswer(st, id, asked, Response.Done)
    ensures var u, asked := d.client.upload.value, d.client.link.outstanding[id];
            Static(u, PathsNow(d), ch, st) && Putting(u, st) && !u.stalled && u.at + 1 == |u.ids| && asked.fileId == u.ids[u.at] &&
            Has(st, asked.fileId, u.next) && Owed(d.client.link, ch.begun) - {id} == map[]
  {
    hide Whole, HasBelow, EarlierWhole, Matches, Taken, Slice, Has;
    assert Owed(d.client.link, ch.begun)[id] == d.client.link.outstanding[id];
    OnlyOne(Owed(d.client.link, ch.begun), id);
  }

  lemma {:induction false} PutIsOn(d: Driver, id: nat, env: Env, ch: Chosen, st: Store) returns (c: Client)
    requires Sound(d.client) && id in d.client.link.outstanding && Well(d, ch, st)
    requires var asked := d.client.link.outstanding[id]; asked.FilePut? && TrueAnswer(st, id, asked, Response.Done)
    requires ch.begun <= id && ch.begun <= d.client.link.nextId
    requires Overtaken(d.client.(link := d.client.link.(outstanding := d.client.link.outstanding - {id})), id).client.upload == d.client.upload
    requires d.client.upload.Some?
    ensures PutOn(d.client.upload.value, c, Step(d.client, Reply(id, Response.Done), env), PathsNow(d), d.client.link.outstanding[id].fileId, ch, st)
  {
    hide LinkSound, Told, Sound, Step, Overtaken, Static, Putting, AllWhole, Upload.Piece, OnAnswer, AsksNext, WantsPiece, Slice, Owed, Busy,
         Well, Has, TrueAnswer;
    var u := d.client.upload.value;
    var asked := d.client.link.outstanding[id];
    var first := TakeUp(d, id, Response.Done, env, ch.begun);
    c := first.client;
    PutIsDue(d, id, ch, st);
    UntoldFirst(first);
    StoredIdle(c, asked.fileId, first.effects, env);
    StoredMoves(c, asked.fileId, first.effects, env);
    StoredIs(c, asked, first.effects, env);
    PutGoes(u, asked.fileId, PathsNow(d), ch, st);
  }

  lemma {:induction false} StoredFeed(d: Driver, id: nat, env: Env, luck: Luck, ch: Chosen, st: Store)
    requires Sound(d.client) && id in d.client.link.outstanding && Well(d, ch, st) && OwnersSound(ch, st) && StoreSound(st)
    requires var asked := d.client.link.outstanding[id]; asked.FilePut? && TrueAnswer(st, id, asked, Response.Done)
    requires ch.begun <= id && ch.begun <= d.client.link.nextId
    requires Overtaken(d.client.(link := d.client.link.(outstanding := d.client.link.outstanding - {id})), id).client.upload == d.client.upload
    requires d.client.upload.Some? && Steady(ch.src, d.disk)
    ensures Settled(Owed(d.client.link, ch.begun), Feed(d, [Reply(id, Response.Done)], FEED_ROUNDS, env, luck), ch, st, None)
    ensures Lively(d.client.upload, Feed(d, [Reply(id, Response.Done)], FEED_ROUNDS, env, luck))
  {
    hide LinkSound, Sound, OwnersSound, Step, Overtaken, Whole, HasBelow, Matches, EarlierWhole, Upload.Piece, Steady, Busy, Owed,
         TrueAnswer, Going, Settled, Taken;
    var u := d.client.upload.value;
    var did := Step(d.client, Reply(id, Response.Done), env);
    var fid := d.client.link.outstanding[id].fileId;
    var c := PutIsOn(d, id, env, ch, st);
    HonestReply(d.client, st, id, Response.Done);
    var v := u.(next := u.next + 1);
    if v.next < v.total {
      PieceFeed(d, Reply(id, Response.Done), c, did, v, fid, env, luck, ch, st);
      FewerNone(Owed(d.client.link, ch.begun));
    } else {
      AsksOwed(c, v.(at := v.at + 1), did, ch.begun);
      OnwardGoes(v, c.link.nextId, Owed(did.client.link, ch.begun), PathsNow(d), ch, st);
      OnwardFeed(d, Reply(id, Response.Done), c, did, v.(at := v.at + 1), env, luck, ch, st);
    }
    SettledSame(Owed(d.client.link, ch.begun), Feed(d, [Reply(id, Response.Done)], FEED_ROUNDS, env, luck), ch, st, None);
  }

  // ---- what is staged ----

  lemma {:induction false} StagedIs(c: Client, asked: Request, files: seq<StagedFile>, earlier: seq<Effect>, env: Env)
    ensures var did := OnAnswer(c, asked, Response.Staged(files), earlier, env);
            did.client == OnStaged(c, files, env).client && did.effects == earlier + OnStaged(c, files, env).effects
  {
    hide OnStaged;
  }

  /** A waiting upload is told what is staged. */
  ghost predicate TakenUp(w: Upload, c: Client, did: Did, files: seq<StagedFile>, begun: nat) {
    var u := w.(stalled := false);
    var at := FirstUnfinished(u, files, 0);
    var staged := if at < |u.ids| then FindStaged(files, u.ids[at]) else None;
    FetchEvents(did.effects) == [] && Owed(c.link, begun) == map[] && begun <= c.link.nextId &&
    if at >= |u.items| then AsksNext(c, u.(at := |u.items|), did)
    else if staged.Some? && staged.value.missing != [] then
      WantsPiece(c, u.(at := at, next := staged.value.missing[0], total := staged.value.chunkTotal), u.ids[at], staged.value.missing[0], did)
    else AsksNext(c, u.(at := at, ids := if at < |u.ids| then u.ids[..at] else u.ids), did)
  }

  lemma {:induction false} AfterUntold(c: Client, u: Upload, fileId: Id, index: nat, earlier: seq<Effect>, did: Did)
    requires SendEvents(earlier) == []
    ensures AsksNext(c, u, did) ==> AsksNext(c, u, Did(did.client, earlier + did.effects))
    ensures WantsPiece(c, u, fileId, index, did) ==> WantsPiece(c, u, fileId, index, Did(did.client, earlier + did.effects))
  {
    hide Busy, Owed, Upload.Piece;
    SendEventsBoth(earlier, did.effects);
    assert [] + SendEvents(did.effects) == SendEvents(did.effects);
  }

  lemma {:induction false} StagedTakenUp(c: Client, files: seq<StagedFile>, earlier: seq<Effect>, env: Env, begun: nat)
    requires LinkSound(c.link) && c.upload.Some? && c.upload.value.stalled && c.upload.value.items != []
    requires Owed(c.link, begun) == map[] && begun <= c.link.nextId
    requires SendEvents(earlier) == [] && FetchEvents(earlier) == []
    ensures var did := OnStaged(c, files, env); TakenUp(c.upload.value, c, Did(did.client, earlier + did.effects), files, begun)
  {
    hide LinkSound, OnStaged, Busy, Owed, FirstUnfinished, FindStaged, AsksNext, WantsPiece;
    var did := OnStaged(c, files, env);
    var u := c.upload.value.(stalled := false);
    var at := FirstUnfinished(u, files, 0);
    var staged := if at < |u.ids| then FindStaged(files, u.ids[at]) else None;
    StagedMoves(c, files, env);
    StagedIdle(c, files, env);
    FetchEventsBoth(earlier, did.effects);
    if at >= |u.items| {
      AfterUntold(c, u.(at := |u.items|), seq(16, _ => 0), 0, earlier, did);
    } else if staged.Some? && staged.value.missing != [] {
      AfterUntold(c, u.(at := at, next := staged.value.missing[0], total := staged.value.chunkTotal), u.ids[at], staged.value.missing[0], earlier, did);
    } else {
      AfterUntold(c, u.(at := at, ids := if at < |u.ids| then u.ids[..at] else u.ids), seq(16, _ => 0), 0, earlier, did);
    }
  }

  lemma {:induction false} StagedStart(d: Driver, id: nat, files: seq<StagedFile>, env: Env, ch: Chosen, st: Store) returns (c: Client)
    requires Sound(d.client) && id in d.client.link.outstanding && Well(d, ch, st)
    requires Overtaken(d.client.(link := d.client.link.(outstanding := d.client.link.outstanding - {id})), id).client.upload == d.client.upload
    requires d.client.upload.Some? && d.client.upload.value.stalled && ch.begun <= d.client.link.nextId
    ensures TakenUp(d.client.upload.value, c, Step(d.client, Reply(id, Response.Staged(files)), env), files, ch.begun)
    ensures Static(d.client.upload.value.(stalled := false), PathsNow(d), ch, st)
  {
    hide LinkSound, Told, Sound, Step, Overtaken, OnAnswer, Busy, Owed, EarlierWhole, Taken, Expected, TakenUp;
    var first := TakeUp(d, id, Response.Staged(files), env, ch.begun);
    c := first.client;
    UntoldFirst(first);
    assert Owed(c.link, ch.begun) == map[];
    StagedTakenUp(c, files, first.effects, env, ch.begun);
    StagedIs(c, d.client.link.outstanding[id], files, first.effects, env);
    StalledStatic(d.client.upload.value, PathsNow(d), ch, st);
  }

  lemma {:induction false} StalledStatic(u: Upload, paths: seq<Path>, ch: Chosen, st: Store)
    requires Static(u, paths, ch, st)
    ensures Static(u.(stalled := false), paths, ch, st)
  {
  }

  lemma {:induction false} StagedFeed(d: Driver, id: nat, files: seq<StagedFile>, env: Env, luck: Luck, ch: Chosen, st: Store)
    requires Sound(d.client) && id in d.client.link.outstanding && Well(d, ch, st) && OwnersSound(ch, st) && StoreSound(st)
    requires TrueAnswer(st, id, d.client.link.outstanding[id], Response.Staged(files))
    requires Overtaken(d.client.(link := d.client.link.(outstanding := d.client.link.outstanding - {id})), id).client.upload == d.client.upload
    requires d.client.upload.Some? && d.client.upload.value.stalled && Steady(ch.src, d.disk) && ch.begun <= d.client.link.nextId
    requires ListsEarlier(d.client.upload.value, files, st)
    ensures Settled(Owed(d.client.link, ch.begun), Feed(d, [Reply(id, Response.Staged(files))], FEED_ROUNDS, env, luck), ch, st, None)
    ensures Lively(d.client.upload, Feed(d, [Reply(id, Response.Staged(files))], FEED_ROUNDS, env, luck))
  {
    hide LinkSound, Sound, OwnersSound, Step, Overtaken, Static, Steady, Busy, Owed, TrueStaged, Going, Settled, FirstUnfinished,
         FindStaged, AsksNext, WantsPiece, Putting;
    var u, paths := d.client.upload.value.(stalled := false), PathsNow(d);
    var did := Step(d.client, Reply(id, Response.Staged(files)), env);
    var c := StagedStart(d, id, files, env, ch, st);
    HonestReply(d.client, st, id, Response.Staged(files));
    SameLists(d.client.upload.value, files, st);
    var at := FirstUnfinished(u, files, 0);
    var staged := if at < |u.ids| then FindStaged(files, u.ids[at]) else None;
    if at >= |u.items| {
      AsksOwed(c, u.(at := |u.items|), did, ch.begun);
      AllThereGoes(u, files, c.link.nextId, Owed(did.client.link, ch.begun), paths, ch, st);
      OnwardFeed(d, Reply(id, Response.Staged(files)), c, did, u.(at := |u.items|), env, luck, ch, st);
    } else if staged.Some? && staged.value.missing != [] {
      var hole := u.(at := at, next := staged.value.missing[0], total := staged.value.chunkTotal);
      HoleGoes(u, files, paths, ch, st);
      WantsSays(c, hole, u.ids[at], hole.next, did);
      PieceFeed(d, Reply(id, Response.Staged(files)), c, did, hole, u.ids[at], env, luck, ch, st);
      FewerNone(Owed(d.client.link, ch.begun));
    } else {
      var again := u.(at := at, ids := if at < |u.ids| then u.ids[..at] else u.ids);
      UnfinishedTells(u, files, 0, st);
      AsksOwed(c, again, did, ch.begun);
      AgainGoes(u, files, c.link.nextId, Owed(did.client.link, ch.begun), paths, ch, st);
      OnwardFeed(d, Reply(id, Response.Staged(files)), c, did, again, env, luck, ch, st);
    }
    SettledSame(Owed(d.client.link, ch.begun), Feed(d, [Reply(id, Response.Staged(files))], FEED_ROUNDS, env, luck), ch, st, None);
  }

  lemma {:induction false} SameLists(u: Upload, files: seq<StagedFile>, st: Store)
    requires ListsEarlier(u, files, st)
    ensures ListsEarlier(u.(stalled := false), files, st)
  {
  }

  lemma {:induction false} AsksOwed(c: Client, u: Upload, did: Did, begun: nat)
    requires AsksNext(c, u, did) && Owed(c.link, begun) == map[] && begun <= c.link.nextId
    ensures Owed(did.client.link, begun) == map[] || Owed(did.client.link, begun) == map[c.link.nextId := NextAsk(u)]
  {
    hide Busy, Owed, NextAsk;
    if Busy(did.client.link) == Busy(c.link) {
      OwedSame(c.link, did.client.link, begun);
    } else {
      OwedMore(c.link, did.client.link, begun, c.link.nextId, NextAsk(u));
    }
  }

  lemma {:induction false} WantsSays(c: Client, u: Upload, fileId: Id, index: nat, did: Did)
    requires WantsPiece(c, u, fileId, index, did)
    ensures did.client == c.(upload := Some(u)) &&
            SendEvents(did.effects) == [NeedChunk(fileId, u.at, index, u.Piece(index).0, u.Piece(index).1)]
  {
  }

  // ---- any answer ----

  /** Whatever a true answer is to, the upload and what it sends stay good. */
  lemma {:induction false} AnswerFeed(d: Driver, id: nat, response: Response, env: Env, luck: Luck, ch: Chosen, st: Store)
    requires Sound(d.client) && Well(d, ch, st) && OwnersSound(ch, st) && StoreSound(st) && Steady(ch.src, d.disk)
    requires id in d.client.link.outstanding ==> TrueAnswer(st, id, d.client.link.outstanding[id], response)
    requires id in d.client.link.outstanding && response.FileOffer? ==> response.fileId !in ch.owner
    requires ch.begun <= d.client.link.nextId
    requires id in d.client.link.outstanding && id < ch.begun ==>
               !response.FileOffer? && !(response.Done? && d.client.link.outstanding[id].FilePut?)
    requires id in d.client.link.outstanding && response.Staged? && d.client.upload.Some? && d.client.upload.value.stalled ==>
               ListsEarlier(d.client.upload.value, response.files, st)
    ensures Settled(Owed(d.client.link, ch.begun), Feed(d, [Reply(id, response)], FEED_ROUNDS, env, luck), ch, st,
                    if response.FileOffer? && id in d.client.link.outstanding then Some(response.fileId) else None)
    ensures Lively(d.client.upload, Feed(d, [Reply(id, response)], FEED_ROUNDS, env, luck))
  {
    hide LinkSound, Sound, OwnersSound, Step, Well, Steady, Busy, Owed, Settled, StoreSound, Overtaken, ListsEarlier;
    HonestReply(d.client, st, id, response);
    if id !in d.client.link.outstanding || !Moving(d.client.link.outstanding[id], response) ||
       (response.Staged? && d.client.upload.Some? && !d.client.upload.value.stalled) {
      PlainAnswer(d, id, response, env, luck, ch, st);
    } else {
      var first := TakeUp(d, id, response, env, ch.begun);
      if first.client.upload.None? {
        GoneAnswer(d, id, response, env, luck, ch, st);
        if response.FileOffer? { SettledAny(Owed(d.client.link, ch.begun), Feed(d, [Reply(id, response)], FEED_ROUNDS, env, luck), ch, st, response.fileId); }
      } else if response.FileOffer? {
        OfferedFeed(d, id, response, env, luck, ch, st);
      } else if response.Staged? {
        StagedFeed(d, id, response.files, env, luck, ch, st);
      } else {
        StoredFeed(d, id, env, luck, ch, st);
      }
    }
  }

  lemma {:induction false} SettledAny(before: map<nat, Request>, e: Driver, ch: Chosen, st: Store, fid: Id)
    requires Settled(before, e, ch, st, None)
    ensures Settled(before, e, ch, st, Some(fid))
  {
  }

  lemma {:induction false} PlainAnswer(d: Driver, id: nat, response: Response, env: Env, luck: Luck, ch: Chosen, st: Store)
    requires Sound(d.client) && Well(d, ch, st) && OwnersSound(ch, st) && Honest(d.client, Reply(id, response))
    requires id !in d.client.link.outstanding || !Moving(d.client.link.outstanding[id], response) ||
             (response.Staged? && d.client.upload.Some? && !d.client.upload.value.stalled)
    ensures Settled(Owed(d.client.link, ch.begun), Feed(d, [Reply(id, response)], FEED_ROUNDS, env, luck), ch, st, None)
    ensures Lively(d.client.upload, Feed(d, [Reply(id, response)], FEED_ROUNDS, env, luck))
  {
    hide LinkSound, Sound, OwnersSound, Step, Well, Busy, Owed, Settled, Overtaken, NotMoved;
    if id in d.client.link.outstanding && Moving(d.client.link.outstanding[id], response) {
      LiveStaged(d, id, response.files, env);
    } else {
      StepOther(d.client, Reply(id, response), env);
      StepKeepsUpload(d.client, Reply(id, response), env);
    }
    StillFeed(d, Reply(id, response), env, luck, ch, st);
    SettledSame(Owed(d.client.link, ch.begun), Feed(d, [Reply(id, response)], FEED_ROUNDS, env, luck), ch, st, None);
  }

  /** A list of what is staged means nothing to an upload that is not waiting for one. */
  lemma {:induction false} LiveStaged(d: Driver, id: nat, files: seq<StagedFile>, env: Env)
    requires Sound(d.client) && id in d.client.link.outstanding && d.client.upload.Some? && !d.client.upload.value.stalled
    ensures NotMoved(d.client, Step(d.client, Reply(id, Response.Staged(files)), env))
    ensures var did := Step(d.client, Reply(id, Response.Staged(files)), env);
            did.client.upload == d.client.upload || did.client.upload.None?
  {
    hide LinkSound, Sound, Step, Busy, Owed, Overtaken, OnAnswer, Told, NoNeed, Untold, Fewer;
    var first := TakeUp(d, id, Response.Staged(files), env, 0);
    var c := first.client;
    StagedIs(c, d.client.link.outstanding[id], files, first.effects, env);
    assert OnStaged(c, files, env) == Did(c, [Show(Ignored)]);
    FewerWithout(Busy(d.client.link), id);
    IgnoredAfter(c, first.effects);
  }

  lemma {:induction false} IgnoredAfter(c: Client, earlier: seq<Effect>)
    requires Told(c, earlier)
    ensures Told(c, earlier + [Show(Ignored)]) && NoNeed(earlier + [Show(Ignored)])
  {
    OneMoreQuiet(earlier, Ignored);
  }
}
