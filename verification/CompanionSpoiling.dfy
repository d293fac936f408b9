/** How an upload that has lost its place is driven on to a message that names the wrong files: answer by answer,
    with everything the driver does about each. */
module CompanionSpoiling {
  import opened Bytes
  import opened CompanionProtocol
  import opened CompanionProtocolLaws
  import opened CompanionDriver
  import opened CompanionDownload
  import opened CompanionFeed
  import opened CompanionPhone
  import opened CompanionUpload
  import opened CompanionUploadState
  import opened CompanionUploadFeed
  import opened CompanionUploadAnswers
  import opened CompanionUploadRuns
  import opened CompanionRuns
  import CC = CompanionCache

  /** A network that carries everything, a disk that does all it is asked, and chunks no file exceeds. */
  const AGREEABLE := Env(true, true, (_, _) => true)
  const LUCKY := Luck(true, true, [], true, true, true, true)
  const WIDE: u64 := U64 - 1

  // ---- the terminal's side of one answer ----

  /** An open link with room for one request more. */
  predicate Roomy(l: Link) {
    l.Live() && !l.revoked && |l.outstanding| < MAX_OUTSTANDING
  }

  predicate KeepsOthers(l: Link, m: Link, id: nat) {
    forall other | other in l.outstanding && other != id && OfUpload(l.outstanding[other]) ::
      other in m.outstanding && m.outstanding[other] == l.outstanding[other]
  }

  predicate TextFits(r: Request) {
    OfUpload(r) && (r.FileSend? ==> |r.text| <= MAX_TEXT_BYTES)
  }

  lemma {:induction false} AskGoes(l: Link, cache: CC.CacheState, r: Request)
    requires Roomy(l) && TextFits(r)
    ensures OnAsk(l, cache, r, AGREEABLE) == Asking(AskedFor(l, r), [Effect.Send(Asked(l.nextId, r))])
  {
    assert CachedAnswer(cache, r) == [];
    assert [] + [Effect.Send(Asked(l.nextId, r))] == [Effect.Send(Asked(l.nextId, r))];
  }

  lemma {:induction false} SendTellsNothing(o: Outgoing)
    ensures AnySend([Effect.Send(o)]) && SendEvents([Effect.Send(o)]) == [] && FetchEvents([Effect.Send(o)]) == []
  {
    assert [Effect.Send(o)][0].Send?;
    assert [Effect.Send(o)][1..] == [];
  }

  lemma {:induction false} OneFewer(m: map<nat, Request>, id: nat)
    ensures |m - {id}| == if id in m then |m| - 1 else |m|
  {
    assert (m - {id}).Keys == m.Keys - {id};
  }

  lemma {:induction false} LinkLeavesRoom(l: Link, id: nat)
    requires LinkSound(l) && id in l.outstanding
    ensures var less := l.(outstanding := l.outstanding - {id}); Roomy(less) && KeepsOthers(l, less, id)
    ensures l.hello.Some? ==>
              var later := l.(hello := None, outstanding := l.outstanding - {id} - {l.hello.value}, phoneWire := Some(0));
              Roomy(later) && KeepsOthers(l, later, id)
  {
    OneFewer(l.outstanding, id);
    if l.hello.Some? { OneFewer(l.outstanding - {id}, l.hello.value); }
  }

  /** The answered request no longer waits; every other request of an upload does. */
  lemma {:induction false} AnsweredLeavesRoom(c: Client, id: nat)
    requires Sound(c) && id in c.link.outstanding && c.upload.Some? && !c.upload.value.stalled
    ensures var first := Overtaken(c.(link := c.link.(outstanding := c.link.outstanding - {id})), id);
            first.client == c.(link := first.client.link) && Roomy(first.client.link) && first.client.link.nextId == c.link.nextId &&
            KeepsOthers(c.link, first.client.link, id) && SendEvents(first.effects) == [] && FetchEvents(first.effects) == []
  {
    hide DownloadSound, UploadSound, NothingLeft, LinkSound, KeepsOthers, Roomy;
    LinkLeavesRoom(c.link, id);
    var wire := [Show(Wire(None))];
    assert SendEvents(wire) == [] && FetchEvents(wire) == [];
    assert wire + [] == wire;
  }

  /** A step that asks for what comes next: the driver has nothing to add. */
  predicate AskedNext(c: Client, m: Link, v: Upload, did: Did) {
    did.client == c.(link := AskedFor(m, NextAsk(v)), upload := Some(v)) && SendEvents(did.effects) == [] && FetchEvents(did.effects) == []
  }

  /** A step that wants a piece. */
  predicate Wanted(c: Client, m: Link, v: Upload, fileId: Id, did: Did) {
    did.client == c.(link := m, upload := Some(v)) && FetchEvents(did.effects) == [] &&
    SendEvents(did.effects) == [NeedChunk(fileId, v.at, 0, v.Piece(0).0, v.Piece(0).1)]
  }

  lemma {:induction false} AdvanceGoes(c: Client, earlier: seq<Effect>)
    requires Roomy(c.link) && c.upload.Some? && |c.upload.value.text| <= MAX_TEXT_BYTES
    requires SendEvents(earlier) == [] && FetchEvents(earlier) == []
    ensures var did, v := AdvanceUpload(c, AGREEABLE), c.upload.value.(at := c.upload.value.at + 1);
            AskedNext(c, c.link, v, Did(did.client, earlier + did.effects))
  {
    hide OnAsk;
    var v := c.upload.value.(at := c.upload.value.at + 1);
    AskGoes(c.link, c.cache, NextAsk(v));
    var sends := [Effect.Send(Asked(c.link.nextId, NextAsk(v)))];
    SendTellsNothing(Asked(c.link.nextId, NextAsk(v)));
    SendEventsBoth(earlier, sends);
    FetchEventsBoth(earlier, sends);
  }

  lemma {:induction false} OfferTaken(c: Client, fileId: Id, total: nat, earlier: seq<Effect>)
    requires Roomy(c.link) && c.upload.Some? && |c.upload.value.text| <= MAX_TEXT_BYTES && total <= 1
    requires SendEvents(earlier) == [] && FetchEvents(earlier) == []
    ensures var did, v := OnOffered(c, fileId, total, WIDE, earlier, AGREEABLE), Begun(c.upload.value, fileId, total, WIDE);
            if total == 0 then AskedNext(c, c.link, v.(at := v.at + 1), did) else Wanted(c, c.link, v, fileId, did)
  {
    hide AdvanceUpload, Upload.Piece;
    var v := Begun(c.upload.value, fileId, total, WIDE);
    if total == 0 {
      AdvanceGoes(c.(upload := Some(v)), earlier);
    } else {
      var wants := [Show(NeedChunk(fileId, v.at, 0, v.Piece(0).0, v.Piece(0).1))];
      assert SendEvents(wants) == [wants[0].event] && FetchEvents(wants) == [];
      SendEventsBoth(earlier, wants);
      FetchEventsBoth(earlier, wants);
    }
  }

  lemma {:induction false} PutTaken(c: Client, fileId: Id, earlier: seq<Effect>)
    requires Roomy(c.link) && c.upload.Some? && |c.upload.value.text| <= MAX_TEXT_BYTES && c.upload.value.next + 1 >= c.upload.value.total
    requires SendEvents(earlier) == [] && FetchEvents(earlier) == []
    ensures var v := c.upload.value.(next := c.upload.value.next + 1, at := c.upload.value.at + 1);
            AskedNext(c, c.link, v, OnStored(c, fileId, earlier, AGREEABLE))
  {
    hide AdvanceUpload, Upload.Piece;
    AdvanceGoes(c.(upload := Some(c.upload.value.(next := c.upload.value.next + 1))), earlier);
  }

  // ---- the driver's side ----

  lemma {:induction false} AskedFeed(d: Driver, input: Input, c: Client, m: Link, v: Upload)
    requires Sound(d.client) && Honest(d.client, input) && AskedNext(c, m, v, Step(d.client, input, AGREEABLE))
    ensures Feed(d, [input], FEED_ROUNDS, AGREEABLE, LUCKY) == d.(client := Step(d.client, input, AGREEABLE).client)
  {
    hide Step, Sound, Honest;
    var did := Step(d.client, input, AGREEABLE);
    FeedIsTwoRounds(d, input, FEED_ROUNDS, AGREEABLE, LUCKY);
    ShowNothing(d.(client := did.client), did.effects, LUCKY);
  }

  /** The piece is read and put where the upload is, if it has an id there; the link is asked for no more. */
  lemma {:induction false} WantedFeed(d: Driver, input: Input, c: Client, m: Link, v: Upload, fileId: Id) returns (bytes: seq<Byte>)
    requires Sound(d.client) && Honest(d.client, input) && Wanted(c, m, v, fileId, Step(d.client, input, AGREEABLE))
    requires d.sending.Some? && v.at < |PathsNow(d)| && PathsNow(d)[v.at] in d.disk && !v.stalled && v.next == 0 && Roomy(m)
    ensures var e := Feed(d, [input], FEED_ROUNDS, AGREEABLE, LUCKY);
            e.disk == d.disk && e.sending.Some? && PathsNow(e) == PathsNow(d) &&
            e.client == c.(link := if v.Current().Some? then AskedFor(m, Request.FilePut(v.Current().value, 0, bytes)) else m,
                           upload := Some(v))
  {
    hide Step, Sound, Honest, Upload.Piece, ReadAt;
    var did := Step(d.client, input, AGREEABLE);
    FeedIsTwoRounds(d, input, FEED_ROUNDS, AGREEABLE, LUCKY);
    var need := SendEvents(did.effects)[0];
    ShowNeed(d.(client := did.client), did.effects, need, LUCKY);
    bytes := ReadAt(d.disk[PathsNow(d)[v.at]], need.offset, need.len);
    var one := Round(d, input, AGREEABLE, LUCKY);
    assert one.answers == [PutChunk(0, bytes)];
    PutStep(one.driver.client, m, v, bytes);
    var two := Step(one.driver.client, PutChunk(0, bytes), AGREEABLE);
    ShowNothing(one.driver.(client := two.client), two.effects, LUCKY);
  }

  lemma {:induction false} PutStep(c: Client, m: Link, v: Upload, bytes: seq<Byte>)
    requires c.link == m && Roomy(m) && c.upload == Some(v) && !v.stalled && v.next == 0
    ensures var did := Step(c, PutChunk(0, bytes), AGREEABLE);
            Untold(did.effects) && FetchEvents(did.effects) == [] &&
            did.client == c.(link := if v.Current().Some? then AskedFor(m, Request.FilePut(v.Current().value, 0, bytes)) else m)
  {
    hide OnAsk;
    if v.Current().Some? {
      var r := Request.FilePut(v.Current().value, 0, bytes);
      AskGoes(m, c.cache, r);
      SendTellsNothing(Asked(m.nextId, r));
    } else {
      UntoldOne(Ignored);
      IgnoredAlone();
    }
  }

  // ---- the world's side ----

  /** The record of what was sent is in order. */
  predicate Booked(w: World) {
    Sound(w.d.client) && StoreSound(w.st) && WaitingSound(w) && forall id | id in w.sent :: id < w.d.client.link.nextId
  }

  predicate Fitting(src: map<Path, seq<Byte>>, u: Upload, paths: seq<Path>) {
    |paths| == |u.items| && |u.text| <= MAX_TEXT_BYTES && !u.stalled && forall i | 0 <= i < |paths| :: paths[i] in src
  }

  /** An upload under way, with the paths of its files. */
  predicate Stage(w: World, src: map<Path, seq<Byte>>, u: Upload, paths: seq<Path>) {
    Booked(w) && Steady(src, w.d.disk) && w.d.client.upload == Some(u) && w.d.sending.Some? && PathsNow(w.d) == paths && Fitting(src, u, paths)
  }

  function Answered(w: World, id: nat, response: Response, after: Store): World {
    Next(Next(w, Handled(id, response, after)), Arrives(id, response, AGREEABLE, LUCKY))
  }

  /** What was asked last waits, and is on record with the paths. */
  predicate OnRecord(w: World, id: nat, r: Request, paths: seq<Path>) {
    id in w.d.client.link.outstanding && w.d.client.link.outstanding[id] == r && id in w.sent && w.sent[id] == Past(r, paths)
  }

  lemma {:induction false} BookedAfter(w: World, e: Driver)
    requires Booked(w) && Sound(e.client) && LinkGrew(w.d.client.link, e.client.link)
    ensures Booked(AfterDriver(w, e))
  {
    hide Sound, Adopt;
    LinkOfSound(e.client);
  }

  lemma {:induction false} AskedIsOnRecord(w: World, e: Driver, r: Request, m: Link)
    requires Booked(w) && m.nextId == w.d.client.link.nextId && e.client.link == AskedFor(m, r)
    ensures OnRecord(AfterDriver(w, e), m.nextId, r, PathsNow(e))
  {
    hide Sound, Adopt;
  }

  lemma {:induction false} BookedHandled(w: World, id: nat, response: Response, after: Store)
    requires Booked(w) && id in w.d.client.link.outstanding && Handles(w.st, id, w.d.client.link.outstanding[id], response, after)
    ensures var h := Handled(id, response, after); id in w.sent && Handles(w.st, id, w.sent[id].request, response, after) && Booked(Next(w, h))
    ensures Honest(w.d.client, Reply(id, response))
  {
    hide Sound;
    HandlingIsTrue(w.st, id, w.d.client.link.outstanding[id], response, after);
  }

  /** The answer taken up, with the next request asked. */
  lemma {:induction false} NextAsked(w: World, src: map<Path, seq<Byte>>, paths: seq<Path>, id: nat, response: Response, m: Link, v: Upload)
    requires Booked(w) && Steady(src, w.d.disk) && w.d.sending.Some? && PathsNow(w.d) == paths && Fitting(src, v, paths)
    requires Honest(w.d.client, Reply(id, response)) && AskedNext(w.d.client.(link := m), m, v, Step(w.d.client, Reply(id, response), AGREEABLE))
    requires KeepsOthers(w.d.client.link, m, id) && m.nextId == w.d.client.link.nextId
    ensures var after := Next(w, Arrives(id, response, AGREEABLE, LUCKY));
            Stage(after, src, v, paths) && OnRecord(after, m.nextId, NextAsk(v), paths) &&
            KeepsOthers(w.d.client.link, after.d.client.link, id) && after.st == w.st
  {
    hide Sound, Step, Honest, Adopt, NextAsk, Booked, Fitting, LinkSound, KeepsOthers;
    BookedParts(w);
    AskedFeed(w.d, Reply(id, response), w.d.client.(link := m), m, v);
    FeedGrew(w.d, Reply(id, response), AGREEABLE, LUCKY);
    var e := Feed(w.d, [Reply(id, response)], FEED_ROUNDS, AGREEABLE, LUCKY);
    BookedAfter(w, e);
    AskedIsOnRecord(w, e, NextAsk(v), m);
    OthersStay(w.d.client.link, m, NextAsk(v), id);
  }

  lemma {:induction false} BookedParts(w: World)
    requires Booked(w)
    ensures Sound(w.d.client) && LinkSound(w.d.client.link) && StoreSound(w.st)
  {
  }

  lemma {:induction false} OthersStay(l: Link, m: Link, r: Request, id: nat)
    requires KeepsOthers(l, m, id) && LinkSound(l) && m.nextId == l.nextId
    ensures KeepsOthers(l, AskedFor(m, r), id)
  {
  }

  /** The answer taken up, with a piece wanted and, where the upload has an id, put. */
  lemma {:induction false} PieceAsked(w: World, src: map<Path, seq<Byte>>, paths: seq<Path>, id: nat, response: Response, m: Link, v: Upload, fileId: Id)
    requires Booked(w) && Steady(src, w.d.disk) && w.d.sending.Some? && PathsNow(w.d) == paths && Fitting(src, v, paths)
    requires Honest(w.d.client, Reply(id, response)) && Wanted(w.d.client.(link := m), m, v, fileId, Step(w.d.client, Reply(id, response), AGREEABLE))
    requires KeepsOthers(w.d.client.link, m, id) && Roomy(m) && m.nextId == w.d.client.link.nextId && v.at < |paths| && v.next == 0
    ensures var after := Next(w, Arrives(id, response, AGREEABLE, LUCKY));
            Stage(after, src, v, paths) && KeepsOthers(w.d.client.link, after.d.client.link, id) && after.st == w.st &&
            (v.Current().Some? ==>
               exists bytes :: OnRecord(after, m.nextId, Request.FilePut(v.Current().value, 0, bytes), paths))
  {
    hide Sound, Step, Honest, Adopt, Booked, LinkSound, KeepsOthers, Roomy, Wanted;
    BookedParts(w);
    var bytes := WantedFeed(w.d, Reply(id, response), w.d.client.(link := m), m, v, fileId);
    FeedGrew(w.d, Reply(id, response), AGREEABLE, LUCKY);
    var e := Feed(w.d, [Reply(id, response)], FEED_ROUNDS, AGREEABLE, LUCKY);
    BookedAfter(w, e);
    if v.Current().Some? {
      var r := Request.FilePut(v.Current().value, 0, bytes);
      AskedIsOnRecord(w, e, r, m);
      OthersStay(w.d.client.link, m, r, id);
    }
  }

  // ---- one answer ----

  /** The phone sets a place aside, in chunks that no file exceeds. */
  function Placed(st: Store, id: nat, r: Request, f: Id, total: nat): Store {
    Store(st.made[f := Made(id, r, total, WIDE)], st.have[f := map[]])
  }

  lemma {:induction false} OneChunk(size: u64)
    ensures Count(size, WIDE) == if size == 0 then 0 else 1
  {
  }

  lemma {:induction false} PlacingIsHandling(st: Store, id: nat, r: Request, f: Id, total: nat)
    requires StoreSound(st) && r.FileOffer? && f !in st.made && total == if r.sizeBytes == 0 then 0 else 1
    ensures Handles(st, id, r, Response.FileOffer(f, total, WIDE), Placed(st, id, r, f, total))
  {
    OneChunk(r.sizeBytes);
  }

  lemma {:induction false} OfferAnswer(c: Client, id: nat, f: Id, total: nat)
    requires Sound(c) && id in c.link.outstanding && c.upload.Some? && !c.upload.value.stalled
    requires |c.upload.value.text| <= MAX_TEXT_BYTES && total <= 1
    ensures var m := Overtaken(c.(link := c.link.(outstanding := c.link.outstanding - {id})), id).client.link;
            var did, v := Step(c, Reply(id, Response.FileOffer(f, total, WIDE)), AGREEABLE), Begun(c.upload.value, f, total, WIDE);
            Roomy(m) && m.nextId == c.link.nextId && KeepsOthers(c.link, m, id) &&
            if total == 0 then AskedNext(c.(link := m), m, v.(at := v.at + 1), did) else Wanted(c.(link := m), m, v, f, did)
  {
    hide OnOffered, Overtaken, LinkSound, DownloadSound, NothingLeft, AskedNext, Wanted, KeepsOthers, Roomy;
    var first := Overtaken(c.(link := c.link.(outstanding := c.link.outstanding - {id})), id);
    AnsweredLeavesRoom(c, id);
    OfferTaken(first.client, f, total, first.effects);
    WaitingIsLinked(c, id);
  }

  lemma {:induction false} PutAnswer(c: Client, id: nat)
    requires Sound(c) && id in c.link.outstanding && c.link.outstanding[id].FilePut? && c.upload.Some? && !c.upload.value.stalled
    requires |c.upload.value.text| <= MAX_TEXT_BYTES && c.upload.value.next + 1 >= c.upload.value.total
    ensures var m := Overtaken(c.(link := c.link.(outstanding := c.link.outstanding - {id})), id).client.link;
            var v := c.upload.value.(next := c.upload.value.next + 1, at := c.upload.value.at + 1);
            m.nextId == c.link.nextId && KeepsOthers(c.link, m, id) &&
            AskedNext(c.(link := m), m, v, Step(c, Reply(id, Response.Done), AGREEABLE))
  {
    hide OnStored, Overtaken, LinkSound, DownloadSound, NothingLeft, AskedNext, KeepsOthers, Roomy;
    var first := Overtaken(c.(link := c.link.(outstanding := c.link.outstanding - {id})), id);
    AnsweredLeavesRoom(c, id);
    PutTaken(first.client, c.link.outstanding[id].fileId, first.effects);
    WaitingIsLinked(c, id);
  }

  /** A place for an empty file: on to the next at once. */
  lemma {:induction false} EmptyOffered(w: World, src: map<Path, seq<Byte>>, u: Upload, paths: seq<Path>, id: nat, f: Id)
    requires Stage(w, src, u, paths) && id in w.d.client.link.outstanding && f !in w.st.made
    requires w.d.client.link.outstanding[id].FileOffer? && w.d.client.link.outstanding[id].sizeBytes == 0
    ensures var r, v := w.d.client.link.outstanding[id], Begun(u, f, 0, WIDE).(at := u.at + 1);
            var st := Placed(w.st, id, r, f, 0);
            var after := Answered(w, id, Response.FileOffer(f, 0, WIDE), st);
            Handles(w.st, id, r, Response.FileOffer(f, 0, WIDE), st) && Stage(after, src, v, paths) && after.st == st &&
            OnRecord(after, w.d.client.link.nextId, NextAsk(v), paths) && KeepsOthers(w.d.client.link, after.d.client.link, id)
  {
    hide Sound, StoreSound, WaitingSound, Step, Overtaken, Handles, NextAsk, Booked, Steady, AskedNext, KeepsOthers, Honest;
    BookedParts(w);
    var r := w.d.client.link.outstanding[id];
    var st := Placed(w.st, id, r, f, 0);
    PlacingIsHandling(w.st, id, r, f, 0);
    BookedHandled(w, id, Response.FileOffer(f, 0, WIDE), st);
    OfferAnswer(w.d.client, id, f, 0);
    var m := Overtaken(w.d.client.(link := w.d.client.link.(outstanding := w.d.client.link.outstanding - {id})), id).client.link;
    NextAsked(Next(w, Handled(id, Response.FileOffer(f, 0, WIDE), st)), src, paths, id, Response.FileOffer(f, 0, WIDE), m,
              Begun(u, f, 0, WIDE).(at := u.at + 1));
  }

  /** A place for a file with something in it: a piece is put where the upload stands, if it has an id there. */
  lemma {:induction false} FullOffered(w: World, src: map<Path, seq<Byte>>, u: Upload, paths: seq<Path>, id: nat, f: Id)
    requires Stage(w, src, u, paths) && id in w.d.client.link.outstanding && f !in w.st.made && u.at < |paths|
    requires w.d.client.link.outstanding[id].FileOffer? && w.d.client.link.outstanding[id].sizeBytes > 0
    ensures var r, v := w.d.client.link.outstanding[id], Begun(u, f, 1, WIDE);
            var st := Placed(w.st, id, r, f, 1);
            var after := Answered(w, id, Response.FileOffer(f, 1, WIDE), st);
            Handles(w.st, id, r, Response.FileOffer(f, 1, WIDE), st) && Stage(after, src, v, paths) && after.st == st &&
            KeepsOthers(w.d.client.link, after.d.client.link, id) &&
            (v.Current().Some? ==>
               exists bytes :: OnRecord(after, w.d.client.link.nextId, Request.FilePut(v.Current().value, 0, bytes), paths))
  {
    hide Sound, StoreSound, WaitingSound, Step, Overtaken, Handles, Booked, Steady, Wanted, KeepsOthers, Honest, Roomy;
    BookedParts(w);
    var r := w.d.client.link.outstanding[id];
    var st := Placed(w.st, id, r, f, 1);
    PlacingIsHandling(w.st, id, r, f, 1);
    BookedHandled(w, id, Response.FileOffer(f, 1, WIDE), st);
    OfferAnswer(w.d.client, id, f, 1);
    var m := Overtaken(w.d.client.(link := w.d.client.link.(outstanding := w.d.client.link.outstanding - {id})), id).client.link;
    PieceAsked(Next(w, Handled(id, Response.FileOffer(f, 1, WIDE), st)), src, paths, id, Response.FileOffer(f, 1, WIDE), m,
               Begun(u, f, 1, WIDE), f);
  }

  /** What the phone does with a put it accepts. */
  function Filled(st: Store, r: Request): Store
    requires r.FilePut? && r.fileId in st.have
  {
    st.(have := st.have[r.fileId := PutAway(st.have[r.fileId], r.index, r.bytes)])
  }

  /** A put counted as the last: on to the next file. The answer may have been given before. */
  lemma {:induction false} DoneArrives(w: World, src: map<Path, seq<Byte>>, u: Upload, paths: seq<Path>, id: nat)
    requires Stage(w, src, u, paths) && id in w.d.client.link.outstanding && w.d.client.link.outstanding[id].FilePut?
    requires u.next + 1 >= u.total
    ensures var v, after := u.(next := u.next + 1, at := u.at + 1), Next(w, Arrives(id, Response.Done, AGREEABLE, LUCKY));
            Stage(after, src, v, paths) && after.st == w.st &&
            OnRecord(after, w.d.client.link.nextId, NextAsk(v), paths) && KeepsOthers(w.d.client.link, after.d.client.link, id)
  {
    hide Sound, StoreSound, WaitingSound, Step, Overtaken, NextAsk, Booked, Steady, AskedNext, KeepsOthers;
    BookedParts(w);
    PutAnswer(w.d.client, id);
    var m := Overtaken(w.d.client.(link := w.d.client.link.(outstanding := w.d.client.link.outstanding - {id})), id).client.link;
    NextAsked(w, src, paths, id, Response.Done, m, u.(next := u.next + 1, at := u.at + 1));
  }

  lemma {:induction false} PutStored(w: World, src: map<Path, seq<Byte>>, u: Upload, paths: seq<Path>, id: nat)
    requires Stage(w, src, u, paths) && id in w.d.client.link.outstanding && w.d.client.link.outstanding[id].FilePut?
    requires w.d.client.link.outstanding[id].fileId in w.st.have && u.next + 1 >= u.total
    ensures var r, v := w.d.client.link.outstanding[id], u.(next := u.next + 1, at := u.at + 1);
            var after := Answered(w, id, Response.Done, Filled(w.st, r));
            Handles(w.st, id, r, Response.Done, Filled(w.st, r)) && Stage(after, src, v, paths) && after.st == Filled(w.st, r) &&
            OnRecord(after, w.d.client.link.nextId, NextAsk(v), paths) && KeepsOthers(w.d.client.link, after.d.client.link, id)
  {
    hide Sound, StoreSound, WaitingSound, NextAsk, Booked, Steady, KeepsOthers, Honest;
    BookedParts(w);
    BookedHandled(w, id, Response.Done, Filled(w.st, w.d.client.link.outstanding[id]));
    DoneArrives(Next(w, Handled(id, Response.Done, Filled(w.st, w.d.client.link.outstanding[id]))), src, u, paths, id);
  }
}
