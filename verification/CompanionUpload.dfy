/** What a step can mean to an upload: what is told of it, and which of its requests wait for an answer. */
module CompanionUpload {
  import opened Bytes
  import opened CompanionProtocol
  import opened CompanionProtocolLaws
  import CC = CompanionCache

  predicate AboutSend(e: Event) {
    e.NeedChunk? || e.Sent? || e.SendStopped?
  }

  function SendEvents(effects: seq<Effect>): seq<Event> {
    if effects == [] then []
    else if effects[0].Show? && AboutSend(effects[0].event) then [effects[0].event] + SendEvents(effects[1..])
    else SendEvents(effects[1..])
  }

  predicate NoNeed(effects: seq<Effect>) {
    forall i | 0 <= i < |SendEvents(effects)| :: !SendEvents(effects)[i].NeedChunk?
  }

  lemma {:induction false} SendEventsBoth(a: seq<Effect>, b: seq<Effect>)
    ensures SendEvents(a + b) == SendEvents(a) + SendEvents(b)
  {
    hide AboutSend;
    if a == [] {
      assert a + b == b;
    } else {
      SendEventsBoth(a[1..], b);
      assert (a + b)[0] == a[0] && (a + b)[1..] == a[1..] + b;
    }
  }

  lemma {:induction false} NoNeedBoth(a: seq<Effect>, b: seq<Effect>)
    requires NoNeed(a) && NoNeed(b)
    ensures NoNeed(a + b)
  {
    hide AboutSend;
    SendEventsBoth(a, b);
  }

  lemma {:induction false} NoNeedOne(e: Event)
    requires !e.NeedChunk?
    ensures NoNeed([Show(e)])
  {
  }

  lemma {:induction false} NoNeedNone(effects: seq<Effect>)
    requires SendEvents(effects) == []
    ensures NoNeed(effects)
  {
  }

  predicate Untold(effects: seq<Effect>) {
    SendEvents(effects) == []
  }

  lemma {:induction false} UntoldNone()
    ensures Untold([])
  {
  }

  lemma {:induction false} UntoldOne(e: Event)
    requires !AboutSend(e)
    ensures Untold([Show(e)])
  {
  }

  lemma {:induction false} UntoldBoth(a: seq<Effect>, b: seq<Effect>)
    requires Untold(a) && Untold(b)
    ensures Untold(a + b)
  {
    SendEventsBoth(a, b);
  }

  /** Told of no piece wanted; and of nothing at all while the upload lives. */
  predicate Told(c: Client, effects: seq<Effect>) {
    NoNeed(effects) && (c.upload.Some? ==> Untold(effects))
  }

  lemma {:induction false} UntoldIsTold(c: Client, effects: seq<Effect>)
    requires Untold(effects)
    ensures Told(c, effects)
  {
    NoNeedNone(effects);
  }

  // ---- requests of an upload that wait ----

  predicate OfUpload(r: Request) {
    r.FileOffer? || r.FilePut? || r.FileSend?
  }

  function Busy(l: Link): (busy: map<nat, Request>)
    ensures forall id :: id in busy <==> id in l.outstanding && OfUpload(l.outstanding[id])
    ensures forall id | id in busy :: busy[id] == l.outstanding[id]
  {
    map id | id in l.outstanding && OfUpload(l.outstanding[id]) :: l.outstanding[id]
  }

  ghost predicate Fewer(m: map<nat, Request>, n: map<nat, Request>) {
    forall id | id in m :: id in n && m[id] == n[id]
  }

  lemma {:induction false} CacheTellsNoSend(cache: CC.CacheState, r: Request, more: seq<Effect>)
    requires SendEvents(more) == []
    ensures SendEvents(CachedAnswer(cache, r) + more) == []
  {
    SendEventsBoth(CachedAnswer(cache, r), more);
  }

  lemma {:induction false} AskTellsNoSend(l: Link, cache: CC.CacheState, r: Request, env: Env)
    ensures SendEvents(OnAsk(l, cache, r, env).effects) == []
  {
    hide CachedAnswer;
    var shown := CachedAnswer(cache, r);
    assert shown + [] == shown;
    CacheTellsNoSend(cache, r, []);
    CacheTellsNoSend(cache, r, [Show(NotLinked)]);
    CacheTellsNoSend(cache, r, [Show(Event.Refused)]);
    CacheTellsNoSend(cache, r, [Effect.Send(Asked(l.nextId, r))]);
  }

  function OneMore(busy: map<nat, Request>, id: nat, r: Request): map<nat, Request> {
    if OfUpload(r) then busy[id := r] else busy
  }

  lemma {:induction false} AskBusy(l: Link, cache: CC.CacheState, r: Request, env: Env)
    requires LinkSound(l)
    ensures var a := OnAsk(l, cache, r, env);
            SendEvents(a.effects) == [] && Busy(a.link) == if AnySend(a.effects) then OneMore(Busy(l), l.nextId, r) else Busy(l)
  {
    hide OnAsk, AnySend, SendEvents;
    AskGoesOut(l, cache, r, env);
    AskTellsNoSend(l, cache, r, env);
    if AnySend(OnAsk(l, cache, r, env).effects) {
      assert l.nextId !in l.outstanding;
      assert Busy(AskedFor(l, r)) == OneMore(Busy(l), l.nextId, r);
    }
  }

  // ---- handlers ----

  function NextAsk(u: Upload): Request {
    if u.at < |u.items| then Offer(u.chat, u.items[u.at]) else Request.FileSend(u.ids, u.text)
  }

  /** A client whose upload became `u` and which asked for what comes next, or could not. */
  predicate AsksNext(c: Client, u: Upload, did: Did) {
    did.client.upload == Some(u) && SendEvents(did.effects) == [] &&
    (Busy(did.client.link) == Busy(c.link) || Busy(did.client.link) == Busy(c.link)[c.link.nextId := NextAsk(u)])
  }

  /** A client whose upload became `u` and which wants a piece of its current file. */
  predicate WantsPiece(c: Client, u: Upload, fileId: Id, index: nat, did: Did) {
    did.client == c.(upload := Some(u)) &&
    SendEvents(did.effects) == [NeedChunk(fileId, u.at, index, u.Piece(index).0, u.Piece(index).1)]
  }

  lemma {:induction false} AdvanceAsks(c: Client, env: Env)
    requires LinkSound(c.link) && c.upload.Some?
    ensures AsksNext(c, c.upload.value.(at := c.upload.value.at + 1), AdvanceUpload(c, env))
  {
    hide OnAsk, AnySend, Busy, LinkSound;
    AskBusy(c.link, c.cache, NextAsk(c.upload.value.(at := c.upload.value.at + 1)), env);
  }

  lemma {:induction false} ThenAdvanceAsks(c: Client, earlier: seq<Effect>, env: Env)
    requires LinkSound(c.link) && c.upload.Some? && SendEvents(earlier) == []
    ensures var did := AdvanceUpload(c, env);
            AsksNext(c, c.upload.value.(at := c.upload.value.at + 1), Did(did.client, earlier + did.effects))
  {
    hide AdvanceUpload, Busy, LinkSound;
    AdvanceAsks(c, env);
    SendEventsBoth(earlier, AdvanceUpload(c, env).effects);
  }

  lemma {:induction false} ThenNeeds(earlier: seq<Effect>, e: Event)
    requires SendEvents(earlier) == [] && AboutSend(e)
    ensures SendEvents(earlier + [Show(e)]) == [e]
  {
    SendEventsBoth(earlier, [Show(e)]);
  }

  function Begun(u: Upload, fileId: Id, chunkTotal: nat, chunkBytes: u64): Upload {
    u.(ids := u.ids + [fileId], total := chunkTotal, chunkBytes := chunkBytes, next := 0)
  }

  lemma {:induction false} OfferedMoves(c: Client, fileId: Id, chunkTotal: nat, chunkBytes: u64, earlier: seq<Effect>, env: Env)
    requires LinkSound(c.link) && c.upload.Some? && SendEvents(earlier) == []
    ensures var did, u := OnOffered(c, fileId, chunkTotal, chunkBytes, earlier, env), Begun(c.upload.value, fileId, chunkTotal, chunkBytes);
            if chunkTotal == 0 then AsksNext(c, u.(at := u.at + 1), did) else WantsPiece(c, u, fileId, 0, did)
  {
    hide AdvanceUpload, Busy, LinkSound, Upload.Piece;
    var u := Begun(c.upload.value, fileId, chunkTotal, chunkBytes);
    if chunkTotal == 0 {
      ThenAdvanceAsks(c.(upload := Some(u)), earlier, env);
    } else {
      ThenNeeds(earlier, NeedChunk(fileId, u.at, 0, u.Piece(0).0, u.Piece(0).1));
    }
  }

  lemma {:induction false} StoredMoves(c: Client, fileId: Id, earlier: seq<Effect>, env: Env)
    requires LinkSound(c.link) && c.upload.Some? && SendEvents(earlier) == []
    ensures var did, u := OnStored(c, fileId, earlier, env), c.upload.value.(next := c.upload.value.next + 1);
            if u.next < u.total then WantsPiece(c, u, fileId, u.next, did) else AsksNext(c, u.(at := u.at + 1), did)
  {
    hide AdvanceUpload, Busy, LinkSound, Upload.Piece;
    var u := c.upload.value.(next := c.upload.value.next + 1);
    if u.next < u.total {
      ThenNeeds(earlier, NeedChunk(fileId, u.at, u.next, u.Piece(u.next).0, u.Piece(u.next).1));
    } else {
      ThenAdvanceAsks(c.(upload := Some(u)), earlier, env);
    }
  }

  /** What a waiting upload does with the phone's list: sends the message, asks for a piece, or offers anew. */
  lemma {:induction false} StagedMoves(c: Client, files: seq<StagedFile>, env: Env)
    requires LinkSound(c.link) && c.upload.Some? && c.upload.value.stalled && c.upload.value.items != []
    ensures var did, u := OnStaged(c, files, env), c.upload.value.(stalled := false);
            var at := FirstUnfinished(u, files, 0);
            var staged := if at < |u.ids| then FindStaged(files, u.ids[at]) else None;
            if at >= |u.items| then AsksNext(c, u.(at := |u.items|), did)
            else if staged.Some? && staged.value.missing != [] then
              WantsPiece(c, u.(at := at, next := staged.value.missing[0], total := staged.value.chunkTotal), u.ids[at],
                         staged.value.missing[0], did)
            else AsksNext(c, u.(at := at, ids := if at < |u.ids| then u.ids[..at] else u.ids), did)
  {
    hide OnAsk, AnySend, Busy, LinkSound, FindStaged, FirstUnfinished, AdvanceUpload, Upload.Piece;
    var u := c.upload.value.(stalled := false);
    var at := FirstUnfinished(u, files, 0);
    var shown := [Show(SendResumed(at, |u.items|))];
    assert SendEvents(shown) == [];
    if at >= |u.items| {
      ThenAdvanceAsks(c.(upload := Some(u.(at := |u.items| - 1))), shown, env);
    } else {
      AskBusy(c.link, c.cache, Offer(u.chat, u.items[at]), env);
      SendEventsBoth(shown, OnAsk(c.link, c.cache, Offer(u.chat, u.items[at]), env).effects);
      var staged := if at < |u.ids| then FindStaged(files, u.ids[at]) else None;
      if staged.Some? && staged.value.missing != [] {
        var hole := u.(at := at, next := staged.value.missing[0], total := staged.value.chunkTotal);
        ThenNeeds(shown, NeedChunk(u.ids[at], at, hole.next, hole.Piece(hole.next).0, hole.Piece(hole.next).1));
      }
    }
  }

  // ---- everything else ----

  /** The upload is as it was, and waits for no more than it did. */
  ghost predicate Unmoved(c: Client, did: Did) {
    did.client.upload == c.upload && Fewer(Busy(did.client.link), Busy(c.link)) && Told(did.client, did.effects)
  }

  ghost predicate Gone(c: Client, did: Did) {
    did.client.upload.None? && Fewer(Busy(did.client.link), Busy(c.link)) && NoNeed(did.effects)
  }

  /** The channel is lost or new: the upload waits, and none of its requests does. */
  predicate Waits(c: Client, did: Did) {
    c.upload.Some? && did.client.upload == Some(c.upload.value.(stalled := true)) && Busy(did.client.link) == map[] &&
    Untold(did.effects)
  }

  ghost predicate NotMoved(c: Client, did: Did) {
    Unmoved(c, did) || Gone(c, did) || Waits(c, did)
  }

  lemma {:induction false} FewerRefl(m: map<nat, Request>)
    ensures Fewer(m, m)
  {
  }

  lemma {:induction false} FewerNone(m: map<nat, Request>)
    ensures Fewer(map[], m)
  {
  }

  lemma {:induction false} AskOther(c: Client, r: Request, env: Env)
    requires LinkSound(c.link) && !OfUpload(r)
    ensures var a := OnAsk(c.link, c.cache, r, env); Unmoved(c, Did(c.(link := a.link), a.effects))
  {
    hide OnAsk, AnySend, Busy, LinkSound, Told;
    AskBusy(c.link, c.cache, r, env);
    UntoldIsTold(c.(link := OnAsk(c.link, c.cache, r, env).link), OnAsk(c.link, c.cache, r, env).effects);
    FewerRefl(Busy(c.link));
  }

  lemma {:induction false} AbortOther(l: Link, cache: CC.CacheState, ids: seq<Id>, env: Env)
    requires LinkSound(l)
    ensures NoNeed(AbortEach(l, cache, ids, env).effects) && Busy(AbortEach(l, cache, ids, env).link) == Busy(l)
    decreases |ids|
  {
    hide OnAsk, AnySend, Busy, LinkSound, NoNeed;
    if ids == [] {
      NoNeedNone([]);
    } else {
      var first := OnAsk(l, cache, FileAbort(ids[0]), env);
      AskBusy(l, cache, FileAbort(ids[0]), env);
      NoNeedNone(first.effects);
      AskSound(l, cache, FileAbort(ids[0]), env);
      AbortOther(first.link, cache, ids[1..], env);
      NoNeedBoth(first.effects, AbortEach(first.link, cache, ids[1..], env).effects);
    }
  }

  lemma {:induction false} ResumeOther(c: Client, env: Env)
    requires LinkSound(c.link)
    ensures var did := ResumeFetch(c, env); did.client.upload == c.upload && Busy(did.client.link) == Busy(c.link) && Untold(did.effects)
  {
    hide OnAsk, AnySend, Busy, LinkSound;
    if c.download.Some? && c.download.value.stalled {
      var d := c.download.value.(stalled := false);
      AskBusy(c.link, c.cache, ChunkRequest(d), env);
      UntoldOne(FetchResumed(d.next, d.total));
      UntoldBoth([Show(FetchResumed(d.next, d.total))], OnAsk(c.link, c.cache, ChunkRequest(d), env).effects);
    }
  }

  lemma {:induction false} AskUntold(l: Link, cache: CC.CacheState, r: Request, env: Env)
    ensures Untold(OnAsk(l, cache, r, env).effects)
  {
    hide OnAsk;
    AskTellsNoSend(l, cache, r, env);
  }

  /** A new link begins with nothing of the upload on order. */
  lemma {:induction false} LinkedOther(c: Client, env: Env)
    requires Sound(c) && c.link.pending && !c.link.revoked
    ensures var did := OnLinked(c, env); did.client.upload == c.upload && Busy(did.client.link) == map[] && Untold(did.effects)
  {
    hide OnAsk, AnySend, Busy, LinkSound, Untold, ResumeFetch, DownloadSound, UploadSound, NothingLeft, MarkHello;
    var link := c.link.(pending := false, session := true, connected := true, outstanding := map[]);
    FreshLinkSound(c.link);
    NoneBusy(link);
    var hello := OnAsk(link, c.cache, Request.Hello, env);
    GreetSound(link, c.cache, env);
    AskBusy(link, c.cache, Request.Hello, env);
    MarkBusy(hello);
    var marked := MarkHello(hello);
    var chats := OnAsk(marked, c.cache, Request.Chats, env);
    AskBusy(marked, c.cache, Request.Chats, env);
    AskSound(marked, c.cache, Request.Chats, env);
    AskBusy(chats.link, c.cache, Request.Staged, env);
    AskSound(chats.link, c.cache, Request.Staged, env);
    var staged := if c.upload.Some? then OnAsk(chats.link, c.cache, Request.Staged, env) else Asking(chats.link, []);
    var resumed := ResumeFetch(c.(link := staged.link), env);
    ResumeOther(c.(link := staged.link), env);
    UntoldOne(Linked);
    UntoldNone();
    AskUntold(link, c.cache, Request.Hello, env);
    AskUntold(marked, c.cache, Request.Chats, env);
    AskUntold(chats.link, c.cache, Request.Staged, env);
    UntoldBoth([Show(Linked)], hello.effects);
    UntoldBoth([Show(Linked)] + hello.effects, chats.effects);
    UntoldBoth([Show(Linked)] + hello.effects + chats.effects, staged.effects);
    UntoldBoth([Show(Linked)] + hello.effects + chats.effects + staged.effects, resumed.effects);
  }

  lemma {:induction false} SilentNeedsNothing()
    ensures SendEvents([]) == []
  {
  }

  lemma {:induction false} NoneBusy(l: Link)
    requires l.outstanding == map[]
    ensures Busy(l) == map[]
  {
  }

  lemma {:induction false} MarkBusy(asking: Asking)
    ensures Busy(MarkHello(asking)) == Busy(asking.link)
  {
  }

  lemma {:induction false} LostOther(c: Client)
    ensures NotMoved(c, OnLost(c)) && Busy(OnLost(c).client.link) == map[]
  {
    hide NoNeed, Fewer, Busy, Untold, Told;
    NoneBusy(OnLost(c).client.link);
    FewerNone(Busy(c.link));
    var sending := if c.upload.Some? then [Show(SendPaused)] else [];
    var fetching := if c.download.Some? then [Show(FetchPaused)] else [];
    var unlinked := if c.link.session then [Show(Unlinked)] else [];
    UntoldNone();
    UntoldOne(SendPaused);
    UntoldOne(FetchPaused);
    UntoldOne(Unlinked);
    UntoldBoth(sending, fetching);
    UntoldBoth(sending + fetching, unlinked);
    UntoldIsTold(OnLost(c).client, OnLost(c).effects);
  }

  lemma {:induction false} ChunkOther(c: Client, asked: Request, index: nat, bytes: seq<Byte>, env: Env)
    requires LinkSound(c.link)
    ensures var did := OnChunk(c, asked, index, bytes, env);
            did.client.upload == c.upload && Busy(did.client.link) == Busy(c.link) && Untold(did.effects)
  {
    hide OnAsk, AnySend, Busy, LinkSound, Untold, Eaten, SaturatingMul;
    UntoldOne(Ignored);
    if asked.FileChunk? && c.download.Some? && !c.download.value.stalled && asked.fileId == c.download.value.fileId &&
       index == asked.index && index == c.download.value.next {
      var d := c.download.value;
      var event := FileBytes(d.fileId, index, SaturatingMul(index, d.chunkBytes), bytes);
      var further := d.(next := index + Eaten(|bytes|, d.chunkBytes));
      UntoldOne(event);
      UntoldOne(FileDone(d.fileId));
      UntoldBoth([Show(event)], [Show(FileDone(d.fileId))]);
      AskBusy(c.link, c.cache, ChunkRequest(further), env);
      AskUntold(c.link, c.cache, ChunkRequest(further), env);
      UntoldBoth([Show(event)], OnAsk(c.link, c.cache, ChunkRequest(further), env).effects);
    }
  }

  /** Answers that move no upload on: at most they end it. */
  predicate Moving(asked: Request, response: Response) {
    response.FileOffer? || response.Staged? || (response.Done? && asked.FilePut?)
  }

  lemma {:induction false} OneMoreQuiet(earlier: seq<Effect>, e: Event)
    requires NoNeed(earlier) && !e.NeedChunk?
    ensures NoNeed(earlier + [Show(e)])
    ensures Untold(earlier) && !AboutSend(e) ==> Untold(earlier + [Show(e)])
  {
    NoNeedOne(e);
    NoNeedBoth(earlier, [Show(e)]);
    SendEventsBoth(earlier, [Show(e)]);
  }

  lemma {:induction false} GiveUpTells(c: Client, theirs: Option<nat>)
    ensures var did := GiveUpStalled(c, theirs); NoNeed(did.effects) && did.client == c.(upload := did.client.upload)
    ensures var did := GiveUpStalled(c, theirs);
            (did.client.upload == c.upload && Untold(did.effects)) || did.client.upload.None?
  {
    NoNeedOne(SendStopped);
  }

  lemma {:induction false} HelloOther(c: Client, wire: nat, asked: Request, earlier: seq<Effect>, env: Env)
    requires Told(c, earlier)
    ensures NotMoved(c, OnAnswer(c, asked, Response.Hello(wire), earlier, env))
  {
    hide NoNeed, Untold, Busy, Fewer, GiveUpStalled;
    var greeted := c.(link := c.link.(hello := None, phoneWire := Some(wire)));
    var stopped := GiveUpStalled(greeted, Some(wire));
    GiveUpTells(greeted, Some(wire));
    SameBusy(c.link, greeted.link);
    NoNeedBoth(earlier, stopped.effects);
    OneMoreQuiet(earlier + stopped.effects, Wire(Some(wire)));
    if stopped.client.upload.Some? { UntoldBoth(earlier, stopped.effects); }
  }

  lemma {:induction false} SameBusy(l: Link, m: Link)
    requires m.outstanding == l.outstanding
    ensures Busy(m) == Busy(l) && Fewer(Busy(m), Busy(l))
  {
  }

  lemma {:induction false} AnswerOther(c: Client, asked: Request, response: Response, earlier: seq<Effect>, env: Env)
    requires LinkSound(c.link) && Told(c, earlier) && !Moving(asked, response)
    ensures NotMoved(c, OnAnswer(c, asked, response, earlier, env))
  {
    hide OnChunk, Busy, LinkSound, NoNeed, Untold, Fewer, GiveUpStalled, CC.CacheState.RememberChats, CC.CacheState.RememberPage,
         CC.CacheState.RememberAvatar;
    var did := OnAnswer(c, asked, response, earlier, env);
    FewerRefl(Busy(c.link));
    ShownMovesNothing(c, c, Ignored);
    if response.Hello? {
      HelloOther(c, response.wire, asked, earlier, env);
    } else if response.FileChunk? {
      ChunkOther(c, asked, response.index, response.bytes, env);
      var chunk := OnChunk(c, asked, response.index, response.bytes, env);
      UntoldIsTold(chunk.client, chunk.effects);
      NoNeedBoth(earlier, chunk.effects);
      if c.upload.Some? { UntoldBoth(earlier, chunk.effects); }
    } else if |did.effects| == |earlier| + 1 && did.effects[|earlier|].Show? && !did.effects[|earlier|].event.NeedChunk? {
      OneMoreQuiet(earlier, did.effects[|earlier|].event);
      assert did.effects == [Show(Ignored)] || did.effects == earlier + [Show(did.effects[|earlier|].event)];
    }
  }

  /** One thing shown, the upload and everything on order left alone. */
  lemma {:induction false} ShownMovesNothing(c: Client, next: Client, e: Event)
    requires next.upload == c.upload && next.link.outstanding == c.link.outstanding && !AboutSend(e)
    ensures NotMoved(c, Did(next, [Show(e)]))
  {
    hide NoNeed, Busy, Fewer, Untold, Told;
    UntoldOne(e);
    UntoldIsTold(next, [Show(e)]);
    SameBusy(c.link, next.link);
  }

  lemma {:induction false} BusyWithout(l: Link, id: nat)
    ensures Busy(l.(outstanding := l.outstanding - {id})) == Busy(l) - {id}
  {
  }

  lemma {:induction false} BusyOvertaken(l: Link)
    requires LinkSound(l) && l.hello.Some?
    ensures Busy(l.(hello := None, outstanding := l.outstanding - {l.hello.value}, phoneWire := Some(0))) == Busy(l)
  {
  }

  /** Before an answer is looked at: the request no longer waits, and a phone too old may have ended a
      waiting upload. */
  lemma {:induction false} OvertakenUpload(c: Client, id: nat)
    requires Sound(c) && id in c.link.outstanding
    ensures var first := Overtaken(c.(link := c.link.(outstanding := c.link.outstanding - {id})), id);
            LinkSound(first.client.link) && Busy(first.client.link) == Busy(c.link) - {id} && Told(first.client, first.effects) &&
            first.client.link.nextId == c.link.nextId && first.client.cache == c.cache && first.client.link.session &&
            (first.client.upload == c.upload || first.client.upload.None?)
  {
    hide Busy, NoNeed, LinkSound, GiveUpStalled, DownloadSound, UploadSound, NothingLeft, Asks;
    var less := c.(link := c.link.(outstanding := c.link.outstanding - {id}));
    AnsweredSound(c.link, id);
    OvertakenSound(c, id);
    BusyWithout(c.link, id);
    if less.link.hello.Some? && id > less.link.hello.value {
      var ancient := less.(link := less.link.(hello := None, outstanding := less.link.outstanding - {less.link.hello.value}, phoneWire := Some(0)));
      BusyOvertaken(less.link);
      GiveUpTells(ancient, None);
      NoNeedOne(Wire(None));
      NoNeedBoth([Show(Wire(None))], GiveUpStalled(ancient, None).effects);
      WireTells(GiveUpStalled(ancient, None).effects);
    } else {
      SilentNeedsNothing();
      NoNeedNone([]);
    }
  }

  lemma {:induction false} WireTells(more: seq<Effect>)
    ensures SendEvents([Show(Wire(None))] + more) == SendEvents(more)
  {
    SendEventsBoth([Show(Wire(None))], more);
  }

  // ---- by input ----

  lemma {:induction false} FewerChain(a: map<nat, Request>, b: map<nat, Request>, c: map<nat, Request>)
    requires Fewer(a, b) && Fewer(b, c)
    ensures Fewer(a, c)
  {
  }

  lemma {:induction false} NotMovedChain(c: Client, first: Client, did: Did)
    requires NotMoved(first, did) && Fewer(Busy(first.link), Busy(c.link)) && (first.upload == c.upload || first.upload.None?)
    ensures NotMoved(c, did)
  {
    hide Busy, Fewer, NoNeed;
    if Fewer(Busy(did.client.link), Busy(first.link)) { FewerChain(Busy(did.client.link), Busy(first.link), Busy(c.link)); }
  }

  /** The request an answer is to, and whether it moves an upload on. */
  predicate MovesOn(c: Client, input: Input) {
    input.Received? && input.frame.Data? && input.frame.content.Answer? && input.frame.content.id in c.link.outstanding &&
    Moving(c.link.outstanding[input.frame.content.id], input.frame.content.response)
  }

  lemma {:induction false} ResponseOther(c: Client, id: nat, response: Response, env: Env)
    requires Sound(c) && (id in c.link.outstanding ==> !Moving(c.link.outstanding[id], response))
    ensures NotMoved(c, OnResponse(c, id, response, env))
  {
    hide Busy, NoNeed, LinkSound, Fewer, NotMoved, OnAnswer, Overtaken, DownloadSound, UploadSound, NothingLeft, Moving;
    if id in c.link.outstanding {
      var first := Overtaken(c.(link := c.link.(outstanding := c.link.outstanding - {id})), id);
      OvertakenUpload(c, id);
      AnswerOther(first.client, c.link.outstanding[id], response, first.effects, env);
      FewerWithout(Busy(c.link), id);
      NotMovedChain(c, first.client, OnAnswer(first.client, c.link.outstanding[id], response, first.effects, env));
    } else {
      ShownMovesNothing(c, c, Ignored);
    }
  }

  lemma {:induction false} FewerWithout(m: map<nat, Request>, id: nat)
    ensures Fewer(m - {id}, m)
  {
  }

  lemma {:induction false} NotedOther(c: Client, n: Notice)
    ensures NotMoved(c, Did(Noted(c, n), [Show(Noticed(n))]))
  {
    hide CC.CacheState.Arrived, CC.CacheState.RememberAvatar, CC.CacheState.FileProgress, CC.CacheState.FileGone, NoNeed,
         CC.CacheState.Gone, CC.CacheState.Edited, CC.CacheState.Reacted, Busy, Fewer, NotMoved, OnRevoked;
    if n.Revoked? {
      RevokedMoves(c, n);
    } else {
      ShownMovesNothing(c, Noted(c, n), Noticed(n));
    }
  }

  lemma {:induction false} RevokedMoves(c: Client, n: Notice)
    ensures NotMoved(c, Did(OnRevoked(c), [Show(Noticed(n))]))
  {
    hide NoNeed, Busy, Fewer;
    NoNeedOne(Noticed(n));
    RevokedMovesNothing(c);
  }

  lemma {:induction false} RevokedMovesNothing(c: Client)
    ensures OnRevoked(c).upload.None? && Fewer(Busy(OnRevoked(c).link), Busy(c.link))
  {
  }

  lemma {:induction false} FrameOther(c: Client, frame: Frame, env: Env)
    requires Sound(c) && !MovesOn(c, Received(frame))
    ensures NotMoved(c, OnFrame(c, frame, env))
  {
    hide Busy, NoNeed, LinkSound, Fewer, NotMoved, OnLinked, OnResponse, Noted, DownloadSound, NothingLeft;
    ShownMovesNothing(c, c, Ignored);
    match frame
    case Handshake(intact, agrees) =>
      if c.link.pending {
        UnlinkedIsOpen(c);
        LinkedOther(c, env);
        NewLinkMoves(c, OnLinked(c, env));
        ShownMovesNothing(c, c.(link := c.link.(pending := false)), Ignored);
      }
    case Farewell(opens) => NotedOther(c, Notice.Revoked); NoticeRevoked(c);
    case Data(Answer(id, response)) => ResponseOther(c, id, response, env);
    case Data(News(notice)) => NotedOther(c, notice);
    case Data(Partial) => SilentMovesNothing(c);
    case _ =>
  }

  lemma {:induction false} NoticeRevoked(c: Client)
    ensures Noted(c, Notice.Revoked) == OnRevoked(c)
  {
  }

  lemma {:induction false} SilentMovesNothing(c: Client)
    ensures NotMoved(c, Did(c, []))
  {
    hide NoNeed, Busy, Fewer;
    SilentNeedsNothing();
    NoNeedNone([]);
    FewerRefl(Busy(c.link));
  }

  lemma {:induction false} UnlinkedIsOpen(c: Client)
    requires Sound(c) && c.link.pending
    ensures !c.link.revoked && (c.upload.Some? ==> c.upload.value.stalled)
  {
  }

  lemma {:induction false} NewLinkMoves(c: Client, did: Did)
    requires did.client.upload == c.upload && Busy(did.client.link) == map[] && Untold(did.effects)
    requires c.upload.Some? ==> c.upload.value.stalled
    ensures NotMoved(c, did)
  {
    hide NoNeed, Busy, Fewer, Told, Untold;
    FewerNone(Busy(c.link));
    UntoldIsTold(did.client, did.effects);
  }

  lemma {:induction false} FetchOther(c: Client, fileId: Id, chunkTotal: nat, chunkBytes: u64, env: Env)
    requires LinkSound(c.link)
    ensures NotMoved(c, OnFetch(c, fileId, chunkTotal, chunkBytes, env))
  {
    hide OnAsk, AnySend, Busy, LinkSound, NoNeed, Fewer;
    AskOther(c, ChunkRequest(Download(fileId, 0, chunkTotal, chunkBytes, false)), env);
    NoNeedOne(Event.Refused);
    FewerRefl(Busy(c.link));
  }

  lemma {:induction false} CancelSendOther(c: Client, env: Env)
    requires LinkSound(c.link)
    ensures NotMoved(c, OnCancelSend(c, env)) && OnCancelSend(c, env).client.upload.None?
  {
    hide OnAsk, AnySend, Busy, LinkSound, NoNeed, Fewer, AbortEach;
    ShownMovesNothing(c, c, Ignored);
    if c.upload.Some? { AbortOther(c.link, c.cache, c.upload.value.ids, env); }
    NoNeedOne(Ignored);
    FewerRefl(Busy(c.link));
  }

  lemma {:induction false} ReachOther(c: Client, env: Env)
    ensures NotMoved(c, OnReach(c, env))
  {
    hide NoNeed, Busy, Fewer, NotMoved;
    var knocking := c.(link := c.link.(pending := true));
    SilentMovesNothing(c);
    ShownMovesNothing(c, c, Event.Refused);
    ShownMovesNothing(c, knocking, Ignored);
    KnockMoves(c);
  }

  lemma {:induction false} KnockMoves(c: Client)
    ensures NotMoved(c, Did(c.(link := c.link.(pending := true)), [Effect.Send(Knock(c.ownOnion, c.ownYgg))]))
  {
    hide NoNeed, Busy, Fewer;
    var sends := [Effect.Send(Knock(c.ownOnion, c.ownYgg))];
    assert SendEvents(sends) == [];
    NoNeedNone(sends);
    SameBusy(c.link, c.link.(pending := true));
  }

  lemma {:induction false} CancelFetchOther(c: Client)
    ensures NotMoved(c, OnCancelFetch(c))
  {
    hide NotMoved;
    ShownMovesNothing(c, c, Ignored);
    if c.download.Some? { ShownMovesNothing(c, c.(download := None), FetchCancelled(c.download.value.fileId)); }
  }

  /** Every input but four leaves an upload where it was, ends it, or lets it wait. */
  lemma {:induction false} StepOther(c: Client, input: Input, env: Env)
    requires Sound(c) && !MovesOn(c, input) && !input.Send? && !input.PutChunk?
    requires input.Ask? ==> !OfUpload(input.request)
    ensures NotMoved(c, Step(c, input, env))
  {
    hide OnAsk, AnySend, Busy, LinkSound, NoNeed, Fewer, OnFrame, OnFetch, OnCancelSend, OnLost, OnReach, OnCancelFetch,
         DownloadSound, UploadSound, NothingLeft;
    match input
    case Received(frame) => FrameOther(c, frame, env);
    case Ask(request) => AskOther(c, request, env);
    case Fetch(fileId, chunkTotal, chunkBytes) => FetchOther(c, fileId, chunkTotal, chunkBytes, env);
    case CancelSend => CancelSendOther(c, env);
    case Lost => LostOther(c);
    case Reach => ReachOther(c, env);
    case CancelFetch => CancelFetchOther(c);
    case OnionReady(onion) =>
      SilentMovesNothing(c);
      FewerRefl(Busy(c.link));
    case YggReady(ygg) =>
      SilentMovesNothing(c);
      FewerRefl(Busy(c.link));
  }

  lemma {:induction false} AnswerKeepsUpload(c: Client, asked: Request, response: Response, earlier: seq<Effect>, env: Env)
    requires !Moving(asked, response)
    ensures var did := OnAnswer(c, asked, response, earlier, env); did.client.upload == c.upload || did.client.upload.None?
  {
    hide OnAsk, AnySend, Eaten, CC.CacheState.RememberChats, CC.CacheState.RememberPage, CC.CacheState.RememberAvatar;
  }

  /** Of these inputs only a lost channel changes an upload it does not end. */
  lemma {:induction false} StepKeepsUpload(c: Client, input: Input, env: Env)
    requires !MovesOn(c, input) && !input.Send? && !input.PutChunk? && !input.Lost?
    ensures var did := Step(c, input, env); did.client.upload == c.upload || did.client.upload.None?
  {
    hide OnAsk, AnySend, OnAnswer, Overtaken, MarkHello, Noted;
    match input
    case Received(Data(Answer(id, response))) =>
      if c.link.session && id in c.link.outstanding {
        var less := c.(link := c.link.(outstanding := c.link.outstanding - {id}));
        var first := Overtaken(less, id);
        OvertakenKeepsUpload(less, id);
        AnswerKeepsUpload(first.client, c.link.outstanding[id], response, first.effects, env);
      }
    case Received(Data(News(notice))) => NoticeKeepsUpload(c, notice);
    case _ =>
  }

  lemma {:induction false} OvertakenKeepsUpload(c: Client, id: nat)
    ensures Overtaken(c, id).client.upload == c.upload || Overtaken(c, id).client.upload.None?
  {
  }

  lemma {:induction false} NoticeKeepsUpload(c: Client, n: Notice)
    ensures Noted(c, n).upload == c.upload || Noted(c, n).upload.None?
  {
    hide CC.CacheState.Arrived, CC.CacheState.RememberAvatar, CC.CacheState.FileProgress, CC.CacheState.FileGone,
         CC.CacheState.Gone, CC.CacheState.Edited, CC.CacheState.Reacted;
  }
}
