/** Resumable download, end to end: what the partial file holds at every moment, and when a file gets its name. */
module CompanionDownload {
  import opened Bytes
  import opened CompanionProtocol
  import opened CompanionProtocolLaws
  import opened CompanionDriver
  import CC = CompanionCache

  // ---- the phone's files ----

  datatype PhoneFile = PhoneFile(bytes: seq<Byte>, chunkBytes: u64)

  type Phone = map<Id, PhoneFile>

  predicate Sliced(f: PhoneFile) {
    0 < f.chunkBytes && |f.bytes| < U64
  }

  predicate PhoneSound(phone: Phone) {
    forall id | id in phone :: Sliced(phone[id])
  }

  function Total(f: PhoneFile): nat
    requires Sliced(f)
  {
    (|f.bytes| + f.chunkBytes - 1) / f.chunkBytes
  }

  function Reach(f: PhoneFile, next: nat): (n: nat)
    ensures n <= |f.bytes|
  {
    if next * f.chunkBytes < |f.bytes| then next * f.chunkBytes else |f.bytes|
  }

  /** The chunks before `next`: what of the file is there when that many are. */
  function Before(f: PhoneFile, next: nat): seq<Byte> {
    f.bytes[..Reach(f, next)]
  }

  /** Some whole chunks from an index on, or what is left of the file: never nothing. */
  predicate Serves(f: PhoneFile, index: nat, bytes: seq<Byte>)
    requires Sliced(f)
  {
    var from := index * f.chunkBytes;
    bytes != [] && from + |bytes| <= |f.bytes| && bytes == f.bytes[from..from + |bytes|] &&
    (|bytes| % f.chunkBytes == 0 || from + |bytes| == |f.bytes|)
  }

  /** An honest phone: a chunk asked for is served from where it was asked, or refused. It may serve fewer
      than asked, answer late, or never. */
  predicate HonestAnswer(phone: Phone, asked: Request, response: Response)
    requires PhoneSound(phone)
  {
    asked.FileChunk? ==>
      response.Refused? ||
      (response.FileChunk? && response.index == asked.index && asked.fileId in phone &&
       Serves(phone[asked.fileId], asked.index, response.bytes))
  }

  predicate HonestInput(phone: Phone, c: Client, input: Input)
    requires PhoneSound(phone)
  {
    input.Received? && input.frame.Data? && input.frame.content.Answer? && input.frame.content.id in c.link.outstanding ==>
      HonestAnswer(phone, c.link.outstanding[input.frame.content.id], input.frame.content.response)
  }

  // ---- arithmetic ----

  /** Counting the chunks that came by their length never skips and never repeats. */
  lemma {:induction false} EatenReaches(f: PhoneFile, index: nat, bytes: seq<Byte>)
    requires Sliced(f) && Serves(f, index, bytes)
    ensures var next := index + Eaten(|bytes|, f.chunkBytes);
            index < next && Reach(f, index) == index * f.chunkBytes < U64 && Reach(f, next) == index * f.chunkBytes + |bytes| &&
            (next >= Total(f) <==> Reach(f, next) == |f.bytes|)
  {
    var cb, n := f.chunkBytes, |bytes|;
    var eaten := Eaten(n, cb);
    RoundUp(n, cb);
    RoundUp(|f.bytes|, cb);
    assert eaten == (n + cb - 1) / cb;
    Distribute(index, eaten, cb);
    if n % cb == 0 { Exact(n, cb); }
    if index + eaten < Total(f) {
      Below(index + eaten + 1, Total(f), cb);
      Distribute(index + eaten, 1, cb);
    } else {
      Below(Total(f), index + eaten, cb);
    }
  }

  lemma {:induction false} RoundUp(n: nat, cb: nat)
    requires cb > 0
    ensures var k := (n + cb - 1) / cb; n <= k * cb < n + cb && (n > 0 ==> k > 0)
  {
    var k := (n + cb - 1) / cb;
    assert n + cb - 1 == k * cb + (n + cb - 1) % cb;
  }

  lemma {:induction false} Exact(n: nat, cb: nat)
    requires cb > 0 && n % cb == 0
    ensures (n + cb - 1) / cb * cb == n
  {
    RoundUp(n, cb);
    var k, q := (n + cb - 1) / cb, n / cb;
    assert n == q * cb;
    if k < q { Below(k + 1, q, cb); Distribute(k, 1, cb); }
    if k > q { Below(q + 1, k, cb); Distribute(q, 1, cb); }
  }

  lemma {:induction false} Distribute(a: nat, b: nat, cb: nat)
    ensures (a + b) * cb == a * cb + b * cb
  {
  }

  lemma {:induction false} Below(a: nat, b: nat, cb: nat)
    requires a <= b
    ensures a * cb <= b * cb
  {
  }

  /** Writing what was served where it belongs. */
  lemma {:induction false} WriteExtends(f: PhoneFile, index: nat, bytes: seq<Byte>)
    requires Sliced(f) && Serves(f, index, bytes)
    ensures WriteAt(Before(f, index), SaturatingMul(index, f.chunkBytes), bytes) ==
            Before(f, index + Eaten(|bytes|, f.chunkBytes))
  {
    EatenReaches(f, index, bytes);
    var from := index * f.chunkBytes;
    assert f.bytes[..from] + f.bytes[from..from + |bytes|] == f.bytes[..from + |bytes|];
  }

  lemma {:induction false} NothingYet(f: PhoneFile)
    ensures Before(f, 0) == []
  {
  }

  // ---- what a step tells of a download ----

  predicate AboutFetch(e: Event) {
    e.FileBytes? || e.FileDone? || e.FetchCancelled? || e.FetchStopped? || (e.Noticed? && e.notice.FileGone?)
  }

  function FetchEvents(effects: seq<Effect>): seq<Event> {
    if effects == [] then []
    else if effects[0].Show? && AboutFetch(effects[0].event) then [effects[0].event] + FetchEvents(effects[1..])
    else FetchEvents(effects[1..])
  }

  lemma {:induction false} FetchEventsBoth(a: seq<Effect>, b: seq<Effect>)
    ensures FetchEvents(a + b) == FetchEvents(a) + FetchEvents(b)
  {
    hide AboutFetch;
    if a == [] {
      assert a + b == b;
    } else {
      FetchEventsBoth(a[1..], b);
      assert (a + b)[0] == a[0] && (a + b)[1..] == a[1..] + b;
    }
  }

  lemma {:induction false} CacheTellsNothing(cache: CC.CacheState, r: Request, more: seq<Effect>)
    requires FetchEvents(more) == []
    ensures FetchEvents(CachedAnswer(cache, r) + more) == []
  {
    FetchEventsBoth(CachedAnswer(cache, r), more);
  }

  lemma {:induction false} AskTellsNothing(l: Link, cache: CC.CacheState, r: Request, env: Env)
    ensures FetchEvents(OnAsk(l, cache, r, env).effects) == []
  {
    hide CachedAnswer;
    var shown := CachedAnswer(cache, r);
    assert shown + [] == shown;
    CacheTellsNothing(cache, r, []);
    CacheTellsNothing(cache, r, [Show(NotLinked)]);
    CacheTellsNothing(cache, r, [Show(Event.Refused)]);
    CacheTellsNothing(cache, r, [Effect.Send(Asked(l.nextId, r))]);
  }

  predicate SameFetch(a: Option<Download>, b: Option<Download>) {
    a.Some? == b.Some? && (a.Some? ==> a.value.(stalled := true) == b.value.(stalled := true))
  }

  /** Nothing told; the download goes on as it was, or is no more. */
  predicate Idle(before: Option<Download>, did: Did) {
    FetchEvents(did.effects) == [] && (did.client.download.None? || SameFetch(before, did.client.download))
  }

  predicate Stops(did: Did) {
    var events := FetchEvents(did.effects);
    did.client.download.None? && |events| == 1 && (events[0].FetchStopped? || events[0].FetchCancelled?)
  }

  /** The phone no longer has some file: if it is the one on its way, it stops being on its way. */
  predicate FileWentAway(before: Option<Download>, did: Did) {
    var events := FetchEvents(did.effects);
    |events| == 1 && events[0].Noticed? && events[0].notice.FileGone? &&
    (did.client.download.None? || (SameFetch(before, did.client.download) && before.value.fileId != events[0].notice.fileId))
  }

  predicate Begins(before: Option<Download>, input: Input, did: Did) {
    input.Fetch? && before.None? && FetchEvents(did.effects) == [] && input.chunkTotal > 0 &&
    did.client.download == Some(Download(input.fileId, 0, input.chunkTotal, input.chunkBytes, false))
  }

  /** The chunk waited for has come, on the request for it. */
  predicate Takes(before: Option<Download>, asked: Request, response: Response, did: Did) {
    before.Some? && asked.FileChunk? && response.FileChunk? && asked.fileId == before.value.fileId &&
    response.index == asked.index == before.value.next &&
    (var d := before.value;
     var next := d.next + Eaten(|response.bytes|, d.chunkBytes);
     var written := FileBytes(d.fileId, d.next, SaturatingMul(d.next, d.chunkBytes), response.bytes);
     if next >= d.total then FetchEvents(did.effects) == [written, FileDone(d.fileId)] && did.client.download.None?
     else FetchEvents(did.effects) == [written] && SameFetch(did.client.download, Some(d.(next := next))))
  }

  lemma {:induction false} AdvanceIdle(c: Client, env: Env)
    ensures FetchEvents(AdvanceUpload(c, env).effects) == [] && AdvanceUpload(c, env).client.download == c.download
  {
    hide OnAsk;
    if c.upload.Some? {
      var u := c.upload.value.(at := c.upload.value.at + 1);
      AskTellsNothing(c.link, c.cache, if u.at < |u.items| then Offer(u.chat, u.items[u.at]) else Request.FileSend(u.ids, u.text), env);
    }
  }

  lemma {:induction false} AbortTellsNothing(l: Link, cache: CC.CacheState, ids: seq<Id>, env: Env)
    ensures FetchEvents(AbortEach(l, cache, ids, env).effects) == []
    decreases |ids|
  {
    hide OnAsk;
    if ids != [] {
      var first := OnAsk(l, cache, FileAbort(ids[0]), env);
      AskTellsNothing(l, cache, FileAbort(ids[0]), env);
      AbortTellsNothing(first.link, cache, ids[1..], env);
      FetchEventsBoth(first.effects, AbortEach(first.link, cache, ids[1..], env).effects);
    }
  }

  lemma {:induction false} ResumeIdle(c: Client, env: Env)
    ensures FetchEvents(ResumeFetch(c, env).effects) == [] && SameFetch(c.download, ResumeFetch(c, env).client.download)
  {
    hide OnAsk, AnySend;
    if c.download.Some? && c.download.value.stalled {
      var d := c.download.value.(stalled := false);
      AskTellsNothing(c.link, c.cache, ChunkRequest(d), env);
      FetchEventsBoth([Show(FetchResumed(d.next, d.total))], OnAsk(c.link, c.cache, ChunkRequest(d), env).effects);
    }
  }

  lemma {:induction false} LinkedIdle(c: Client, env: Env)
    ensures Idle(c.download, OnLinked(c, env))
  {
    hide OnAsk, AnySend, ResumeFetch;
    var link := c.link.(pending := false, session := true, connected := true, outstanding := map[]);
    var hello := OnAsk(link, c.cache, Request.Hello, env);
    var chats := OnAsk(MarkHello(hello), c.cache, Request.Chats, env);
    var staged := if c.upload.Some? then OnAsk(chats.link, c.cache, Request.Staged, env) else Asking(chats.link, []);
    var resumed := ResumeFetch(c.(link := staged.link), env);
    AskTellsNothing(link, c.cache, Request.Hello, env);
    AskTellsNothing(MarkHello(hello), c.cache, Request.Chats, env);
    AskTellsNothing(chats.link, c.cache, Request.Staged, env);
    ResumeIdle(c.(link := staged.link), env);
    FetchEventsBoth([Show(Linked)], hello.effects);
    FetchEventsBoth([Show(Linked)] + hello.effects, chats.effects);
    FetchEventsBoth([Show(Linked)] + hello.effects + chats.effects, staged.effects);
    FetchEventsBoth([Show(Linked)] + hello.effects + chats.effects + staged.effects, resumed.effects);
  }

  lemma {:induction false} ChunkTakes(c: Client, asked: Request, index: nat, bytes: seq<Byte>, env: Env)
    ensures var did := OnChunk(c, asked, index, bytes, env);
            Idle(c.download, did) || Takes(c.download, asked, Response.FileChunk(index, bytes), did)
  {
    hide OnAsk, AnySend, Eaten, SaturatingMul;
    if asked.FileChunk? && c.download.Some? && !c.download.value.stalled && asked.fileId == c.download.value.fileId &&
       index == asked.index && index == c.download.value.next {
      var d := c.download.value;
      var event := FileBytes(d.fileId, index, SaturatingMul(index, d.chunkBytes), bytes);
      var further := d.(next := index + Eaten(|bytes|, d.chunkBytes));
      assert FetchEvents([Show(event)]) == [event];
      FetchEventsBoth([Show(event)], [Show(FileDone(d.fileId))]);
      assert FetchEvents([Show(FileDone(d.fileId))]) == [FileDone(d.fileId)];
      AskTellsNothing(c.link, c.cache, ChunkRequest(further), env);
      FetchEventsBoth([Show(event)], OnAsk(c.link, c.cache, ChunkRequest(further), env).effects);
    }
  }

  lemma {:induction false} StagedIdle(c: Client, files: seq<StagedFile>, env: Env)
    ensures FetchEvents(OnStaged(c, files, env).effects) == [] && OnStaged(c, files, env).client.download == c.download
  {
    hide OnAsk, FindStaged, FirstUnfinished, AdvanceUpload, Upload.Piece;
    if c.upload.Some? && c.upload.value.stalled {
      var u := c.upload.value.(stalled := false);
      var at := FirstUnfinished(u, files, 0);
      var shown := [Show(SendResumed(at, |u.items|))];
      assert FetchEvents(shown) == [];
      if at >= |u.items| {
        var last := c.(upload := Some(u.(at := if u.items == [] then 0 else |u.items| - 1)));
        AdvanceIdle(last, env);
        FetchEventsBoth(shown, AdvanceUpload(last, env).effects);
      } else {
        AskTellsNothing(c.link, c.cache, Offer(u.chat, u.items[at]), env);
        FetchEventsBoth(shown, OnAsk(c.link, c.cache, Offer(u.chat, u.items[at]), env).effects);
        var staged := if at < |u.ids| then FindStaged(files, u.ids[at]) else None;
        if staged.Some? && staged.value.missing != [] {
          var hole := u.(at := at, next := staged.value.missing[0], total := staged.value.chunkTotal);
          var need := [Show(NeedChunk(u.ids[at], at, hole.next, hole.Piece(hole.next).0, hole.Piece(hole.next).1))];
          assert FetchEvents(need) == [];
          FetchEventsBoth(shown, need);
        }
      }
    }
  }

  lemma {:induction false} StoredIdle(c: Client, fileId: Id, earlier: seq<Effect>, env: Env)
    requires FetchEvents(earlier) == []
    ensures var did := OnStored(c, fileId, earlier, env); FetchEvents(did.effects) == [] && did.client.download == c.download
  {
    hide AdvanceUpload, Upload.Piece;
    if c.upload.Some? {
      var u := c.upload.value.(next := c.upload.value.next + 1);
      AdvanceIdle(c.(upload := Some(u)), env);
      FetchEventsBoth(earlier, AdvanceUpload(c.(upload := Some(u)), env).effects);
      FetchEventsBoth(earlier, [Show(NeedChunk(fileId, u.at, u.next, u.Piece(u.next).0, u.Piece(u.next).1))]);
    }
  }

  lemma {:induction false} OfferedIdle(c: Client, fileId: Id, chunkTotal: nat, chunkBytes: u64, earlier: seq<Effect>, env: Env)
    requires FetchEvents(earlier) == []
    ensures var did := OnOffered(c, fileId, chunkTotal, chunkBytes, earlier, env);
            FetchEvents(did.effects) == [] && did.client.download == c.download
  {
    hide AdvanceUpload, Upload.Piece;
    if c.upload.Some? {
      var u := c.upload.value;
      var begun := u.(ids := u.ids + [fileId], total := chunkTotal, chunkBytes := chunkBytes, next := 0);
      AdvanceIdle(c.(upload := Some(begun)), env);
      FetchEventsBoth(earlier, AdvanceUpload(c.(upload := Some(begun)), env).effects);
      FetchEventsBoth(earlier, [Show(NeedChunk(fileId, begun.at, 0, begun.Piece(0).0, begun.Piece(0).1))]);
    }
  }

  predicate AnswerMoves(before: Option<Download>, asked: Request, response: Response, did: Did) {
    Idle(before, did) || Stops(did) || Takes(before, asked, response, did)
  }

  lemma {:induction false} OneMoreEvent(earlier: seq<Effect>, e: Event)
    requires FetchEvents(earlier) == []
    ensures FetchEvents(earlier + [Show(e)]) == if AboutFetch(e) then [e] else []
  {
    FetchEventsBoth(earlier, [Show(e)]);
  }

  lemma {:induction false} IgnoredAlone()
    ensures FetchEvents([Show(Ignored)]) == []
  {
  }

  lemma {:induction false} HelloMoves(c: Client, wire: nat, asked: Request, earlier: seq<Effect>, env: Env)
    requires FetchEvents(earlier) == []
    ensures Idle(c.download, OnAnswer(c, asked, Response.Hello(wire), earlier, env))
  {
    var stopped := GiveUpStalled(c.(link := c.link.(hello := None, phoneWire := Some(wire))), Some(wire));
    FetchEventsBoth(earlier, stopped.effects);
    OneMoreEvent(earlier + stopped.effects, Wire(Some(wire)));
  }

  lemma {:induction false} RefusedMoves(c: Client, asked: Request, earlier: seq<Effect>)
    requires FetchEvents(earlier) == []
    ensures Idle(c.download, OnRefused(c, asked, earlier)) || Stops(OnRefused(c, asked, earlier))
  {
    OneMoreEvent(earlier, FetchStopped);
    OneMoreEvent(earlier, SendStopped);
    OneMoreEvent(earlier, Event.Refused);
  }

  lemma {:induction false} PlainAnswerMoves(c: Client, asked: Request, response: Response, earlier: seq<Effect>, env: Env)
    requires FetchEvents(earlier) == [] && !response.FileChunk? && !response.Staged? && !response.FileOffer?
    requires !(response.Done? && asked.FilePut?) && !response.Hello? && !response.Refused?
    ensures Idle(c.download, OnAnswer(c, asked, response, earlier, env))
  {
    hide CC.CacheState.RememberChats, CC.CacheState.RememberPage, CC.CacheState.RememberAvatar, OnRefused, FetchEvents;
    var did := OnAnswer(c, asked, response, earlier, env);
    IgnoredAlone();
    if |did.effects| == |earlier| + 1 && did.effects[|earlier|].Show? {
      OneMoreEvent(earlier, did.effects[|earlier|].event);
      assert did.effects == [Show(Ignored)] || did.effects == earlier + [Show(did.effects[|earlier|].event)];
    }
  }

  lemma {:induction false} OnAnswerMoves(c: Client, asked: Request, response: Response, earlier: seq<Effect>, env: Env)
    requires FetchEvents(earlier) == []
    ensures AnswerMoves(c.download, asked, response, OnAnswer(c, asked, response, earlier, env))
  {
    hide OnChunk, OnStaged, OnStored, OnOffered, OnRefused, GiveUpStalled, Eaten, SaturatingMul;
    if response.FileChunk? {
      ChunkTakes(c, asked, response.index, response.bytes, env);
      FetchEventsBoth(earlier, OnChunk(c, asked, response.index, response.bytes, env).effects);
    } else if response.Staged? {
      StagedIdle(c, response.files, env);
      FetchEventsBoth(earlier, OnStaged(c, response.files, env).effects);
    } else if response.FileOffer? {
      OfferedIdle(c, response.fileId, response.chunkTotal, response.chunkBytes, earlier, env);
    } else if response.Done? && asked.FilePut? {
      StoredIdle(c, asked.fileId, earlier, env);
    } else if response.Hello? {
      HelloMoves(c, response.wire, asked, earlier, env);
    } else if response.Refused? {
      RefusedMoves(c, asked, earlier);
    } else {
      PlainAnswerMoves(c, asked, response, earlier, env);
    }
  }

  lemma {:induction false} OvertakenIdle(c: Client, id: nat)
    ensures FetchEvents(Overtaken(c, id).effects) == [] && Overtaken(c, id).client.download == c.download
  {
    if c.link.hello.Some? && id > c.link.hello.value {
      var ancient := c.(link := c.link.(hello := None, outstanding := c.link.outstanding - {c.link.hello.value}, phoneWire := Some(0)));
      FetchEventsBoth([Show(Wire(None))], GiveUpStalled(ancient, None).effects);
    }
  }

  /** The whole of what one input can mean to the download. */
  predicate Moves(c: Client, input: Input, did: Did) {
    Idle(c.download, did) || Stops(did) || FileWentAway(c.download, did) || Begins(c.download, input, did) ||
    (input.Received? && input.frame.Data? && input.frame.content.Answer? && input.frame.content.id in c.link.outstanding &&
     Takes(c.download, c.link.outstanding[input.frame.content.id], input.frame.content.response, did))
  }

  lemma {:induction false} NewsMoves(c: Client, n: Notice, env: Env)
    requires c.link.session
    ensures var did := Did(Noted(c, n), [Show(Noticed(n))]); Idle(c.download, did) || FileWentAway(c.download, did)
  {
    hide CC.CacheState.FileGone, CC.CacheState.FileProgress, CC.CacheState.Arrived, CC.CacheState.RememberAvatar;
    OneMoreEvent([], Noticed(n));
    assert [] + [Show(Noticed(n))] == [Show(Noticed(n))];
  }

  lemma {:induction false} ResponseMoves(c: Client, id: nat, response: Response, env: Env)
    requires c.link.session
    ensures Moves(c, Received(Data(Answer(id, response))), OnResponse(c, id, response, env))
  {
    hide OnAnswer, Overtaken, Takes;
    if id in c.link.outstanding {
      var less := c.(link := c.link.(outstanding := c.link.outstanding - {id}));
      OvertakenIdle(less, id);
      var first := Overtaken(less, id);
      OnAnswerMoves(first.client, c.link.outstanding[id], response, first.effects, env);
    }
  }

  lemma {:induction false} FrameMoves(c: Client, frame: Frame, env: Env)
    ensures Moves(c, Received(frame), OnFrame(c, frame, env))
  {
    hide OnLinked, OnResponse, Takes, Noted;
    match frame
    case Handshake(intact, agrees) => LinkedIdle(c, env);
    case Data(Answer(id, response)) => if c.link.session { ResponseMoves(c, id, response, env); }
    case Data(News(notice)) => if c.link.session { NewsMoves(c, notice, env); }
    case Farewell(opens) => FarewellIdle(c);
    case _ =>
  }

  lemma {:induction false} FarewellIdle(c: Client)
    ensures Idle(c.download, Did(OnRevoked(c), [Show(Noticed(Notice.Revoked))]))
  {
  }

  lemma {:induction false} CancelFetchMoves(c: Client)
    ensures Idle(c.download, OnCancelFetch(c)) || Stops(OnCancelFetch(c))
  {
    IgnoredAlone();
    if c.download.Some? {
      var told := FetchCancelled(c.download.value.fileId);
      OneMoreEvent([], told);
      assert [] + [Show(told)] == [Show(told)];
    }
  }

  lemma {:induction false} ReachIdle(c: Client, env: Env)
    ensures Idle(c.download, OnReach(c, env))
  {
  }

  lemma {:induction false} StepMoves(c: Client, input: Input, env: Env)
    ensures Moves(c, input, Step(c, input, env))
  {
    hide OnAsk, OnFrame, AnySend, Takes, OnLost, OnReach, OnCancelFetch, OnCancelSend;
    match input
    case Received(frame) => FrameMoves(c, frame, env);
    case Ask(request) => AskTellsNothing(c.link, c.cache, request, env);
    case Fetch(fileId, chunkTotal, chunkBytes) =>
      AskTellsNothing(c.link, c.cache, ChunkRequest(Download(fileId, 0, chunkTotal, chunkBytes, false)), env);
    case Send(chat, items, _) => if items != [] { AskTellsNothing(c.link, c.cache, Offer(chat, items[0]), env); }
    case PutChunk(index, bytes) =>
      if c.upload.Some? && c.upload.value.Current().Some? {
        AskTellsNothing(c.link, c.cache, Request.FilePut(c.upload.value.Current().value, index, bytes), env);
      }
    case CancelSend => CancelSendIdle(c, env);
    case Lost => LostIdle(c);
    case Reach => ReachIdle(c, env);
    case CancelFetch => CancelFetchMoves(c);
    case _ =>
  }

  lemma {:induction false} CancelSendIdle(c: Client, env: Env)
    ensures Idle(c.download, OnCancelSend(c, env))
  {
    if c.upload.Some? { AbortTellsNothing(c.link, c.cache, c.upload.value.ids, env); }
  }

  lemma {:induction false} LostIdle(c: Client)
    ensures Idle(c.download, OnLost(c))
  {
    var sending := if c.upload.Some? then [Show(SendPaused)] else [];
    var fetching := if c.download.Some? then [Show(FetchPaused)] else [];
    FetchEventsBoth(sending, fetching);
    FetchEventsBoth(sending + fetching, if c.link.session then [Show(Unlinked)] else []);
  }
}
