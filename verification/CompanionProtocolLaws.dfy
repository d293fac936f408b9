/** What every step of the terminal keeps, whatever comes over the wire and whenever. */
module CompanionProtocolLaws {
  import opened Bytes
  import opened CompanionProtocol
  import CC = CompanionCache

  // ---- the link ----

  /** A session is a channel; a handshake is under way only without one; what is unanswered was asked over
      the one there is, under numbers already given out. */
  predicate LinkSound(l: Link) {
    l.session == l.connected && l.nextId >= 1 && |l.outstanding| <= MAX_OUTSTANDING &&
    (l.pending ==> !l.session) && (!l.session ==> l.outstanding == map[] && l.hello.None?) &&
    (forall id | id in l.outstanding :: id < l.nextId) &&
    (l.hello.Some? ==> l.hello.value < l.nextId && (l.hello.value in l.outstanding ==> l.outstanding[l.hello.value].Hello?)) &&
    (l.revoked ==> !l.pending && !l.session)
  }

  predicate Asks(l: Link, r: Request) {
    exists id | id in l.outstanding :: l.outstanding[id] == r
  }

  /** A download that is not waiting has exactly the chunk it waits for on order. */
  predicate DownloadSound(c: Client) {
    c.download.Some? && !c.download.value.stalled ==> c.link.session && Asks(c.link, ChunkRequest(c.download.value))
  }

  predicate UploadSound(c: Client) {
    c.upload.Some? ==> c.upload.value.items != [] && (!c.upload.value.stalled ==> c.link.session)
  }

  predicate NothingLeft(c: Client) {
    c.upload.None? && c.download.None? && c.cache == CC.EMPTY
  }

  predicate Sound(c: Client) {
    LinkSound(c.link) && DownloadSound(c) && UploadSound(c) && (c.link.revoked ==> NothingLeft(c))
  }

  /** What the phone must not do: answer a request for a chunk with anything but that chunk or a refusal. */
  predicate InKind(asked: Request, response: Response) {
    asked.FileChunk? ==> response.Refused? || (response.FileChunk? && response.index == asked.index)
  }

  predicate Honest(c: Client, input: Input) {
    input.Received? && input.frame.Data? && input.frame.content.Answer? && input.frame.content.id in c.link.outstanding ==>
      InKind(c.link.outstanding[input.frame.content.id], input.frame.content.response)
  }

  // ---- asking ----

  function SendsOf(effects: seq<Effect>): seq<Outgoing> {
    if effects == [] then []
    else if effects[0].Send? then [effects[0].outgoing] + SendsOf(effects[1..])
    else SendsOf(effects[1..])
  }

  lemma {:induction false} SendsOfBoth(a: seq<Effect>, b: seq<Effect>)
    ensures SendsOf(a + b) == SendsOf(a) + SendsOf(b)
  {
    if a == [] {
      assert a + b == b;
    } else {
      SendsOfBoth(a[1..], b);
      assert (a + b)[1..] == a[1..] + b;
    }
  }

  lemma {:induction false} AnySendIsSends(effects: seq<Effect>)
    ensures AnySend(effects) <==> SendsOf(effects) != []
  {
    if effects != [] {
      AnySendIsSends(effects[1..]);
      if AnySend(effects) {
        var i :| 0 <= i < |effects| && effects[i].Send?;
        if i > 0 { assert effects[1..][i - 1].Send?; }
      }
      if AnySend(effects[1..]) {
        var i :| 0 <= i < |effects| - 1 && effects[1..][i].Send?;
        assert effects[i + 1].Send?;
      }
    }
  }

  /** The link after a request that went out under the next number. */
  function AskedFor(l: Link, r: Request): Link {
    l.(nextId := l.nextId + 1, outstanding := l.outstanding[l.nextId := r])
  }

  lemma {:induction false} NothingSentYet(cache: CC.CacheState, r: Request, more: seq<Effect>)
    ensures SendsOf(CachedAnswer(cache, r)) == [] && SendsOf(CachedAnswer(cache, r) + more) == SendsOf(more)
  {
    SendsOfBoth(CachedAnswer(cache, r), more);
  }

  lemma {:induction false} PhoneAsked(l: Link, r: Request, shown: seq<Effect>, env: Env)
    requires SendsOf(shown) == []
    ensures var a := AskPhone(l, r, shown, env);
            if SendsOf(a.effects) != [] then a.link == AskedFor(l, r) && l.Live() && SendsOf(a.effects) == [Asked(l.nextId, r)] &&
                                             |l.outstanding| < MAX_OUTSTANDING
            else a.link == l || a.link == l.(nextId := l.nextId + 1)
  {
    SendsOfBoth(shown, [Show(NotLinked)]);
    SendsOfBoth(shown, [Show(Event.Refused)]);
    SendsOfBoth(shown, [Effect.Send(Asked(l.nextId, r))]);
    assert SendsOf([Effect.Send(Asked(l.nextId, r))]) == [Asked(l.nextId, r)];
  }

  /** A request goes out at most once, under the next number, over a live link with room; otherwise all
      that can change is that a number was spent. */
  lemma {:induction false} AskGoesOut(l: Link, cache: CC.CacheState, r: Request, env: Env)
    ensures var a := OnAsk(l, cache, r, env);
            if AnySend(a.effects) then a.link == AskedFor(l, r) && l.Live() && !l.revoked && SendsOf(a.effects) == [Asked(l.nextId, r)] &&
                                       |l.outstanding| < MAX_OUTSTANDING
            else SendsOf(a.effects) == [] && (a.link == l || a.link == l.(nextId := l.nextId + 1))
  {
    hide AnySend, CachedAnswer, AskPhone, AskedFor;
    AnySendIsSends(OnAsk(l, cache, r, env).effects);
    NothingSentYet(cache, r, []);
    NothingSentYet(cache, r, [Show(Event.Refused)]);
    PhoneAsked(l, r, CachedAnswer(cache, r), env);
  }

  lemma {:induction false} AskedForSound(l: Link, r: Request)
    requires LinkSound(l) && l.session && |l.outstanding| < MAX_OUTSTANDING
    ensures LinkSound(AskedFor(l, r)) && Asks(AskedFor(l, r), r)
    ensures forall q | Asks(l, q) :: Asks(AskedFor(l, r), q)
  {
    var m := AskedFor(l, r);
    assert m.outstanding.Keys == l.outstanding.Keys + {l.nextId};
    assert m.outstanding[l.nextId] == r;
    forall q | Asks(l, q) ensures Asks(m, q) {
      var id :| id in l.outstanding && l.outstanding[id] == q;
      assert m.outstanding[id] == q;
    }
  }

  lemma {:induction false} NumberSpentSound(l: Link)
    requires LinkSound(l)
    ensures LinkSound(l.(nextId := l.nextId + 1))
    ensures forall q | Asks(l, q) :: Asks(l.(nextId := l.nextId + 1), q)
  {
  }

  /** Asking keeps the link sound and everything already on order. */
  lemma {:induction false} AskSound(l: Link, cache: CC.CacheState, r: Request, env: Env)
    requires LinkSound(l)
    ensures var a := OnAsk(l, cache, r, env);
            LinkSound(a.link) && (AnySend(a.effects) ==> a.link.session && Asks(a.link, r)) &&
            (forall q | Asks(l, q) :: Asks(a.link, q)) && a.link.session == l.session && a.link.revoked == l.revoked &&
            a.link.hello == l.hello && a.link.pending == l.pending && l.nextId <= a.link.nextId
  {
    hide OnAsk, Asks, LinkSound;
    AskGoesOut(l, cache, r, env);
    SoundIsEven(l);
    if AnySend(OnAsk(l, cache, r, env).effects) { AskedForSound(l, r); } else { NumberSpentSound(l); }
  }

  lemma {:induction false} SoundIsEven(l: Link)
    requires LinkSound(l)
    ensures l.session == l.connected == l.Live()
  {
  }

  // ---- handlers, before revocation ----

  lemma {:induction false} SendSound(c: Client, chat: Id, items: seq<OutgoingItem>, text: Text, env: Env)
    requires Sound(c) && !c.link.revoked
    ensures Sound(OnSend(c, chat, items, text, env).client)
  {
    hide OnAsk, Asks, LinkSound, NothingLeft, AnySend;
    if c.upload.None? && items != [] {
      AskSound(c.link, c.cache, Offer(chat, items[0]), env);
    }
  }

  lemma {:induction false} AdvanceSound(c: Client, env: Env)
    requires Sound(c) && !c.link.revoked
    ensures Sound(AdvanceUpload(c, env).client)
  {
    hide OnAsk, Asks, LinkSound, NothingLeft, AnySend;
    if c.upload.Some? {
      var u := c.upload.value.(at := c.upload.value.at + 1);
      AskSound(c.link, c.cache, if u.at < |u.items| then Offer(u.chat, u.items[u.at]) else Request.FileSend(u.ids, u.text), env);
    }
  }

  lemma {:induction false} PutChunkSound(c: Client, index: nat, bytes: seq<Byte>, env: Env)
    requires Sound(c) && !c.link.revoked
    ensures Sound(OnPutChunk(c, index, bytes, env).client)
  {
    hide OnAsk, Asks, LinkSound, NothingLeft, AnySend;
    if c.upload.Some? && c.upload.value.Current().Some? {
      AskSound(c.link, c.cache, Request.FilePut(c.upload.value.Current().value, index, bytes), env);
    }
  }

  lemma {:induction false} AbortSound(l: Link, cache: CC.CacheState, ids: seq<Id>, env: Env)
    requires LinkSound(l)
    ensures var a := AbortEach(l, cache, ids, env);
            LinkSound(a.link) && a.link.session == l.session && a.link.revoked == l.revoked && l.nextId <= a.link.nextId &&
            forall q | Asks(l, q) :: Asks(a.link, q)
    decreases |ids|
  {
    hide OnAsk, Asks, LinkSound, AnySend;
    if ids != [] {
      AskSound(l, cache, FileAbort(ids[0]), env);
      AbortSound(OnAsk(l, cache, FileAbort(ids[0]), env).link, cache, ids[1..], env);
    }
  }

  lemma {:induction false} CancelSendSound(c: Client, env: Env)
    requires Sound(c) && !c.link.revoked
    ensures Sound(OnCancelSend(c, env).client)
  {
    hide OnAsk, Asks, LinkSound, NothingLeft, AnySend;
    if c.upload.Some? { AbortSound(c.link, c.cache, c.upload.value.ids, env); }
  }

  lemma {:induction false} FetchSound(c: Client, fileId: Id, chunkTotal: nat, chunkBytes: u64, env: Env)
    requires Sound(c) && !c.link.revoked
    ensures Sound(OnFetch(c, fileId, chunkTotal, chunkBytes, env).client)
  {
    hide OnAsk, Asks, LinkSound, NothingLeft, AnySend;
    AskSound(c.link, c.cache, ChunkRequest(Download(fileId, 0, chunkTotal, chunkBytes, false)), env);
  }

  lemma {:induction false} LostSound(c: Client)
    requires Sound(c)
    ensures Sound(OnLost(c).client)
  {
    hide Asks;
  }

  lemma {:induction false} ResumeSound(c: Client, env: Env)
    requires Sound(c) && !c.link.revoked
    ensures Sound(ResumeFetch(c, env).client)
  {
    hide OnAsk, Asks, LinkSound, NothingLeft, AnySend;
    if c.download.Some? { AskSound(c.link, c.cache, ChunkRequest(c.download.value.(stalled := false)), env); }
  }

  lemma {:induction false} GreetSound(l: Link, cache: CC.CacheState, env: Env)
    requires LinkSound(l) && l.hello.None?
    ensures var m := MarkHello(OnAsk(l, cache, Request.Hello, env));
            LinkSound(m) && m.session == l.session && m.revoked == l.revoked && l.nextId <= m.nextId
  {
    hide OnAsk;
    AskGoesOut(l, cache, Request.Hello, env);
    if AnySend(OnAsk(l, cache, Request.Hello, env).effects) { AskedForSound(l, Request.Hello); }
  }

  lemma {:induction false} FreshLinkSound(l: Link)
    requires LinkSound(l) && l.pending && !l.revoked
    ensures var m := l.(pending := false, session := true, connected := true, outstanding := map[]);
            LinkSound(m) && m.hello.None?
  {
  }

  /** A download carried over a handshake was waiting, for there was no link. */
  lemma {:induction false} LinkedSound(c: Client, env: Env)
    requires Sound(c) && !c.link.revoked && c.link.pending
    ensures Sound(OnLinked(c, env).client)
  {
    hide OnAsk, Asks, NothingLeft, AnySend, MarkHello;
    PendingIsUnlinked(c);
    var link := c.link.(pending := false, session := true, connected := true, outstanding := map[]);
    FreshLinkSound(c.link);
    GreetSound(link, c.cache, env);
    var greeted := MarkHello(OnAsk(link, c.cache, Request.Hello, env));
    AskSound(greeted, c.cache, Request.Chats, env);
    var chats := OnAsk(greeted, c.cache, Request.Chats, env);
    AskSound(chats.link, c.cache, Request.Staged, env);
    ResumeSound(c.(link := if c.upload.Some? then OnAsk(chats.link, c.cache, Request.Staged, env).link else chats.link), env);
  }

  lemma {:induction false} PendingIsUnlinked(c: Client)
    requires Sound(c) && c.link.pending
    ensures !c.link.session && (c.download.Some? ==> c.download.value.stalled) && (c.upload.Some? ==> c.upload.value.stalled)
  {
  }

  // ---- answers ----

  /** Everything on order but what was just answered stays on order. */
  ghost predicate StillAsks(l: Link, m: Link, asked: Request) {
    forall q | Asks(l, q) && q != asked && !q.Hello? :: Asks(m, q)
  }

  lemma {:induction false} AnsweredSound(l: Link, id: nat)
    requires LinkSound(l) && id in l.outstanding
    ensures var m := l.(outstanding := l.outstanding - {id}); LinkSound(m) && m.session && StillAsks(l, m, l.outstanding[id])
  {
    var m := l.(outstanding := l.outstanding - {id});
    assert l.outstanding.Keys == m.outstanding.Keys + {id};
    forall q | Asks(l, q) && q != l.outstanding[id] ensures Asks(m, q) {
      var other :| other in l.outstanding && l.outstanding[other] == q;
      assert m.outstanding[other] == q;
    }
  }

  lemma {:induction false} OvertakenLinkSound(l: Link)
    requires LinkSound(l) && l.hello.Some? && l.session
    ensures var m := l.(hello := None, outstanding := l.outstanding - {l.hello.value}, phoneWire := Some(0));
            LinkSound(m) && forall q | Asks(l, q) && !q.Hello? :: Asks(m, q)
  {
    var m := l.(hello := None, outstanding := l.outstanding - {l.hello.value}, phoneWire := Some(0));
    if l.hello.value in l.outstanding {
      assert l.outstanding.Keys == m.outstanding.Keys + {l.hello.value};
    } else {
      assert m.outstanding == l.outstanding;
    }
    forall q | Asks(l, q) && !q.Hello? ensures Asks(m, q) {
      var other :| other in l.outstanding && l.outstanding[other] == q;
      assert m.outstanding[other] == q;
    }
  }

  /** The state in which an answer is taken: sound but for the download, whose order it may have been. */
  ghost predicate Answering(c: Client, before: Client, asked: Request) {
    LinkSound(c.link) && c.link.session && !c.link.revoked && UploadSound(c) && c.download == before.download &&
    StillAsks(before.link, c.link, asked)
  }

  lemma {:induction false} OvertakenSound(c: Client, id: nat)
    requires Sound(c) && id in c.link.outstanding
    ensures Answering(Overtaken(c.(link := c.link.(outstanding := c.link.outstanding - {id})), id).client, c, c.link.outstanding[id])
  {
    hide Asks, LinkSound, NothingLeft;
    AnsweredSound(c.link, id);
    var l := c.link.(outstanding := c.link.outstanding - {id});
    RevokedIsUnlinked(l);
    if l.hello.Some? { OvertakenLinkSound(l); }
  }

  lemma {:induction false} RevokedIsUnlinked(l: Link)
    requires LinkSound(l)
    ensures l.revoked ==> !l.session && !l.pending
  {
  }

  /** The download's own order was not the one answered. */
  lemma {:induction false} OtherAnswerSound(c: Client, before: Client, asked: Request)
    requires Sound(before) && Answering(c, before, asked)
    requires before.download.Some? && !before.download.value.stalled ==> asked != ChunkRequest(before.download.value)
    ensures Sound(c)
  {
    hide Asks, LinkSound, NothingLeft;
  }

  lemma {:induction false} NoDownloadSound(c: Client, before: Client, asked: Request)
    requires Answering(c, before, asked)
    ensures Sound(c.(download := None))
  {
    hide Asks, LinkSound, NothingLeft;
  }

  lemma {:induction false} ChunkSound(c: Client, before: Client, asked: Request, index: nat, bytes: seq<Byte>, env: Env)
    requires Sound(before) && Answering(c, before, asked) && InKind(asked, Response.FileChunk(index, bytes))
    ensures Sound(OnChunk(c, asked, index, bytes, env).client)
  {
    hide OnAsk, Asks, LinkSound, NothingLeft, AnySend, Eaten;
    if !asked.FileChunk? || c.download.None? || c.download.value.stalled || asked.fileId != c.download.value.fileId ||
       index != asked.index || index != c.download.value.next {
      OtherAnswerSound(c, before, asked);
    } else {
      var next := index + Eaten(|bytes|, c.download.value.chunkBytes);
      AskSound(c.link, c.cache, ChunkRequest(c.download.value.(next := next)), env);
    }
  }

  lemma {:induction false} StoredSound(c: Client, fileId: Id, earlier: seq<Effect>, env: Env)
    requires Sound(c) && !c.link.revoked && c.link.session
    ensures Sound(OnStored(c, fileId, earlier, env).client)
  {
    hide OnAsk, Asks, LinkSound, NothingLeft, AnySend, AdvanceUpload;
    if c.upload.Some? {
      var u := c.upload.value.(next := c.upload.value.next + 1);
      AdvanceSound(c.(upload := Some(u)), env);
    }
  }

  lemma {:induction false} OfferedSound(c: Client, fileId: Id, chunkTotal: nat, chunkBytes: u64, earlier: seq<Effect>, env: Env)
    requires Sound(c) && !c.link.revoked && c.link.session
    ensures Sound(OnOffered(c, fileId, chunkTotal, chunkBytes, earlier, env).client)
  {
    hide OnAsk, Asks, LinkSound, NothingLeft, AnySend, AdvanceUpload;
    if c.upload.Some? {
      var u := c.upload.value;
      var begun := u.(ids := u.ids + [fileId], total := chunkTotal, chunkBytes := chunkBytes, next := 0);
      AdvanceSound(c.(upload := Some(begun)), env);
    }
  }

  lemma {:induction false} StagedSound(c: Client, files: seq<StagedFile>, env: Env)
    requires Sound(c) && !c.link.revoked && c.link.session
    ensures Sound(OnStaged(c, files, env).client)
  {
    hide OnAsk, Asks, LinkSound, NothingLeft, AnySend, AdvanceUpload, FindStaged, FirstUnfinished;
    if c.upload.Some? {
      var u := c.upload.value.(stalled := false);
      var at := FirstUnfinished(u, files, 0);
      AdvanceSound(c.(upload := Some(u.(at := |u.items| - 1))), env);
      if at < |u.items| { AskSound(c.link, c.cache, Offer(u.chat, u.items[at]), env); }
    }
  }

  lemma {:induction false} HelloSound(c: Client, wire: nat)
    requires Sound(c) && !c.link.revoked
    ensures Sound(GiveUpStalled(c.(link := c.link.(hello := None, phoneWire := Some(wire))), Some(wire)).client)
  {
    var m := c.link.(hello := None, phoneWire := Some(wire));
    assert forall q | Asks(c.link, q) :: Asks(m, q);
  }

  lemma {:induction false} AnswerSound(c: Client, before: Client, asked: Request, response: Response, earlier: seq<Effect>, env: Env)
    requires Sound(before) && Answering(c, before, asked) && InKind(asked, response)
    ensures Sound(OnAnswer(c, asked, response, earlier, env).client)
  {
    hide OnAsk, Asks, LinkSound, NothingLeft, AnySend, OnStaged, OnStored, OnOffered, OnChunk, GiveUpStalled;
    if asked.FileChunk? {
      if response.FileChunk? {
        ChunkSound(c, before, asked, response.index, response.bytes, env);
      } else {
        NoDownloadSound(c, before, asked);
      }
    } else {
      OtherAnswerSound(c, before, asked);
      match response
      case Hello(wire) => HelloSound(c, wire);
      case FileOffer(fileId, chunkTotal, chunkBytes) => OfferedSound(c, fileId, chunkTotal, chunkBytes, earlier, env);
      case Done => if asked.FilePut? { StoredSound(c, asked.fileId, earlier, env); }
      case FileChunk(index, bytes) => ChunkSound(c, before, asked, index, bytes, env);
      case Staged(files) => StagedSound(c, files, env);
      case _ =>
    }
  }

  lemma {:induction false} NotedSound(c: Client, n: Notice)
    requires Sound(c) && c.link.session
    ensures Sound(Noted(c, n))
  {
    hide Asks;
  }

  // ---- every step ----

  lemma {:induction false} FrameSound(c: Client, frame: Frame, env: Env)
    requires Sound(c) && !c.link.revoked && Honest(c, Received(frame))
    ensures Sound(OnFrame(c, frame, env).client)
  {
    hide OnAsk, Asks, NothingLeft, AnySend, OnLinked, OnAnswer, Overtaken, Noted, InKind;
    match frame
    case Handshake(intact, agrees) => if c.link.pending { LinkedSound(c, env); PendingIsUnlinked(c); }
    case Farewell(opens) => FarewellSound(c);
    case Data(content) =>
      match content {
        case Answer(id, response) =>
          if c.link.session && id in c.link.outstanding {
            OvertakenSound(c, id);
            var asked := c.link.outstanding[id];
            var first := Overtaken(c.(link := c.link.(outstanding := c.link.outstanding - {id})), id);
            AnswerSound(first.client, c, asked, response, first.effects, env);
          }
        case News(notice) => if c.link.session { NotedSound(c, notice); }
        case _ =>
      }
    case _ =>
  }

  lemma {:induction false} FarewellSound(c: Client)
    requires Sound(c)
    ensures Sound(OnRevoked(c))
  {
  }

  /** Once revoked: no session, no transfer, an empty cache, and nothing said to the phone. */
  lemma {:induction false} RevokedStays(c: Client, input: Input, env: Env)
    requires Sound(c) && c.link.revoked
    ensures var did := Step(c, input, env);
            Sound(did.client) && did.client.link.revoked && !did.client.link.Live() && NothingLeft(did.client) && SendsOf(did.effects) == []
  {
    hide Asks;
    match input
    case Ask(request) => AskGoesOut(c.link, c.cache, request, env);
    case Fetch(fileId, chunkTotal, chunkBytes) =>
      AskGoesOut(c.link, c.cache, ChunkRequest(Download(fileId, 0, chunkTotal, chunkBytes, false)), env);
    case Send(chat, items, text) => if items != [] { AskGoesOut(c.link, c.cache, Offer(chat, items[0]), env); }
    case _ =>
  }

  /** Every step keeps all of it. */
  lemma {:induction false} StepSound(c: Client, input: Input, env: Env)
    requires Sound(c) && Honest(c, input)
    ensures Sound(Step(c, input, env).client)
  {
    hide OnAsk, Asks, NothingLeft, AnySend, OnFrame, OnSend, OnPutChunk, OnCancelSend, OnFetch;
    if c.link.revoked {
      RevokedStays(c, input, env);
    } else {
      match input
      case Received(frame) => FrameSound(c, frame, env);
      case Lost => LostSound(c);
      case Ask(request) => AskSound(c.link, c.cache, request, env);
      case Fetch(fileId, chunkTotal, chunkBytes) => FetchSound(c, fileId, chunkTotal, chunkBytes, env);
      case Send(chat, items, text) => SendSound(c, chat, items, text, env);
      case PutChunk(index, bytes) => PutChunkSound(c, index, bytes, env);
      case CancelSend => CancelSendSound(c, env);
      case Reach => ReachSound(c, env);
      case _ =>
    }
  }

  lemma {:induction false} ReachSound(c: Client, env: Env)
    requires Sound(c)
    ensures Sound(OnReach(c, env).client)
  {
  }
}
