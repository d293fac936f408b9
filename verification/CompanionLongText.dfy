/** A text too long for a message is looked at only when everything else of the message is already there. */
module CompanionLongText {
  import opened Bytes
  import opened CompanionProtocol
  import opened CompanionProtocolLaws
  import opened CompanionDriver
  import opened CompanionDownloadRuns
  import opened CompanionUploadFeed
  import opened CompanionUploadRuns
  import L = CompanionLateAnswer
  import F = CompanionUploadFinish
  import R = CompanionRuns
  import V = CompanionResume
  import CC = CompanionCache

  // ---- no longer text ever waits ----

  predicate Fits(r: Request) {
    r.FileSend? ==> |r.text| <= MAX_TEXT_BYTES
  }

  predicate Short(l: Link) {
    forall id | id in l.outstanding :: Fits(l.outstanding[id])
  }

  lemma {:induction false} AskShort(l: Link, cache: CC.CacheState, r: Request, env: Env)
    requires Short(l)
    ensures Short(OnAsk(l, cache, r, env).link)
  {
    hide CachedAnswer;
  }

  lemma {:induction false} AdvanceShort(c: Client, env: Env)
    requires Short(c.link)
    ensures Short(AdvanceUpload(c, env).client.link)
  {
    hide OnAsk, Short;
    if c.upload.Some? {
      var u := c.upload.value.(at := c.upload.value.at + 1);
      AskShort(c.link, c.cache, if u.at < |u.items| then Offer(u.chat, u.items[u.at]) else Request.FileSend(u.ids, u.text), env);
    }
  }

  lemma {:induction false} AbortShort(l: Link, cache: CC.CacheState, ids: seq<Id>, env: Env)
    requires Short(l)
    ensures Short(AbortEach(l, cache, ids, env).link)
    decreases |ids|
  {
    hide OnAsk, Short;
    if ids != [] {
      AskShort(l, cache, FileAbort(ids[0]), env);
      AbortShort(OnAsk(l, cache, FileAbort(ids[0]), env).link, cache, ids[1..], env);
    }
  }

  lemma {:induction false} ResumeShort(c: Client, env: Env)
    requires Short(c.link)
    ensures Short(ResumeFetch(c, env).client.link)
  {
    hide OnAsk, Short, AnySend;
    if c.download.Some? { AskShort(c.link, c.cache, ChunkRequest(c.download.value.(stalled := false)), env); }
  }

  lemma {:induction false} MarkShort(a: Asking)
    requires Short(a.link)
    ensures Short(MarkHello(a))
  {
  }

  lemma {:induction false} LinkedShort(c: Client, env: Env)
    ensures Short(OnLinked(c, env).client.link)
  {
    hide OnAsk, Short, MarkHello, ResumeFetch;
    var link := c.link.(pending := false, session := true, connected := true, outstanding := map[]);
    NothingIsShort(link);
    var hello := OnAsk(link, c.cache, Request.Hello, env);
    AskShort(link, c.cache, Request.Hello, env);
    MarkShort(hello);
    var chats := OnAsk(MarkHello(hello), c.cache, Request.Chats, env);
    AskShort(MarkHello(hello), c.cache, Request.Chats, env);
    AskShort(chats.link, c.cache, Request.Staged, env);
    ResumeShort(c.(link := if c.upload.Some? then OnAsk(chats.link, c.cache, Request.Staged, env).link else chats.link), env);
  }

  lemma {:induction false} NothingIsShort(l: Link)
    requires l.outstanding == map[]
    ensures Short(l)
  {
  }

  lemma {:induction false} FewerIsShort(l: Link, m: Link)
    requires Short(l) && forall id | id in m.outstanding :: id in l.outstanding && m.outstanding[id] == l.outstanding[id]
    ensures Short(m)
  {
  }

  lemma {:induction false} StoredShort(c: Client, fileId: Id, earlier: seq<Effect>, env: Env)
    requires Short(c.link)
    ensures Short(OnStored(c, fileId, earlier, env).client.link)
  {
    hide AdvanceUpload, Short;
    if c.upload.Some? { AdvanceShort(c.(upload := Some(c.upload.value.(next := c.upload.value.next + 1))), env); }
  }

  lemma {:induction false} OfferedShort(c: Client, fileId: Id, chunkTotal: nat, chunkBytes: u64, earlier: seq<Effect>, env: Env)
    requires Short(c.link)
    ensures Short(OnOffered(c, fileId, chunkTotal, chunkBytes, earlier, env).client.link)
  {
    hide AdvanceUpload, Short;
    if c.upload.Some? {
      var u := c.upload.value;
      AdvanceShort(c.(upload := Some(u.(ids := u.ids + [fileId], total := chunkTotal, chunkBytes := chunkBytes, next := 0))), env);
    }
  }

  lemma {:induction false} ChunkShort(c: Client, asked: Request, index: nat, bytes: seq<Byte>, env: Env)
    requires Short(c.link)
    ensures Short(OnChunk(c, asked, index, bytes, env).client.link)
  {
    hide OnAsk, Short, AnySend, Eaten;
    if c.download.Some? {
      AskShort(c.link, c.cache, ChunkRequest(c.download.value.(next := index + Eaten(|bytes|, c.download.value.chunkBytes))), env);
    }
  }

  lemma {:induction false} StagedShort(c: Client, files: seq<StagedFile>, env: Env)
    requires Short(c.link)
    ensures Short(OnStaged(c, files, env).client.link)
  {
    hide OnAsk, Short, AdvanceUpload, FindStaged, FirstUnfinished, Upload.Piece;
    if c.upload.Some? && c.upload.value.stalled {
      var u := c.upload.value.(stalled := false);
      var at := FirstUnfinished(u, files, 0);
      if at < |u.items| {
        AskShort(c.link, c.cache, Offer(u.chat, u.items[at]), env);
      } else if u.items != [] {
        AdvanceShort(c.(upload := Some(u.(at := |u.items| - 1))), env);
      }
    }
  }

  lemma {:induction false} AnswerShort(c: Client, asked: Request, response: Response, earlier: seq<Effect>, env: Env)
    requires Short(c.link)
    ensures Short(OnAnswer(c, asked, response, earlier, env).client.link)
  {
    hide OnStaged, OnStored, OnOffered, OnChunk, Short, CC.CacheState.RememberChats, CC.CacheState.RememberPage,
         CC.CacheState.RememberAvatar;
    match response
    case Hello(wire) => FewerIsShort(c.link, c.link.(hello := None, phoneWire := Some(wire)));
    case FileOffer(fileId, chunkTotal, chunkBytes) => OfferedShort(c, fileId, chunkTotal, chunkBytes, earlier, env);
    case Done => if asked.FilePut? { StoredShort(c, asked.fileId, earlier, env); }
    case FileChunk(index, bytes) => ChunkShort(c, asked, index, bytes, env);
    case Staged(files) => StagedShort(c, files, env);
    case _ =>
  }

  lemma {:induction false} OvertakenShort(c: Client, id: nat)
    requires Short(c.link)
    ensures Short(Overtaken(c, id).client.link)
  {
    hide Short;
    if c.link.hello.Some? {
      FewerIsShort(c.link, c.link.(hello := None, outstanding := c.link.outstanding - {c.link.hello.value}, phoneWire := Some(0)));
    }
  }

  lemma {:induction false} FrameShort(c: Client, frame: Frame, env: Env)
    requires Short(c.link)
    ensures Short(OnFrame(c, frame, env).client.link)
  {
    hide Short, OnLinked, OnAnswer, Overtaken, Noted;
    match frame
    case Handshake(_, _) =>
      LinkedShort(c, env);
      FewerIsShort(c.link, c.link.(pending := false));
    case Farewell(_) => NothingIsShort(OnRevoked(c).link);
    case Data(Answer(id, response)) =>
      if id in c.link.outstanding {
        var less := c.(link := c.link.(outstanding := c.link.outstanding - {id}));
        FewerIsShort(c.link, less.link);
        OvertakenShort(less, id);
        AnswerShort(Overtaken(less, id).client, c.link.outstanding[id], response, Overtaken(less, id).effects, env);
      }
    case Data(News(notice)) => NotedShort(c, notice);
    case _ =>
  }

  lemma {:induction false} NotedShort(c: Client, n: Notice)
    requires Short(c.link)
    ensures Short(Noted(c, n).link)
  {
    hide CC.CacheState.Arrived, CC.CacheState.RememberAvatar, CC.CacheState.FileProgress, CC.CacheState.FileGone,
         CC.CacheState.Gone, CC.CacheState.Edited, CC.CacheState.Reacted;
  }

  /** Whatever a terminal does, no message with a longer text is ever on order. */
  lemma {:induction false} StepShort(c: Client, input: Input, env: Env)
    requires Short(c.link)
    ensures Short(Step(c, input, env).client.link)
  {
    hide OnAsk, OnFrame, AnySend, AbortEach, Short;
    match input
    case Reach => FewerIsShort(c.link, c.link.(pending := true));
    case Received(frame) => FrameShort(c, frame, env);
    case Lost => NothingIsShort(OnLost(c).client.link);
    case Ask(request) => AskShort(c.link, c.cache, request, env);
    case Fetch(fileId, chunkTotal, chunkBytes) =>
      AskShort(c.link, c.cache, ChunkRequest(Download(fileId, 0, chunkTotal, chunkBytes, false)), env);
    case Send(chat, items, text) => if items != [] { AskShort(c.link, c.cache, Offer(chat, items[0]), env); }
    case PutChunk(index, bytes) =>
      if c.upload.Some? && c.upload.value.Current().Some? {
        AskShort(c.link, c.cache, Request.FilePut(c.upload.value.Current().value, index, bytes), env);
      }
    case CancelSend => if c.upload.Some? { AbortShort(c.link, c.cache, c.upload.value.ids, env); }
    case _ =>
  }

  // ---- in the world ----

  lemma {:induction false} FeedShort(d: Driver, queue: seq<Input>, rounds: nat, env: Env, luck: Luck)
    requires Short(d.client.link)
    ensures Short(Feed(d, queue, rounds, env, luck).client.link)
    decreases rounds
  {
    hide Short, Step, ShowAll;
    if rounds > 0 && queue != [] {
      StepShort(d.client, queue[0], env);
      var did := Step(d.client, queue[0], env);
      ShowKeepsClient(d.(client := did.client), did.effects, luck);
      var shown := Round(d, queue[0], env, luck);
      FeedShort(shown.driver, queue[1..] + shown.answers, rounds - 1, env, luck);
    }
  }

  lemma {:induction false} ObeyShort(d: Driver, c: Command, env: Env, luck: Luck)
    requires Short(d.client.link)
    ensures Short(Obey(d, c, env, luck).client.link)
  {
    hide Short, Feed, ItemsOf, PathsOf, AllThere;
    match c
    case SaveFile(fileId, chunkTotal, chunkBytes, path) =>
      var begun := d.(saving := Some(Saving(fileId, path, PartialName(path))), disk := d.disk[PartialName(path) := []]);
      FeedShort(begun, [Fetch(fileId, chunkTotal, chunkBytes)], FEED_ROUNDS, env, luck);
    case CancelSave => FeedShort(d, [CancelFetch], FEED_ROUNDS, env, luck);
    case SendFiles(chat, files, text) =>
      if AllThere(files, d.disk) {
        FeedShort(d.(sending := Some(Sending(PathsOf(files), 0))), [Input.Send(chat, ItemsOf(files, d.disk), text)], FEED_ROUNDS, env, luck);
      }
    case CancelSending => FeedShort(d.(sending := None), [CancelSend], FEED_ROUNDS, env, luck);
    case Through(input) => FeedShort(d, [input], FEED_ROUNDS, env, luck);
  }

  predicate AllShort(w: World) {
    Short(w.d.client.link) && forall id | id in w.sent :: Fits(w.sent[id].request)
  }

  lemma {:induction false} AfterShort(w: World, d: Driver)
    requires AllShort(w) && Short(d.client.link)
    ensures AllShort(AfterDriver(w, d))
  {
  }

  lemma {:induction false} NextShort(w: World, h: Happening)
    requires AllShort(w)
    ensures AllShort(Next(w, h))
  {
    hide Obey, Feed, Short, AfterDriver, Fits;
    match h
    case Does(command, env, luck) =>
      ObeyShort(w.d, command, env, luck);
      AfterShort(Opening(w, command), Obey(w.d, command, env, luck));
    case Arrives(id, response, env, luck) =>
      FeedShort(w.d, [R.Reply(id, response)], FEED_ROUNDS, env, luck);
      AfterShort(w, Feed(w.d, [R.Reply(id, response)], FEED_ROUNDS, env, luck));
    case _ =>
  }

  lemma {:induction false} ReachedShort(w: World, run: seq<Happening>)
    requires AllShort(w)
    ensures AllShort(Reached(w, run))
    decreases |run|
  {
    hide AllShort, Next;
    if run != [] {
      NextShort(w, run[0]);
      ReachedShort(Next(w, run[0]), run[1..]);
    }
  }

  lemma {:induction false} LongNeverGoes(w: World, src: map<Path, seq<Byte>>, from: nat, text: Text, paths: seq<Path>)
    requires AllShort(w) && F.CanGo(w, src, from, text, paths)
    ensures |text| <= MAX_TEXT_BYTES
  {
    hide AllShort;
    var run :| Fair(w, src, run) && F.Gone(Reached(w, run), from, text, paths);
    ReachedShort(w, run);
    GoneIsShort(Reached(w, run), from, text, paths);
  }

  lemma {:induction false} GoneIsShort(w: World, from: nat, text: Text, paths: seq<Path>)
    requires AllShort(w) && F.Gone(w, from, text, paths)
    ensures |text| <= MAX_TEXT_BYTES
  {
    hide Short;
    var id :| id in w.sent && w.sent[id].request.FileSend? && w.sent[id].request.text == text;
    assert Fits(w.sent[id].request);
  }

  /** A message on its way, in any state a fair run reaches from the start of a terminal, over a pairing not revoked: it can
      still be sent if and only if its text is at most 65221 bytes long. That is looked at when every file is already on the
      phone, not when the message is begun. */
  lemma {:induction false} SendableIff(address: CC.Address, disk: Disk, src: map<Path, seq<Byte>>, run: seq<Happening>, spare: seq<Id>)
    requires Fair(Beginning(address, disk), src, run)
    requires var w := Reached(Beginning(address, disk), run);
             w.d.client.upload.Some? && !w.d.client.link.revoked && L.Spare(w.st, spare, |w.d.client.upload.value.items|)
    ensures var w := Reached(Beginning(address, disk), run);
            F.CanGo(w, src, w.d.client.link.nextId, w.d.client.upload.value.text, PathsNow(w.d)) <==>
            |w.d.client.upload.value.text| <= 65221
  {
    hide Fair, Reached, F.CanGo, L.Spare, AllShort;
    var w := Reached(Beginning(address, disk), run);
    BeginningShort(address, disk);
    ReachedShort(Beginning(address, disk), run);
    if |w.d.client.upload.value.text| <= 65221 { F.AlwaysSendable(address, disk, src, run, spare); }
    if F.CanGo(w, src, w.d.client.link.nextId, w.d.client.upload.value.text, PathsNow(w.d)) {
      LongNeverGoes(w, src, w.d.client.link.nextId, w.d.client.upload.value.text, PathsNow(w.d));
    }
  }

  lemma {:induction false} BeginningShort(address: CC.Address, disk: Disk)
    ensures AllShort(Beginning(address, disk))
  {
  }

  /** And nothing is said of it when it begins: whether a message is begun does not depend on its text. */
  lemma {:induction false} BegunWhateverTheText(c: Client, chat: Id, items: seq<OutgoingItem>, text: Text, other: Text, env: Env)
    ensures var one, two := Step(c, Input.Send(chat, items, text), env), Step(c, Input.Send(chat, items, other), env);
            one.effects == two.effects && one.client.link == two.client.link && (c.upload.None? ==> one.client.upload.Some? == two.client.upload.Some?)
  {
    hide OnAsk, AnySend;
  }

  /** With the last file on the phone, a longer text is refused, and the message stays where it is. */
  lemma {:induction false} RefusedLast(c: Client, id: nat, env: Env)
    requires Sound(c) && id in c.link.outstanding && c.link.outstanding[id].FilePut? && c.upload.Some? && c.link.hello.None?
    requires var u := c.upload.value; u.next + 1 >= u.total && u.at + 1 >= |u.items| && |u.text| > 65221
    ensures var did, u := Step(c, R.Reply(id, Response.Done), env), c.upload.value;
            did.effects == [Show(Event.Refused)] && did.client.upload == Some(u.(next := u.next + 1, at := u.at + 1)) &&
            did.client.link == c.link.(outstanding := c.link.outstanding - {id})
  {
    hide LinkSound, DownloadSound, NothingLeft, CachedAnswer, AskPhone;
    V.SessionNeeded(c, id);
    assert [] + [Show(Event.Refused)] == [Show(Event.Refused)];
  }
}
