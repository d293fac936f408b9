/** The companion terminal as a step machine: one input, a new state, a list of effects. Keys, sealing and
    the reassembly of fragments stay outside: what a frame turned out to hold is part of the input. */
module CompanionProtocol {
  import opened Bytes
  import CC = CompanionCache

  type Id = CC.Id

  const MAX_OUTSTANDING := 64
  const MAX_ATTACHMENTS := 10
  const PREVIEW_LIMIT_BYTES := 32 * 1024
  const MAX_TEXT_BYTES := 65221
  const ASK_BYTES := 1048245
  const WIRE_VERSION := 22
  const STAGED_SINCE_WIRE := 9
  const AVATARS_SINCE_WIRE := 10
  const SET_AVATAR_SINCE_WIRE := 11

  type Text = seq<Byte>

  type Address = CC.Address

  datatype OutgoingItem = OutgoingItem(name: Text, sizeBytes: u64, preview: Option<seq<Byte>>)

  datatype StagedFile = StagedFile(fileId: Id, chunkTotal: nat, missing: seq<nat>)

  // ---- what is said over the wire ----

  datatype Request =
    | Hello
    | Chats
    | History(chat: Id, limit: nat, before: Option<Id>)
    | SendText(chat: Id, text: Text)
    | SendReply(chat: Id, replyTo: Id, text: Text)
    | EditMessage(chat: Id, msgId: Id, text: Text)
    | FileChunk(fileId: Id, index: nat, count: nat)
    | FileOffer(chat: Id, name: Text, sizeBytes: u64, preview: Option<seq<Byte>>)
    | FilePut(fileId: Id, index: nat, bytes: seq<Byte>)
    | FileSend(fileIds: seq<Id>, text: Text)
    | FileAbort(fileId: Id)
    | Staged
    | FilePreview(fileId: Id)
    | Avatar(of: Option<Id>)
    | SetMyAvatar(bytes: seq<Byte>)
    | Members(chat: Id)
    | Other(kind: nat)

  datatype Response =
    | Hello(wire: nat)
    | Chats(chats: seq<CC.ChatSummary>)
    | History(page: seq<CC.Message>)
    | Done
    | Refused
    | FileOffer(fileId: Id, chunkTotal: nat, chunkBytes: u64)
    | FileChunk(index: nat, bytes: seq<Byte>)
    | Staged(files: seq<StagedFile>)
    | FilePreview(preview: Option<seq<Byte>>)
    | Avatar(face: Option<seq<Byte>>, avatarMs: u64)
    | Members(members: seq<Byte>)
    | GroupCreated(chat: Id)

  datatype Notice =
    | Message(message: CC.Message)
    | Status(msgId: Id, status: Byte)
    | ChatsChanged
    | Gone(chat: Id, msgIds: seq<Id>)
    | Edited(message: CC.Message)
    | Reacted(chat: Id, msgId: Id, reactions: seq<string>)
    | FileProgress(fileId: Id, haveChunks: u64, chunkTotal: nat, accepted: bool)
    | FileGone(fileId: Id)
    | AvatarChanged(of: Option<Id>, avatarMs: u64)
    | LinkAddress(address: Address)
    | Revoked

  /** What a received frame turns out to be. */
  datatype Frame =
    | Unreadable
    | OtherStep
    | Farewell(opens: bool)
    | Handshake(intact: bool, agrees: bool)
    | Data(content: Content)

  datatype Content =
    | Unopened
    | Partial
    | Answer(id: nat, response: Response)
    | News(notice: Notice)

  // ---- inputs and effects ----

  datatype Input =
    | Reach
    | Received(frame: Frame)
    | Lost
    | OnionReady(onion: Text)
    | YggReady(ygg: seq<Byte>)
    | Ask(request: Request)
    | Fetch(fileId: Id, chunkTotal: nat, chunkBytes: u64)
    | CancelFetch
    | Send(chat: Id, items: seq<OutgoingItem>, text: Text)
    | PutChunk(index: nat, bytes: seq<Byte>)
    | CancelSend

  datatype Outgoing = Knock(onion: Text, ygg: seq<Byte>) | Asked(id: nat, request: Request)

  datatype Event =
    | Refused
    | Ignored
    | NotLinked
    | Linked
    | Unlinked
    | Wire(theirs: Option<nat>)
    | Chats(chats: seq<CC.ChatSummary>, confirmed: bool)
    | History(chat: Id, page: seq<CC.Message>, confirmed: bool)
    | Avatar(of: Option<Id>, face: Option<seq<Byte>>, confirmed: bool)
    | Noticed(notice: Notice)
    | Done
    | FilePreview(fileId: Id, preview: Option<seq<Byte>>)
    | Members(chat: Id, members: seq<Byte>)
    | GroupCreated(chat: Id)
    | FileBytes(fileId: Id, index: nat, offset: u64, bytes: seq<Byte>)
    | FileDone(fileId: Id)
    | FetchPaused
    | FetchResumed(done: nat, total: nat)
    | FetchCancelled(fileId: Id)
    | FetchStopped
    | NeedChunk(fileId: Id, which: nat, index: nat, offset: u64, len: u64)
    | Sent(fileIds: seq<Id>)
    | SendPaused
    | SendResumed(done: nat, total: nat)
    | SendStopped

  datatype Effect = Send(outgoing: Outgoing) | Show(event: Event)

  predicate AnySend(effects: seq<Effect>) {
    exists i | 0 <= i < |effects| :: effects[i].Send?
  }

  /** What the outside decides during one step: whether a handshake can be started and framed, and which
      requests fit a frame. */
  datatype Env = Env(starts: bool, frames: bool, fits: (nat, Request) -> bool)

  // ---- state ----

  datatype Link = Link(pending: bool, session: bool, connected: bool, nextId: nat, outstanding: map<nat, Request>,
                       hello: Option<nat>, phoneWire: Option<nat>, revoked: bool)
  {
    predicate Live() {
      session && connected
    }
  }

  datatype Upload = Upload(chat: Id, items: seq<OutgoingItem>, at: nat, ids: seq<Id>, next: nat, total: nat,
                           chunkBytes: u64, text: Text, stalled: bool)
  {
    function Current(): Option<Id> {
      if at < |ids| then Some(ids[at]) else None
    }

    /** Where a chunk starts and how long it is, by the slicing the phone has named. */
    function Piece(index: nat): (piece: (u64, u64)) {
      var offset := SaturatingMul(index, chunkBytes);
      var size := if at < |items| then items[at].sizeBytes else 0;
      (offset, Min(if size > offset then size - offset else 0, chunkBytes))
    }
  }

  datatype Download = Download(fileId: Id, next: nat, total: nat, chunkBytes: u64, stalled: bool)

  datatype Client = Client(link: Link, cache: CC.CacheState, upload: Option<Upload>, download: Option<Download>,
                           address: Address, addressDirty: bool, ownOnion: Text, ownYgg: seq<Byte>)

  datatype Did = Did(client: Client, effects: seq<Effect>)

  function Min(a: u64, b: u64): u64 {
    if a < b then a else b
  }

  function SaturatingMul(a: nat, b: u64): u64 {
    if a * b < U64 then a * b else U64 - 1
  }

  function ChunksPerAsk(chunkBytes: u64): nat {
    if chunkBytes == 0 then 1 else if ASK_BYTES / chunkBytes == 0 then 1 else ASK_BYTES / chunkBytes
  }

  function FromInvite(address: Address): Client {
    Client(Link(false, false, false, 1, map[], None, None, false), CC.EMPTY, None, None, address, false, [], [])
  }

  // ---- asking ----

  function TextOf(r: Request): Option<Text> {
    if r.SendText? || r.SendReply? || r.EditMessage? || r.FileSend? then Some(r.text) else None
  }

  /** What is remembered is shown before the phone is asked: chats, the first page of a chat, a face. */
  function CachedAnswer(cache: CC.CacheState, r: Request): seq<Effect> {
    match r
    case Chats => if cache.chats == [] then [] else [Show(Event.Chats(cache.chats, cache.confirmed))]
    case History(chat, _, None) =>
      if cache.Page(chat) == [] then [] else [Show(Event.History(chat, cache.Page(chat), cache.confirmed))]
    case Avatar(of) =>
      var face := if of.None? then cache.mine else if of.value in cache.avatars then Some(cache.avatars[of.value]) else None;
      if face.None? then [] else [Show(Event.Avatar(of, Some(face.value.bytes), cache.confirmed))]
    case _ => []
  }

  datatype Asking = Asking(link: Link, effects: seq<Effect>)

  predicate WireBelow(link: Link, version: nat) {
    link.phoneWire.Some? && link.phoneWire.value < version
  }

  function AskPhone(link: Link, r: Request, shown: seq<Effect>, env: Env): Asking {
    if !link.Live() then Asking(link, shown + [Show(NotLinked)])
    else if |link.outstanding| >= MAX_OUTSTANDING then Asking(link, shown + [Show(Event.Refused)])
    else if !env.fits(link.nextId, r) then Asking(link.(nextId := link.nextId + 1), shown + [Show(Event.Refused)])
    else
      Asking(link.(nextId := link.nextId + 1, outstanding := link.outstanding[link.nextId := r]),
             shown + [Effect.Send(Asked(link.nextId, r))])
  }

  function OnAsk(link: Link, cache: CC.CacheState, r: Request, env: Env): Asking {
    if TextOf(r).Some? && |TextOf(r).value| > MAX_TEXT_BYTES then Asking(link, [Show(Event.Refused)])
    else if link.revoked then Asking(link, [Show(Event.Refused)])
    else
      var shown := CachedAnswer(cache, r);
      if r.SetMyAvatar? && WireBelow(link, SET_AVATAR_SINCE_WIRE) then Asking(link, shown + [Show(Event.Refused)])
      else if r.Avatar? && WireBelow(link, AVATARS_SINCE_WIRE) then
        Asking(link, if shown == [] then [Show(Event.Avatar(r.of, None, true))] else shown)
      else AskPhone(link, r, shown, env)
  }

  function ChunkRequest(d: Download): Request {
    Request.FileChunk(d.fileId, d.next, ChunksPerAsk(d.chunkBytes))
  }

  function Offer(chat: Id, item: OutgoingItem): Request {
    Request.FileOffer(chat, item.name, item.sizeBytes, item.preview)
  }

  // ---- handlers ----

  predicate PreviewsFit(items: seq<OutgoingItem>) {
    forall i | 0 <= i < |items| :: items[i].preview.Some? ==> |items[i].preview.value| <= PREVIEW_LIMIT_BYTES
  }

  function OnSend(c: Client, chat: Id, items: seq<OutgoingItem>, text: Text, env: Env): Did {
    if c.upload.Some? || items == [] || |items| > MAX_ATTACHMENTS || !PreviewsFit(items) then Did(c, [Show(Event.Refused)])
    else
      var asking := OnAsk(c.link, c.cache, Offer(chat, items[0]), env);
      Did(c.(link := asking.link,
             upload := if AnySend(asking.effects) then Some(Upload(chat, items, 0, [], 0, 0, 0, text, false)) else None),
          asking.effects)
  }

  /** One file is wholly there: offer the next, or send the message. */
  function AdvanceUpload(c: Client, env: Env): Did {
    if c.upload.None? then Did(c, [Show(Ignored)])
    else
      var u := c.upload.value.(at := c.upload.value.at + 1);
      var asking := OnAsk(c.link, c.cache,
                          if u.at < |u.items| then Offer(u.chat, u.items[u.at]) else Request.FileSend(u.ids, u.text), env);
      Did(c.(link := asking.link, upload := Some(u)), asking.effects)
  }

  function OnPutChunk(c: Client, index: nat, bytes: seq<Byte>, env: Env): Did {
    if c.upload.None? || c.upload.value.stalled || index != c.upload.value.next || c.upload.value.Current().None? then
      Did(c, [Show(Ignored)])
    else
      var asking := OnAsk(c.link, c.cache, Request.FilePut(c.upload.value.Current().value, index, bytes), env);
      Did(c.(link := asking.link, upload := if AnySend(asking.effects) then c.upload else None), asking.effects)
  }

  /** Tell the phone about every file begun. */
  function AbortEach(link: Link, cache: CC.CacheState, ids: seq<Id>, env: Env): Asking
    decreases |ids|
  {
    if ids == [] then Asking(link, [])
    else
      var first := OnAsk(link, cache, FileAbort(ids[0]), env);
      var others := AbortEach(first.link, cache, ids[1..], env);
      Asking(others.link, first.effects + others.effects)
  }

  function OnCancelSend(c: Client, env: Env): Did {
    if c.upload.None? then Did(c, [Show(Ignored)])
    else
      var asking := AbortEach(c.link, c.cache, c.upload.value.ids, env);
      Did(c.(link := asking.link, upload := None), asking.effects)
  }

  function OnCancelFetch(c: Client): Did {
    if c.download.None? then Did(c, [Show(Ignored)])
    else Did(c.(download := None), [Show(FetchCancelled(c.download.value.fileId))])
  }

  function OnFetch(c: Client, fileId: Id, chunkTotal: nat, chunkBytes: u64, env: Env): Did {
    if c.download.Some? || chunkTotal == 0 then Did(c, [Show(Event.Refused)])
    else
      var d := Download(fileId, 0, chunkTotal, chunkBytes, false);
      var asking := OnAsk(c.link, c.cache, ChunkRequest(d), env);
      Did(c.(link := asking.link, download := if AnySend(asking.effects) then Some(d) else None), asking.effects)
  }

  function OnReach(c: Client, env: Env): Did {
    if c.link.revoked || c.link.Live() then Did(c, [])
    else if !env.starts then Did(c, [Show(Event.Refused)])
    else
      Did(c.(link := c.link.(pending := true)),
          if env.frames then [Effect.Send(Knock(c.ownOnion, c.ownYgg))] else [Show(Ignored)])
  }

  /** A road of one direction: everything unfinished goes with the keys. */
  function OnRevoked(c: Client): Client {
    c.(link := c.link.(revoked := true, session := false, pending := false, connected := false, outstanding := map[], hello := None),
       upload := None, download := None, cache := CC.EMPTY)
  }

  function OnLost(c: Client): Did {
    Did(c.(link := c.link.(pending := false, outstanding := map[], session := false, connected := false, hello := None, phoneWire := None),
           cache := c.cache.Unconfirm(),
           upload := if c.upload.Some? then Some(c.upload.value.(stalled := true)) else None,
           download := if c.download.Some? then Some(c.download.value.(stalled := true)) else None),
        (if c.upload.Some? then [Show(SendPaused)] else []) + (if c.download.Some? then [Show(FetchPaused)] else []) +
        (if c.link.session then [Show(Unlinked)] else []))
  }

  /** Asks for the first chunk not yet written. */
  function ResumeFetch(c: Client, env: Env): Did {
    if c.download.None? || !c.download.value.stalled then Did(c, [])
    else
      var d := c.download.value.(stalled := false);
      var asking := OnAsk(c.link, c.cache, ChunkRequest(d), env);
      Did(c.(link := asking.link, download := Some(d.(stalled := !AnySend(asking.effects)))),
          [Show(FetchResumed(d.next, d.total))] + asking.effects)
  }

  function MarkHello(asking: Asking): Link {
    if AnySend(asking.effects) && asking.link.nextId > 0 then asking.link.(hello := Some(asking.link.nextId - 1)) else asking.link
  }

  function OnLinked(c: Client, env: Env): Did {
    var link := c.link.(pending := false, session := true, connected := true, outstanding := map[]);
    var hello := OnAsk(link, c.cache, Request.Hello, env);
    var chats := OnAsk(MarkHello(hello), c.cache, Request.Chats, env);
    var staged := if c.upload.Some? then OnAsk(chats.link, c.cache, Request.Staged, env) else Asking(chats.link, []);
    var resumed := ResumeFetch(c.(link := staged.link), env);
    Did(resumed.client, [Show(Linked)] + hello.effects + chats.effects + staged.effects + resumed.effects)
  }

  function OnHandshake(c: Client, intact: bool, agrees: bool, env: Env): Did {
    if !intact || !c.link.pending then Did(c, [Show(Ignored)])
    else if !agrees then Did(c.(link := c.link.(pending := false)), [Show(Ignored)])
    else OnLinked(c, env)
  }

  // ---- answers ----

  /** A phone too old to continue an interrupted upload. */
  function GiveUpStalled(c: Client, theirs: Option<nat>): Did {
    if c.upload.None? || !c.upload.value.stalled || (theirs.Some? && theirs.value >= STAGED_SINCE_WIRE) then Did(c, [])
    else Did(c.(upload := None), [Show(SendStopped)])
  }

  function FindStaged(files: seq<StagedFile>, fileId: Id): Option<StagedFile> {
    if files == [] then None
    else if files[0].fileId == fileId then Some(files[0])
    else FindStaged(files[1..], fileId)
  }

  /** The place of the first item, from `at` on, that the phone does not have whole. */
  function FirstUnfinished(u: Upload, files: seq<StagedFile>, at: nat): nat
    decreases |u.items| - at
  {
    if at >= |u.items| then at
    else if at < |u.ids| && FindStaged(files, u.ids[at]).Some? && FindStaged(files, u.ids[at]).value.missing == [] then
      FirstUnfinished(u, files, at + 1)
    else at
  }

  function OnStaged(c: Client, files: seq<StagedFile>, env: Env): Did {
    if c.upload.None? || !c.upload.value.stalled then Did(c, [Show(Ignored)])
    else
      var u := c.upload.value.(stalled := false);
      var at := FirstUnfinished(u, files, 0);
      var resumed := [Show(SendResumed(at, |u.items|))];
      if at >= |u.items| then
        if u.items == [] then Did(c.(upload := Some(u)), resumed)
        else
          var advanced := AdvanceUpload(c.(upload := Some(u.(at := |u.items| - 1))), env);
          Did(advanced.client, resumed + advanced.effects)
      else
        var staged := if at < |u.ids| then FindStaged(files, u.ids[at]) else None;
        if staged.Some? && staged.value.missing != [] then
          var hole := u.(at := at, next := staged.value.missing[0], total := staged.value.chunkTotal);
          var piece := hole.Piece(hole.next);
          Did(c.(upload := Some(hole)), resumed + [Show(NeedChunk(u.ids[at], at, hole.next, piece.0, piece.1))])
        else
          var again := u.(at := at, ids := if at < |u.ids| then u.ids[..at] else u.ids);
          var asking := OnAsk(c.link, c.cache, Offer(u.chat, u.items[at]), env);
          Did(c.(link := asking.link, upload := Some(again)), resumed + asking.effects)
  }

  /** The phone has set a place aside for the file offered. */
  function OnOffered(c: Client, fileId: Id, chunkTotal: nat, chunkBytes: u64, earlier: seq<Effect>, env: Env): Did {
    if c.upload.None? then Did(c, [Show(Ignored)])
    else
      var u := c.upload.value;
      var begun := u.(ids := u.ids + [fileId], total := chunkTotal, chunkBytes := chunkBytes, next := 0);
      if chunkTotal == 0 then
        var advanced := AdvanceUpload(c.(upload := Some(begun)), env);
        Did(advanced.client, earlier + advanced.effects)
      else
        var piece := begun.Piece(0);
        Did(c.(upload := Some(begun)), earlier + [Show(NeedChunk(fileId, begun.at, 0, piece.0, piece.1))])
  }

  /** The phone has put a chunk away. Which file it was of is the request's to say, and is not compared. */
  function OnStored(c: Client, fileId: Id, earlier: seq<Effect>, env: Env): Did {
    if c.upload.None? then Did(c, [Show(Ignored)])
    else
      var u := c.upload.value.(next := c.upload.value.next + 1);
      if u.next < u.total then
        var piece := u.Piece(u.next);
        Did(c.(upload := Some(u)), earlier + [Show(NeedChunk(fileId, u.at, u.next, piece.0, piece.1))])
      else
        var advanced := AdvanceUpload(c.(upload := Some(u)), env);
        Did(advanced.client, earlier + advanced.effects)
  }

  function OnRefused(c: Client, asked: Request, earlier: seq<Effect>): Did {
    if asked.FileChunk? then Did(c.(download := None), earlier + [Show(FetchStopped)])
    else if asked.FileOffer? || asked.FilePut? || asked.FileSend? || asked.Staged? then
      Did(c.(upload := None), earlier + [Show(SendStopped)])
    else Did(c, earlier + [Show(Event.Refused)])
  }

  /** How many chunks came is seen by the length, rounded up, and never taken for none. */
  function Eaten(length: nat, chunkBytes: u64): nat {
    var chunk := if chunkBytes == 0 then 1 else chunkBytes;
    var whole := (length + chunk - 1) / chunk;
    if whole == 0 then 1 else whole
  }

  function OnChunk(c: Client, asked: Request, index: nat, bytes: seq<Byte>, env: Env): Did {
    if !asked.FileChunk? || c.download.None? || c.download.value.stalled || asked.fileId != c.download.value.fileId ||
       index != asked.index || index != c.download.value.next
    then Did(c, [Show(Ignored)])
    else
      var d := c.download.value;
      var written := [Show(FileBytes(d.fileId, index, SaturatingMul(index, d.chunkBytes), bytes))];
      var next := index + Eaten(|bytes|, d.chunkBytes);
      if next >= d.total then Did(c.(download := None), written + [Show(FileDone(d.fileId))])
      else
        var further := d.(next := next);
        var asking := OnAsk(c.link, c.cache, ChunkRequest(further), env);
        Did(c.(link := asking.link, download := Some(further.(stalled := !AnySend(asking.effects)))), written + asking.effects)
  }

  /** An answer to anything but the greeting, while the greeting is unanswered: the phone does not know it. */
  function Overtaken(c: Client, id: nat): Did {
    if c.link.hello.None? || id <= c.link.hello.value then Did(c, [])
    else
      var ancient := c.(link := c.link.(hello := None, outstanding := c.link.outstanding - {c.link.hello.value}, phoneWire := Some(0)));
      var stopped := GiveUpStalled(ancient, None);
      Did(stopped.client, [Show(Wire(None))] + stopped.effects)
  }

  function OnResponse(c: Client, id: nat, response: Response, env: Env): Did {
    if id !in c.link.outstanding then Did(c, [Show(Ignored)])
    else
      var asked := c.link.outstanding[id];
      var first := Overtaken(c.(link := c.link.(outstanding := c.link.outstanding - {id})), id);
      OnAnswer(first.client, asked, response, first.effects, env)
  }

  function OnAnswer(c: Client, asked: Request, response: Response, earlier: seq<Effect>, env: Env): Did {
    match response
    case Hello(wire) =>
      var stopped := GiveUpStalled(c.(link := c.link.(hello := None, phoneWire := Some(wire))), Some(wire));
      Did(stopped.client, earlier + stopped.effects + [Show(Wire(Some(wire)))])
    case Chats(chats) =>
      Did(c.(cache := c.cache.RememberChats(chats)), earlier + [Show(Event.Chats(chats, true))])
    case History(page) =>
      if !asked.History? then Did(c, [Show(Ignored)])
      else
        Did(c.(cache := c.cache.RememberPage(asked.chat, page, asked.before.None?)),
            earlier + [Show(Event.History(asked.chat, page, true))])
    case FileOffer(fileId, chunkTotal, chunkBytes) => OnOffered(c, fileId, chunkTotal, chunkBytes, earlier, env)
    case Done =>
      if asked.FilePut? then OnStored(c, asked.fileId, earlier, env)
      else if asked.FileSend? then Did(c.(upload := None), earlier + [Show(Sent(asked.fileIds))])
      else Did(c, earlier + [Show(Event.Done)])
    case Refused => OnRefused(c, asked, earlier)
    case FileChunk(index, bytes) =>
      var did := OnChunk(c, asked, index, bytes, env);
      Did(did.client, earlier + did.effects)
    case Staged(files) =>
      var did := OnStaged(c, files, env);
      Did(did.client, earlier + did.effects)
    case FilePreview(preview) =>
      Did(c, earlier + [Show(if asked.FilePreview? then Event.FilePreview(asked.fileId, preview) else Ignored)])
    case Avatar(face, avatarMs) =>
      if !asked.Avatar? then Did(c, earlier + [Show(Ignored)])
      else
        Did(c.(cache := c.cache.RememberAvatar(asked.of, face, avatarMs)), earlier + [Show(Event.Avatar(asked.of, face, true))])
    case Members(members) =>
      Did(c, earlier + [Show(if asked.Members? then Event.Members(asked.chat, members) else Ignored)])
    case GroupCreated(chat) => Did(c, earlier + [Show(Event.GroupCreated(chat))])
  }

  // ---- news ----

  function Noted(c: Client, n: Notice): Client {
    match n
    case Message(m) => c.(cache := c.cache.Arrived(m))
    case Gone(chat, msgIds) => c.(cache := c.cache.Gone(chat, msgIds))
    case Edited(m) => c.(cache := c.cache.Edited(m))
    case Reacted(chat, msgId, reactions) => c.(cache := c.cache.Reacted(chat, msgId, reactions))
    case FileProgress(fileId, haveChunks, _, accepted) => c.(cache := c.cache.FileProgress(fileId, haveChunks, accepted))
    case FileGone(fileId) =>
      c.(cache := c.cache.FileGone(fileId),
         download := if c.download.Some? && c.download.value.fileId == fileId then None else c.download)
    case AvatarChanged(of, avatarMs) => c.(cache := c.cache.RememberAvatar(of, None, avatarMs))
    case LinkAddress(address) => c.(addressDirty := c.addressDirty || c.address != address, address := address)
    case Revoked => OnRevoked(c)
    case _ => c
  }

  // ---- the step ----

  function OnData(c: Client, content: Content, env: Env): Did {
    if !c.link.session then Did(c, [Show(Ignored)])
    else
      match content
      case Unopened => Did(c, [Show(Ignored)])
      case Partial => Did(c, [])
      case Answer(id, response) => OnResponse(c, id, response, env)
      case News(notice) => Did(Noted(c, notice), [Show(Noticed(notice))])
  }

  function OnFrame(c: Client, frame: Frame, env: Env): Did {
    match frame
    case Unreadable => Did(c, [Show(Ignored)])
    case OtherStep => Did(c, [Show(Ignored)])
    case Farewell(opens) =>
      if opens then Did(OnRevoked(c), [Show(Noticed(Notice.Revoked))]) else Did(c, [Show(Ignored)])
    case Handshake(intact, agrees) => OnHandshake(c, intact, agrees, env)
    case Data(content) => OnData(c, content, env)
  }

  function Step(c: Client, input: Input, env: Env): Did {
    match input
    case Reach => OnReach(c, env)
    case Received(frame) => OnFrame(c, frame, env)
    case Lost => OnLost(c)
    case OnionReady(onion) => Did(c.(ownOnion := onion), [])
    case YggReady(ygg) => Did(c.(ownYgg := ygg), [])
    case Ask(request) =>
      var asking := OnAsk(c.link, c.cache, request, env);
      Did(c.(link := asking.link), asking.effects)
    case Fetch(fileId, chunkTotal, chunkBytes) => OnFetch(c, fileId, chunkTotal, chunkBytes, env)
    case CancelFetch => OnCancelFetch(c)
    case Send(chat, items, text) => OnSend(c, chat, items, text, env)
    case PutChunk(index, bytes) => OnPutChunk(c, index, bytes, env)
    case CancelSend => OnCancelSend(c, env)
  }
}
