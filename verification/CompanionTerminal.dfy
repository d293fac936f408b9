/** The terminal as an object: each method changes the fields in place and returns the effects, and does what
    the handler of the same name does to a state. */
module CompanionTerminal {
  import opened Bytes
  import opened CompanionProtocol
  import CC = CompanionCache

  class CompanionClient {
    var pending: bool
    var session: bool
    var connected: bool
    var nextId: nat
    var outstanding: map<nat, Request>
    var hello: Option<nat>
    var phoneWire: Option<nat>
    var revoked: bool
    var cache: CC.CacheState
    var upload: Option<Upload>
    var download: Option<Download>
    var phoneAddress: CC.Address
    var addressDirty: bool
    var ownOnion: Text
    var ownYgg: seq<Byte>

    function LinkState(): Link
      reads this
    {
      Link(pending, session, connected, nextId, outstanding, hello, phoneWire, revoked)
    }

    function State(): Client
      reads this
    {
      Client(LinkState(), cache, upload, download, phoneAddress, addressDirty, ownOnion, ownYgg)
    }

    constructor (address: CC.Address)
      ensures State() == FromInvite(address)
    {
      pending, session, connected, revoked := false, false, false, false;
      nextId, outstanding, hello, phoneWire := 1, map[], None, None;
      cache, upload, download := CC.EMPTY, None, None;
      phoneAddress, addressDirty, ownOnion, ownYgg := address, false, [], [];
    }

    method TakeAsk(request: Request, env: Env) returns (effects: seq<Effect>)
      modifies this
      ensures Asking(LinkState(), effects) == OnAsk(old(LinkState()), old(cache), request, env)
      ensures State() == old(State()).(link := LinkState())
    {
      var text := TextOf(request);
      if text.Some? && |text.value| > MAX_TEXT_BYTES { return [Show(Event.Refused)]; }
      if revoked { return [Show(Event.Refused)]; }
      effects := CachedAnswer(cache, request);
      if request.SetMyAvatar? && phoneWire.Some? && phoneWire.value < SET_AVATAR_SINCE_WIRE {
        effects := effects + [Show(Event.Refused)];
        return;
      }
      if request.Avatar? && phoneWire.Some? && phoneWire.value < AVATARS_SINCE_WIRE {
        if effects == [] { effects := [Show(Event.Avatar(request.of, None, true))]; }
        return;
      }
      if !(session && connected) {
        effects := effects + [Show(NotLinked)];
        return;
      }
      if |outstanding| >= MAX_OUTSTANDING {
        effects := effects + [Show(Event.Refused)];
        return;
      }
      var id := nextId;
      nextId := nextId + 1;
      if !env.fits(id, request) {
        effects := effects + [Show(Event.Refused)];
        return;
      }
      outstanding := outstanding[id := request];
      effects := effects + [Effect.Send(Asked(id, request))];
    }

    method TakeSend(chat: Id, items: seq<OutgoingItem>, text: Text, env: Env) returns (effects: seq<Effect>)
      modifies this
      ensures Did(State(), effects) == OnSend(old(State()), chat, items, text, env)
    {
      if upload.Some? { return [Show(Event.Refused)]; }
      if items == [] { return [Show(Event.Refused)]; }
      if |items| > MAX_ATTACHMENTS { return [Show(Event.Refused)]; }
      var i := 0;
      while i < |items|
        invariant i <= |items| && State() == old(State())
        invariant forall k | 0 <= k < i :: items[k].preview.Some? ==> |items[k].preview.value| <= PREVIEW_LIMIT_BYTES
      {
        if items[i].preview.Some? && |items[i].preview.value| > PREVIEW_LIMIT_BYTES { return [Show(Event.Refused)]; }
        i := i + 1;
      }
      upload := Some(Upload(chat, items, 0, [], 0, 0, 0, text, false));
      effects := TakeAsk(Offer(chat, items[0]), env);
      if !AnySend(effects) { upload := None; }
    }

    method Advance(env: Env) returns (effects: seq<Effect>)
      modifies this
      ensures Did(State(), effects) == AdvanceUpload(old(State()), env)
    {
      if upload.None? { return [Show(Ignored)]; }
      var u := upload.value.(at := upload.value.at + 1);
      upload := Some(u);
      if u.at < |u.items| {
        effects := TakeAsk(Offer(u.chat, u.items[u.at]), env);
      } else {
        effects := TakeAsk(Request.FileSend(u.ids, u.text), env);
      }
    }

    method TakePutChunk(index: nat, bytes: seq<Byte>, env: Env) returns (effects: seq<Effect>)
      modifies this
      ensures Did(State(), effects) == OnPutChunk(old(State()), index, bytes, env)
    {
      if upload.None? { return [Show(Ignored)]; }
      if upload.value.stalled { return [Show(Ignored)]; }
      if index != upload.value.next { return [Show(Ignored)]; }
      var fileId := upload.value.Current();
      if fileId.None? { return [Show(Ignored)]; }
      effects := TakeAsk(Request.FilePut(fileId.value, index, bytes), env);
      if !AnySend(effects) { upload := None; }
    }

    method TakeCancelSend(env: Env) returns (effects: seq<Effect>)
      modifies this
      ensures Did(State(), effects) == OnCancelSend(old(State()), env)
    {
      if upload.None? { return [Show(Ignored)]; }
      var ids := upload.value.ids;
      upload := None;
      effects := [];
      var i := 0;
      while i < |ids|
        invariant i <= |ids|
        invariant State() == old(State()).(upload := None, link := LinkState()) && cache == old(cache)
        invariant var others := AbortEach(LinkState(), cache, ids[i..], env);
                  AbortEach(old(LinkState()), cache, ids, env) == Asking(others.link, effects + others.effects)
      {
        assert ids[i..][0] == ids[i] && ids[i..][1..] == ids[i + 1..];
        var more := TakeAsk(FileAbort(ids[i]), env);
        assert forall rest: seq<Effect> :: effects + (more + rest) == effects + more + rest;
        effects := effects + more;
        i := i + 1;
      }
      assert effects + [] == effects;
    }

    method TakeCancelFetch() returns (effects: seq<Effect>)
      modifies this
      ensures Did(State(), effects) == OnCancelFetch(old(State()))
    {
      if download.None? { return [Show(Ignored)]; }
      effects := [Show(FetchCancelled(download.value.fileId))];
      download := None;
    }

    method TakeFetch(fileId: Id, chunkTotal: nat, chunkBytes: u64, env: Env) returns (effects: seq<Effect>)
      modifies this
      ensures Did(State(), effects) == OnFetch(old(State()), fileId, chunkTotal, chunkBytes, env)
    {
      if download.Some? { return [Show(Event.Refused)]; }
      if chunkTotal == 0 { return [Show(Event.Refused)]; }
      download := Some(Download(fileId, 0, chunkTotal, chunkBytes, false));
      effects := TakeAsk(Request.FileChunk(fileId, 0, ChunksPerAsk(chunkBytes)), env);
      if !AnySend(effects) { download := None; }
    }

    method TakeReach(env: Env) returns (effects: seq<Effect>)
      modifies this
      ensures Did(State(), effects) == OnReach(old(State()), env)
    {
      if revoked || (session && connected) { return []; }
      if !env.starts { return [Show(Event.Refused)]; }
      pending := true;
      return if env.frames then [Effect.Send(Knock(ownOnion, ownYgg))] else [Show(Ignored)];
    }

    /** The channel and everything asked over it. */
    method DropChannel()
      modifies this
      ensures State() == old(State()).(link := old(LinkState()).(pending := false, session := false, connected := false,
                                                                 outstanding := map[], hello := None))
    {
      pending := false;
      session, connected := false, false;
      outstanding := map[];
      hello := None;
    }

    method TakeRevoked()
      modifies this
      ensures State() == OnRevoked(old(State()))
    {
      revoked := true;
      DropChannel();
      upload, download := None, None;
      cache := CC.EMPTY;
    }

    method TakeLost() returns (effects: seq<Effect>)
      modifies this
      ensures Did(State(), effects) == OnLost(old(State()))
    {
      hide CC.CacheState.Unconfirm;
      var was := session;
      DropChannel();
      phoneWire := None;
      cache := cache.Unconfirm();
      effects := Stall();
      if was { effects := effects + [Show(Unlinked)]; } else { assert effects + [] == effects; }
    }

    /** What was on its way waits for the next link. */
    method Stall() returns (effects: seq<Effect>)
      modifies `upload, `download
      ensures upload == if old(upload).Some? then Some(old(upload).value.(stalled := true)) else None
      ensures download == if old(download).Some? then Some(old(download).value.(stalled := true)) else None
      ensures effects == (if old(upload).Some? then [Show(SendPaused)] else []) + (if old(download).Some? then [Show(FetchPaused)] else [])
    {
      effects := [];
      if upload.Some? {
        upload := Some(upload.value.(stalled := true));
        effects := effects + [Show(SendPaused)];
      }
      if download.Some? {
        download := Some(download.value.(stalled := true));
        effects := effects + [Show(FetchPaused)];
      }
    }

    method Resume(env: Env) returns (effects: seq<Effect>)
      modifies this
      ensures Did(State(), effects) == ResumeFetch(old(State()), env)
    {
      if download.None? { return []; }
      if !download.value.stalled { return []; }
      var d := download.value;
      download := Some(d.(stalled := false));
      effects := [Show(FetchResumed(d.next, d.total))];
      var asked := TakeAsk(Request.FileChunk(d.fileId, d.next, ChunksPerAsk(d.chunkBytes)), env);
      if !AnySend(asked) { download := Some(download.value.(stalled := true)); }
      effects := effects + asked;
    }

    method OpenChannel()
      modifies this
      ensures State() == old(State()).(link := old(LinkState()).(pending := false, session := true, connected := true, outstanding := map[]))
    {
      pending := false;
      session, connected := true, true;
      outstanding := map[];
    }

    /** The first request of a link, whose number is remembered. */
    method Greet(env: Env) returns (effects: seq<Effect>)
      modifies this
      ensures effects == OnAsk(old(LinkState()), old(cache), Request.Hello, env).effects
      ensures State() == old(State()).(link := MarkHello(OnAsk(old(LinkState()), old(cache), Request.Hello, env)))
    {
      hide OnAsk, AnySend;
      effects := TakeAsk(Request.Hello, env);
      if AnySend(effects) && nextId > 0 { hello := Some(nextId - 1); }
    }

    method TakeHandshake(intact: bool, agrees: bool, env: Env) returns (effects: seq<Effect>)
      modifies this
      ensures Did(State(), effects) == OnHandshake(old(State()), intact, agrees, env)
    {
      hide OnAsk, ResumeFetch, AnySend, MarkHello;
      if !intact { return [Show(Ignored)]; }
      if !pending { return [Show(Ignored)]; }
      if !agrees {
        pending := false;
        return [Show(Ignored)];
      }
      OpenChannel();
      effects := [Show(Linked)];
      var asked := Greet(env);
      effects := effects + asked;
      asked := TakeAsk(Request.Chats, env);
      effects := effects + asked;
      if upload.Some? {
        asked := TakeAsk(Request.Staged, env);
        effects := effects + asked;
      } else {
        assert effects + [] == effects;
      }
      asked := Resume(env);
      effects := effects + asked;
    }

    method GiveUp(theirs: Option<nat>) returns (effects: seq<Effect>)
      modifies this
      ensures Did(State(), effects) == GiveUpStalled(old(State()), theirs)
    {
      if upload.None? || !upload.value.stalled { return []; }
      if theirs.Some? && theirs.value >= STAGED_SINCE_WIRE { return []; }
      upload := None;
      return [Show(SendStopped)];
    }

    method TakeStaged(files: seq<StagedFile>, env: Env) returns (effects: seq<Effect>)
      modifies this
      ensures Did(State(), effects) == OnStaged(old(State()), files, env)
    {
      hide OnAsk, AdvanceUpload, FindStaged, Upload.Piece;
      if upload.None? { return [Show(Ignored)]; }
      if !upload.value.stalled { return [Show(Ignored)]; }
      var u := upload.value.(stalled := false);
      upload := Some(u);
      var at := 0;
      var staged: Option<StagedFile> := None;
      while at < |u.items|
        invariant at <= |u.items| && State() == old(State()).(upload := Some(u))
        invariant FirstUnfinished(u, files, 0) == FirstUnfinished(u, files, at)
      {
        staged := if at < |u.ids| then FindStaged(files, u.ids[at]) else None;
        if staged.None? || staged.value.missing != [] { break; }
        at := at + 1;
      }
      effects := [Show(SendResumed(at, |u.items|))];
      if at >= |u.items| {
        if u.items != [] {
          upload := Some(u.(at := |u.items| - 1));
          var advanced := Advance(env);
          effects := effects + advanced;
        }
      } else if staged.Some? {
        var hole := u.(at := at, next := staged.value.missing[0], total := staged.value.chunkTotal);
        upload := Some(hole);
        var (offset, len) := hole.Piece(hole.next);
        effects := effects + [Show(NeedChunk(u.ids[at], at, hole.next, offset, len))];
      } else {
        upload := Some(u.(at := at, ids := if at < |u.ids| then u.ids[..at] else u.ids));
        var asked := TakeAsk(Offer(u.chat, u.items[at]), env);
        effects := effects + asked;
      }
    }

    method TakeOffered(fileId: Id, chunkTotal: nat, chunkBytes: u64, earlier: seq<Effect>, env: Env) returns (effects: seq<Effect>)
      modifies this
      ensures Did(State(), effects) == OnOffered(old(State()), fileId, chunkTotal, chunkBytes, earlier, env)
    {
      hide AdvanceUpload, Upload.Piece;
      if upload.None? { return [Show(Ignored)]; }
      var u := upload.value;
      u := u.(ids := u.ids + [fileId], total := chunkTotal, chunkBytes := chunkBytes, next := 0);
      upload := Some(u);
      if chunkTotal == 0 {
        effects := Advance(env);
        return earlier + effects;
      }
      var (offset, len) := u.Piece(0);
      return earlier + [Show(NeedChunk(fileId, u.at, 0, offset, len))];
    }

    method TakeStored(fileId: Id, earlier: seq<Effect>, env: Env) returns (effects: seq<Effect>)
      modifies this
      ensures Did(State(), effects) == OnStored(old(State()), fileId, earlier, env)
    {
      hide AdvanceUpload, Upload.Piece;
      if upload.None? { return [Show(Ignored)]; }
      var u := upload.value.(next := upload.value.next + 1);
      upload := Some(u);
      if u.next < u.total {
        var (offset, len) := u.Piece(u.next);
        return earlier + [Show(NeedChunk(fileId, u.at, u.next, offset, len))];
      }
      effects := Advance(env);
      return earlier + effects;
    }

    method TakeChunk(asked: Request, index: nat, bytes: seq<Byte>, env: Env) returns (effects: seq<Effect>)
      modifies this
      ensures Did(State(), effects) == OnChunk(old(State()), asked, index, bytes, env)
    {
      hide OnAsk, AnySend, Eaten, SaturatingMul;
      if !asked.FileChunk? { return [Show(Ignored)]; }
      if download.None? { return [Show(Ignored)]; }
      var d := download.value;
      if d.stalled { return [Show(Ignored)]; }
      if asked.fileId != d.fileId || index != asked.index || index != d.next { return [Show(Ignored)]; }
      effects := [Show(FileBytes(d.fileId, index, SaturatingMul(index, d.chunkBytes), bytes))];
      var next := index + Eaten(|bytes|, d.chunkBytes);
      if next >= d.total {
        download := None;
        return effects + [Show(FileDone(d.fileId))];
      }
      download := Some(d.(next := next));
      var further := TakeAsk(Request.FileChunk(d.fileId, next, ChunksPerAsk(d.chunkBytes)), env);
      if !AnySend(further) { download := Some(download.value.(stalled := true)); }
      return effects + further;
    }

    /** An answer to a later request: the greeting will never be answered. */
    method Overtake(id: nat) returns (effects: seq<Effect>)
      modifies this
      ensures Did(State(), effects) == Overtaken(old(State()), id)
    {
      hide GiveUpStalled;
      if hello.None? || id <= hello.value { return []; }
      outstanding := outstanding - {hello.value};
      hello := None;
      phoneWire := Some(0);
      var stopped := GiveUp(None);
      return [Show(Wire(None))] + stopped;
    }

    method TakeResponse(id: nat, response: Response, env: Env) returns (effects: seq<Effect>)
      modifies this
      ensures Did(State(), effects) == OnResponse(old(State()), id, response, env)
    {
      hide OnAnswer, Overtaken;
      if id !in outstanding { return [Show(Ignored)]; }
      var asked := outstanding[id];
      outstanding := outstanding - {id};
      var earlier := Overtake(id);
      effects := TakeAnswer(asked, response, earlier, env);
    }

    method TakeRefused(asked: Request, earlier: seq<Effect>) returns (effects: seq<Effect>)
      modifies this
      ensures Did(State(), effects) == OnRefused(old(State()), asked, earlier)
    {
      if asked.FileChunk? {
        download := None;
        return earlier + [Show(FetchStopped)];
      }
      if asked.FileOffer? || asked.FilePut? || asked.FileSend? || asked.Staged? {
        upload := None;
        return earlier + [Show(SendStopped)];
      }
      return earlier + [Show(Event.Refused)];
    }

    /** Answers that move a transfer on, or end it. */
    method TakeTransferAnswer(asked: Request, response: Response, earlier: seq<Effect>, env: Env) returns (effects: seq<Effect>)
      requires response.FileOffer? || response.Done? || response.Refused? || response.FileChunk? || response.Staged?
      modifies this
      ensures Did(State(), effects) == OnAnswer(old(State()), asked, response, earlier, env)
    {
      hide OnChunk, OnStaged, OnStored, OnOffered, OnRefused;
      match response
      case FileOffer(fileId, chunkTotal, chunkBytes) => effects := TakeOffered(fileId, chunkTotal, chunkBytes, earlier, env);
      case Done =>
        if asked.FilePut? {
          effects := TakeStored(asked.fileId, earlier, env);
        } else if asked.FileSend? {
          upload := None;
          effects := earlier + [Show(Sent(asked.fileIds))];
        } else {
          effects := earlier + [Show(Event.Done)];
        }
      case Refused => effects := TakeRefused(asked, earlier);
      case FileChunk(index, bytes) =>
        var chunk := TakeChunk(asked, index, bytes, env);
        effects := earlier + chunk;
      case Staged(files) =>
        var staged := TakeStaged(files, env);
        effects := earlier + staged;
    }

    /** Answers that change what is remembered. */
    method TakeRememberedAnswer(asked: Request, response: Response, earlier: seq<Effect>, env: Env) returns (effects: seq<Effect>)
      requires response.Hello? || response.Chats? || response.History? || response.Avatar?
      modifies this
      ensures Did(State(), effects) == OnAnswer(old(State()), asked, response, earlier, env)
    {
      hide GiveUpStalled, CC.CacheState.RememberChats, CC.CacheState.RememberPage, CC.CacheState.RememberAvatar;
      match response
      case Hello(wire) =>
        hello := None;
        phoneWire := Some(wire);
        var stopped := GiveUp(Some(wire));
        effects := earlier + stopped + [Show(Wire(Some(wire)))];
      case Chats(chats) =>
        cache := cache.RememberChats(chats);
        effects := earlier + [Show(Event.Chats(chats, true))];
      case History(page) =>
        if !asked.History? { return [Show(Ignored)]; }
        cache := cache.RememberPage(asked.chat, page, asked.before.None?);
        effects := earlier + [Show(Event.History(asked.chat, page, true))];
      case Avatar(face, avatarMs) =>
        if !asked.Avatar? { return earlier + [Show(Ignored)]; }
        cache := cache.RememberAvatar(asked.of, face, avatarMs);
        effects := earlier + [Show(Event.Avatar(asked.of, face, true))];
    }

    method TakeAnswer(asked: Request, response: Response, earlier: seq<Effect>, env: Env) returns (effects: seq<Effect>)
      modifies this
      ensures Did(State(), effects) == OnAnswer(old(State()), asked, response, earlier, env)
    {
      if response.FilePreview? {
        effects := earlier + [Show(if asked.FilePreview? then Event.FilePreview(asked.fileId, response.preview) else Ignored)];
      } else if response.Members? {
        effects := earlier + [Show(if asked.Members? then Event.Members(asked.chat, response.members) else Ignored)];
      } else if response.GroupCreated? {
        effects := earlier + [Show(Event.GroupCreated(response.chat))];
      } else if response.Hello? || response.Chats? || response.History? || response.Avatar? {
        hide OnAnswer;
        effects := TakeRememberedAnswer(asked, response, earlier, env);
      } else {
        hide OnAnswer;
        effects := TakeTransferAnswer(asked, response, earlier, env);
      }
    }

    method TakeNotice(n: Notice) returns (effects: seq<Effect>)
      modifies this
      ensures Did(State(), effects) == Did(Noted(old(State()), n), [Show(Noticed(n))])
    {
      hide CC.CacheState.Arrived, CC.CacheState.RememberAvatar, CC.CacheState.FileProgress, CC.CacheState.FileGone,
           CC.CacheState.Gone, CC.CacheState.Edited, CC.CacheState.Reacted;
      effects := [Show(Noticed(n))];
      match n
      case Message(m) => cache := cache.Arrived(m);
      case Gone(chat, msgIds) => cache := cache.Gone(chat, msgIds);
      case Edited(m) => cache := cache.Edited(m);
      case Reacted(chat, msgId, reactions) => cache := cache.Reacted(chat, msgId, reactions);
      case FileProgress(fileId, haveChunks, _, accepted) => cache := cache.FileProgress(fileId, haveChunks, accepted);
      case FileGone(fileId) =>
        cache := cache.FileGone(fileId);
        if download.Some? && download.value.fileId == fileId { download := None; }
      case AvatarChanged(of, avatarMs) => cache := cache.RememberAvatar(of, None, avatarMs);
      case LinkAddress(address) =>
        addressDirty := addressDirty || phoneAddress != address;
        phoneAddress := address;
      case Revoked => TakeRevoked();
      case _ =>
    }

    method TakeFrame(frame: Frame, env: Env) returns (effects: seq<Effect>)
      modifies this
      ensures Did(State(), effects) == OnFrame(old(State()), frame, env)
    {
      hide OnHandshake, OnResponse, Noted;
      match frame
      case Unreadable => return [Show(Ignored)];
      case OtherStep => return [Show(Ignored)];
      case Farewell(opens) =>
        if !opens { return [Show(Ignored)]; }
        TakeRevoked();
        return [Show(Noticed(Notice.Revoked))];
      case Handshake(intact, agrees) => effects := TakeHandshake(intact, agrees, env);
      case Data(content) =>
        if !session { return [Show(Ignored)]; }
        match content {
          case Unopened => return [Show(Ignored)];
          case Partial => return [];
          case Answer(id, response) => effects := TakeResponse(id, response, env);
          case News(notice) => effects := TakeNotice(notice);
        }
    }

    /** One input. */
    method Take(input: Input, env: Env) returns (effects: seq<Effect>)
      modifies this
      ensures Did(State(), effects) == Step(old(State()), input, env)
    {
      hide OnAsk, OnFrame, OnFetch, OnSend, OnPutChunk, OnCancelSend, OnLost, OnReach, OnCancelFetch;
      match input
      case Reach => effects := TakeReach(env);
      case Received(frame) => effects := TakeFrame(frame, env);
      case Lost => effects := TakeLost();
      case OnionReady(onion) =>
        ownOnion := onion;
        effects := [];
      case YggReady(ygg) =>
        ownYgg := ygg;
        effects := [];
      case Ask(request) => effects := TakeAsk(request, env);
      case Fetch(fileId, chunkTotal, chunkBytes) => effects := TakeFetch(fileId, chunkTotal, chunkBytes, env);
      case CancelFetch => effects := TakeCancelFetch();
      case Send(chat, items, text) => effects := TakeSend(chat, items, text, env);
      case PutChunk(index, bytes) => effects := TakePutChunk(index, bytes, env);
      case CancelSend => effects := TakeCancelSend(env);
    }
  }
}
