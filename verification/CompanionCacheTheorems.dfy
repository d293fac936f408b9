/** What a cache says, over every run: the last word heard about each message it shows, the most recently
    used chats, and never a change without the flag. */
module CompanionCacheTheorems {
  import opened Bytes
  import opened CompanionCache
  import opened CompanionPages
  import opened CompanionCacheLaws

  // ---- the simple map: the last word about each message ----

  function Of(page: seq<Message>, id: Id): Option<Message> {
    match IndexOf(page, id)
    case None => None
    case Some(i) => Some(page[i])
  }

  /** What one more event makes of the last word about a message: a full mention replaces it, an update
      changes it, "gone" leaves nothing. */
  function Heard(before: Option<Message>, e: CacheEvent, chat: Id, id: Id): Option<Message> {
    match e
    case PageCame(of, page, _) => if of == chat && HasId(page, id) then Of(page, id) else before
    case MessageCame(m) => if m.chat == chat && m.msgId == id then Some(m) else before
    case MessageEdited(m) => if m.chat == chat && m.msgId == id then Some(m) else before
    case ReactionsCame(of, about, reactions) =>
      if before.Some? && of == chat && about == id then Some(before.value.(reactions := reactions)) else before
    case FileMovedOn(fileId, haveChunks, accepted) =>
      if before.Some? then Some(FileMoved(before.value, fileId, haveChunks, accepted)) else None
    case FileWent(fileId) => if before.Some? then Some(FileDropped(before.value, fileId)) else None
    case MessagesWent(of, ids) => if of == chat && id in ids then None else before
    case _ => before
  }

  /** The last word about a message, with no regard to what a cache has room for. */
  function LastWord(events: seq<CacheEvent>, chat: Id, id: Id): Option<Message> {
    if events == [] then None
    else Heard(LastWord(events[..|events| - 1], chat, id), events[|events| - 1], chat, id)
  }

  type Words = (Id, Id) -> Option<Message>

  /** Every message held is the last word about it. */
  predicate PageAgrees(page: seq<Message>, chat: Id, words: Words) {
    forall m | m in page :: words(chat, m.msgId) == Some(m)
  }

  predicate Agrees(history: map<Id, seq<Message>>, words: Words) {
    forall chat | chat in history :: PageAgrees(history[chat], chat, words)
  }

  function After(words: Words, e: CacheEvent): Words {
    (chat: Id, id: Id) => Heard(words(chat, id), e, chat, id)
  }

  // ---- event by event ----

  lemma {:induction false} MergeAgrees(known: seq<Message>, page: seq<Message>, chat: Id, words: Words, after: Words)
    requires PageAgrees(known, chat, words) && PageAgrees(page, chat, after)
    requires forall id | !HasId(page, id) :: after(chat, id) == words(chat, id)
    ensures PageAgrees(Merge(known, page), chat, after)
  {
    MergeMembers(known, page);
  }

  lemma {:induction false} PageCameAgrees(c: CacheState, e: CacheEvent, words: Words)
    requires Tidy(c) && Lawful(e) && e.PageCame? && Agrees(c.history, words)
    ensures Agrees(Apply(c, e).history, After(words, e))
  {
    hide Merge, HasId, OncePerId;
    var page, after := e.page, After(words, e);
    forall m | m in page ensures after(e.chat, m.msgId) == Some(m) {
      PageSpeaks(page, m);
      assert after(e.chat, m.msgId) == Heard(words(e.chat, m.msgId), e, e.chat, m.msgId);
    }
    if page != [] {
      MergeAgrees(c.Page(e.chat), page, e.chat, words, after);
      MergePageTidy(c.Page(e.chat), page, e.chat in c.history);
      TouchTidy(c.(confirmed := true, dirty := true, history := c.history[e.chat := Merge(c.Page(e.chat), page)]), e.chat);
    } else {
      NobodyHere(page);
    }
  }

  lemma {:induction false} PageSpeaks(page: seq<Message>, m: Message)
    requires OncePerId(page) && m in page
    ensures HasId(page, m.msgId) && Of(page, m.msgId) == Some(m)
  {
    IndexOfOnly(page, m);
  }

  lemma {:induction false} NobodyHere(page: seq<Message>)
    requires page == []
    ensures forall id :: !HasId(page, id)
  {
  }

  lemma {:induction false} MessageCameAgrees(c: CacheState, m: Message, words: Words)
    requires Tidy(c) && Agrees(c.history, words)
    ensures Agrees(c.Arrived(m).history, After(words, MessageCame(m)))
  {
    hide Merge, OncePerId;
    if m.chat in c.history {
      var after := After(words, MessageCame(m));
      assert HasId([m], m.msgId) by { assert m in [m]; }
      assert after(m.chat, m.msgId) == Heard(words(m.chat, m.msgId), MessageCame(m), m.chat, m.msgId);
      MergeAgrees(c.history[m.chat], [m], m.chat, words, after);
      AloneOnce(m);
      MergePageTidy(c.history[m.chat], [m], true);
      TouchTidy(c.(dirty := true, history := c.history[m.chat := Merge(c.history[m.chat], [m])]), m.chat);
    }
  }

  lemma {:induction false} AloneOnce(m: Message)
    ensures OncePerId([m])
  {
  }

  lemma {:induction false} ReplaceAgrees(page: seq<Message>, i: nat, m: Message, chat: Id, words: Words, after: Words)
    requires OncePerId(page) && i < |page| && m.msgId == page[i].msgId && PageAgrees(page, chat, words)
    requires after(chat, m.msgId) == Some(m)
    requires forall id | id != m.msgId :: after(chat, id) == words(chat, id)
    ensures PageAgrees(page[i := m], chat, after)
  {
    SameIdsOnce(page, page[i := m]);
    forall x | x in page[i := m] ensures after(chat, x.msgId) == Some(x) {
      if x.msgId == m.msgId {
        assert m in page[i := m] by { assert page[i := m][i] == m; }
        IndexOfOnly(page[i := m], x);
        IndexOfOnly(page[i := m], m);
      } else {
        assert x in page;
      }
    }
  }

  lemma {:induction false} EditedAgrees(c: CacheState, m: Message, words: Words)
    requires Tidy(c) && Agrees(c.history, words)
    ensures Agrees(c.Edited(m).history, After(words, MessageEdited(m)))
  {
    hide OncePerId;
    var after := After(words, MessageEdited(m));
    if m.chat in c.history {
      var page := c.history[m.chat];
      match IndexOf(page, m.msgId)
      case None => assert forall x: Message | x in page :: x.msgId != m.msgId;
      case Some(i) => ReplaceAgrees(page, i, m, m.chat, words, after);
    }
  }

  lemma {:induction false} ReactedAgrees(c: CacheState, chat: Id, id: Id, reactions: seq<string>, words: Words)
    requires Tidy(c) && Agrees(c.history, words)
    ensures Agrees(c.Reacted(chat, id, reactions).history, After(words, ReactionsCame(chat, id, reactions)))
  {
    hide OncePerId;
    var after := After(words, ReactionsCame(chat, id, reactions));
    if chat in c.history {
      var page := c.history[chat];
      match IndexOf(page, id)
      case None => assert forall x: Message | x in page :: x.msgId != id;
      case Some(i) => ReplaceAgrees(page, i, page[i].(reactions := reactions), chat, words, after);
    }
  }

  lemma {:induction false} MapAgrees(c: CacheState, f: Message -> Message, words: Words, after: Words)
    requires Agrees(c.history, words) && forall m :: f(m).msgId == m.msgId
    requires forall chat, id, m | words(chat, id) == Some(m) :: after(chat, id) == Some(f(m))
    ensures Agrees(MapHistory(c.history, f), after)
  {
    var mapped := MapHistory(c.history, f);
    forall chat, m: Message | chat in mapped && m in mapped[chat] ensures after(chat, m.msgId) == Some(m) {
      var page := c.history[chat];
      var i :| 0 <= i < |page| && MapPage(page, f)[i] == m;
      assert words(chat, page[i].msgId) == Some(page[i]);
    }
  }

  lemma {:induction false} FileMovedAgrees(c: CacheState, fileId: Id, haveChunks: u64, accepted: bool, words: Words)
    requires Agrees(c.history, words)
    ensures Agrees(c.FileProgress(fileId, haveChunks, accepted).history, After(words, FileMovedOn(fileId, haveChunks, accepted)))
  {
    MapAgrees(c, m => FileMoved(m, fileId, haveChunks, accepted), words, After(words, FileMovedOn(fileId, haveChunks, accepted)));
  }

  lemma {:induction false} FileWentAgrees(c: CacheState, fileId: Id, words: Words)
    requires Agrees(c.history, words)
    ensures Agrees(c.FileGone(fileId).history, After(words, FileWent(fileId)))
  {
    MapAgrees(c, m => FileDropped(m, fileId), words, After(words, FileWent(fileId)));
  }

  lemma {:induction false} GoneAgrees(c: CacheState, chat: Id, ids: seq<Id>, words: Words)
    requires Agrees(c.history, words)
    ensures Agrees(c.Gone(chat, ids).history, After(words, MessagesWent(chat, ids)))
  {
    if chat in c.history { WithoutIdsMembers(c.history[chat], ids); }
  }

  lemma {:induction false} ApplyAgrees(c: CacheState, e: CacheEvent, words: Words)
    requires Tidy(c) && Lawful(e) && Agrees(c.history, words)
    ensures Agrees(Apply(c, e).history, After(words, e))
  {
    hide Merge, OncePerId, CacheState.RememberPage, CacheState.Arrived, CacheState.Edited, CacheState.Reacted,
      CacheState.Gone, CacheState.FileProgress, CacheState.FileGone;
    match e
    case PageCame(_, _, _) => PageCameAgrees(c, e, words);
    case MessageCame(m) => MessageCameAgrees(c, m, words);
    case MessageEdited(m) => EditedAgrees(c, m, words);
    case ReactionsCame(chat, id, reactions) => ReactedAgrees(c, chat, id, reactions, words);
    case FileMovedOn(fileId, haveChunks, accepted) => FileMovedAgrees(c, fileId, haveChunks, accepted, words);
    case FileWent(fileId) => FileWentAgrees(c, fileId, words);
    case MessagesWent(chat, ids) => GoneAgrees(c, chat, ids, words);
    case _ =>
  }

  predicate AllLawful(events: seq<CacheEvent>) {
    forall i | 0 <= i < |events| :: Lawful(events[i])
  }

  lemma {:induction false} RunAgrees(events: seq<CacheEvent>)
    requires AllLawful(events)
    ensures Agrees(Run(events).history, (chat: Id, id: Id) => LastWord(events, chat, id))
  {
    if events != [] {
      var n := |events| - 1;
      var words: Words := (chat: Id, id: Id) => LastWord(events[..n], chat, id);
      RunAgrees(events[..n]);
      RunTidy(events[..n]);
      ApplyAgrees(Run(events[..n]), events[n], words);
    }
  }

  /** Over every run, a message the cache shows is exactly the last word about it: nothing deleted is
      shown, nothing shown is out of date. */
  lemma {:induction false} ShownIsLastWord(events: seq<CacheEvent>, chat: Id, m: Message)
    requires AllLawful(events) && m in Run(events).Page(chat)
    ensures LastWord(events, chat, m.msgId) == Some(m)
  {
    RunAgrees(events);
  }

  /** A chat just used is there, and shows the newest of what was known and what came. */
  lemma {:induction false} UsedIsShown(c: CacheState, e: CacheEvent, chat: Id)
    requires Tidy(c) && Uses(c, e, chat)
    ensures Apply(c, e).Page(chat) == Merge(c.Page(chat), if e.PageCame? then e.page else [e.m])
  {
    hide Merge, OncePerId;
    UseIsUsed(c, e, chat);
    WithoutMembers(c.touched, chat);
    var page := if e.PageCame? then e.page else [e.m];
    var next := c.(dirty := true, confirmed := c.confirmed || e.PageCame?, history := c.history[chat := Merge(c.Page(chat), page)]);
    TouchKeepsItself(next, chat);
  }

  lemma {:induction false} TouchKeepsItself(c: CacheState, chat: Id)
    requires |c.touched| <= DESKTOP_CACHE_CHATS && chat in c.history
    ensures c.Touch(chat).Page(chat) == c.history[chat]
  {
    WithoutMembers(c.touched, chat);
    var ids := Without(c.touched, chat) + [chat];
    var next := c.(touched := ids);
    if |ids| > DESKTOP_CACHE_CHATS {
      var rest := next.(touched := ids[1..], history := next.history - {ids[0]});
      assert next.Evicted() == rest.Evicted() == rest;
      assert ids[0] in Without(c.touched, chat);
    }
  }

  // ---- which chats give way ----

  /** The event puts a chat's messages before someone. */
  predicate Uses(c: CacheState, e: CacheEvent, chat: Id) {
    (e.PageCame? && e.chat == chat && e.page != []) || (e.MessageCame? && e.m.chat == chat && chat in c.history)
  }

  /** The number of the last event that used a chat; 0 if none did. */
  function LastUse(events: seq<CacheEvent>, chat: Id): nat {
    if events == [] then 0
    else if Uses(Run(events[..|events| - 1]), events[|events| - 1], chat) then |events|
    else LastUse(events[..|events| - 1], chat)
  }

  lemma {:induction false} LastUseBound(events: seq<CacheEvent>, chat: Id)
    ensures LastUse(events, chat) <= |events|
  {
    if events != [] { LastUseBound(events[..|events| - 1], chat); }
  }

  predicate Rising(ids: seq<Id>, rank: Id -> nat) {
    ids == [] || ((forall x | x in ids[1..] :: rank(ids[0]) < rank(x)) && Rising(ids[1..], rank))
  }

  lemma {:induction false} RisingWithout(ids: seq<Id>, id: Id, rank: Id -> nat)
    requires Rising(ids, rank)
    ensures Rising(Without(ids, id), rank)
  {
    if ids != [] {
      RisingWithout(ids[1..], id, rank);
      WithoutMembers(ids[1..], id);
    }
  }

  lemma {:induction false} RisingOnly(ids: seq<Id>, alive: set<Id>, rank: Id -> nat)
    requires Rising(ids, rank)
    ensures Rising(Only(ids, alive), rank)
  {
    if ids != [] {
      RisingOnly(ids[1..], alive, rank);
      OnlyMembers(ids[1..], alive);
    }
  }

  lemma {:induction false} RisingSnoc(ids: seq<Id>, id: Id, rank: Id -> nat)
    requires Rising(ids, rank) && forall x | x in ids :: rank(x) < rank(id)
    ensures Rising(ids + [id], rank)
  {
    if ids != [] {
      assert ids == [ids[0]] + ids[1..];
      RisingSnoc(ids[1..], id, rank);
      assert (ids + [id])[1..] == ids[1..] + [id];
    }
  }

  lemma {:induction false} RisingSame(ids: seq<Id>, rank: Id -> nat, other: Id -> nat)
    requires Rising(ids, rank) && forall x | x in ids :: other(x) == rank(x)
    ensures Rising(ids, other)
  {
    if ids != [] {
      assert ids == [ids[0]] + ids[1..];
      RisingSame(ids[1..], rank, other);
    }
  }

  /** Using a chat moves it to the end of the list; when 64 others are remembered the first of them goes. */
  function Used(touched: seq<Id>, chat: Id): seq<Id> {
    var ids := Without(touched, chat) + [chat];
    if |ids| > DESKTOP_CACHE_CHATS then ids[1..] else ids
  }

  lemma {:induction false} TouchIsUse(c: CacheState, chat: Id)
    requires |c.touched| <= DESKTOP_CACHE_CHATS
    ensures c.Touch(chat).touched == Used(c.touched, chat)
  {
    WithoutMembers(c.touched, chat);
    var ids := Without(c.touched, chat) + [chat];
    var next := c.(touched := ids);
    if |ids| > DESKTOP_CACHE_CHATS {
      var rest := next.(touched := ids[1..], history := next.history - {ids[0]});
      assert next.Evicted() == rest.Evicted() == rest;
    }
  }

  lemma {:induction false} UseIsUsed(c: CacheState, e: CacheEvent, chat: Id)
    requires Tidy(c) && Uses(c, e, chat)
    ensures Apply(c, e).touched == Used(c.touched, chat)
  {
    hide Merge;
    if e.PageCame? {
      TouchIsUse(c.(confirmed := true, dirty := true, history := c.history[chat := Merge(c.Page(chat), e.page)]), chat);
    } else {
      TouchIsUse(c.(dirty := true, history := c.history[chat := Merge(c.history[chat], [e.m])]), chat);
    }
  }

  /** Nothing else adds to the list or reorders it. */
  lemma {:induction false} NoUseRises(c: CacheState, e: CacheEvent, rank: Id -> nat)
    requires Rising(c.touched, rank) && forall chat :: !Uses(c, e, chat)
    ensures Rising(Apply(c, e).touched, rank)
    ensures forall x | x in Apply(c, e).touched :: x in c.touched
  {
    hide Merge, MapHistory;
    match e
    case ChatsCame(chats) =>
      RisingOnly(c.touched, ChatIds(chats), rank);
      OnlyMembers(c.touched, ChatIds(chats));
    case PageCame(chat, page, fromStart) =>
      assert !Uses(c, e, chat);
      RisingWithout(c.touched, chat, rank);
      WithoutMembers(c.touched, chat);
    case MessageCame(m) => assert !Uses(c, e, m.chat);
    case _ =>
  }

  lemma {:induction false} UsedRises(touched: seq<Id>, chat: Id, rank: Id -> nat, later: Id -> nat)
    requires Rising(touched, rank) && (forall x | x != chat :: later(x) == rank(x))
    requires forall x | x in touched :: rank(x) < later(chat)
    ensures Rising(Used(touched, chat), later)
    ensures forall x | x in Used(touched, chat) :: x in touched || x == chat
  {
    WithoutMembers(touched, chat);
    RisingWithout(touched, chat, rank);
    RisingSame(Without(touched, chat), rank, later);
    RisingSnoc(Without(touched, chat), chat, later);
  }

  /** The list of chats is always in the order of their last use. */
  lemma {:induction false} ListedByLastUse(events: seq<CacheEvent>)
    requires AllLawful(events)
    ensures Rising(Run(events).touched, (chat: Id) => LastUse(events, chat))
  {
    if events != [] {
      var n := |events| - 1;
      var before, e := Run(events[..n]), events[n];
      var rank, later := (chat: Id) => LastUse(events[..n], chat), (chat: Id) => LastUse(events, chat);
      ListedByLastUse(events[..n]);
      RunTidy(events[..n]);
      if chat :| Uses(before, e, chat) {
        UseIsUsed(before, e, chat);
        forall x | x in before.touched ensures rank(x) < later(chat) { LastUseBound(events[..n], x); }
        UsedRises(before.touched, chat, rank, later);
      } else {
        NoUseRises(before, e, rank);
        RisingSame(Apply(before, e).touched, rank, later);
      }
    }
  }

  /** A chat that gives way to another was used before every chat that stays. */
  lemma {:induction false} LeastRecentGivesWay(events: seq<CacheEvent>, e: CacheEvent, used: Id, gone: Id, kept: Id)
    requires AllLawful(events) && Lawful(e) && Uses(Run(events), e, used)
    requires gone in Run(events).history && gone !in Run(events + [e]).history && kept in Run(events + [e]).history
    ensures LastUse(events + [e], gone) < LastUse(events + [e], kept)
    ensures |Run(events + [e]).history| == DESKTOP_CACHE_CHATS
  {
    hide Tidy, Uses, Apply, AllLawful;
    var all := events + [e];
    assert all[..|all| - 1] == events;
    SnocLawful(events, e);
    RunTidy(events);
    RunTidy(all);
    UseIsUsed(Run(events), e, used);
    WhoIsListed(Run(events));
    WhoIsListed(Run(all));
    GaveWay(Run(events).touched, used, gone);
    ListedByLastUse(events);
    LowestGoes(Run(events).touched, used, gone, kept, (chat: Id) => LastUse(events, chat));
    OthersUnused(events, e, used, gone);
    if kept != used { OthersUnused(events, e, used, kept); } else { LastUseBound(events, gone); }
  }

  lemma {:induction false} SnocLawful(events: seq<CacheEvent>, e: CacheEvent)
    requires AllLawful(events) && Lawful(e)
    ensures AllLawful(events + [e])
  {
  }

  lemma {:induction false} WhoIsListed(c: CacheState)
    requires Tidy(c)
    ensures forall chat :: chat in c.touched <==> chat in c.history
    ensures |c.history| == |c.touched| <= DESKTOP_CACHE_CHATS
  {
    AsManyAsListed(c.touched, c.history.Keys);
  }

  lemma {:induction false} OthersUnused(events: seq<CacheEvent>, e: CacheEvent, used: Id, other: Id)
    requires Uses(Run(events), e, used)
    ensures LastUse(events + [e], used) == |events| + 1
    ensures other != used ==> LastUse(events + [e], other) == LastUse(events, other)
  {
    assert (events + [e])[..|events|] == events;
  }

  lemma {:induction false} LowestGoes(touched: seq<Id>, used: Id, gone: Id, kept: Id, rank: Id -> nat)
    requires Rising(touched, rank) && Without(touched, used) != [] && Without(touched, used)[0] == gone
    requires kept in Without(touched, used)[1..] + [used]
    ensures kept == used || rank(gone) < rank(kept)
  {
    RisingWithout(touched, used, rank);
  }

  lemma {:induction false} GaveWay(touched: seq<Id>, chat: Id, gone: Id)
    requires gone in touched && gone !in Used(touched, chat) && |touched| <= DESKTOP_CACHE_CHATS
    ensures gone != chat && |Used(touched, chat)| == DESKTOP_CACHE_CHATS
    ensures Without(touched, chat) != [] && Without(touched, chat)[0] == gone
    ensures Used(touched, chat) == Without(touched, chat)[1..] + [chat]
  {
    var ids := Without(touched, chat);
    WithoutMembers(touched, chat);
    assert gone in ids + [chat];
    assert Used(touched, chat) != ids + [chat];
    assert (ids + [chat])[1..] == ids[1..] + [chat];
    assert ids == [ids[0]] + ids[1..];
  }

  lemma {:induction false} AsManyAsListed(ids: seq<Id>, all: set<Id>)
    requires NoTwice(ids) && forall x :: x in ids <==> x in all
    ensures |all| == |ids|
  {
    if ids != [] {
      assert ids == [ids[0]] + ids[1..];
      AsManyAsListed(ids[1..], all - {ids[0]});
    }
  }

  // ---- the flag ----

  datatype Content = Content(chats: seq<ChatSummary>, history: map<Id, seq<Message>>, avatars: map<Id, Face>, mine: Option<Face>)

  /** Everything a snapshot of the cache is made of. */
  function ContentOf(c: CacheState): Content {
    Content(c.chats, c.history, c.avatars, c.mine)
  }

  lemma {:induction false} DropNothing(files: seq<Attachment>, fileId: Id)
    requires forall f | f in files :: f.fileId != fileId
    ensures DropFile(files, fileId) == files
  {
    if files != [] {
      assert files == [files[0]] + files[1..];
      DropNothing(files[1..], fileId);
    }
  }

  lemma {:induction false} MapNothing(history: map<Id, seq<Message>>, f: Message -> Message)
    requires forall chat, i | chat in history && 0 <= i < |history[chat]| :: f(history[chat][i]) == history[chat][i]
    ensures MapHistory(history, f) == history
  {
    forall chat | chat in history ensures MapPage(history[chat], f) == history[chat] {
    }
  }

  lemma {:induction false} NoFileNoChange(history: map<Id, seq<Message>>, fileId: Id, haveChunks: u64, accepted: bool)
    requires !AnyFile(history, fileId)
    ensures MapHistory(history, m => FileMoved(m, fileId, haveChunks, accepted)) == history
    ensures MapHistory(history, m => FileDropped(m, fileId)) == history
  {
    forall chat, i | chat in history && 0 <= i < |history[chat]|
      ensures FileMoved(history[chat][i], fileId, haveChunks, accepted) == history[chat][i]
      ensures FileDropped(history[chat][i], fileId) == history[chat][i]
    {
      var m := history[chat][i];
      assert !HasFile(m, fileId);
      assert MoveFiles(m.files, fileId, haveChunks, accepted) == m.files;
      DropNothing(m.files, fileId);
    }
    MapNothing(history, m => FileMoved(m, fileId, haveChunks, accepted));
    MapNothing(history, m => FileDropped(m, fileId));
  }

  /** One event: a change sets the flag, and nothing clears it. */
  lemma {:induction false} ChangeIsMarked(c: CacheState, e: CacheEvent)
    requires !e.SnapshotTaken? && !e.PairingRevoked?
    ensures c.dirty ==> Apply(c, e).dirty
    ensures ContentOf(Apply(c, e)) != ContentOf(c) ==> Apply(c, e).dirty
  {
    match e
    case FileMovedOn(fileId, haveChunks, accepted) =>
      if !AnyFile(c.history, fileId) { NoFileNoChange(c.history, fileId, haveChunks, accepted); }
    case FileWent(fileId) =>
      if !AnyFile(c.history, fileId) { NoFileNoChange(c.history, fileId, 0, false); }
    case MessageCame(m) => TouchKeepsFlag(c.(dirty := true, history := if m.chat in c.history then c.history[m.chat := Merge(c.history[m.chat], [m])] else c.history), m.chat);
    case PageCame(chat, page, _) => TouchKeepsFlag(c.(confirmed := true, dirty := true, history := c.history[chat := Merge(c.Page(chat), page)]), chat);
    case _ =>
  }

  lemma {:induction false} TouchKeepsFlag(c: CacheState, chat: Id)
    ensures c.Touch(chat).dirty == c.dirty
  {
    EvictKeepsFlag(c.(touched := Without(c.touched, chat) + [chat]));
  }

  lemma {:induction false} EvictKeepsFlag(c: CacheState)
    ensures c.Evicted().dirty == c.dirty
    decreases |c.touched|
  {
    if |c.touched| > DESKTOP_CACHE_CHATS {
      EvictKeepsFlag(c.(touched := c.touched[1..], history := c.history - {c.touched[0]}));
    }
  }

  function RunFrom(c: CacheState, events: seq<CacheEvent>): CacheState {
    if events == [] then c else Apply(RunFrom(c, events[..|events| - 1]), events[|events| - 1])
  }

  /** However long ago the last snapshot was: while the flag is down, a new one would say the same. */
  lemma {:induction false} UnmarkedIsUnchanged(c: CacheState, events: seq<CacheEvent>)
    requires forall i | 0 <= i < |events| :: !events[i].SnapshotTaken? && !events[i].PairingRevoked?
    ensures c.dirty ==> RunFrom(c, events).dirty
    ensures !RunFrom(c, events).dirty ==> ContentOf(RunFrom(c, events)) == ContentOf(c)
  {
    if events != [] {
      var n := |events| - 1;
      UnmarkedIsUnchanged(c, events[..n]);
      ChangeIsMarked(RunFrom(c, events[..n]), events[n]);
    }
  }
}
