/** The terminal's cache as an object whose methods change it in place. Each does to the fields what the
    operation of the same name does to a cache state. */
module CompanionMemory {
  import opened Bytes
  import opened CompanionCache

  method Find(page: seq<Message>, id: Id) returns (slot: Option<nat>)
    ensures slot == IndexOf(page, id)
    ensures slot.Some? ==> slot.value < |page|
  {
    var i := 0;
    while i < |page|
      invariant i <= |page|
      invariant IndexOf(page, id) == match IndexOf(page[i..], id) case None => None case Some(k) => Some(i + k)
    {
      if page[i].msgId == id { return Some(i); }
      assert page[i..][1..] == page[i + 1..];
      i := i + 1;
    }
    return None;
  }

  method EachOf(page: seq<Message>, f: Message -> Message, fileId: Id) returns (r: seq<Message>, carried: bool)
    ensures r == MapPage(page, f)
    ensures carried <==> exists i | 0 <= i < |page| :: HasFile(page[i], fileId)
  {
    r, carried := [], false;
    var i := 0;
    while i < |page|
      invariant i <= |page| && r == MapPage(page[..i], f)
      invariant carried <==> exists k | 0 <= k < i :: HasFile(page[k], fileId)
    {
      r := r + [f(page[i])];
      carried := carried || HasFile(page[i], fileId);
      i := i + 1;
    }
    assert page[..|page|] == page;
  }

  class Cache {
    var chats: seq<ChatSummary>
    var history: map<Id, seq<Message>>
    var touched: seq<Id>
    var dirty: bool
    var confirmed: bool
    var avatars: map<Id, Face>
    var mine: Option<Face>

    function State(): CacheState
      reads this
    {
      CacheState(chats, history, touched, dirty, confirmed, avatars, mine)
    }

    constructor ()
      ensures State() == EMPTY
    {
      chats, history, touched := [], map[], [];
      dirty, confirmed := false, false;
      avatars, mine := map[], None;
    }

    method Unconfirm()
      modifies this
      ensures State() == old(State()).Unconfirm()
    {
      confirmed := false;
    }

    method Touch(chat: Id)
      modifies this
      ensures State() == old(State()).Touch(chat)
    {
      touched := Without(touched, chat) + [chat];
      while |touched| > DESKTOP_CACHE_CHATS
        invariant State().Evicted() == old(State()).Touch(chat)
      {
        var evicted := touched[0];
        touched := touched[1..];
        history := history - {evicted};
      }
    }

    method TrimAvatars()
      modifies this
      ensures State() == old(State()).TrimAvatars()
    {
      if |avatars| <= DESKTOP_CACHE_AVATARS { return; }
      var keep: set<Id> := {};
      var i := 0;
      while i < |chats| && i < DESKTOP_CACHE_AVATARS
        invariant i <= |chats| && i <= DESKTOP_CACHE_AVATARS
        invariant State() == old(State())
        invariant keep == ChatIds(chats[..i])
      {
        assert chats[..i + 1][..i] == chats[..i];
        AddChatId(chats[..i], chats[i]);
        assert chats[..i + 1] == chats[..i] + [chats[i]];
        keep := keep + {chats[i].chat};
        i := i + 1;
      }
      assert chats[..|chats|] == chats;
      avatars := map chat | chat in avatars && chat in keep :: avatars[chat];
    }

    method RememberChats(newChats: seq<ChatSummary>)
      modifies this
      ensures State() == old(State()).RememberChats(newChats)
    {
      var alive, faced := ChatIds(newChats), FacedIds(newChats);
      history := map chat | chat in history && chat in alive :: history[chat];
      touched := Only(touched, alive);
      chats := newChats;
      avatars := map chat | chat in avatars && chat in faced :: avatars[chat];
      assert State() == old(State()).Outlive(newChats);
      TrimAvatars();
      confirmed := true;
      dirty := true;
    }

    method RememberPage(chat: Id, page: seq<Message>, fromStart: bool)
      modifies this
      ensures State() == old(State()).RememberPage(chat, page, fromStart)
    {
      confirmed := true;
      dirty := true;
      if page == [] {
        if fromStart {
          history := history - {chat};
          touched := Without(touched, chat);
        }
        return;
      }
      var known := if chat in history then history[chat] else [];
      known := WithoutIdsOf(known, page);
      known := known + page;
      known := Trim(SortPage(known));
      history := history[chat := known];
      Touch(chat);
    }

    method RememberAvatar(chat: Option<Id>, bytes: Option<seq<Byte>>, stamp: u64)
      modifies this
      ensures State() == old(State()).RememberAvatar(chat, bytes, stamp)
    {
      confirmed := true;
      dirty := true;
      var cached := None;
      if bytes.Some? && bytes.value != [] && stamp != 0 { cached := Some(Face(bytes.value, stamp)); }
      if chat.None? {
        mine := cached;
      } else if cached.Some? {
        avatars := avatars[chat.value := cached.value];
        TrimAvatars();
      } else {
        avatars := avatars - {chat.value};
      }
    }

    method Arrived(m: Message)
      modifies this
      ensures State() == old(State()).Arrived(m)
    {
      if m.chat !in history { return; }
      dirty := true;
      var known := WithoutIdsOf(history[m.chat], [m]);
      known := known + [m];
      known := Trim(SortPage(known));
      history := history[m.chat := known];
      Touch(m.chat);
    }

    method Reacted(chat: Id, id: Id, reactions: seq<string>)
      modifies this
      ensures State() == old(State()).Reacted(chat, id, reactions)
    {
      if chat !in history { return; }
      var slot := Find(history[chat], id);
      if slot.Some? {
        var m := history[chat][slot.value];
        history := history[chat := history[chat][slot.value := m.(reactions := reactions)]];
        dirty := true;
      }
    }

    method Edited(m: Message)
      modifies this
      ensures State() == old(State()).Edited(m)
    {
      if m.chat !in history { return; }
      var slot := Find(history[m.chat], m.msgId);
      if slot.Some? {
        history := history[m.chat := history[m.chat][slot.value := m]];
        dirty := true;
      }
    }

    method FileProgress(fileId: Id, haveChunks: u64, accepted: bool)
      modifies this
      ensures State() == old(State()).FileProgress(fileId, haveChunks, accepted)
    {
      var f := (m: Message) => FileMoved(m, fileId, haveChunks, accepted);
      var any := EachMessage(f, fileId);
      dirty := dirty || any;
    }

    method FileGone(fileId: Id)
      modifies this
      ensures State() == old(State()).FileGone(fileId)
    {
      var f := (m: Message) => FileDropped(m, fileId);
      var any := EachMessage(f, fileId);
      dirty := dirty || any;
    }

    /** Every message of every page in turn, noting whether any carried the file. */
    method EachMessage(f: Message -> Message, fileId: Id) returns (any: bool)
      modifies `history
      ensures history == MapHistory(old(history), f)
      ensures any <==> AnyFile(old(history), fileId)
    {
      hide AnyFile, MapPage;
      ghost var was := history;
      var todo := history.Keys;
      any := false;
      assert was - todo == map[];
      NoPages(fileId);
      while todo != {}
        invariant todo <= history.Keys == was.Keys
        invariant forall chat | chat in todo :: history[chat] == was[chat]
        invariant forall chat | chat in history && chat !in todo :: history[chat] == MapPage(was[chat], f)
        invariant any <==> AnyFile(was - todo, fileId)
      {
        var chat :| chat in todo;
        var page, carried := EachOf(history[chat], f, fileId);
        OneMorePage(was - todo, was - (todo - {chat}), chat, was[chat], fileId);
        history := history[chat := page];
        todo := todo - {chat};
        any := any || carried;
      }
      assert was - todo == was;
    }

    method Gone(chat: Id, ids: seq<Id>)
      modifies this
      ensures State() == old(State()).Gone(chat, ids)
    {
      if chat in history { history := history[chat := WithoutIds(history[chat], ids)]; }
      chats := ClearText(chats, chat);
      dirty := true;
    }
  }

  lemma {:induction false} AddChatId(chats: seq<ChatSummary>, chat: ChatSummary)
    ensures ChatIds(chats + [chat]) == ChatIds(chats) + {chat.chat}
  {
    var all := chats + [chat];
    forall x | x in ChatIds(chats) ensures x in ChatIds(all) {
      var i :| 0 <= i < |chats| && chats[i].chat == x;
      assert all[i].chat == x;
    }
    assert all[|chats|].chat == chat.chat;
  }

  lemma {:induction false} NoPages(fileId: Id)
    ensures !AnyFile(map[], fileId)
  {
  }

  lemma {:induction false} OneMorePage(before: map<Id, seq<Message>>, now: map<Id, seq<Message>>, chat: Id,
                                       page: seq<Message>, fileId: Id)
    requires chat !in before && now == before[chat := page]
    ensures AnyFile(now, fileId) <==> AnyFile(before, fileId) || exists i | 0 <= i < |page| :: HasFile(page[i], fileId)
  {
    if c, i :| c in before && 0 <= i < |before[c]| && HasFile(before[c][i], fileId) {
      assert c in now && HasFile(now[c][i], fileId);
    }
    if i :| 0 <= i < |page| && HasFile(page[i], fileId) {
      assert HasFile(now[chat][i], fileId);
    }
  }
}
