/** What every run of a terminal's cache keeps: its bounds, its agreement with the last word heard about
    each message, the order in which chats give way, and a sound "changed" flag. */
module CompanionCacheLaws {
  import opened Bytes
  import opened CompanionCache
  import opened CompanionPages

  predicate NoTwice(ids: seq<Id>) {
    ids == [] || (ids[0] !in ids[1..] && NoTwice(ids[1..]))
  }

  predicate FaceFit(face: Face) {
    face.bytes != [] && face.stamp != 0
  }

  predicate PagesTidy(history: map<Id, seq<Message>>) {
    forall chat | chat in history :: |history[chat]| <= DESKTOP_CACHE_PER_CHAT && OncePerId(history[chat])
  }

  ghost predicate ChatsTidy(touched: seq<Id>, history: map<Id, seq<Message>>) {
    NoTwice(touched) && |touched| <= DESKTOP_CACHE_CHATS && forall chat :: chat in touched <==> chat in history
  }

  predicate FacesTidy(c: CacheState) {
    |c.avatars| <= DESKTOP_CACHE_AVATARS && (forall chat | chat in c.avatars :: FaceFit(c.avatars[chat])) &&
    (c.mine.Some? ==> FaceFit(c.mine.value))
  }

  /** The bounds: at most 64 chats of at most 1000 messages, each id once, 256 faces, and a list of the
      chats remembered, each once. */
  ghost predicate Tidy(c: CacheState) {
    PagesTidy(c.history) && ChatsTidy(c.touched, c.history) && FacesTidy(c)
  }

  /** A phone's page names no message twice. */
  predicate Lawful(e: CacheEvent) {
    e.PageCame? ==> OncePerId(e.page)
  }

  // ---- lists of chats ----

  lemma {:induction false} WithoutMembers(ids: seq<Id>, id: Id)
    ensures forall x :: x in Without(ids, id) <==> x in ids && x != id
    ensures |Without(ids, id)| <= |ids|
    ensures NoTwice(ids) ==> NoTwice(Without(ids, id))
  {
    if ids != [] {
      WithoutMembers(ids[1..], id);
      assert ids == [ids[0]] + ids[1..];
    }
  }

  lemma {:induction false} OnlyMembers(ids: seq<Id>, alive: set<Id>)
    ensures forall x :: x in Only(ids, alive) <==> x in ids && x in alive
    ensures |Only(ids, alive)| <= |ids|
    ensures NoTwice(ids) ==> NoTwice(Only(ids, alive))
  {
    if ids != [] {
      OnlyMembers(ids[1..], alive);
      assert ids == [ids[0]] + ids[1..];
    }
  }

  lemma {:induction false} SnocNoTwice(ids: seq<Id>, id: Id)
    requires NoTwice(ids) && id !in ids
    ensures NoTwice(ids + [id])
  {
    if ids != [] {
      SnocNoTwice(ids[1..], id);
      assert (ids + [id])[1..] == ids[1..] + [id];
    }
  }

  lemma {:induction false} FewChatIds(chats: seq<ChatSummary>)
    ensures |ChatIds(chats)| <= |chats|
  {
    if chats == [] {
      assert ChatIds(chats) == {};
    } else {
      var n := |chats| - 1;
      FewChatIds(chats[..n]);
      assert ChatIds(chats) == ChatIds(chats[..n]) + {chats[n].chat};
    }
  }

  lemma {:induction false} Fewer<T>(a: set<T>, b: set<T>)
    requires a <= b
    ensures |a| <= |b|
  {
    if a != {} {
      var x :| x in a;
      Fewer(a - {x}, b - {x});
    }
  }

  // ---- eviction ----

  /** Whatever gives way, what stays is as it was. */
  lemma {:induction false} EvictedTidy(c: CacheState)
    requires NoTwice(c.touched) && forall chat :: chat in c.touched <==> chat in c.history
    ensures ChatsTidy(c.Evicted().touched, c.Evicted().history)
    ensures c.Evicted() == c.(history := c.Evicted().history, touched := c.Evicted().touched)
    ensures forall chat | chat in c.Evicted().history :: chat in c.history && c.Evicted().history[chat] == c.history[chat]
    decreases |c.touched|
  {
    if |c.touched| > DESKTOP_CACHE_CHATS {
      var next := c.(touched := c.touched[1..], history := c.history - {c.touched[0]});
      assert c.touched == [c.touched[0]] + c.touched[1..];
      EvictedTidy(next);
    }
  }

  lemma {:induction false} TouchTidy(c: CacheState, chat: Id)
    requires NoTwice(c.touched)
    requires forall x :: x in c.touched || x == chat <==> x in c.history
    ensures ChatsTidy(c.Touch(chat).touched, c.Touch(chat).history)
    ensures c.Touch(chat) == c.(history := c.Touch(chat).history, touched := c.Touch(chat).touched)
    ensures forall x | x in c.Touch(chat).history :: x in c.history && c.Touch(chat).history[x] == c.history[x]
  {
    WithoutMembers(c.touched, chat);
    SnocNoTwice(Without(c.touched, chat), chat);
    EvictedTidy(c.(touched := Without(c.touched, chat) + [chat]));
  }

  lemma {:induction false} TrimAvatarsTidy(c: CacheState)
    requires (forall chat | chat in c.avatars :: FaceFit(c.avatars[chat])) && (c.mine.Some? ==> FaceFit(c.mine.value))
    ensures FacesTidy(c.TrimAvatars()) && c.TrimAvatars() == c.(avatars := c.TrimAvatars().avatars)
  {
    if |c.avatars| > DESKTOP_CACHE_AVATARS {
      var first := if |c.chats| <= DESKTOP_CACHE_AVATARS then c.chats else c.chats[..DESKTOP_CACHE_AVATARS];
      var r := c.TrimAvatars().avatars;
      FewChatIds(first);
      Fewer(r.Keys, ChatIds(first));
    }
  }

  // ---- the bounds, operation by operation ----

  lemma {:induction false} OutliveTidy(c: CacheState, chats: seq<ChatSummary>)
    requires Tidy(c)
    ensures PagesTidy(c.Outlive(chats).history) && ChatsTidy(c.Outlive(chats).touched, c.Outlive(chats).history)
  {
    hide OncePerId;
    OnlyMembers(c.touched, ChatIds(chats));
  }

  lemma {:induction false} ChatsCameTidy(c: CacheState, chats: seq<ChatSummary>)
    requires Tidy(c)
    ensures Tidy(c.RememberChats(chats))
  {
    hide ChatsTidy, PagesTidy, CacheState.TrimAvatars;
    OutliveTidy(c, chats);
    TrimAvatarsTidy(c.Outlive(chats));
    TidyMarked(c.Outlive(chats).TrimAvatars());
  }

  lemma {:induction false} TidyMarked(c: CacheState)
    requires Tidy(c)
    ensures Tidy(c.(confirmed := true, dirty := true))
  {
  }

  lemma {:induction false} PageCameTidy(c: CacheState, chat: Id, page: seq<Message>, fromStart: bool)
    requires Tidy(c) && OncePerId(page)
    ensures Tidy(c.RememberPage(chat, page, fromStart))
  {
    hide OncePerId;
    if page == [] {
      WithoutMembers(c.touched, chat);
    } else {
      MergePageTidy(c.Page(chat), page, chat in c.history);
      TouchTidy(c.(confirmed := true, dirty := true, history := c.history[chat := Merge(c.Page(chat), page)]), chat);
    }
  }

  lemma {:induction false} MergePageTidy(known: seq<Message>, page: seq<Message>, remembered: bool)
    requires OncePerId(page) && if remembered then OncePerId(known) else known == []
    ensures OncePerId(Merge(known, page)) && |Merge(known, page)| <= DESKTOP_CACHE_PER_CHAT
  {
    MergeOnce(known, page);
    MergeMembers(known, page);
  }

  lemma {:induction false} FaceCameTidy(c: CacheState, of: Option<Id>, bytes: Option<seq<Byte>>, stamp: u64)
    requires Tidy(c)
    ensures Tidy(c.RememberAvatar(of, bytes, stamp))
  {
    if of.Some? {
      if bytes.Some? && bytes.value != [] && stamp != 0 {
        TrimAvatarsTidy(c.(confirmed := true, dirty := true, avatars := c.avatars[of.value := Face(bytes.value, stamp)]));
      } else {
        Fewer((c.avatars - {of.value}).Keys, c.avatars.Keys);
      }
    }
  }

  lemma {:induction false} MessageCameTidy(c: CacheState, m: Message)
    requires Tidy(c)
    ensures Tidy(c.Arrived(m))
  {
    if m.chat in c.history {
      MergePageTidy(c.history[m.chat], [m], true);
      TouchTidy(c.(dirty := true, history := c.history[m.chat := Merge(c.history[m.chat], [m])]), m.chat);
    }
  }

  lemma {:induction false} ReplaceTidy(c: CacheState, chat: Id, i: nat, m: Message)
    requires Tidy(c) && chat in c.history && i < |c.history[chat]| && m.msgId == c.history[chat][i].msgId
    ensures Tidy(c.(dirty := true, history := c.history[chat := c.history[chat][i := m]]))
  {
    SameIdsOnce(c.history[chat], c.history[chat][i := m]);
  }

  lemma {:induction false} MapTidy(c: CacheState, f: Message -> Message, dirty: bool)
    requires Tidy(c) && forall m :: f(m).msgId == m.msgId
    ensures Tidy(c.(history := MapHistory(c.history, f), dirty := dirty))
  {
    forall chat | chat in c.history ensures OncePerId(MapPage(c.history[chat], f)) {
      SameIdsOnce(c.history[chat], MapPage(c.history[chat], f));
    }
  }

  lemma {:induction false} GoneTidy(c: CacheState, chat: Id, ids: seq<Id>)
    requires Tidy(c)
    ensures Tidy(c.Gone(chat, ids))
  {
    if chat in c.history {
      WithoutIdsOnce(c.history[chat], ids);
      WithoutIdsShorter(c.history[chat], ids);
    }
  }

  lemma {:induction false} WithoutIdsShorter(page: seq<Message>, ids: seq<Id>)
    ensures |WithoutIds(page, ids)| <= |page|
  {
    if page != [] { WithoutIdsShorter(page[1..], ids); }
  }

  /** Every operation keeps the bounds. */
  lemma {:induction false} ApplyTidy(c: CacheState, e: CacheEvent)
    requires Tidy(c) && Lawful(e)
    ensures Tidy(Apply(c, e))
  {
    match e
    case ChatsCame(chats) => ChatsCameTidy(c, chats);
    case PageCame(chat, page, fromStart) => PageCameTidy(c, chat, page, fromStart);
    case FaceCame(of, bytes, stamp) => FaceCameTidy(c, of, bytes, stamp);
    case MessageCame(m) => MessageCameTidy(c, m);
    case MessageEdited(m) =>
      if m.chat in c.history && IndexOf(c.history[m.chat], m.msgId).Some? {
        ReplaceTidy(c, m.chat, IndexOf(c.history[m.chat], m.msgId).value, m);
      }
    case ReactionsCame(chat, id, reactions) =>
      if chat in c.history && IndexOf(c.history[chat], id).Some? {
        var i := IndexOf(c.history[chat], id).value;
        ReplaceTidy(c, chat, i, c.history[chat][i].(reactions := reactions));
      }
    case FileMovedOn(fileId, haveChunks, accepted) =>
      MapTidy(c, m => FileMoved(m, fileId, haveChunks, accepted), c.dirty || AnyFile(c.history, fileId));
    case FileWent(fileId) => MapTidy(c, m => FileDropped(m, fileId), c.dirty || AnyFile(c.history, fileId));
    case MessagesWent(chat, ids) => GoneTidy(c, chat, ids);
    case _ =>
  }

  /** In every reachable cache. */
  lemma {:induction false} RunTidy(events: seq<CacheEvent>)
    requires forall i | 0 <= i < |events| :: Lawful(events[i])
    ensures Tidy(Run(events))
  {
    if events != [] {
      var n := |events| - 1;
      RunTidy(events[..n]);
      ApplyTidy(Run(events[..n]), events[n]);
    }
  }
}
