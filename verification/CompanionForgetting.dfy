/** What a terminal's cache forgets, and that it forgets nothing else. */
module CompanionForgetting {
  import opened Bytes
  import opened CompanionCache
  import opened CompanionPages
  import opened CompanionCacheLaws
  import opened CompanionCacheTheorems
  import P = CompanionProtocol
  import R = CompanionRuns
  import N = CompanionNews

  // ---- a list of chats ----

  /** Some entry of the list is of this chat. */
  predicate Names(chats: seq<ChatSummary>, chat: Id) {
    exists i | 0 <= i < |chats| :: chats[i].chat == chat
  }

  /** Some entry of the list is of this chat and has a face to show. */
  predicate NamesFace(chats: seq<ChatSummary>, chat: Id) {
    exists i | 0 <= i < |chats| :: chats[i].chat == chat && chats[i].avatarMs != 0
  }

  /** One sequence is another with some places left out. */
  predicate Within<T(==)>(less: seq<T>, all: seq<T>)
    decreases |all|
  {
    less == [] || (all != [] && ((less[0] == all[0] && Within(less[1..], all[1..])) || Within(less, all[1..])))
  }

  lemma {:induction false} OnlyInOrder(ids: seq<Id>, alive: set<Id>)
    ensures Within(Only(ids, alive), ids)
  {
    if ids != [] {
      OnlyInOrder(ids[1..], alive);
      var less := Only(ids, alive);
      if ids[0] in alive { assert less[1..] == Only(ids[1..], alive); }
    }
  }

  /** After a list of chats, a chat is remembered if and only if it was and the list names it; its page is untouched, and the
      chats stand in the order they stood in. */
  lemma {:induction false} ListForgets(c: CacheState, chats: seq<ChatSummary>)
    ensures var d := c.RememberChats(chats);
            d.chats == chats && d.mine == c.mine &&
            (forall chat :: chat in d.history <==> chat in c.history && Names(chats, chat)) &&
            (forall chat | chat in d.history :: d.history[chat] == c.history[chat]) &&
            (forall chat :: chat in d.touched <==> chat in c.touched && Names(chats, chat)) &&
            (NoTwice(c.touched) ==> NoTwice(d.touched)) && Within(d.touched, c.touched)
  {
    hide Within;
    OnlyMembers(c.touched, ChatIds(chats));
    OnlyInOrder(c.touched, ChatIds(chats));
  }

  /** After a list of chats, a face is kept if and only if it was there and the list names its chat with a stamp; of more than
      256, those of the first 256 entries. */
  lemma {:induction false} ListForgetsFaces(c: CacheState, chats: seq<ChatSummary>)
    ensures var d := c.RememberChats(chats);
            (forall chat | chat in d.avatars :: chat in c.avatars && NamesFace(chats, chat) && d.avatars[chat] == c.avatars[chat]) &&
            (|c.Outlive(chats).avatars| <= 256 ==> forall chat :: chat in d.avatars <==> chat in c.avatars && NamesFace(chats, chat)) &&
            (|c.Outlive(chats).avatars| > 256 ==>
               forall chat :: chat in d.avatars <==>
                 chat in c.avatars && NamesFace(chats, chat) && Names(if |chats| <= 256 then chats else chats[..256], chat))
  {
    var o := c.Outlive(chats);
    forall chat ensures chat in o.avatars <==> chat in c.avatars && NamesFace(chats, chat) {
    }
  }

  /** Within 256 faces held, none of a chat with a stamp is lost. */
  lemma {:induction false} ListKeepsFaces(c: CacheState, chats: seq<ChatSummary>)
    requires |c.avatars| <= 256
    ensures forall chat :: chat in c.RememberChats(chats).avatars <==> chat in c.avatars && NamesFace(chats, chat)
  {
    ListForgetsFaces(c, chats);
    assert c.Outlive(chats).avatars.Keys <= c.avatars.Keys;
    CompanionCacheLaws.Fewer(c.Outlive(chats).avatars.Keys, c.avatars.Keys);
  }

  // ---- events that forget nothing ----

  predicate SameIds(a: seq<Message>, b: seq<Message>) {
    |a| == |b| && forall i | 0 <= i < |a| :: a[i].msgId == b[i].msgId
  }

  /** An edit, a reaction, a file that moves on or goes, a face, a lost link and a snapshot leave every message in its place, and
      the list of chats and their order as they were. */
  lemma {:induction false} NothingForgotten(c: CacheState, e: CacheEvent)
    requires e.MessageEdited? || e.ReactionsCame? || e.FileMovedOn? || e.FileWent? || e.FaceCame? || e.LinkLost? || e.SnapshotTaken?
    ensures var d := Apply(c, e);
            d.touched == c.touched && d.chats == c.chats && d.history.Keys == c.history.Keys &&
            forall chat | chat in c.history :: SameIds(d.history[chat], c.history[chat])
  {
    hide CacheState.FileProgress, CacheState.FileGone, CacheState.RememberAvatar, CacheState.RememberChats, CacheState.RememberPage,
         CacheState.Arrived, CacheState.Gone, CacheState.Edited, CacheState.Reacted;
    match e
    case MessageEdited(m) => EditForgetsNothing(c, m);
    case ReactionsCame(chat, id, reactions) => ReactionForgetsNothing(c, chat, id, reactions);
    case FileMovedOn(fileId, haveChunks, accepted) => FilesForgetNothing(c, fileId, haveChunks, accepted);
    case FileWent(fileId) => FilesForgetNothing(c, fileId, 0, false);
    case FaceCame(of, bytes, stamp) => FaceForgetsNothing(c, of, bytes, stamp);
    case _ =>
  }

  lemma {:induction false} EditForgetsNothing(c: CacheState, m: Message)
    ensures var d := c.Edited(m);
            d == c.(history := d.history, dirty := d.dirty) && d.history.Keys == c.history.Keys &&
            forall chat | chat in c.history :: SameIds(d.history[chat], c.history[chat])
  {
  }

  lemma {:induction false} ReactionForgetsNothing(c: CacheState, chat: Id, id: Id, reactions: seq<string>)
    ensures var d := c.Reacted(chat, id, reactions);
            d == c.(history := d.history, dirty := d.dirty) && d.history.Keys == c.history.Keys &&
            forall x | x in c.history :: SameIds(d.history[x], c.history[x])
  {
  }

  lemma {:induction false} FilesForgetNothing(c: CacheState, fileId: Id, haveChunks: u64, accepted: bool)
    ensures var d := c.FileProgress(fileId, haveChunks, accepted);
            d == c.(history := d.history, dirty := d.dirty) && d.history.Keys == c.history.Keys &&
            forall chat | chat in c.history :: SameIds(d.history[chat], c.history[chat])
    ensures var d := c.FileGone(fileId);
            d == c.(history := d.history, dirty := d.dirty) && d.history.Keys == c.history.Keys &&
            forall chat | chat in c.history :: SameIds(d.history[chat], c.history[chat])
  {
  }

  lemma {:induction false} FaceForgetsNothing(c: CacheState, of: Option<Id>, bytes: Option<seq<Byte>>, stamp: u64)
    ensures var d := c.RememberAvatar(of, bytes, stamp); d.touched == c.touched && d.chats == c.chats && d.history == c.history
  {
  }

  lemma {:induction false} AtItsPlace(page: seq<Message>, i: nat)
    requires OncePerId(page) && i < |page|
    ensures IndexOf(page, page[i].msgId) == Some(i)
  {
    if i > 0 {
      AtItsPlace(page[1..], i - 1);
      assert page[i] in page[1..];
    }
  }

  /** An edit puts the new message where the old one was, and touches no other. */
  lemma {:induction false} EditReplaces(c: CacheState, m: Message, i: nat)
    requires m.chat in c.history && i < |c.history[m.chat]| && c.history[m.chat][i].msgId == m.msgId && OncePerId(c.history[m.chat])
    ensures c.Edited(m).history == c.history[m.chat := c.history[m.chat][i := m]]
  {
    AtItsPlace(c.history[m.chat], i);
  }

  /** A reaction changes the reactions of the one message, and nothing else. */
  lemma {:induction false} ReactionReplaces(c: CacheState, chat: Id, id: Id, reactions: seq<string>, i: nat)
    requires chat in c.history && i < |c.history[chat]| && c.history[chat][i].msgId == id && OncePerId(c.history[chat])
    ensures c.Reacted(chat, id, reactions).history == c.history[chat := c.history[chat][i := c.history[chat][i].(reactions := reactions)]]
  {
    AtItsPlace(c.history[chat], i);
  }

  /** What moves on in one file moves on in every copy of it, and in no other file. */
  lemma {:induction false} FilesMoveOn(c: CacheState, fileId: Id, haveChunks: u64, accepted: bool, chat: Id, i: nat, j: nat)
    requires chat in c.history && i < |c.history[chat]| && j < |c.history[chat][i].files|
    ensures var d, was := c.FileProgress(fileId, haveChunks, accepted), c.history[chat][i];
            d.history[chat][i] == was.(files := d.history[chat][i].files) && |d.history[chat][i].files| == |was.files| &&
            d.history[chat][i].files[j] ==
            if was.files[j].fileId == fileId then Attachment(fileId, haveChunks, accepted, was.files[j].rest) else was.files[j]
  {
  }

  /** A file that went is taken out of every message, and the others stay as they were. */
  lemma {:induction false} FilesGo(c: CacheState, fileId: Id, chat: Id, i: nat)
    requires chat in c.history && i < |c.history[chat]|
    ensures var d, was := c.FileGone(fileId), c.history[chat][i];
            d.history[chat][i] == was.(files := d.history[chat][i].files) &&
            forall f :: f in d.history[chat][i].files <==> f in was.files && f.fileId != fileId
  {
    DropMembers(c.history[chat][i].files, fileId);
  }

  lemma {:induction false} DropMembers(files: seq<Attachment>, fileId: Id)
    ensures forall f :: f in DropFile(files, fileId) <==> f in files && f.fileId != fileId
  {
    if files != [] {
      DropMembers(files[1..], fileId);
      assert files == [files[0]] + files[1..];
    }
  }

  // ---- messages deleted ----

  /** Of a page, what is left when some are taken out, in the order it stood in. */
  ghost predicate LeftOf(less: seq<Message>, page: seq<Message>, ids: seq<Id>) {
    (forall m :: m in less <==> m in page && m.msgId !in ids) && Within(less, page)
  }

  lemma {:induction false} WithoutIsLeft(page: seq<Message>, ids: seq<Id>)
    ensures LeftOf(WithoutIds(page, ids), page, ids)
  {
    WithoutIdsMembers(page, ids);
    WithoutInOrder(page, ids);
  }

  lemma {:induction false} WithoutInOrder(page: seq<Message>, ids: seq<Id>)
    ensures Within(WithoutIds(page, ids), page)
  {
    if page != [] {
      WithoutInOrder(page[1..], ids);
      var less := WithoutIds(page, ids);
      if page[0].msgId !in ids { assert less[1..] == WithoutIds(page[1..], ids); }
    }
  }

  /** Of a list of chats, the first entry of this chat no longer says what was last said in it. */
  predicate PreviewCleared(before: seq<ChatSummary>, after: seq<ChatSummary>, chat: Id) {
    |after| == |before| &&
    forall i | 0 <= i < |before| ::
      after[i] == if before[i].chat == chat && !Names(before[..i], chat) then before[i].(lastText := "") else before[i]
  }

  lemma {:induction false} ClearsFirst(chats: seq<ChatSummary>, chat: Id)
    ensures PreviewCleared(chats, ClearText(chats, chat), chat)
  {
    hide ClearText, Names;
    ClearsNone(chats, chat);
    forall i | 0 <= i < |chats|
      ensures ClearText(chats, chat)[i] == if chats[i].chat == chat && !Names(chats[..i], chat) then chats[i].(lastText := "") else chats[i] {
      ClearsAt(chats, chat, i);
    }
  }

  lemma {:induction false} ClearsNone(chats: seq<ChatSummary>, chat: Id)
    ensures |ClearText(chats, chat)| == |chats|
  {
    if chats != [] { ClearsNone(chats[1..], chat); }
  }

  lemma {:induction false} ClearsAt(chats: seq<ChatSummary>, chat: Id, i: nat)
    requires i < |chats| == |ClearText(chats, chat)|
    ensures ClearText(chats, chat)[i] == if chats[i].chat == chat && !Names(chats[..i], chat) then chats[i].(lastText := "") else chats[i]
  {
    hide Names;
    if i == 0 {
      NobodyNamed(chat);
      assert chats[..0] == [];
    } else {
      var others := chats[1..];
      NamesTail(chats[..i], chat);
      assert chats[..i][1..] == others[..i - 1] && chats[..i][0] == chats[0] && chats[i] == others[i - 1];
      if chats[0].chat != chat {
        ClearsNone(others, chat);
        ClearsAt(others, chat, i - 1);
      }
    }
  }

  lemma {:induction false} NobodyNamed(chat: Id)
    ensures !Names([], chat)
  {
  }

  lemma {:induction false} NamesTail(chats: seq<ChatSummary>, chat: Id)
    requires chats != []
    ensures Names(chats, chat) <==> chats[0].chat == chat || Names(chats[1..], chat)
  {
    if Names(chats[1..], chat) {
      var i :| 0 <= i < |chats| - 1 && chats[1..][i].chat == chat;
      assert chats[i + 1].chat == chat;
    }
    if Names(chats, chat) && chats[0].chat != chat {
      var i :| 0 <= i < |chats| && chats[i].chat == chat;
      assert chats[1..][i - 1].chat == chat;
    }
  }

  /** Messages deleted: their chat loses exactly those, and its preview; every other chat is as it was. */
  lemma {:induction false} DeletedExactly(c: CacheState, chat: Id, ids: seq<Id>)
    ensures var d := c.Gone(chat, ids);
            d.history.Keys == c.history.Keys && d.touched == c.touched && d.avatars == c.avatars &&
            (forall x | x in c.history && x != chat :: d.history[x] == c.history[x]) &&
            (chat in c.history ==> LeftOf(d.history[chat], c.history[chat], ids)) && PreviewCleared(c.chats, d.chats, chat)
  {
    hide LeftOf, PreviewCleared;
    ClearsFirst(c.chats, chat);
    if chat in c.history { WithoutIsLeft(c.history[chat], ids); }
  }

  // ---- faces ----

  /** A face that came is shown; one that came empty or without a stamp takes the old one away; every other stays, unless there
      are more than 256. */
  lemma {:induction false} FaceTaken(c: CacheState, chat: Id, bytes: Option<seq<Byte>>, stamp: u64)
    ensures var d := c.RememberAvatar(Some(chat), bytes, stamp);
            d == c.(confirmed := true, dirty := true, avatars := d.avatars) &&
            if bytes.Some? && bytes.value != [] && stamp != 0 then
              (|c.avatars[chat := Face(bytes.value, stamp)]| <= 256 ==> d.avatars == c.avatars[chat := Face(bytes.value, stamp)]) &&
              (|c.avatars[chat := Face(bytes.value, stamp)]| > 256 ==>
                 forall x :: (x in d.avatars <==> (x in c.avatars || x == chat) && Names(if |c.chats| <= 256 then c.chats else c.chats[..256], x)) &&
                             (x in d.avatars ==> d.avatars[x] == if x == chat then Face(bytes.value, stamp) else c.avatars[x]))
            else d.avatars == c.avatars - {chat}
  {
  }

  /** One's own face, the same. */
  lemma {:induction false} OwnFaceTaken(c: CacheState, bytes: Option<seq<Byte>>, stamp: u64)
    ensures c.RememberAvatar(None, bytes, stamp) ==
            c.(confirmed := true, dirty := true,
               mine := if bytes.Some? && bytes.value != [] && stamp != 0 then Some(Face(bytes.value, stamp)) else None)
  {
  }

  // ---- over whole runs ----

  /** A chat is forgotten by one event if and only if: a list came that does not name it; its first page came empty; the pairing
      was revoked; or 64 chats are remembered, it is the one used longest ago, and another than these was used. */
  predicate Forgets(c: CacheState, e: CacheEvent, chat: Id) {
    (e.ChatsCame? && !Names(e.chats, chat)) || (e.PageCame? && e.chat == chat && e.page == [] && e.fromStart) || e.PairingRevoked? ||
    (|c.touched| == 64 && c.touched[0] == chat && e.PageCame? && e.page != [] && e.chat !in c.history)
  }

  lemma {:induction false} ForgottenIff(c: CacheState, e: CacheEvent, chat: Id)
    requires Tidy(c) && Lawful(e) && chat in c.history
    ensures chat !in Apply(c, e).history <==> Forgets(c, e, chat)
  {
    hide Merge, Tidy, Lawful, CacheState.RememberChats, CacheState.RememberAvatar, CacheState.FileProgress, CacheState.FileGone,
         CacheState.Edited, CacheState.Reacted, CacheState.Gone, CacheState.Touch;
    match e
    case ChatsCame(chats) => ListForgets(c, chats);
    case PageCame(other, page, fromStart) => if page != [] { UsedForgets(c, e, other, chat); }
    case MessageCame(m) => if m.chat in c.history { UsedForgets(c, e, m.chat, chat); }
    case MessagesWent(other, ids) => DeletedExactly(c, other, ids);
    case PairingRevoked =>
    case _ => NothingForgotten(c, e);
  }

  lemma {:induction false} UsedForgets(c: CacheState, e: CacheEvent, used: Id, chat: Id)
    requires Tidy(c) && Lawful(e) && Uses(c, e, used) && chat in c.history
    ensures chat !in Apply(c, e).history <==> |c.touched| == 64 && c.touched[0] == chat && used !in c.history
  {
    hide Merge, OncePerId, Apply;
    ApplyTidy(c, e);
    WhoIsListed(c);
    WhoIsListed(Apply(c, e));
    UseIsUsed(c, e, used);
    WhoGoes(c.touched, used, chat);
  }

  lemma {:induction false} WithoutStranger(ids: seq<Id>, id: Id)
    requires id !in ids
    ensures Without(ids, id) == ids
  {
    if ids != [] {
      assert ids == [ids[0]] + ids[1..];
      WithoutStranger(ids[1..], id);
    }
  }

  lemma {:induction false} WithoutShorter(ids: seq<Id>, id: Id)
    requires id in ids
    ensures |Without(ids, id)| < |ids|
  {
    WithoutMembers(ids[1..], id);
    if ids[0] != id {
      assert ids == [ids[0]] + ids[1..];
      WithoutShorter(ids[1..], id);
    }
  }

  lemma {:induction false} WhoGoes(touched: seq<Id>, used: Id, chat: Id)
    requires NoTwice(touched) && |touched| <= 64 && chat in touched
    ensures chat !in Used(touched, used) <==> |touched| == 64 && touched[0] == chat && used !in touched
  {
    WithoutMembers(touched, used);
    var ids := Without(touched, used) + [used];
    if used in touched {
      WithoutShorter(touched, used);
      assert chat in ids;
    } else {
      WithoutStranger(touched, used);
      if |touched| == 64 {
        assert ids[1..] == touched[1..] + [used];
        assert touched == [touched[0]] + touched[1..];
      } else {
        assert chat in ids;
      }
    }
  }

  /** Over every run: a chat that is shown was used, and every list that has come since names it, no empty first page of it has
      come since, and no revocation. */
  lemma {:induction false} ShownWasNamed(events: seq<CacheEvent>, chat: Id)
    requires AllLawful(events) && chat in Run(events).history
    ensures 0 < LastUse(events, chat) <= |events|
    ensures forall i | LastUse(events, chat) <= i < |events| ::
              (events[i].ChatsCame? ==> Names(events[i].chats, chat)) && !events[i].PairingRevoked? &&
              !(events[i].PageCame? && events[i].chat == chat && events[i].page == [] && events[i].fromStart)
  {
    hide Apply, Merge;
    LastUseBound(events, chat);
    if events != [] {
      var n := |events| - 1;
      var earlier := events[..n];
      if !Uses(Run(earlier), events[n], chat) {
        RunTidy(earlier);
        NotUsedNotNew(Run(earlier), events[n], chat);
        ShownWasNamed(earlier, chat);
        ForgottenIff(Run(earlier), events[n], chat);
        forall i | LastUse(events, chat) <= i < |events|
          ensures (events[i].ChatsCame? ==> Names(events[i].chats, chat)) && !events[i].PairingRevoked? &&
                  !(events[i].PageCame? && events[i].chat == chat && events[i].page == [] && events[i].fromStart) {
          if i < n { assert events[i] == earlier[i]; }
        }
      }
    }
  }

  /** A chat appears only by being used. */
  lemma {:induction false} NotUsedNotNew(c: CacheState, e: CacheEvent, chat: Id)
    requires Tidy(c) && Lawful(e) && !Uses(c, e, chat) && chat in Apply(c, e).history
    ensures chat in c.history
  {
    hide Merge, Tidy, Lawful, CacheState.RememberChats, CacheState.RememberAvatar, CacheState.FileProgress, CacheState.FileGone,
         CacheState.Edited, CacheState.Reacted, CacheState.Gone, CacheState.Touch;
    match e
    case ChatsCame(chats) => ListForgets(c, chats);
    case PageCame(other, page, _) => if page != [] { OthersOnly(c, e, other, chat); }
    case MessageCame(m) => if m.chat in c.history { OthersOnly(c, e, m.chat, chat); }
    case MessagesWent(other, ids) => DeletedExactly(c, other, ids);
    case PairingRevoked =>
    case _ => NothingForgotten(c, e);
  }

  lemma {:induction false} OthersOnly(c: CacheState, e: CacheEvent, used: Id, chat: Id)
    requires Tidy(c) && Lawful(e) && Uses(c, e, used) && used != chat && chat in Apply(c, e).history
    ensures chat in c.history
  {
    hide Merge, OncePerId, Apply;
    ApplyTidy(c, e);
    WhoIsListed(c);
    WhoIsListed(Apply(c, e));
    UseIsUsed(c, e, used);
    WithoutMembers(c.touched, used);
  }

  /** The same of a terminal, at any moment of any run from its invitation, by what it has heard. */
  lemma {:induction false} TerminalShowsNamed(address: Address, run: seq<R.Moment>, chat: Id)
    requires AllLawful(N.NewsOfRun(P.FromInvite(address), run)) && chat in R.Run(P.FromInvite(address), run).cache.history
    ensures var news := N.NewsOfRun(P.FromInvite(address), run);
            0 < LastUse(news, chat) <= |news| &&
            forall i | LastUse(news, chat) <= i < |news| ::
              (news[i].ChatsCame? ==> Names(news[i].chats, chat)) && !news[i].PairingRevoked? &&
              !(news[i].PageCame? && news[i].chat == chat && news[i].page == [] && news[i].fromStart)
  {
    hide P.Step, N.NewsOf, Apply, Tidy;
    var news := N.NewsOfRun(P.FromInvite(address), run);
    N.RunTells(P.FromInvite(address), run);
    N.RunFromEmpty(news);
    ShownWasNamed(news, chat);
  }

  // ---- the order of a page ----

  /** Messages stand by the clock, and those of one moment by their ids. */
  lemma {:induction false} ByTheClock(page: seq<Message>, i: nat)
    requires InTimeOrder(page) && 0 < i < |page|
    ensures page[i - 1].wallMs <= page[i].wallMs
    ensures page[i - 1].wallMs == page[i].wallMs ==> page[i - 1].msgId == page[i].msgId || LexLess(page[i - 1].msgId, page[i].msgId)
  {
    assert !Before(page[i], page[i - 1]);
    LexTotal(page[i - 1].msgId, page[i].msgId);
  }

  // ---- what is confirmed ----

  /** What the phone has just sent of the chats, of a chat or of a face is confirmed, until the link is lost; nothing else
      confirms or casts doubt. */
  lemma {:induction false} Confirmed(c: CacheState, e: CacheEvent)
    ensures Apply(c, e).confirmed ==
            (if e.ChatsCame? || e.PageCame? || e.FaceCame? then true else if e.LinkLost? || e.PairingRevoked? then false else c.confirmed)
  {
    hide Merge, MapHistory, AnyFile;
    match e
    case PageCame(chat, page, fromStart) =>
      if page != [] { TouchConfirms(c.(confirmed := true, dirty := true, history := c.history[chat := Merge(c.Page(chat), page)]), chat); }
    case MessageCame(m) =>
      if m.chat in c.history { TouchConfirms(c.(dirty := true, history := c.history[m.chat := Merge(c.history[m.chat], [m])]), m.chat); }
    case _ =>
  }

  lemma {:induction false} TouchConfirms(c: CacheState, chat: Id)
    ensures c.Touch(chat).confirmed == c.confirmed
  {
    EvictedConfirms(c.(touched := Without(c.touched, chat) + [chat]));
  }

  lemma {:induction false} EvictedConfirms(c: CacheState)
    ensures c.Evicted().confirmed == c.confirmed
    decreases |c.touched|
  {
    if |c.touched| > DESKTOP_CACHE_CHATS { EvictedConfirms(c.(touched := c.touched[1..], history := c.history - {c.touched[0]})); }
  }
}
