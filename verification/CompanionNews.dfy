/** What a terminal's steps do to its cache: each step is at most one cache event, so everything proved of
    runs of the cache holds of runs of the terminal. */
module CompanionNews {
  import opened Bytes
  import opened CompanionProtocol
  import opened CompanionRuns
  import CC = CompanionCache
  import CL = CompanionCacheLaws
  import CT = CompanionCacheTheorems

  function FromNotice(n: Notice): Option<CC.CacheEvent> {
    match n
    case Message(m) => Some(CC.MessageCame(m))
    case Gone(chat, msgIds) => Some(CC.MessagesWent(chat, msgIds))
    case Edited(m) => Some(CC.MessageEdited(m))
    case Reacted(chat, msgId, reactions) => Some(CC.ReactionsCame(chat, msgId, reactions))
    case FileProgress(fileId, haveChunks, _, accepted) => Some(CC.FileMovedOn(fileId, haveChunks, accepted))
    case FileGone(fileId) => Some(CC.FileWent(fileId))
    case AvatarChanged(of, avatarMs) => Some(CC.FaceCame(of, None, avatarMs))
    case Revoked => Some(CC.PairingRevoked)
    case _ => None
  }

  function FromAnswer(asked: Request, response: Response): Option<CC.CacheEvent> {
    match response
    case Chats(chats) => Some(CC.ChatsCame(chats))
    case History(page) => if asked.History? then Some(CC.PageCame(asked.chat, page, asked.before.None?)) else None
    case Avatar(face, avatarMs) => if asked.Avatar? then Some(CC.FaceCame(asked.of, face, avatarMs)) else None
    case _ => None
  }

  /** The cache event one input is. */
  function NewsOf(c: Client, input: Input): Option<CC.CacheEvent> {
    match input
    case Lost => Some(CC.LinkLost)
    case Received(Farewell(opens)) => if opens then Some(CC.PairingRevoked) else None
    case Received(Data(Answer(id, response))) =>
      if c.link.session && id in c.link.outstanding then FromAnswer(c.link.outstanding[id], response) else None
    case Received(Data(News(notice))) => if c.link.session then FromNotice(notice) else None
    case _ => None
  }

  function Told(cache: CC.CacheState, news: Option<CC.CacheEvent>): CC.CacheState {
    if news.Some? then CC.Apply(cache, news.value) else cache
  }

  lemma {:induction false} AnswerTells(c: Client, asked: Request, response: Response, earlier: seq<Effect>, env: Env)
    ensures OnAnswer(c, asked, response, earlier, env).client.cache == Told(c.cache, FromAnswer(asked, response))
  {
    hide OnAsk, AnySend, CC.CacheState.RememberChats, CC.CacheState.RememberPage, CC.CacheState.RememberAvatar;
  }

  lemma {:induction false} NoticeTells(c: Client, n: Notice)
    ensures Noted(c, n).cache == Told(c.cache, FromNotice(n))
  {
    hide CC.CacheState.Arrived, CC.CacheState.RememberAvatar, CC.CacheState.FileProgress, CC.CacheState.FileGone,
         CC.CacheState.Gone, CC.CacheState.Edited, CC.CacheState.Reacted;
  }

  /** A step changes the cache by that one event and in no other way. */
  lemma {:induction false} StepTells(c: Client, input: Input, env: Env)
    ensures Step(c, input, env).client.cache == Told(c.cache, NewsOf(c, input))
  {
    hide OnAsk, AnySend, OnAnswer, Noted;
    match input
    case Received(Data(Answer(id, response))) =>
      if c.link.session && id in c.link.outstanding {
        var first := Overtaken(c.(link := c.link.(outstanding := c.link.outstanding - {id})), id);
        assert first.client.cache == c.cache;
        AnswerTells(first.client, c.link.outstanding[id], response, first.effects, env);
      }
    case Received(Data(News(notice))) => NoticeTells(c, notice);
    case _ =>
  }

  /** The cache events of a run, in order. */
  function NewsOfRun(c: Client, run: seq<Moment>): seq<CC.CacheEvent>
    decreases |run|
  {
    if run == [] then []
    else
      var news := NewsOf(c, run[0].input);
      (if news.Some? then [news.value] else []) + NewsOfRun(Step(c, run[0].input, run[0].env).client, run[1..])
  }

  lemma {:induction false} RunFromFront(cache: CC.CacheState, e: CC.CacheEvent, events: seq<CC.CacheEvent>)
    ensures CT.RunFrom(cache, [e] + events) == CT.RunFrom(CC.Apply(cache, e), events)
    decreases |events|
  {
    hide CC.Apply;
    var all := [e] + events;
    if events == [] {
      assert all[..0] == [];
      assert CT.RunFrom(cache, []) == cache;
    } else {
      var n := |events| - 1;
      assert all[..|all| - 1] == [e] + events[..n];
      RunFromFront(cache, e, events[..n]);
    }
  }

  lemma {:induction false} RunTells(c: Client, run: seq<Moment>)
    ensures Run(c, run).cache == CT.RunFrom(c.cache, NewsOfRun(c, run))
    decreases |run|
  {
    hide Step, NewsOf, CC.Apply;
    if run != [] {
      var next := Step(c, run[0].input, run[0].env).client;
      StepTells(c, run[0].input, run[0].env);
      RunTells(next, run[1..]);
      var news, more := NewsOf(c, run[0].input), NewsOfRun(next, run[1..]);
      if news.Some? { RunFromFront(c.cache, news.value, more); } else { assert [] + more == more; }
    }
  }

  lemma {:induction false} RunFromEmpty(events: seq<CC.CacheEvent>)
    ensures CT.RunFrom(CC.EMPTY, events) == CC.Run(events)
  {
    hide CC.Apply;
    if events != [] { RunFromEmpty(events[..|events| - 1]); }
  }

  /** What a terminal shows of a message, at any moment of any run from its invitation, is the last word it
      has heard about it; its memory is within bounds. */
  lemma {:induction false} TerminalShowsLastWord(address: CC.Address, run: seq<Moment>, chat: Id, m: CC.Message)
    requires CT.AllLawful(NewsOfRun(FromInvite(address), run)) && m in Run(FromInvite(address), run).cache.Page(chat)
    ensures CT.LastWord(NewsOfRun(FromInvite(address), run), chat, m.msgId) == Some(m)
    ensures CL.Tidy(Run(FromInvite(address), run).cache)
  {
    hide Step, NewsOf, CC.Apply, CL.Tidy;
    var news := NewsOfRun(FromInvite(address), run);
    RunTells(FromInvite(address), run);
    RunFromEmpty(news);
    CT.ShownIsLastWord(news, chat, m);
    CL.RunTidy(news);
  }

  // ---- the flags ----

  lemma {:induction false} AddressStep(c: Client, input: Input, env: Env)
    ensures var did := Step(c, input, env).client;
            (c.addressDirty ==> did.addressDirty) && (did.address != c.address ==> did.addressDirty)
  {
    hide OnAsk, AnySend, OnAnswer, Noted;
    match input
    case Received(Data(Answer(id, response))) =>
      if c.link.session && id in c.link.outstanding {
        var first := Overtaken(c.(link := c.link.(outstanding := c.link.outstanding - {id})), id);
        AnswerKeepsAddress(first.client, c.link.outstanding[id], response, first.effects, env);
      }
    case Received(Data(News(notice))) => NoticeAddress(c, notice);
    case _ =>
  }

  lemma {:induction false} AnswerKeepsAddress(c: Client, asked: Request, response: Response, earlier: seq<Effect>, env: Env)
    ensures var did := OnAnswer(c, asked, response, earlier, env).client; did.address == c.address && did.addressDirty == c.addressDirty
  {
    hide OnAsk, AnySend, CC.CacheState.RememberChats, CC.CacheState.RememberPage, CC.CacheState.RememberAvatar;
  }

  lemma {:induction false} NoticeAddress(c: Client, n: Notice)
    ensures (c.addressDirty ==> Noted(c, n).addressDirty) && (Noted(c, n).address != c.address ==> Noted(c, n).addressDirty)
  {
    hide CC.CacheState.Arrived, CC.CacheState.RememberAvatar, CC.CacheState.FileProgress, CC.CacheState.FileGone,
         CC.CacheState.Gone, CC.CacheState.Edited, CC.CacheState.Reacted;
  }

  predicate NeverRevoked(events: seq<CC.CacheEvent>) {
    forall i | 0 <= i < |events| :: !events[i].PairingRevoked? && !events[i].SnapshotTaken?
  }

  lemma {:induction false} AddressRun(c: Client, run: seq<Moment>)
    ensures (c.addressDirty ==> Run(c, run).addressDirty) && (Run(c, run).address != c.address ==> Run(c, run).addressDirty)
    decreases |run|
  {
    hide Step;
    if run != [] {
      AddressStep(c, run[0].input, run[0].env);
      AddressRun(Step(c, run[0].input, run[0].env).client, run[1..]);
    }
  }

  /** After a snapshot, over any run without a revocation: as long as neither flag is up, everything a new
      snapshot would be made of is what it was. */
  lemma {:induction false} NotDueMeansUnchanged(c: Client, run: seq<Moment>)
    requires NeverRevoked(NewsOfRun(c, run)) && !c.cache.dirty && !c.addressDirty
    ensures var end := Run(c, run);
            !end.cache.dirty && !end.addressDirty ==> CT.ContentOf(end.cache) == CT.ContentOf(c.cache) && end.address == c.address
  {
    hide Step, NewsOf, CC.Apply;
    RunTells(c, run);
    AddressRun(c, run);
    CT.UnmarkedIsUnchanged(c.cache, NewsOfRun(c, run));
  }
}
