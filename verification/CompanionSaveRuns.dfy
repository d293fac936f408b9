/** Which saves are stuck: under way, with nothing on its way, and every other save refused meanwhile. */
module CompanionSaveRuns {
  import opened Bytes
  import opened CompanionProtocol
  import opened CompanionProtocolLaws
  import opened CompanionDriver
  import opened CompanionDownload
  import opened CompanionDownloadRuns
  import opened CompanionFeed
  import CC = CompanionCache

  // ---- how a download ends ----

  /** A download that is no more: revoked with the pairing, or its end was told. */
  predicate EndIsTold(c: Client, did: Did) {
    c.download.Some? && did.client.download.None? && !did.client.link.revoked ==>
      var events := FetchEvents(did.effects);
      events != [] && (events[0].Noticed? ==> events[0].notice.FileGone? && events[0].notice.fileId == c.download.value.fileId)
  }

  lemma {:induction false} ChunkEnds(c: Client, asked: Request, index: nat, bytes: seq<Byte>, env: Env)
    ensures var did := OnChunk(c, asked, index, bytes, env);
            did.client.download.Some? || did == Did(c, [Show(Ignored)]) ||
            (FetchEvents(did.effects) != [] && !FetchEvents(did.effects)[0].Noticed?)
  {
    hide OnAsk, AnySend, Eaten, SaturatingMul, ChunkRequest;
  }

  lemma {:induction false} RefusedEnds(c: Client, asked: Request, earlier: seq<Effect>)
    requires FetchEvents(earlier) == []
    ensures var did := OnRefused(c, asked, earlier);
            did.client.download == c.download || (FetchEvents(did.effects) != [] && !FetchEvents(did.effects)[0].Noticed?)
  {
    OneMoreEvent(earlier, FetchStopped);
  }

  lemma {:induction false} AnswerEnds(c: Client, asked: Request, response: Response, earlier: seq<Effect>, env: Env)
    requires FetchEvents(earlier) == []
    ensures EndIsTold(c, OnAnswer(c, asked, response, earlier, env))
  {
    hide OnAsk, OnChunk, OnStaged, OnStored, OnOffered, OnRefused, CC.CacheState.RememberChats, CC.CacheState.RememberPage,
         CC.CacheState.RememberAvatar, FetchEvents;
    match response
    case FileChunk(index, bytes) =>
      ChunkEnds(c, asked, index, bytes, env);
      FetchEventsBoth(earlier, OnChunk(c, asked, index, bytes, env).effects);
    case Staged(files) => StagedIdle(c, files, env);
    case FileOffer(fileId, chunkTotal, chunkBytes) => OfferedIdle(c, fileId, chunkTotal, chunkBytes, earlier, env);
    case Done => if asked.FilePut? { StoredIdle(c, asked.fileId, earlier, env); }
    case Refused => RefusedEnds(c, asked, earlier);
    case _ =>
  }

  lemma {:induction false} ResponseEnds(c: Client, id: nat, response: Response, env: Env)
    ensures EndIsTold(c, OnResponse(c, id, response, env))
  {
    hide OnAnswer, Overtaken;
    if id in c.link.outstanding {
      var less := c.(link := c.link.(outstanding := c.link.outstanding - {id}));
      OvertakenIdle(less, id);
      AnswerEnds(Overtaken(less, id).client, c.link.outstanding[id], response, Overtaken(less, id).effects, env);
    }
  }

  lemma {:induction false} NewsEnds(c: Client, n: Notice)
    ensures EndIsTold(c, Did(Noted(c, n), [Show(Noticed(n))]))
  {
    hide CC.CacheState.Arrived, CC.CacheState.RememberAvatar, CC.CacheState.FileProgress, CC.CacheState.FileGone,
         CC.CacheState.Gone, CC.CacheState.Edited, CC.CacheState.Reacted;
  }

  lemma {:induction false} LinkedEnds(c: Client, env: Env)
    ensures EndIsTold(c, OnLinked(c, env))
  {
    hide OnAsk, ResumeFetch, MarkHello, FetchEvents;
    var link := c.link.(pending := false, session := true, connected := true, outstanding := map[]);
    var chats := OnAsk(MarkHello(OnAsk(link, c.cache, Request.Hello, env)), c.cache, Request.Chats, env);
    var staged := if c.upload.Some? then OnAsk(chats.link, c.cache, Request.Staged, env) else Asking(chats.link, []);
    ResumeIdle(c.(link := staged.link), env);
  }

  lemma {:induction false} FrameEnds(c: Client, frame: Frame, env: Env)
    ensures EndIsTold(c, OnFrame(c, frame, env))
  {
    hide OnLinked, OnResponse, Noted, FetchEvents;
    match frame
    case Handshake(_, _) => LinkedEnds(c, env);
    case Data(Answer(id, response)) => ResponseEnds(c, id, response, env);
    case Data(News(notice)) => NewsEnds(c, notice);
    case _ =>
  }

  /** No download ends in silence but with the pairing. */
  lemma {:induction false} StepEnds(c: Client, input: Input, env: Env)
    ensures EndIsTold(c, Step(c, input, env))
  {
    hide OnAsk, OnFrame, AbortEach, AnySend;
    match input
    case Received(frame) => FrameEnds(c, frame, env);
    case _ =>
  }

  // ---- a save and the download behind it ----

  /** A save has a download behind it if and only if its first request went out, until the pairing is revoked. */
  predicate Backed(d: Driver, went: bool) {
    d.saving.Some? && !d.client.link.revoked ==> (d.client.download.Some? <==> went)
  }

  lemma {:induction false} RevokedBefore(c: Client, input: Input, env: Env)
    requires Sound(c) && !Step(c, input, env).client.link.revoked
    ensures !c.link.revoked
  {
    hide Step, Sound;
    if c.link.revoked { RevokedStays(c, input, env); }
  }

  lemma {:induction false} TakenBacked(before: Option<Download>, d: Driver, asked: Request, response: Response, did: Did, luck: Luck)
    requires Takes(before, asked, response, did) && d.client == did.client
    ensures var e := ShowEach(d, FetchEvents(did.effects), luck);
            e.saving.None? || (e.saving == d.saving && did.client.download.Some?)
  {
    hide WriteAt, Eaten, SaturatingMul;
    var events := FetchEvents(did.effects);
    var one := ShowEvent(d, events[0], luck).driver;
    ShowOne(d, events[0], luck);
    if |events| == 2 {
      ShowTwo(d, events[0], events[1], luck);
      assert events == [events[0], events[1]];
    } else {
      assert events == [events[0]];
    }
  }

  lemma {:induction false} RoundBacked(phone: Phone, d: Driver, input: Input, env: Env, luck: Luck, went: bool)
    requires PhoneSound(phone) && Sound(d.client) && Holds(phone, d) && !input.Fetch? && Backed(d, went)
    ensures Backed(Round(d, input, env, luck).driver, went)
  {
    hide Step, Sound, Progress, Takes, HonestAnswer, WriteAt, ReadAt;
    var did := Step(d.client, input, env);
    var next := d.(client := did.client);
    var events := FetchEvents(did.effects);
    StepMoves(d.client, input, env);
    StepEnds(d.client, input, env);
    ShowAllSide(next, next, did.effects, luck);
    ShowKeepsClient(next, did.effects, luck);
    if !did.client.link.revoked {
      RevokedBefore(d.client, input, env);
      if Idle(d.client.download, did) {
        ShowNone(next, luck);
      } else if Stops(did) || FileWentAway(d.client.download, did) {
        assert events == [events[0]];
        ShowOne(next, events[0], luck);
      } else {
        var asked, response := d.client.link.outstanding[input.frame.content.id], input.frame.content.response;
        TakenBacked(d.client.download, next, asked, response, did, luck);
        TakenFrom(d.client.download, asked, response, did);
      }
    }
  }

  lemma {:induction false} TakenFrom(before: Option<Download>, asked: Request, response: Response, did: Did)
    requires Takes(before, asked, response, did)
    ensures before.Some?
  {
  }

  lemma {:induction false} CancelBacked(d: Driver, env: Env, luck: Luck, went: bool)
    requires Backed(d, went)
    ensures Backed(Round(d, CancelFetch, env, luck).driver, went)
  {
    var did := Step(d.client, CancelFetch, env);
    var next := d.(client := did.client);
    assert did.effects[1..] == [];
    var first := ShowEvent(next, did.effects[0].event, luck);
    assert ShowAll(first.driver, [], luck).driver == first.driver;
  }

  lemma {:induction false} FeedBacked(phone: Phone, wanted: Wanted, start: Disk, d: Driver, input: Input, env: Env, luck: Luck, went: bool)
    requires PhoneSound(phone) && Sound(d.client) && Side(phone, wanted, start, d) && Holds(phone, d) && Backed(d, went)
    requires HonestInput(phone, d.client, input) && !input.Fetch?
    ensures Backed(Feed(d, [input], FEED_ROUNDS, env, luck), went)
  {
    hide Sound, Round, Side, Holds, HonestInput, Step, Backed;
    HonestIsInKind(phone, d.client, input);
    FeedIsTwoRounds(d, input, FEED_ROUNDS, env, luck);
    RoundSide(phone, wanted, start, d, input, env, luck);
    RoundCalls(d, input, env, luck);
    StepSound(d.client, input, env);
    RoundBacked(phone, d, input, env, luck, went);
    var one := Round(d, input, env, luck);
    if one.answers != [] {
      var answer := one.answers[0];
      if answer == CancelFetch {
        CancelBacked(one.driver, env, luck, went);
      } else {
        AnswersAreNoFetch(d, input, env, luck);
        RoundBacked(phone, one.driver, answer, env, luck, went);
      }
    }
  }

  predicate Starts(d: Driver, c: Command, luck: Luck) {
    c.SaveFile? && d.saving.None? && luck.creates
  }

  /** Whether the first request of the save under way went out, after one more command. */
  function WentAfter(went: bool, d: Driver, o: Order): bool {
    if Starts(d, o.command, o.luck) then FirstGoesOut(d, o.command, o.env) else went
  }

  lemma {:induction false} SavingIsWhole(phone: Phone, d: Driver)
    requires PhoneSound(phone) && Holds(phone, d) && d.saving.None?
    ensures d.client.download.None?
  {
  }

  lemma {:induction false} SameBacked(d: Driver, e: Driver, went: bool)
    requires Backed(d, went) && e.client == d.client && (e.saving == d.saving || e.saving.None?)
    ensures Backed(e, went)
  {
  }

  lemma {:induction false} SameHeld(phone: Phone, wanted: Wanted, start: Disk, d: Driver, e: Driver)
    requires PhoneSound(phone) && Side(phone, wanted, start, d) && Holds(phone, d) && SameSide(d, e) && e.client == d.client
    ensures Side(phone, wanted, start, e) && Holds(phone, e)
  {
  }

  lemma {:induction false} ObeyBacked(phone: Phone, wanted: Wanted, start: Disk, d: Driver, o: Order, went: bool)
    requires PhoneSound(phone) && Sound(d.client) && Side(phone, wanted, start, d) && Holds(phone, d) && Backed(d, went)
    requires HonestCommand(phone, d, o.command)
    ensures Backed(Obey(d, o.command, o.env, o.luck), WentAfter(went, d, o))
  {
    hide Sound, Side, Holds, Feed, HonestInput, ItemsOf, StartSave, FirstGoesOut, Backed;
    var env, luck := o.env, o.luck;
    match o.command
    case SaveFile(fileId, _, _, _) =>
      if Starts(d, o.command, luck) { SaveBacked(phone, d, o); } else { NothingStarts(d, o); }
    case CancelSave =>
      NotReceivedIsHonest(phone, d.client, CancelFetch);
      FeedBacked(phone, wanted, start, d, CancelFetch, env, luck, went);
      SameBacked(Feed(d, [CancelFetch], FEED_ROUNDS, env, luck), AbandonSave(Feed(d, [CancelFetch], FEED_ROUNDS, env, luck), luck), went);
    case SendFiles(chat, files, text) =>
      if d.sending.None? && luck.opens && AllThere(files, d.disk) && files != [] {
        var input := Input.Send(chat, ItemsOf(files, d.disk), text);
        var sending := d.(sending := Some(Sending(PathsOf(files), 0)));
        NotReceivedIsHonest(phone, d.client, input);
        SameBacked(d, sending, went);
        SameHeld(phone, wanted, start, d, sending);
        FeedBacked(phone, wanted, start, sending, input, env, luck, went);
      }
    case CancelSending =>
      NotReceivedIsHonest(phone, d.client, CancelSend);
      SameBacked(d, d.(sending := None), went);
      SameHeld(phone, wanted, start, d, d.(sending := None));
      FeedBacked(phone, wanted, start, d.(sending := None), CancelSend, env, luck, went);
    case Through(input) => FeedBacked(phone, wanted, start, d, input, env, luck, went);
  }

  lemma {:induction false} SaveBacked(phone: Phone, d: Driver, o: Order)
    requires PhoneSound(phone) && Sound(d.client) && Holds(phone, d) && Starts(d, o.command, o.luck)
    ensures Backed(StartSave(d, o.command, o.env, o.luck), FirstGoesOut(d, o.command, o.env))
  {
    hide Sound, Holds, StartSave, FirstGoesOut;
    SavingIsWhole(phone, d);
    SaveStaysBegun(d, o.command, o.env, o.luck);
  }

  lemma {:induction false} NothingStarts(d: Driver, o: Order)
    requires o.command.SaveFile? && !Starts(d, o.command, o.luck)
    ensures StartSave(d, o.command, o.env, o.luck) == d
  {
  }

  // ---- runs ----

  /** Whether the first request of the save under way at the end of a run went out. */
  function Went(went: bool, d: Driver, run: seq<Order>): bool
    decreases |run|
  {
    if run == [] then went else Went(WentAfter(went, d, run[0]), Obey(d, run[0].command, run[0].env, run[0].luck), run[1..])
  }

  lemma {:induction false} RunBacked(phone: Phone, wanted: Wanted, start: Disk, d: Driver, run: seq<Order>, went: bool)
    requires PhoneSound(phone) && Sound(d.client) && Side(phone, wanted, start, d) && Holds(phone, d) && Backed(d, went)
    requires HonestRun(phone, d, run)
    ensures Sound(Obeyed(d, run).client) && Backed(Obeyed(d, run), Went(went, d, run))
    decreases |run|
  {
    hide Sound, Side, Holds, Obey, HonestCommand, Backed, WentAfter;
    if run != [] {
      ObeySide(phone, wanted, start, d, run[0].command, run[0].env, run[0].luck);
      ObeyBacked(phone, wanted, start, d, run[0], went);
      RunBacked(phone, Wants(wanted, run[0].command), start, Obey(d, run[0].command, run[0].env, run[0].luck), run[1..],
                WentAfter(went, d, run[0]));
    }
  }

  /** Over every run from the start of a terminal: a save that is under way has no download behind it if and only
      if its first request did not go out or the pairing has been revoked. */
  lemma {:induction false} StuckIff(phone: Phone, address: CC.Address, disk: Disk, run: seq<Order>)
    requires PhoneSound(phone) && HonestRun(phone, FreshDriver(address, disk), run)
    ensures var e := Obeyed(FreshDriver(address, disk), run);
            e.saving.Some? ==>
              (e.client.download.None? <==> !Went(false, FreshDriver(address, disk), run) || e.client.link.revoked)
  {
    hide Holds, Side, Obeyed, Went;
    var d := FreshDriver(address, disk);
    FreshSound(phone, address, disk);
    FreshBacked(address, disk);
    RunBacked(phone, {}, disk, d, run, false);
    RevokedHasNone(Obeyed(d, run).client);
  }

  lemma {:induction false} FreshBacked(address: CC.Address, disk: Disk)
    ensures Backed(FreshDriver(address, disk), false)
  {
  }

  lemma {:induction false} RevokedHasNone(c: Client)
    requires Sound(c)
    ensures c.link.revoked ==> c.download.None?
  {
  }

  /** Revoked in the middle of a download: the save stays, its partial file with it. */
  lemma {:induction false} RevokedLeavesSave(d: Driver, env: Env, luck: Luck)
    requires Sound(d.client) && d.client.link.session && d.saving.Some? && d.client.download.Some?
    ensures var e := Obey(d, Through(Received(Data(News(Notice.Revoked)))), env, luck);
            e.saving == d.saving && e.disk == d.disk && e.client.download.None? && e.client.link.revoked
  {
    hide Sound, OnRevoked;
    var input := Received(Data(News(Notice.Revoked)));
    FeedIsTwoRounds(d, input, FEED_ROUNDS, env, luck);
    var did := Step(d.client, input, env);
    assert did.effects == [Show(Noticed(Notice.Revoked))] && did.effects[1..] == [];
    assert ShowAll(d.(client := did.client), [], luck) == Shown(d.(client := did.client), []);
    RevokedIs(d.client);
  }

  lemma {:induction false} RevokedIs(c: Client)
    ensures OnRevoked(c).download.None? && OnRevoked(c).link.revoked
  {
  }
}
