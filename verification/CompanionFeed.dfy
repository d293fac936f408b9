/** The driver answers some of the terminal's events itself. Its queue never holds more than one such answer,
    and no answer calls for another: two rounds always drain it, and the limit of eight is never met. */
module CompanionFeed {
  import opened Bytes
  import opened CompanionProtocol
  import opened CompanionProtocolLaws
  import opened CompanionDriver
  import opened CompanionDownload
  import opened CompanionUpload
  import CC = CompanionCache

  predicate Called(e: Event) {
    e.FileBytes? || e.NeedChunk?
  }

  function Calls(events: seq<Event>): nat {
    if events == [] then 0 else (if Called(events[0]) then 1 else 0) + Calls(events[1..])
  }

  function EventsOf(effects: seq<Effect>): seq<Event> {
    if effects == [] then []
    else if effects[0].Show? then [effects[0].event] + EventsOf(effects[1..])
    else EventsOf(effects[1..])
  }

  lemma {:induction false} CallsSplit(effects: seq<Effect>)
    ensures Calls(EventsOf(effects)) == Calls(FetchEvents(effects)) + Calls(SendEvents(effects))
  {
    if effects != [] {
      CallsSplit(effects[1..]);
      if effects[0].Show? { FrontCall(effects[0].event, effects[1..]); }
    }
  }

  lemma {:induction false} FrontCall(e: Event, more: seq<Effect>)
    ensures Calls([e] + EventsOf(more)) == (if Called(e) then 1 else 0) + Calls(EventsOf(more))
    ensures AboutFetch(e) ==> Calls([e] + FetchEvents(more)) == (if Called(e) then 1 else 0) + Calls(FetchEvents(more))
    ensures AboutSend(e) ==> Calls([e] + SendEvents(more)) == (if Called(e) then 1 else 0) + Calls(SendEvents(more))
    ensures Called(e) ==> AboutFetch(e) != AboutSend(e)
    ensures !Called(e) || AboutFetch(e) || AboutSend(e)
  {
  }

  lemma {:induction false} CallsOfNoNeed(events: seq<Event>)
    requires forall i | 0 <= i < |events| :: !Called(events[i])
    ensures Calls(events) == 0
  {
    if events != [] {
      assert forall i | 0 <= i < |events| - 1 :: events[1..][i] == events[i + 1];
      CallsOfNoNeed(events[1..]);
    }
  }

  lemma {:induction false} SendEventsAboutSend(effects: seq<Effect>)
    ensures forall i | 0 <= i < |SendEvents(effects)| :: AboutSend(SendEvents(effects)[i])
  {
    if effects != [] { SendEventsAboutSend(effects[1..]); }
  }

  lemma {:induction false} NoNeedNoCalls(effects: seq<Effect>)
    requires NoNeed(effects)
    ensures Calls(SendEvents(effects)) == 0
  {
    SendEventsAboutSend(effects);
    CallsOfNoNeed(SendEvents(effects));
  }

  // ---- one input calls at most once ----

  lemma {:induction false} FetchCalls(c: Client, input: Input, env: Env)
    ensures var calls := Calls(FetchEvents(Step(c, input, env).effects));
            calls == 0 ||
            (calls == 1 && input.Received? && input.frame.Data? && input.frame.content.Answer? &&
             input.frame.content.id in c.link.outstanding && input.frame.content.response.FileChunk?)
  {
    hide Step, SameFetch, Eaten, SaturatingMul;
    StepMoves(c, input, env);
    var events := FetchEvents(Step(c, input, env).effects);
    if |events| == 1 { CallsOfOne(events[0]); assert events == [events[0]]; }
    if |events| == 2 { CallsOfTwo(events[0], events[1]); assert events == [events[0], events[1]]; }
  }

  lemma {:induction false} CallsOfOne(e: Event)
    ensures Calls([e]) == if Called(e) then 1 else 0
  {
    assert [e][1..] == [];
  }

  lemma {:induction false} CallsOfTwo(e: Event, f: Event)
    ensures Calls([e, f]) == (if Called(e) then 1 else 0) + (if Called(f) then 1 else 0)
  {
    CallsOfOne(f);
    assert [e, f][1..] == [f];
  }

  /** An answer that moves an upload on calls for one piece at most. */
  lemma {:induction false} MovingCalls(c: Client, asked: Request, response: Response, earlier: seq<Effect>, env: Env)
    requires LinkSound(c.link) && Moving(asked, response) && NoNeed(earlier) && (c.upload.Some? ==> SendEvents(earlier) == [])
    requires UploadSound(c)
    ensures Calls(SendEvents(OnAnswer(c, asked, response, earlier, env).effects)) <= 1
  {
    hide LinkSound, OnStaged, OnStored, OnOffered, Busy, FirstUnfinished, FindStaged, Upload.Piece, NextAsk;
    var did := OnAnswer(c, asked, response, earlier, env);
    if c.upload.None? || (response.Staged? && !c.upload.value.stalled) {
      MovingNothing(c, asked, response, earlier, env);
    } else if response.FileOffer? {
      OfferedMoves(c, response.fileId, response.chunkTotal, response.chunkBytes, earlier, env);
    } else if response.Staged? {
      StagedMoves(c, response.files, env);
      SendEventsBoth(earlier, OnStaged(c, response.files, env).effects);
      assert [] + SendEvents(OnStaged(c, response.files, env).effects) == SendEvents(OnStaged(c, response.files, env).effects);
    } else {
      StoredMoves(c, asked.fileId, earlier, env);
    }
    OneEventCalls(SendEvents(did.effects));
  }

  lemma {:induction false} OneEventCalls(events: seq<Event>)
    ensures |events| <= 1 ==> Calls(events) <= 1
  {
    if |events| == 1 { assert events[1..] == []; }
  }

  lemma {:induction false} MovingNothing(c: Client, asked: Request, response: Response, earlier: seq<Effect>, env: Env)
    requires Moving(asked, response) && NoNeed(earlier)
    requires c.upload.None? || (response.Staged? && !c.upload.value.stalled)
    ensures Calls(SendEvents(OnAnswer(c, asked, response, earlier, env).effects)) == 0
  {
    hide NoNeed;
    NoNeedOne(Ignored);
    OneMoreQuiet(earlier, Ignored);
    NoNeedNoCalls([Show(Ignored)]);
    NoNeedNoCalls(earlier + [Show(Ignored)]);
  }

  lemma {:induction false} ResponseCalls(c: Client, id: nat, response: Response, env: Env)
    requires Sound(c)
    ensures var calls := Calls(SendEvents(OnResponse(c, id, response, env).effects));
            calls == 0 || (calls == 1 && id in c.link.outstanding && !response.FileChunk?)
  {
    hide NoNeed, OnAnswer, Overtaken, LinkSound, DownloadSound, NothingLeft, Busy, NotMoved;
    NoNeedOne(Ignored);
    NoNeedNoCalls([Show(Ignored)]);
    if id in c.link.outstanding {
      var asked := c.link.outstanding[id];
      var first := Overtaken(c.(link := c.link.(outstanding := c.link.outstanding - {id})), id);
      OvertakenUpload(c, id);
      UploadStillSound(c, first.client);
      if Moving(asked, response) {
        MovingCalls(first.client, asked, response, first.effects, env);
      } else {
        AnswerOther(first.client, asked, response, first.effects, env);
        OtherNeedsNothing(first.client, OnAnswer(first.client, asked, response, first.effects, env));
      }
    }
  }

  lemma {:induction false} UploadStillSound(c: Client, next: Client)
    requires Sound(c) && next.link.session && (next.upload == c.upload || next.upload.None?)
    ensures UploadSound(next)
  {
  }

  lemma {:induction false} OtherNeedsNothing(c: Client, did: Did)
    requires NotMoved(c, did)
    ensures Calls(SendEvents(did.effects)) == 0
  {
    NoNeedNoCalls(did.effects);
  }

  lemma {:induction false} FrameCalls(c: Client, frame: Frame, env: Env)
    requires Sound(c)
    ensures var calls := Calls(SendEvents(OnFrame(c, frame, env).effects));
            calls == 0 || (calls == 1 && frame.Data? && frame.content.Answer? && !frame.content.response.FileChunk?)
  {
    hide OnLinked, OnResponse, Noted, NoNeed, NothingLeft;
    var did := OnFrame(c, frame, env);
    if frame.Handshake? && frame.intact && frame.agrees && c.link.pending {
      PendingIsOpen(c);
      LinkedOther(c, env);
      NoNeedNoCalls(did.effects);
    } else if frame.Data? && c.link.session && frame.content.Answer? {
      ResponseCalls(c, frame.content.id, frame.content.response, env);
    } else if |did.effects| == 1 && did.effects[0].Show? && !did.effects[0].event.NeedChunk? {
      NoNeedOne(did.effects[0].event);
      assert did.effects == [Show(did.effects[0].event)];
      NoNeedNoCalls(did.effects);
    }
  }

  lemma {:induction false} PendingIsOpen(c: Client)
    requires Sound(c) && c.link.pending
    ensures !c.link.revoked
  {
  }

  lemma {:induction false} StepSendCalls(c: Client, input: Input, env: Env)
    requires Sound(c)
    ensures var calls := Calls(SendEvents(Step(c, input, env).effects));
            calls == 0 || (calls == 1 && input.Received? && input.frame.Data? && input.frame.content.Answer? &&
                           !input.frame.content.response.FileChunk?)
  {
    hide OnAsk, OnFrame, AnySend, NoNeed, AbortEach, LinkSound, DownloadSound, UploadSound, NothingLeft, OnLost;
    var did := Step(c, input, env);
    match input
    case Received(frame) => FrameCalls(c, frame, env);
    case Ask(request) => AskTellsNoSend(c.link, c.cache, request, env);
    case Fetch(fileId, chunkTotal, chunkBytes) =>
      AskTellsNoSend(c.link, c.cache, ChunkRequest(Download(fileId, 0, chunkTotal, chunkBytes, false)), env);
    case Send(chat, items, _) => if items != [] { AskTellsNoSend(c.link, c.cache, Offer(chat, items[0]), env); }
    case PutChunk(index, bytes) =>
      if c.upload.Some? && c.upload.value.Current().Some? {
        AskTellsNoSend(c.link, c.cache, Request.FilePut(c.upload.value.Current().value, index, bytes), env);
      }
    case CancelSend =>
      if c.upload.Some? {
        AbortOther(c.link, c.cache, c.upload.value.ids, env);
        NoNeedNoCalls(did.effects);
      }
    case Lost =>
      LostOther(c);
      OtherNeedsNothing(c, OnLost(c));
    case _ =>
  }

  /** One input calls for at most one answer; the driver's own answers call for none. */
  lemma {:induction false} StepCalls(c: Client, input: Input, env: Env)
    requires Sound(c)
    ensures Calls(EventsOf(Step(c, input, env).effects)) <= 1
    ensures !input.Received? ==> Calls(EventsOf(Step(c, input, env).effects)) == 0
  {
    hide Step, Sound;
    CallsSplit(Step(c, input, env).effects);
    FetchCalls(c, input, env);
    StepSendCalls(c, input, env);
  }

  // ---- what the driver answers ----

  lemma {:induction false} ShowCalls(d: Driver, effects: seq<Effect>, luck: Luck)
    ensures |ShowAll(d, effects, luck).answers| <= Calls(EventsOf(effects))
    ensures forall i | 0 <= i < |ShowAll(d, effects, luck).answers| :: !ShowAll(d, effects, luck).answers[i].Received?
    ensures ShowAll(d, effects, luck).driver.client == d.client
    decreases |effects|
  {
    hide WriteAt, ReadAt;
    if effects != [] {
      if effects[0].Show? {
        var first := ShowEvent(d, effects[0].event, luck);
        ShowCalls(first.driver, effects[1..], luck);
        assert |first.answers| <= (if Called(effects[0].event) then 1 else 0) && first.driver.client == d.client;
        FrontCall(effects[0].event, effects[1..]);
      } else {
        ShowCalls(d, effects[1..], luck);
      }
    }
  }

  lemma {:induction false} RoundCalls(d: Driver, input: Input, env: Env, luck: Luck)
    requires Sound(d.client)
    ensures var shown := Round(d, input, env, luck);
            |shown.answers| <= 1 && (!input.Received? ==> shown.answers == []) &&
            shown.driver.client == Step(d.client, input, env).client &&
            forall i | 0 <= i < |shown.answers| :: !shown.answers[i].Received?
  {
    hide Step, Sound;
    var did := Step(d.client, input, env);
    StepCalls(d.client, input, env);
    ShowCalls(d.(client := did.client), did.effects, luck);
  }

  /** Where one input leads: through one round, or through two. */
  function FeedOnce(d: Driver, input: Input, env: Env, luck: Luck): Driver {
    var one := Round(d, input, env, luck);
    if one.answers == [] then one.driver else Round(one.driver, one.answers[0], env, luck).driver
  }

  /** Two rounds are enough: whatever comes, the queue is empty after them, so the limit drops nothing. */
  lemma {:induction false} FeedIsTwoRounds(d: Driver, input: Input, rounds: nat, env: Env, luck: Luck)
    requires Sound(d.client) && Honest(d.client, input) && rounds >= 2
    ensures Feed(d, [input], rounds, env, luck) == FeedOnce(d, input, env, luck)
  {
    hide Round, Sound, Honest;
    var one := Round(d, input, env, luck);
    RoundCalls(d, input, env, luck);
    StepSound(d.client, input, env);
    assert [input][1..] + one.answers == one.answers;
    if one.answers == [] {
      assert Feed(one.driver, [], rounds - 1, env, luck) == one.driver;
    } else {
      var two := Round(one.driver, one.answers[0], env, luck);
      RoundCalls(one.driver, one.answers[0], env, luck);
      assert one.answers[1..] + two.answers == [];
      assert Feed(two.driver, [], rounds - 2, env, luck) == two.driver;
    }
  }
}
