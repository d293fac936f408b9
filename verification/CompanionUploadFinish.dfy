/** A message on its way, its text short enough, can always arrive: however often the link was lost and whatever the phone
    still has of its files, a new link, the phone's answers and the driver's pieces bring it to where it is sent, and the
    driver is free again. */
module CompanionUploadFinish {
  import opened Bytes
  import opened CompanionProtocol
  import opened CompanionProtocolLaws
  import opened CompanionDriver
  import opened CompanionDownload
  import opened CompanionFeed
  import opened CompanionPhone
  import opened CompanionUpload
  import opened CompanionUploadState
  import opened CompanionUploadFeed
  import opened CompanionUploadAnswers
  import opened CompanionUploadRuns
  import opened CompanionRuns
  import opened CompanionSpoiling
  import L = CompanionLateAnswer
  import V = CompanionResume
  import CC = CompanionCache

  /** The message with this text went out for these files, under a number from `from` on, and nothing is being sent any more. */
  ghost predicate Gone(w: World, from: nat, text: Text, paths: seq<Path>) {
    w.d.client.upload.None? && w.d.sending.None? &&
    exists id | id in w.sent :: id >= from && w.sent[id].request.FileSend? && w.sent[id].request.text == text && w.sent[id].paths == paths
  }

  ghost predicate CanGo(w: World, src: map<Path, seq<Byte>>, from: nat, text: Text, paths: seq<Path>) {
    exists run :: Fair(w, src, run) && Gone(Reached(w, run), from, text, paths)
  }

  lemma {:induction false} GoneAlready(w: World, src: map<Path, seq<Byte>>, from: nat, text: Text, paths: seq<Path>)
    requires StoreSound(w.st) && Steady(src, w.d.disk) && Gone(w, from, text, paths)
    ensures CanGo(w, src, from, text, paths)
  {
    hide Gone, StoreSound, Steady;
    assert Fair(w, src, []) && Reached(w, []) == w;
  }

  lemma {:induction false} StepGoes(w: World, src: map<Path, seq<Byte>>, h: Happening, from: nat, text: Text, paths: seq<Path>)
    requires StoreSound(w.st) && Steady(src, w.d.disk) && May(w, src, h) && CanGo(Next(w, h), src, from, text, paths)
    ensures CanGo(w, src, from, text, paths)
  {
    hide Gone, StoreSound, Steady, Next, May;
    var run :| Fair(Next(w, h), src, run) && Gone(Reached(Next(w, h), run), from, text, paths);
    assert ([h] + run)[0] == h && ([h] + run)[1..] == run;
    assert Fair(w, src, [h] + run) && Reached(w, [h] + run) == Reached(Next(w, h), run);
  }

  lemma {:induction false} AnsweredGoes(w: World, src: map<Path, seq<Byte>>, id: nat, response: Response, after: Store, from: nat, text: Text,
                                        paths: seq<Path>)
    requires Booked(w) && Steady(src, w.d.disk) && id in w.d.client.link.outstanding
    requires Handles(w.st, id, w.d.client.link.outstanding[id], response, after)
    requires CanGo(Answered(w, id, response, after), src, from, text, paths)
    ensures CanGo(w, src, from, text, paths)
  {
    hide CanGo, Handles, Sound, Steady, Feed, AfterDriver;
    BookedHandled(w, id, response, after);
    var handled := Next(w, Handled(id, response, after));
    StepGoes(handled, src, Arrives(id, response, AGREEABLE, LUCKY), from, text, paths);
    StepGoes(w, src, Handled(id, response, after), from, text, paths);
  }

  // ---- the last answer ----

  lemma {:induction false} SentAnswer(c: Client, id: nat)
    requires Sound(c) && id in c.link.outstanding && c.link.outstanding[id].FileSend? && c.upload.Some? && !c.upload.value.stalled
    ensures var did := Step(c, Reply(id, Response.Done), AGREEABLE);
            did.client.upload.None? && FetchEvents(did.effects) == [] && SendEvents(did.effects) == [Sent(c.link.outstanding[id].fileIds)]
  {
    hide Overtaken, LinkSound, DownloadSound, NothingLeft, KeepsOthers, Roomy;
    var first := Overtaken(c.(link := c.link.(outstanding := c.link.outstanding - {id})), id);
    AnsweredLeavesRoom(c, id);
    var sent := [Show(Sent(c.link.outstanding[id].fileIds))];
    SendEventsBoth(first.effects, sent);
    FetchEventsBoth(first.effects, sent);
    assert sent[1..] == [] && SendEvents(sent) == [sent[0].event];
    assert [] + [sent[0].event] == [sent[0].event];
    AnsweredLeavesRoom(c, id);
    V.SessionNeeded(c, id);
  }

  /** What is told of a sending, and nothing of a download: the driver forgets what it was sending. */
  lemma {:induction false} ShowSent(d: Driver, effects: seq<Effect>, ids: seq<Id>, luck: Luck)
    requires SendEvents(effects) == [Sent(ids)] && FetchEvents(effects) == []
    ensures ShowAll(d, effects, luck) == Shown(d.(sending := None), [])
    decreases |effects|
  {
    if effects[0].Send? {
      ShowSent(d, effects[1..], ids, luck);
    } else {
      HeadTold(effects, ids);
      if effects[0].event.Sent? {
        assert SendEvents(effects)[1..] == SendEvents(effects[1..]);
        ShowNothing(d.(sending := None), effects[1..], luck);
      } else {
        assert !AboutFetch(effects[0].event);
        assert ShowEvent(d, effects[0].event, luck) == Shown(d, []);
        ShowSent(d, effects[1..], ids, luck);
      }
    }
  }

  lemma {:induction false} HeadTold(effects: seq<Effect>, ids: seq<Id>)
    requires effects != [] && effects[0].Show? && SendEvents(effects) == [Sent(ids)]
    ensures AboutSend(effects[0].event) ==> effects[0].event == Sent(ids)
  {
    if AboutSend(effects[0].event) { assert SendEvents(effects)[0] == effects[0].event; }
  }

  /** The message goes: it is on record, the answer ends the upload, and the driver is free. */
  lemma {:induction false} LastAnswer(w: World, src: map<Path, seq<Byte>>, u: Upload, paths: seq<Path>, q: nat, from: nat)
    requires Stage(w, src, u, paths) && u.at == |u.items| && OnRecord(w, q, NextAsk(u), paths) && q >= from
    ensures CanGo(w, src, from, u.text, paths)
  {
    hide CanGo, Sound, StoreSound, WaitingSound, Steady, Adopt, Step, Honest;
    BookedParts(w);
    var r := w.d.client.link.outstanding[q];
    var st := w.st.(have := map fid | fid in w.st.have && fid !in r.fileIds :: w.st.have[fid]);
    BookedHandled(w, q, Response.Done, st);
    SentAnswer(w.d.client, q);
    var input := Reply(q, Response.Done);
    var did := Step(w.d.client, input, AGREEABLE);
    FeedIsTwoRounds(w.d, input, FEED_ROUNDS, AGREEABLE, LUCKY);
    ShowSent(w.d.(client := did.client), did.effects, r.fileIds, LUCKY);
    var end := Answered(w, q, Response.Done, st);
    assert q in end.sent && end.sent[q] == w.sent[q];
    assert Gone(end, from, u.text, paths);
    StoreAfter(w, q, Response.Done, st);
    GoneAlready(end, src, from, u.text, paths);
    AnsweredGoes(w, src, q, Response.Done, st, from, u.text, paths);
  }

  lemma {:induction false} StoreAfter(w: World, id: nat, response: Response, after: Store)
    requires Booked(w) && id in w.d.client.link.outstanding && Handles(w.st, id, w.d.client.link.outstanding[id], response, after)
    ensures Answered(w, id, response, after).st == after && StoreSound(after)
  {
    hide Sound, WaitingSound;
    BookedHandled(w, id, response, after);
    BookedParts(Next(w, Handled(id, response, after)));
  }

  // ---- file by file ----

  /** From the request for what comes next, answer by answer, to the end. */
  lemma {:induction false} GoesOut(w: World, src: map<Path, seq<Byte>>, u: Upload, paths: seq<Path>, q: nat, spare: seq<Id>, from: nat)
    requires Stage(w, src, u, paths) && u.at == |u.ids| <= |u.items| && OnRecord(w, q, NextAsk(u), paths) && from <= q
    requires L.Spare(w.st, spare, |u.items| - u.at)
    ensures CanGo(w, src, from, u.text, paths)
    decreases |u.items| - u.at, 1
  {
    hide CanGo, Booked, Steady;
    if u.at == |u.items| {
      LastAnswer(w, src, u, paths, q, from);
    } else if u.items[u.at].sizeBytes == 0 {
      EmptyGoes(w, src, u, paths, q, spare, from);
    } else {
      FullGoes(w, src, u, paths, q, spare, from);
    }
  }

  lemma {:induction false} EmptyGoes(w: World, src: map<Path, seq<Byte>>, u: Upload, paths: seq<Path>, q: nat, spare: seq<Id>, from: nat)
    requires Stage(w, src, u, paths) && u.at == |u.ids| < |u.items| && OnRecord(w, q, NextAsk(u), paths) && from <= q
    requires u.items[u.at].sizeBytes == 0 && L.Spare(w.st, spare, |u.items| - u.at)
    ensures CanGo(w, src, from, u.text, paths)
    decreases |u.items| - u.at, 0
  {
    hide CanGo, Booked, Steady, Answered, Handles, KeepsOthers;
    var n, f, r := w.d.client.link.nextId, spare[0], w.d.client.link.outstanding[q];
    L.NumbersBelow(w, q);
    EmptyOffered(w, src, u, paths, q, f);
    L.SpareAfter(w.st, Placed(w.st, q, r, f, 0), spare, |u.items| - u.at);
    GoesOut(Answered(w, q, Response.FileOffer(f, 0, WIDE), Placed(w.st, q, r, f, 0)), src, Begun(u, f, 0, WIDE).(at := u.at + 1), paths, n, spare[1..], from);
    AnsweredGoes(w, src, q, Response.FileOffer(f, 0, WIDE), Placed(w.st, q, r, f, 0), from, u.text, paths);
  }

  lemma {:induction false} FullGoes(w: World, src: map<Path, seq<Byte>>, u: Upload, paths: seq<Path>, q: nat, spare: seq<Id>, from: nat)
    requires Stage(w, src, u, paths) && u.at == |u.ids| < |u.items| && OnRecord(w, q, NextAsk(u), paths) && from <= q
    requires u.items[u.at].sizeBytes > 0 && L.Spare(w.st, spare, |u.items| - u.at)
    ensures CanGo(w, src, from, u.text, paths)
    decreases |u.items| - u.at, 0
  {
    hide CanGo, Booked, Steady, Answered, Handles, KeepsOthers;
    var n, f, r := w.d.client.link.nextId, spare[0], w.d.client.link.outstanding[q];
    L.NumbersBelow(w, q);
    FullOffered(w, src, u, paths, q, f);
    var v, placed := Begun(u, f, 1, WIDE), Answered(w, q, Response.FileOffer(f, 1, WIDE), Placed(w.st, q, r, f, 1));
    var bytes :| OnRecord(placed, n, Request.FilePut(v.ids[v.at], 0, bytes), paths);
    var put := Request.FilePut(v.ids[v.at], 0, bytes);
    L.NumbersBelow(placed, n);
    PutStored(placed, src, v, paths, n);
    L.SpareAfter(w.st, Filled(placed.st, put), spare, |u.items| - u.at);
    GoesOut(Answered(placed, n, Response.Done, Filled(placed.st, put)), src, v.(next := 1, at := u.at + 1), paths,
            placed.d.client.link.nextId, spare[1..], from);
    AnsweredGoes(placed, src, n, Response.Done, Filled(placed.st, put), from, u.text, paths);
    AnsweredGoes(w, src, q, Response.FileOffer(f, 1, WIDE), Placed(w.st, q, r, f, 1), from, u.text, paths);
  }

  // ---- over a new link ----

  /** An input of which the driver has nothing to tell. */
  lemma {:induction false} QuietFeed(d: Driver, input: Input)
    requires Sound(d.client) && Honest(d.client, input)
    requires SendEvents(Step(d.client, input, AGREEABLE).effects) == [] && FetchEvents(Step(d.client, input, AGREEABLE).effects) == []
    ensures Feed(d, [input], FEED_ROUNDS, AGREEABLE, LUCKY) == d.(client := Step(d.client, input, AGREEABLE).client)
  {
    hide Step, Sound, Honest;
    var did := Step(d.client, input, AGREEABLE);
    FeedIsTwoRounds(d, input, FEED_ROUNDS, AGREEABLE, LUCKY);
    ShowNothing(d.(client := did.client), did.effects, LUCKY);
  }

  lemma {:induction false} LostSilent(c: Client)
    ensures var did := Step(c, Lost, AGREEABLE); Untold(did.effects) && FetchEvents(did.effects) == []
  {
    hide Untold;
    LostIdle(c);
    UntoldNone();
    UntoldOne(SendPaused);
    UntoldOne(FetchPaused);
    UntoldOne(Unlinked);
    var sending := if c.upload.Some? then [Show(SendPaused)] else [];
    var fetching := if c.download.Some? then [Show(FetchPaused)] else [];
    UntoldBoth(sending, fetching);
    UntoldBoth(sending + fetching, if c.link.session then [Show(Unlinked)] else []);
  }

  lemma {:induction false} ReachSilent(c: Client)
    ensures var did := Step(c, Input.Reach, AGREEABLE); SendEvents(did.effects) == [] && FetchEvents(did.effects) == []
  {
    ReachIdle(c, AGREEABLE);
  }

  lemma {:induction false} LinkedSilent(c: Client)
    requires Sound(c) && c.link.pending
    ensures var did := Step(c, Received(Handshake(true, true)), AGREEABLE); SendEvents(did.effects) == [] && FetchEvents(did.effects) == []
  {
    hide Sound, OnLinked, Busy;
    V.PendingSound(c);
    LinkedOther(c, AGREEABLE);
    LinkedIdle(c, AGREEABLE);
  }

  /** One step of the world, of which the driver has nothing to tell. */
  lemma {:induction false} QuietStep(w: World, src: map<Path, seq<Byte>>, input: Input)
    requires Good(w, src) && Steady(src, w.d.disk) && Outside(input)
    requires SendEvents(Step(w.d.client, input, AGREEABLE).effects) == [] && FetchEvents(Step(w.d.client, input, AGREEABLE).effects) == []
    ensures var h := Does(Through(input), AGREEABLE, LUCKY);
            StoreSound(w.st) && May(w, src, h) && Good(Next(w, h), src) && Next(w, h).st == w.st &&
            Next(w, h).d == w.d.(client := Step(w.d.client, input, AGREEABLE).client)
  {
    hide Good, Steady, Step, Sound, Honest;
    GoodStore(w, src);
    var h := Does(Through(input), AGREEABLE, LUCKY);
    NextGood(w, src, h);
    GoodSound(w, src);
    OutsideIsHonest(w.d.client, input);
    QuietFeed(w.d, input);
  }

  lemma {:induction false} GoodSound(w: World, src: map<Path, seq<Byte>>)
    requires Good(w, src)
    ensures Sound(w.d.client) && WaitingSound(w)
  {
  }

  lemma {:induction false} OutsideIsHonest(c: Client, input: Input)
    requires Outside(input)
    ensures Honest(c, input)
  {
  }

  /** What there is once the link is lost and found: the message waits, with the greeting and the question on order. */
  predicate Asking(c: Client, next: Client) {
    c.upload.Some? && next.upload == Some(c.upload.value.(stalled := true)) && next.link.session && !next.link.revoked &&
    |next.link.outstanding| <= 4 && next.link.hello == Some(c.link.nextId) && c.link.nextId in next.link.outstanding &&
    next.link.outstanding[c.link.nextId].Hello? && c.link.nextId + 2 in next.link.outstanding &&
    next.link.outstanding[c.link.nextId + 2] == Request.Staged && next.link.nextId > c.link.nextId
  }

  lemma {:induction false} LinkedAsks(c: Client)
    requires Sound(c) && c.link.pending && c.upload.Some? && c.upload.value.stalled
    ensures Asking(c, Step(c, Received(Handshake(true, true)), AGREEABLE).client)
  {
    hide Sound, Step, V.Greetings, V.WaitInTurn;
    V.PendingSound(c);
    V.LinkedGreets(c, AGREEABLE);
    V.GreetingsWait(c, AGREEABLE);
    V.FewGreetings(c);
    FirstGreetings(c);
    var e := Step(c, Received(Handshake(true, true)), AGREEABLE).client;
    FirstAndThird(c.link.nextId, V.Greetings(c), e.link.outstanding);
    V.FewWait(c.link.nextId, V.Greetings(c), AGREEABLE, e.link.outstanding);
  }

  lemma {:induction false} FirstAndThird(n: nat, rs: seq<Request>, waits: map<nat, Request>)
    requires |rs| >= 3 && V.WaitInTurn(map[], n, rs, AGREEABLE, waits)
    ensures n in waits && waits[n] == rs[0] && n + 2 in waits && waits[n + 2] == rs[2]
  {
    assert AGREEABLE.fits(n + 0, rs[0]) && AGREEABLE.fits(n + 2, rs[2]);
    assert n + 0 in waits && n + 2 in waits;
  }

  lemma {:induction false} FirstGreetings(c: Client)
    ensures V.Greetings(c)[0] == Request.Hello
  {
  }

  /** The world once the link is lost and found. */
  function Relinked(w: World): World {
    Next(Next(Next(w, Does(Through(Lost), AGREEABLE, LUCKY)), Does(Through(Input.Reach), AGREEABLE, LUCKY)),
         Does(Through(Received(Handshake(true, true))), AGREEABLE, LUCKY))
  }

  lemma {:induction false} RelinkedAsks(w: World, src: map<Path, seq<Byte>>)
    requires Good(w, src) && Steady(src, w.d.disk) && w.d.client.upload.Some? && !w.d.client.link.revoked
    ensures var e := Relinked(w);
            Good(e, src) && Asking(w.d.client, e.d.client) && e.st == w.st && e.d == w.d.(client := e.d.client)
    ensures forall from, text, paths | CanGo(Relinked(w), src, from, text, paths) :: CanGo(w, src, from, text, paths)
  {
    hide Good, Sound, Step, Next, CanGo, Steady, Outside;
    var reach, shake := Does(Through(Input.Reach), AGREEABLE, LUCKY), Does(Through(Received(Handshake(true, true))), AGREEABLE, LUCKY);
    AllOutside();
    GoodSound(w, src);
    LostSilent(w.d.client);
    QuietStep(w, src, Lost);
    V.LostKeepsPlaces(w.d.client, AGREEABLE);
    var one := Next(w, Does(Through(Lost), AGREEABLE, LUCKY));
    ReachSilent(one.d.client);
    QuietStep(one, src, Input.Reach);
    V.ReachKnocks(one.d.client, AGREEABLE);
    var two := Next(one, reach);
    LinkedSilent(two.d.client);
    QuietStep(two, src, Received(Handshake(true, true)));
    LinkedAsks(two.d.client);
    forall from, text, paths | CanGo(Relinked(w), src, from, text, paths) ensures CanGo(w, src, from, text, paths) {
      StepGoes(two, src, shake, from, text, paths);
      StepGoes(one, src, reach, from, text, paths);
      StepGoes(w, src, Does(Through(Lost), AGREEABLE, LUCKY), from, text, paths);
    }
  }

  lemma {:induction false} AllOutside()
    ensures Outside(Lost) && Outside(Input.Reach) && Outside(Received(Handshake(true, true)))
  {
  }

  // ---- the greeting and the question answered ----

  lemma {:induction false} HelloAnswered(c: Client, id: nat)
    requires Sound(c) && c.link.hello == Some(id) && id in c.link.outstanding && c.link.outstanding[id].Hello?
    ensures var did := Step(c, Reply(id, Response.Hello(WIRE_VERSION)), AGREEABLE);
            SendEvents(did.effects) == [] && FetchEvents(did.effects) == [] &&
            did.client == c.(link := c.link.(outstanding := c.link.outstanding - {id}, hello := None, phoneWire := Some(WIRE_VERSION)))
  {
    hide LinkSound, DownloadSound, UploadSound, NothingLeft;
    V.SessionNeeded(c, id);
    var wire := [Show(Wire(Some(WIRE_VERSION)))];
    assert [] + [] + wire == wire && [] + wire == wire;
    OneMoreEvent([], Wire(Some(WIRE_VERSION)));
    UntoldOne(Wire(Some(WIRE_VERSION)));
  }

  /** The phone has nothing of the message any more: it begins again with its first file. */
  function Anew(u: Upload): Upload {
    u.(stalled := false, at := 0, ids := [])
  }

  lemma {:induction false} BeginsAnew(c: Client)
    requires Roomy(c.link) && c.upload.Some? && c.upload.value.stalled && c.upload.value.items != []
    ensures AskedNext(c, c.link, Anew(c.upload.value), OnStaged(c, [], AGREEABLE))
  {
    hide OnAsk, Roomy;
    var v := Anew(c.upload.value);
    var shown := [Show(SendResumed(0, |v.items|))];
    var sends := [Effect.Send(Asked(c.link.nextId, NextAsk(v)))];
    AskGoes(c.link, c.cache, NextAsk(v));
    SendTellsNothing(Asked(c.link.nextId, NextAsk(v)));
    assert SendEvents(shown) == [] && FetchEvents(shown) == [];
    SendEventsBoth(shown, sends);
    FetchEventsBoth(shown, sends);
    assert c.upload.value.ids[..0] == [];
  }

  lemma {:induction false} NothingStaged(c: Client, id: nat)
    requires Sound(c) && c.link.hello.None? && id in c.link.outstanding && |c.link.outstanding| <= 4
    requires c.upload.Some? && c.upload.value.stalled && c.upload.value.items != []
    ensures var m := c.link.(outstanding := c.link.outstanding - {id});
            AskedNext(c.(link := m), m, Anew(c.upload.value), Step(c, Reply(id, Response.Staged([])), AGREEABLE))
  {
    hide Sound, OnStaged, AskedFor, Anew;
    V.SessionNeeded(c, id);
    SessionOpen(c);
    OneFewer(c.link.outstanding, id);
    var less := c.(link := c.link.(outstanding := c.link.outstanding - {id}));
    BeginsAnew(less);
    var did := OnStaged(less, [], AGREEABLE);
    assert [] + did.effects == did.effects;
  }

  lemma {:induction false} SessionOpen(c: Client)
    requires Sound(c) && c.link.session
    ensures c.link.Live() && !c.link.revoked
  {
  }

  lemma {:induction false} Handleable(w: World, src: map<Path, seq<Byte>>, id: nat, response: Response)
    requires Good(w, src) && id in w.d.client.link.outstanding
    requires (w.d.client.link.outstanding[id].Hello? && response.Hello?) || (w.d.client.link.outstanding[id].Staged? && response == Response.Staged([]))
    ensures StoreSound(w.st) && id in w.sent && Handles(w.st, id, w.d.client.link.outstanding[id], response, w.st) &&
            May(w, src, Handled(id, response, w.st)) && Honest(w.d.client, Reply(id, response)) && Booked(w)
  {
    hide Sound, Well, RepliesSound, OwnersSpent, ListsSound, OwnersSound, ContentSound, EarlierQuiet, SentSound, StoreSound;
    BookedOf(w, src);
    GoodSound(w, src);
  }

  lemma {:induction false} BookedOf(w: World, src: map<Path, seq<Byte>>)
    requires Good(w, src)
    ensures Booked(w) && StoreSound(w.st)
  {
  }

  /** The greeting is answered by a phone of this version of the wire. */
  lemma {:induction false} Greeted(w: World, src: map<Path, seq<Byte>>, c: Client) returns (e: World)
    requires Good(w, src) && Steady(src, w.d.disk) && Asking(c, w.d.client)
    ensures Good(e, src) && e.st == w.st && e.d == w.d.(client := e.d.client) && e.d.client.upload == w.d.client.upload
    ensures e.d.client.link.hello.None? && |e.d.client.link.outstanding| <= 4 && e.d.client.link.nextId == w.d.client.link.nextId
    ensures c.link.nextId + 2 in e.d.client.link.outstanding && e.d.client.link.outstanding[c.link.nextId + 2] == Request.Staged
    ensures forall from, text, paths | CanGo(e, src, from, text, paths) :: CanGo(w, src, from, text, paths)
  {
    hide Good, Sound, Step, Steady, CanGo, Handles, Feed, AfterDriver, Honest;
    var n, response := c.link.nextId, Response.Hello(WIRE_VERSION);
    Handleable(w, src, n, response);
    NextGood(w, src, Handled(n, response, w.st));
    var handled := Next(w, Handled(n, response, w.st));
    NextGood(handled, src, Arrives(n, response, AGREEABLE, LUCKY));
    e := Answered(w, n, response, w.st);
    GoodSound(w, src);
    HelloAnswered(w.d.client, n);
    QuietFeed(w.d, Reply(n, response));
    ArrivedDriver(handled, n, response);
    OneFewer(w.d.client.link.outstanding, n);
    forall from, text, paths | CanGo(e, src, from, text, paths) ensures CanGo(w, src, from, text, paths) {
      AnsweredGoes(w, src, n, response, w.st, from, text, paths);
    }
  }

  lemma {:induction false} ArrivedDriver(w: World, id: nat, response: Response)
    ensures var e := Next(w, Arrives(id, response, AGREEABLE, LUCKY));
            e.d == Feed(w.d, [Reply(id, response)], FEED_ROUNDS, AGREEABLE, LUCKY) && e.st == w.st
  {
  }

  // ---- the whole way ----

  lemma {:induction false} WaitingWell(w: World, src: map<Path, seq<Byte>>)
    requires Good(w, src) && w.d.client.upload.Some?
    ensures w.d.sending.Some? && w.d.client.upload.value.items != [] && |PathsNow(w.d)| == |w.d.client.upload.value.items|
    ensures forall i | 0 <= i < |PathsNow(w.d)| :: PathsNow(w.d)[i] in src
  {
    hide Sound, RepliesSound, OwnersSpent, ListsSound, OwnersSound, ContentSound, EarlierQuiet, SentSound, StoreSound, WaitingSound;
  }

  /** From any state a fair run reaches with a message on its way over a pairing not revoked: some fair continuation sends it,
      with its text, for the files it was begun for, and leaves the driver free. That what it names is those files, whole, is
      `CompanionUploadRuns.MessagesNameWholeFiles`. A text no frame may carry is refused only here, at the end. */
  lemma {:induction false} NeverBeyondSending(w: World, src: map<Path, seq<Byte>>, spare: seq<Id>)
    requires Good(w, src) && Steady(src, w.d.disk) && w.d.client.upload.Some? && !w.d.client.link.revoked
    requires |w.d.client.upload.value.text| <= MAX_TEXT_BYTES && L.Spare(w.st, spare, |w.d.client.upload.value.items|)
    ensures CanGo(w, src, w.d.client.link.nextId, w.d.client.upload.value.text, PathsNow(w.d))
  {
    hide Good, Sound, Step, Steady, CanGo, Handles, Feed, AfterDriver, Honest, Booked, LinkSound, KeepsOthers, StoreSound, Relinked, Next;
    var c, u, paths := w.d.client, w.d.client.upload.value, PathsNow(w.d);
    WaitingWell(w, src);
    RelinkedAsks(w, src);
    var linked := Relinked(w);
    var e := Greeted(linked, src, c);
    var id := c.link.nextId + 2;
    Handleable(e, src, id, Response.Staged([]));
    var handled := Next(e, Handled(id, Response.Staged([]), e.st));
    BookedHandled(e, id, Response.Staged([]), e.st);
    GoodSound(e, src);
    NothingStaged(e.d.client, id);
    var m, v := e.d.client.link.(outstanding := e.d.client.link.outstanding - {id}), Anew(u);
    HandledKeeps(e, id);
    KeepsRest(e.d.client.link, id);
    NextAsked(handled, src, paths, id, Response.Staged([]), m, v);
    GoesOut(Answered(e, id, Response.Staged([]), e.st), src, v, paths, m.nextId, spare, c.link.nextId);
    AnsweredGoes(e, src, id, Response.Staged([]), e.st, c.link.nextId, u.text, paths);
  }

  lemma {:induction false} HandledKeeps(w: World, id: nat)
    ensures var e := Next(w, Handled(id, Response.Staged([]), w.st)); e.d == w.d && e.st == w.st
  {
  }

  lemma {:induction false} KeepsRest(l: Link, id: nat)
    ensures KeepsOthers(l, l.(outstanding := l.outstanding - {id}), id)
  {
  }

  /** Over every fair run from the start of a terminal. */
  lemma {:induction false} AlwaysSendable(address: CC.Address, disk: Disk, src: map<Path, seq<Byte>>, run: seq<Happening>, spare: seq<Id>)
    requires Fair(Beginning(address, disk), src, run)
    requires var w := Reached(Beginning(address, disk), run);
             w.d.client.upload.Some? && !w.d.client.link.revoked && |w.d.client.upload.value.text| <= MAX_TEXT_BYTES &&
             L.Spare(w.st, spare, |w.d.client.upload.value.items|)
    ensures var w := Reached(Beginning(address, disk), run);
            CanGo(w, src, w.d.client.link.nextId, w.d.client.upload.value.text, PathsNow(w.d))
  {
    hide Good, Fair, Reached, CanGo, L.Spare, Steady;
    BeginningGood(address, disk, src);
    RunGood(Beginning(address, disk), src, run);
    EndSteady(Beginning(address, disk), src, run);
    NeverBeyondSending(Reached(Beginning(address, disk), run), src, spare);
  }

  lemma {:induction false} EndSteady(w: World, src: map<Path, seq<Byte>>, run: seq<Happening>)
    requires Fair(w, src, run)
    ensures Steady(src, Reached(w, run).d.disk)
    decreases |run|
  {
    hide Steady, Next, May, StoreSound;
    if run != [] { EndSteady(Next(w, run[0]), src, run[1..]); }
  }
}
