/** Whole runs of uploads: the terminal with its driver on one side, the phone on the other, and between them
    requests and answers that may be late, repeated or lost. */
module CompanionUploadRuns {
  import opened Bytes
  import opened CompanionProtocol
  import opened CompanionProtocolLaws
  import opened CompanionDriver
  import opened CompanionDownload
  import opened CompanionFeed
  import opened CompanionPhone
  import opened CompanionUpload
  import opened CompanionUploadState
  import opened CompanionUploadFeed
  import opened CompanionUploadAnswers
  import opened CompanionRuns
  import CC = CompanionCache

  /** A request as it went out, with the paths of the message being sent at the time. */
  datatype Past = Past(request: Request, paths: seq<Path>)

  /** The two sides and what is between them; `begun` is the number from which on requests are of the message
      being sent. */
  datatype World = World(d: Driver, st: Store, sent: map<nat, Past>, replies: set<(nat, Response)>, owner: map<Id, Path>, begun: nat)

  datatype Happening =
    | Does(command: Command, env: Env, luck: Luck)
    | Arrives(id: nat, response: Response, env: Env, luck: Luck)
    | Handled(id: nat, response: Response, after: Store)
    | Forgotten(fileId: Id)

  function ChosenOf(w: World, src: map<Path, seq<Byte>>): Chosen {
    Chosen(src, w.owner, w.begun)
  }

  /** What went out is what now waits under numbers not seen before. */
  function WithSent(sent: map<nat, Past>, d: Driver): map<nat, Past> {
    sent + map id | id in d.client.link.outstanding && id !in sent :: Past(d.client.link.outstanding[id], PathsNow(d))
  }

  function AfterDriver(w: World, d: Driver): World {
    w.(d := d, sent := WithSent(w.sent, d), owner := Adopt(w.owner, d))
  }

  /** A driver that is sending nothing takes up a new message. */
  function Opening(w: World, command: Command): World {
    if command.SendFiles? && w.d.sending.None? then w.(begun := w.d.client.link.nextId) else w
  }

  function Next(w: World, h: Happening): World {
    match h
    case Does(command, env, luck) => AfterDriver(Opening(w, command), Obey(w.d, command, env, luck))
    case Arrives(id, response, env, luck) => AfterDriver(w, Feed(w.d, [Reply(id, response)], FEED_ROUNDS, env, luck))
    case Handled(id, response, after) => w.(st := after, replies := w.replies + {(id, response)})
    case Forgotten(fileId) => w.(st := Forget(w.st, fileId))
  }

  /** What a person and the network may put into the terminal: anything but answers, which come of what the
      phone handled, and the inputs that are the driver's own or the upload's own to make. */
  predicate Outside(input: Input) {
    match input
    case Received(Data(Answer(_, _))) => false
    case Ask(request) => !OfUpload(request)
    case Fetch(_, _, _) => false
    case Send(_, _, _) => false
    case PutChunk(_, _) => false
    case CancelSend => false
    case _ => true
  }

  /** An awaited answer that may still move an upload on: a place may be made, or a chunk was, or can be, put away. */
  predicate MayMove(w: World, id: nat)
    requires id in w.d.client.link.outstanding
  {
    var r := w.d.client.link.outstanding[id];
    r.FileOffer? || (r.FilePut? && (r.fileId in w.st.have || (id, Response.Done) in w.replies))
  }

  /** Nothing that is still awaited can move the next message on. */
  predicate Quiet(w: World) {
    forall id | id in w.d.client.link.outstanding :: !MayMove(w, id)
  }

  /** A message is begun only while all is quiet. */
  predicate MayCommand(w: World, src: map<Path, seq<Byte>>, command: Command) {
    match command
    case SendFiles(_, files, _) => (w.d.sending.None? ==> Quiet(w)) && forall i | 0 <= i < |files| :: files[i].path in src
    case Through(input) => Outside(input)
    case _ => true
  }

  predicate May(w: World, src: map<Path, seq<Byte>>, h: Happening)
    requires StoreSound(w.st)
  {
    match h
    case Does(command, _, _) => MayCommand(w, src, command)
    case Arrives(id, response, _, _) => (id, response) in w.replies
    case Handled(id, response, after) => id in w.sent && Handles(w.st, id, w.sent[id].request, response, after)
    case Forgotten(_) => true
  }

  // ---- what holds of the world ----

  /** Every chunk on the phone is a slice of the file its id was taken for. */
  predicate ContentSound(ch: Chosen, st: Store) {
    forall fid, k | fid in st.have && k in st.have[fid] ::
      Owns(ch, st, fid) && st.have[fid][k] == Slice(ch.src[ch.owner[fid]], k, st.made[fid].chunkBytes)
  }

  predicate SentSound(w: World, ch: Chosen) {
    forall id | id in w.sent :: id < w.d.client.link.nextId && Believable(ch, w.st, w.sent[id].request, w.sent[id].paths)
  }

  predicate WaitingSound(w: World) {
    forall id | id in w.d.client.link.outstanding :: id in w.sent && w.sent[id].request == w.d.client.link.outstanding[id]
  }

  predicate RepliesSound(w: World) {
    forall r | r in w.replies :: r.0 in w.sent && TrueAnswer(w.st, r.0, w.sent[r.0].request, r.1)
  }

  /** An id once taken came of an answer already consumed. */
  predicate OwnersSpent(w: World) {
    forall fid | fid in w.owner :: fid in w.st.made && Spent(w.d.client, w.st.made[fid].asked)
  }

  /** A list of staged files still awaited was made when all but the last file were whole. */
  predicate ListsSound(w: World) {
    w.d.client.upload.Some? && w.d.client.upload.value.stalled ==>
      forall r | r in w.replies && r.0 in w.d.client.link.outstanding && r.1.Staged? :: ListsEarlier(w.d.client.upload.value, r.1.files, w.st)
  }

  /** What is still awaited for earlier messages stays quiet. */
  predicate EarlierQuiet(w: World) {
    w.begun <= w.d.client.link.nextId && forall id | id in w.d.client.link.outstanding && id < w.begun :: !MayMove(w, id)
  }

  predicate Good(w: World, src: map<Path, seq<Byte>>) {
    var ch := ChosenOf(w, src);
    Sound(w.d.client) && StoreSound(w.st) && Well(w.d, ch, w.st) && OwnersSound(ch, w.st) && ContentSound(ch, w.st) &&
    SentSound(w, ch) && WaitingSound(w) && RepliesSound(w) && OwnersSpent(w) && ListsSound(w) && EarlierQuiet(w)
  }

  // ---- the phone's steps ----

  lemma {:induction false} OwnsEvolves(ch: Chosen, st: Store, after: Store, fid: Id)
    requires Owns(ch, st, fid) && Evolves(st, after)
    ensures Owns(ch, after, fid) && fid in st.made && fid in after.made && after.made[fid] == st.made[fid]
  {
  }

  lemma {:induction false} BelievableEvolves(ch: Chosen, st: Store, after: Store, r: Request, paths: seq<Path>)
    requires Believable(ch, st, r, paths) && Evolves(st, after)
    ensures Believable(ch, after, r, paths)
  {
    hide Evolves, Whole, Owns;
    match r
    case FilePut(fid, _, _) => OwnsEvolves(ch, st, after, fid);
    case FileSend(fileIds, _) =>
      forall i | 0 <= i < |fileIds| ensures Owns(ch, after, fileIds[i]) && Whole(after, fileIds[i]) {
        OwnsEvolves(ch, st, after, fileIds[i]);
        WholeEvolves(st, after, fileIds[i]);
      }
    case _ =>
  }

  lemma {:induction false} WholeEvolves(st: Store, after: Store, fid: Id)
    requires Whole(st, fid) && Evolves(st, after)
    ensures Whole(after, fid)
  {
    EvolvesKeeps(st, after, fid);
  }

  lemma {:induction false} GoingEvolves(u: Upload, busy: map<nat, Request>, paths: seq<Path>, ch: Chosen, st: Store, after: Store)
    requires Going(u, busy, paths, ch, st) && Evolves(st, after)
    ensures Going(u, busy, paths, ch, after)
  {
    hide HasBelow, Slice;
    forall i | 0 <= i < |u.ids| ensures Whole(st, u.ids[i]) ==> Whole(after, u.ids[i]) {
      EvolvesKeeps(st, after, u.ids[i]);
    }
    if Putting(u, st) { HasBelowEvolves(st, after, u.ids[u.at], u.next); }
    if !u.stalled {
      forall id | id in busy ensures Expected(u, ch, after, busy[id]) {
        ExpectedEvolves(u, ch, st, after, busy[id]);
      }
    }
  }

  lemma {:induction false} HasBelowEvolves(st: Store, after: Store, fid: Id, n: nat)
    requires HasBelow(st, fid, n) && Evolves(st, after) && fid in st.made
    ensures HasBelow(after, fid, n)
  {
    forall k | 0 <= k < n ensures Has(after, fid, k) {
      assert Has(st, fid, k);
    }
  }

  lemma {:induction false} ExpectedEvolves(u: Upload, ch: Chosen, st: Store, after: Store, r: Request)
    requires Expected(u, ch, st, r) && Evolves(st, after)
    ensures Expected(u, ch, after, r)
  {
    hide HasBelow, Slice, Whole;
    if r.FilePut? { HasBelowEvolves(st, after, u.ids[u.at], u.next); }
    if r.FileOffer? || r.FileSend? {
      forall i | 0 <= i < |u.ids| ensures Whole(after, u.ids[i]) {
        WholeEvolves(st, after, u.ids[i]);
      }
    }
  }

  lemma {:induction false} ListsEvolves(u: Upload, files: seq<StagedFile>, st: Store, after: Store)
    requires ListsEarlier(u, files, st) && Evolves(st, after)
    ensures ListsEarlier(u, files, after)
  {
  }

  lemma {:induction false} QuietEvolves(w: World, src: map<Path, seq<Byte>>, after: Store)
    requires EarlierQuiet(w) && WaitingSound(w) && SentSound(w, ChosenOf(w, src)) && Evolves(w.st, after)
    ensures EarlierQuiet(w.(st := after))
  {
    hide Slice, Whole;
    forall id | id in w.d.client.link.outstanding && id < w.begun ensures !MayMove(w.(st := after), id) {
      assert !MayMove(w, id) && Believable(ChosenOf(w, src), w.st, w.sent[id].request, w.sent[id].paths);
    }
  }

  /** What the phone forgets or keeps leaves everything good. */
  lemma {:induction false} StoreMoves(w: World, src: map<Path, seq<Byte>>, after: Store)
    requires Good(w, src) && StoreSound(after) && Evolves(w.st, after) && ContentSound(ChosenOf(w, src), after)
    ensures Good(w.(st := after), src)
  {
    hide Going, Evolves, Believable, TrueAnswer, Owns, Sound, ListsEarlier, Spent, ContentSound, EarlierQuiet;
    QuietEvolves(w, src, after);
    var ch := ChosenOf(w, src);
    if w.d.client.upload.Some? {
      var u := w.d.client.upload.value;
      GoingEvolves(u, Owed(w.d.client.link, w.begun), PathsNow(w.d), ch, w.st, after);
      forall r | r in w.replies && r.0 in w.d.client.link.outstanding && r.1.Staged? && u.stalled ensures ListsEarlier(u, r.1.files, after) {
        ListsEvolves(u, r.1.files, w.st, after);
      }
    }
    forall fid | fid in ch.owner
      ensures Owns(ch, after, fid) && fid in w.st.made && fid in after.made && after.made[fid] == w.st.made[fid]
    {
      OwnsEvolves(ch, w.st, after, fid);
    }
    forall id | id in w.sent ensures Believable(ch, after, w.sent[id].request, w.sent[id].paths) {
      BelievableEvolves(ch, w.st, after, w.sent[id].request, w.sent[id].paths);
    }
    forall r | r in w.replies ensures TrueAnswer(after, r.0, w.sent[r.0].request, r.1) {
      EvolvesKeepsTrue(w.st, after, r.0, w.sent[r.0].request, r.1);
    }
  }

  lemma {:induction false} ForgottenGood(w: World, src: map<Path, seq<Byte>>, fileId: Id)
    requires Good(w, src)
    ensures Good(Next(w, Forgotten(fileId)), src)
  {
    hide Good;
    GoodStore(w, src);
    ForgettingEvolves(w.st, fileId);
    ForgottenContent(ChosenOf(w, src), w.st, fileId);
    StoreMoves(w, src, Forget(w.st, fileId));
  }

  lemma {:induction false} GoodStore(w: World, src: map<Path, seq<Byte>>)
    requires Good(w, src)
    ensures StoreSound(w.st) && ContentSound(ChosenOf(w, src), w.st) && SentSound(w, ChosenOf(w, src))
  {
  }

  lemma {:induction false} ForgottenContent(ch: Chosen, st: Store, fileId: Id)
    requires ContentSound(ch, st)
    ensures ContentSound(ch, Forget(st, fileId))
  {
    hide Slice;
    forall fid, k | fid in Forget(st, fileId).have && k in Forget(st, fileId).have[fid]
      ensures Owns(ch, Forget(st, fileId), fid) &&
              Forget(st, fileId).have[fid][k] == Slice(ch.src[ch.owner[fid]], k, st.made[fid].chunkBytes)
    {
      assert fid in st.have && k in st.have[fid];
    }
  }

  /** A chunk that was asked to be put is a slice of its file. */
  lemma {:induction false} HandledContent(ch: Chosen, st: Store, id: nat, past: Past, response: Response, after: Store)
    requires StoreSound(st) && ContentSound(ch, st) && Handles(st, id, past.request, response, after)
    requires Believable(ch, st, past.request, past.paths)
    ensures ContentSound(ch, after)
  {
    hide Slice, TellsStaged, Whole;
    forall fid, k | fid in after.have && k in after.have[fid]
      ensures Owns(ch, after, fid) && after.have[fid][k] == Slice(ch.src[ch.owner[fid]], k, after.made[fid].chunkBytes)
    {
      var r := past.request;
      if r.FilePut? && response.Done? && fid == r.fileId && k == r.index {
        assert Owns(ch, st, fid);
      } else {
        assert fid in st.have && k in st.have[fid];
      }
    }
  }

  lemma {:induction false} HandledGood(w: World, src: map<Path, seq<Byte>>, id: nat, response: Response, after: Store)
    requires Good(w, src) && id in w.sent && Handles(w.st, id, w.sent[id].request, response, after)
    ensures Good(Next(w, Handled(id, response, after)), src)
  {
    hide Good, Handles, Believable;
    GoodStore(w, src);
    HandlingIsTrue(w.st, id, w.sent[id].request, response, after);
    HandledContent(ChosenOf(w, src), w.st, id, w.sent[id], response, after);
    StoreMoves(w, src, after);
    if response.Staged? { HandledLists(w, src, id, response, after); }
    HandledQuiet(w, src, id, response, after);
    ReplyAdded(w.(st := after), src, id, response);
  }

  /** A list of staged files is made of the store as it is: nothing is missing of what is whole. */
  lemma {:induction false} HandledLists(w: World, src: map<Path, seq<Byte>>, id: nat, response: Response, after: Store)
    requires Good(w, src) && id in w.sent && Handles(w.st, id, w.sent[id].request, response, after) && response.Staged?
    ensures w.d.client.upload.Some? && w.d.client.upload.value.stalled ==> ListsEarlier(w.d.client.upload.value, response.files, after)
  {
    hide ListsEarlier, SentSound, RepliesSound, OwnersSpent, ListsSound, WaitingSound, ContentSound, Sound, TellsStaged, InKind;
    if w.d.client.upload.Some? && w.d.client.upload.value.stalled {
      StagedListsEarlier(w.d.client.upload.value, response.files, w.st);
    }
  }

  /** A put of a forgotten file is refused. */
  lemma {:induction false} HandledQuiet(w: World, src: map<Path, seq<Byte>>, id: nat, response: Response, after: Store)
    requires Good(w, src) && id in w.sent && Handles(w.st, id, w.sent[id].request, response, after)
    ensures id in w.d.client.link.outstanding && id < w.begun ==> !(response.Done? && w.sent[id].request.FilePut?)
  {
    hide Sound, Well, OwnersSound, ContentSound, SentSound, RepliesSound, OwnersSpent, ListsSound, TellsStaged, InKind;
    if id in w.d.client.link.outstanding && id < w.begun { assert !MayMove(w, id); }
  }

  lemma {:induction false} ReplyAdded(w: World, src: map<Path, seq<Byte>>, id: nat, response: Response)
    requires Good(w, src) && id in w.sent && TrueAnswer(w.st, id, w.sent[id].request, response)
    requires response.Staged? && w.d.client.upload.Some? && w.d.client.upload.value.stalled ==>
               ListsEarlier(w.d.client.upload.value, response.files, w.st)
    requires id in w.d.client.link.outstanding && id < w.begun ==> !(response.Done? && w.sent[id].request.FilePut?)
    ensures Good(w.(replies := w.replies + {(id, response)}), src)
  {
    hide Sound, StoreSound, Well, OwnersSound, ContentSound, SentSound, WaitingSound, OwnersSpent, TrueAnswer, ListsEarlier, EarlierQuiet;
    var next := w.(replies := w.replies + {(id, response)});
    assert EarlierQuiet(next) by { ReplyQuiet(w, id, response); }
    assert SentSound(next, ChosenOf(next, src)) by { SameSent(w, next, src); }
    assert WaitingSound(next) && OwnersSpent(next) by { SameWaiting(w, next); }
  }

  lemma {:induction false} ReplyQuiet(w: World, id: nat, response: Response)
    requires EarlierQuiet(w) && WaitingSound(w) && id in w.sent
    requires id in w.d.client.link.outstanding && id < w.begun ==> !(response.Done? && w.sent[id].request.FilePut?)
    ensures EarlierQuiet(w.(replies := w.replies + {(id, response)}))
  {
    var next := w.(replies := w.replies + {(id, response)});
    forall other | other in w.d.client.link.outstanding && other < w.begun ensures !MayMove(next, other) {
      assert !MayMove(w, other) && w.sent[other].request == w.d.client.link.outstanding[other];
    }
  }

  lemma {:induction false} SameSent(w: World, next: World, src: map<Path, seq<Byte>>)
    requires SentSound(w, ChosenOf(w, src)) && next == w.(replies := next.replies)
    ensures SentSound(next, ChosenOf(next, src))
  {
  }

  lemma {:induction false} SameWaiting(w: World, next: World)
    requires WaitingSound(w) && OwnersSpent(w) && next == w.(replies := next.replies)
    ensures WaitingSound(next) && OwnersSpent(next)
  {
  }

  // ---- the terminal's steps ----

  /** Numbers only rise, and what waits waited before or has a number not seen. */
  predicate LinkGrew(l: Link, m: Link) {
    l.nextId <= m.nextId &&
    forall id | id in m.outstanding :: id >= l.nextId || (id in l.outstanding && l.outstanding[id] == m.outstanding[id])
  }

  lemma {:induction false} StepGrew(c: Client, input: Input, env: Env)
    ensures LinkGrew(c.link, Step(c, input, env).client.link)
  {
    hide Step;
    StepWent(c, input, env);
    NumbersBound(SendsOf(Step(c, input, env).effects), c.link.nextId, Step(c, input, env).client.link.nextId);
  }

  lemma {:induction false} GrewChain(a: Link, b: Link, c: Link)
    requires LinkGrew(a, b) && LinkGrew(b, c)
    ensures LinkGrew(a, c)
  {
  }

  lemma {:induction false} FeedGrew(d: Driver, input: Input, env: Env, luck: Luck)
    requires Sound(d.client) && Honest(d.client, input)
    ensures var e := Feed(d, [input], FEED_ROUNDS, env, luck);
            Sound(e.client) && LinkGrew(d.client.link, e.client.link) && LinkGrew(Step(d.client, input, env).client.link, e.client.link)
  {
    hide Step, Sound, Honest, Round, LinkGrew;
    FeedIsTwoRounds(d, input, FEED_ROUNDS, env, luck);
    RoundCalls(d, input, env, luck);
    StepSound(d.client, input, env);
    StepGrew(d.client, input, env);
    var one := Round(d, input, env, luck);
    if one.answers == [] {
      GrewSame(one.driver.client.link);
    } else {
      var answer := one.answers[0];
      NotReceivedHonest(one.driver.client, answer);
      RoundCalls(one.driver, answer, env, luck);
      StepSound(one.driver.client, answer, env);
      StepGrew(one.driver.client, answer, env);
      GrewChain(d.client.link, one.driver.client.link, Step(one.driver.client, answer, env).client.link);
    }
  }

  lemma {:induction false} GrewSame(l: Link)
    ensures LinkGrew(l, l)
  {
  }

  lemma {:induction false} NotReceivedHonest(c: Client, input: Input)
    requires !input.Received?
    ensures Honest(c, input)
  {
  }

  lemma {:induction false} SpentStays(c: Client, e: Client, id: nat)
    requires Spent(c, id) && LinkGrew(c.link, e.link)
    ensures Spent(e, id)
  {
  }

  lemma {:induction false} BelievableMore(ch: Chosen, more: Chosen, st: Store, r: Request, paths: seq<Path>)
    requires Believable(ch, st, r, paths) && more.src == ch.src
    requires forall fid | fid in ch.owner :: fid in more.owner && more.owner[fid] == ch.owner[fid]
    ensures Believable(more, st, r, paths)
  {
    hide Whole, Slice;
  }

  lemma {:induction false} ContentMore(ch: Chosen, more: Chosen, st: Store)
    requires ContentSound(ch, st) && more.src == ch.src
    requires forall fid | fid in ch.owner :: fid in more.owner && more.owner[fid] == ch.owner[fid]
    ensures ContentSound(more, st)
  {
    hide Slice;
  }

  lemma {:induction false} SentAfter(w: World, src: map<Path, seq<Byte>>, e: Driver)
    requires SentSound(w, ChosenOf(w, src)) && WaitingSound(w) && LinkSound(e.client.link) && LinkGrew(w.d.client.link, e.client.link)
    requires w.begun <= w.d.client.link.nextId
    requires var more := Chosen(src, Adopt(w.owner, e), w.begun);
             NewBelievable(Owed(w.d.client.link, w.begun), e, more, w.st) &&
             forall fid | fid in w.owner :: fid in more.owner && more.owner[fid] == w.owner[fid]
    ensures var after := AfterDriver(w, e); SentSound(after, ChosenOf(after, src)) && WaitingSound(after)
  {
    hide Believable, Adopt;
    var after := AfterDriver(w, e);
    var more := ChosenOf(after, src);
    forall id | id in after.sent
      ensures id < e.client.link.nextId && Believable(more, w.st, after.sent[id].request, after.sent[id].paths)
    {
      if id in w.sent {
        BelievableMore(ChosenOf(w, src), more, w.st, w.sent[id].request, w.sent[id].paths);
      } else {
        NewIsBelievable(w, e, more, id);
      }
    }
  }

  lemma {:induction false} NewIsBelievable(w: World, e: Driver, more: Chosen, id: nat)
    requires WaitingSound(w) && id in e.client.link.outstanding && id !in w.sent && more.begun == w.begun
    requires LinkGrew(w.d.client.link, e.client.link) && w.begun <= w.d.client.link.nextId
    requires NewBelievable(Owed(w.d.client.link, w.begun), e, more, w.st)
    ensures Believable(more, w.st, e.client.link.outstanding[id], PathsNow(e))
  {
    hide Whole, Slice, Owns;
    var r := e.client.link.outstanding[id];
    if OfUpload(r) { assert id in Owed(e.client.link, w.begun) && id !in Owed(w.d.client.link, w.begun); }
  }

  /** However the driver's step came about: what it leaves is good. */
  lemma {:induction false} DriverGood(w: World, src: map<Path, seq<Byte>>, e: Driver, fid: Option<Id>)
    requires Good(w, src) && Sound(e.client) && LinkGrew(w.d.client.link, e.client.link)
    requires Settled(Owed(w.d.client.link, w.begun), e, ChosenOf(w, src), w.st, fid) && Lively(w.d.client.upload, e)
    requires fid.Some? ==> fid.value in w.st.made && Spent(e.client, w.st.made[fid.value].asked)
    ensures Good(AfterDriver(w, e), src)
  {
    hide Believable, Adopt, Going, TrueAnswer, Owns, ListsEarlier, LinkSound, DownloadSound, UploadSound, NothingLeft, Slice, EarlierQuiet;
    QuietAfter(w, e);
    var after := AfterDriver(w, e);
    var ch, more := ChosenOf(w, src), ChosenOf(after, src);
    OwnersKept(w, e, ch, fid);
    SentAfter(w, src, e);
    ContentMore(ch, more, w.st);
    OwnersAfter(w, src, e, fid);
    ListsAfter(w, src, e);
    assert RepliesSound(after);
  }

  lemma {:induction false} QuietAfter(w: World, e: Driver)
    requires EarlierQuiet(w) && LinkGrew(w.d.client.link, e.client.link)
    ensures EarlierQuiet(AfterDriver(w, e)) && w.begun <= w.d.client.link.nextId
  {
    hide Adopt;
    forall id | id in e.client.link.outstanding && id < w.begun ensures !MayMove(AfterDriver(w, e), id) {
      assert !MayMove(w, id);
    }
  }

  lemma {:induction false} OwnersKept(w: World, e: Driver, ch: Chosen, fid: Option<Id>)
    requires Settled(Owed(w.d.client.link, w.begun), e, ch, w.st, fid) && ch.owner == w.owner
    ensures forall other | other in w.owner :: other in Adopt(w.owner, e) && Adopt(w.owner, e)[other] == w.owner[other]
  {
    hide Adopt, NewBelievable, Well, OwnersSound;
  }

  lemma {:induction false} OwnersAfter(w: World, src: map<Path, seq<Byte>>, e: Driver, fid: Option<Id>)
    requires OwnersSpent(w) && LinkGrew(w.d.client.link, e.client.link) && Settled(Owed(w.d.client.link, w.begun), e, ChosenOf(w, src), w.st, fid)
    requires fid.Some? ==> fid.value in w.st.made && Spent(e.client, w.st.made[fid.value].asked)
    ensures OwnersSpent(AfterDriver(w, e))
  {
    hide Adopt, NewBelievable, Well, OwnersSound, Spent;
    forall other | other in Adopt(w.owner, e) ensures other in w.st.made && Spent(e.client, w.st.made[other].asked) {
      if other in w.owner { SpentStays(w.d.client, e.client, w.st.made[other].asked); }
    }
  }

  lemma {:induction false} ListsAfter(w: World, src: map<Path, seq<Byte>>, e: Driver)
    requires ListsSound(w) && RepliesSound(w) && SentSound(w, ChosenOf(w, src))
    requires LinkGrew(w.d.client.link, e.client.link) && Lively(w.d.client.upload, e)
    ensures ListsSound(AfterDriver(w, e))
  {
    hide ListsEarlier, TrueAnswer, Believable, Adopt;
  }

  // ---- commands ----

  lemma {:induction false} StillGood(w: World, src: map<Path, seq<Byte>>, d: Driver, input: Input, env: Env, luck: Luck)
    requires Good(w, src) && d.client == w.d.client && d.sending == w.d.sending && !input.Send? && !input.PutChunk?
    requires Honest(d.client, input) && !MovesOn(d.client, input) && (input.Ask? ==> !OfUpload(input.request))
    ensures var e := Feed(d, [input], FEED_ROUNDS, env, luck); Good(AfterDriver(w, e), src)
  {
    hide Step, Sound, Honest, Busy, Owed, NotMoved, StoreSound, OwnersSound, ContentSound, SentSound, WaitingSound, RepliesSound, OwnersSpent,
         ListsSound, Settled, Going, LinkGrew, Fewer, NewBelievable;
    var ch := ChosenOf(w, src);
    var e := Feed(d, [input], FEED_ROUNDS, env, luck);
    FeedGrew(d, input, env, luck);
    StepOther(d.client, input, env);
    StillFeed(d, input, env, luck, ch, w.st);
    SettledSame(Owed(d.client.link, w.begun), e, ch, w.st, None);
    if input.Lost? { LostDropsAll(d.client, env); } else { StepKeepsUpload(d.client, input, env); }
    DriverGood(w, src, e, None);
  }

  lemma {:induction false} LostDropsAll(c: Client, env: Env)
    ensures Step(c, Lost, env).client.link.outstanding == map[]
  {
  }

  lemma {:induction false} OtherSideWell(d: Driver, f: Driver, ch: Chosen, st: Store)
    requires Well(d, ch, st) && f.client == d.client && f.sending == d.sending
    ensures Well(f, ch, st)
  {
    hide Going;
  }

  lemma {:induction false} OtherSideSent(w: World, f: Driver, ch: Chosen)
    requires SentSound(w, ch) && WaitingSound(w) && f.client == w.d.client
    ensures SentSound(w.(d := f), ch) && WaitingSound(w.(d := f))
  {
    hide Believable;
  }

  lemma {:induction false} OtherSideRest(w: World, f: Driver)
    requires RepliesSound(w) && OwnersSpent(w) && ListsSound(w) && EarlierQuiet(w) && f.client == w.d.client
    ensures RepliesSound(w.(d := f)) && OwnersSpent(w.(d := f)) && ListsSound(w.(d := f)) && EarlierQuiet(w.(d := f))
  {
    assert forall id | id in w.d.client.link.outstanding :: MayMove(w.(d := f), id) == MayMove(w, id);
    hide TrueAnswer, ListsEarlier;
  }

  /** Only the client and the sending side of the driver matter here. */
  lemma {:induction false} OtherSide(w: World, src: map<Path, seq<Byte>>, f: Driver)
    requires Good(w, src) && f.client == w.d.client && f.sending == w.d.sending
    ensures Good(w.(d := f), src)
  {
    hide Sound, StoreSound, Well, OwnersSound, ContentSound, SentSound, WaitingSound, RepliesSound, OwnersSpent, ListsSound;
    OtherSideWell(w.d, f, ChosenOf(w, src), w.st);
    OtherSideSent(w, f, ChosenOf(w, src));
    OtherSideRest(w, f);
  }

  lemma {:induction false} ItemsMatch(files: seq<OutgoingFile>, disk: Disk, ch: Chosen)
    requires AllThere(files, disk) && Steady(ch.src, disk) && forall i | 0 <= i < |files| :: files[i].path in ch.src
    ensures forall i | 0 <= i < |files| :: |ch.src[PathsOf(files)[i]]| == ItemsOf(files, disk)[i].sizeBytes
  {
  }

  lemma {:induction false} SendBegins(c: Client, chat: Id, items: seq<OutgoingItem>, text: Text, env: Env)
    requires LinkSound(c.link) && c.upload.None? && items != []
    ensures var did := OnSend(c, chat, items, text, env);
            Untold(did.effects) && FetchEvents(did.effects) == [] &&
            (did.client.upload.None? ==> Busy(did.client.link) == Busy(c.link)) &&
            (did.client.upload.Some? ==> did.client.upload == Some(Upload(chat, items, 0, [], 0, 0, 0, text, false)) &&
                                         Busy(did.client.link) == Busy(c.link)[c.link.nextId := Offer(chat, items[0])])
  {
    hide LinkSound, Busy, OnAsk, AnySend, PreviewsFit;
    AskBusy(c.link, c.cache, Offer(chat, items[0]), env);
    AskTellsNothing(c.link, c.cache, Offer(chat, items[0]), env);
    UntoldOne(Event.Refused);
    RefusedTellsNothing();
  }

  lemma {:induction false} SendStep(c: Client, chat: Id, items: seq<OutgoingItem>, text: Text, env: Env)
    ensures Step(c, Input.Send(chat, items, text), env) == OnSend(c, chat, items, text, env)
  {
    hide OnSend;
  }

  lemma {:induction false} SendRound(d: Driver, chat: Id, items: seq<OutgoingItem>, text: Text, env: Env, luck: Luck)
    requires Sound(d.client) && d.client.upload.None? && items != []
    ensures var e := Feed(d, [Input.Send(chat, items, text)], FEED_ROUNDS, env, luck);
            e.sending == d.sending &&
            (e.client.upload.None? ==> Busy(e.client.link) == Busy(d.client.link)) &&
            (e.client.upload.Some? ==> e.client.upload == Some(Upload(chat, items, 0, [], 0, 0, 0, text, false)) &&
                                       Busy(e.client.link) == Busy(d.client.link)[d.client.link.nextId := Offer(chat, items[0])])
  {
    hide Sound, Busy, OnSend, Step, LinkSound, Honest;
    var input := Input.Send(chat, items, text);
    NotReceivedHonest(d.client, input);
    FeedIsTwoRounds(d, input, FEED_ROUNDS, env, luck);
    LinkOfSound(d.client);
    SendBegins(d.client, chat, items, text, env);
    SendStep(d.client, chat, items, text, env);
    var did := Step(d.client, input, env);
    ShowNothing(d.(client := did.client), did.effects, luck);
  }

  /** A message begun: nothing asked for it yet but the place for its first file. */
  lemma {:induction false} SendFeed(d: Driver, chat: Id, items: seq<OutgoingItem>, text: Text, env: Env, luck: Luck, ch: Chosen, st: Store)
    requires Sound(d.client) && d.client.upload.None? && d.sending.Some? && OwnersSound(ch, st)
    requires Owed(d.client.link, ch.begun) == map[] && ch.begun <= d.client.link.nextId
    requires |PathsNow(d)| == |items| > 0 && forall i | 0 <= i < |items| :: PathsNow(d)[i] in ch.src && |ch.src[PathsNow(d)[i]]| == items[i].sizeBytes
    ensures var e := Feed(d, [Input.Send(chat, items, text)], FEED_ROUNDS, env, luck);
            Settled(Owed(d.client.link, ch.begun), e, ch, st, None) && Lively(d.client.upload, e)
  {
    hide Sound, Busy, Owed, Settled, OwnersSound, Fewer, Feed;
    SendRound(d, chat, items, text, env, luck);
    var e := Feed(d, [Input.Send(chat, items, text)], FEED_ROUNDS, env, luck);
    if e.client.upload.Some? {
      var u := e.client.upload.value;
      assert Static(u, PathsNow(d), ch, st);
      OwedMore(d.client.link, e.client.link, ch.begun, d.client.link.nextId, Offer(chat, items[0]));
      NextGoes(u, d.client.link.nextId, Owed(e.client.link, ch.begun), PathsNow(d), ch, st);
    } else {
      OwedSame(d.client.link, e.client.link, ch.begun);
      FewerRefl(Owed(d.client.link, ch.begun));
    }
    SettledSame(Owed(d.client.link, ch.begun), e, ch, st, None);
  }

  lemma {:induction false} LinkOfSound(c: Client)
    requires Sound(c)
    ensures LinkSound(c.link)
  {
  }

  lemma {:induction false} RefusedTellsNothing()
    ensures FetchEvents([Show(Event.Refused)]) == []
  {
  }

  lemma {:induction false} NoneWithoutPaths(w: World, src: map<Path, seq<Byte>>)
    requires Good(w, src) && w.d.sending.None?
    ensures w.d.client.upload.None?
  {
  }

  /** What is good stays so when a new message is taken up while all is quiet. */
  lemma {:induction false} OpeningGood(w: World, src: map<Path, seq<Byte>>, command: Command)
    requires Good(w, src) && command.SendFiles? && MayCommand(w, src, command)
    ensures Good(Opening(w, command), src)
    ensures var o := Opening(w, command); o.d == w.d && (w.d.sending.None? ==> Owed(o.d.client.link, o.begun) == map[])
  {
    hide Sound, StoreSound, ContentSound, RepliesSound, OwnersSpent, ListsSound, Going, Believable, MayMove, Owns;
    var o := Opening(w, command);
    var ch, more := ChosenOf(w, src), ChosenOf(o, src);
    ContentMore(ch, more, w.st);
    forall id | id in w.sent ensures Believable(more, w.st, w.sent[id].request, w.sent[id].paths) {
      BelievableMore(ch, more, w.st, w.sent[id].request, w.sent[id].paths);
    }
    assert OwnersSound(more, o.st) by { SameOwners(ch, more, w.st); }
    OpeningRest(w, o);
    if w.d.sending.None? { NothingOwed(w); }
  }

  lemma {:induction false} SameOwners(ch: Chosen, more: Chosen, st: Store)
    requires OwnersSound(ch, st) && more == ch.(begun := more.begun)
    ensures OwnersSound(more, st)
  {
    forall fid | fid in more.owner ensures Owns(more, st, fid) {
      assert Owns(ch, st, fid);
    }
  }

  lemma {:induction false} OpeningRest(w: World, o: World)
    requires RepliesSound(w) && OwnersSpent(w) && ListsSound(w) && EarlierQuiet(w) && o == w.(begun := o.begun)
    requires o == w || (Quiet(w) && o.begun == w.d.client.link.nextId)
    ensures RepliesSound(o) && OwnersSpent(o) && ListsSound(o) && EarlierQuiet(o)
  {
    hide TrueAnswer, ListsEarlier;
    assert forall id | id in w.d.client.link.outstanding :: MayMove(o, id) == MayMove(w, id);
  }

  lemma {:induction false} NothingOwed(w: World)
    requires Sound(w.d.client)
    ensures Owed(w.d.client.link, w.d.client.link.nextId) == map[]
  {
  }

  lemma {:induction false} SendGood(w: World, src: map<Path, seq<Byte>>, command: Command, env: Env, luck: Luck)
    requires Good(w, src) && command.SendFiles? && (w.d.sending.None? ==> Owed(w.d.client.link, w.begun) == map[]) && Steady(src, w.d.disk)
    requires forall i | 0 <= i < |command.files| :: command.files[i].path in src
    ensures Good(AfterDriver(w, StartSend(w.d, command, env, luck)), src)
  {
    hide Sound, Busy, Owed, StoreSound, OwnersSound, ContentSound, SentSound, WaitingSound, RepliesSound, OwnersSpent, ListsSound, Settled,
         LinkGrew, Feed, Steady;
    var d := w.d;
    if d.sending.Some? || !luck.opens || !AllThere(command.files, d.disk) || command.files == [] {
      SameGood(w, src);
    } else {
      NoneWithoutPaths(w, src);
      var begun := d.(sending := Some(Sending(PathsOf(command.files), 0)));
      var items := ItemsOf(command.files, d.disk);
      var ch := ChosenOf(w, src);
      ItemsMatch(command.files, d.disk, ch);
      NotReceivedHonest(d.client, Input.Send(command.chat, items, command.text));
      FeedGrew(begun, Input.Send(command.chat, items, command.text), env, luck);
      SendFeed(begun, command.chat, items, command.text, env, luck, ch, w.st);
      DriverGood(w, src, Feed(begun, [Input.Send(command.chat, items, command.text)], FEED_ROUNDS, env, luck), None);
    }
  }

  lemma {:induction false} SameGood(w: World, src: map<Path, seq<Byte>>)
    requires Good(w, src)
    ensures Good(AfterDriver(w, w.d), src)
  {
    hide Sound, StoreSound, Well, OwnersSound, ContentSound, SentSound, RepliesSound, OwnersSpent, ListsSound, EarlierQuiet, Adopt;
    NothingAdopted(w.d, ChosenOf(w, src), w.st);
    SentAlready(w);
    assert AfterDriver(w, w.d) == w;
  }

  lemma {:induction false} SentAlready(w: World)
    requires WaitingSound(w)
    ensures WithSent(w.sent, w.d) == w.sent
  {
  }

  /** A person's change of mind: the upload is gone, and its files are told to be let go. */
  lemma {:induction false} CancelGood(w: World, src: map<Path, seq<Byte>>, env: Env, luck: Luck)
    requires Good(w, src)
    ensures Good(AfterDriver(w, Feed(w.d.(sending := None), [CancelSend], FEED_ROUNDS, env, luck)), src)
  {
    hide Sound, Busy, Owed, StoreSound, OwnersSound, ContentSound, SentSound, WaitingSound, RepliesSound, OwnersSpent, ListsSound, Settled,
         LinkGrew, Fewer;
    var d := w.d.(sending := None);
    var e := Feed(d, [CancelSend], FEED_ROUNDS, env, luck);
    NotReceivedHonest(d.client, CancelSend);
    FeedGrew(d, CancelSend, env, luck);
    FeedIsTwoRounds(d, CancelSend, FEED_ROUNDS, env, luck);
    CancelDropsUpload(d, env, luck);
    OwedFewer(e.client.link, d.client.link, w.begun);
    SettledSame(Owed(d.client.link, w.begun), e, ChosenOf(w, src), w.st, None);
    DriverGood(w, src, e, None);
  }

  lemma {:induction false} CancelDropsUpload(d: Driver, env: Env, luck: Luck)
    requires Sound(d.client)
    ensures var shown := Round(d, CancelSend, env, luck);
            shown.answers == [] && shown.driver.client.upload.None? && Fewer(Busy(shown.driver.client.link), Busy(d.client.link))
  {
    hide Sound, Busy, NotMoved, Fewer;
    RoundCalls(d, CancelSend, env, luck);
    LinkOfSound(d.client);
    CancelKeepsBusy(d.client, env);
  }

  lemma {:induction false} CancelKeepsBusy(c: Client, env: Env)
    requires LinkSound(c.link)
    ensures OnCancelSend(c, env).client.upload.None? && Fewer(Busy(OnCancelSend(c, env).client.link), Busy(c.link))
  {
    hide LinkSound, Busy;
    FewerRefl(Busy(c.link));
    if c.upload.Some? { AbortOther(c.link, c.cache, c.upload.value.ids, env); }
  }

  lemma {:induction false} SaveGood(w: World, src: map<Path, seq<Byte>>, command: Command, env: Env, luck: Luck)
    requires Good(w, src) && command.SaveFile?
    ensures Good(AfterDriver(w, StartSave(w.d, command, env, luck)), src)
  {
    hide Good, Feed;
    if w.d.saving.Some? || !luck.creates {
      SameGood(w, src);
    } else {
      var partial := PartialName(command.path);
      var begun := w.d.(saving := Some(Saving(command.fileId, command.path, partial)), disk := w.d.disk[partial := []]);
      var input := Fetch(command.fileId, command.chunkTotal, command.chunkBytes);
      NotReceivedHonest(begun.client, input);
      StillGood(w, src, begun, input, env, luck);
    }
  }

  lemma {:induction false} CommandGood(w: World, src: map<Path, seq<Byte>>, command: Command, env: Env, luck: Luck)
    requires Good(w, src) && MayCommand(w, src, command) && Steady(src, w.d.disk)
    ensures Good(Next(w, Does(command, env, luck)), src)
  {
    hide Good, Feed, StartSave, StartSend, Steady, MovesOn, Honest;
    match command
    case SaveFile(_, _, _, _) => SaveGood(w, src, command, env, luck);
    case CancelSave =>
      var e := Feed(w.d, [CancelFetch], FEED_ROUNDS, env, luck);
      NotReceivedHonest(w.d.client, CancelFetch);
      NotReceivedMoves(w.d.client, CancelFetch);
      StillGood(w, src, w.d, CancelFetch, env, luck);
      OtherSide(AfterDriver(w, e), src, AbandonSave(e, luck));
      AbandonedAfter(w, e, luck);
    case SendFiles(_, _, _) =>
      OpeningGood(w, src, command);
      SendGood(Opening(w, command), src, command, env, luck);
    case CancelSending => CancelGood(w, src, env, luck);
    case Through(input) =>
      OutsideMoves(w.d.client, input);
      StillGood(w, src, w.d, input, env, luck);
  }

  lemma {:induction false} AbandonedAfter(w: World, e: Driver, luck: Luck)
    ensures AfterDriver(w, AbandonSave(e, luck)) == AfterDriver(w, e).(d := AbandonSave(e, luck))
  {
  }

  lemma {:induction false} NotReceivedMoves(c: Client, input: Input)
    requires !input.Received?
    ensures !MovesOn(c, input)
  {
  }

  lemma {:induction false} OutsideMoves(c: Client, input: Input)
    requires Outside(input)
    ensures Honest(c, input) && !MovesOn(c, input) && !input.Send? && !input.PutChunk? && (input.Ask? ==> !OfUpload(input.request))
  {
  }

  // ---- answers ----

  lemma {:induction false} ArrivedGood(w: World, src: map<Path, seq<Byte>>, id: nat, response: Response, env: Env, luck: Luck)
    requires Good(w, src) && (id, response) in w.replies && Steady(src, w.d.disk)
    ensures Good(Next(w, Arrives(id, response, env, luck)), src)
  {
    hide Sound, StoreSound, Well, OwnersSound, ContentSound, Settled, LinkGrew, Feed, Step, TrueAnswer, ListsEarlier, Believable, Spent,
         Busy, Owed, Steady;
    var d, ch := w.d, ChosenOf(w, src);
    var e := Feed(d, [Reply(id, response)], FEED_ROUNDS, env, luck);
    if id in d.client.link.outstanding && response.FileOffer? { OfferIsNew(w, src, id, response); }
    EarlierMovesNothing(w, id, response);
    AnswerFeed(d, id, response, env, luck, ch, w.st);
    HonestReply(d.client, w.st, id, response);
    FeedGrew(d, Reply(id, response), env, luck);
    if id in d.client.link.outstanding && response.FileOffer? {
      MadeByThis(w, id, response);
      AnswerIsSpent(d, id, response, env, luck);
      DriverGood(w, src, e, Some(response.fileId));
    } else {
      DriverGood(w, src, e, None);
    }
  }

  lemma {:induction false} EarlierMovesNothing(w: World, id: nat, response: Response)
    requires EarlierQuiet(w) && RepliesSound(w) && WaitingSound(w) && (id, response) in w.replies
    ensures w.begun <= w.d.client.link.nextId
    ensures id in w.d.client.link.outstanding && id < w.begun ==>
              !response.FileOffer? && !(response.Done? && w.d.client.link.outstanding[id].FilePut?)
  {
    if id in w.d.client.link.outstanding && id < w.begun {
      assert !MayMove(w, id);
      assert TrueAnswer(w.st, (id, response).0, w.sent[id].request, (id, response).1);
    }
  }

  /** The id in an answer still awaited was never taken before. */
  lemma {:induction false} OfferIsNew(w: World, src: map<Path, seq<Byte>>, id: nat, response: Response)
    requires Good(w, src) && (id, response) in w.replies && id in w.d.client.link.outstanding && response.FileOffer?
    ensures response.fileId !in w.owner
  {
    hide Sound, StoreSound, Well, OwnersSound, ContentSound, SentSound, WaitingSound, ListsSound;
    MadeByThis(w, id, response);
  }

  lemma {:induction false} MadeByThis(w: World, id: nat, response: Response)
    requires RepliesSound(w) && (id, response) in w.replies && response.FileOffer?
    ensures response.fileId in w.st.made && w.st.made[response.fileId].asked == id
  {
    assert TrueAnswer(w.st, (id, response).0, w.sent[id].request, (id, response).1);
  }

  lemma {:induction false} AnswerIsSpent(d: Driver, id: nat, response: Response, env: Env, luck: Luck)
    requires Sound(d.client) && Honest(d.client, Reply(id, response)) && id in d.client.link.outstanding
    ensures Spent(Feed(d, [Reply(id, response)], FEED_ROUNDS, env, luck).client, id)
  {
    hide Sound, Honest, Feed, OnResponse, LinkGrew;
    FeedGrew(d, Reply(id, response), env, luck);
    ResponseWent(d.client, id, response, env);
    StepGrew(d.client, Reply(id, response), env);
    KnownNumber(d.client, id);
    SpentByStep(d.client, id, response, env);
    SpentStays(Step(d.client, Reply(id, response), env).client, Feed(d, [Reply(id, response)], FEED_ROUNDS, env, luck).client, id);
  }

  lemma {:induction false} KnownNumber(c: Client, id: nat)
    requires Sound(c) && id in c.link.outstanding
    ensures id < c.link.nextId && c.link.session
  {
  }

  lemma {:induction false} SpentByStep(c: Client, id: nat, response: Response, env: Env)
    requires id < c.link.nextId && c.link.session && LinkGrew(c.link, Step(c, Reply(id, response), env).client.link)
    requires id !in OnResponse(c, id, response, env).client.link.outstanding
    ensures Spent(Step(c, Reply(id, response), env).client, id)
  {
    hide OnResponse;
  }

  // ---- nothing is said that is not counted as sent ----

  function FeedSays(d: Driver, queue: seq<Input>, rounds: nat, env: Env, luck: Luck): seq<Outgoing>
    decreases rounds
  {
    if rounds == 0 || queue == [] then []
    else
      var shown := Round(d, queue[0], env, luck);
      SendsOf(Step(d.client, queue[0], env).effects) + FeedSays(shown.driver, queue[1..] + shown.answers, rounds - 1, env, luck)
  }

  lemma {:induction false} OwnAnswersKeep(c: Client, input: Input, env: Env)
    requires (input.PutChunk? || input.CancelSend? || input.CancelFetch?) && Known(c.link)
    ensures Kept(c.link, Step(c, input, env).client.link)
  {
    hide OnAsk, AnySend, Known, AbortEach;
    match input
    case PutChunk(index, bytes) =>
      if c.upload.Some? && c.upload.value.Current().Some? {
        AskKept(c.link, c.cache, Request.FilePut(c.upload.value.Current().value, index, bytes), env);
      }
    case CancelSend => if c.upload.Some? { AbortKept(c.link, c.cache, c.upload.value.ids, env); }
    case CancelFetch =>
  }

  lemma {:induction false} KnownOfSound(c: Client)
    requires Sound(c)
    ensures Known(c.link)
  {
  }

  /** Everything said during one input and its answers waits afterwards. */
  lemma {:induction false} FeedAwaits(d: Driver, input: Input, env: Env, luck: Luck)
    requires Sound(d.client) && Honest(d.client, input)
    ensures Await(FeedSays(d, [input], FEED_ROUNDS, env, luck), Feed(d, [input], FEED_ROUNDS, env, luck).client.link)
  {
    hide Step, Sound, Honest, Round, Await, Known, Kept;
    FeedIsTwoRounds(d, input, FEED_ROUNDS, env, luck);
    RoundCalls(d, input, env, luck);
    StepSound(d.client, input, env);
    KnownOfSound(d.client);
    StepWent(d.client, input, env);
    var one := Round(d, input, env, luck);
    var said := SendsOf(Step(d.client, input, env).effects);
    assert [input][1..] + one.answers == one.answers;
    if one.answers == [] {
      assert FeedSays(one.driver, [], FEED_ROUNDS - 1, env, luck) == [];
      assert said + [] == said;
    } else {
      var answer := one.answers[0];
      AnswersAreTheDrivers(d, input, env, luck);
      RoundCalls(one.driver, answer, env, luck);
      KnownOfSound(one.driver.client);
      StepWent(one.driver.client, answer, env);
      OwnAnswersKeep(one.driver.client, answer, env);
      var two := Round(one.driver, answer, env, luck);
      assert one.answers[1..] + two.answers == [];
      assert FeedSays(two.driver, [], FEED_ROUNDS - 2, env, luck) == [];
      var more := SendsOf(Step(one.driver.client, answer, env).effects);
      assert FeedSays(one.driver, one.answers, FEED_ROUNDS - 1, env, luck) == more + [];
      assert more + [] == more;
      AwaitBoth(said, more, one.driver.client.link, two.driver.client.link);
    }
  }

  /** What one happening says to the phone. */
  function Says(w: World, h: Happening): seq<Outgoing> {
    match h
    case Arrives(id, response, env, luck) => FeedSays(w.d, [Reply(id, response)], FEED_ROUNDS, env, luck)
    case Does(command, env, luck) => CommandSays(w.d, command, env, luck)
    case _ => []
  }

  function CommandSays(d: Driver, c: Command, env: Env, luck: Luck): seq<Outgoing> {
    match c
    case SaveFile(fileId, chunkTotal, chunkBytes, path) =>
      if d.saving.Some? || !luck.creates then []
      else
        FeedSays(d.(saving := Some(Saving(fileId, path, PartialName(path))), disk := d.disk[PartialName(path) := []]),
                 [Fetch(fileId, chunkTotal, chunkBytes)], FEED_ROUNDS, env, luck)
    case CancelSave => FeedSays(d, [CancelFetch], FEED_ROUNDS, env, luck)
    case SendFiles(chat, files, text) =>
      if d.sending.Some? || !luck.opens || !AllThere(files, d.disk) || files == [] then []
      else
        FeedSays(d.(sending := Some(Sending(PathsOf(files), 0))), [Input.Send(chat, ItemsOf(files, d.disk), text)], FEED_ROUNDS, env, luck)
    case CancelSending => FeedSays(d.(sending := None), [CancelSend], FEED_ROUNDS, env, luck)
    case Through(input) => FeedSays(d, [input], FEED_ROUNDS, env, luck)
  }

  lemma {:induction false} CommandAwaits(d: Driver, c: Command, env: Env, luck: Luck)
    requires Sound(d.client) && (c.Through? ==> Outside(c.input))
    ensures Await(CommandSays(d, c, env, luck), Obey(d, c, env, luck).client.link)
  {
    hide Sound, Honest, Feed, FeedSays, Await, ItemsOf, Outside;
    NothingAwaits(d.client.link);
    match c
    case SaveFile(fileId, chunkTotal, chunkBytes, path) =>
      var begun := d.(saving := Some(Saving(fileId, path, PartialName(path))), disk := d.disk[PartialName(path) := []]);
      NotReceivedHonest(d.client, Fetch(fileId, chunkTotal, chunkBytes));
      FeedAwaits(begun, Fetch(fileId, chunkTotal, chunkBytes), env, luck);
    case CancelSave =>
      NotReceivedHonest(d.client, CancelFetch);
      FeedAwaits(d, CancelFetch, env, luck);
    case SendFiles(chat, files, text) =>
      if AllThere(files, d.disk) {
        var input := Input.Send(chat, ItemsOf(files, d.disk), text);
        NotReceivedHonest(d.client, input);
        FeedAwaits(d.(sending := Some(Sending(PathsOf(files), 0))), input, env, luck);
      }
    case CancelSending =>
      NotReceivedHonest(d.client, CancelSend);
      FeedAwaits(d.(sending := None), CancelSend, env, luck);
    case Through(input) =>
      OutsideMoves(d.client, input);
      FeedAwaits(d, input, env, luck);
  }

  lemma {:induction false} NothingAwaits(l: Link)
    ensures Await([], l)
  {
  }

  /** Whatever the terminal says to the phone is in the record of what was sent, as it was said. */
  lemma {:induction false} EverythingSaidIsSent(w: World, src: map<Path, seq<Byte>>, h: Happening, i: nat)
    requires StoreSound(w.st) && Good(w, src) && May(w, src, h) && Steady(src, w.d.disk)
    requires i < |Says(w, h)| && Says(w, h)[i].Asked?
    ensures var after := Next(w, h); Says(w, h)[i].id in after.sent && after.sent[Says(w, h)[i].id].request == Says(w, h)[i].request
  {
    hide Good, Steady, Handles, MayCommand, Feed, FeedSays, CommandSays, Obey, Sound;
    NextGood(w, src, h);
    GoodParts(w, src);
    GoodParts(Next(w, h), src);
    if h.Does? {
      CommandOutside(w, src, h.command);
      CommandAwaits(w.d, h.command, h.env, h.luck);
    } else {
      ArrivesHonest(w, src, h.id, h.response);
      FeedAwaits(w.d, Reply(h.id, h.response), h.env, h.luck);
    }
  }

  lemma {:induction false} GoodParts(w: World, src: map<Path, seq<Byte>>)
    requires Good(w, src)
    ensures Sound(w.d.client) && WaitingSound(w) && RepliesSound(w)
  {
  }

  lemma {:induction false} CommandOutside(w: World, src: map<Path, seq<Byte>>, command: Command)
    requires MayCommand(w, src, command)
    ensures command.Through? ==> Outside(command.input)
  {
  }

  lemma {:induction false} ArrivesHonest(w: World, src: map<Path, seq<Byte>>, id: nat, response: Response)
    requires Good(w, src) && (id, response) in w.replies
    ensures Honest(w.d.client, Reply(id, response))
  {
    hide Sound, StoreSound, Well, OwnersSound, ContentSound, SentSound, ListsSound, OwnersSpent;
    if id in w.d.client.link.outstanding {
      assert TrueAnswer(w.st, (id, response).0, w.sent[id].request, (id, response).1);
    }
  }

  // ---- runs ----

  function Reached(w: World, run: seq<Happening>): World
    decreases |run|
  {
    if run == [] then w else Reached(Next(w, run[0]), run[1..])
  }

  /** The run keeps to what may happen, and nobody changes the chosen files meanwhile. */
  predicate Fair(w: World, src: map<Path, seq<Byte>>, run: seq<Happening>)
    decreases |run|
  {
    StoreSound(w.st) && Steady(src, w.d.disk) && (run == [] || (May(w, src, run[0]) && Fair(Next(w, run[0]), src, run[1..])))
  }

  lemma {:induction false} NextGood(w: World, src: map<Path, seq<Byte>>, h: Happening)
    requires StoreSound(w.st) && Good(w, src) && May(w, src, h) && Steady(src, w.d.disk)
    ensures Good(Next(w, h), src)
  {
    hide Good, Steady, Handles, MayCommand;
    match h
    case Does(command, env, luck) => CommandGood(w, src, command, env, luck);
    case Arrives(id, response, env, luck) => ArrivedGood(w, src, id, response, env, luck);
    case Handled(id, response, after) => HandledGood(w, src, id, response, after);
    case Forgotten(fileId) => ForgottenGood(w, src, fileId);
  }

  lemma {:induction false} RunGood(w: World, src: map<Path, seq<Byte>>, run: seq<Happening>)
    requires Good(w, src) && Fair(w, src, run)
    ensures Good(Reached(w, run), src)
    decreases |run|
  {
    hide Good, Next, May, Steady, StoreSound;
    if run != [] {
      NextGood(w, src, run[0]);
      RunGood(Next(w, run[0]), src, run[1..]);
    }
  }

  function Beginning(address: CC.Address, disk: Disk): World {
    World(Driver(FromInvite(address), None, None, disk), Store(map[], map[]), map[], {}, map[], 0)
  }

  lemma {:induction false} BeginningGood(address: CC.Address, disk: Disk, src: map<Path, seq<Byte>>)
    ensures Good(Beginning(address, disk), src)
  {
  }

  /** What a message names: one id for each file chosen, in the order chosen, each a place the phone made for a
      file of that size; and unless the phone has forgotten the file whole, its chunks joined in order are the
      file. */
  predicate NamesWholeFiles(st: Store, src: map<Path, seq<Byte>>, fileIds: seq<Id>, paths: seq<Path>) {
    |fileIds| == |paths| &&
    forall i | 0 <= i < |fileIds| ::
      paths[i] in src && fileIds[i] in st.made && st.made[fileIds[i]].offer.FileOffer? &&
      st.made[fileIds[i]].offer.sizeBytes == |src[paths[i]]| &&
      (fileIds[i] in st.have ==>
         (forall k | 0 <= k < st.made[fileIds[i]].total :: k in st.have[fileIds[i]]) &&
         Joined(st.have[fileIds[i]], st.made[fileIds[i]].total) == src[paths[i]])
  }

  lemma {:induction false} WholeIsJoined(ch: Chosen, st: Store, fid: Id)
    requires StoreSound(st) && ContentSound(ch, st) && Owns(ch, st, fid) && Whole(st, fid) && fid in st.have
    ensures forall k | 0 <= k < st.made[fid].total :: k in st.have[fid]
    ensures Joined(st.have[fid], st.made[fid].total) == ch.src[ch.owner[fid]]
  {
    hide Slice;
    forall k | 0 <= k < st.made[fid].total ensures k in st.have[fid] {
      assert Has(st, fid, k);
    }
    assert MadeSound(st.made[fid]);
    SlicesTile(st.have[fid], ch.src[ch.owner[fid]], st.made[fid].chunkBytes);
  }

  /** Over every run of losses, handshakes, late, repeated and missing answers, refusals, forgotten files and
      failed reads: every message that was ever sent names exactly the chosen files, whole. */
  lemma {:induction false} MessagesNameWholeFiles(address: CC.Address, disk: Disk, src: map<Path, seq<Byte>>, run: seq<Happening>, id: nat)
    requires Fair(Beginning(address, disk), src, run)
    requires var w := Reached(Beginning(address, disk), run); id in w.sent && w.sent[id].request.FileSend?
    ensures var w := Reached(Beginning(address, disk), run);
            NamesWholeFiles(w.st, src, w.sent[id].request.fileIds, w.sent[id].paths)
  {
    hide Fair, Reached, Sound, Well, WaitingSound, RepliesSound, OwnersSpent, ListsSound, OwnersSound, ContentSound, StoreSound;
    var w := Reached(Beginning(address, disk), run);
    BeginningGood(address, disk, src);
    RunGood(Beginning(address, disk), src, run);
    SentIsWhole(w, src, w.sent[id]);
  }

  lemma {:induction false} SentIsWhole(w: World, src: map<Path, seq<Byte>>, past: Past)
    requires StoreSound(w.st) && ContentSound(ChosenOf(w, src), w.st) && past.request.FileSend?
    requires Believable(ChosenOf(w, src), w.st, past.request, past.paths)
    ensures NamesWholeFiles(w.st, src, past.request.fileIds, past.paths)
  {
    hide ContentSound, StoreSound, Whole;
    var ch, ids := ChosenOf(w, src), past.request.fileIds;
    forall i | 0 <= i < |ids| && ids[i] in w.st.have
      ensures (forall k | 0 <= k < w.st.made[ids[i]].total :: k in w.st.have[ids[i]]) &&
              Joined(w.st.have[ids[i]], w.st.made[ids[i]].total) == src[past.paths[i]]
    {
      WholeIsJoined(ch, w.st, ids[i]);
    }
  }
}
