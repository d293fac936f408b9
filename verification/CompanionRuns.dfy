/** Whole runs of the terminal: requests and answers pair up, and revocation is for good. */
module CompanionRuns {
  import opened Bytes
  import opened CompanionProtocol
  import opened CompanionProtocolLaws
  import CC = CompanionCache

  datatype Moment = Moment(input: Input, env: Env)

  function Run(c: Client, run: seq<Moment>): Client
    decreases |run|
  {
    if run == [] then c else Run(Step(c, run[0].input, run[0].env).client, run[1..])
  }

  /** Everything said to the phone over a run. */
  function Said(c: Client, run: seq<Moment>): seq<Outgoing>
    decreases |run|
  {
    if run == [] then []
    else
      var did := Step(c, run[0].input, run[0].env);
      SendsOf(did.effects) + Said(did.client, run[1..])
  }

  predicate HonestRun(c: Client, run: seq<Moment>)
    decreases |run|
  {
    run == [] || (Honest(c, run[0].input) && HonestRun(Step(c, run[0].input, run[0].env).client, run[1..]))
  }

  lemma {:induction false} RunSound(c: Client, run: seq<Moment>)
    requires Sound(c) && HonestRun(c, run)
    ensures Sound(Run(c, run))
    decreases |run|
  {
    hide Sound, Honest, Step;
    if run != [] {
      StepSound(c, run[0].input, run[0].env);
      RunSound(Step(c, run[0].input, run[0].env).client, run[1..]);
    }
  }

  lemma {:induction false} InvitedSound(address: CC.Address)
    ensures Sound(FromInvite(address))
  {
  }

  /** In every state a terminal can reach with a phone that answers in kind: a session is a channel, a
      handshake is under way only without one, at most 64 requests wait under numbers already given, and a
      download that is not waiting has its next chunk on order. */
  lemma {:induction false} ReachableSound(address: CC.Address, run: seq<Moment>)
    requires HonestRun(FromInvite(address), run)
    ensures Sound(Run(FromInvite(address), run))
  {
    InvitedSound(address);
    RunSound(FromInvite(address), run);
  }

  // ---- revocation ----

  /** Over every later run, whatever comes: nothing said, nothing linked, nothing kept. */
  lemma {:induction false} RevokedForGood(c: Client, run: seq<Moment>)
    requires Sound(c) && c.link.revoked
    ensures var end := Run(c, run); end.link.revoked && !end.link.Live() && NothingLeft(end) && Said(c, run) == []
    decreases |run|
  {
    hide Sound, Step;
    if run == [] {
      NothingLeftOfRevoked(c);
    } else {
      RevokedStays(c, run[0].input, run[0].env);
      RevokedForGood(Step(c, run[0].input, run[0].env).client, run[1..]);
    }
  }

  lemma {:induction false} NothingLeftOfRevoked(c: Client)
    requires Sound(c) && c.link.revoked
    ensures NothingLeft(c) && !c.link.Live()
  {
  }

  // ---- numbers ----

  /** The numbers of the requests rise, from `lo` and below `hi`. */
  predicate Numbers(sends: seq<Outgoing>, lo: nat, hi: nat)
    decreases |sends|
  {
    if sends == [] then lo <= hi
    else if sends[0].Knock? then Numbers(sends[1..], lo, hi)
    else lo <= sends[0].id && Numbers(sends[1..], sends[0].id + 1, hi)
  }

  lemma {:induction false} NumbersBound(sends: seq<Outgoing>, lo: nat, hi: nat)
    requires Numbers(sends, lo, hi)
    ensures lo <= hi
    decreases |sends|
  {
    if sends != [] { NumbersBound(sends[1..], if sends[0].Knock? then lo else sends[0].id + 1, hi); }
  }

  lemma {:induction false} NumbersJoin(a: seq<Outgoing>, b: seq<Outgoing>, lo: nat, mid: nat, hi: nat)
    requires Numbers(a, lo, mid) && Numbers(b, mid, hi)
    ensures Numbers(a + b, lo, hi)
    decreases |a|
  {
    if a == [] {
      assert a + b == b;
      NumbersFrom(b, lo, mid, hi);
    } else {
      assert (a + b)[1..] == a[1..] + b;
      NumbersJoin(a[1..], b, if a[0].Knock? then lo else a[0].id + 1, mid, hi);
    }
  }

  lemma {:induction false} NumbersFrom(b: seq<Outgoing>, lo: nat, mid: nat, hi: nat)
    requires Numbers(b, mid, hi) && lo <= mid
    ensures Numbers(b, lo, hi)
    decreases |b|
  {
    if b != [] && b[0].Knock? { NumbersFrom(b[1..], lo, mid, hi); }
  }

  lemma {:induction false} NumbersDiffer(sends: seq<Outgoing>, lo: nat, hi: nat, i: nat, j: nat)
    requires Numbers(sends, lo, hi) && i < j < |sends| && sends[i].Asked? && sends[j].Asked?
    ensures lo <= sends[i].id < sends[j].id < hi
    decreases |sends|
  {
    if i == 0 {
      NumberWithin(sends[1..], sends[0].id + 1, hi, j - 1);
    } else {
      var next := if sends[0].Knock? then lo else sends[0].id + 1;
      NumbersDiffer(sends[1..], next, hi, i - 1, j - 1);
    }
  }

  lemma {:induction false} NumberWithin(sends: seq<Outgoing>, lo: nat, hi: nat, i: nat)
    requires Numbers(sends, lo, hi) && i < |sends| && sends[i].Asked?
    ensures lo <= sends[i].id < hi
    decreases |sends|
  {
    var next := if sends[0].Knock? then lo else sends[0].id + 1;
    if i == 0 { NumbersBound(sends[1..], next, hi); } else { NumberWithin(sends[1..], next, hi, i - 1); }
  }

  /** What was said waits for its answer. */
  predicate Await(sends: seq<Outgoing>, m: Link) {
    forall i | 0 <= i < |sends| && sends[i].Asked? :: sends[i].id in m.outstanding && m.outstanding[sends[i].id] == sends[i].request
  }

  predicate Known(l: Link) {
    forall id | id in l.outstanding :: id < l.nextId
  }

  predicate Kept(l: Link, m: Link) {
    forall id | id in l.outstanding :: id in m.outstanding && m.outstanding[id] == l.outstanding[id]
  }

  lemma {:induction false} AwaitBoth(a: seq<Outgoing>, b: seq<Outgoing>, m: Link, n: Link)
    requires Await(a, m) && Await(b, n) && (a == [] || Kept(m, n))
    ensures Await(a + b, n)
  {
  }

  /** From one link to the next: numbers rise, everything said waits, and what waits now waited before or has a
      new number. */
  ghost predicate Went(l: Link, effects: seq<Effect>, m: Link) {
    Numbers(SendsOf(effects), l.nextId, m.nextId) && (Known(l) ==> Known(m) && Await(SendsOf(effects), m)) &&
    forall id | id in m.outstanding :: id >= l.nextId || (id in l.outstanding && l.outstanding[id] == m.outstanding[id])
  }

  lemma {:induction false} WentThen(l: Link, a: seq<Effect>, m: Link, b: seq<Effect>, n: Link)
    requires Went(l, a, m) && Went(m, b, n) && (SendsOf(a) == [] || (Known(m) ==> Kept(m, n)))
    ensures Went(l, a + b, n)
  {
    SendsOfBoth(a, b);
    if Known(l) { AwaitBoth(SendsOf(a), SendsOf(b), m, n); }
    NumbersBound(SendsOf(a), l.nextId, m.nextId);
    NumbersJoin(SendsOf(a), SendsOf(b), l.nextId, m.nextId, n.nextId);
  }

  /** Nothing said, and at most something no longer waited for. */
  lemma {:induction false} WentQuietly(l: Link, effects: seq<Effect>, m: Link)
    requires SendsOf(effects) == [] && m.nextId == l.nextId
    requires forall id | id in m.outstanding :: id in l.outstanding && l.outstanding[id] == m.outstanding[id]
    ensures Went(l, effects, m)
  {
  }

  lemma {:induction false} AskWent(l: Link, cache: CC.CacheState, r: Request, env: Env)
    ensures Went(l, OnAsk(l, cache, r, env).effects, OnAsk(l, cache, r, env).link)
  {
    hide OnAsk, AnySend;
    AskGoesOut(l, cache, r, env);
    assert Numbers([Asked(l.nextId, r)], l.nextId, l.nextId + 1) by { assert Numbers([], l.nextId + 1, l.nextId + 1); }
  }

  lemma {:induction false} AskKept(l: Link, cache: CC.CacheState, r: Request, env: Env)
    ensures Known(l) ==> Kept(l, OnAsk(l, cache, r, env).link)
  {
    hide OnAsk, AnySend;
    AskGoesOut(l, cache, r, env);
  }

  lemma {:induction false} AskKnown(l: Link, cache: CC.CacheState, r: Request, env: Env)
    ensures Known(l) ==> Known(OnAsk(l, cache, r, env).link)
  {
    hide OnAsk, AnySend;
    AskGoesOut(l, cache, r, env);
  }

  lemma {:induction false} KeptChain(a: Link, b: Link, c: Link)
    requires Kept(a, b) && Kept(b, c)
    ensures Kept(a, c)
  {
  }

  lemma {:induction false} AbortKept(l: Link, cache: CC.CacheState, ids: seq<Id>, env: Env)
    ensures Known(l) ==> Kept(l, AbortEach(l, cache, ids, env).link)
    decreases |ids|
  {
    hide OnAsk, Known;
    if ids != [] && Known(l) {
      var first := OnAsk(l, cache, FileAbort(ids[0]), env);
      AskKept(l, cache, FileAbort(ids[0]), env);
      AskKnown(l, cache, FileAbort(ids[0]), env);
      AbortKept(first.link, cache, ids[1..], env);
      KeptChain(l, first.link, AbortEach(first.link, cache, ids[1..], env).link);
    }
  }

  lemma {:induction false} ResumeKept(c: Client, env: Env)
    ensures Known(c.link) ==> Kept(c.link, ResumeFetch(c, env).client.link)
  {
    hide OnAsk, AnySend, Known;
    if c.download.Some? { AskKept(c.link, c.cache, ChunkRequest(c.download.value.(stalled := false)), env); }
  }

  /** Something shown before and after asking. */
  lemma {:induction false} ShownAskWent(l: Link, before: seq<Effect>, cache: CC.CacheState, r: Request, env: Env)
    requires SendsOf(before) == []
    ensures Went(l, before + OnAsk(l, cache, r, env).effects, OnAsk(l, cache, r, env).link)
  {
    WentQuietly(l, before, l);
    AskWent(l, cache, r, env);
    WentThen(l, before, l, OnAsk(l, cache, r, env).effects, OnAsk(l, cache, r, env).link);
  }

  lemma {:induction false} AdvanceWent(c: Client, env: Env)
    ensures Went(c.link, AdvanceUpload(c, env).effects, AdvanceUpload(c, env).client.link)
  {
    hide OnAsk;
    if c.upload.Some? {
      var u := c.upload.value.(at := c.upload.value.at + 1);
      AskWent(c.link, c.cache, if u.at < |u.items| then Offer(u.chat, u.items[u.at]) else Request.FileSend(u.ids, u.text), env);
    }
  }

  lemma {:induction false} AbortWent(l: Link, cache: CC.CacheState, ids: seq<Id>, env: Env)
    ensures Went(l, AbortEach(l, cache, ids, env).effects, AbortEach(l, cache, ids, env).link)
    decreases |ids|
  {
    hide OnAsk, Went;
    if ids == [] {
      WentQuietly(l, [], l);
    } else {
      var first := OnAsk(l, cache, FileAbort(ids[0]), env);
      var others := AbortEach(first.link, cache, ids[1..], env);
      AskWent(l, cache, FileAbort(ids[0]), env);
      AbortWent(first.link, cache, ids[1..], env);
      AbortKept(first.link, cache, ids[1..], env);
      WentThen(l, first.effects, first.link, others.effects, others.link);
    }
  }

  lemma {:induction false} ResumeWent(c: Client, env: Env)
    ensures Went(c.link, ResumeFetch(c, env).effects, ResumeFetch(c, env).client.link)
  {
    hide OnAsk, AnySend;
    if c.download.Some? && c.download.value.stalled {
      var d := c.download.value.(stalled := false);
      ShownAskWent(c.link, [Show(FetchResumed(d.next, d.total))], c.cache, ChunkRequest(d), env);
    }
  }

  lemma {:induction false} LinkedWent(c: Client, env: Env)
    ensures Went(c.link, OnLinked(c, env).effects, OnLinked(c, env).client.link)
  {
    hide OnAsk, AnySend, ResumeFetch, Went;
    var link := c.link.(pending := false, session := true, connected := true, outstanding := map[]);
    var hello := OnAsk(link, c.cache, Request.Hello, env);
    var marked := MarkHello(hello);
    var chats := OnAsk(marked, c.cache, Request.Chats, env);
    var staged := if c.upload.Some? then OnAsk(chats.link, c.cache, Request.Staged, env) else Asking(chats.link, []);
    var resumed := ResumeFetch(c.(link := staged.link), env);
    WentQuietly(c.link, [Show(Linked)], link);
    AskWent(link, c.cache, Request.Hello, env);
    SameNumbers(link, hello.effects, hello.link, marked);
    AskWent(marked, c.cache, Request.Chats, env);
    if c.upload.Some? { AskWent(chats.link, c.cache, Request.Staged, env); } else { WentQuietly(chats.link, [], chats.link); }
    ResumeWent(c.(link := staged.link), env);
    AskKept(marked, c.cache, Request.Chats, env);
    AskKept(chats.link, c.cache, Request.Staged, env);
    ResumeKept(c.(link := staged.link), env);
    var shown := [Show(Linked)];
    WentThen(c.link, shown, link, hello.effects, marked);
    WentThen(c.link, shown + hello.effects, marked, chats.effects, chats.link);
    WentThen(c.link, shown + hello.effects + chats.effects, chats.link, staged.effects, staged.link);
    WentThen(c.link, shown + hello.effects + chats.effects + staged.effects, staged.link, resumed.effects, resumed.client.link);
  }

  lemma {:induction false} SameNumbers(l: Link, effects: seq<Effect>, m: Link, n: Link)
    requires Went(l, effects, m) && n.nextId == m.nextId && n.outstanding == m.outstanding
    ensures Went(l, effects, n)
  {
  }

  lemma {:induction false} ChunkWent(c: Client, asked: Request, index: nat, bytes: seq<Byte>, env: Env)
    ensures Went(c.link, OnChunk(c, asked, index, bytes, env).effects, OnChunk(c, asked, index, bytes, env).client.link)
  {
    hide OnAsk, AnySend, Eaten, SaturatingMul, Went;
    if asked.FileChunk? && c.download.Some? && !c.download.value.stalled && asked.fileId == c.download.value.fileId &&
       index == asked.index && index == c.download.value.next {
      var d := c.download.value;
      var written := [Show(FileBytes(d.fileId, index, SaturatingMul(index, d.chunkBytes), bytes))];
      var further := d.(next := index + Eaten(|bytes|, d.chunkBytes));
      QuietBoth(written, [Show(FileDone(d.fileId))]);
      WentQuietly(c.link, written + [Show(FileDone(d.fileId))], c.link);
      ShownAskWent(c.link, written, c.cache, ChunkRequest(further), env);
    } else {
      WentQuietly(c.link, [Show(Ignored)], c.link);
    }
  }

  lemma {:induction false} StagedWent(c: Client, files: seq<StagedFile>, env: Env)
    ensures Went(c.link, OnStaged(c, files, env).effects, OnStaged(c, files, env).client.link)
  {
    hide OnAsk, AnySend, FindStaged, FirstUnfinished, AdvanceUpload, Went, Upload.Piece;
    var resumed := OnStaged(c, files, env).effects;
    if c.upload.None? || !c.upload.value.stalled {
      WentQuietly(c.link, [Show(Ignored)], c.link);
    } else {
      var u := c.upload.value.(stalled := false);
      var at := FirstUnfinished(u, files, 0);
      var shown := [Show(SendResumed(at, |u.items|))];
      WentQuietly(c.link, shown, c.link);
      if at >= |u.items| {
        if u.items != [] {
          var next := c.(upload := Some(u.(at := |u.items| - 1)));
          AdvanceWent(next, env);
          WentThen(c.link, shown, c.link, AdvanceUpload(next, env).effects, AdvanceUpload(next, env).client.link);
        }
      } else {
        ShownAskWent(c.link, shown, c.cache, Offer(u.chat, u.items[at]), env);
        var staged := if at < |u.ids| then FindStaged(files, u.ids[at]) else None;
        if staged.Some? && staged.value.missing != [] {
          var hole := u.(at := at, next := staged.value.missing[0], total := staged.value.chunkTotal);
          var need := [Show(NeedChunk(u.ids[at], at, hole.next, hole.Piece(hole.next).0, hole.Piece(hole.next).1))];
          WentQuietly(c.link, need, c.link);
          WentThen(c.link, shown, c.link, need, c.link);
        }
      }
    }
  }

  /** After something quiet, an advance; or something quiet in its place. */
  lemma {:induction false} ThenAdvanceWent(c: Client, earlier: seq<Effect>, env: Env)
    requires SendsOf(earlier) == []
    ensures Went(c.link, earlier + AdvanceUpload(c, env).effects, AdvanceUpload(c, env).client.link)
  {
    WentQuietly(c.link, earlier, c.link);
    AdvanceWent(c, env);
    WentThen(c.link, earlier, c.link, AdvanceUpload(c, env).effects, AdvanceUpload(c, env).client.link);
  }

  lemma {:induction false} QuietBoth(a: seq<Effect>, b: seq<Effect>)
    requires SendsOf(a) == [] && SendsOf(b) == []
    ensures SendsOf(a + b) == []
  {
    SendsOfBoth(a, b);
  }

  lemma {:induction false} StoredWent(c: Client, fileId: Id, earlier: seq<Effect>, env: Env)
    requires SendsOf(earlier) == []
    ensures Went(c.link, OnStored(c, fileId, earlier, env).effects, OnStored(c, fileId, earlier, env).client.link)
  {
    hide AdvanceUpload, Went, Upload.Piece;
    if c.upload.None? {
      WentQuietly(c.link, [Show(Ignored)], c.link);
    } else {
      var u := c.upload.value.(next := c.upload.value.next + 1);
      ThenAdvanceWent(c.(upload := Some(u)), earlier, env);
      var need := [Show(NeedChunk(fileId, u.at, u.next, u.Piece(u.next).0, u.Piece(u.next).1))];
      QuietBoth(earlier, need);
      WentQuietly(c.link, earlier + need, c.link);
    }
  }

  lemma {:induction false} OfferedWent(c: Client, fileId: Id, chunkTotal: nat, chunkBytes: u64, earlier: seq<Effect>, env: Env)
    requires SendsOf(earlier) == []
    ensures var did := OnOffered(c, fileId, chunkTotal, chunkBytes, earlier, env); Went(c.link, did.effects, did.client.link)
  {
    hide AdvanceUpload, Went, Upload.Piece;
    if c.upload.None? {
      WentQuietly(c.link, [Show(Ignored)], c.link);
    } else {
      var u := c.upload.value;
      var begun := u.(ids := u.ids + [fileId], total := chunkTotal, chunkBytes := chunkBytes, next := 0);
      ThenAdvanceWent(c.(upload := Some(begun)), earlier, env);
      var need := [Show(NeedChunk(fileId, begun.at, 0, begun.Piece(0).0, begun.Piece(0).1))];
      QuietBoth(earlier, need);
      WentQuietly(c.link, earlier + need, c.link);
    }
  }

  lemma {:induction false} QuietAnswerWent(c: Client, asked: Request, response: Response, earlier: seq<Effect>, env: Env)
    requires SendsOf(earlier) == [] && !response.FileChunk? && !response.Staged? && !response.FileOffer?
    requires !(response.Done? && asked.FilePut?)
    ensures var did := OnAnswer(c, asked, response, earlier, env); SendsOf(did.effects) == []
    ensures var did := OnAnswer(c, asked, response, earlier, env);
            did.client.link.nextId == c.link.nextId && did.client.link.outstanding == c.link.outstanding
  {
    var did := OnAnswer(c, asked, response, earlier, env);
    if response.Hello? {
      var stopped := GiveUpStalled(c.(link := c.link.(hello := None, phoneWire := Some(response.wire))), Some(response.wire));
      QuietBoth(earlier, stopped.effects);
      QuietBoth(earlier + stopped.effects, [Show(Wire(Some(response.wire)))]);
    } else if |did.effects| == |earlier| + 1 {
      var last := did.effects[|earlier|];
      assert did.effects == earlier + [last];
      QuietBoth(earlier, [last]);
    }
  }

  lemma {:induction false} AnswerWent(c: Client, asked: Request, response: Response, earlier: seq<Effect>, env: Env)
    requires SendsOf(earlier) == []
    ensures var did := OnAnswer(c, asked, response, earlier, env); Went(c.link, did.effects, did.client.link)
  {
    hide Went, OnChunk, OnStaged, OnStored, OnOffered, GiveUpStalled;
    var did := OnAnswer(c, asked, response, earlier, env);
    WentQuietly(c.link, earlier, c.link);
    if response.FileChunk? {
      ChunkWent(c, asked, response.index, response.bytes, env);
      var chunk := OnChunk(c, asked, response.index, response.bytes, env);
      WentThen(c.link, earlier, c.link, chunk.effects, chunk.client.link);
    } else if response.Staged? {
      StagedWent(c, response.files, env);
      var staged := OnStaged(c, response.files, env);
      WentThen(c.link, earlier, c.link, staged.effects, staged.client.link);
    } else if response.FileOffer? {
      OfferedWent(c, response.fileId, response.chunkTotal, response.chunkBytes, earlier, env);
    } else if response.Done? && asked.FilePut? {
      StoredWent(c, asked.fileId, earlier, env);
    } else {
      QuietAnswerWent(c, asked, response, earlier, env);
      WentQuietly(c.link, did.effects, did.client.link);
    }
  }

  lemma {:induction false} OvertakenWent(c: Client, id: nat)
    ensures var did := Overtaken(c, id);
            SendsOf(did.effects) == [] && did.client.link.nextId == c.link.nextId &&
            forall other | other in did.client.link.outstanding ::
              other in c.link.outstanding && c.link.outstanding[other] == did.client.link.outstanding[other]
  {
    if c.link.hello.Some? && id > c.link.hello.value {
      var ancient := c.(link := c.link.(hello := None, outstanding := c.link.outstanding - {c.link.hello.value}, phoneWire := Some(0)));
      QuietBoth([Show(Wire(None))], GiveUpStalled(ancient, None).effects);
    }
  }

  lemma {:induction false} ResponseWent(c: Client, id: nat, response: Response, env: Env)
    ensures var did := OnResponse(c, id, response, env); Went(c.link, did.effects, did.client.link)
    ensures id < c.link.nextId ==> id !in OnResponse(c, id, response, env).client.link.outstanding
  {
    hide OnAnswer, Overtaken;
    if id in c.link.outstanding {
      var less := c.(link := c.link.(outstanding := c.link.outstanding - {id}));
      OvertakenWent(less, id);
      var first := Overtaken(less, id);
      AnswerWent(first.client, c.link.outstanding[id], response, first.effects, env);
    }
  }

  lemma {:induction false} FrameWent(c: Client, frame: Frame, env: Env)
    ensures Went(c.link, OnFrame(c, frame, env).effects, OnFrame(c, frame, env).client.link)
  {
    hide OnLinked, OnResponse, Went;
    var did := OnFrame(c, frame, env);
    if frame.Handshake? && frame.intact && frame.agrees && c.link.pending {
      LinkedWent(c, env);
    } else if frame.Data? && c.link.session && frame.content.Answer? {
      ResponseWent(c, frame.content.id, frame.content.response, env);
    } else {
      WentQuietly(c.link, did.effects, did.client.link);
    }
  }

  lemma {:induction false} StepWent(c: Client, input: Input, env: Env)
    ensures Went(c.link, Step(c, input, env).effects, Step(c, input, env).client.link)
  {
    hide OnAsk, OnFrame, AnySend, Went, AbortEach;
    var did := Step(c, input, env);
    match input
    case Received(frame) => FrameWent(c, frame, env);
    case Ask(request) => AskWent(c.link, c.cache, request, env);
    case Fetch(fileId, chunkTotal, chunkBytes) =>
      AskWent(c.link, c.cache, ChunkRequest(Download(fileId, 0, chunkTotal, chunkBytes, false)), env);
      WentQuietly(c.link, [Show(Event.Refused)], c.link);
    case Send(chat, items, _) =>
      if items != [] { AskWent(c.link, c.cache, Offer(chat, items[0]), env); }
      WentQuietly(c.link, [Show(Event.Refused)], c.link);
    case PutChunk(index, bytes) =>
      if c.upload.Some? && c.upload.value.Current().Some? {
        AskWent(c.link, c.cache, Request.FilePut(c.upload.value.Current().value, index, bytes), env);
      }
      WentQuietly(c.link, [Show(Ignored)], c.link);
    case CancelSend =>
      if c.upload.Some? { AbortWent(c.link, c.cache, c.upload.value.ids, env); }
      WentQuietly(c.link, [Show(Ignored)], c.link);
    case Reach => ReachWent(c, env);
    case Lost =>
      LostQuiet(c);
      WentQuietly(c.link, did.effects, did.client.link);
    case _ => WentQuietly(c.link, did.effects, did.client.link);
  }

  lemma {:induction false} LostQuiet(c: Client)
    ensures SendsOf(OnLost(c).effects) == []
  {
    var sending := if c.upload.Some? then [Show(SendPaused)] else [];
    var fetching := if c.download.Some? then [Show(FetchPaused)] else [];
    QuietBoth(sending, fetching);
    QuietBoth(sending + fetching, if c.link.session then [Show(Unlinked)] else []);
  }

  lemma {:induction false} ReachWent(c: Client, env: Env)
    ensures Went(c.link, OnReach(c, env).effects, OnReach(c, env).client.link)
  {
    assert SendsOf([Effect.Send(Knock(c.ownOnion, c.ownYgg))]) == [Knock(c.ownOnion, c.ownYgg)];
    assert Numbers([], c.link.nextId, c.link.nextId);
  }

  lemma {:induction false} RunNumbers(c: Client, run: seq<Moment>)
    ensures Numbers(Said(c, run), c.link.nextId, Run(c, run).link.nextId)
    decreases |run|
  {
    hide Step;
    if run != [] {
      var did := Step(c, run[0].input, run[0].env);
      StepWent(c, run[0].input, run[0].env);
      RunNumbers(did.client, run[1..]);
      NumbersJoin(SendsOf(did.effects), Said(did.client, run[1..]), c.link.nextId, did.client.link.nextId, Run(c, run).link.nextId);
    }
  }

  /** No number is ever used for two requests, across any number of links lost and made. */
  lemma {:induction false} NoNumberTwice(c: Client, run: seq<Moment>, i: nat, j: nat)
    requires i < j < |Said(c, run)| && Said(c, run)[i].Asked? && Said(c, run)[j].Asked?
    ensures Said(c, run)[i].id < Said(c, run)[j].id
  {
    RunNumbers(c, run);
    NumbersDiffer(Said(c, run), c.link.nextId, Run(c, run).link.nextId, i, j);
  }

  // ---- answers ----

  /** A number given out that nothing waits under. */
  predicate Spent(c: Client, id: nat) {
    id < c.link.nextId && id !in c.link.outstanding
  }

  lemma {:induction false} SpentForGood(c: Client, run: seq<Moment>, id: nat)
    requires Spent(c, id)
    ensures Spent(Run(c, run), id)
    decreases |run|
  {
    hide Step;
    if run != [] {
      var did := Step(c, run[0].input, run[0].env);
      StepWent(c, run[0].input, run[0].env);
      NumbersBound(SendsOf(did.effects), c.link.nextId, did.client.link.nextId);
      SpentForGood(did.client, run[1..], id);
    }
  }

  function Reply(id: nat, response: Response): Input {
    Received(Data(Answer(id, response)))
  }

  /** An answer is taken at most once: after it, however long the run, another under its number changes nothing. */
  lemma {:induction false} AnsweredOnce(c: Client, id: nat, response: Response, env: Env, run: seq<Moment>, again: Response, later: Env)
    requires Sound(c) && id in c.link.outstanding
    ensures var end := Run(Step(c, Reply(id, response), env).client, run);
            Step(end, Reply(id, again), later) == Did(end, [Show(Ignored)])
  {
    hide OnResponse;
    var did := Step(c, Reply(id, response), env);
    ResponseWent(c, id, response, env);
    NumbersBound(SendsOf(did.effects), c.link.nextId, did.client.link.nextId);
    SpentForGood(did.client, run, id);
    IgnoredWhenSpent(Run(did.client, run), id, again, later);
  }

  lemma {:induction false} IgnoredWhenSpent(c: Client, id: nat, again: Response, later: Env)
    requires Spent(c, id)
    ensures Step(c, Reply(id, again), later) == Did(c, [Show(Ignored)])
  {
  }
}
