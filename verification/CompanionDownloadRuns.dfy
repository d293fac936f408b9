/** Whole runs of downloads: whatever is lost, refused, cancelled or resumed, the partial file is the file's
    beginning, and only a whole file gets a name of its own. */
module CompanionDownloadRuns {
  import opened Bytes
  import opened CompanionProtocol
  import opened CompanionProtocolLaws
  import opened CompanionDriver
  import opened CompanionDownload
  import opened CompanionFeed
  import CC = CompanionCache

  // ---- what holds between commands ----

  /** The partial file of a download holds exactly the chunks before the one waited for. */
  predicate Progress(phone: Phone, dl: Download, disk: Disk, partial: Path)
    requires PhoneSound(phone)
  {
    dl.fileId in phone ==>
      var f := phone[dl.fileId];
      dl.chunkBytes == f.chunkBytes && dl.total == Total(f) && dl.next < dl.total && partial in disk && disk[partial] == Before(f, dl.next)
  }

  predicate Holds(phone: Phone, d: Driver)
    requires PhoneSound(phone)
  {
    d.client.download.Some? ==>
      d.saving.Some? && d.saving.value.fileId == d.client.download.value.fileId &&
      Progress(phone, d.client.download.value, d.disk, d.saving.value.partial)
  }

  predicate SameAt(a: Disk, b: Disk, path: Path) {
    (path in a <==> path in b) && (path in a ==> a[path] == b[path])
  }

  type Wanted = set<(Id, Path)>

  /** The path holds the whole of a file that was to be saved there. */
  predicate WholeAt(phone: Phone, wanted: Wanted, disk: Disk, path: Path) {
    path in disk && exists id | id in phone :: (id, path) in wanted && disk[path] == phone[id].bytes
  }

  /** The name under which a file grows that was to be saved. */
  predicate Partial(wanted: Wanted, path: Path) {
    exists w | w in wanted :: PartialName(w.1) == path
  }

  /** A path that is no such name holds what it held at first, or the whole of a file saved there. */
  ghost predicate OnlyWhole(phone: Phone, wanted: Wanted, start: Disk, disk: Disk) {
    forall path | !Partial(wanted, path) :: SameAt(disk, start, path) || WholeAt(phone, wanted, disk, path)
  }

  predicate SavingSound(wanted: Wanted, d: Driver) {
    d.saving.Some? ==> d.saving.value.partial == PartialName(d.saving.value.path) && (d.saving.value.fileId, d.saving.value.path) in wanted
  }

  // ---- the disk ----

  lemma {:induction false} PartialIsAnother(path: Path)
    ensures PartialName(path) != path
  {
    assert |PartialName(path)| == |path| + 5;
  }

  lemma {:induction false} PartialWritten(phone: Phone, wanted: Wanted, start: Disk, disk: Disk, id: Id, path: Path, bytes: seq<Byte>)
    requires OnlyWhole(phone, wanted, start, disk) && (id, path) in wanted
    ensures OnlyWhole(phone, wanted, start, disk[PartialName(path) := bytes])
    ensures OnlyWhole(phone, wanted, start, disk - {PartialName(path)})
  {
    var partial := PartialName(path);
    assert Partial(wanted, partial) by { assert PartialName((id, path).1) == partial; }
    forall p | !Partial(wanted, p)
      ensures SameAt(disk[partial := bytes], start, p) || WholeAt(phone, wanted, disk[partial := bytes], p)
      ensures SameAt(disk - {partial}, start, p) || WholeAt(phone, wanted, disk - {partial}, p)
    {
      assert p != partial;
    }
  }

  lemma {:induction false} WholeNamed(phone: Phone, wanted: Wanted, start: Disk, disk: Disk, path: Path, id: Id)
    requires OnlyWhole(phone, wanted, start, disk) && id in phone && (id, path) in wanted
    ensures OnlyWhole(phone, wanted, start, disk[path := phone[id].bytes])
  {
    var after := disk[path := phone[id].bytes];
    forall p | !Partial(wanted, p) ensures SameAt(after, start, p) || WholeAt(phone, wanted, after, p) {
      if p == path {
        assert after[path] == phone[id].bytes;
      } else if WholeAt(phone, wanted, disk, p) {
        var other :| other in phone && (other, p) in wanted && disk[p] == phone[other].bytes;
        assert after[p] == phone[other].bytes;
      }
    }
  }

  lemma {:induction false} AbandonSafe(phone: Phone, wanted: Wanted, start: Disk, d: Driver, luck: Luck)
    requires PhoneSound(phone) && SavingSound(wanted, d) && OnlyWhole(phone, wanted, start, d.disk)
    ensures var e := AbandonSave(d, luck); SavingSound(wanted, e) && OnlyWhole(phone, wanted, start, e.disk) && e.saving.None?
  {
    if d.saving.Some? { PartialWritten(phone, wanted, start, d.disk, d.saving.value.fileId, d.saving.value.path, []); }
  }

  // ---- showing ----

  /** Only what is told of the download touches the file being saved. */
  function ShowEach(d: Driver, events: seq<Event>, luck: Luck): Driver
    decreases |events|
  {
    if events == [] then d else ShowEach(ShowEvent(d, events[0], luck).driver, events[1..], luck)
  }

  predicate SameSide(d: Driver, e: Driver) {
    d.saving == e.saving && d.disk == e.disk
  }

  lemma {:induction false} ShowEventSide(d: Driver, e: Driver, event: Event, luck: Luck)
    requires SameSide(d, e)
    ensures SameSide(ShowEvent(d, event, luck).driver, ShowEvent(e, event, luck).driver)
    ensures !AboutFetch(event) ==> SameSide(ShowEvent(d, event, luck).driver, d)
  {
    hide WriteAt, ReadAt;
  }

  lemma {:induction false} ShowAllSide(d: Driver, e: Driver, effects: seq<Effect>, luck: Luck)
    requires SameSide(d, e)
    ensures SameSide(ShowAll(d, effects, luck).driver, ShowEach(e, FetchEvents(effects), luck))
    decreases |effects|
  {
    hide ShowEvent, SameSide, AboutFetch;
    if effects != [] {
      if effects[0].Send? {
        ShowAllSide(d, e, effects[1..], luck);
      } else {
        var event := effects[0].event;
        ShowEventSide(d, e, event, luck);
        if AboutFetch(event) {
          ShowAllSide(ShowEvent(d, event, luck).driver, ShowEvent(e, event, luck).driver, effects[1..], luck);
        } else {
          SideChain(ShowEvent(d, event, luck).driver, d, e);
          ShowAllSide(ShowEvent(d, event, luck).driver, e, effects[1..], luck);
        }
      }
    }
  }

  lemma {:induction false} SideChain(a: Driver, b: Driver, c: Driver)
    requires SameSide(a, b) && SameSide(b, c)
    ensures SameSide(a, c)
  {
  }

  /** A write that fails calls for the download to be cancelled. */
  lemma {:induction false} FailedWriteCancels(d: Driver, effects: seq<Effect>, luck: Luck)
    requires d.saving.Some? && !luck.writes && FetchEvents(effects) != [] && FetchEvents(effects)[0].FileBytes?
    ensures CancelFetch in ShowAll(d, effects, luck).answers
    decreases |effects|
  {
    hide WriteAt, ReadAt;
    if effects[0].Send? {
      FailedWriteCancels(d, effects[1..], luck);
    } else if effects[0].event.FileBytes? {
      assert ShowEvent(d, effects[0].event, luck).answers == [CancelFetch];
    } else {
      ShowEventSide(d, d, effects[0].event, luck);
      FailedWriteCancels(ShowEvent(d, effects[0].event, luck).driver, effects[1..], luck);
    }
  }

  lemma {:induction false} ShowNone(d: Driver, luck: Luck)
    ensures ShowEach(d, [], luck) == d
  {
  }

  lemma {:induction false} ShowOne(d: Driver, e: Event, luck: Luck)
    ensures ShowEach(d, [e], luck) == ShowEvent(d, e, luck).driver
  {
    hide ShowEvent;
    assert [e][1..] == [];
  }

  lemma {:induction false} ShowTwo(d: Driver, e: Event, f: Event, luck: Luck)
    ensures ShowEach(d, [e, f], luck) == ShowEvent(ShowEvent(d, e, luck).driver, f, luck).driver
  {
    hide ShowEvent;
    ShowOne(ShowEvent(d, e, luck).driver, f, luck);
    assert [e, f][1..] == [f];
  }

  // ---- one round ----

  /** Which download the next round starts from: the promise of a `Fetch` is its caller's. */
  predicate Prepared(phone: Phone, d: Driver, input: Input)
    requires PhoneSound(phone)
  {
    input.Fetch? ==>
      d.client.download.None? && d.saving.Some? && d.saving.value.fileId == input.fileId &&
      (input.fileId in phone ==>
         input.chunkBytes == phone[input.fileId].chunkBytes && input.chunkTotal == Total(phone[input.fileId]) &&
         d.saving.value.partial in d.disk && d.disk[d.saving.value.partial] == [])
  }

  /** How one round leaves the saving side. */
  ghost predicate Side(phone: Phone, wanted: Wanted, start: Disk, d: Driver)
    requires PhoneSound(phone)
  {
    SavingSound(wanted, d) && OnlyWhole(phone, wanted, start, d.disk)
  }

  lemma {:induction false} FinishedSide(phone: Phone, wanted: Wanted, start: Disk, d: Driver, luck: Luck)
    requires PhoneSound(phone) && Side(phone, wanted, start, d)
    requires d.saving.Some? ==> d.saving.value.fileId in phone && d.saving.value.partial in d.disk &&
                                d.disk[d.saving.value.partial] == phone[d.saving.value.fileId].bytes
    ensures Side(phone, wanted, start, OnFileDone(d, luck).driver)
  {
    hide OnlyWhole;
    if d.saving.Some? {
      var s := d.saving.value;
      PartialIsAnother(s.path);
      PartialWritten(phone, wanted, start, d.disk, s.fileId, s.path, []);
      WholeNamed(phone, wanted, start, d.disk, s.path, s.fileId);
      PartialWritten(phone, wanted, start, d.disk[s.path := phone[s.fileId].bytes], s.fileId, s.path, []);
    }
  }

  lemma {:induction false} WrittenSide(phone: Phone, wanted: Wanted, start: Disk, d: Driver, offset: nat, bytes: seq<Byte>, luck: Luck)
    requires PhoneSound(phone) && Side(phone, wanted, start, d)
    ensures Side(phone, wanted, start, OnFileBytes(d, offset, bytes, luck).driver)
    ensures !luck.writes ==> OnFileBytes(d, offset, bytes, luck).driver.saving.None?
  {
    hide OnlyWhole, WriteAt;
    if d.saving.Some? {
      var s := d.saving.value;
      PartialWritten(phone, wanted, start, d.disk, s.fileId, s.path, WriteAt(ContentOf(d.disk, s.partial), offset, bytes));
      PartialWritten(phone, wanted, start, d.disk, s.fileId, s.path, luck.spoiled);
      AbandonSafe(phone, wanted, start, d.(disk := d.disk[s.partial := luck.spoiled]), luck);
    }
  }

  /** The chunk waited for, written where it belongs: the beginning of the file has grown by it. */
  lemma {:induction false} ChunkWritten(phone: Phone, dl: Download, d: Driver, bytes: seq<Byte>, luck: Luck)
    requires PhoneSound(phone) && dl.fileId in phone && Serves(phone[dl.fileId], dl.next, bytes)
    requires d.saving.Some? && luck.writes && Progress(phone, dl, d.disk, d.saving.value.partial)
    ensures var e, f := OnFileBytes(d, SaturatingMul(dl.next, dl.chunkBytes), bytes, luck).driver, phone[dl.fileId];
            var next := dl.next + Eaten(|bytes|, dl.chunkBytes);
            e == d.(disk := e.disk) && d.saving.value.partial in e.disk && e.disk[d.saving.value.partial] == Before(f, next) &&
            (next >= dl.total ==> Before(f, next) == f.bytes)
  {
    hide WriteAt, Eaten, SaturatingMul;
    var f := phone[dl.fileId];
    WriteExtends(f, dl.next, bytes);
    EatenReaches(f, dl.next, bytes);
  }

  /** An accepted chunk: either the file goes on growing, or it is whole and gets its name, or the write
      failed and the file is given up. */
  lemma {:induction false} TakenSide(phone: Phone, wanted: Wanted, start: Disk, before: Driver, d: Driver, asked: Request,
                                     response: Response, did: Did, luck: Luck)
    requires PhoneSound(phone) && Side(phone, wanted, start, before) && Holds(phone, before) && SameSide(d, before)
    requires HonestAnswer(phone, asked, response) && Takes(before.client.download, asked, response, did) && d.client == did.client
    ensures var e := ShowEach(d, FetchEvents(did.effects), luck);
            Side(phone, wanted, start, e) &&
            (Holds(phone, d.(saving := e.saving, disk := e.disk)) || (e.saving.None? && !luck.writes))
  {
    hide OnlyWhole, WriteAt, Eaten, SaturatingMul, Progress, Serves;
    var dl := before.client.download.value;
    var offset := SaturatingMul(dl.next, dl.chunkBytes);
    var written := FileBytes(dl.fileId, dl.next, offset, response.bytes);
    var one := OnFileBytes(d, offset, response.bytes, luck).driver;
    WrittenSide(phone, wanted, start, d, offset, response.bytes, luck);
    ShowOne(d, written, luck);
    ShowTwo(d, written, FileDone(dl.fileId), luck);
    if luck.writes {
      ProgressSays(phone, dl, d.disk, d.saving.value.partial);
      ChunkWritten(phone, dl, d, response.bytes, luck);
      FinishedOrGoing(phone, wanted, start, d, dl, response.bytes, did, one, luck);
    } else {
      assert OnFileDone(one, luck).driver == one;
    }
  }

  lemma {:induction false} ProgressSays(phone: Phone, dl: Download, disk: Disk, partial: Path)
    requires PhoneSound(phone) && dl.fileId in phone && Progress(phone, dl, disk, partial)
    ensures dl.chunkBytes == phone[dl.fileId].chunkBytes && dl.total == Total(phone[dl.fileId]) && partial in disk
  {
  }

  lemma {:induction false} FinishedOrGoing(phone: Phone, wanted: Wanted, start: Disk, d: Driver, dl: Download, bytes: seq<Byte>,
                                           did: Did, one: Driver, luck: Luck)
    requires PhoneSound(phone) && dl.fileId in phone && Side(phone, wanted, start, one) && one == d.(disk := one.disk)
    requires d.saving.Some? && d.saving.value.fileId == dl.fileId && d.saving.value.partial in one.disk
    requires dl.chunkBytes == phone[dl.fileId].chunkBytes && dl.total == Total(phone[dl.fileId]) && d.client == did.client
    requires var next := dl.next + Eaten(|bytes|, dl.chunkBytes);
             one.disk[d.saving.value.partial] == Before(phone[dl.fileId], next) &&
             (if next >= dl.total then did.client.download.None? && Before(phone[dl.fileId], next) == phone[dl.fileId].bytes
              else SameFetch(did.client.download, Some(dl.(next := next))))
    ensures var next := dl.next + Eaten(|bytes|, dl.chunkBytes);
            if next >= dl.total then Side(phone, wanted, start, OnFileDone(one, luck).driver)
            else Holds(phone, d.(saving := one.saving, disk := one.disk))
  {
    hide OnlyWhole, WriteAt, Eaten, Before, Total;
    if dl.next + Eaten(|bytes|, dl.chunkBytes) >= dl.total { FinishedSide(phone, wanted, start, one, luck); }
  }

  lemma {:induction false} RoundSide(phone: Phone, wanted: Wanted, start: Disk, d: Driver, input: Input, env: Env, luck: Luck)
    requires PhoneSound(phone) && Sound(d.client) && Side(phone, wanted, start, d) && Holds(phone, d)
    requires HonestInput(phone, d.client, input) && Prepared(phone, d, input)
    ensures var shown := Round(d, input, env, luck);
            Side(phone, wanted, start, shown.driver) && (Holds(phone, shown.driver) || CancelFetch in shown.answers)
  {
    hide Step, Sound, OnlyWhole, Progress, Takes, HonestAnswer, ShowEvent;
    var did := Step(d.client, input, env);
    var next := d.(client := did.client);
    var shown := ShowAll(next, did.effects, luck);
    StepMoves(d.client, input, env);
    ShowAllSide(next, next, did.effects, luck);
    ShowKeepsClient(next, did.effects, luck);
    if Idle(d.client.download, did) {
      ShowNone(next, luck);
      IdleHolds(phone, d, shown.driver);
    } else if Begins(d.client.download, input, did) {
      ShowNone(next, luck);
      BegunHolds(phone, d, input, shown.driver);
    } else if Stops(did) || FileWentAway(d.client.download, did) {
      GoneRound(phone, wanted, start, d, next, did, luck);
    } else {
      TakenRound(phone, wanted, start, d, next, d.client.link.outstanding[input.frame.content.id],
                 input.frame.content.response, did, luck);
    }
  }

  lemma {:induction false} GoneRound(phone: Phone, wanted: Wanted, start: Disk, d: Driver, next: Driver, did: Did, luck: Luck)
    requires PhoneSound(phone) && Side(phone, wanted, start, d) && Holds(phone, d) && next == d.(client := did.client)
    requires Stops(did) || FileWentAway(d.client.download, did)
    ensures var shown := ShowAll(next, did.effects, luck);
            Side(phone, wanted, start, shown.driver) && Holds(phone, shown.driver)
  {
    hide OnlyWhole, Progress, ShowEvent, Holds;
    var shown, events := ShowAll(next, did.effects, luck), FetchEvents(did.effects);
    assert events == [events[0]];
    ShowOne(next, events[0], luck);
    ShowAllSide(next, next, did.effects, luck);
    ShowKeepsClient(next, did.effects, luck);
    GoneSide(phone, wanted, start, d, next, did, luck);
    var e := ShowEvent(next, events[0], luck).driver;
    SameHolds(phone, next.(saving := e.saving, disk := e.disk), shown.driver);
  }

  lemma {:induction false} TakenRound(phone: Phone, wanted: Wanted, start: Disk, d: Driver, next: Driver, asked: Request,
                                      response: Response, did: Did, luck: Luck)
    requires PhoneSound(phone) && Side(phone, wanted, start, d) && Holds(phone, d) && next == d.(client := did.client)
    requires HonestAnswer(phone, asked, response) && Takes(d.client.download, asked, response, did)
    ensures var shown := ShowAll(next, did.effects, luck);
            Side(phone, wanted, start, shown.driver) && (Holds(phone, shown.driver) || CancelFetch in shown.answers)
  {
    hide OnlyWhole, Progress, Takes, HonestAnswer, ShowEvent, Holds;
    var shown := ShowAll(next, did.effects, luck);
    TakenSide(phone, wanted, start, d, next, asked, response, did, luck);
    ShowAllSide(next, next, did.effects, luck);
    ShowKeepsClient(next, did.effects, luck);
    var e := ShowEach(next, FetchEvents(did.effects), luck);
    assert SameSide(next.(saving := e.saving, disk := e.disk), shown.driver);
    if Holds(phone, next.(saving := e.saving, disk := e.disk)) {
      SameHolds(phone, next.(saving := e.saving, disk := e.disk), shown.driver);
    } else {
      TakenFirst(d.client.download, asked, response, did);
      HoldsSaving(phone, d, asked, response, did);
      FailedWriteCancels(next, did.effects, luck);
    }
  }

  lemma {:induction false} SameHolds(phone: Phone, d: Driver, e: Driver)
    requires PhoneSound(phone) && Holds(phone, d) && SameSide(d, e) && e.client == d.client
    ensures Holds(phone, e)
  {
  }

  lemma {:induction false} TakenFirst(before: Option<Download>, asked: Request, response: Response, did: Did)
    requires Takes(before, asked, response, did)
    ensures FetchEvents(did.effects) != [] && FetchEvents(did.effects)[0].FileBytes?
  {
  }

  lemma {:induction false} HoldsSaving(phone: Phone, d: Driver, asked: Request, response: Response, did: Did)
    requires PhoneSound(phone) && Holds(phone, d) && Takes(d.client.download, asked, response, did)
    ensures d.saving.Some?
  {
  }

  lemma {:induction false} ShowKeepsClient(d: Driver, effects: seq<Effect>, luck: Luck)
    ensures ShowAll(d, effects, luck).driver.client == d.client
  {
    ShowCalls(d, effects, luck);
  }

  lemma {:induction false} IdleHolds(phone: Phone, d: Driver, e: Driver)
    requires PhoneSound(phone) && Holds(phone, d) && SameSide(d, e)
    requires e.client.download.None? || SameFetch(d.client.download, e.client.download)
    ensures Holds(phone, e)
  {
  }

  lemma {:induction false} BegunHolds(phone: Phone, d: Driver, input: Input, e: Driver)
    requires PhoneSound(phone) && Prepared(phone, d, input) && input.Fetch? && SameSide(d, e) && input.chunkTotal > 0
    requires e.client.download == Some(Download(input.fileId, 0, input.chunkTotal, input.chunkBytes, false))
    ensures Holds(phone, e)
  {
    if input.fileId in phone { NothingYet(phone[input.fileId]); }
  }

  lemma {:induction false} GoneSide(phone: Phone, wanted: Wanted, start: Disk, d: Driver, next: Driver, did: Did, luck: Luck)
    requires PhoneSound(phone) && Side(phone, wanted, start, d) && Holds(phone, d) && next == d.(client := did.client)
    requires Stops(did) || FileWentAway(d.client.download, did)
    ensures var e := ShowEvent(next, FetchEvents(did.effects)[0], luck).driver;
            Side(phone, wanted, start, e) && Holds(phone, next.(saving := e.saving, disk := e.disk))
  {
    hide OnlyWhole, Progress, Holds;
    AbandonSafe(phone, wanted, start, next, luck);
    var e := ShowEvent(next, FetchEvents(did.effects)[0], luck).driver;
    if next.client.download.None? {
      NoDownloadHolds(phone, next.(saving := e.saving, disk := e.disk));
    } else {
      GoesOn(phone, d, next, did);
      IdleHolds(phone, d, next.(saving := e.saving, disk := e.disk));
    }
  }

  lemma {:induction false} NoDownloadHolds(phone: Phone, d: Driver)
    requires PhoneSound(phone) && d.client.download.None?
    ensures Holds(phone, d)
  {
  }

  /** The file that went away was another one: the file being saved is left alone. */
  lemma {:induction false} GoesOn(phone: Phone, d: Driver, next: Driver, did: Did)
    requires PhoneSound(phone) && Holds(phone, d) && next == d.(client := did.client) && did.client.download.Some?
    requires FileWentAway(d.client.download, did)
    ensures d.saving.Some? && d.saving.value.fileId != FetchEvents(did.effects)[0].notice.fileId
  {
  }

  // ---- commands ----

  /** A save is asked for with the numbers the phone gave of the file, and chunks come as they are. Raw
      transfer inputs are the driver's to make, not the person's. */
  predicate HonestCommand(phone: Phone, d: Driver, c: Command)
    requires PhoneSound(phone)
  {
    match c
    case SaveFile(fileId, chunkTotal, chunkBytes, _) =>
      fileId in phone ==> chunkBytes == phone[fileId].chunkBytes && chunkTotal == Total(phone[fileId])
    case Through(input) => HonestInput(phone, d.client, input) && !input.Fetch?
    case _ => true
  }

  function Wants(wanted: Wanted, c: Command): Wanted {
    if c.SaveFile? then wanted + {(c.fileId, c.path)} else wanted
  }

  lemma {:induction false} HonestIsInKind(phone: Phone, c: Client, input: Input)
    requires PhoneSound(phone) && HonestInput(phone, c, input)
    ensures Honest(c, input)
  {
  }

  lemma {:induction false} CancelledHolds(phone: Phone, wanted: Wanted, start: Disk, d: Driver, env: Env, luck: Luck)
    requires PhoneSound(phone) && Sound(d.client) && Side(phone, wanted, start, d)
    ensures var e := Round(d, CancelFetch, env, luck).driver; Side(phone, wanted, start, e) && e.client.download.None?
  {
    hide Sound, OnlyWhole;
    var did := Step(d.client, CancelFetch, env);
    var next := d.(client := did.client);
    AbandonSafe(phone, wanted, start, next, luck);
    ShowKeepsClient(next, did.effects, luck);
    assert did.effects[1..] == [];
    var first := ShowEvent(next, did.effects[0].event, luck);
    assert ShowAll(first.driver, [], luck).driver == first.driver;
  }

  lemma {:induction false} FeedSide(phone: Phone, wanted: Wanted, start: Disk, d: Driver, input: Input, env: Env, luck: Luck)
    requires PhoneSound(phone) && Sound(d.client) && Side(phone, wanted, start, d) && Holds(phone, d)
    requires HonestInput(phone, d.client, input) && Prepared(phone, d, input)
    ensures var e := Feed(d, [input], FEED_ROUNDS, env, luck);
            Sound(e.client) && Side(phone, wanted, start, e) && Holds(phone, e)
  {
    hide Sound, Round, Side, Holds, HonestInput, Step;
    HonestIsInKind(phone, d.client, input);
    FeedIsTwoRounds(d, input, FEED_ROUNDS, env, luck);
    RoundSide(phone, wanted, start, d, input, env, luck);
    RoundCalls(d, input, env, luck);
    StepSound(d.client, input, env);
    var one := Round(d, input, env, luck);
    if one.answers != [] {
      var answer := one.answers[0];
      NotReceivedIsHonest(phone, one.driver.client, answer);
      HonestIsInKind(phone, one.driver.client, answer);
      RoundCalls(one.driver, answer, env, luck);
      StepSound(one.driver.client, answer, env);
      if answer == CancelFetch {
        CancelledHolds(phone, wanted, start, one.driver, env, luck);
        NoDownloadHolds(phone, Round(one.driver, answer, env, luck).driver);
      } else {
        AnswersAreNoFetch(d, input, env, luck);
        RoundSide(phone, wanted, start, one.driver, answer, env, luck);
      }
    }
  }

  lemma {:induction false} NotReceivedIsHonest(phone: Phone, c: Client, input: Input)
    requires PhoneSound(phone) && !input.Received?
    ensures HonestInput(phone, c, input)
  {
  }

  lemma {:induction false} AnswersAreNoFetch(d: Driver, input: Input, env: Env, luck: Luck)
    ensures forall i | 0 <= i < |Round(d, input, env, luck).answers| :: !Round(d, input, env, luck).answers[i].Fetch?
  {
    hide Step;
    var did := Step(d.client, input, env);
    ShowAnswersNoFetch(d.(client := did.client), did.effects, luck);
  }

  lemma {:induction false} ShowAnswersNoFetch(d: Driver, effects: seq<Effect>, luck: Luck)
    ensures forall i | 0 <= i < |ShowAll(d, effects, luck).answers| :: !ShowAll(d, effects, luck).answers[i].Fetch?
    decreases |effects|
  {
    hide WriteAt, ReadAt;
    if effects != [] {
      if effects[0].Send? {
        ShowAnswersNoFetch(d, effects[1..], luck);
      } else {
        ShowAnswersNoFetch(ShowEvent(d, effects[0].event, luck).driver, effects[1..], luck);
      }
    }
  }

  lemma {:induction false} MoreWanted(phone: Phone, wanted: Wanted, more: Wanted, start: Disk, d: Driver)
    requires PhoneSound(phone) && Side(phone, wanted, start, d) && wanted <= more
    ensures Side(phone, more, start, d)
  {
  }

  lemma {:induction false} SaveSide(phone: Phone, wanted: Wanted, start: Disk, d: Driver, c: Command, env: Env, luck: Luck)
    requires PhoneSound(phone) && Sound(d.client) && Side(phone, wanted, start, d) && Holds(phone, d)
    requires c.SaveFile? && HonestCommand(phone, d, c)
    ensures var e := StartSave(d, c, env, luck);
            Sound(e.client) && Side(phone, Wants(wanted, c), start, e) && Holds(phone, e)
  {
    hide Sound, OnlyWhole, Feed;
    MoreWanted(phone, wanted, Wants(wanted, c), start, d);
    if d.saving.None? && luck.creates {
      var partial := PartialName(c.path);
      var begun := d.(saving := Some(Saving(c.fileId, c.path, partial)), disk := d.disk[partial := []]);
      PartialWritten(phone, Wants(wanted, c), start, d.disk, c.fileId, c.path, []);
      FeedSide(phone, Wants(wanted, c), start, begun, Fetch(c.fileId, c.chunkTotal, c.chunkBytes), env, luck);
    }
  }

  /** Every command keeps it. */
  lemma {:induction false} ObeySide(phone: Phone, wanted: Wanted, start: Disk, d: Driver, c: Command, env: Env, luck: Luck)
    requires PhoneSound(phone) && Sound(d.client) && Side(phone, wanted, start, d) && Holds(phone, d) && HonestCommand(phone, d, c)
    ensures var e := Obey(d, c, env, luck);
            Sound(e.client) && Side(phone, Wants(wanted, c), start, e) && Holds(phone, e)
  {
    hide Sound, OnlyWhole, Feed, Progress, HonestInput, StartSave, ItemsOf;
    match c
    case SaveFile(_, _, _, _) => SaveSide(phone, wanted, start, d, c, env, luck);
    case CancelSave =>
      NotReceivedIsHonest(phone, d.client, CancelFetch);
      FeedSide(phone, wanted, start, d, CancelFetch, env, luck);
      CancelledAfterFeed(phone, wanted, start, d, env, luck);
      AbandonSafe(phone, wanted, start, Feed(d, [CancelFetch], FEED_ROUNDS, env, luck), luck);
    case SendFiles(chat, files, text) =>
      if d.sending.None? && luck.opens && AllThere(files, d.disk) && files != [] {
        var input := Input.Send(chat, ItemsOf(files, d.disk), text);
        NotReceivedIsHonest(phone, d.client, input);
        FeedSide(phone, wanted, start, d.(sending := Some(Sending(PathsOf(files), 0))), input, env, luck);
      }
    case CancelSending =>
      NotReceivedIsHonest(phone, d.client, CancelSend);
      FeedSide(phone, wanted, start, d.(sending := None), CancelSend, env, luck);
    case Through(input) => FeedSide(phone, wanted, start, d, input, env, luck);
  }

  lemma {:induction false} CancelledAfterFeed(phone: Phone, wanted: Wanted, start: Disk, d: Driver, env: Env, luck: Luck)
    requires PhoneSound(phone) && Sound(d.client) && Side(phone, wanted, start, d)
    ensures Feed(d, [CancelFetch], FEED_ROUNDS, env, luck).client.download.None?
  {
    hide Sound, Side, Round;
    FeedIsTwoRounds(d, CancelFetch, FEED_ROUNDS, env, luck);
    RoundCalls(d, CancelFetch, env, luck);
    CancelledHolds(phone, wanted, start, d, env, luck);
  }

  // ---- runs ----

  datatype Order = Order(command: Command, env: Env, luck: Luck)

  function Obeyed(d: Driver, run: seq<Order>): Driver
    decreases |run|
  {
    if run == [] then d else Obeyed(Obey(d, run[0].command, run[0].env, run[0].luck), run[1..])
  }

  predicate HonestRun(phone: Phone, d: Driver, run: seq<Order>)
    requires PhoneSound(phone)
    decreases |run|
  {
    run == [] ||
    (HonestCommand(phone, d, run[0].command) && HonestRun(phone, Obey(d, run[0].command, run[0].env, run[0].luck), run[1..]))
  }

  function WantedBy(wanted: Wanted, run: seq<Order>): Wanted
    decreases |run|
  {
    if run == [] then wanted else WantedBy(Wants(wanted, run[0].command), run[1..])
  }

  lemma {:induction false} RunSide(phone: Phone, wanted: Wanted, start: Disk, d: Driver, run: seq<Order>)
    requires PhoneSound(phone) && Sound(d.client) && Side(phone, wanted, start, d) && Holds(phone, d) && HonestRun(phone, d, run)
    ensures var e := Obeyed(d, run); Side(phone, WantedBy(wanted, run), start, e) && Holds(phone, e)
    decreases |run|
  {
    hide Sound, Side, Holds, Obey, HonestCommand;
    if run != [] {
      ObeySide(phone, wanted, start, d, run[0].command, run[0].env, run[0].luck);
      RunSide(phone, Wants(wanted, run[0].command), start, Obey(d, run[0].command, run[0].env, run[0].luck), run[1..]);
    }
  }

  function FreshDriver(address: CC.Address, disk: Disk): Driver {
    Driver(FromInvite(address), None, None, disk)
  }

  /** From the start of a terminal, over every run of commands, losses, handshakes, late and missing answers,
      failed writes, renames and removals: while a download lasts, the partial file holds exactly the first
      min(size, next * chunk) bytes of the phone's file; and a path under which no file that was to be saved grows
      holds what it held at the start, or the whole of a file somebody asked to save there. */
  lemma {:induction false} DownloadsAreWhole(phone: Phone, address: CC.Address, disk: Disk, run: seq<Order>)
    requires PhoneSound(phone) && HonestRun(phone, FreshDriver(address, disk), run)
    ensures var e := Obeyed(FreshDriver(address, disk), run);
            Holds(phone, e) && OnlyWhole(phone, WantedBy({}, run), disk, e.disk)
  {
    hide Holds, OnlyWhole, Obeyed;
    var d := FreshDriver(address, disk);
    FreshSound(phone, address, disk);
    RunSide(phone, {}, disk, d, run);
  }

  lemma {:induction false} FreshSound(phone: Phone, address: CC.Address, disk: Disk)
    requires PhoneSound(phone)
    ensures var d := FreshDriver(address, disk); Sound(d.client) && Side(phone, {}, disk, d) && Holds(phone, d)
  {
  }

  /** A first chunk can be asked for: there is one, there is a link with room, and the request fits. */
  predicate FirstGoesOut(d: Driver, c: Command, env: Env)
    requires c.SaveFile?
  {
    c.chunkTotal > 0 && d.client.link.session && !d.client.link.revoked && |d.client.link.outstanding| < MAX_OUTSTANDING &&
    env.fits(d.client.link.nextId, ChunkRequest(Download(c.fileId, 0, c.chunkTotal, c.chunkBytes, false)))
  }

  /** One command: a save begun by it has a download behind it exactly when the request for the first chunk went
      out. */
  lemma {:induction false} SaveStaysBegun(d: Driver, c: Command, env: Env, luck: Luck)
    requires c.SaveFile? && d.saving.None? && d.client.download.None? && luck.creates && Sound(d.client)
    ensures var e := StartSave(d, c, env, luck);
            e.saving.Some? &&
            (e.client.download.None? <==>
               !FirstGoesOut(d, c, env))
  {
    hide Sound, Round, ShowAll;
    var input := Fetch(c.fileId, c.chunkTotal, c.chunkBytes);
    var partial := PartialName(c.path);
    var begun := d.(saving := Some(Saving(c.fileId, c.path, partial)), disk := d.disk[partial := []]);
    FeedIsTwoRounds(begun, input, FEED_ROUNDS, env, luck);
    RoundCalls(begun, input, env, luck);
    FetchRound(begun, input, env, luck);
  }

  lemma {:induction false} FetchRound(d: Driver, input: Input, env: Env, luck: Luck)
    requires input.Fetch? && d.saving.Some? && d.client.download.None? && Sound(d.client)
    ensures var e := Round(d, input, env, luck).driver;
            e.saving == d.saving &&
            (e.client.download.None? <==>
               input.chunkTotal == 0 || !d.client.link.session || d.client.link.revoked ||
               |d.client.link.outstanding| >= MAX_OUTSTANDING ||
               !env.fits(d.client.link.nextId, ChunkRequest(Download(input.fileId, 0, input.chunkTotal, input.chunkBytes, false))))
  {
    hide Asks;
    var did := Step(d.client, input, env);
    var next := d.(client := did.client);
    StepMoves(d.client, input, env);
    ShowAllSide(next, next, did.effects, luck);
    ShowNone(next, luck);
    ShowKeepsClient(next, did.effects, luck);
    var r := ChunkRequest(Download(input.fileId, 0, input.chunkTotal, input.chunkBytes, false));
    assert did.effects == OnAsk(d.client.link, d.client.cache, r, env).effects || input.chunkTotal == 0;
    FetchGoesOut(d.client.link, d.client.cache, r, env);
  }

  lemma {:induction false} FetchGoesOut(l: Link, cache: CC.CacheState, r: Request, env: Env)
    requires r.FileChunk? && l.session == l.connected
    ensures AnySend(OnAsk(l, cache, r, env).effects) <==>
            l.session && !l.revoked && |l.outstanding| < MAX_OUTSTANDING && env.fits(l.nextId, r)
  {
    var a := OnAsk(l, cache, r, env);
    assert |a.effects| == 1;
    assert AnySend(a.effects) <==> a.effects[0].Send?;
  }
}
