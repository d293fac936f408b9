/** When a message may be begun: exactly when nothing still awaited of an earlier one can move it on. The answer
    to a chunk or to an offer does not say of which message it was, and is counted for the one being sent now. */
module CompanionLateAnswer {
  import opened Bytes
  import opened CompanionProtocol
  import opened CompanionProtocolLaws
  import opened CompanionDriver
  import opened CompanionDownload
  import opened CompanionFeed
  import opened CompanionPhone
  import opened CompanionUpload
  import opened CompanionUploadState
  import opened CompanionUploadFeed
  import opened CompanionUploadRuns
  import opened CompanionRuns
  import opened CompanionSpoiling
  import CC = CompanionCache

  // ---- what goes wrong ----

  /** Some message that was sent does not name the chosen files, whole. */
  ghost predicate Spoiled(w: World, src: map<Path, seq<Byte>>) {
    exists id | id in w.sent ::
      w.sent[id].request.FileSend? && !NamesWholeFiles(w.st, src, w.sent[id].request.fileIds, w.sent[id].paths)
  }

  /** Every message sent, over every continuation, names the chosen files, whole. */
  ghost predicate AlwaysWhole(w: World, src: map<Path, seq<Byte>>) {
    forall run | Fair(w, src, run) :: !Spoiled(Reached(w, run), src)
  }

  ghost predicate CanSpoil(w: World, src: map<Path, seq<Byte>>) {
    exists run :: Fair(w, src, run) && Spoiled(Reached(w, run), src)
  }

  lemma {:induction false} WholeOrSpoils(w: World, src: map<Path, seq<Byte>>)
    ensures AlwaysWhole(w, src) <==> !CanSpoil(w, src)
  {
    hide Spoiled;
  }

  lemma {:induction false} SpoiledAlready(w: World, src: map<Path, seq<Byte>>)
    requires StoreSound(w.st) && Steady(src, w.d.disk) && Spoiled(w, src)
    ensures CanSpoil(w, src)
  {
    hide Spoiled, StoreSound, Steady;
    assert Fair(w, src, []) && Reached(w, []) == w;
  }

  lemma {:induction false} StepSpoils(w: World, src: map<Path, seq<Byte>>, h: Happening)
    requires StoreSound(w.st) && Steady(src, w.d.disk) && May(w, src, h) && CanSpoil(Next(w, h), src)
    ensures CanSpoil(w, src)
  {
    hide Spoiled, StoreSound, Steady, Next, May;
    var run :| Fair(Next(w, h), src, run) && Spoiled(Reached(Next(w, h), run), src);
    assert ([h] + run)[0] == h && ([h] + run)[1..] == run;
    assert Fair(w, src, [h] + run) && Reached(w, [h] + run) == Reached(Next(w, h), run);
  }

  lemma {:induction false} AnsweredSpoils(w: World, src: map<Path, seq<Byte>>, id: nat, response: Response, after: Store)
    requires Booked(w) && Steady(src, w.d.disk) && id in w.d.client.link.outstanding
    requires Handles(w.st, id, w.d.client.link.outstanding[id], response, after) && CanSpoil(Answered(w, id, response, after), src)
    ensures CanSpoil(w, src)
  {
    hide CanSpoil, Handles, Sound, Steady, Feed, AfterDriver;
    BookedHandled(w, id, response, after);
    var handled := Next(w, Handled(id, response, after));
    StepSpoils(handled, src, Arrives(id, response, AGREEABLE, LUCKY));
    StepSpoils(w, src, Handled(id, response, after));
  }

  lemma {:induction false} WrongNumber(w: World, src: map<Path, seq<Byte>>, u: Upload, paths: seq<Path>, id: nat)
    requires Stage(w, src, u, paths) && u.at >= |u.items| && |u.ids| != |u.items| && OnRecord(w, id, NextAsk(u), paths)
    ensures CanSpoil(w, src)
  {
    hide CanSpoil, Sound, Steady;
    assert !NamesWholeFiles(w.st, src, u.ids, paths);
    SpoiledAlready(w, src);
  }

  // ---- ids the phone has left ----

  predicate Spare(st: Store, spare: seq<Id>, n: nat) {
    |spare| >= n && (forall i | 0 <= i < |spare| :: spare[i] !in st.made) && forall i, j | 0 <= i < j < |spare| :: spare[i] != spare[j]
  }

  lemma {:induction false} SpareAfter(st: Store, after: Store, spare: seq<Id>, n: nat)
    requires n > 0 && Spare(st, spare, n) && after.made.Keys == st.made.Keys + {spare[0]}
    ensures Spare(after, spare[1..], n - 1)
  {
    forall i | 0 <= i < |spare| - 1 ensures spare[1..][i] !in after.made {
      assert spare[1..][i] == spare[i + 1];
    }
  }

  // ---- a message that has lost its place goes on to the end ----

  /** An id taken for a file of which nothing was put, and nothing more will be. */
  predicate Hole(st: Store, u: Upload, i: nat)
    requires i < |u.ids|
  {
    var f := u.ids[i];
    f in st.made && st.made[f].total > 0 && f in st.have && st.have[f] == map[] && forall j | u.at <= j < |u.ids| :: u.ids[j] != f
  }

  /** One id too many, or one whose file was passed over. */
  predicate Astray(st: Store, u: Upload) {
    |u.ids| > u.at || exists i | 0 <= i < u.at && i < |u.ids| :: Hole(st, u, i)
  }

  predicate InStore(st: Store, u: Upload) {
    forall j | u.at <= j < |u.ids| :: u.ids[j] in st.have
  }

  lemma {:induction false} PlacedAstray(st: Store, u: Upload, id: nat, r: Request, f: Id, total: nat)
    requires Astray(st, u) && InStore(st, u) && f !in st.made && |u.ids| >= u.at
    ensures var v, after := Begun(u, f, total, WIDE).(at := u.at + 1), Placed(st, id, r, f, total);
            Astray(after, v) && InStore(after, v)
  {
    var v, after := Begun(u, f, total, WIDE).(at := u.at + 1), Placed(st, id, r, f, total);
    if |u.ids| == u.at {
      var i :| 0 <= i < u.at && i < |u.ids| && Hole(st, u, i);
      assert v.ids[i] == u.ids[i] && Hole(after, v, i);
    }
  }

  lemma {:induction false} FilledAstray(st: Store, u: Upload, id: nat, o: Request, f: Id, r: Request)
    requires Astray(st, u) && InStore(st, u) && f !in st.made && |u.ids| >= u.at
    requires var v := Begun(u, f, 1, WIDE); r.FilePut? && r.fileId == v.ids[u.at]
    ensures var placed, x := Placed(st, id, o, f, 1), Begun(u, f, 1, WIDE).(next := 1, at := u.at + 1);
            r.fileId in placed.have && Astray(Filled(placed, r), x) && InStore(Filled(placed, r), x)
  {
    var placed, x := Placed(st, id, o, f, 1), Begun(u, f, 1, WIDE).(next := 1, at := u.at + 1);
    if |u.ids| == u.at {
      var i :| 0 <= i < u.at && i < |u.ids| && Hole(st, u, i);
      assert x.ids[i] == u.ids[i] && Hole(Filled(placed, r), x, i);
    }
  }

  lemma {:induction false} EndsAstray(w: World, src: map<Path, seq<Byte>>, u: Upload, paths: seq<Path>, id: nat)
    requires Stage(w, src, u, paths) && u.at == |u.items| && Astray(w.st, u) && OnRecord(w, id, NextAsk(u), paths)
    ensures CanSpoil(w, src)
  {
    hide CanSpoil, Sound, Steady;
    if |u.ids| != |u.items| {
      WrongNumber(w, src, u, paths, id);
    } else {
      var i :| 0 <= i < u.at && i < |u.ids| && Hole(w.st, u, i);
      assert !NamesWholeFiles(w.st, src, u.ids, paths);
      SpoiledAlready(w, src);
    }
  }

  /** Answer by answer to the end, where the message goes out. */
  lemma {:induction false} GoesAstray(w: World, src: map<Path, seq<Byte>>, u: Upload, paths: seq<Path>, q: nat, spare: seq<Id>)
    requires Stage(w, src, u, paths) && u.at <= |u.items| && |u.ids| >= u.at && Astray(w.st, u) && InStore(w.st, u)
    requires q in w.d.client.link.outstanding && w.d.client.link.outstanding[q] == NextAsk(u)
    requires u.at == |u.items| ==> OnRecord(w, q, NextAsk(u), paths)
    requires Spare(w.st, spare, |u.items| - u.at)
    ensures CanSpoil(w, src)
    decreases |u.items| - u.at, 1
  {
    hide CanSpoil, Booked, Steady, Astray, InStore;
    if u.at == |u.items| {
      EndsAstray(w, src, u, paths, q);
    } else if u.items[u.at].sizeBytes == 0 {
      PastEmpty(w, src, u, paths, q, spare);
    } else {
      PastFull(w, src, u, paths, q, spare);
    }
  }

  lemma {:induction false} PastEmpty(w: World, src: map<Path, seq<Byte>>, u: Upload, paths: seq<Path>, q: nat, spare: seq<Id>)
    requires Stage(w, src, u, paths) && u.at < |u.items| && |u.ids| >= u.at && Astray(w.st, u) && InStore(w.st, u)
    requires q in w.d.client.link.outstanding && w.d.client.link.outstanding[q] == NextAsk(u)
    requires u.items[u.at].sizeBytes == 0 && Spare(w.st, spare, |u.items| - u.at)
    ensures CanSpoil(w, src)
    decreases |u.items| - u.at, 0
  {
    hide CanSpoil, Booked, Steady, Astray, InStore, Answered, Handles, KeepsOthers;
    var n, f, r := w.d.client.link.nextId, spare[0], w.d.client.link.outstanding[q];
    EmptyOffered(w, src, u, paths, q, f);
    PlacedAstray(w.st, u, q, r, f, 0);
    SpareAfter(w.st, Placed(w.st, q, r, f, 0), spare, |u.items| - u.at);
    GoesAstray(Answered(w, q, Response.FileOffer(f, 0, WIDE), Placed(w.st, q, r, f, 0)), src, Begun(u, f, 0, WIDE).(at := u.at + 1), paths, n, spare[1..]);
    AnsweredSpoils(w, src, q, Response.FileOffer(f, 0, WIDE), Placed(w.st, q, r, f, 0));
  }

  lemma {:induction false} PastFull(w: World, src: map<Path, seq<Byte>>, u: Upload, paths: seq<Path>, q: nat, spare: seq<Id>)
    requires Stage(w, src, u, paths) && u.at < |u.items| && |u.ids| >= u.at && Astray(w.st, u) && InStore(w.st, u)
    requires q in w.d.client.link.outstanding && w.d.client.link.outstanding[q] == NextAsk(u)
    requires u.items[u.at].sizeBytes > 0 && Spare(w.st, spare, |u.items| - u.at)
    ensures CanSpoil(w, src)
    decreases |u.items| - u.at, 0
  {
    hide CanSpoil, Booked, Steady, Astray, InStore, Answered, Handles, KeepsOthers;
    var n, f, r := w.d.client.link.nextId, spare[0], w.d.client.link.outstanding[q];
    FullOffered(w, src, u, paths, q, f);
    var v, placed := Begun(u, f, 1, WIDE), Answered(w, q, Response.FileOffer(f, 1, WIDE), Placed(w.st, q, r, f, 1));
    var bytes :| OnRecord(placed, n, Request.FilePut(v.ids[v.at], 0, bytes), paths);
    var put := Request.FilePut(v.ids[v.at], 0, bytes);
    FilledAstray(w.st, u, q, r, f, put);
    PutStored(placed, src, v, paths, n);
    SpareAfter(w.st, Filled(placed.st, put), spare, |u.items| - u.at);
    GoesAstray(Answered(placed, n, Response.Done, Filled(placed.st, put)), src, v.(next := 1, at := u.at + 1), paths,
               placed.d.client.link.nextId, spare[1..]);
    AnsweredSpoils(placed, src, n, Response.Done, Filled(placed.st, put));
    AnsweredSpoils(w, src, q, Response.FileOffer(f, 1, WIDE), Placed(w.st, q, r, f, 1));
  }

  // ---- a chunk of an earlier message counted ----

  lemma {:induction false} PassedOver(st: Store, u: Upload, id: nat, r: Request, f: Id)
    requires f !in st.made && |u.ids| + 1 == u.at
    ensures Astray(Placed(st, id, r, f, 1), Begun(u, f, 1, WIDE)) && InStore(Placed(st, id, r, f, 1), Begun(u, f, 1, WIDE))
  {
    assert Hole(Placed(st, id, r, f, 1), Begun(u, f, 1, WIDE), u.at - 1);
  }

  /** The upload stands one file ahead of its ids, with two offers on order. */
  lemma {:induction false} Ahead(w: World, src: map<Path, seq<Byte>>, u: Upload, paths: seq<Path>, p: nat, q: nat, spare: seq<Id>)
    requires Stage(w, src, u, paths) && |u.ids| + 1 == u.at < |u.items| && p != q
    requires p in w.d.client.link.outstanding && w.d.client.link.outstanding[p] == Offer(u.chat, u.items[u.at - 1])
    requires q in w.d.client.link.outstanding && w.d.client.link.outstanding[q] == Offer(u.chat, u.items[u.at])
    requires Spare(w.st, spare, |u.items| - u.at + 1)
    ensures CanSpoil(w, src)
    decreases |u.items| - u.at
  {
    hide CanSpoil, Booked, Steady, Astray, InStore, Answered, Handles;
    var n, f, r := w.d.client.link.nextId, spare[0], w.d.client.link.outstanding[p];
    if r.sizeBytes == 0 {
      EmptyOffered(w, src, u, paths, p, f);
      var v, after := Begun(u, f, 0, WIDE).(at := u.at + 1), Answered(w, p, Response.FileOffer(f, 0, WIDE), Placed(w.st, p, r, f, 0));
      SpareAfter(w.st, after.st, spare, |u.items| - u.at + 1);
      if v.at == |u.items| { WrongNumber(after, src, v, paths, n); } else {
        NumbersBelow(w, q);
        Ahead(after, src, v, paths, q, n, spare[1..]);
      }
      AnsweredSpoils(w, src, p, Response.FileOffer(f, 0, WIDE), Placed(w.st, p, r, f, 0));
    } else {
      FullOffered(w, src, u, paths, p, f);
      PassedOver(w.st, u, p, r, f);
      var after := Answered(w, p, Response.FileOffer(f, 1, WIDE), Placed(w.st, p, r, f, 1));
      SpareAfter(w.st, after.st, spare, |u.items| - u.at + 1);
      GoesAstray(after, src, Begun(u, f, 1, WIDE), paths, q, spare[1..]);
      AnsweredSpoils(w, src, p, Response.FileOffer(f, 1, WIDE), Placed(w.st, p, r, f, 1));
    }
  }

  lemma {:induction false} NumbersBelow(w: World, q: nat)
    requires Booked(w) && q in w.d.client.link.outstanding
    ensures q < w.d.client.link.nextId
  {
  }

  // ---- an offer of an earlier message answered ----

  lemma {:induction false} OneTooMany(st: Store, u: Upload, id: nat, r: Request, f: Id, total: nat)
    requires |u.ids| == u.at + 1
    ensures var v, after := Begun(u, f, total, WIDE).(at := u.at + 1), Placed(st, id, r, f, total);
            Astray(after, v) && InStore(after, v)
  {
  }

  /** An empty file offered twice over: the upload is one id ahead. */
  lemma {:induction false} EmptyAfter(w: World, src: map<Path, seq<Byte>>, u: Upload, paths: seq<Path>, q: nat, spare: seq<Id>)
    requires Stage(w, src, u, paths) && |u.ids| == u.at + 1 <= |u.items| && q in w.d.client.link.outstanding
    requires w.d.client.link.outstanding[q].FileOffer? && w.d.client.link.outstanding[q].sizeBytes == 0
    requires Spare(w.st, spare, |u.items| - u.at)
    ensures CanSpoil(w, src)
  {
    hide CanSpoil, Booked, Steady, Astray, InStore, Answered, Handles, KeepsOthers;
    var n, f, r := w.d.client.link.nextId, spare[0], w.d.client.link.outstanding[q];
    EmptyOffered(w, src, u, paths, q, f);
    OneTooMany(w.st, u, q, r, f, 0);
    SpareAfter(w.st, Placed(w.st, q, r, f, 0), spare, |u.items| - u.at);
    GoesAstray(Answered(w, q, Response.FileOffer(f, 0, WIDE), Placed(w.st, q, r, f, 0)), src, Begun(u, f, 0, WIDE).(at := u.at + 1), paths, n, spare[1..]);
    AnsweredSpoils(w, src, q, Response.FileOffer(f, 0, WIDE), Placed(w.st, q, r, f, 0));
  }

  /** Two places for files with something in them, and a chunk of the first on order: its answer ends the second. */
  lemma {:induction false} FullAfter(w: World, src: map<Path, seq<Byte>>, u: Upload, paths: seq<Path>, put: nat, p: nat, spare: seq<Id>)
    requires Stage(w, src, u, paths) && |u.ids| == u.at + 1 <= |u.items| && put != p
    requires put in w.d.client.link.outstanding && w.d.client.link.outstanding[put].FilePut? && p in w.d.client.link.outstanding
    requires w.d.client.link.outstanding[p].FileOffer? && w.d.client.link.outstanding[p].sizeBytes > 0
    requires w.d.client.link.outstanding[put].fileId in w.st.have && Spare(w.st, spare, |u.items| - u.at)
    ensures CanSpoil(w, src)
  {
    hide CanSpoil, Booked, Steady, Answered, Handles, InStore, Astray;
    var g, o, r := spare[0], w.d.client.link.outstanding[p], w.d.client.link.outstanding[put];
    FullOffered(w, src, u, paths, p, g);
    var v, after := Begun(u, g, 1, WIDE), Answered(w, p, Response.FileOffer(g, 1, WIDE), Placed(w.st, p, o, g, 1));
    PutStored(after, src, v, paths, put);
    var x := v.(next := 1, at := u.at + 1);
    SpareAfter(w.st, Filled(after.st, r), spare, |u.items| - u.at);
    SecondInStore(w.st, u, p, o, g, r);
    GoesAstray(Answered(after, put, Response.Done, Filled(after.st, r)), src, x, paths, after.d.client.link.nextId, spare[1..]);
    AnsweredSpoils(after, src, put, Response.Done, Filled(after.st, r));
    AnsweredSpoils(w, src, p, Response.FileOffer(g, 1, WIDE), Placed(w.st, p, o, g, 1));
  }

  lemma {:induction false} SecondInStore(st: Store, u: Upload, id: nat, o: Request, g: Id, r: Request)
    requires |u.ids| == u.at + 1 && r.FilePut? && r.fileId in st.have
    ensures var placed, x := Placed(st, id, o, g, 1), Begun(u, g, 1, WIDE).(next := 1, at := u.at + 1);
            r.fileId in placed.have && Astray(Filled(placed, r), x) && InStore(Filled(placed, r), x)
  {
  }

  /** Two offers on order where one is due. */
  lemma {:induction false} Doubled(w: World, src: map<Path, seq<Byte>>, u: Upload, paths: seq<Path>, p: nat, q: nat, spare: seq<Id>)
    requires Stage(w, src, u, paths) && |u.ids| == u.at < |u.items| && p != q
    requires p in w.d.client.link.outstanding && w.d.client.link.outstanding[p].FileOffer?
    requires q in w.d.client.link.outstanding && w.d.client.link.outstanding[q] == Offer(u.chat, u.items[u.at])
    requires Spare(w.st, spare, |u.items| - u.at + 1)
    ensures CanSpoil(w, src)
    decreases |u.items| - u.at
  {
    hide CanSpoil, Booked, Steady, Answered, Handles;
    var n, f := w.d.client.link.nextId, spare[0];
    var o, r := w.d.client.link.outstanding[p], w.d.client.link.outstanding[q];
    if r.sizeBytes > 0 {
      FullOffered(w, src, u, paths, q, f);
      var v, after := Begun(u, f, 1, WIDE), Answered(w, q, Response.FileOffer(f, 1, WIDE), Placed(w.st, q, r, f, 1));
      SpareAfter(w.st, after.st, spare, |u.items| - u.at + 1);
      if o.sizeBytes > 0 {
        NumbersBelow(w, p);
        FullAfter(after, src, v, paths, n, p, spare[1..]);
      } else {
        EmptyAfter(after, src, v, paths, p, spare[1..]);
      }
      AnsweredSpoils(w, src, q, Response.FileOffer(f, 1, WIDE), Placed(w.st, q, r, f, 1));
    } else if o.sizeBytes > 0 {
      FullOffered(w, src, u, paths, p, f);
      var v, after := Begun(u, f, 1, WIDE), Answered(w, p, Response.FileOffer(f, 1, WIDE), Placed(w.st, p, o, f, 1));
      SpareAfter(w.st, after.st, spare, |u.items| - u.at + 1);
      EmptyAfter(after, src, v, paths, q, spare[1..]);
      AnsweredSpoils(w, src, p, Response.FileOffer(f, 1, WIDE), Placed(w.st, p, o, f, 1));
    } else {
      EmptyOffered(w, src, u, paths, p, f);
      var v, after := Begun(u, f, 0, WIDE).(at := u.at + 1), Answered(w, p, Response.FileOffer(f, 0, WIDE), Placed(w.st, p, o, f, 0));
      SpareAfter(w.st, after.st, spare, |u.items| - u.at + 1);
      if v.at == |u.items| {
        BothEmpty(after, src, v, paths, q, spare[1..]);
      } else {
        NumbersBelow(w, q);
        Doubled(after, src, v, paths, q, n, spare[1..]);
      }
      AnsweredSpoils(w, src, p, Response.FileOffer(f, 0, WIDE), Placed(w.st, p, o, f, 0));
    }
  }

  /** Everything sent, and an offer of an empty file still to be answered: the message goes out again. */
  lemma {:induction false} BothEmpty(w: World, src: map<Path, seq<Byte>>, u: Upload, paths: seq<Path>, q: nat, spare: seq<Id>)
    requires Stage(w, src, u, paths) && |u.ids| == u.at == |u.items| && q in w.d.client.link.outstanding
    requires w.d.client.link.outstanding[q].FileOffer? && w.d.client.link.outstanding[q].sizeBytes == 0 && Spare(w.st, spare, 1)
    ensures CanSpoil(w, src)
  {
    hide CanSpoil, Booked, Steady, Answered, Handles, KeepsOthers;
    var n, f, r := w.d.client.link.nextId, spare[0], w.d.client.link.outstanding[q];
    EmptyOffered(w, src, u, paths, q, f);
    var v, after := Begun(u, f, 0, WIDE).(at := u.at + 1), Answered(w, q, Response.FileOffer(f, 0, WIDE), Placed(w.st, q, r, f, 0));
    WrongNumber(after, src, v, paths, n);
    AnsweredSpoils(w, src, q, Response.FileOffer(f, 0, WIDE), Placed(w.st, q, r, f, 0));
  }

  // ---- the condition, exactly ----

  /** A message that has just been begun, with its first file offered. */
  lemma {:induction false} BegunStage(w: World, src: map<Path, seq<Byte>>, command: Command, env: Env, luck: Luck)
    requires Good(w, src) && command.SendFiles? && w.d.sending.None? && Steady(src, w.d.disk) && |command.text| <= MAX_TEXT_BYTES
    requires forall i | 0 <= i < |command.files| :: command.files[i].path in src
    requires Next(w, Does(command, env, luck)).d.client.upload.Some?
    ensures AllThere(command.files, w.d.disk) && command.files != []
    ensures var begun, items := Next(w, Does(command, env, luck)), ItemsOf(command.files, w.d.disk);
            Stage(begun, src, Upload(command.chat, items, 0, [], 0, 0, 0, command.text, false), PathsOf(command.files)) &&
            begun.st == w.st && begun.replies == w.replies &&
            Busy(begun.d.client.link) == Busy(w.d.client.link)[w.d.client.link.nextId := Offer(command.chat, items[0])]
  {
    hide Sound, StoreSound, Steady, Well, OwnersSound, ContentSound, OwnersSpent, ListsSound, EarlierQuiet, RepliesSound, Believable, Feed, Busy;
    NoneWithoutPaths(w, src);
    BookedGood(w, src);
    var items := ItemsOf(command.files, w.d.disk);
    var sending := w.d.(sending := Some(Sending(PathsOf(command.files), 0)));
    var input := Input.Send(command.chat, items, command.text);
    SendRound(sending, command.chat, items, command.text, env, luck);
    NotReceivedHonest(w.d.client, input);
    FeedGrew(sending, input, env, luck);
    var e := Feed(sending, [input], FEED_ROUNDS, env, luck);
    SendKeepsDisk(sending, input, env, luck);
    BookedAfter(Opening(w, command), e);
  }

  lemma {:induction false} BookedGood(w: World, src: map<Path, seq<Byte>>)
    requires Good(w, src)
    ensures Booked(w)
  {
  }

  lemma {:induction false} SendKeepsDisk(d: Driver, input: Input, env: Env, luck: Luck)
    requires Sound(d.client) && input.Send? && d.client.upload.None? && input.items != []
    ensures Feed(d, [input], FEED_ROUNDS, env, luck).disk == d.disk
  {
    hide Sound, Step, OnSend, LinkSound;
    NotReceivedHonest(d.client, input);
    FeedIsTwoRounds(d, input, FEED_ROUNDS, env, luck);
    LinkOfSound(d.client);
    SendBegins(d.client, input.chat, input.items, input.text, env);
    SendStep(d.client, input.chat, input.items, input.text, env);
    var did := Step(d.client, input, env);
    ShowNothing(d.(client := did.client), did.effects, luck);
  }

  /** Begun while something can still move it on, a message can be made to name the wrong files: by a phone that
      answers truly, and by nothing but its answers. */
  lemma {:induction false} NotQuietSpoils(w: World, src: map<Path, seq<Byte>>, command: Command, env: Env, luck: Luck, spare: seq<Id>)
    requires Good(w, src) && command.SendFiles? && w.d.sending.None? && Steady(src, w.d.disk) && |command.text| <= MAX_TEXT_BYTES
    requires forall i | 0 <= i < |command.files| :: command.files[i].path in src
    requires Next(w, Does(command, env, luck)).d.client.upload.Some? && Spare(w.st, spare, |command.files| + 1) && !Quiet(w)
    ensures CanSpoil(Next(w, Does(command, env, luck)), src)
  {
    hide Good, CanSpoil, Steady, Booked, Next, Spare;
    BegunStage(w, src, command, env, luck);
    var begun, items := Next(w, Does(command, env, luck)), ItemsOf(command.files, w.d.disk);
    var u := Upload(command.chat, items, 0, [], 0, 0, 0, command.text, false);
    var p :| p in w.d.client.link.outstanding && MayMove(w, p);
    var q, r := w.d.client.link.nextId, w.d.client.link.outstanding[p];
    BookedGood(w, src);
    NumbersBelow(w, p);
    assert p in Busy(begun.d.client.link) && q in Busy(begun.d.client.link);
    if r.FileOffer? {
      Doubled(begun, src, u, PathsOf(command.files), p, q, spare);
    } else {
      Counted(begun, src, u, PathsOf(command.files), p, q, spare);
    }
  }

  /** The earlier chunk counts for the first file, of which not even a place has been made. */
  lemma {:induction false} Counted(w: World, src: map<Path, seq<Byte>>, u: Upload, paths: seq<Path>, p: nat, q: nat, spare: seq<Id>)
    requires Stage(w, src, u, paths) && u.at == 0 && u.ids == [] && u.next == 0 && u.total == 0 && u.items != [] && p != q
    requires p in w.d.client.link.outstanding && w.d.client.link.outstanding[p].FilePut? && MayMove(w, p)
    requires q in w.d.client.link.outstanding && w.d.client.link.outstanding[q] == Offer(u.chat, u.items[0])
    requires Spare(w.st, spare, |u.items| + 1)
    ensures CanSpoil(w, src)
  {
    hide CanSpoil, Booked, Steady, Answered, Handles, Feed, AfterDriver;
    var r := w.d.client.link.outstanding[p];
    var v := u.(next := 1, at := 1);
    if r.fileId in w.st.have {
      PutStored(w, src, u, paths, p);
      FirstIsPassed(w, Answered(w, p, Response.Done, Filled(w.st, r)), src, v, paths, p, q, spare);
      AnsweredSpoils(w, src, p, Response.Done, Filled(w.st, r));
    } else {
      DoneArrives(w, src, u, paths, p);
      FirstIsPassed(w, Next(w, Arrives(p, Response.Done, AGREEABLE, LUCKY)), src, v, paths, p, q, spare);
      BookedParts(w);
      StepSpoils(w, src, Arrives(p, Response.Done, AGREEABLE, LUCKY));
    }
  }

  lemma {:induction false} FirstIsPassed(w: World, after: World, src: map<Path, seq<Byte>>, v: Upload, paths: seq<Path>, p: nat, q: nat, spare: seq<Id>)
    requires Stage(after, src, v, paths) && v.at == 1 && v.ids == [] && v.items != [] && p != q && Booked(w)
    requires q in w.d.client.link.outstanding && w.d.client.link.outstanding[q] == Offer(v.chat, v.items[0])
    requires KeepsOthers(w.d.client.link, after.d.client.link, p) && OnRecord(after, w.d.client.link.nextId, NextAsk(v), paths)
    requires Spare(after.st, spare, |v.items|)
    ensures CanSpoil(after, src)
  {
    hide CanSpoil, Booked, Steady;
    if |v.items| == 1 {
      WrongNumber(after, src, v, paths, w.d.client.link.nextId);
    } else {
      NumbersBelow(w, q);
      Ahead(after, src, v, paths, q, w.d.client.link.nextId, spare);
    }
  }

  /** Begun while all is quiet, it names the chosen files, whole, however the run goes on. */
  lemma {:induction false} QuietIsSafe(w: World, src: map<Path, seq<Byte>>, command: Command, env: Env, luck: Luck)
    requires Good(w, src) && command.SendFiles? && w.d.sending.None? && Steady(src, w.d.disk) && Quiet(w)
    requires forall i | 0 <= i < |command.files| :: command.files[i].path in src
    ensures !CanSpoil(Next(w, Does(command, env, luck)), src)
  {
    hide Good, Steady, Next;
    GoodStore(w, src);
    NextGood(w, src, Does(command, env, luck));
    var begun := Next(w, Does(command, env, luck));
    forall run | Fair(begun, src, run) ensures !Spoiled(Reached(begun, run), src) {
      RunGood(begun, src, run);
      GoodIsWhole(Reached(begun, run), src);
    }
  }

  lemma {:induction false} GoodIsWhole(w: World, src: map<Path, seq<Byte>>)
    requires Good(w, src)
    ensures !Spoiled(w, src)
  {
    hide NamesWholeFiles, Sound, Well, WaitingSound, RepliesSound, OwnersSpent, ListsSound, OwnersSound, ContentSound, StoreSound, EarlierQuiet;
    forall id | id in w.sent && w.sent[id].request.FileSend?
      ensures NamesWholeFiles(w.st, src, w.sent[id].request.fileIds, w.sent[id].paths)
    {
      SentIsWhole(w, src, w.sent[id]);
    }
  }

  /** Every message sent over every continuation of one just begun names the chosen files, whole, if and only if
      no answer still awaited could move it on: no earlier offer, and no earlier chunk but of a file the phone has
      forgotten. An earlier message that went out and was not answered does no harm. */
  lemma {:induction false} SafeIffQuiet(w: World, src: map<Path, seq<Byte>>, command: Command, env: Env, luck: Luck, spare: seq<Id>)
    requires Good(w, src) && command.SendFiles? && w.d.sending.None? && Steady(src, w.d.disk) && |command.text| <= MAX_TEXT_BYTES
    requires forall i | 0 <= i < |command.files| :: command.files[i].path in src
    requires Next(w, Does(command, env, luck)).d.client.upload.Some? && Spare(w.st, spare, |command.files| + 1)
    ensures var begun := Next(w, Does(command, env, luck));
            AlwaysWhole(begun, src) <==> Quiet(w)
  {
    hide Good, Steady, Next, Spoiled, Quiet, AlwaysWhole, CanSpoil;
    WholeOrSpoils(Next(w, Does(command, env, luck)), src);
    if Quiet(w) { QuietIsSafe(w, src, command, env, luck); } else { NotQuietSpoils(w, src, command, env, luck, spare); }
  }

  /** What the terminal itself can see: nothing on order is an offer or a chunk. */
  predicate Clear(l: Link) {
    forall id | id in l.outstanding :: !l.outstanding[id].FileOffer? && !l.outstanding[id].FilePut?
  }

  /** A phone that has forgotten no file of which a chunk is still on order. */
  predicate Remembers(w: World) {
    forall id | id in w.d.client.link.outstanding && w.d.client.link.outstanding[id].FilePut? ::
      w.d.client.link.outstanding[id].fileId in w.st.have
  }

  /** By what the terminal can see: a clear link is always enough, and with a phone that remembers it is needed. */
  lemma {:induction false} SafeIffClear(w: World, src: map<Path, seq<Byte>>, command: Command, env: Env, luck: Luck, spare: seq<Id>)
    requires Good(w, src) && command.SendFiles? && w.d.sending.None? && Steady(src, w.d.disk) && |command.text| <= MAX_TEXT_BYTES
    requires forall i | 0 <= i < |command.files| :: command.files[i].path in src
    requires Next(w, Does(command, env, luck)).d.client.upload.Some? && Spare(w.st, spare, |command.files| + 1)
    ensures var begun := Next(w, Does(command, env, luck));
            (Clear(w.d.client.link) ==> AlwaysWhole(begun, src)) &&
            (Remembers(w) ==> (Clear(w.d.client.link) <==> AlwaysWhole(begun, src)))
  {
    hide Good, Steady, Next, AlwaysWhole;
    SafeIffQuiet(w, src, command, env, luck, spare);
    ClearIsQuiet(w);
  }

  lemma {:induction false} ClearIsQuiet(w: World)
    ensures Clear(w.d.client.link) ==> Quiet(w)
    ensures Remembers(w) && Quiet(w) ==> Clear(w.d.client.link)
  {
    if Remembers(w) && Quiet(w) {
      forall id | id in w.d.client.link.outstanding
        ensures !w.d.client.link.outstanding[id].FileOffer? && !w.d.client.link.outstanding[id].FilePut?
      {
        assert !MayMove(w, id);
      }
    }
  }
}
