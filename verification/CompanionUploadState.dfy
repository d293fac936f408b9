/** What holds of an upload between the terminal's inputs, and what each move of it keeps. */
module CompanionUploadState {
  import opened Bytes
  import opened CompanionProtocol
  import opened CompanionProtocolLaws
  import opened CompanionDriver
  import opened CompanionPhone
  import opened CompanionUpload

  /** The chosen files as they are on disk, for which of them each id was taken, and the number from which on
      requests belong to the message being sent. */
  datatype Chosen = Chosen(src: map<Path, seq<Byte>>, owner: map<Id, Path>, begun: nat)

  /** The upload requests on order from a number on; earlier ones are of messages given up. */
  function Owed(l: Link, begun: nat): (owed: map<nat, Request>)
    ensures forall id :: id in owed <==> id in Busy(l) && id >= begun
    ensures forall id | id in owed :: owed[id] == Busy(l)[id]
  {
    map id | id in Busy(l) && id >= begun :: Busy(l)[id]
  }

  lemma {:induction false} OwedFewer(l: Link, m: Link, begun: nat)
    requires Fewer(Busy(l), Busy(m))
    ensures Fewer(Owed(l, begun), Owed(m, begun))
  {
  }

  lemma {:induction false} OwedNone(l: Link, begun: nat)
    requires Busy(l) == map[]
    ensures Owed(l, begun) == map[]
  {
  }

  lemma {:induction false} OwedSame(l: Link, m: Link, begun: nat)
    requires Busy(m) == Busy(l)
    ensures Owed(m, begun) == Owed(l, begun)
  {
  }

  lemma {:induction false} OwedMore(l: Link, m: Link, begun: nat, id: nat, r: Request)
    requires Busy(m) == Busy(l)[id := r] && id >= begun
    ensures Owed(m, begun) == Owed(l, begun)[id := r]
  {
    assert forall other :: other in Busy(m) <==> other in Busy(l) || other == id;
  }

  lemma {:induction false} OwedWithout(l: Link, m: Link, begun: nat, id: nat)
    requires Busy(m) == Busy(l) - {id}
    ensures Owed(m, begun) == Owed(l, begun) - {id}
  {
  }

  predicate Owns(ch: Chosen, st: Store, fid: Id) {
    fid in ch.owner && fid in st.made && ch.owner[fid] in ch.src && st.made[fid].offer.FileOffer? &&
    |ch.src[ch.owner[fid]]| == st.made[fid].offer.sizeBytes
  }

  predicate OwnersSound(ch: Chosen, st: Store) {
    forall fid | fid in ch.owner :: Owns(ch, st, fid)
  }

  /** The files being sent are the items of the message, in order, and as large as was offered. */
  predicate Matches(u: Upload, paths: seq<Path>, ch: Chosen) {
    |paths| == |u.items| && u.items != [] &&
    forall i | 0 <= i < |u.items| :: paths[i] in ch.src && |ch.src[paths[i]]| == u.items[i].sizeBytes
  }

  /** The ids taken so far are for the first of the files, one each, in order. */
  predicate Taken(u: Upload, paths: seq<Path>, ch: Chosen) {
    |u.ids| <= |u.items| == |paths| && forall i | 0 <= i < |u.ids| :: u.ids[i] in ch.owner && ch.owner[u.ids[i]] == paths[i]
  }

  predicate SlicedAsLast(u: Upload, st: Store) {
    u.ids != [] ==> u.ids[|u.ids| - 1] in st.made && u.chunkBytes == st.made[u.ids[|u.ids| - 1]].chunkBytes
  }

  /** All but the last file begun are wholly on the phone; and so is the last, unless the slicing known is its own. */
  predicate EarlierWhole(u: Upload, st: Store) {
    (forall i | 0 <= i < |u.ids| :: u.ids[i] in st.made) && (forall i | 0 <= i < |u.ids| - 1 :: Whole(st, u.ids[i])) &&
    (SlicedAsLast(u, st) || Whole(st, u.ids[|u.ids| - 1]))
  }

  predicate Static(u: Upload, paths: seq<Path>, ch: Chosen, st: Store) {
    Matches(u, paths, ch) && Taken(u, paths, ch) && EarlierWhole(u, st)
  }

  predicate AllWhole(u: Upload, st: Store) {
    forall i | 0 <= i < |u.ids| :: Whole(st, u.ids[i])
  }

  /** A place is asked for. */
  predicate Offering(u: Upload, st: Store) {
    u.at == |u.ids| < |u.items| && AllWhole(u, st)
  }

  /** The last file begun is being put, chunk after chunk. */
  predicate Putting(u: Upload, st: Store) {
    u.at + 1 == |u.ids| && SlicedAsLast(u, st) && u.total == st.made[u.ids[u.at]].total && u.next < u.total &&
    HasBelow(st, u.ids[u.at], u.next)
  }

  /** Everything is there, and the message may go. */
  predicate Ready(u: Upload, st: Store) {
    u.at == |u.items| == |u.ids| && AllWhole(u, st)
  }

  /** What a request of the upload may be, as it stands. */
  predicate Expected(u: Upload, ch: Chosen, st: Store, r: Request) {
    match r
    case FileOffer(_, _, _, _) => Offering(u, st) && r == Offer(u.chat, u.items[u.at])
    case FilePut(fid, index, bytes) =>
      Putting(u, st) && fid == u.ids[u.at] && index == u.next && fid in ch.owner && ch.owner[fid] in ch.src &&
      bytes == Slice(ch.src[ch.owner[fid]], index, st.made[fid].chunkBytes)
    case FileSend(fileIds, _) => Ready(u, st) && fileIds == u.ids
    case _ => true
  }

  predicate AtMostOne(busy: map<nat, Request>) {
    forall a, b | a in busy && b in busy :: a == b
  }

  /** A live upload is in one of its three phases, with at most the one request that belongs to it on order;
      a waiting one has none. */
  predicate Paced(u: Upload, busy: map<nat, Request>, ch: Chosen, st: Store) {
    if u.stalled then busy == map[]
    else
      (Offering(u, st) || Putting(u, st) || Ready(u, st)) && AtMostOne(busy) && forall id | id in busy :: Expected(u, ch, st, busy[id])
  }

  predicate Going(u: Upload, busy: map<nat, Request>, paths: seq<Path>, ch: Chosen, st: Store) {
    Static(u, paths, ch, st) && Paced(u, busy, ch, st)
  }

  // ---- moves ----

  lemma {:induction false} FewerGoes(u: Upload, busy: map<nat, Request>, fewer: map<nat, Request>, paths: seq<Path>, ch: Chosen, st: Store)
    requires Going(u, busy, paths, ch, st) && Fewer(fewer, busy)
    ensures Going(u, fewer, paths, ch, st)
  {
    hide Expected, Static;
    if u.stalled { assert fewer == map[]; }
  }

  lemma {:induction false} WaitingGoes(u: Upload, busy: map<nat, Request>, paths: seq<Path>, ch: Chosen, st: Store)
    requires Going(u, busy, paths, ch, st)
    ensures Going(u.(stalled := true), map[], paths, ch, st)
  {
  }

  /** The answered request was the only one. */
  lemma {:induction false} OnlyOne(busy: map<nat, Request>, id: nat)
    requires AtMostOne(busy) && id in busy
    ensures busy - {id} == map[]
  {
    assert forall other | other in busy :: other == id;
  }

  /** The upload after its next request, or without it. */
  lemma {:induction false} NextGoes(u: Upload, id: nat, busy: map<nat, Request>, paths: seq<Path>, ch: Chosen, st: Store)
    requires Static(u, paths, ch, st) && !u.stalled && (Offering(u, st) || Ready(u, st))
    requires busy == map[] || busy == map[id := NextAsk(u)]
    ensures Going(u, busy, paths, ch, st)
  {
  }

  /** A place was made for the file that was offered. */
  lemma {:induction false} BegunGoes(u: Upload, id: nat, asked: Request, fid: Id, chunkTotal: nat, chunkBytes: u64, paths: seq<Path>,
                                     ch: Chosen, st: Store)
    requires Static(u, paths, ch, st) && Offering(u, st) && asked == Offer(u.chat, u.items[u.at]) && StoreSound(st)
    requires fid in st.made && st.made[fid] == Made(id, asked, chunkTotal, chunkBytes) && fid !in ch.owner
    ensures var v, more := Begun(u, fid, chunkTotal, chunkBytes), ch.(owner := ch.owner[fid := paths[u.at]]);
            Static(v, paths, more, st) && Owns(more, st, fid) &&
            (if chunkTotal == 0 then Whole(st, fid) && AllWhole(v, st) else Putting(v, st))
  {
    var v, more := Begun(u, fid, chunkTotal, chunkBytes), ch.(owner := ch.owner[fid := paths[u.at]]);
    assert MadeSound(st.made[fid]);
    forall i | 0 <= i < |v.ids| ensures v.ids[i] in more.owner && more.owner[v.ids[i]] == paths[i] {
      if i < |u.ids| { assert v.ids[i] == u.ids[i]; }
    }
    forall i | 0 <= i < |v.ids| - 1 ensures Whole(st, v.ids[i]) {
      assert v.ids[i] == u.ids[i];
    }
  }

  /** A chunk was put away. */
  lemma {:induction false} PutGoes(u: Upload, fid: Id, paths: seq<Path>, ch: Chosen, st: Store)
    requires Static(u, paths, ch, st) && Putting(u, st) && fid == u.ids[u.at] && Has(st, fid, u.next)
    ensures var v := u.(next := u.next + 1);
            Static(v, paths, ch, st) && (if v.next < v.total then Putting(v, st) else AllWhole(v, st))
  {
    var v := u.(next := u.next + 1);
    assert HasBelow(st, fid, v.next);
    if v.next >= v.total {
      forall i | 0 <= i < |v.ids| ensures Whole(st, v.ids[i]) {
        if i == |v.ids| - 1 { assert v.ids[i] == fid; }
      }
    }
  }

  /** Everything begun is whole: on to the next file, or to the message. */
  lemma {:induction false} OnwardGoes(u: Upload, id: nat, busy: map<nat, Request>, paths: seq<Path>, ch: Chosen, st: Store)
    requires Static(u, paths, ch, st) && !u.stalled && u.at + 1 == |u.ids| && AllWhole(u, st)
    requires var v := u.(at := u.at + 1); busy == map[] || busy == map[id := NextAsk(v)]
    ensures Going(u.(at := u.at + 1), busy, paths, ch, st)
  {
    var v := u.(at := u.at + 1);
    assert AllWhole(v, st) && Static(v, paths, ch, st);
    NextGoes(v, id, busy, paths, ch, st);
  }

  // ---- taking up again ----

  predicate ListsNothingMissing(files: seq<StagedFile>, fid: Id) {
    FindStaged(files, fid).Some? ==> FindStaged(files, fid).value.missing == []
  }

  /** What a list of staged files says of a waiting upload: nothing missing of any file but the last, nor of
      that one unless the slicing known is its own. */
  predicate ListsEarlier(u: Upload, files: seq<StagedFile>, st: Store) {
    (forall i | 0 <= i < |u.ids| - 1 :: ListsNothingMissing(files, u.ids[i])) &&
    (SlicedAsLast(u, st) || ListsNothingMissing(files, u.ids[|u.ids| - 1]))
  }

  /** So the phone answers, if asked when the earlier files were whole. */
  lemma {:induction false} StagedListsEarlier(u: Upload, files: seq<StagedFile>, st: Store)
    requires StoreSound(st) && TellsStaged(st, files) && EarlierWhole(u, st)
    ensures ListsEarlier(u, files, st)
  {
    forall i | 0 <= i < |u.ids| - 1 ensures ListsNothingMissing(files, u.ids[i]) {
      WholeMissesNothing(st, files, u.ids[i]);
    }
    if !SlicedAsLast(u, st) { WholeMissesNothing(st, files, u.ids[|u.ids| - 1]); }
  }

  lemma {:induction false} FoundIsTrue(st: Store, files: seq<StagedFile>, fid: Id)
    requires TrueStaged(st, files) && FindStaged(files, fid).Some?
    ensures TrueFile(st, FindStaged(files, fid).value) && FindStaged(files, fid).value.fileId == fid
  {
    FoundIsListed(files, fid);
  }

  lemma {:induction false} UnfinishedTells(u: Upload, files: seq<StagedFile>, at: nat, st: Store)
    requires TrueStaged(st, files) && at <= |u.items|
    ensures var r := FirstUnfinished(u, files, at);
            at <= r <= |u.items| && (forall i | at <= i < r :: i < |u.ids| && Whole(st, u.ids[i])) &&
            (at <= |u.ids| ==> r <= |u.ids|) &&
            (r < |u.items| && r < |u.ids| ==> FindStaged(files, u.ids[r]).None? || FindStaged(files, u.ids[r]).value.missing != [])
    decreases |u.items| - at
  {
    hide TrueStaged, Whole;
    if at < |u.items| && at < |u.ids| && FindStaged(files, u.ids[at]).Some? && FindStaged(files, u.ids[at]).value.missing == [] {
      FoundWhole(st, files, u.ids[at]);
      UnfinishedTells(u, files, at + 1, st);
      var r := FirstUnfinished(u, files, at);
      forall i | at <= i < r ensures i < |u.ids| && Whole(st, u.ids[i]) {
        if i > at { assert at + 1 <= i < r; }
      }
    }
  }

  lemma {:induction false} FoundWhole(st: Store, files: seq<StagedFile>, fid: Id)
    requires TrueStaged(st, files) && FindStaged(files, fid).Some? && FindStaged(files, fid).value.missing == []
    ensures Whole(st, fid)
  {
    FoundIsTrue(st, files, fid);
  }

  /** All of it is there. */
  lemma {:induction false} AllThereGoes(u: Upload, files: seq<StagedFile>, id: nat, busy: map<nat, Request>, paths: seq<Path>, ch: Chosen, st: Store)
    requires Static(u, paths, ch, st) && !u.stalled && TrueStaged(st, files) && FirstUnfinished(u, files, 0) >= |u.items|
    requires var v := u.(at := |u.items|); busy == map[] || busy == map[id := NextAsk(v)]
    ensures Going(u.(at := |u.items|), busy, paths, ch, st)
  {
    UnfinishedTells(u, files, 0, st);
    var v := u.(at := |u.items|);
    assert AllWhole(v, st) && Static(v, paths, ch, st);
    NextGoes(v, id, busy, paths, ch, st);
  }

  /** Some chunk of the last file begun is missing: it is put next. */
  lemma {:induction false} HoleGoes(u: Upload, files: seq<StagedFile>, paths: seq<Path>, ch: Chosen, st: Store)
    requires Static(u, paths, ch, st) && !u.stalled && TrueStaged(st, files) && ListsEarlier(u, files, st)
    requires var at := FirstUnfinished(u, files, 0);
             at < |u.items| && at < |u.ids| && FindStaged(files, u.ids[at]).Some? && FindStaged(files, u.ids[at]).value.missing != []
    ensures var at := FirstUnfinished(u, files, 0);
            var staged := FindStaged(files, u.ids[at]).value;
            var v := u.(at := at, next := staged.missing[0], total := staged.chunkTotal);
            Static(v, paths, ch, st) && Putting(v, st)
  {
    var at := FirstUnfinished(u, files, 0);
    FoundIsTrue(st, files, u.ids[at]);
    assert !ListsNothingMissing(files, u.ids[at]);
  }

  /** The phone has nothing of the file: a place is asked for anew, and later ids are let go. */
  lemma {:induction false} AgainGoes(u: Upload, files: seq<StagedFile>, id: nat, busy: map<nat, Request>, paths: seq<Path>, ch: Chosen, st: Store)
    requires Static(u, paths, ch, st) && !u.stalled && TrueStaged(st, files) && FirstUnfinished(u, files, 0) < |u.items|
    requires var at := FirstUnfinished(u, files, 0); at < |u.ids| ==> FindStaged(files, u.ids[at]).None?
    requires var at := FirstUnfinished(u, files, 0);
             var v := u.(at := at, ids := if at < |u.ids| then u.ids[..at] else u.ids);
             busy == map[] || busy == map[id := NextAsk(v)]
    ensures var at := FirstUnfinished(u, files, 0);
            var v := u.(at := at, ids := if at < |u.ids| then u.ids[..at] else u.ids);
            Going(v, busy, paths, ch, st)
  {
    UnfinishedTells(u, files, 0, st);
    var at := FirstUnfinished(u, files, 0);
    var v := u.(at := at, ids := if at < |u.ids| then u.ids[..at] else u.ids);
    assert AllWhole(v, st) && Static(v, paths, ch, st);
    NextGoes(v, id, busy, paths, ch, st);
  }
}
