/** The phone's side of an upload: it sets places aside under new ids, keeps chunks, and may forget a file,
    but only whole. It handles what it was asked whenever it likes, any number of times, or never. */
module CompanionPhone {
  import opened Bytes
  import opened CompanionProtocol
  import opened CompanionProtocolLaws
  import opened CompanionDriver
  import opened CompanionDownload

  /** What a place was set aside for, and how the file is sliced. */
  datatype Made = Made(asked: nat, offer: Request, total: nat, chunkBytes: u64)

  /** Every place ever made, and the chunks of those not forgotten. */
  datatype Store = Store(made: map<Id, Made>, have: map<Id, map<nat, seq<Byte>>>)

  function Count(size: nat, chunkBytes: nat): nat
    requires chunkBytes > 0
  {
    (size + chunkBytes - 1) / chunkBytes
  }

  predicate MadeSound(m: Made) {
    m.offer.FileOffer? && m.chunkBytes > 0 && m.total == Count(m.offer.sizeBytes, m.chunkBytes)
  }

  predicate StoreSound(st: Store) {
    (forall fid | fid in st.have :: fid in st.made) && (forall fid | fid in st.made :: MadeSound(st.made[fid]))
  }

  /** A chunk is there, or the file is forgotten. */
  predicate Has(st: Store, fid: Id, k: nat) {
    fid in st.have ==> k in st.have[fid]
  }

  predicate HasBelow(st: Store, fid: Id, n: nat) {
    forall k | 0 <= k < n :: Has(st, fid, k)
  }

  /** Every chunk is there, or the file is forgotten. */
  predicate Whole(st: Store, fid: Id) {
    fid in st.made && HasBelow(st, fid, st.made[fid].total)
  }

  // ---- what the phone does with a request ----

  /** The chunks missing, in ascending order. */
  function MissingFrom(chunks: map<nat, seq<Byte>>, k: nat, total: nat): seq<nat>
    decreases total - k
  {
    if k >= total then []
    else if k in chunks then MissingFrom(chunks, k + 1, total)
    else [k] + MissingFrom(chunks, k + 1, total)
  }

  predicate TellsStaged(st: Store, files: seq<StagedFile>)
    requires StoreSound(st)
  {
    forall i | 0 <= i < |files| ::
      files[i].fileId in st.have && files[i].chunkTotal == st.made[files[i].fileId].total &&
      files[i].missing == MissingFrom(st.have[files[i].fileId], 0, files[i].chunkTotal)
  }

  function PutAway(chunks: map<nat, seq<Byte>>, index: nat, bytes: seq<Byte>): map<nat, seq<Byte>> {
    chunks[index := bytes]
  }

  predicate Handles(st: Store, id: nat, r: Request, response: Response, after: Store)
    requires StoreSound(st)
  {
    match r
    case FileOffer(_, _, sizeBytes, _) =>
      (response.Refused? && after == st) ||
      (response.FileOffer? && response.fileId !in st.made && response.chunkBytes > 0 &&
       response.chunkTotal == Count(sizeBytes, response.chunkBytes) &&
       after == Store(st.made[response.fileId := Made(id, r, response.chunkTotal, response.chunkBytes)],
                      st.have[response.fileId := map[]]))
    case FilePut(fid, index, bytes) =>
      (response.Refused? && after == st) ||
      (response.Done? && fid in st.have && after == st.(have := st.have[fid := PutAway(st.have[fid], index, bytes)]))
    case FileSend(fileIds, _) =>
      (response.Refused? && after == st) ||
      (response.Done? && after == st.(have := map fid | fid in st.have && fid !in fileIds :: st.have[fid]))
    case FileAbort(fid) => response.Done? && after == st.(have := st.have - {fid})
    case Staged => after == st && (response.Refused? || (response.Staged? && TellsStaged(st, response.files)))
    case _ => after == st && InKind(r, response) && !response.FileOffer? && !response.Staged?
  }

  function Forget(st: Store, fid: Id): Store {
    st.(have := st.have - {fid})
  }

  // ---- what stays true of it ----

  /** Places stay, what is there stays, and what is forgotten stays forgotten. */
  predicate Evolves(st: Store, after: Store) {
    forall fid | fid in st.made ::
      fid in after.made && after.made[fid] == st.made[fid] &&
      (fid in after.have ==> fid in st.have && forall k | k in st.have[fid] :: k in after.have[fid])
  }

  lemma {:induction false} EvolvesKeeps(st: Store, after: Store, fid: Id)
    requires Evolves(st, after) && fid in st.made
    ensures Whole(st, fid) ==> Whole(after, fid)
    ensures forall k | Has(st, fid, k) :: Has(after, fid, k)
  {
    if Whole(st, fid) {
      forall k | 0 <= k < after.made[fid].total ensures Has(after, fid, k) {
        assert Has(st, fid, k);
      }
    }
  }

  /** What an answer says of the store, now and from now on. */
  predicate TrueFile(st: Store, f: StagedFile) {
    f.fileId in st.made && f.chunkTotal == st.made[f.fileId].total &&
    if f.missing == [] then Whole(st, f.fileId)
    else f.missing[0] < f.chunkTotal && HasBelow(st, f.fileId, f.missing[0])
  }

  predicate TrueStaged(st: Store, files: seq<StagedFile>) {
    forall i | 0 <= i < |files| :: TrueFile(st, files[i])
  }

  predicate TrueAnswer(st: Store, id: nat, r: Request, response: Response) {
    InKind(r, response) &&
    (response.FileOffer? ==>
       r.FileOffer? && response.fileId in st.made &&
       st.made[response.fileId] == Made(id, r, response.chunkTotal, response.chunkBytes)) &&
    (response.Staged? ==> r.Staged? && TrueStaged(st, response.files)) &&
    (r.FileOffer? ==> response.FileOffer? || response.Refused?) &&
    (r.FileSend? ==> response.Done? || response.Refused?) &&
    (r.FilePut? ==> response.Refused? || (response.Done? && r.fileId in st.made && Has(st, r.fileId, r.index)))
  }

  lemma {:induction false} EvolvesKeepsTrue(st: Store, after: Store, id: nat, r: Request, response: Response)
    requires Evolves(st, after) && TrueAnswer(st, id, r, response)
    ensures TrueAnswer(after, id, r, response)
  {
    if response.Staged? {
      forall i | 0 <= i < |response.files| ensures TrueFile(after, response.files[i]) {
        assert TrueFile(st, response.files[i]);
        EvolvesKeeps(st, after, response.files[i].fileId);
      }
    }
    if r.FilePut? && response.Done? { EvolvesKeeps(st, after, r.fileId); }
  }

  lemma {:induction false} MissingTells(chunks: map<nat, seq<Byte>>, k: nat, total: nat)
    requires k <= total
    ensures var missing := MissingFrom(chunks, k, total);
            if missing == [] then forall j | k <= j < total :: j in chunks
            else k <= missing[0] < total && missing[0] !in chunks && forall j | k <= j < missing[0] :: j in chunks
    decreases total - k
  {
    if k < total && k in chunks { MissingTells(chunks, k + 1, total); }
  }

  lemma {:induction false} StagedIsTrue(st: Store, files: seq<StagedFile>)
    requires StoreSound(st) && TellsStaged(st, files)
    ensures TrueStaged(st, files)
  {
    forall i | 0 <= i < |files| ensures TrueFile(st, files[i]) {
      MissingTells(st.have[files[i].fileId], 0, files[i].chunkTotal);
    }
  }

  lemma {:induction false} NothingMissing(chunks: map<nat, seq<Byte>>, k: nat, total: nat)
    requires forall j | k <= j < total :: j in chunks
    ensures MissingFrom(chunks, k, total) == []
    decreases total - k
  {
    if k < total { NothingMissing(chunks, k + 1, total); }
  }

  /** A file that is whole is never listed with anything missing. */
  lemma {:induction false} WholeMissesNothing(st: Store, files: seq<StagedFile>, fid: Id)
    requires StoreSound(st) && TellsStaged(st, files) && Whole(st, fid)
    ensures FindStaged(files, fid).Some? ==> FindStaged(files, fid).value.missing == []
    decreases |files|
  {
    if files != [] {
      if files[0].fileId == fid {
        forall k | 0 <= k < files[0].chunkTotal ensures k in st.have[fid] {
          assert Has(st, fid, k);
        }
        NothingMissing(st.have[fid], 0, files[0].chunkTotal);
      } else {
        assert forall i | 0 <= i < |files| - 1 :: files[1..][i] == files[i + 1];
        WholeMissesNothing(st, files[1..], fid);
      }
    }
  }

  lemma {:induction false} FoundIsListed(files: seq<StagedFile>, fid: Id)
    ensures FindStaged(files, fid).Some? ==>
              FindStaged(files, fid).value.fileId == fid && exists i | 0 <= i < |files| :: files[i] == FindStaged(files, fid).value
    decreases |files|
  {
    if files != [] && files[0].fileId != fid {
      FoundIsListed(files[1..], fid);
      if FindStaged(files[1..], fid).Some? {
        var i :| 0 <= i < |files| - 1 && files[1..][i] == FindStaged(files[1..], fid).value;
        assert files[i + 1] == FindStaged(files, fid).value;
      }
    }
  }

  /** Handling changes the store only forward, and answers truly. */
  lemma {:induction false} HandlingIsTrue(st: Store, id: nat, r: Request, response: Response, after: Store)
    requires StoreSound(st) && Handles(st, id, r, response, after)
    ensures StoreSound(after) && Evolves(st, after) && TrueAnswer(after, id, r, response)
  {
    hide Whole;
    if r.Staged? && response.Staged? { StagedIsTrue(st, response.files); }
  }

  lemma {:induction false} ForgettingEvolves(st: Store, fid: Id)
    requires StoreSound(st)
    ensures StoreSound(Forget(st, fid)) && Evolves(st, Forget(st, fid))
  {
  }

  // ---- pieces ----

  /** The k-th chunk of some content. */
  function Slice(content: seq<Byte>, k: nat, chunkBytes: nat): seq<Byte> {
    ReadAt(content, k * chunkBytes, chunkBytes)
  }

  function Joined(chunks: map<nat, seq<Byte>>, n: nat): seq<Byte>
    requires forall k | 0 <= k < n :: k in chunks
  {
    if n == 0 then [] else Joined(chunks, n - 1) + chunks[n - 1]
  }

  function UpTo(content: seq<Byte>, n: nat): seq<Byte> {
    if n <= |content| then content[..n] else content
  }

  lemma {:induction false} OneMoreSlice(content: seq<Byte>, k: nat, chunkBytes: nat)
    ensures UpTo(content, k * chunkBytes) + Slice(content, k, chunkBytes) == UpTo(content, (k + 1) * chunkBytes)
  {
    assert (k + 1) * chunkBytes == k * chunkBytes + chunkBytes;
  }

  predicate AreSlices(chunks: map<nat, seq<Byte>>, content: seq<Byte>, chunkBytes: nat, n: nat) {
    forall k | 0 <= k < n :: k in chunks && chunks[k] == Slice(content, k, chunkBytes)
  }

  predicate JoinUp(chunks: map<nat, seq<Byte>>, content: seq<Byte>, chunkBytes: nat, n: nat) {
    AreSlices(chunks, content, chunkBytes, n) && Joined(chunks, n) == UpTo(content, n * chunkBytes)
  }

  lemma {:induction false} SlicesJoin(chunks: map<nat, seq<Byte>>, content: seq<Byte>, chunkBytes: nat, n: nat)
    requires AreSlices(chunks, content, chunkBytes, n)
    ensures JoinUp(chunks, content, chunkBytes, n)
  {
    hide AreSlices, JoinUp;
    if n == 0 {
      NoneJoined(chunks, content, chunkBytes);
    } else {
      FewerSlices(chunks, content, chunkBytes, n);
      SlicesJoin(chunks, content, chunkBytes, n - 1);
      JoinsOneMore(chunks, content, chunkBytes, n);
    }
  }

  lemma {:induction false} FewerSlices(chunks: map<nat, seq<Byte>>, content: seq<Byte>, chunkBytes: nat, n: nat)
    requires n > 0 && AreSlices(chunks, content, chunkBytes, n)
    ensures AreSlices(chunks, content, chunkBytes, n - 1)
  {
    hide Slice;
  }

  lemma {:induction false} NoneJoined(chunks: map<nat, seq<Byte>>, content: seq<Byte>, chunkBytes: nat)
    ensures JoinUp(chunks, content, chunkBytes, 0)
  {
    UpToNone(content);
  }

  lemma {:induction false} JoinsOneMore(chunks: map<nat, seq<Byte>>, content: seq<Byte>, chunkBytes: nat, n: nat)
    requires n > 0 && AreSlices(chunks, content, chunkBytes, n) && JoinUp(chunks, content, chunkBytes, n - 1)
    ensures JoinUp(chunks, content, chunkBytes, n)
  {
    hide Slice, UpTo;
    OneMoreSlice(content, n - 1, chunkBytes);
  }

  lemma {:induction false} UpToNone(content: seq<Byte>)
    ensures UpTo(content, 0) == []
  {
  }

  /** Slices tile the content exactly: joined in order they are it. */
  lemma {:induction false} SlicesTile(chunks: map<nat, seq<Byte>>, content: seq<Byte>, chunkBytes: nat)
    requires chunkBytes > 0
    requires forall k | 0 <= k < Count(|content|, chunkBytes) :: k in chunks && chunks[k] == Slice(content, k, chunkBytes)
    ensures Joined(chunks, Count(|content|, chunkBytes)) == content
  {
    hide Slice;
    SlicesJoin(chunks, content, chunkBytes, Count(|content|, chunkBytes));
    RoundUp(|content|, chunkBytes);
  }

  lemma {:induction false} ShortRead(content: seq<Byte>, offset: nat, len: nat)
    requires offset <= |content|
    ensures ReadAt(content, offset, if |content| - offset < len then |content| - offset else len) == ReadAt(content, offset, len)
  {
  }

  /** The piece a terminal asks for of the file it is at, where there is one, is that file's slice. */
  lemma {:induction false} PieceIsSlice(u: Upload, index: nat, content: seq<Byte>)
    requires u.at < |u.items| && u.items[u.at].sizeBytes == |content| && u.chunkBytes > 0 && index < Count(|content|, u.chunkBytes)
    ensures ReadAt(content, u.Piece(index).0, u.Piece(index).1) == Slice(content, index, u.chunkBytes)
  {
    hide ReadAt;
    SliceStarts(|content|, index, u.chunkBytes);
    ShortRead(content, index * u.chunkBytes, u.chunkBytes);
  }

  lemma {:induction false} SliceStarts(size: nat, index: nat, chunkBytes: nat)
    requires chunkBytes > 0 && index < Count(size, chunkBytes)
    ensures index * chunkBytes < size
  {
    RoundUp(size, chunkBytes);
    Below(index + 1, Count(size, chunkBytes), chunkBytes);
    Distribute(index, 1, chunkBytes);
  }
}
