/** The snapshot's way to the disk: written no more often than allowed, kept in hand when a write fails. */
module CacheOnDisk {
  import opened Bytes
  import opened Cbor
  import opened Canonical
  import opened CanonicalLaws
  import opened CompanionCacheLaws
  import opened CompanionCacheTheorems
  import opened Snapshots
  import opened SnapshotLaws
  import opened SnapshotTheorems
  import CC = CompanionCache

  type Path = string

  const CACHE_WRITE_EVERY_MS := 2000

  /** How writing a file ends: with the bytes in it, or with an error that leaves anything or nothing. */
  datatype DiskWrite = Written | Failed(left: Option<seq<Byte>>)

  /** What stays the same: the codec, the sealing, and the order in which ordered maps are walked. */
  datatype Keeper = Keeper(codec: ItemCodec, crypto: Crypto, order: set<CC.Id> -> seq<CC.Id>) {
    ghost predicate Orders() {
      forall ids :: Lists(order(ids), ids)
    }

    function WalkOf(c: CC.CacheState): (walk: Walk)
      requires Orders()
      ensures Walks(walk, c)
    {
      Walk(order(c.history.Keys), order(c.avatars.Keys))
    }

    function ValueOf(m: Memory): Value
      requires Orders()
    {
      SnapshotValue(m, WalkOf(m.cache), codec)
    }
  }

  datatype Desk = Desk(memory: Memory, path: Option<Path>, pending: Option<seq<Byte>>, afterMs: nat, files: map<Path, seq<Byte>>)

  function AfterWrite(files: map<Path, seq<Byte>>, path: Path, sealed: seq<Byte>, write: DiskWrite): map<Path, seq<Byte>> {
    match write
    case Written => files[path := sealed]
    case Failed(None) => files - {path}
    case Failed(Some(left)) => files[path := left]
  }

  predicate Due(d: Desk, now: nat) {
    d.path.Some? && (d.pending.Some? || SnapshotDue(d.memory)) && now >= d.afterMs
  }

  /** What there is to write, and the memory after it was taken. */
  function Take(d: Desk, k: Keeper, nonce: nat): (Option<seq<Byte>>, Memory)
    requires k.Orders()
  {
    if d.pending.Some? then (d.pending, d.memory)
    else
      match Snapshot(d.memory, k.WalkOf(d.memory.cache), k.codec, k.crypto, nonce)
      case (Good(sealed), memory) => (Some(sealed), memory)
      case (Bad(_), memory) => (None, memory)
  }

  function Persist(d: Desk, k: Keeper, now: nat, nonce: nat, write: DiskWrite): Desk
    requires k.Orders()
  {
    if !Due(d, now) then d
    else
      var (sealed, memory) := Take(d, k, nonce);
      match sealed
      case None => d.(memory := memory, pending := None, afterMs := now + CACHE_WRITE_EVERY_MS)
      case Some(bytes) =>
        d.(memory := memory, pending := if write.Written? then None else sealed, afterMs := now + CACHE_WRITE_EVERY_MS,
           files := AfterWrite(d.files, d.path.value, bytes, write))
  }

  function Announce(m: Memory, address: Address): Memory {
    m.(address := address, addressDirty := m.addressDirty || m.address != address)
  }

  // ---- runs while one path is kept ----

  datatype DeskEvent = Happened(e: CC.CacheEvent) | Announced(address: Address) | Ticked(now: nat, nonce: nat, write: DiskWrite)

  /** Not a restore and not a revocation; and only a snapshot lowers the flag. */
  predicate Ordinary(e: DeskEvent) {
    e.Happened? ==> !e.e.SnapshotTaken? && !e.e.PairingRevoked? && Lawful(e.e)
  }

  /** A desk beside the last snapshot taken since its path was set. */
  datatype Watched = Watched(desk: Desk, last: Option<seq<Byte>>)

  function Next(w: Watched, k: Keeper, e: DeskEvent): Watched
    requires k.Orders()
  {
    match e
    case Happened(event) => w.(desk := w.desk.(memory := w.desk.memory.(cache := CC.Apply(w.desk.memory.cache, event))))
    case Announced(address) => w.(desk := w.desk.(memory := Announce(w.desk.memory, address)))
    case Ticked(now, nonce, write) =>
      Watched(Persist(w.desk, k, now, nonce, write),
              if Due(w.desk, now) && Take(w.desk, k, nonce).0.Some? then Take(w.desk, k, nonce).0 else w.last)
  }

  function RunDesk(start: Watched, k: Keeper, events: seq<DeskEvent>): Watched
    requires k.Orders()
  {
    if events == [] then start
    else Next(RunDesk(start, k, events[..|events| - 1]), k, events[|events| - 1])
  }

  /** The last snapshot is in hand, or it is what the file holds. */
  predicate InHandOrOnDisk(w: Watched) {
    w.desk.path.Some? && (w.desk.pending.Some? ==> w.desk.pending == w.last) &&
    (w.last.Some? && w.desk.pending.None? ==>
       w.desk.path.value in w.desk.files && w.desk.files[w.desk.path.value] == w.last.value)
  }

  ghost predicate SealsNow(sealed: seq<Byte>, m: Memory, k: Keeper)
    requires k.Orders()
  {
    EncodeValue(k.ValueOf(m)).Ok? && k.crypto.open(sealed) == Some(EncodeValue(k.ValueOf(m)).value)
  }

  /** While nothing is due, the last snapshot is of the memory as it is now. */
  ghost predicate UpToDate(w: Watched, k: Keeper)
    requires k.Orders()
  {
    w.last.Some? && !SnapshotDue(w.desk.memory) ==> SealsNow(w.last.value, w.desk.memory, k)
  }

  ghost predicate Sound(k: Keeper) {
    k.Orders() && CodecRoundTrips(k.codec) && Opens(k.crypto)
  }

  lemma {:induction false} SnapshotSeals(m: Memory, k: Keeper, nonce: nat, sealed: seq<Byte>)
    requires Sound(k) && Snapshot(m, k.WalkOf(m.cache), k.codec, k.crypto, nonce).0 == Good(sealed)
    ensures var after := Snapshot(m, k.WalkOf(m.cache), k.codec, k.crypto, nonce).1;
            after == m.(cache := m.cache.(dirty := false), addressDirty := false) && SealsNow(sealed, after, k)
  {
    hide CodecRoundTrips, SnapshotFields, Canonicalize, Walks;
    var after := Snapshot(m, k.WalkOf(m.cache), k.codec, k.crypto, nonce).1;
    SameContentSameValue(m, after, k);
  }

  lemma {:induction false} SameContentSameValue(m: Memory, other: Memory, k: Keeper)
    requires k.Orders() && ContentOf(m.cache) == ContentOf(other.cache) && m.address == other.address
    ensures k.ValueOf(m) == k.ValueOf(other)
  {
  }

  lemma {:induction false} TickKeeps(w: Watched, k: Keeper, now: nat, nonce: nat, write: DiskWrite)
    requires Sound(k) && InHandOrOnDisk(w) && UpToDate(w, k)
    ensures InHandOrOnDisk(Next(w, k, Ticked(now, nonce, write))) && UpToDate(Next(w, k, Ticked(now, nonce, write)), k)
  {
    hide CodecRoundTrips, SealsNow, Snapshot, Opens;
    var d := w.desk;
    if Due(d, now) && d.pending.None? {
      var taken := Snapshot(d.memory, k.WalkOf(d.memory.cache), k.codec, k.crypto, nonce);
      if taken.0.Good? { SnapshotSeals(d.memory, k, nonce, taken.0.value); } else { NoSnapshotNoChange(d.memory, k, nonce); }
    }
  }

  lemma {:induction false} NoSnapshotNoChange(m: Memory, k: Keeper, nonce: nat)
    requires k.Orders() && Snapshot(m, k.WalkOf(m.cache), k.codec, k.crypto, nonce).0.Bad?
    ensures Snapshot(m, k.WalkOf(m.cache), k.codec, k.crypto, nonce).1 == m
  {
  }

  lemma {:induction false} NextKeeps(w: Watched, k: Keeper, e: DeskEvent)
    requires Sound(k) && InHandOrOnDisk(w) && UpToDate(w, k) && Ordinary(e)
    ensures InHandOrOnDisk(Next(w, k, e)) && UpToDate(Next(w, k, e), k)
  {
    hide CodecRoundTrips, Opens, CC.Apply;
    match e
    case Ticked(now, nonce, write) => TickKeeps(w, k, now, nonce, write);
    case Happened(event) =>
      ChangeIsMarked(w.desk.memory.cache, event);
      if !SnapshotDue(Next(w, k, e).desk.memory) { SameContentSameValue(w.desk.memory, Next(w, k, e).desk.memory, k); }
    case Announced(address) =>
      if !SnapshotDue(Next(w, k, e).desk.memory) { SameContentSameValue(w.desk.memory, Next(w, k, e).desk.memory, k); }
  }

  lemma {:induction false} RunKeeps(start: Watched, k: Keeper, events: seq<DeskEvent>)
    requires Sound(k) && InHandOrOnDisk(start) && UpToDate(start, k) && forall i | 0 <= i < |events| :: Ordinary(events[i])
    ensures InHandOrOnDisk(RunDesk(start, k, events)) && UpToDate(RunDesk(start, k, events), k)
  {
    hide CodecRoundTrips, Opens, InHandOrOnDisk, UpToDate;
    if events != [] {
      var n := |events| - 1;
      RunKeeps(start, k, events[..n]);
      NextKeeps(RunDesk(start, k, events[..n]), k, events[n]);
    }
  }

  lemma {:induction false} RunTidyDesk(start: Watched, k: Keeper, events: seq<DeskEvent>)
    requires k.Orders() && Tidy(start.desk.memory.cache) && forall i | 0 <= i < |events| :: Ordinary(events[i])
    ensures Tidy(RunDesk(start, k, events).desk.memory.cache)
  {
    if events != [] {
      var n := |events| - 1;
      RunTidyDesk(start, k, events[..n]);
      NextTidy(RunDesk(start, k, events[..n]), k, events[n]);
    }
  }

  lemma {:induction false} NextTidy(w: Watched, k: Keeper, e: DeskEvent)
    requires k.Orders() && Tidy(w.desk.memory.cache) && Ordinary(e)
    ensures Tidy(Next(w, k, e).desk.memory.cache)
  {
    hide CC.Apply, PagesTidy;
    if e.Happened? { ApplyTidy(w.desk.memory.cache, e.e); }
  }

  /** Whatever writes failed on the way: once nothing is pending and nothing is due, another terminal
      started from the file knows what this one knows. */
  lemma {:induction false} FileIsMemory(start: Desk, k: Keeper, events: seq<DeskEvent>, other: Memory, limit: nat)
    requires Sound(k) && start.path.Some? && start.pending.None? && Tidy(start.memory.cache)
    requires forall i | 0 <= i < |events| :: Ordinary(events[i])
    requires var end := RunDesk(Watched(start, None), k, events);
             end.last.Some? && end.desk.pending.None? && !SnapshotDue(end.desk.memory) && Readable(k.ValueOf(end.desk.memory), limit)
    ensures var d := RunDesk(Watched(start, None), k, events).desk;
            d.path.Some? && d.path.value in d.files &&
            Restore(other, d.files[d.path.value], k.codec, k.crypto, limit) ==
            Restored(other, d.memory, k.order(d.memory.cache.history.Keys))
  {
    hide CodecRoundTrips, Tidy, Readable, Restored, RunDesk;
    var w := RunDesk(Watched(start, None), k, events);
    RunKeeps(Watched(start, None), k, events);
    RunTidyDesk(Watched(start, None), k, events);
    var m := w.desk.memory;
    SnapshotRestores(m, other, k.WalkOf(m.cache), k.codec, k.crypto, EncodeValue(k.ValueOf(m)).value, w.last.value, limit);
  }

  lemma {:induction false} SealingWorks(m: Memory, k: Keeper, nonce: nat)
    requires Sound(k) && forall bytes, nonce :: k.crypto.seal(bytes, nonce).Some?
    ensures Snapshot(m, k.WalkOf(m.cache), k.codec, k.crypto, nonce).0.Good?
    ensures !SnapshotDue(Snapshot(m, k.WalkOf(m.cache), k.codec, k.crypto, nonce).1)
  {
    hide CodecRoundTrips, Opens, SnapshotFields, Canonicalize, Walks;
    SnapshotCanonical(m, k.WalkOf(m.cache), k.codec);
  }

  /** Two writes that succeed are enough, whatever was pending: the first empties the hand, the second
      leaves nothing due. */
  lemma {:induction false} TwoWritesSuffice(d: Desk, k: Keeper, now: nat, later: nat, nonces: (nat, nat))
    requires Sound(k) && d.path.Some? && now >= d.afterMs && later >= now + CACHE_WRITE_EVERY_MS
    requires forall bytes, nonce :: k.crypto.seal(bytes, nonce).Some?
    ensures var end := Persist(Persist(d, k, now, nonces.0, Written), k, later, nonces.1, Written);
            end.pending.None? && !SnapshotDue(end.memory)
  {
    hide CodecRoundTrips, Opens, Snapshot;
    var once := Persist(d, k, now, nonces.0, Written);
    SealingWorks(d.memory, k, nonces.0);
    SealingWorks(once.memory, k, nonces.1);
  }

  // ---- not too often ----

  /** A tick at which the disk is written, or at least tried. */
  predicate Tries(w: Watched, e: DeskEvent) {
    e.Ticked? && Due(w.desk, e.now)
  }

  lemma {:induction false} WaitsLonger(start: Watched, k: Keeper, events: seq<DeskEvent>, n: nat)
    requires k.Orders() && n <= |events|
    ensures RunDesk(start, k, events[..n]).desk.afterMs <= RunDesk(start, k, events).desk.afterMs
    decreases |events|
  {
    hide Take, Snapshot;
    if n == |events| {
      assert events[..n] == events;
    } else {
      var m := |events| - 1;
      assert events[..m][..n] == events[..n];
      WaitsLonger(start, k, events[..m], n);
    }
  }

  /** Over every run, whatever the clock does: from one attempt to write to the next there are two seconds at least. */
  lemma {:induction false} TwoSecondsApart(start: Watched, k: Keeper, events: seq<DeskEvent>, i: nat, j: nat)
    requires k.Orders() && i < j < |events| && Tries(RunDesk(start, k, events[..i]), events[i])
    requires Tries(RunDesk(start, k, events[..j]), events[j])
    ensures events[j].now >= events[i].now + 2000
  {
    hide Take, Snapshot, RunDesk;
    var w := RunDesk(start, k, events[..i]);
    assert events[..i + 1][..i] == events[..i] && events[..i + 1][i] == events[i];
    RunStep(start, k, events[..i + 1]);
    WaitsLonger(start, k, events[..j], i + 1);
    assert events[..j][..i + 1] == events[..i + 1];
  }

  lemma {:induction false} RunStep(start: Watched, k: Keeper, events: seq<DeskEvent>)
    requires k.Orders() && events != []
    ensures RunDesk(start, k, events) == Next(RunDesk(start, k, events[..|events| - 1]), k, events[|events| - 1])
  {
  }

  /** And no later than that: where there is something to write and the two seconds are over, a tick writes. */
  lemma {:induction false} TickWrites(d: Desk, k: Keeper, now: nat, nonce: nat)
    requires k.Orders() && d.path.Some? && now >= d.afterMs && (d.pending.Some? || SnapshotDue(d.memory))
    requires d.pending.Some? || Snapshot(d.memory, k.WalkOf(d.memory.cache), k.codec, k.crypto, nonce).0.Good?
    ensures var after := Persist(d, k, now, nonce, Written);
            after.pending.None? && after.afterMs == now + 2000 && d.path.value in after.files &&
            after.files[d.path.value] ==
            if d.pending.Some? then d.pending.value else Snapshot(d.memory, k.WalkOf(d.memory.cache), k.codec, k.crypto, nonce).0.value
  {
    hide Snapshot;
  }

  // ---- turning the cache on ----

  /** What comes up from the file, where it can be read and opened. */
  function Raised(d: Desk, path: Path, k: Keeper, readable: bool, limit: nat): Desk {
    var memory := if readable && path in d.files then Restore(d.memory, d.files[path], k.codec, k.crypto, limit).1 else d.memory;
    d.(memory := memory, path := Some(path), afterMs := 0)
  }

  /** What was gathered before is written at once. */
  function StartKeeping(d: Desk, path: Path, k: Keeper, readable: bool, limit: nat, now: nat, nonce: nat, write: DiskWrite): Desk
    requires k.Orders()
  {
    Persist(Raised(d, path, k, readable, limit), k, now, nonce, write)
  }

  /** With nothing left over from an earlier path, nothing is lost from the moment the cache is turned on. */
  lemma {:induction false} KeptFromTheStart(d: Desk, path: Path, k: Keeper, readable: bool, limit: nat, now: nat, nonce: nat, write: DiskWrite,
                                            events: seq<DeskEvent>)
    requires Sound(k) && d.pending.None? && forall i | 0 <= i < |events| :: Ordinary(events[i])
    ensures var begun := Next(Watched(Raised(d, path, k, readable, limit), None), k, Ticked(now, nonce, write));
            begun.desk == StartKeeping(d, path, k, readable, limit, now, nonce, write) &&
            InHandOrOnDisk(RunDesk(begun, k, events)) && UpToDate(RunDesk(begun, k, events), k)
  {
    hide Restore, Take, SealsNow, CodecRoundTrips, Opens;
    var raised := Watched(Raised(d, path, k, readable, limit), None);
    TickKeeps(raised, k, now, nonce, write);
    RunKeeps(Next(raised, k, Ticked(now, nonce, write)), k, events);
  }

  /** A file that came up stays as it is exactly when no other snapshot is left over from an earlier path. One
      that is gets written over it, and nothing is due to put that right. */
  lemma {:induction false} LeftoverGoesAstray(d: Desk, path: Path, k: Keeper, limit: nat, now: nat, nonce: nat)
    requires k.Orders() && path in d.files && !d.memory.addressDirty
    requires Restore(d.memory, d.files[path], k.codec, k.crypto, limit).0.Good?
    ensures var after := StartKeeping(d, path, k, true, limit, now, nonce, Written);
            (after.files[path] == d.files[path] <==> d.pending in {None, Some(d.files[path])}) &&
            (d.pending.Some? ==> after.files[path] == d.pending.value) &&
            after.memory == Restore(d.memory, d.files[path], k.codec, k.crypto, limit).1 &&
            after.pending.None? && !SnapshotDue(after.memory)
  {
    hide Snapshot;
    var plain := k.crypto.open(d.files[path]);
    if plain.Some? && DecodeValue(plain.value, limit).Ok? {
      var v := DecodeValue(plain.value, limit).value;
      if FromValue(v, k.codec).Good? { AnyFileWithinBounds(v, k.codec); }
    }
  }

  // ---- turning the cache off ----

  /** Switching off drops what was pending, forgets the path and removes the file. */
  function SwitchOff(d: Desk, removed: bool): Desk {
    if d.path.None? then d.(pending := None)
    else d.(pending := None, path := None, files := if removed then d.files - {d.path.value} else d.files)
  }

  /** After that nothing reaches the disk, however long the run. */
  lemma {:induction false} NothingWrittenAfterOff(d: Desk, removed: bool, k: Keeper, events: seq<DeskEvent>)
    requires k.Orders()
    ensures var end := RunDesk(Watched(SwitchOff(d, removed), None), k, events).desk;
            end.files == SwitchOff(d, removed).files && end.path.None? && end.pending.None?
  {
    if events != [] { NothingWrittenAfterOff(d, removed, k, events[..|events| - 1]); }
  }

  // ---- the driver's own fields, changed in place ----

  class Driver {
    var memory: Memory
    var cachePath: Option<Path>
    var cachePending: Option<seq<Byte>>
    var cacheAfterMs: nat
    var files: map<Path, seq<Byte>>

    function State(): Desk
      reads this
    {
      Desk(memory, cachePath, cachePending, cacheAfterMs, files)
    }

    constructor (memory: Memory, files: map<Path, seq<Byte>>)
      ensures State() == Desk(memory, None, None, 0, files)
    {
      this.memory, this.files := memory, files;
      cachePath, cachePending, cacheAfterMs := None, None, 0;
    }

    method PersistCache(k: Keeper, now: nat, nonce: nat, write: DiskWrite)
      requires k.Orders()
      modifies this
      ensures State() == Persist(old(State()), k, now, nonce, write)
    {
      if cachePath.None? { return; }
      if cachePending.None? && !SnapshotDue(memory) { return; }
      if now < cacheAfterMs { return; }
      var sealed := cachePending;
      cachePending := None;
      if sealed.None? {
        var (taken, after) := Snapshot(memory, k.WalkOf(memory.cache), k.codec, k.crypto, nonce);
        memory := after;
        if taken.Good? { sealed := Some(taken.value); }
      }
      if sealed.Some? {
        files := AfterWrite(files, cachePath.value, sealed.value, write);
        if write.Failed? { cachePending := sealed; }
      }
      cacheAfterMs := now + CACHE_WRITE_EVERY_MS;
    }

    method KeepCache(path: Path, k: Keeper, readable: bool, limit: nat, now: nat, nonce: nat, write: DiskWrite)
      requires k.Orders()
      modifies this
      ensures State() == StartKeeping(old(State()), path, k, readable, limit, now, nonce, write)
    {
      hide Persist, Restore;
      if readable && path in files {
        var (_, raised) := Restore(memory, files[path], k.codec, k.crypto, limit);
        memory := raised;
      }
      cachePath := Some(path);
      cacheAfterMs := 0;
      PersistCache(k, now, nonce, write);
    }

    method StopKeeping(removed: bool)
      modifies this
      ensures State() == SwitchOff(old(State()), removed)
    {
      cachePending := None;
      if cachePath.Some? {
        var path := cachePath.value;
        cachePath := None;
        if removed { files := files - {path}; }
      }
    }
  }

  // ---- the first write, and the last removal ----

  /** Turned on with something to write, the cache is written at once, whenever it was last written elsewhere. */
  lemma {:induction false} WrittenAtOnce(d: Desk, path: Path, k: Keeper, readable: bool, limit: nat, now: nat, nonce: nat)
    requires k.Orders() && d.pending.None?
    requires var m := Raised(d, path, k, readable, limit).memory;
             SnapshotDue(m) && Snapshot(m, k.WalkOf(m.cache), k.codec, k.crypto, nonce).0.Good?
    ensures var after, m := StartKeeping(d, path, k, readable, limit, now, nonce, Written), Raised(d, path, k, readable, limit).memory;
            after.path == Some(path) && after.pending.None? && path in after.files &&
            after.files[path] == Snapshot(m, k.WalkOf(m.cache), k.codec, k.crypto, nonce).0.value
  {
    hide Snapshot, Restore;
    TickWrites(Raised(d, path, k, readable, limit), k, now, nonce);
  }

  /** Switched off, the file goes, if it can be removed, and no other; nothing is in hand any more. */
  lemma {:induction false} OffRemoves(d: Desk, removed: bool)
    ensures var after := SwitchOff(d, removed);
            after.path.None? && after.pending.None? && after.memory == d.memory &&
            forall path :: path in after.files <==> path in d.files && !(removed && d.path == Some(path))
    ensures forall path | path in SwitchOff(d, removed).files :: SwitchOff(d, removed).files[path] == d.files[path]
  {
  }
}
