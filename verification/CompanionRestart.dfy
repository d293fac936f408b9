/** What a restart from the file keeps and what it loses: everything a terminal can have heard comes back, but not
    the order in which its chats were last used. */
module CompanionRestart {
  import opened Bytes
  import opened Cbor
  import opened Canonical
  import opened CanonicalLaws
  import opened CompanionCacheLaws
  import opened CompanionCacheTheorems
  import opened Snapshots
  import opened SnapshotLaws
  import opened SnapshotTheorems
  import opened CacheOnDisk
  import CC = CompanionCache

  // ---- the order of chats ----

  /** Ascending by id, as an ordered map is walked. */
  predicate ById(ids: seq<CC.Id>) {
    forall i, j | 0 <= i < j < |ids| :: LexLess(ids[i], ids[j])
  }

  lemma {:induction false} ByIdFromHead(ids: seq<CC.Id>)
    requires ById(ids) && ids != []
    ensures ById(ids[1..]) && forall x :: x in ids[1..] <==> x in ids && x != ids[0]
  {
    LexTotal(ids[0], ids[0]);
    assert ids == [ids[0]] + ids[1..];
  }

  lemma {:induction false} Nobody(ids: seq<CC.Id>)
    ensures ids == [] <==> forall x :: x !in ids
  {
    if ids != [] { assert ids[0] in ids; }
  }

  /** There is one way to walk a set of ids. */
  lemma {:induction false} ByIdUnique(a: seq<CC.Id>, b: seq<CC.Id>)
    requires ById(a) && ById(b) && forall x :: x in a <==> x in b
    ensures a == b
  {
    Nobody(b);
    if a != [] {
      assert a[0] in b && b[0] in a;
      LexTotal(a[0], b[0]);
      ByIdFromHead(a);
      ByIdFromHead(b);
      ByIdUnique(a[1..], b[1..]);
      assert a == [a[0]] + a[1..] && b == [b[0]] + b[1..];
    }
  }

  /** The list of chats comes back as it was if and only if it happened to be ascending by id. */
  lemma {:induction false} OrderComesBackIff(m: Memory, walk: Walk, codec: ItemCodec, writer: ItemCodec)
    requires Walks(walk, m.cache) && Reads(codec, writer) && Tidy(m.cache) && FacesSmall(m.cache) && ById(walk.chats)
    ensures var back := FromValue(SnapshotValue(m, walk, writer), codec);
            back.Good? && back.value.touched == walk.chats && (back.value.touched == m.cache.touched <==> ById(m.cache.touched))
  {
    hide Reads, FacesSmall, PagesTidy, FacesTidy, SnapshotValue, ById;
    CacheRead(m, walk, codec, writer);
    if ById(m.cache.touched) { ByIdUnique(walk.chats, m.cache.touched); }
  }

  /** After a restart with every place taken, the first chat to give way is the one with the smallest id. It is
      the least recently used one if and only if that one's id was the smallest. */
  lemma {:induction false} SmallestGivesWay(c: CC.CacheState, order: seq<CC.Id>, used: CC.Id, page: seq<CC.Message>, fromStart: bool)
    requires Tidy(c) && Lists(order, c.history.Keys) && ById(order) && |order| == CC.DESKTOP_CACHE_CHATS
    requires used !in order && page != []
    ensures var after := CC.Apply(Revived(c, order), CC.PageCame(used, page, fromStart));
            after.history.Keys == c.history.Keys - {order[0]} + {used} &&
            (forall chat | chat in order && chat != order[0] :: LexLess(order[0], chat)) &&
            c.touched != [] && (order[0] == c.touched[0] <==> forall chat | chat in c.touched && chat != c.touched[0] :: LexLess(c.touched[0], chat))
  {
    hide PagesTidy, FacesTidy, CC.Merge;
    WithoutAbsent(order, used);
    ByIdFromHead(order);
    var revived := Revived(c, order).(confirmed := true, dirty := true);
    var begun := revived.(history := revived.history[used := CC.Merge(revived.Page(used), page)], touched := order + [used]);
    assert begun.touched[1..] == order[1..] + [used];
    var next := begun.(touched := begun.touched[1..], history := begun.history - {order[0]});
    assert begun.Evicted() == next.Evicted() == next;
    FirstIsSmallest(order, c.touched);
  }

  lemma {:induction false} FirstIsSmallest(order: seq<CC.Id>, touched: seq<CC.Id>)
    requires ById(order) && order != [] && forall x :: x in order <==> x in touched
    ensures touched != [] && (forall chat | chat in order && chat != order[0] :: LexLess(order[0], chat))
    ensures order[0] == touched[0] <==> forall chat | chat in touched && chat != touched[0] :: LexLess(touched[0], chat)
  {
    assert order[0] in touched && touched[0] in order;
    ByIdFromHead(order);
    LexTotal(order[0], touched[0]);
  }

  // ---- what comes back ----

  /** A face as large as the wire carries; a larger one is refused with the answer it came in. */
  predicate WithinWire(e: CC.CacheEvent) {
    e.FaceCame? && e.bytes.Some? ==> |e.bytes.value| <= MAX_AVATAR_BYTES
  }

  lemma {:induction false} ApplySmall(c: CC.CacheState, e: CC.CacheEvent)
    requires FacesSmall(c) && WithinWire(e)
    ensures FacesSmall(CC.Apply(c, e))
  {
    hide CC.Merge, CC.MapHistory;
    match e
    case PageCame(chat, page, fromStart) => TouchKeepsFaces(c.(history := c.history[chat := CC.Merge(c.Page(chat), page)], confirmed := true, dirty := true), chat);
    case MessageCame(m) =>
      if m.chat in c.history { TouchKeepsFaces(c.(dirty := true, history := c.history[m.chat := CC.Merge(c.history[m.chat], [m])]), m.chat); }
    case _ =>
  }

  lemma {:induction false} TouchKeepsFaces(c: CC.CacheState, chat: CC.Id)
    ensures c.Touch(chat).avatars == c.avatars && c.Touch(chat).mine == c.mine
  {
    EvictedKeepsFaces(c.(touched := CC.Without(c.touched, chat) + [chat]));
  }

  lemma {:induction false} EvictedKeepsFaces(c: CC.CacheState)
    ensures c.Evicted().avatars == c.avatars && c.Evicted().mine == c.mine
    decreases |c.touched|
  {
    if |c.touched| > CC.DESKTOP_CACHE_CHATS {
      EvictedKeepsFaces(c.(touched := c.touched[1..], history := c.history - {c.touched[0]}));
    }
  }

  /** No face a terminal holds is ever larger than its file may hold. */
  lemma {:induction false} RunSmall(c: CC.CacheState, events: seq<CC.CacheEvent>)
    requires FacesSmall(c) && forall i | 0 <= i < |events| :: WithinWire(events[i])
    ensures FacesSmall(RunFrom(c, events))
  {
    hide FacesSmall, CC.Apply;
    if events != [] {
      var n := |events| - 1;
      RunSmall(c, events[..n]);
      ApplySmall(RunFrom(c, events[..n]), events[n]);
    }
  }

  /** The sealed bytes of any snapshot, of whatever was heard, bring all of it back. */
  lemma {:induction false} EverySnapshotRestores(events: seq<CC.CacheEvent>, m: Memory, other: Memory, walk: Walk, codec: ItemCodec, crypto: Crypto,
                                                 bytes: seq<Byte>, sealed: seq<Byte>, limit: nat)
    requires m.cache == RunFrom(CC.EMPTY, events) && forall i | 0 <= i < |events| :: Lawful(events[i]) && WithinWire(events[i])
    requires Walks(walk, m.cache) && CodecRoundTrips(codec) && Readable(SnapshotValue(m, walk, codec), limit)
    requires EncodeValue(SnapshotValue(m, walk, codec)) == Ok(bytes) && crypto.open(sealed) == Some(bytes)
    ensures Restore(other, sealed, codec, crypto, limit) ==
            (Good(()), Memory(Revived(m.cache, walk.chats), if other.addressDirty then other.address else Readdressed(other.address, m.address),
                              other.addressDirty))
  {
    hide Walks, CodecRoundTrips, Tidy, Readable, SnapshotValue, Restore, CC.Apply;
    RunFromTidy(CC.EMPTY, events);
    RunSmall(CC.EMPTY, events);
    SnapshotRestores(m, other, walk, codec, crypto, bytes, sealed, limit);
  }

  lemma {:induction false} RunFromTidy(c: CC.CacheState, events: seq<CC.CacheEvent>)
    requires c == CC.EMPTY || Tidy(c)
    requires forall i | 0 <= i < |events| :: Lawful(events[i])
    ensures Tidy(RunFrom(c, events))
  {
    hide CC.Apply;
    if events == [] {
      EmptyTidy();
    } else {
      var n := |events| - 1;
      RunFromTidy(c, events[..n]);
      ApplyTidy(RunFrom(c, events[..n]), events[n]);
    }
  }

  lemma {:induction false} EmptyTidy()
    ensures Tidy(CC.EMPTY)
  {
  }

  lemma {:induction false} DeskSmall(start: Watched, k: Keeper, events: seq<DeskEvent>)
    requires k.Orders() && FacesSmall(start.desk.memory.cache)
    requires forall i | 0 <= i < |events| :: events[i].Happened? ==> WithinWire(events[i].e)
    ensures FacesSmall(RunDesk(start, k, events).desk.memory.cache)
  {
    hide FacesSmall, WithinWire;
    if events != [] {
      var n := |events| - 1;
      DeskSmall(start, k, events[..n]);
      NextSmall(RunDesk(start, k, events[..n]), k, events[n]);
    }
  }

  lemma {:induction false} NextSmall(w: Watched, k: Keeper, e: DeskEvent)
    requires k.Orders() && FacesSmall(w.desk.memory.cache) && (e.Happened? ==> WithinWire(e.e))
    ensures FacesSmall(CacheOnDisk.Next(w, k, e).desk.memory.cache)
  {
    hide CC.Apply;
    if e.Happened? { ApplySmall(w.desk.memory.cache, e.e); }
  }

  /** Whatever writes failed on the way: once nothing is pending and nothing is due, another terminal comes up from
      the file with all that this one knows. */
  lemma {:induction false} FileAlwaysOpens(start: Desk, k: Keeper, events: seq<DeskEvent>, other: Memory, limit: nat)
    requires CacheOnDisk.Sound(k) && start.path.Some? && start.pending.None? && Tidy(start.memory.cache) && FacesSmall(start.memory.cache)
    requires forall i | 0 <= i < |events| :: Ordinary(events[i]) && (events[i].Happened? ==> WithinWire(events[i].e))
    requires var end := RunDesk(Watched(start, None), k, events);
             end.last.Some? && end.desk.pending.None? && !SnapshotDue(end.desk.memory) && Readable(k.ValueOf(end.desk.memory), limit)
    ensures var d := RunDesk(Watched(start, None), k, events).desk;
            d.path.Some? && d.path.value in d.files &&
            Restore(other, d.files[d.path.value], k.codec, k.crypto, limit) ==
            (Good(()), Memory(Revived(d.memory.cache, k.order(d.memory.cache.history.Keys)),
                              if other.addressDirty then other.address else Readdressed(other.address, d.memory.address), other.addressDirty))
  {
    hide Tidy, Readable, RunDesk, FacesSmall, Ordinary, WithinWire, Restore, CacheOnDisk.Sound;
    SoundOrders(k);
    FileIsMemory(start, k, events, other, limit);
    DeskSmall(Watched(start, None), k, events);
  }

  lemma {:induction false} SoundOrders(k: Keeper)
    requires CacheOnDisk.Sound(k)
    ensures k.Orders()
  {
  }
}
