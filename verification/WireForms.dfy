/** What the structures look like from outside: under which numbers their fields stand, what is refused, and which letters
    stand for which bits. */
module WireForms {
  import opened Bytes
  import opened Cbor
  import opened Canonical
  import opened Fields
  import B32 = Base32
  import C = Cards
  import E = Envelopes
  import F = Fingerprints
  import S = Snapshots
  import CC = CompanionCache

  // ---- fields ----

  /** A field is the first entry whose key is that number. */
  lemma {:induction false} GetIsFirst(es: seq<Entry>, key: nat)
    ensures Get(es, key).None? <==> forall i | 0 <= i < |es| :: !(es[i].key.Integer? && es[i].key.n == key)
    ensures Get(es, key).Some? ==>
              exists i | 0 <= i < |es| ::
                es[i].key.Integer? && es[i].key.n == key && es[i].val == Get(es, key).value &&
                forall j | 0 <= j < i :: !(es[j].key.Integer? && es[j].key.n == key)
  {
    if es != [] && !(es[0].key.Integer? && es[0].key.n == key) {
      var others := es[1..];
      GetIsFirst(others, key);
      assert forall i | 0 <= i < |others| :: others[i] == es[i + 1];
      if Get(others, key).Some? {
        var i :| 0 <= i < |others| && others[i].key.Integer? && others[i].key.n == key && others[i].val == Get(others, key).value &&
                 forall j | 0 <= j < i :: !(others[j].key.Integer? && others[j].key.n == key);
        assert es[i + 1].val == Get(es, key).value;
        forall j | 0 <= j < i + 1 ensures !(es[j].key.Integer? && es[j].key.n == key) {
          if j > 0 { assert es[j] == others[j - 1]; }
        }
      } else {
        forall i | 0 <= i < |es| ensures !(es[i].key.Integer? && es[i].key.n == key) {
          if i > 0 { assert es[i] == others[i - 1]; }
        }
      }
    }
  }

  /** Version 0 is read, under field 1. A later one is refused as later, with its number; no number at all is refused as no
      number, and no field as a missing one. */
  lemma {:induction false} VersionChecked(es: seq<Entry>)
    ensures var r, field := CheckVersion(es), Get(es, 1);
            (r == Ok(0) <==> field == Some(Integer(0))) && (r.Ok? ==> r == Ok(0)) &&
            (r.Err? && r.error.FutureVersion? <==> field.Some? && field.value.Integer? && field.value.n > 0) &&
            (field.Some? && field.value.Integer? && field.value.n > 0 ==> r == Err(FutureVersion(field.value.n, 0))) &&
            (r == Err(MissingField(1)) <==> field.None?) &&
            (r == Err(TypeMismatch) <==> field.Some? && (field.value.Integer? ==> field.value.n < 0))
  {
  }

  /** A structure of a later version is refused as such, whatever else is in it. */
  lemma {:induction false} LaterVersionsRefused(bytes: seq<Byte>, limit: nat, n: nat)
    requires DecodeValue(bytes, limit).Ok? && DecodeValue(bytes, limit).value.Map?
    requires n > 0 && n < U64 && Get(DecodeValue(bytes, limit).value.entries, 1) == Some(Integer(n))
    ensures E.Decode(bytes, limit) == Err(FutureVersion(n, 0)) && C.Decode(bytes, limit) == Err(FutureVersion(n, 0))
  {
    VersionChecked(DecodeValue(bytes, limit).value.entries);
  }

  /** A field of fixed length is taken at that length only. */
  lemma {:induction false} FixedLength(v: Value, size: nat, bytes: seq<Byte>)
    ensures AsArray(v, size) == Ok(bytes) <==> v == Value.Bytes(bytes) && |bytes| == size
    ensures AsArray(v, size).Err? ==> AsArray(v, size) == Err(TypeMismatch)
  {
  }

  // ---- the envelope ----

  /** The kinds of payload in the order of their codes. */
  const KINDS: seq<E.PayloadType> :=
    [E.TextPayload, E.FileOfferPayload, E.FileChunkPayload, E.PreviewPayload, E.ReceiptPayload, E.GroupMembershipPayload,
     E.SenderKeyPayload, E.CardUpdatePayload, E.AvatarPayload, E.RetractPayload, E.EditPayload, E.ReactionPayload,
     E.ForwardPayload, E.ReplyPayload, E.FileRequestPayload, E.ContactSharePayload, E.CompanionRequestPayload,
     E.CompanionResponsePayload, E.CompanionNoticePayload, E.GroupRosterPayload, E.GroupIntroPayload, E.GroupMessagePayload,
     E.GroupActionPayload, E.FragmentPayload, E.ChannelRequestPayload, E.SwarmPeerPayload, E.SwarmAttachPayload,
     E.SwarmControlPayload, E.ChannelIntroWantedPayload, E.FileHavePayload, E.SwarmBundlePayload, E.ChannelPreviewPayload]

  lemma {:induction false} EarlierCodes(code: u64)
    requires 1 <= code <= 16
    ensures E.FromCode(code) == KINDS[code - 1]
  {
    if code <= 8 {
    } else {
    }
  }

  lemma {:induction false} LaterCodes(code: u64)
    requires 17 <= code <= 32
    ensures E.FromCode(code) == KINDS[code - 1]
  {
    if code <= 24 {
    } else {
    }
  }

  /** Codes are given out from 1 on, in that order; every other code is unknown and kept. */
  lemma {:induction false} CodesInOrder(code: u64)
    ensures |KINDS| == 32
    ensures E.FromCode(code) == if 1 <= code <= 32 then KINDS[code - 1] else E.Unknown(code)
    ensures 1 <= code <= 32 ==> E.Code(KINDS[code - 1]) == code
  {
    E.CodesRoundTrip(code, E.Unknown(0));
    if 1 <= code <= 16 {
      EarlierCodes(code);
    } else if 17 <= code <= 32 {
      LaterCodes(code);
    }
  }

  /** An envelope is a map of what stands under 1 to 8: version, id, clock, kind, payload, and where there are any a group, causes
      and a fragment header; a clock is wall and counter under 1 and 2, a fragment header uid, index and total under 1 to 3. */
  lemma {:induction false} EnvelopeForm(e: E.Envelope)
    ensures E.EnvelopeFields(e) ==
            [Entry(Integer(1), Integer(0)), Entry(Integer(2), Value.Bytes(e.msgId)),
             Entry(Integer(3), Map([Entry(Integer(1), Integer(e.hlc.wallMs)), Entry(Integer(2), Integer(e.hlc.logical))])),
             Entry(Integer(4), Integer(E.Code(e.payloadType))), Entry(Integer(5), e.payload)] +
            (if e.groupId.Some? then [Entry(Integer(6), Value.Bytes(e.groupId.value))] else []) +
            (if e.causalRefs != [] then [Entry(Integer(7), E.RefsValue(e.causalRefs))] else []) +
            (if e.fragment.Some? then
               [Entry(Integer(8), Map([Entry(Integer(1), Value.Bytes(e.fragment.value.uid)),
                                       Entry(Integer(2), Integer(e.fragment.value.index)),
                                       Entry(Integer(3), Integer(e.fragment.value.total))]))]
             else [])
  {
    var base := E.BaseFields(e);
    assert base + [] == base;
    var withGroup := With(base, e.groupId.Some?, 6, E.GroupValue(e));
    assert withGroup + [] == withGroup;
    var withRefs := With(withGroup, e.causalRefs != [], 7, E.RefsValue(e.causalRefs));
    assert withRefs + [] == withRefs;
  }

  /** A cause is its id, and they stand in order. */
  lemma {:induction false} CausesInOrder(refs: seq<E.Id16>, i: nat)
    requires i < |refs|
    ensures E.RefsValue(refs).Array? && |E.RefsValue(refs).items| == |refs| && E.RefsValue(refs).items[i] == Value.Bytes(refs[i])
  {
  }

  // ---- the card ----

  /** A card is a map of what stands under 1 to 10: version, the two keys, two addresses, the name, the number of the card, and
      where there are any a mesh key, a relay key and at most three relays. */
  lemma {:induction false} CardForm(c: C.ContactCard)
    ensures C.CardFields(c) ==
            [Entry(Integer(1), Integer(0)), Entry(Integer(2), Value.Bytes(c.ik)), Entry(Integer(3), Value.Bytes(c.sk)),
             Entry(Integer(4), Text(c.onion)), Entry(Integer(5), Text(c.chatmail)), Entry(Integer(6), Text(c.displayName)),
             Entry(Integer(7), Integer(c.version))] +
            (if c.ygg != [] then [Entry(Integer(8), Value.Bytes(c.ygg))] else []) +
            (if c.nostr != [] then [Entry(Integer(9), Value.Bytes(c.nostr))] else []) +
            (if c.nostrRelays != [] then
               [Entry(Integer(10), Array(C.Texts(if |c.nostrRelays| <= 3 then c.nostrRelays else c.nostrRelays[..3])))]
             else [])
  {
    var base := C.BaseFields(c);
    assert base + [] == base;
    var withYgg := With(base, c.ygg != [], 8, Value.Bytes(c.ygg));
    assert withYgg + [] == withYgg;
    var withNostr := With(withYgg, c.nostr != [], 9, Value.Bytes(c.nostr));
    assert withNostr + [] == withNostr;
  }

  /** An update is taken if and only if both keys are the known card's and its number is higher. */
  lemma {:induction false} UpdateIff(card: C.ContactCard, known: C.ContactCard)
    ensures C.CheckAgainst(card, known).Ok? <==> card.ik == known.ik && card.sk == known.sk && card.version > known.version
    ensures C.CheckAgainst(card, known) == Err(IdentityChanged) <==> card.ik != known.ik || card.sk != known.sk
    ensures card.ik == known.ik && card.sk == known.sk && card.version <= known.version ==>
              C.CheckAgainst(card, known) == Err(StaleCardVersion(card.version, known.version))
  {
  }

  /** Whoever has the newest card of an identity has the newest of all that were offered: none is passed over. */
  lemma {:induction false} NewestIsKnown(first: C.ContactCard, updates: seq<C.ContactCard>, i: nat)
    requires i < |updates| && updates[i].ik == first.ik && updates[i].sk == first.sk
    ensures C.Known(first, updates).version >= updates[i].version
  {
    var n := |updates| - 1;
    var init := updates[..n];
    C.UpdatesOnlyForward(first, init, 0);
    assert C.Known(first, init).ik == first.ik && C.Known(first, init).sk == first.sk;
    if i < n {
      assert init[i] == updates[i];
      NewestIsKnown(first, init, i);
    }
  }

  // ---- base32 ----

  /** Digits read as one number, the first weighing most. */
  function Number(digits: seq<B32.Digit>): nat {
    if digits == [] then 0 else 32 * Number(digits[..|digits| - 1]) + digits[|digits| - 1]
  }

  lemma {:induction false} BytesAreBits(data: seq<Byte>)
    ensures B32.ToNat(B32.BytesToBits(data)) == FromBE(data)
  {
    hide B32.ByteBits;
    if data != [] {
      var n := |data| - 1;
      BytesAreBits(data[..n]);
      B32.AddByte(data, n);
      assert data[..n + 1] == data;
    }
  }

  lemma {:induction false} GroupsAreBits(bits: seq<bool>)
    requires |bits| % 5 == 0
    ensures Number(B32.Groups(bits)) == B32.ToNat(bits)
  {
    hide B32.Group;
    if bits != [] {
      var front, last := bits[..|bits| - 5], bits[|bits| - 5..];
      assert bits == front + last;
      GroupsAreBits(front);
      B32.GroupsAppend(front, last);
      B32.ToNatAppend(front, last);
      B32.SmallPowers();
      GroupNumber(last);
      var digits := B32.Groups(bits);
      assert digits[..|digits| - 1] == B32.Groups(front);
    }
  }

  lemma {:induction false} GroupNumber(bits: seq<bool>)
    requires |bits| == 5
    ensures B32.Group(bits) == B32.ToNat(bits)
  {
  }

  /** The digits of some bytes are the number the bytes are, the first byte weighing most, with as many zero bits after it as
      complete the last digit. */
  lemma {:induction false} DigitsAreTheNumber(data: seq<Byte>)
    ensures var pad := 5 * |B32.Digits(data)| - 8 * |data|;
            0 <= pad < 5 && Number(B32.Digits(data)) == FromBE(data) * B32.Pow2(pad)
  {
    hide B32.Group, B32.ByteBits;
    var bits := B32.BytesToBits(data);
    var padded := B32.Padded(bits);
    var pad := |padded| - |bits|;
    assert padded == bits + B32.Zeros(pad);
    BytesAreBits(data);
    GroupsAreBits(padded);
    B32.ToNatAppend(bits, B32.Zeros(pad));
    B32.ToNatZeros(pad);
  }

  /** The letters of section 6 of RFC 4648: A to Z, then 2 to 7. */
  lemma {:induction false} CardLetters(d: B32.Digit)
    ensures C.Symbol(d) == "ABCDEFGHIJKLMNOPQRSTUVWXYZ234567"[d]
    ensures C.Symbol(d) as int == if d < 26 then 65 + d else 50 + (d - 26)
  {
  }

  /** The symbols people compare: the digits and then the capitals, ascending, without I, L, O and U. */
  lemma {:induction false} ComparedSymbols(d: B32.Digit, e: B32.Digit)
    ensures d < e ==> F.Symbol(d) < F.Symbol(e)
    ensures '0' <= F.Symbol(d) <= '9' || 'A' <= F.Symbol(d) <= 'Z'
    ensures F.Symbol(d) !in {'I', 'L', 'O', 'U'}
  {
  }

  // ---- the snapshot ----

  /** A snapshot is a map under 1 to 12: its version, the chats, the pages, the faces, one's own face if there is one, and the
      phone's address. */
  lemma {:induction false} SnapshotForm(m: S.Memory, walk: S.Walk, codec: S.ItemCodec)
    requires S.Walks(walk, m.cache)
    ensures S.SnapshotFields(m, walk, codec) ==
            [Entry(Integer(1), Integer(2)), Entry(Integer(2), Array(S.ChatValues(m.cache.chats, codec))),
             Entry(Integer(3), Array(S.PageValues(m.cache.history, walk.chats, codec))),
             Entry(Integer(6), Array(S.FaceValues(m.cache.avatars, walk.faces)))] +
            (if m.cache.mine.Some? then
               [Entry(Integer(7), Map([Entry(Integer(8), Value.Bytes(m.cache.mine.value.bytes)), Entry(Integer(9), Integer(m.cache.mine.value.stamp))]))]
             else []) +
            [Entry(Integer(10), Text(m.address.onion)), Entry(Integer(11), Value.Bytes(m.address.ygg)),
             Entry(Integer(12), Array(S.PeerValues(m.address.peers)))]
    ensures forall i | 0 <= i < |walk.chats| ::
              S.PageValues(m.cache.history, walk.chats, codec)[i] ==
              Map([Entry(Integer(4), Value.Bytes(walk.chats[i])),
                   Entry(Integer(5), Array(S.MessageValues(m.cache.history[walk.chats[i]], codec)))])
    ensures forall i | 0 <= i < |walk.faces| ::
              S.FaceValues(m.cache.avatars, walk.faces)[i] ==
              Map([Entry(Integer(4), Value.Bytes(walk.faces[i])), Entry(Integer(8), Value.Bytes(m.cache.avatars[walk.faces[i]].bytes)),
                   Entry(Integer(9), Integer(m.cache.avatars[walk.faces[i]].stamp))])
  {
  }

  /** A snapshot of another version is refused as such, and nothing else is. */
  lemma {:induction false} VersionRefused(es: seq<Entry>, codec: S.ItemCodec)
    ensures S.FromValue(Map(es), codec) == S.Bad(S.Version) <==>
            Get(es, 1).Some? && Get(es, 1).value.Integer? && Get(es, 1).value.n >= 0 && Get(es, 1).value.n != 2
  {
    hide Get;
    if S.FromValue(Map(es), codec) == S.Bad(S.Version) { OnlyCodecErrors(es, codec); }
  }

  /** Every other refusal is the codec's. */
  lemma {:induction false} OnlyCodecErrors(es: seq<Entry>, codec: S.ItemCodec)
    ensures S.FromValue(Map(es), codec).Bad? && Get(es, 1) == Some(Integer(2)) ==> S.FromValue(Map(es), codec).why.Codec?
  {
    hide Get;
    var rawChats, rawHistory := Get(es, 2), Get(es, 3);
    if rawChats.Some? && rawChats.value.Array? && rawHistory.Some? && rawHistory.value.Array? {
      ChatErrors(rawChats.value.items, codec);
      var chats := S.ChatsFrom(rawChats.value.items, codec);
      if chats.Good? {
        var empty := CC.EMPTY.(chats := chats.value);
        PageErrors(empty, rawHistory.value.items, codec);
        var paged := S.PagesFrom(empty, rawHistory.value.items, codec);
        if paged.Good? && Get(es, 6).Some? && Get(es, 6).value.Array? { FaceErrors(paged.value, S.FirstFaces(Get(es, 6).value.items)); }
      }
    }
  }

  lemma {:induction false} ChatErrors(items: seq<Value>, codec: S.ItemCodec)
    ensures S.ChatsFrom(items, codec).Bad? ==> S.ChatsFrom(items, codec).why.Codec?
  {
    if items != [] { ChatErrors(items[1..], codec); }
  }

  lemma {:induction false} MessageErrors(items: seq<Value>, codec: S.ItemCodec)
    ensures S.MessagesFrom(items, codec).Bad? ==> S.MessagesFrom(items, codec).why.Codec?
  {
    if items != [] { MessageErrors(items[1..], codec); }
  }

  lemma {:induction false} PageErrors(c: CC.CacheState, items: seq<Value>, codec: S.ItemCodec)
    ensures S.PagesFrom(c, items, codec).Bad? ==> S.PagesFrom(c, items, codec).why.Codec?
    decreases |items|
  {
    hide CC.CacheState.Touch, CC.Trim;
    if items != [] {
      if items[0].Map? {
        var page := Get(items[0].entries, 5);
        if page.Some? && page.value.Array? { MessageErrors(page.value.items, codec); }
      }
      var next := S.PageFrom(c, items[0], codec);
      if next.Good? { PageErrors(next.value, items[1..], codec); }
    }
  }

  lemma {:induction false} FaceErrors(c: CC.CacheState, items: seq<Value>)
    ensures S.FacesFrom(c, items).Bad? ==> S.FacesFrom(c, items).why.Codec?
    decreases |items|
  {
    if items != [] {
      var face := if items[0].Map? then S.FaceFrom(items[0].entries) else S.Bad(S.Codec(TypeMismatch));
      if items[0].Map? && Get(items[0].entries, 4).Some? && AsArray(Get(items[0].entries, 4).value, 16).Ok? && face.Good? {
        FaceErrors(c.(avatars := c.avatars[AsArray(Get(items[0].entries, 4).value, 16).value := face.value]), items[1..]);
      }
    }
  }

  /** Whatever fails, the memory stays as it was; what opens is unchanged and unconfirmed until something happens. */
  lemma {:induction false} RestoreAllOrNothing(m: S.Memory, sealed: seq<Byte>, codec: S.ItemCodec, crypto: S.Crypto, limit: nat)
    ensures var r := S.Restore(m, sealed, codec, crypto, limit);
            (r.0.Bad? ==> r.1 == m) && r.1.addressDirty == m.addressDirty && (m.addressDirty ==> r.1.address == m.address)
  {
  }

  // ---- texts people see ----

  /** A link is the twelve letters of the scheme and then a letter for each digit. */
  lemma {:induction false} LinkForm(bytes: seq<Byte>, i: nat)
    requires i < |B32.Digits(bytes)|
    ensures |C.UriOf(bytes)| == 12 + |B32.Digits(bytes)| && C.UriOf(bytes)[..12] == "ratatosk:v0:"
    ensures C.UriOf(bytes)[12 + i] == C.Symbol(B32.Digits(bytes)[i])
  {
  }

  lemma {:induction false} JoinedAt(groups: seq<string>, i: nat, j: nat)
    requires i < |groups| && j < 4 && forall k | 0 <= k < |groups| :: |groups[k]| == 4
    ensures |F.JoinedBy(groups)| == 5 * |groups| - 1 && F.JoinedBy(groups)[5 * i + j] == groups[i][j]
    ensures i + 1 < |groups| ==> F.JoinedBy(groups)[5 * i + 4] == '-'
  {
    if |groups| > 1 {
      JoinedAt(groups[1..], if i == 0 then 0 else i - 1, j);
    }
  }

  lemma {:induction false} GroupAt(text: string, i: nat, j: nat)
    requires |text| == 24 && i < 6 && j < 4
    ensures |F.Grouped(text)[i]| == 4 && F.Grouped(text)[i][j] == text[4 * i + j]
  {
  }

  /** A fingerprint is twenty-four symbols, one for each digit of the first fifteen bytes, in fours with a dash between. */
  lemma {:induction false} FingerprintForm(digest: seq<Byte>, i: nat, j: nat)
    requires |digest| >= 15 && i < 6 && j < 4
    ensures var text, digits := F.Fingerprint(digest), B32.Digits(digest[..15]);
            |text| == 29 && |digits| == 24 && text[5 * i + j] == F.Symbol(digits[4 * i + j]) && (i < 5 ==> text[5 * i + 4] == '-')
  {
    hide B32.Digits, F.Symbol, F.JoinedBy;
    var digits := B32.Digits(digest[..15]);
    var symbols := F.Symbols(digits);
    F.SixGroupsOfFour(symbols);
    JoinedAt(F.Grouped(symbols), i, j);
    GroupAt(symbols, i, j);
  }

  /** A fragment header counts from 0 up to its total, of 4096 at most. */
  lemma {:induction false} FragmentIff(f: E.Fragment)
    ensures f.Validate().Ok? <==> f.index < f.total <= 4096
    ensures f.Validate().Ok? <==> f.Valid()
  {
  }
}
