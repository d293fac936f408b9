/** The message envelope and its canonical encoding. */
module Envelopes {
  import opened Bytes
  import opened Cbor
  import opened Canonical
  import opened CanonicalLaws
  import opened CanonicalTheorems
  import opened Fields

  const MAX_FRAGMENTS := 4096
  const ASSIGNED_CODES := 32

  const KEY_MSG_ID := 2
  const KEY_HLC := 3
  const KEY_PAYLOAD_TYPE := 4
  const KEY_PAYLOAD := 5
  const KEY_GROUP_ID := 6
  const KEY_CAUSAL_REFS := 7
  const KEY_FRAGMENT := 8

  const KEY_HLC_WALL := 1
  const KEY_HLC_LOGICAL := 2
  const KEY_FRAG_UID := 1
  const KEY_FRAG_INDEX := 2
  const KEY_FRAG_TOTAL := 3

  type Id16 = s: seq<Byte> | |s| == 16 witness seq(16, _ => 0)
  type u32 = n: int | 0 <= n < 0x1_0000_0000

  datatype PayloadType =
    | TextPayload | FileOfferPayload | FileChunkPayload | PreviewPayload | ReceiptPayload | GroupMembershipPayload
    | SenderKeyPayload | CardUpdatePayload | AvatarPayload | RetractPayload | EditPayload | ReactionPayload
    | ForwardPayload | ReplyPayload | FileRequestPayload | ContactSharePayload | CompanionRequestPayload | CompanionResponsePayload
    | CompanionNoticePayload | GroupRosterPayload | GroupIntroPayload | GroupMessagePayload | GroupActionPayload | FragmentPayload
    | ChannelRequestPayload | SwarmPeerPayload | SwarmAttachPayload | SwarmControlPayload | ChannelIntroWantedPayload | FileHavePayload
    | SwarmBundlePayload | ChannelPreviewPayload
    | Unknown(code: u64)

  function Code(t: PayloadType): u64 {
    match t
    case TextPayload => 1
    case FileOfferPayload => 2
    case FileChunkPayload => 3
    case PreviewPayload => 4
    case ReceiptPayload => 5
    case GroupMembershipPayload => 6
    case SenderKeyPayload => 7
    case CardUpdatePayload => 8
    case AvatarPayload => 9
    case RetractPayload => 10
    case EditPayload => 11
    case ReactionPayload => 12
    case ForwardPayload => 13
    case ReplyPayload => 14
    case FileRequestPayload => 15
    case ContactSharePayload => 16
    case CompanionRequestPayload => 17
    case CompanionResponsePayload => 18
    case CompanionNoticePayload => 19
    case GroupRosterPayload => 20
    case GroupIntroPayload => 21
    case GroupMessagePayload => 22
    case GroupActionPayload => 23
    case FragmentPayload => 24
    case ChannelRequestPayload => 25
    case SwarmPeerPayload => 26
    case SwarmAttachPayload => 27
    case SwarmControlPayload => 28
    case ChannelIntroWantedPayload => 29
    case FileHavePayload => 30
    case SwarmBundlePayload => 31
    case ChannelPreviewPayload => 32
    case Unknown(code) => code
  }

  function FromCode(code: u64): PayloadType {
    match code
    case 1 => TextPayload
    case 2 => FileOfferPayload
    case 3 => FileChunkPayload
    case 4 => PreviewPayload
    case 5 => ReceiptPayload
    case 6 => GroupMembershipPayload
    case 7 => SenderKeyPayload
    case 8 => CardUpdatePayload
    case 9 => AvatarPayload
    case 10 => RetractPayload
    case 11 => EditPayload
    case 12 => ReactionPayload
    case 13 => ForwardPayload
    case 14 => ReplyPayload
    case 15 => FileRequestPayload
    case 16 => ContactSharePayload
    case 17 => CompanionRequestPayload
    case 18 => CompanionResponsePayload
    case 19 => CompanionNoticePayload
    case 20 => GroupRosterPayload
    case 21 => GroupIntroPayload
    case 22 => GroupMessagePayload
    case 23 => GroupActionPayload
    case 24 => FragmentPayload
    case 25 => ChannelRequestPayload
    case 26 => SwarmPeerPayload
    case 27 => SwarmAttachPayload
    case 28 => SwarmControlPayload
    case 29 => ChannelIntroWantedPayload
    case 30 => FileHavePayload
    case 31 => SwarmBundlePayload
    case 32 => ChannelPreviewPayload
    case _ => Unknown(code)
  }

  /** Every code survives; a type survives unless it calls an assigned code unknown. */
  lemma {:induction false} CodesRoundTrip(code: u64, t: PayloadType)
    ensures Code(FromCode(code)) == code
    ensures FromCode(Code(t)) == t <==> !(t.Unknown? && 1 <= t.code <= ASSIGNED_CODES)
  {
  }

  datatype Hlc = Hlc(wallMs: u64, logical: u32)

  datatype Fragment = Fragment(uid: Id16, index: u64, total: u64) {
    predicate Valid() {
      index < total <= MAX_FRAGMENTS
    }

    function Validate(): Result<()> {
      if total == 0 || total > MAX_FRAGMENTS || index >= total then Err(TypeMismatch) else Ok(())
    }
  }

  datatype Envelope = Envelope(msgId: Id16, hlc: Hlc, payloadType: PayloadType, payload: Value,
                               groupId: Option<seq<Byte>>, causalRefs: seq<Id16>, fragment: Option<Fragment>)

  function HlcValue(hlc: Hlc): Value {
    Map([Field(KEY_HLC_WALL, Integer(hlc.wallMs)), Field(KEY_HLC_LOGICAL, Integer(hlc.logical))])
  }

  function RefsValue(refs: seq<Id16>): Value {
    Array(seq(|refs|, i requires 0 <= i < |refs| => Value.Bytes(refs[i])))
  }

  function FragmentValue(f: Fragment): Value {
    Map([Field(KEY_FRAG_UID, Value.Bytes(f.uid)), Field(KEY_FRAG_INDEX, Integer(f.index)), Field(KEY_FRAG_TOTAL, Integer(f.total))])
  }

  function BaseFields(e: Envelope): seq<Entry> {
    [Field(KEY_PROTOCOL_VERSION, Integer(PROTOCOL_VERSION)),
     Field(KEY_MSG_ID, Value.Bytes(e.msgId)),
     Field(KEY_HLC, HlcValue(e.hlc)),
     Field(KEY_PAYLOAD_TYPE, Integer(Code(e.payloadType))),
     Field(KEY_PAYLOAD, e.payload)]
  }

  function EnvelopeFields(e: Envelope): seq<Entry> {
    var withGroup := With(BaseFields(e), e.groupId.Some?, KEY_GROUP_ID, GroupValue(e));
    var withRefs := With(withGroup, e.causalRefs != [], KEY_CAUSAL_REFS, RefsValue(e.causalRefs));
    With(withRefs, e.fragment.Some?, KEY_FRAGMENT, if e.fragment.Some? then FragmentValue(e.fragment.value) else Null)
  }

  function GroupValue(e: Envelope): Value {
    if e.groupId.Some? then Value.Bytes(e.groupId.value) else Null
  }

  function Encode(e: Envelope): Result<seq<Byte>> {
    if e.fragment.Some? && e.fragment.value.Validate().Err? then Err(TypeMismatch)
    else EncodeValue(Map(EnvelopeFields(e)))
  }

  function ParseHlc(es: seq<Entry>): Result<Hlc> {
    var hlc :- Require(es, KEY_HLC);
    var fields :- AsMap(hlc);
    var rawLogical :- Require(fields, KEY_HLC_LOGICAL);
    var logical :- AsU64(rawLogical);
    var rawWall :- Require(fields, KEY_HLC_WALL);
    var wall :- AsU64(rawWall);
    if logical < 0x1_0000_0000 then Ok(Hlc(wall, logical)) else Err(TypeMismatch)
  }

  function ParseRefs(items: seq<Value>): (r: Result<seq<Id16>>) {
    if items == [] then Ok([])
    else
      var first :- AsArray(items[0], 16);
      var others :- ParseRefs(items[1..]);
      Ok([first] + others)
  }

  function ParseCausalRefs(es: seq<Entry>): Result<seq<Id16>> {
    match Get(es, KEY_CAUSAL_REFS)
    case Some(Array(items)) => ParseRefs(items)
    case Some(_) => Err(TypeMismatch)
    case None => Ok([])
  }

  function ParseFragment(es: seq<Entry>): (r: Result<Option<Fragment>>)
    ensures r.Ok? && r.value.Some? ==> r.value.value.Valid()
  {
    match Get(es, KEY_FRAGMENT)
    case None => Ok(None)
    case Some(v) =>
      var fields :- AsMap(v);
      var rawUid :- Require(fields, KEY_FRAG_UID);
      var uid :- AsArray(rawUid, 16);
      var rawIndex :- Require(fields, KEY_FRAG_INDEX);
      var index :- AsU64(rawIndex);
      var rawTotal :- Require(fields, KEY_FRAG_TOTAL);
      var total :- AsU64(rawTotal);
      var f := Fragment(uid, index, total);
      var _ :- f.Validate();
      Ok(Some(f))
  }

  function ParseGroupId(es: seq<Entry>): Result<Option<seq<Byte>>> {
    match Get(es, KEY_GROUP_ID)
    case None => Ok(None)
    case Some(v) =>
      var bytes :- AsBytes(v);
      Ok(Some(bytes))
  }

  function Parse(es: seq<Entry>): (r: Result<Envelope>)
    ensures r.Ok? && r.value.fragment.Some? ==> r.value.fragment.value.Valid()
  {
    var _ :- CheckVersion(es);
    var hlc :- ParseHlc(es);
    var causalRefs :- ParseCausalRefs(es);
    var fragment :- ParseFragment(es);
    var rawId :- Require(es, KEY_MSG_ID);
    var msgId :- AsArray(rawId, 16);
    var rawType :- Require(es, KEY_PAYLOAD_TYPE);
    var code :- AsU64(rawType);
    var payload :- Require(es, KEY_PAYLOAD);
    var groupId :- ParseGroupId(es);
    Ok(Envelope(msgId, hlc, FromCode(code), payload, groupId, causalRefs, fragment))
  }

  function Decode(bytes: seq<Byte>, limit: nat): Result<Raw<Envelope>> {
    var value :- DecodeValue(bytes, limit);
    var es :- AsMap(value);
    var envelope :- Parse(es);
    Ok(Raw(bytes, envelope))
  }

  // ---- laws ----

  lemma {:induction false} EnvelopeFieldsAre(e: Envelope, key: nat)
    ensures Numbered(EnvelopeFields(e)) && |EnvelopeFields(e)| >= 5 && EnvelopeFields(e)[..5] == BaseFields(e)
    ensures Get(EnvelopeFields(e), key) ==
      if key == KEY_GROUP_ID then (if e.groupId.Some? then Some(GroupValue(e)) else None)
      else if key == KEY_CAUSAL_REFS then (if e.causalRefs != [] then Some(RefsValue(e.causalRefs)) else None)
      else if key == KEY_FRAGMENT then (if e.fragment.Some? then Some(FragmentValue(e.fragment.value)) else None)
      else Get(BaseFields(e), key)
  {
    hide Get, NumberedBelow, Numbered, RefsValue, GroupValue, FragmentValue, HlcValue;
    var base := BaseFields(e);
    var fragment := if e.fragment.Some? then FragmentValue(e.fragment.value) else Null;
    EnvelopeNumbered(e);
    if key >= 6 { AbsentAbove(base, 6, key); }
    NumberedWith(base, 6, e.groupId.Some?, KEY_GROUP_ID, GroupValue(e));
    GetWith(base, 6, e.groupId.Some?, KEY_GROUP_ID, GroupValue(e), key);
    var withGroup := With(base, e.groupId.Some?, KEY_GROUP_ID, GroupValue(e));
    NumberedWith(withGroup, 7, e.causalRefs != [], KEY_CAUSAL_REFS, RefsValue(e.causalRefs));
    GetWith(withGroup, 7, e.causalRefs != [], KEY_CAUSAL_REFS, RefsValue(e.causalRefs), key);
    var withRefs := With(withGroup, e.causalRefs != [], KEY_CAUSAL_REFS, RefsValue(e.causalRefs));
    NumberedWith(withRefs, 8, e.fragment.Some?, KEY_FRAGMENT, fragment);
    GetWith(withRefs, 8, e.fragment.Some?, KEY_FRAGMENT, fragment, key);
    NumberedIs(EnvelopeFields(e), 9);
  }

  lemma {:induction false} EnvelopeNumbered(e: Envelope)
    ensures NumberedBelow(BaseFields(e), 6)
  {
  }

  lemma {:induction false} RefsInOrder(refs: seq<Id16>)
    ensures InOrder(RefsValue(refs))
  {
  }

  lemma {:induction false} FieldsInOrder(e: Envelope)
    ensures forall i | 0 <= i < |EnvelopeFields(e)| && i != 4 :: InOrder(EnvelopeFields(e)[i].val)
  {
    hide RefsValue, HlcValue, FragmentValue;
    RefsInOrder(e.causalRefs);
    HlcInOrder(e.hlc);
    if e.fragment.Some? { FragmentInOrder(e.fragment.value); }
  }

  lemma {:induction false} HlcInOrder(hlc: Hlc)
    ensures InOrder(HlcValue(hlc))
  {
    NumberedInOrder(HlcValue(hlc).entries);
  }

  lemma {:induction false} FragmentInOrder(f: Fragment)
    ensures InOrder(FragmentValue(f))
  {
    NumberedInOrder(FragmentValue(f).entries);
  }

  lemma {:induction false} ParsesRefs(refs: seq<Id16>)
    ensures ParseRefs(RefsValue(refs).items) == Ok(refs)
  {
    if refs != [] {
      ParsesRefs(refs[1..]);
      assert RefsValue(refs).items[1..] == RefsValue(refs[1..]).items;
      assert refs == [refs[0]] + refs[1..];
    }
  }

  lemma {:induction false} ParsesBase(e: Envelope)
    ensures
      var es := EnvelopeFields(e);
      CheckVersion(es) == Ok(PROTOCOL_VERSION) && Require(es, KEY_MSG_ID) == Ok(Value.Bytes(e.msgId)) &&
      Require(es, KEY_HLC) == Ok(HlcValue(e.hlc)) &&
      Require(es, KEY_PAYLOAD_TYPE) == Ok(Integer(Code(e.payloadType))) && Require(es, KEY_PAYLOAD) == Ok(e.payload)
  {
    hide Get, EnvelopeFields, HlcValue, Code;
    var base := BaseFields(e);
    forall i | 0 <= i < 5
      ensures Get(EnvelopeFields(e), base[i].key.n) == Some(base[i].val)
    {
      EnvelopeFieldsAre(e, base[i].key.n);
      EnvelopeNumbered(e);
      GetAt(base, i);
    }
    assert base[0].key.n == 1 && base[1].key.n == 2 && base[2].key.n == 3 && base[3].key.n == 4 && base[4].key.n == 5;
  }

  lemma {:induction false} ParsesHlc(hlc: Hlc)
    ensures Get(HlcValue(hlc).entries, KEY_HLC_WALL) == Some(Integer(hlc.wallMs))
    ensures Get(HlcValue(hlc).entries, KEY_HLC_LOGICAL) == Some(Integer(hlc.logical))
  {
    GetAt(HlcValue(hlc).entries, 0);
    GetAt(HlcValue(hlc).entries, 1);
  }

  lemma {:induction false} ParsesOptional(e: Envelope)
    ensures
      var es := EnvelopeFields(e);
      Get(es, KEY_GROUP_ID) == (if e.groupId.Some? then Some(GroupValue(e)) else None) &&
      Get(es, KEY_CAUSAL_REFS) == (if e.causalRefs != [] then Some(RefsValue(e.causalRefs)) else None) &&
      Get(es, KEY_FRAGMENT) == (if e.fragment.Some? then Some(FragmentValue(e.fragment.value)) else None)
  {
    EnvelopeFieldsAre(e, KEY_GROUP_ID);
    EnvelopeFieldsAre(e, KEY_CAUSAL_REFS);
    EnvelopeFieldsAre(e, KEY_FRAGMENT);
  }

  lemma {:induction false} ParsesFragment(f: Fragment)
    ensures
      var es := FragmentValue(f).entries;
      Get(es, KEY_FRAG_UID) == Some(Value.Bytes(f.uid)) && Get(es, KEY_FRAG_INDEX) == Some(Integer(f.index)) &&
      Get(es, KEY_FRAG_TOTAL) == Some(Integer(f.total))
  {
    GetAt(FragmentValue(f).entries, 0);
    GetAt(FragmentValue(f).entries, 1);
    GetAt(FragmentValue(f).entries, 2);
  }

  /** Parsing gives back every field that was written; of the type, its code. */
  lemma {:induction false} ParseFields(e: Envelope)
    requires e.fragment.Some? ==> e.fragment.value.Valid()
    ensures Parse(EnvelopeFields(e)) == Ok(e.(payloadType := FromCode(Code(e.payloadType))))
  {
    hide Get, EnvelopeFields, FromCode, Code, CheckVersion;
    ParsesBase(e);
    ParsesHlc(e.hlc);
    ParsesOptional(e);
    if e.causalRefs != [] { ParsesRefs(e.causalRefs); }
    if e.fragment.Some? { ParsesFragment(e.fragment.value); }
  }

  /** What one side encodes the other decodes: the payload in canonical form, everything else as it
      was, and the bytes kept. The payload alone decides whether a well-formed envelope encodes. */
  lemma {:induction false} EnvelopeRoundTrip(e: Envelope, limit: nat)
    requires e.fragment.Some? ==> e.fragment.value.Valid()
    requires Readable(Map(EnvelopeFields(e)), limit)
    ensures Encode(e).Ok? <==> Canonicalize(e.payload).Ok?
    ensures Encode(e).Ok? ==>
              Decode(Encode(e).value, limit)
                == Ok(Raw(Encode(e).value, e.(payload := Canonicalize(e.payload).value,
                                              payloadType := FromCode(Code(e.payloadType)))))
  {
    hide Parse, FromCode, Code, Readable, Canonicalize, DecodeValue;
    var es := EnvelopeFields(e);
    EnvelopeFieldsAre(e, KEY_PAYLOAD);
    FieldsInOrder(e);
    assert es[4] == Field(KEY_PAYLOAD, e.payload) by { assert es[..5][4] == BaseFields(e)[4]; }
    CanonicalField(es, 4, limit);
    if Encode(e).Ok? {
      var c := e.(payload := Canonicalize(e.payload).value);
      assert Replaced(es, 4, c.payload) == EnvelopeFields(c);
      DecodeEncode(Map(es), limit);
      ParseFields(c);
    }
  }

  /** An envelope with a bad fragment header is never encoded, and none is ever decoded. */
  lemma {:induction false} FragmentsValid(e: Envelope, bytes: seq<Byte>, limit: nat)
    ensures e.fragment.Some? && !e.fragment.value.Valid() ==> Encode(e) == Err(TypeMismatch)
    ensures Decode(bytes, limit).Ok? ==>
              var raw := Decode(bytes, limit).value;
              raw.bytes == bytes &&
              (raw.value.fragment.Some? ==> raw.value.fragment.value.index < raw.value.fragment.value.total <= MAX_FRAGMENTS)
  {
  }

  // ---- the code that pushes optional entries onto one vector ----

  method EncodeInPlace(e: Envelope) returns (r: Result<seq<Byte>>)
    ensures r == Encode(e)
  {
    var entries := [
      Field(KEY_PROTOCOL_VERSION, Integer(PROTOCOL_VERSION)),
      Field(KEY_MSG_ID, Value.Bytes(e.msgId)),
      Field(KEY_HLC, HlcValue(e.hlc)),
      Field(KEY_PAYLOAD_TYPE, Integer(Code(e.payloadType))),
      Field(KEY_PAYLOAD, e.payload)
    ];
    if e.groupId.Some? {
      entries := entries + [Field(KEY_GROUP_ID, Value.Bytes(e.groupId.value))];
    }
    if e.causalRefs != [] {
      entries := entries + [Field(KEY_CAUSAL_REFS, RefsValue(e.causalRefs))];
    }
    if e.fragment.Some? {
      var valid := e.fragment.value.Validate();
      if valid.Err? { return Err(valid.error); }
      entries := entries + [Field(KEY_FRAGMENT, FragmentValue(e.fragment.value))];
    }
    assert entries == EnvelopeFields(e);
    r := EncodeValue(Map(entries));
  }
}
