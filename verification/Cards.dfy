/** Contact cards: canonical bytes, the link that carries them, and updates. */
module Cards {
  import opened Bytes
  import opened Cbor
  import opened Canonical
  import opened CanonicalLaws
  import opened CanonicalTheorems
  import opened Fields
  import B32 = Base32

  const URI_PREFIX := "ratatosk:v0:"
  const YGG_KEY_LEN := 32
  const NOSTR_KEY_LEN := 32
  const MAX_CARD_RELAYS := 3

  const KEY_IK := 2
  const KEY_SK := 3
  const KEY_ONION := 4
  const KEY_CHATMAIL := 5
  const KEY_DISPLAY_NAME := 6
  const KEY_VERSION := 7
  const KEY_YGG := 8
  const KEY_NOSTR := 9
  const KEY_NOSTR_RELAYS := 10

  type Key32 = s: seq<Byte> | |s| == 32 witness seq(32, _ => 0)

  datatype ContactCard = ContactCard(ik: Key32, sk: Key32, onion: Utf8, chatmail: Utf8, displayName: Utf8, version: u64,
                                     ygg: seq<Byte>, nostr: seq<Byte>, nostrRelays: seq<Utf8>)

  function Take<T>(s: seq<T>, n: nat): (t: seq<T>)
    ensures t <= s && |t| == if |s| <= n then |s| else n
  {
    if |s| <= n then s else s[..n]
  }

  function Texts(urls: seq<Utf8>): (items: seq<Value>)
    ensures |items| == |urls|
  {
    seq(|urls|, i requires 0 <= i < |urls| => Text(urls[i]))
  }

  function BaseFields(c: ContactCard): seq<Entry> {
    [Field(KEY_PROTOCOL_VERSION, Integer(PROTOCOL_VERSION)),
     Field(KEY_IK, Value.Bytes(c.ik)),
     Field(KEY_SK, Value.Bytes(c.sk)),
     Field(KEY_ONION, Text(c.onion)),
     Field(KEY_CHATMAIL, Text(c.chatmail)),
     Field(KEY_DISPLAY_NAME, Text(c.displayName)),
     Field(KEY_VERSION, Integer(c.version))]
  }

  function CardFields(c: ContactCard): seq<Entry> {
    var withYgg := With(BaseFields(c), c.ygg != [], KEY_YGG, Value.Bytes(c.ygg));
    var withNostr := With(withYgg, c.nostr != [], KEY_NOSTR, Value.Bytes(c.nostr));
    With(withNostr, c.nostrRelays != [], KEY_NOSTR_RELAYS, RelaysValue(c))
  }

  function RelaysValue(c: ContactCard): Value {
    Array(Texts(Take(c.nostrRelays, MAX_CARD_RELAYS)))
  }

  function Encode(c: ContactCard): Result<seq<Byte>> {
    EncodeValue(Map(CardFields(c)))
  }

  /** A key of another length is dropped, the card is not. */
  function KeyOrNothing(es: seq<Entry>, key: nat, size: nat): seq<Byte> {
    match Get(es, key)
    case Some(Bytes(bytes)) => if |bytes| == size then bytes else []
    case _ => []
  }

  /** What is not text is skipped. */
  function OnlyTexts(items: seq<Value>): seq<Utf8> {
    if items == [] then []
    else if items[0].Text? then [items[0].text] + OnlyTexts(items[1..])
    else OnlyTexts(items[1..])
  }

  function Relays(es: seq<Entry>): seq<Utf8> {
    match Get(es, KEY_NOSTR_RELAYS)
    case Some(Array(items)) => Take(OnlyTexts(items), MAX_CARD_RELAYS)
    case _ => []
  }

  function Parse(es: seq<Entry>): Result<ContactCard> {
    var _ :- CheckVersion(es);
    var rawIk :- Require(es, KEY_IK);
    var ik :- AsArray(rawIk, 32);
    var rawSk :- Require(es, KEY_SK);
    var sk :- AsArray(rawSk, 32);
    var rawOnion :- Require(es, KEY_ONION);
    var onion :- AsText(rawOnion);
    var rawChatmail :- Require(es, KEY_CHATMAIL);
    var chatmail :- AsText(rawChatmail);
    var rawName :- Require(es, KEY_DISPLAY_NAME);
    var displayName :- AsText(rawName);
    var rawVersion :- Require(es, KEY_VERSION);
    var version :- AsU64(rawVersion);
    Ok(ContactCard(ik, sk, onion, chatmail, displayName, version, KeyOrNothing(es, KEY_YGG, YGG_KEY_LEN),
                   KeyOrNothing(es, KEY_NOSTR, NOSTR_KEY_LEN), Relays(es)))
  }

  function Decode(bytes: seq<Byte>, limit: nat): Result<Raw<ContactCard>> {
    var value :- DecodeValue(bytes, limit);
    var es :- AsMap(value);
    var card :- Parse(es);
    Ok(Raw(bytes, card))
  }

  // ---- the link ----

  const ALPHABET := "ABCDEFGHIJKLMNOPQRSTUVWXYZ234567"

  function Symbol(d: B32.Digit): char {
    ALPHABET[d]
  }

  function SymbolDigit(c: char): Option<B32.Digit> {
    if 'A' <= c <= 'Z' then Some(c as int - 'A' as int)
    else if '2' <= c <= '7' then Some(c as int - '2' as int + 26)
    else None
  }

  function Symbols(digits: seq<B32.Digit>): (text: string)
    ensures |text| == |digits|
  {
    seq(|digits|, i requires 0 <= i < |digits| => Symbol(digits[i]))
  }

  function SymbolDigits(text: string): (r: Option<seq<B32.Digit>>)
    ensures r.Some? ==> |r.value| == |text|
  {
    if forall i | 0 <= i < |text| :: SymbolDigit(text[i]).Some?
    then Some(seq(|text|, i requires 0 <= i < |text| => SymbolDigit(text[i]).value))
    else None
  }

  function UriOf(bytes: seq<Byte>): string {
    URI_PREFIX + Symbols(B32.Digits(bytes))
  }

  function ToUri(c: ContactCard): Result<string> {
    var bytes :- Encode(c);
    Ok(UriOf(bytes))
  }

  function BytesOfUri(uri: string): Result<seq<Byte>> {
    if !(URI_PREFIX <= uri) then Err(BadContactUri)
    else
      match SymbolDigits(uri[|URI_PREFIX|..])
      case None => Err(BadContactUri)
      case Some(digits) =>
        match B32.Undigits(digits)
        case None => Err(BadContactUri)
        case Some(bytes) => Ok(bytes)
  }

  function FromUri(uri: string, limit: nat): Result<Raw<ContactCard>> {
    var bytes :- BytesOfUri(uri);
    Decode(bytes, limit)
  }

  // ---- laws ----

  /** What a card becomes on the wire: relays cut to three, keys of a wrong length gone. */
  function Normal(c: ContactCard): ContactCard {
    c.(ygg := if |c.ygg| == YGG_KEY_LEN then c.ygg else [],
       nostr := if |c.nostr| == NOSTR_KEY_LEN then c.nostr else [],
       nostrRelays := Take(c.nostrRelays, MAX_CARD_RELAYS))
  }

  lemma {:induction false} CardFieldsAre(c: ContactCard, key: nat)
    ensures Numbered(CardFields(c))
    ensures Get(CardFields(c), key) ==
      if key == KEY_YGG then (if c.ygg != [] then Some(Value.Bytes(c.ygg)) else None)
      else if key == KEY_NOSTR then (if c.nostr != [] then Some(Value.Bytes(c.nostr)) else None)
      else if key == KEY_NOSTR_RELAYS then (if c.nostrRelays != [] then Some(RelaysValue(c)) else None)
      else Get(BaseFields(c), key)
  {
    hide Get, With, NumberedBelow, BaseFields, RelaysValue;
    var base := BaseFields(c);
    CardNumbered(c);
    if key >= 8 { AbsentAbove(base, 8, key); }
    NumberedWith(base, 8, c.ygg != [], KEY_YGG, Value.Bytes(c.ygg));
    GetWith(base, 8, c.ygg != [], KEY_YGG, Value.Bytes(c.ygg), key);
    var withYgg := With(base, c.ygg != [], KEY_YGG, Value.Bytes(c.ygg));
    NumberedWith(withYgg, 9, c.nostr != [], KEY_NOSTR, Value.Bytes(c.nostr));
    GetWith(withYgg, 9, c.nostr != [], KEY_NOSTR, Value.Bytes(c.nostr), key);
    var withNostr := With(withYgg, c.nostr != [], KEY_NOSTR, Value.Bytes(c.nostr));
    NumberedWith(withNostr, 10, c.nostrRelays != [], KEY_NOSTR_RELAYS, RelaysValue(c));
    GetWith(withNostr, 10, c.nostrRelays != [], KEY_NOSTR_RELAYS, RelaysValue(c), key);
    NumberedIs(CardFields(c), 11);
  }

  lemma {:induction false} CardNumbered(c: ContactCard)
    ensures NumberedBelow(BaseFields(c), 8)
  {
  }

  lemma {:induction false} RelaysInOrder(c: ContactCard)
    ensures InOrder(RelaysValue(c))
  {
    assert forall i | 0 <= i < |RelaysValue(c).items| :: InOrder(RelaysValue(c).items[i]);
  }

  lemma {:induction false} FieldsInOrder(c: ContactCard)
    ensures Canonicalize(Map(CardFields(c))) == Ok(Map(CardFields(c)))
  {
    hide Canonicalize, Ascending, Numbered, RelaysValue, Get;
    CardFieldsAre(c, 1);
    RelaysInOrder(c);
    assert forall i | 0 <= i < |CardFields(c)| :: InOrder(CardFields(c)[i].val);
    NumberedInOrder(CardFields(c));
  }

  lemma {:induction false} ParsesBase(c: ContactCard)
    ensures
      var es := CardFields(c);
      CheckVersion(es) == Ok(PROTOCOL_VERSION) && Require(es, KEY_IK) == Ok(Value.Bytes(c.ik)) &&
      Require(es, KEY_SK) == Ok(Value.Bytes(c.sk)) && Require(es, KEY_ONION) == Ok(Text(c.onion)) &&
      Require(es, KEY_CHATMAIL) == Ok(Text(c.chatmail)) && Require(es, KEY_DISPLAY_NAME) == Ok(Text(c.displayName)) &&
      Require(es, KEY_VERSION) == Ok(Integer(c.version))
  {
    hide Get, CardFields;
    forall i | 0 <= i < 7
      ensures Get(CardFields(c), BaseFields(c)[i].key.n) == Some(BaseFields(c)[i].val)
    {
      CardFieldsAre(c, BaseFields(c)[i].key.n);
      CardNumbered(c);
      GetAt(BaseFields(c), i);
    }
    assert BaseFields(c)[0].key.n == 1 && BaseFields(c)[1].key.n == 2 && BaseFields(c)[2].key.n == 3;
    assert BaseFields(c)[3].key.n == 4 && BaseFields(c)[4].key.n == 5 && BaseFields(c)[5].key.n == 6;
    assert BaseFields(c)[6].key.n == 7;
  }

  lemma {:induction false} ParsesOptional(c: ContactCard)
    ensures
      var es := CardFields(c);
      Get(es, KEY_YGG) == (if c.ygg != [] then Some(Value.Bytes(c.ygg)) else None) &&
      Get(es, KEY_NOSTR) == (if c.nostr != [] then Some(Value.Bytes(c.nostr)) else None) &&
      Get(es, KEY_NOSTR_RELAYS) == (if c.nostrRelays != [] then Some(RelaysValue(c)) else None)
  {
    CardFieldsAre(c, KEY_YGG);
    CardFieldsAre(c, KEY_NOSTR);
    CardFieldsAre(c, KEY_NOSTR_RELAYS);
  }

  lemma {:induction false} TextsRoundTrip(urls: seq<Utf8>)
    ensures OnlyTexts(Texts(urls)) == urls
  {
    if urls != [] {
      TextsRoundTrip(urls[1..]);
      assert Texts(urls)[1..] == Texts(urls[1..]);
      assert urls == [urls[0]] + urls[1..];
    }
  }

  lemma {:induction false} ParseFields(c: ContactCard)
    ensures Parse(CardFields(c)) == Ok(Normal(c))
  {
    hide Get, CardFields, Texts, CheckVersion;
    ParsesBase(c);
    ParsesOptional(c);
    TextsRoundTrip(Take(c.nostrRelays, MAX_CARD_RELAYS));
  }

  /** Every card encodes, and decoding gives its normal form beside the bytes received. */
  lemma {:induction false} CardRoundTrip(c: ContactCard, limit: nat)
    requires Readable(Map(CardFields(c)), limit)
    ensures Encode(c).Ok? && Decode(Encode(c).value, limit) == Ok(Raw(Encode(c).value, Normal(c)))
  {
    hide Readable, Canonicalize, DecodeValue, Parse, CardFields, Normal;
    FieldsInOrder(c);
    DecodeEncode(Map(CardFields(c)), limit);
    ParseFields(c);
  }

  lemma {:induction false} NormalIsSmaller(c: ContactCard, limit: nat)
    requires Readable(Map(CardFields(c)), limit)
    ensures Readable(Map(CardFields(Normal(c))), limit)
  {
    hide Readable, Texts;
    var es, fs := CardFields(c), CardFields(Normal(c));
    ReadableMap(es, limit);
    ReadableMap(fs, limit);
    assert Take(Take(c.nostrRelays, MAX_CARD_RELAYS), MAX_CARD_RELAYS) == Take(c.nostrRelays, MAX_CARD_RELAYS);
    forall i | 0 <= i < |fs| ensures ReadableEntry(fs[i], limit - 1) {
      assert fs[i] in es;
    }
  }

  /** Normal form is final, and a card encodes to the bytes of its normal form exactly when no key of a
      wrong length had to be dropped: cutting the relays happens on the way out. */
  lemma {:induction false} NormalForm(c: ContactCard, limit: nat)
    requires Readable(Map(CardFields(c)), limit)
    ensures Normal(Normal(c)) == Normal(c)
    ensures Encode(Normal(c)) == Encode(c) <==> |c.ygg| in {0, YGG_KEY_LEN} && |c.nostr| in {0, NOSTR_KEY_LEN}
  {
    hide Canonicalize, Readable;
    var n := Normal(c);
    assert Take(n.nostrRelays, MAX_CARD_RELAYS) == n.nostrRelays;
    FieldsInOrder(c);
    FieldsInOrder(n);
    NormalIsSmaller(c, limit);
    if Encode(n) == Encode(c) {
      WriteInjective(Map(CardFields(n)), Map(CardFields(c)), limit);
      ParsesOptional(c);
      ParsesOptional(n);
    }
  }

  // ---- links ----

  lemma {:induction false} SymbolRoundTrip(d: B32.Digit, c: char)
    ensures SymbolDigit(Symbol(d)) == Some(d)
    ensures SymbolDigit(c).Some? ==> Symbol(SymbolDigit(c).value) == c
  {
  }

  lemma {:induction false} SymbolsIff(text: string, digits: seq<B32.Digit>)
    ensures SymbolDigits(text) == Some(digits) <==> text == Symbols(digits)
  {
    hide Symbol, SymbolDigit;
    if SymbolDigits(text) == Some(digits) {
      forall i | 0 <= i < |text| ensures text[i] == Symbols(digits)[i] {
        SymbolRoundTrip(digits[i], text[i]);
      }
    }
    if text == Symbols(digits) {
      forall i | 0 <= i < |text| ensures SymbolDigit(text[i]) == Some(digits[i]) {
        SymbolRoundTrip(digits[i], text[i]);
      }
      assert SymbolDigits(text).value == digits;
    }
  }

  /** A link carries `bytes` exactly when it is the prefix and their unpadded base32: one link per byte string. */
  lemma {:induction false} UriIff(uri: string, bytes: seq<Byte>)
    ensures BytesOfUri(uri) == Ok(bytes) <==> uri == UriOf(bytes)
  {
    hide Symbols, SymbolDigits, B32.Undigits;
    var digits := B32.Digits(bytes);
    if URI_PREFIX <= uri {
      var body := uri[|URI_PREFIX|..];
      assert uri == URI_PREFIX + body;
      match SymbolDigits(body)
      case Some(read) =>
        SymbolsIff(body, read);
        B32.UndigitsIffDigits(read, bytes);
        SymbolsIff(body, digits);
      case None => SymbolsIff(body, digits);
    }
    assert URI_PREFIX <= UriOf(bytes) && UriOf(bytes)[|URI_PREFIX|..] == Symbols(digits);
  }

  /** The link of a card reads back as its normal form, and any link that reads is the only one for its bytes. */
  lemma {:induction false} LinkRoundTrip(c: ContactCard, uri: string, limit: nat)
    requires Readable(Map(CardFields(c)), limit)
    ensures
      var link := ToUri(c);
      link.Ok? && Encode(c).Ok? && FromUri(link.value, limit) == Ok(Raw(Encode(c).value, Normal(c)))
    ensures FromUri(uri, limit).Ok? ==> uri == UriOf(FromUri(uri, limit).value.bytes)
  {
    hide Readable, Canonicalize, DecodeValue, Parse, CardFields, Normal, BytesOfUri, UriOf;
    CardRoundTrip(c, limit);
    UriIff(UriOf(Encode(c).value), Encode(c).value);
    if FromUri(uri, limit).Ok? {
      UriIff(uri, BytesOfUri(uri).value);
    }
  }

  // ---- updates ----

  function CheckAgainst(card: ContactCard, known: ContactCard): Result<()> {
    if card.ik != known.ik || card.sk != known.sk then Err(IdentityChanged)
    else if card.version <= known.version then Err(StaleCardVersion(card.version, known.version))
    else Ok(())
  }

  /** The card known after a run of updates, each applied only when the check lets it through. */
  function Known(first: ContactCard, updates: seq<ContactCard>): ContactCard {
    if updates == [] then first
    else
      var known := Known(first, updates[..|updates| - 1]);
      var card := updates[|updates| - 1];
      if CheckAgainst(card, known).Ok? then card else known
  }

  /** Over any run of updates the identity stays and the version never falls; a card that was known
      once, and has been replaced, is never accepted again. */
  lemma {:induction false} UpdatesOnlyForward(first: ContactCard, updates: seq<ContactCard>, n: nat)
    requires n <= |updates|
    ensures
      var early, late := Known(first, updates[..n]), Known(first, updates);
      late.ik == first.ik && late.sk == first.sk && early.version <= late.version &&
      (early != late ==> early.version < late.version) && CheckAgainst(early, late).Err?
    decreases |updates|
  {
    if n < |updates| {
      var init := updates[..|updates| - 1];
      UpdatesOnlyForward(first, init, n);
      assert init[..n] == updates[..n];
    } else {
      assert updates[..n] == updates;
      if updates != [] { UpdatesOnlyForward(first, updates[..|updates| - 1], 0); }
    }
  }
}
