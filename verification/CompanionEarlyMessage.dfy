/** The shortest way to a message that names nothing: the phone answers everything in order, and a person changes
    their mind while a chunk is on its way. */
module CompanionEarlyMessage {
  import opened Bytes
  import opened CompanionProtocol
  import opened CompanionProtocolLaws
  import opened CompanionRuns
  import CC = CompanionCache

  /** Whichever file the answered chunk was of, the terminal goes on alike. */
  lemma {:induction false} AnswerNamesNoFile(c: Client, one: Id, other: Id, earlier: seq<Effect>, env: Env)
    ensures OnStored(c, one, earlier, env).client == OnStored(c, other, earlier, env).client
    ensures SendsOf(OnStored(c, one, earlier, env).effects) == SendsOf(OnStored(c, other, earlier, env).effects)
  {
    hide AdvanceUpload, Upload.Piece;
    if c.upload.Some? {
      var u := c.upload.value.(next := c.upload.value.next + 1);
      SendsOfBoth(earlier, [Show(NeedChunk(one, u.at, u.next, u.Piece(u.next).0, u.Piece(u.next).1))]);
      SendsOfBoth(earlier, [Show(NeedChunk(other, u.at, u.next, u.Piece(u.next).0, u.Piece(u.next).1))]);
    }
  }

  /** Once the last chunk counts as stored, and everything else is sent, the message goes. */
  lemma {:induction false} LastChunkSends(c: Client, fileId: Id, env: Env)
    requires c.link.Live() && !c.link.revoked && |c.link.outstanding| < MAX_OUTSTANDING && c.upload.Some?
    requires var u := c.upload.value;
             u.next + 1 >= u.total && u.at + 1 == |u.items| && |u.text| <= MAX_TEXT_BYTES && env.fits(c.link.nextId, Request.FileSend(u.ids, u.text))
    ensures var did, r := OnStored(c, fileId, [], env), Request.FileSend(c.upload.value.ids, c.upload.value.text);
            SendsOf(did.effects) == [Asked(c.link.nextId, r)] && did.client.link == AskedFor(c.link, r)
  {
    var u := c.upload.value.(next := c.upload.value.next + 1);
    var r := Request.FileSend(u.ids, u.text);
    assert OnAsk(c.link, c.cache, r, env) == Asking(AskedFor(c.link, r), [Effect.Send(Asked(c.link.nextId, r))]);
    assert SendsOf([Effect.Send(Asked(c.link.nextId, r))]) == [Asked(c.link.nextId, r)];
    assert [] + [Effect.Send(Asked(c.link.nextId, r))] == [Effect.Send(Asked(c.link.nextId, r))];
  }

  // ---- a run ----

  const ALL_FITS := Env(true, true, (_, _) => true)
  const ONE_BYTE := OutgoingItem([], 1, None)

  function OfferOne(chat: Id): Request {
    Offer(chat, ONE_BYTE)
  }

  /** Reach, link, send a file of one byte, put it; then give it up and begin another message of one file, all
      before the answer to the chunk. */
  function Inputs(chat: Id, fileId: Id): seq<Input> {
    [Reach, Received(Handshake(true, true)), Reply(1, Response.Hello(WIRE_VERSION)), Reply(2, Response.Chats([])),
     Input.Send(chat, [ONE_BYTE], []), Reply(3, Response.FileOffer(fileId, 1, 4096)), PutChunk(0, [7]),
     CancelSend, Input.Send(chat, [ONE_BYTE], []), Reply(4, Response.Done)]
  }

  function Moments(inputs: seq<Input>): seq<Moment> {
    if inputs == [] then [] else [Moment(inputs[0], ALL_FITS)] + Moments(inputs[1..])
  }

  function SaidOver(c: Client, inputs: seq<Input>): seq<Outgoing> {
    Said(c, Moments(inputs))
  }

  // The terminal at the turns of the run.

  function At(address: CC.Address, link: Link, cache: CC.CacheState, upload: Option<Upload>): Client {
    FromInvite(address).(link := link, cache := cache, upload := upload)
  }

  function Knocking(): Link {
    Link(true, false, false, 1, map[], None, None, false)
  }

  function Greeting(): Link {
    Link(false, true, true, 3, map[1 := Request.Hello, 2 := Request.Chats], Some(1), None, false)
  }

  function Open(next: nat, outstanding: map<nat, Request>): Link {
    Link(false, true, true, next, outstanding, None, Some(WIRE_VERSION), false)
  }

  function Sending(chat: Id, ids: seq<Id>, total: nat, chunkBytes: u64): Option<Upload> {
    Some(Upload(chat, [ONE_BYTE], 0, ids, 0, total, chunkBytes, [], false))
  }

  lemma {:induction false} Reaches(address: CC.Address)
    ensures Step(FromInvite(address), Reach, ALL_FITS) ==
            Did(At(address, Knocking(), CC.EMPTY, None), [Effect.Send(Knock([], []))])
  {
  }

  lemma {:induction false} Links(address: CC.Address)
    ensures var did := Step(At(address, Knocking(), CC.EMPTY, None), Received(Handshake(true, true)), ALL_FITS);
            did.client == At(address, Greeting(), CC.EMPTY, None) &&
            SendsOf(did.effects) == [Asked(1, Request.Hello), Asked(2, Request.Chats)]
  {
    var hello, chats := Effect.Send(Asked(1, Request.Hello)), Effect.Send(Asked(2, Request.Chats));
    var open := Knocking().(pending := false, session := true, connected := true);
    assert CachedAnswer(CC.EMPTY, Request.Chats) == [];
    assert [] + [hello] == [hello] && [] + [chats] == [chats];
    assert OnAsk(open, CC.EMPTY, Request.Hello, ALL_FITS) == Asking(open.(nextId := 2, outstanding := map[1 := Request.Hello]), [hello]);
    assert [hello][0].Send? && [chats][0].Send?;
    assert [Show(Linked)] + [hello] + [chats] + [] + [] == [Show(Linked), hello, chats];
    assert SendsOf([chats]) == [Asked(2, Request.Chats)];
    assert [hello, chats][1..] == [chats] && [Show(Linked), hello, chats][1..] == [hello, chats];
  }

  lemma {:induction false} Greeted(address: CC.Address)
    ensures var did := Step(At(address, Greeting(), CC.EMPTY, None), Reply(1, Response.Hello(WIRE_VERSION)), ALL_FITS);
            did.client == At(address, Open(3, map[2 := Request.Chats]), CC.EMPTY, None) && SendsOf(did.effects) == []
  {
    assert Greeting().outstanding - {1} == map[2 := Request.Chats];
    assert [] + [] + [Show(Wire(Some(WIRE_VERSION)))] == [Show(Wire(Some(WIRE_VERSION)))];
  }

  lemma {:induction false} Listed(address: CC.Address)
    ensures var did := Step(At(address, Open(3, map[2 := Request.Chats]), CC.EMPTY, None), Reply(2, Response.Chats([])), ALL_FITS);
            did.client == At(address, Open(3, map[]), CC.EMPTY.RememberChats([]), None) && SendsOf(did.effects) == []
  {
    hide CC.CacheState.RememberChats;
    assert map[2 := Request.Chats] - {2} == map[];
    assert [] + [Show(Event.Chats([], true))] == [Show(Event.Chats([], true))];
  }

  lemma {:induction false} AsksOne(link: Link, cache: CC.CacheState, r: Request)
    requires link.Live() && !link.revoked && |link.outstanding| < MAX_OUTSTANDING && TextOf(r) in {None, Some([])}
    requires r.FileOffer? || r.FilePut? || r.FileAbort? || r.FileSend?
    ensures OnAsk(link, cache, r, ALL_FITS) == Asking(AskedFor(link, r), [Effect.Send(Asked(link.nextId, r))])
    ensures SendsOf([Effect.Send(Asked(link.nextId, r))]) == [Asked(link.nextId, r)] && AnySend([Effect.Send(Asked(link.nextId, r))])
  {
    assert CachedAnswer(cache, r) == [];
    assert [] + [Effect.Send(Asked(link.nextId, r))] == [Effect.Send(Asked(link.nextId, r))];
    assert [Effect.Send(Asked(link.nextId, r))][0].Send?;
  }

  lemma {:induction false} Begins(address: CC.Address, cache: CC.CacheState, chat: Id, next: nat, outstanding: map<nat, Request>)
    requires |outstanding| < MAX_OUTSTANDING
    ensures var did := Step(At(address, Open(next, outstanding), cache, None), Input.Send(chat, [ONE_BYTE], []), ALL_FITS);
            did.client == At(address, Open(next + 1, outstanding[next := OfferOne(chat)]), cache, Sending(chat, [], 0, 0)) &&
            SendsOf(did.effects) == [Asked(next, OfferOne(chat))]
  {
    hide OnAsk;
    AsksOne(Open(next, outstanding), cache, OfferOne(chat));
  }

  lemma {:induction false} Offered(address: CC.Address, cache: CC.CacheState, chat: Id, fileId: Id)
    ensures var did := Step(At(address, Open(4, map[3 := OfferOne(chat)]), cache, Sending(chat, [], 0, 0)),
                            Reply(3, Response.FileOffer(fileId, 1, 4096)), ALL_FITS);
            did.client == At(address, Open(4, map[]), cache, Sending(chat, [fileId], 1, 4096)) && SendsOf(did.effects) == []
  {
    assert map[3 := OfferOne(chat)] - {3} == map[];
    assert [] + [fileId] == [fileId];
    var u := Sending(chat, [fileId], 1, 4096).value;
    var need := Show(NeedChunk(fileId, 0, 0, u.Piece(0).0, u.Piece(0).1));
    assert [] + [need] == [need];
  }

  lemma {:induction false} Puts(address: CC.Address, cache: CC.CacheState, chat: Id, fileId: Id)
    ensures var did := Step(At(address, Open(4, map[]), cache, Sending(chat, [fileId], 1, 4096)), PutChunk(0, [7]), ALL_FITS);
            did.client == At(address, Open(5, map[4 := Request.FilePut(fileId, 0, [7])]), cache, Sending(chat, [fileId], 1, 4096)) &&
            SendsOf(did.effects) == [Asked(4, Request.FilePut(fileId, 0, [7]))]
  {
    hide OnAsk;
    AsksOne(Open(4, map[]), cache, Request.FilePut(fileId, 0, [7]));
  }

  lemma {:induction false} GivesUp(address: CC.Address, cache: CC.CacheState, chat: Id, fileId: Id)
    ensures var put := Request.FilePut(fileId, 0, [7]);
            var did := Step(At(address, Open(5, map[4 := put]), cache, Sending(chat, [fileId], 1, 4096)), CancelSend, ALL_FITS);
            did.client == At(address, Open(6, map[4 := put, 5 := FileAbort(fileId)]), cache, None) &&
            SendsOf(did.effects) == [Asked(5, FileAbort(fileId))]
  {
    hide OnAsk;
    var link := Open(5, map[4 := Request.FilePut(fileId, 0, [7])]);
    AsksOne(link, cache, FileAbort(fileId));
    assert [fileId][1..] == [];
    assert AbortEach(AskedFor(link, FileAbort(fileId)), cache, [], ALL_FITS) == Asking(AskedFor(link, FileAbort(fileId)), []);
    assert [Effect.Send(Asked(5, FileAbort(fileId)))] + [] == [Effect.Send(Asked(5, FileAbort(fileId)))];
  }

  /** Counted for a file of which not even a place was made, the old chunk is its last. */
  lemma {:induction false} NamesNothing(address: CC.Address, cache: CC.CacheState, chat: Id, fileId: Id)
    ensures var waiting := map[4 := Request.FilePut(fileId, 0, [7]), 5 := FileAbort(fileId), 6 := OfferOne(chat)];
            var did := Step(At(address, Open(7, waiting), cache, Sending(chat, [], 0, 0)), Reply(4, Response.Done), ALL_FITS);
            SendsOf(did.effects) == [Asked(7, Request.FileSend([], []))]
  {
    hide OnAsk, OnStored, OnChunk, OnStaged, OnOffered, OnRefused, OnLinked, OnReach, OnFetch, OnSend, OnPutChunk, OnCancelSend, OnLost, Noted;
    var waiting := map[4 := Request.FilePut(fileId, 0, [7]), 5 := FileAbort(fileId), 6 := OfferOne(chat)];
    assert waiting - {4} == map[5 := FileAbort(fileId), 6 := OfferOne(chat)];
    LastChunkSends(At(address, Open(7, waiting - {4}), cache, Sending(chat, [], 0, 0)), fileId, ALL_FITS);
  }

  lemma {:induction false} OneOn(c: Client, input: Input, inputs: seq<Input>, next: Client, says: seq<Outgoing>, more: seq<Outgoing>)
    requires Step(c, input, ALL_FITS).client == next && SendsOf(Step(c, input, ALL_FITS).effects) == says
    requires SaidOver(next, inputs) == more
    ensures SaidOver(c, [input] + inputs) == says + more
  {
    hide Step;
    assert ([input] + inputs)[1..] == inputs;
    assert Moments([input] + inputs)[1..] == Moments(inputs);
  }

  /** The second message, from the change of mind on. */
  function Ending(chat: Id): seq<Input> {
    [CancelSend] + ([Input.Send(chat, [ONE_BYTE], [])] + ([Reply(4, Response.Done)] + []))
  }

  lemma {:induction false} EndsWithNothing(address: CC.Address, cache: CC.CacheState, chat: Id, fileId: Id)
    ensures SaidOver(At(address, Open(5, map[4 := Request.FilePut(fileId, 0, [7])]), cache, Sending(chat, [fileId], 1, 4096)), Ending(chat)) ==
            [Asked(5, FileAbort(fileId))] + ([Asked(6, OfferOne(chat))] + ([Asked(7, Request.FileSend([], []))] + []))
  {
    hide Step, SaidOver;
    var put, abort := Request.FilePut(fileId, 0, [7]), FileAbort(fileId);
    var one, two := map[4 := put, 5 := abort], map[4 := put, 5 := abort, 6 := OfferOne(chat)];
    NamesNothing(address, cache, chat, fileId);
    var last := Step(At(address, Open(7, two), cache, Sending(chat, [], 0, 0)), Reply(4, Response.Done), ALL_FITS).client;
    NothingMore(last);
    OneOn(At(address, Open(7, two), cache, Sending(chat, [], 0, 0)), Reply(4, Response.Done), [], last, [Asked(7, Request.FileSend([], []))], []);
    Begins(address, cache, chat, 6, one);
    assert one[6 := OfferOne(chat)] == two;
    OneOn(At(address, Open(6, one), cache, None), Input.Send(chat, [ONE_BYTE], []), [Reply(4, Response.Done)] + [],
          At(address, Open(7, two), cache, Sending(chat, [], 0, 0)), [Asked(6, OfferOne(chat))], [Asked(7, Request.FileSend([], []))] + []);
    GivesUp(address, cache, chat, fileId);
    OneOn(At(address, Open(5, map[4 := put]), cache, Sending(chat, [fileId], 1, 4096)), CancelSend,
          [Input.Send(chat, [ONE_BYTE], [])] + ([Reply(4, Response.Done)] + []), At(address, Open(6, one), cache, None), [Asked(5, abort)],
          [Asked(6, OfferOne(chat))] + ([Asked(7, Request.FileSend([], []))] + []));
  }

  lemma {:induction false} NothingMore(c: Client)
    ensures SaidOver(c, []) == []
  {
  }

  /** The first message, up to the chunk on its way. */
  function Middle(chat: Id, fileId: Id): seq<Input> {
    [Input.Send(chat, [ONE_BYTE], [])] + ([Reply(3, Response.FileOffer(fileId, 1, 4096))] + ([PutChunk(0, [7])] + Ending(chat)))
  }

  lemma {:induction false} GoesOnToNothing(address: CC.Address, cache: CC.CacheState, chat: Id, fileId: Id, ending: seq<Outgoing>)
    requires SaidOver(At(address, Open(5, map[4 := Request.FilePut(fileId, 0, [7])]), cache, Sending(chat, [fileId], 1, 4096)), Ending(chat)) == ending
    ensures SaidOver(At(address, Open(3, map[]), cache, None), Middle(chat, fileId)) ==
            [Asked(3, OfferOne(chat))] + ([] + ([Asked(4, Request.FilePut(fileId, 0, [7]))] + ending))
  {
    hide Step, SaidOver, Ending;
    var put := Request.FilePut(fileId, 0, [7]);
    Puts(address, cache, chat, fileId);
    OneOn(At(address, Open(4, map[]), cache, Sending(chat, [fileId], 1, 4096)), PutChunk(0, [7]), Ending(chat),
          At(address, Open(5, map[4 := put]), cache, Sending(chat, [fileId], 1, 4096)), [Asked(4, put)], ending);
    Offered(address, cache, chat, fileId);
    OneOn(At(address, Open(4, map[3 := OfferOne(chat)]), cache, Sending(chat, [], 0, 0)), Reply(3, Response.FileOffer(fileId, 1, 4096)),
          [PutChunk(0, [7])] + Ending(chat), At(address, Open(4, map[]), cache, Sending(chat, [fileId], 1, 4096)), [], [Asked(4, put)] + ending);
    Begins(address, cache, chat, 3, map[]);
    OneOn(At(address, Open(3, map[]), cache, None), Input.Send(chat, [ONE_BYTE], []),
          [Reply(3, Response.FileOffer(fileId, 1, 4096))] + ([PutChunk(0, [7])] + Ending(chat)),
          At(address, Open(4, map[3 := OfferOne(chat)]), cache, Sending(chat, [], 0, 0)), [Asked(3, OfferOne(chat))],
          [] + ([Asked(4, put)] + ending));
  }

  lemma {:induction false} StartsLinked(address: CC.Address, rest: seq<Input>, more: seq<Outgoing>)
    requires SaidOver(At(address, Open(3, map[]), CC.EMPTY.RememberChats([]), None), rest) == more
    ensures SaidOver(FromInvite(address), [Reach] + ([Received(Handshake(true, true))] +
                       ([Reply(1, Response.Hello(WIRE_VERSION))] + ([Reply(2, Response.Chats([]))] + rest)))) ==
            [Knock([], [])] + ([Asked(1, Request.Hello), Asked(2, Request.Chats)] + ([] + ([] + more)))
  {
    hide Step, SaidOver, CC.CacheState.RememberChats;
    Listed(address);
    OneOn(At(address, Open(3, map[2 := Request.Chats]), CC.EMPTY, None), Reply(2, Response.Chats([])), rest,
          At(address, Open(3, map[]), CC.EMPTY.RememberChats([]), None), [], more);
    Greeted(address);
    OneOn(At(address, Greeting(), CC.EMPTY, None), Reply(1, Response.Hello(WIRE_VERSION)), [Reply(2, Response.Chats([]))] + rest,
          At(address, Open(3, map[2 := Request.Chats]), CC.EMPTY, None), [], [] + more);
    Links(address);
    OneOn(At(address, Knocking(), CC.EMPTY, None), Received(Handshake(true, true)),
          [Reply(1, Response.Hello(WIRE_VERSION))] + ([Reply(2, Response.Chats([]))] + rest),
          At(address, Greeting(), CC.EMPTY, None), [Asked(1, Request.Hello), Asked(2, Request.Chats)], [] + ([] + more));
    Reaches(address);
    KnockSays();
    OneOn(FromInvite(address), Reach,
          [Received(Handshake(true, true))] + ([Reply(1, Response.Hello(WIRE_VERSION))] + ([Reply(2, Response.Chats([]))] + rest)),
          At(address, Knocking(), CC.EMPTY, None), [Knock([], [])],
          [Asked(1, Request.Hello), Asked(2, Request.Chats)] + ([] + ([] + more)));
  }

  lemma {:induction false} KnockSays()
    ensures SendsOf([Effect.Send(Knock([], []))]) == [Knock([], [])]
  {
  }

  /** From an invitation, with every answer in order: the second message goes out naming no file at all, while
      the place for its file is still being asked for. */
  lemma {:induction false} InOrderNamesNothing(address: CC.Address, chat: Id, fileId: Id)
    ensures SaidOver(FromInvite(address), Inputs(chat, fileId)) ==
            [Knock([], []), Asked(1, Request.Hello), Asked(2, Request.Chats), Asked(3, OfferOne(chat)), Asked(4, Request.FilePut(fileId, 0, [7])),
             Asked(5, FileAbort(fileId)), Asked(6, OfferOne(chat)), Asked(7, Request.FileSend([], []))]
  {
    hide SaidOver, CC.CacheState.RememberChats;
    var ending := [Asked(5, FileAbort(fileId))] + ([Asked(6, OfferOne(chat))] + ([Asked(7, Request.FileSend([], []))] + []));
    var more := [Asked(3, OfferOne(chat))] + ([] + ([Asked(4, Request.FilePut(fileId, 0, [7]))] + ending));
    EndsWithNothing(address, CC.EMPTY.RememberChats([]), chat, fileId);
    GoesOnToNothing(address, CC.EMPTY.RememberChats([]), chat, fileId, ending);
    StartsLinked(address, Middle(chat, fileId), more);
    assert Inputs(chat, fileId) == [Reach] + ([Received(Handshake(true, true))] +
             ([Reply(1, Response.Hello(WIRE_VERSION))] + ([Reply(2, Response.Chats([]))] + Middle(chat, fileId))));
  }
}
