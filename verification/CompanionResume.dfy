/** What goes out over a link, request by request, and how what was interrupted is taken up again over the next one. */
module CompanionResume {
  import opened Bytes
  import opened CompanionProtocol
  import opened CompanionProtocolLaws
  import opened CompanionRuns
  import CC = CompanionCache

  // ---- when a request goes out ----

  /** A text no longer than a message may be; a pairing not revoked; a phone, if it has said its version, not too old for
      faces; a live link with fewer than 64 requests waiting; and a frame that holds it. */
  predicate MayGo(l: Link, r: Request, env: Env) {
    (TextOf(r).Some? ==> |TextOf(r).value| <= 65221) && !l.revoked &&
    (r.Avatar? && l.phoneWire.Some? ==> l.phoneWire.value >= 10) &&
    (r.SetMyAvatar? && l.phoneWire.Some? ==> l.phoneWire.value >= 11) &&
    l.session && l.connected && |l.outstanding| < 64 && env.fits(l.nextId, r)
  }

  /** A request goes out under the next number if and only if it may. */
  lemma {:induction false} GoesOutIff(l: Link, cache: CC.CacheState, r: Request, env: Env)
    ensures var a := OnAsk(l, cache, r, env);
            (AnySend(a.effects) <==> MayGo(l, r, env)) &&
            SendsOf(a.effects) == (if MayGo(l, r, env) then [Asked(l.nextId, r)] else []) &&
            (MayGo(l, r, env) ==> a.link == AskedFor(l, r))
  {
    hide CachedAnswer, TextOf;
    AnySendIsSends(OnAsk(l, cache, r, env).effects);
    var shown := CachedAnswer(cache, r);
    NothingSentYet(cache, r, []);
    NothingSentYet(cache, r, [Show(NotLinked)]);
    NothingSentYet(cache, r, [Show(Event.Refused)]);
    NothingSentYet(cache, r, [Effect.Send(Asked(l.nextId, r))]);
    assert shown + [] == shown;
    assert SendsOf([Effect.Send(Asked(l.nextId, r))]) == [Asked(l.nextId, r)];
  }

  /** Of several requests asked in turn, which go out and under which numbers: one that fits no frame spends its number and
      takes no room; where there is no room no number is spent. */
  function GoOut(next: nat, room: nat, rs: seq<Request>, env: Env): (out: seq<Outgoing>)
    decreases |rs|
  {
    if rs == [] || room == 0 then []
    else if env.fits(next, rs[0]) then [Asked(next, rs[0])] + GoOut(next + 1, room - 1, rs[1..], env)
    else GoOut(next + 1, room, rs[1..], env)
  }

  /** What waits after that. */
  function Waiting(waits: map<nat, Request>, out: seq<Outgoing>): map<nat, Request>
    decreases |out|
  {
    if out == [] then waits
    else if out[0].Asked? then Waiting(waits[out[0].id := out[0].request], out[1..])
    else Waiting(waits, out[1..])
  }

  predicate Open(l: Link) {
    l.Live() && !l.revoked && |l.outstanding| <= 64
  }

  predicate Plain(r: Request) {
    TextOf(r).None? && !r.Avatar? && !r.SetMyAvatar?
  }

  function Room(l: Link): nat {
    if |l.outstanding| <= 64 then 64 - |l.outstanding| else 0
  }

  lemma {:induction false} RoomAfter(l: Link, r: Request)
    requires LinkSound(l) && Room(l) > 0
    ensures Room(AskedFor(l, r)) == Room(l) - 1
  {
    assert AskedFor(l, r).outstanding.Keys == l.outstanding.Keys + {l.nextId};
  }

  lemma {:induction false} OneAsked(l: Link, cache: CC.CacheState, r: Request, rs: seq<Request>, env: Env)
    requires LinkSound(l) && Open(l) && Plain(r)
    ensures var a := OnAsk(l, cache, r, env);
            LinkSound(a.link) && Open(a.link) &&
            GoOut(l.nextId, Room(l), [r] + rs, env) == SendsOf(a.effects) + GoOut(a.link.nextId, Room(a.link), rs, env) &&
            a.link == l.(nextId := a.link.nextId, outstanding := Waiting(l.outstanding, SendsOf(a.effects))) &&
            a.link.nextId == (if Room(l) > 0 then l.nextId + 1 else l.nextId) && Room(a.link) >= Room(l) - 1
  {
    hide LinkSound;
    AskSound(l, cache, r, env);
    GoesOutIff(l, cache, r, env);
    assert ([r] + rs)[1..] == rs;
    if MayGo(l, r, env) {
      RoomAfter(l, r);
      OneWaits(l.outstanding, l.nextId, r);
    } else {
      NumbersOnly(l, cache, r, env);
    }
  }

  lemma {:induction false} NumbersOnly(l: Link, cache: CC.CacheState, r: Request, env: Env)
    requires Open(l) && Plain(r) && !MayGo(l, r, env)
    ensures OnAsk(l, cache, r, env).link == if Room(l) > 0 then l.(nextId := l.nextId + 1) else l
    ensures SendsOf(OnAsk(l, cache, r, env).effects) == [] && GoOut(l.nextId, Room(l), [r], env) == []
    ensures Waiting(l.outstanding, []) == l.outstanding
  {
    hide CachedAnswer;
    GoesOutIff(l, cache, r, env);
    assert [r][1..] == [];
  }

  lemma {:induction false} OneWaits(waits: map<nat, Request>, id: nat, r: Request)
    ensures Waiting(waits, [Asked(id, r)]) == waits[id := r] && Waiting(waits, []) == waits
  {
    assert [Asked(id, r)][1..] == [];
  }

  lemma {:induction false} WaitingBoth(waits: map<nat, Request>, a: seq<Outgoing>, b: seq<Outgoing>)
    ensures Waiting(waits, a + b) == Waiting(Waiting(waits, a), b)
    decreases |a|
  {
    if a == [] {
      assert a + b == b;
    } else {
      assert (a + b)[1..] == a[1..] + b;
      WaitingBoth(if a[0].Asked? then waits[a[0].id := a[0].request] else waits, a[1..], b);
    }
  }

  // ---- giving up everything begun ----

  function Aborts(ids: seq<Id>): (rs: seq<Request>)
    ensures |rs| == |ids|
  {
    seq(|ids|, i requires 0 <= i < |ids| => FileAbort(ids[i]))
  }

  /** The phone is told to drop every file begun, in order, as far as there is room. */
  lemma {:induction false} AbortsGoOut(l: Link, cache: CC.CacheState, ids: seq<Id>, env: Env)
    requires LinkSound(l) && Open(l)
    ensures SendsOf(AbortEach(l, cache, ids, env).effects) == GoOut(l.nextId, Room(l), Aborts(ids), env)
    decreases |ids|
  {
    hide OnAsk, LinkSound, Open;
    if ids != [] {
      var first := OnAsk(l, cache, FileAbort(ids[0]), env);
      OneAsked(l, cache, FileAbort(ids[0]), Aborts(ids[1..]), env);
      assert Aborts(ids) == [FileAbort(ids[0])] + Aborts(ids[1..]);
      AbortsGoOut(first.link, cache, ids[1..], env);
      SendsOfBoth(first.effects, AbortEach(first.link, cache, ids[1..], env).effects);
    }
  }

  /** A change of mind ends the upload and tells the phone so for every file begun. */
  lemma {:induction false} CancelAborts(c: Client, env: Env)
    requires Sound(c) && c.link.session && c.upload.Some?
    ensures var did := Step(c, CancelSend, env);
            did.client.upload.None? && did.client.download == c.download &&
            SendsOf(did.effects) == GoOut(c.link.nextId, Room(c.link), Aborts(c.upload.value.ids), env)
  {
    hide Sound, AbortEach, GoOut, Open, LinkSound;
    SoundIsOpen(c);
    AbortsGoOut(c.link, c.cache, c.upload.value.ids, env);
  }

  lemma {:induction false} SoundIsOpen(c: Client)
    requires Sound(c) && c.link.session
    ensures LinkSound(c.link) && Open(c.link)
  {
  }

  // ---- over a new link ----

  function Last(c: Client): seq<Request> {
    if c.download.Some? then [ChunkRequest(c.download.value)] else []
  }

  function Third(c: Client): seq<Request> {
    if c.upload.Some? then [Request.Staged] else []
  }

  /** What is asked over a new link: the phone's version first, then its chats, then what it has of an upload, then the
      chunk a download waits for. */
  function Greetings(c: Client): seq<Request> {
    [Request.Hello, Request.Chats] + Third(c) + Last(c)
  }

  function FreshLink(l: Link): Link {
    l.(pending := false, session := true, connected := true, outstanding := map[])
  }

  lemma {:induction false} GreetingGoes(l: Link, cache: CC.CacheState, rs: seq<Request>, env: Env)
    requires LinkSound(l) && Open(l) && l.outstanding == map[] && l.hello.None?
    ensures var a := OnAsk(l, cache, Request.Hello, env);
            var m := MarkHello(a);
            LinkSound(m) && Open(m) && m.nextId == l.nextId + 1 && Room(m) >= 63 &&
            GoOut(l.nextId, 64, [Request.Hello] + rs, env) == SendsOf(a.effects) + GoOut(m.nextId, Room(m), rs, env) &&
            m == l.(nextId := m.nextId, outstanding := Waiting(map[], SendsOf(a.effects)),
                    hello := if env.fits(l.nextId, Request.Hello) then Some(l.nextId) else None)
  {
    hide LinkSound;
    OneAsked(l, cache, Request.Hello, rs, env);
    GoesOutIff(l, cache, Request.Hello, env);
    GreetSound(l, cache, env);
  }

  lemma {:induction false} ResumedGoes(c: Client, env: Env)
    requires LinkSound(c.link) && Open(c.link) && Room(c.link) > 0 && (c.download.Some? ==> c.download.value.stalled)
    ensures var did := ResumeFetch(c, env);
            SendsOf(did.effects) == GoOut(c.link.nextId, Room(c.link), Last(c), env) &&
            did.client.link == c.link.(nextId := c.link.nextId + |Last(c)|, outstanding := Waiting(c.link.outstanding, SendsOf(did.effects))) &&
            did.client == c.(link := did.client.link, download := did.client.download) &&
            (c.download.None? ==> did.client.download.None?) &&
            (c.download.Some? ==>
               did.client.download == Some(c.download.value.(stalled := !env.fits(c.link.nextId, ChunkRequest(c.download.value)))))
  {
    hide LinkSound, Open;
    if c.download.Some? {
      var d := c.download.value.(stalled := false);
      assert ChunkRequest(d) == ChunkRequest(c.download.value);
      OneAsked(c.link, c.cache, ChunkRequest(d), [], env);
      assert [ChunkRequest(d)] + [] == [ChunkRequest(d)];
      GoesOutIff(c.link, c.cache, ChunkRequest(d), env);
      SendsOfBoth([Show(FetchResumed(d.next, d.total))], OnAsk(c.link, c.cache, ChunkRequest(d), env).effects);
      MayGoOpen(c.link, ChunkRequest(d), env);
      NothingMore(c.link.nextId, env);
    } else {
      NothingMore(c.link.nextId, env);
    }
  }

  lemma {:induction false} NothingMore(next: nat, env: Env)
    ensures forall n: nat, room: nat :: GoOut(n, room, [], env) == []
    ensures SendsOf([]) == [] && forall waits: map<nat, Request> :: Waiting(waits, []) == waits
  {
  }

  lemma {:induction false} MayGoOpen(l: Link, r: Request, env: Env)
    requires Open(l) && Plain(r) && Room(l) > 0
    ensures MayGo(l, r, env) <==> env.fits(l.nextId, r)
  {
  }

  /** The link once everything but the download's chunk has been asked for. */
  function Greeted(c: Client, env: Env): (asking: Asking) {
    var hello := OnAsk(FreshLink(c.link), c.cache, Request.Hello, env);
    var chats := OnAsk(MarkHello(hello), c.cache, Request.Chats, env);
    var staged := if c.upload.Some? then OnAsk(chats.link, c.cache, Request.Staged, env) else Asking(chats.link, []);
    Asking(staged.link, hello.effects + chats.effects + staged.effects)
  }

  lemma {:induction false} ChatsGo(l: Link, cache: CC.CacheState, rs: seq<Request>, env: Env)
    requires LinkSound(l) && Open(l) && l.outstanding == map[] && l.hello.None?
    ensures var hello := OnAsk(l, cache, Request.Hello, env);
            var chats := OnAsk(MarkHello(hello), cache, Request.Chats, env);
            var m, both := chats.link, hello.effects + chats.effects;
            LinkSound(m) && Open(m) && Room(m) >= 62 &&
            GoOut(l.nextId, 64, [Request.Hello] + ([Request.Chats] + rs), env) == SendsOf(both) + GoOut(m.nextId, Room(m), rs, env) &&
            m == l.(nextId := l.nextId + 2, outstanding := Waiting(map[], SendsOf(both)),
                    hello := if env.fits(l.nextId, Request.Hello) then Some(l.nextId) else None)
  {
    hide OnAsk, LinkSound, Open, MarkHello, Waiting, GoOut;
    GreetingGoes(l, cache, [Request.Chats] + rs, env);
    var hello := OnAsk(l, cache, Request.Hello, env);
    var m := MarkHello(hello);
    OneAsked(m, cache, Request.Chats, rs, env);
    var chats := OnAsk(m, cache, Request.Chats, env);
    WaitingBoth(map[], SendsOf(hello.effects), SendsOf(chats.effects));
    SendsOfBoth(hello.effects, chats.effects);
  }

  lemma {:induction false} GreetedGoes(c: Client, env: Env)
    requires Sound(c) && c.link.pending
    ensures var n, a := c.link.nextId, Greeted(c, env);
            LinkSound(a.link) && Open(a.link) && Room(a.link) > 0 &&
            GoOut(n, 64, Greetings(c), env) == SendsOf(a.effects) + GoOut(a.link.nextId, Room(a.link), Last(c), env) &&
            a.link == FreshLink(c.link).(nextId := n + 2 + |Third(c)|, outstanding := Waiting(map[], SendsOf(a.effects)),
                                         hello := if env.fits(n, Request.Hello) then Some(n) else None)
  {
    hide OnAsk, LinkSound, Sound, Open, MarkHello, ChunkRequest, Waiting, GoOut;
    var l, n := FreshLink(c.link), c.link.nextId;
    PendingSound(c);
    assert Greetings(c) == [Request.Hello] + ([Request.Chats] + (Third(c) + Last(c)));
    ChatsGo(l, c.cache, Third(c) + Last(c), env);
    var hello := OnAsk(l, c.cache, Request.Hello, env);
    var chats := OnAsk(MarkHello(hello), c.cache, Request.Chats, env);
    var both := hello.effects + chats.effects;
    if c.upload.Some? {
      OneAsked(chats.link, c.cache, Request.Staged, Last(c), env);
      var staged := OnAsk(chats.link, c.cache, Request.Staged, env);
      WaitingBoth(map[], SendsOf(both), SendsOf(staged.effects));
      SendsOfBoth(both, staged.effects);
    } else {
      assert both + [] == both && [] + Last(c) == Last(c);
    }
  }

  /** An intact handshake that agrees, over a pairing not revoked: the link is new, nothing from the old one waits, and the
      greetings go out in order. The upload waits for what the phone has of it; the download goes on if its request went
      out, from the chunk it waited for. */
  lemma {:induction false} LinkedGreets(c: Client, env: Env)
    requires Sound(c) && c.link.pending
    ensures var did := Step(c, Received(Handshake(true, true)), env);
            var n, out := c.link.nextId, SendsOf(did.effects);
            out == GoOut(n, 64, Greetings(c), env) &&
            did.client.link == FreshLink(c.link).(nextId := n + |Greetings(c)|, outstanding := Waiting(map[], out),
                                                  hello := if env.fits(n, Request.Hello) then Some(n) else None) &&
            did.client == c.(link := did.client.link, download := did.client.download) &&
            (c.download.None? ==> did.client.download.None?) &&
            (c.download.Some? ==>
               did.client.download == Some(c.download.value.(stalled := !env.fits(n + |Greetings(c)| - 1, ChunkRequest(c.download.value)))))
  {
    hide LinkSound, DownloadSound, UploadSound, NothingLeft, Open, ResumeFetch, ChunkRequest, Waiting, GoOut, Greeted;
    PendingSound(c);
    GreetedGoes(c, env);
    LinkedIs(c, env);
    var a := Greeted(c, env);
    var resumed := ResumeFetch(c.(link := a.link), env);
    ResumedGoes(c.(link := a.link), env);
    WaitingBoth(map[], SendsOf(a.effects), SendsOf(resumed.effects));
  }

  lemma {:induction false} LinkedIs(c: Client, env: Env)
    requires c.link.pending
    ensures var did, a := Step(c, Received(Handshake(true, true)), env), Greeted(c, env);
            var resumed := ResumeFetch(c.(link := a.link), env);
            did.client == resumed.client && SendsOf(did.effects) == SendsOf(a.effects) + SendsOf(resumed.effects)
  {
    hide OnAsk, ResumeFetch, MarkHello;
    var hello := OnAsk(FreshLink(c.link), c.cache, Request.Hello, env);
    var chats := OnAsk(MarkHello(hello), c.cache, Request.Chats, env);
    var staged := if c.upload.Some? then OnAsk(chats.link, c.cache, Request.Staged, env) else Asking(chats.link, []);
    Together(hello.effects, chats.effects, staged.effects, ResumeFetch(c.(link := staged.link), env).effects);
    SendsOfBoth(hello.effects, chats.effects);
    SendsOfBoth(hello.effects + chats.effects, staged.effects);
  }

  lemma {:induction false} Together(a: seq<Effect>, b: seq<Effect>, c: seq<Effect>, d: seq<Effect>)
    ensures SendsOf([Show(Linked)] + a + b + c + d) == SendsOf(a) + SendsOf(b) + SendsOf(c) + SendsOf(d)
  {
    SendsOfBoth([Show(Linked)], a);
    SendsOfBoth([Show(Linked)] + a, b);
    SendsOfBoth([Show(Linked)] + a + b, c);
    SendsOfBoth([Show(Linked)] + a + b + c, d);
  }

  lemma {:induction false} PendingSound(c: Client)
    requires Sound(c) && c.link.pending
    ensures var l := FreshLink(c.link); LinkSound(l) && Open(l) && l.hello.None? && l.outstanding == map[] && !c.link.revoked
    ensures c.download.Some? ==> c.download.value.stalled
  {
  }

  // ---- what waits over the new link ----

  /** Of requests asked in turn with room for all, those wait that fit, each under its own number. */
  predicate WaitInTurn(before: map<nat, Request>, next: nat, rs: seq<Request>, env: Env, after: map<nat, Request>) {
    (forall id | id in after :: id in before || next <= id < next + |rs|) &&
    (forall id | id in before :: id in after && after[id] == before[id]) &&
    (forall i | 0 <= i < |rs| :: (next + i in after <==> env.fits(next + i, rs[i])) && (next + i in after ==> after[next + i] == rs[i]))
  }

  lemma {:induction false} AllWait(before: map<nat, Request>, next: nat, room: nat, rs: seq<Request>, env: Env)
    requires room >= |rs| && forall id | id in before :: id < next
    ensures WaitInTurn(before, next, rs, env, Waiting(before, GoOut(next, room, rs, env)))
    decreases |rs|
  {
    if rs != [] {
      var out, others := GoOut(next, room, rs, env), rs[1..];
      var fits := env.fits(next, rs[0]);
      var one := if fits then before[next := rs[0]] else before;
      var left := if fits then room - 1 else room;
      AllWait(one, next + 1, left, others, env);
      if fits {
        assert out == [Asked(next, rs[0])] + GoOut(next + 1, left, others, env);
        assert out[1..] == GoOut(next + 1, left, others, env);
      }
      var after := Waiting(before, out);
      assert after == Waiting(one, GoOut(next + 1, left, others, env));
      forall i | 0 <= i < |rs|
        ensures (next + i in after <==> env.fits(next + i, rs[i])) && (next + i in after ==> after[next + i] == rs[i]) {
        if i > 0 { assert rs[i] == others[i - 1] && next + i == next + 1 + (i - 1); }
      }
    }
  }

  /** Over the new link there wait: the greeting, the chats, one `Staged` if there is an upload, and one chunk if there is a
      download, each under its own number, and each exactly when it fits a frame. Nothing else does. */
  lemma {:induction false} GreetingsWait(c: Client, env: Env)
    requires Sound(c) && c.link.pending
    ensures WaitInTurn(map[], c.link.nextId, Greetings(c), env, Step(c, Received(Handshake(true, true)), env).client.link.outstanding)
  {
    hide Sound, Step, Greetings;
    LinkedGreets(c, env);
    FewGreetings(c);
    AllWait(map[], c.link.nextId, 64, Greetings(c), env);
  }

  lemma {:induction false} FewGreetings(c: Client)
    ensures 2 <= |Greetings(c)| <= 4 && (c.upload.Some? ==> |Greetings(c)| >= 3 && Greetings(c)[2] == Request.Staged)
  {
  }

  /** The place of the request for what the phone has of an upload. */
  lemma {:induction false} StagedIsAsked(c: Client, env: Env)
    requires Sound(c) && c.link.pending
    ensures var m := Step(c, Received(Handshake(true, true)), env).client.link;
            (Asks(m, Request.Staged) <==> c.upload.Some? && env.fits(c.link.nextId + 2, Request.Staged)) &&
            forall id | id in m.outstanding && m.outstanding[id] == Request.Staged :: id == c.link.nextId + 2
  {
    hide Sound, Step;
    GreetingsWait(c, env);
    FewGreetings(c);
    var m, n := Step(c, Received(Handshake(true, true)), env).client.link, c.link.nextId;
    forall id | id in m.outstanding && m.outstanding[id] == Request.Staged ensures id == n + 2 && c.upload.Some? {
      assert id == n + (id - n) && m.outstanding[id] == Greetings(c)[id - n];
    }
    if c.upload.Some? { assert n + 2 in m.outstanding <==> env.fits(n + 2, Request.Staged); }
  }

  // ---- over whole runs: an upload that waits over a live link has its question on order ----

  /** The phone answers the question with what it has, or with a refusal. */
  predicate StagedInKind(c: Client, input: Input) {
    input.Received? && input.frame.Data? && input.frame.content.Answer? && input.frame.content.id in c.link.outstanding &&
    c.link.outstanding[input.frame.content.id].Staged? ==>
      input.frame.content.response.Staged? || input.frame.content.response.Refused?
  }

  /** Whether the question went out over the link there is. */
  function StagedWent(c: Client, input: Input, env: Env, went: bool): bool {
    if input == Received(Handshake(true, true)) && c.link.pending then
      c.upload.Some? && env.fits(c.link.nextId + 2, Request.Staged)
    else went
  }

  predicate AwaitsStaged(c: Client, went: bool) {
    c.upload.Some? && c.upload.value.stalled && c.link.session && went ==> Asks(c.link, Request.Staged)
  }

  lemma {:induction false} AskAwaits(l: Link, cache: CC.CacheState, r: Request, env: Env)
    requires LinkSound(l)
    ensures var m := OnAsk(l, cache, r, env).link; (Asks(l, Request.Staged) ==> Asks(m, Request.Staged)) && m.session == l.session
  {
    hide OnAsk, AnySend, LinkSound;
    AskSound(l, cache, r, env);
  }

  /** What moves on asks for more and forgets nothing on order; an upload that waits goes on waiting. */
  predicate KeepsQuestion(c: Client, next: Client) {
    (next.upload.Some? ==> c.upload.Some? && (next.upload.value.stalled ==> c.upload.value.stalled)) &&
    next.link.session == c.link.session && (Asks(c.link, Request.Staged) ==> Asks(next.link, Request.Staged))
  }

  lemma {:induction false} AdvanceKeeps(c: Client, env: Env)
    requires LinkSound(c.link)
    ensures KeepsQuestion(c, AdvanceUpload(c, env).client)
  {
    hide OnAsk, Asks, LinkSound;
    if c.upload.Some? {
      var u := c.upload.value.(at := c.upload.value.at + 1);
      AskAwaits(c.link, c.cache, if u.at < |u.items| then Offer(u.chat, u.items[u.at]) else Request.FileSend(u.ids, u.text), env);
    }
  }

  lemma {:induction false} StoredKeeps(c: Client, fileId: Id, earlier: seq<Effect>, env: Env)
    requires LinkSound(c.link)
    ensures KeepsQuestion(c, OnStored(c, fileId, earlier, env).client)
  {
    hide AdvanceUpload, Asks, LinkSound;
    if c.upload.Some? { AdvanceKeeps(c.(upload := Some(c.upload.value.(next := c.upload.value.next + 1))), env); }
  }

  lemma {:induction false} OfferedKeeps(c: Client, fileId: Id, chunkTotal: nat, chunkBytes: u64, earlier: seq<Effect>, env: Env)
    requires LinkSound(c.link)
    ensures KeepsQuestion(c, OnOffered(c, fileId, chunkTotal, chunkBytes, earlier, env).client)
  {
    hide AdvanceUpload, Asks, LinkSound;
    if c.upload.Some? {
      var u := c.upload.value;
      AdvanceKeeps(c.(upload := Some(u.(ids := u.ids + [fileId], total := chunkTotal, chunkBytes := chunkBytes, next := 0))), env);
    }
  }

  lemma {:induction false} ChunkKeeps(c: Client, asked: Request, index: nat, bytes: seq<Byte>, env: Env)
    requires LinkSound(c.link)
    ensures KeepsQuestion(c, OnChunk(c, asked, index, bytes, env).client)
  {
    hide OnAsk, Asks, LinkSound, AnySend, Eaten;
    if c.download.Some? {
      AskAwaits(c.link, c.cache, ChunkRequest(c.download.value.(next := index + Eaten(|bytes|, c.download.value.chunkBytes))), env);
    }
  }

  /** What the phone has of an upload ends its waiting. */
  lemma {:induction false} StagedEndsWaiting(c: Client, files: seq<StagedFile>, env: Env)
    requires LinkSound(c.link)
    ensures var next := OnStaged(c, files, env).client; (next.upload.Some? ==> !next.upload.value.stalled) && KeepsQuestion(c, next)
  {
    hide OnAsk, Asks, LinkSound, AdvanceUpload, FindStaged, FirstUnfinished, Upload.Piece;
    if c.upload.Some? && c.upload.value.stalled {
      var u := c.upload.value.(stalled := false);
      var at := FirstUnfinished(u, files, 0);
      if at < |u.items| {
        AskAwaits(c.link, c.cache, Offer(u.chat, u.items[at]), env);
      } else if u.items != [] {
        var last := c.(upload := Some(u.(at := |u.items| - 1)));
        AdvanceKeeps(last, env);
        AdvanceGoesOn(last, env);
      }
    }
  }

  lemma {:induction false} AdvanceGoesOn(c: Client, env: Env)
    requires c.upload.Some?
    ensures var next := AdvanceUpload(c, env).client; next.upload.Some? && next.upload.value.stalled == c.upload.value.stalled
  {
  }

  lemma {:induction false} HelloKeeps(c: Client, asked: Request, wire: nat, earlier: seq<Effect>, env: Env)
    ensures KeepsQuestion(c, OnAnswer(c, asked, Response.Hello(wire), earlier, env).client)
  {
    hide Asks;
    SameAsks(c.link, c.link.(hello := None, phoneWire := Some(wire)));
  }

  lemma {:induction false} AnswerKeeps(c: Client, asked: Request, response: Response, earlier: seq<Effect>, env: Env)
    requires LinkSound(c.link)
    ensures KeepsQuestion(c, OnAnswer(c, asked, response, earlier, env).client)
    ensures asked.Staged? && (response.Staged? || response.Refused?) ==>
              var next := OnAnswer(c, asked, response, earlier, env).client; next.upload.Some? ==> !next.upload.value.stalled
  {
    hide OnStaged, OnStored, OnOffered, OnChunk, Asks, LinkSound, GiveUpStalled, CC.CacheState.RememberChats,
         CC.CacheState.RememberPage, CC.CacheState.RememberAvatar;
    match response
    case Hello(wire) => HelloKeeps(c, asked, wire, earlier, env);
    case FileOffer(fileId, chunkTotal, chunkBytes) => OfferedKeeps(c, fileId, chunkTotal, chunkBytes, earlier, env);
    case Done => if asked.FilePut? { StoredKeeps(c, asked.fileId, earlier, env); }
    case FileChunk(index, bytes) => ChunkKeeps(c, asked, index, bytes, env);
    case Staged(files) => StagedEndsWaiting(c, files, env);
    case _ =>
  }

  lemma {:induction false} SameAsks(l: Link, m: Link)
    requires m.outstanding == l.outstanding
    ensures forall r :: Asks(m, r) == Asks(l, r)
  {
  }

  lemma {:induction false} ResponseAwaits(c: Client, id: nat, response: Response, env: Env, went: bool)
    requires Sound(c) && StagedInKind(c, Received(Data(Answer(id, response)))) && AwaitsStaged(c, went)
    ensures AwaitsStaged(OnResponse(c, id, response, env).client, went)
  {
    hide OnAnswer, Overtaken, Asks, LinkSound, DownloadSound, NothingLeft;
    if id in c.link.outstanding {
      var asked := c.link.outstanding[id];
      var first := Overtaken(c.(link := c.link.(outstanding := c.link.outstanding - {id})), id);
      OvertakenSound(c, id);
      OvertakenUploads(c.(link := c.link.(outstanding := c.link.outstanding - {id})), id);
      AnswerKeeps(first.client, asked, response, first.effects, env);
      SessionNeeded(c, id);
      if !asked.Staged? { StaysAsked(c.link, first.client.link, asked); }
    }
  }

  lemma {:induction false} SessionNeeded(c: Client, id: nat)
    requires Sound(c) && id in c.link.outstanding
    ensures c.link.session
  {
  }

  lemma {:induction false} StaysAsked(l: Link, m: Link, asked: Request)
    requires StillAsks(l, m, asked) && !asked.Staged?
    ensures Asks(l, Request.Staged) ==> Asks(m, Request.Staged)
  {
    hide Asks;
  }

  lemma {:induction false} OvertakenUploads(c: Client, id: nat)
    ensures var next := Overtaken(c, id).client; next.upload == c.upload || next.upload.None?
  {
  }

  lemma {:induction false} NotedAwaits(c: Client, n: Notice, went: bool)
    requires AwaitsStaged(c, went)
    ensures AwaitsStaged(Noted(c, n), went)
  {
    hide Asks;
  }

  lemma {:induction false} FrameAwaits(c: Client, frame: Frame, env: Env, went: bool)
    requires Sound(c) && StagedInKind(c, Received(frame)) && AwaitsStaged(c, went)
    ensures AwaitsStaged(OnFrame(c, frame, env).client, StagedWent(c, Received(frame), env, went))
  {
    hide OnLinked, OnResponse, Noted, Asks, Sound, StagedInKind;
    match frame
    case Handshake(intact, agrees) =>
      if intact && agrees && c.link.pending {
        StagedIsAsked(c, env);
        LinkedGreets(c, env);
      } else {
        SameAsks(c.link, c.link.(pending := false));
      }
    case Farewell(opens) => RevokedUnlinked(c);
    case Data(Answer(id, response)) => if c.link.session { ResponseAwaits(c, id, response, env, went); }
    case Data(News(notice)) => NotedAwaits(c, notice, went);
    case _ =>
  }

  lemma {:induction false} RevokedUnlinked(c: Client)
    ensures !OnRevoked(c).link.session
  {
  }

  lemma {:induction false} StepAwaits(c: Client, input: Input, env: Env, went: bool)
    requires Sound(c) && StagedInKind(c, input) && AwaitsStaged(c, went)
    ensures AwaitsStaged(Step(c, input, env).client, StagedWent(c, input, env, went))
  {
    hide OnAsk, Asks, OnFrame, AnySend, LinkSound, DownloadSound, NothingLeft, StagedInKind, AbortEach;
    match input
    case Received(frame) => FrameAwaits(c, frame, env, went);
    case Ask(request) => AskAwaits(c.link, c.cache, request, env);
    case Fetch(fileId, chunkTotal, chunkBytes) =>
      AskAwaits(c.link, c.cache, ChunkRequest(Download(fileId, 0, chunkTotal, chunkBytes, false)), env);
    case Send(chat, items, text) => if items != [] { AskAwaits(c.link, c.cache, Offer(chat, items[0]), env); }
    case PutChunk(index, bytes) =>
      if c.upload.Some? && c.upload.value.Current().Some? {
        AskAwaits(c.link, c.cache, Request.FilePut(c.upload.value.Current().value, index, bytes), env);
      }
    case Reach => SameAsks(c.link, c.link.(pending := true));
    case _ =>
  }

  predicate KindRun(c: Client, run: seq<Moment>)
    decreases |run|
  {
    run == [] || (StagedInKind(c, run[0].input) && KindRun(Step(c, run[0].input, run[0].env).client, run[1..]))
  }

  function WentOver(c: Client, run: seq<Moment>, went: bool): bool
    decreases |run|
  {
    if run == [] then went
    else WentOver(Step(c, run[0].input, run[0].env).client, run[1..], StagedWent(c, run[0].input, run[0].env, went))
  }

  lemma {:induction false} RunAwaits(c: Client, run: seq<Moment>, went: bool)
    requires Sound(c) && AwaitsStaged(c, went) && HonestRun(c, run) && KindRun(c, run)
    ensures AwaitsStaged(Run(c, run), WentOver(c, run, went))
    decreases |run|
  {
    hide Sound, Step, AwaitsStaged, StagedInKind, Honest, StagedWent;
    if run != [] {
      StepAwaits(c, run[0].input, run[0].env, went);
      StepSound(c, run[0].input, run[0].env);
      RunAwaits(Step(c, run[0].input, run[0].env).client, run[1..], StagedWent(c, run[0].input, run[0].env, went));
    }
  }

  /** In every state a terminal can reach with a phone that answers in kind: an upload that waits over a live link has the
      question what the phone has of it on order, unless that question did not fit a frame when the link came up. */
  lemma {:induction false} WaitingIsAsked(address: CC.Address, run: seq<Moment>)
    requires HonestRun(FromInvite(address), run) && KindRun(FromInvite(address), run) && WentOver(FromInvite(address), run, false)
    ensures var e := Run(FromInvite(address), run);
            e.upload.Some? && e.upload.value.stalled && e.link.session ==> Asks(e.link, Request.Staged)
  {
    hide Run, WentOver, Asks, Sound;
    InvitedSound(address);
    RunAwaits(FromInvite(address), run, false);
  }

  // ---- losing the link and finding it again ----

  /** Losing the channel drops nothing but the channel and what waited on it: both transfers stay where they were, and wait. */
  lemma {:induction false} LostKeepsPlaces(c: Client, env: Env)
    requires Sound(c) && !c.link.revoked
    ensures var did := Step(c, Lost, env);
            !did.client.link.session && !did.client.link.pending && did.client.link.outstanding == map[] &&
            did.client.link.nextId == c.link.nextId && !did.client.link.revoked && SendsOf(did.effects) == [] &&
            did.client.upload.Some? == c.upload.Some? && did.client.download.Some? == c.download.Some? &&
            (c.upload.Some? ==> did.client.upload.value == c.upload.value.(stalled := true) && Show(SendPaused) in did.effects) &&
            (c.download.Some? ==> did.client.download.value == c.download.value.(stalled := true) && Show(FetchPaused) in did.effects) &&
            (c.link.session ==> Show(Unlinked) in did.effects) && Sound(did.client)
  {
    hide Asks;
    LostQuiet(c);
    LostSound(c);
  }

  /** Without a link, and if a handshake can be begun, there is one under way, with one knock that says both addresses. */
  lemma {:induction false} ReachKnocks(c: Client, env: Env)
    requires Sound(c) && !c.link.revoked && !c.link.session && env.starts && env.frames
    ensures var did := Step(c, Input.Reach, env);
            did.client == c.(link := c.link.(pending := true)) && SendsOf(did.effects) == [Knock(c.ownOnion, c.ownYgg)] && Sound(did.client)
  {
    hide Asks;
    var knock := [Effect.Send(Knock(c.ownOnion, c.ownYgg))];
    assert knock[1..] == [] && SendsOf(knock) == [Knock(c.ownOnion, c.ownYgg)];
  }

  function Again(c: Client, env: Env): Client {
    Run(c, [Moment(Lost, env), Moment(Input.Reach, env), Moment(Received(Handshake(true, true)), env)])
  }

  lemma {:induction false} AgainIs(c: Client, env: Env)
    ensures Again(c, env) == Step(Step(Step(c, Lost, env).client, Input.Reach, env).client, Received(Handshake(true, true)), env).client
  {
    hide Step;
    var a, b, x := Moment(Lost, env), Moment(Input.Reach, env), Moment(Received(Handshake(true, true)), env);
    assert [a, b, x][1..] == [b, x] && [b, x][1..] == [x] && [x][1..] == [];
    var one := Step(c, Lost, env).client;
    var two := Step(one, Input.Reach, env).client;
    assert Run(two, [x]) == Run(Step(two, Received(Handshake(true, true)), env).client, []);
    assert Run(one, [b, x]) == Run(two, [x]);
  }

  /** Lost and found again over a network that carries everything: both transfers stand where they stood, the download with
      the chunk it waited for on order, the upload with the question what the phone has of it. */
  lemma {:induction false} TakenUpAgain(c: Client, env: Env)
    requires Sound(c) && !c.link.revoked && env.starts && env.frames && forall n, r :: env.fits(n, r)
    ensures var e := Again(c, env);
            Sound(e) && e.link.session && !e.link.revoked && |e.link.outstanding| <= 4 &&
            (c.upload.Some? ==> e.upload == Some(c.upload.value.(stalled := true)) && Asks(e.link, Request.Staged)) &&
            (c.download.Some? ==> e.download == Some(c.download.value.(stalled := false)) && Asks(e.link, ChunkRequest(c.download.value))) &&
            (c.upload.None? ==> e.upload.None?) && (c.download.None? ==> e.download.None?)
  {
    hide Sound, Step, Asks, Greetings;
    AgainIs(c, env);
    LostKeepsPlaces(c, env);
    var one := Step(c, Lost, env).client;
    ReachKnocks(one, env);
    var two := Step(one, Input.Reach, env).client;
    LinkedGreets(two, env);
    StagedIsAsked(two, env);
    StepSound(two, Received(Handshake(true, true)), env);
    DownloadOf(Step(two, Received(Handshake(true, true)), env).client);
    GreetingsWait(two, env);
    FewGreetings(two);
    FewWait(two.link.nextId, Greetings(two), env, Step(two, Received(Handshake(true, true)), env).client.link.outstanding);
  }

  lemma {:induction false} DownloadOf(c: Client)
    requires Sound(c)
    ensures c.download.Some? && !c.download.value.stalled ==> Asks(c.link, ChunkRequest(c.download.value.(stalled := true)))
  {
  }

  lemma {:induction false} FewWait(next: nat, rs: seq<Request>, env: Env, after: map<nat, Request>)
    requires |rs| <= 4 && WaitInTurn(map[], next, rs, env, after)
    ensures |after| <= 4
  {
    var few := {next, next + 1, next + 2, next + 3};
    assert after.Keys <= few;
    SmallerSet(after.Keys, few);
  }

  lemma {:induction false} SmallerSet(a: set<nat>, b: set<nat>)
    requires a <= b
    ensures |a| <= |b|
  {
    assert b == a + (b - a);
  }

  // ---- how a transfer begins, and how it is ended from outside ----

  /** As many chunks are asked for at once as fit beside what an answer carries, and one at least. */
  lemma {:induction false} ChunksFit(chunkBytes: u64)
    requires chunkBytes > 0
    ensures var n := ChunksPerAsk(chunkBytes); n >= 1 && (n > 1 ==> n * chunkBytes <= 1048245) && (n + 1) * chunkBytes > 1048245
  {
    var n := 1048245 / chunkBytes;
    assert n * chunkBytes + 1048245 % chunkBytes == 1048245;
    assert (n + 1) * chunkBytes == n * chunkBytes + chunkBytes;
  }

  /** A download begins if and only if there is none, the file has chunks, and the request for the first may go out: then
      that request is all that is said. */
  lemma {:induction false} FetchBegins(c: Client, fileId: Id, chunkTotal: nat, chunkBytes: u64, env: Env)
    requires Sound(c)
    ensures var did, first := Step(c, Fetch(fileId, chunkTotal, chunkBytes), env), Request.FileChunk(fileId, 0, ChunksPerAsk(chunkBytes));
            var goes := c.download.None? && chunkTotal > 0 && MayGo(c.link, first, env);
            (goes ==> did.client == c.(link := AskedFor(c.link, first), download := Some(Download(fileId, 0, chunkTotal, chunkBytes, false)))) &&
            (!goes ==> did.client == c.(link := did.client.link)) &&
            SendsOf(did.effects) == if goes then [Asked(c.link.nextId, first)] else []
  {
    hide OnAsk, AnySend, MayGo, ChunksPerAsk;
    GoesOutIff(c.link, c.cache, Request.FileChunk(fileId, 0, ChunksPerAsk(chunkBytes)), env);
  }

  /** A message begins to be sent if and only if no other is, it has one to ten files with previews of at most 32 KiB, and the
      offer of the first may go out. */
  lemma {:induction false} SendBegins(c: Client, chat: Id, items: seq<OutgoingItem>, text: Text, env: Env)
    requires Sound(c)
    ensures var did := Step(c, Input.Send(chat, items, text), env);
            var goes := c.upload.None? && 1 <= |items| <= 10 &&
                        (forall i | 0 <= i < |items| :: items[i].preview.Some? ==> |items[i].preview.value| <= 32768) &&
                        MayGo(c.link, Offer(chat, items[0]), env);
            (goes ==> did.client == c.(link := AskedFor(c.link, Offer(chat, items[0])), upload := Some(Upload(chat, items, 0, [], 0, 0, 0, text, false)))) &&
            (!goes ==> did.client == c.(link := did.client.link)) &&
            SendsOf(did.effects) == if goes then [Asked(c.link.nextId, Offer(chat, items[0]))] else []
  {
    hide OnAsk, AnySend, MayGo;
    if items != [] { GoesOutIff(c.link, c.cache, Offer(chat, items[0]), env); }
  }

  /** A piece read is put under the id the phone gave, if it is the one waited for; if the put cannot go out the message is
      given up. */
  lemma {:induction false} PieceIsPut(c: Client, index: nat, bytes: seq<Byte>, env: Env)
    requires Sound(c) && c.upload.Some? && !c.upload.value.stalled && c.upload.value.at < |c.upload.value.ids| && index == c.upload.value.next
    ensures var did, put := Step(c, PutChunk(index, bytes), env), Request.FilePut(c.upload.value.ids[c.upload.value.at], index, bytes);
            did.client == c.(link := did.client.link, upload := if MayGo(c.link, put, env) then c.upload else None) &&
            SendsOf(did.effects) == (if MayGo(c.link, put, env) then [Asked(c.link.nextId, put)] else []) &&
            (MayGo(c.link, put, env) ==> did.client.link == AskedFor(c.link, put))
  {
    hide OnAsk, AnySend, MayGo;
    GoesOutIff(c.link, c.cache, Request.FilePut(c.upload.value.ids[c.upload.value.at], index, bytes), env);
  }

  /** A refusal ends what it refuses, and that is told; a refusal of anything else ends nothing. */
  lemma {:induction false} RefusalEnds(c: Client, id: nat, env: Env)
    requires Sound(c) && id in c.link.outstanding
    ensures var did, asked := Step(c, Reply(id, Response.Refused), env), c.link.outstanding[id];
            did.client.download == (if asked.FileChunk? then None else c.download) &&
            (if asked.FileOffer? || asked.FilePut? || asked.FileSend? || asked.Staged? then did.client.upload.None? && Show(SendStopped) in did.effects
             else did.client.upload ==
                  (if c.upload.Some? && c.upload.value.stalled && c.link.hello.Some? && id > c.link.hello.value then None else c.upload)) &&
            (asked.FileChunk? ==> Show(FetchStopped) in did.effects) && did.client.cache == c.cache
  {
    hide LinkSound, DownloadSound, UploadSound, NothingLeft;
    SessionNeeded(c, id);
  }

  /** The greeting answered: a phone older than version 9 of the wire cannot say what it has of an upload, so one that waits is
      given up; every other goes on waiting. */
  lemma {:induction false} GreetingDecides(c: Client, id: nat, wire: nat, env: Env)
    requires Sound(c) && id in c.link.outstanding && (c.link.hello.Some? ==> id <= c.link.hello.value)
    ensures var did := Step(c, Reply(id, Response.Hello(wire)), env);
            did.client == c.(link := c.link.(outstanding := c.link.outstanding - {id}, hello := None, phoneWire := Some(wire)),
                             upload := if c.upload.Some? && c.upload.value.stalled && wire < 9 then None else c.upload) &&
            (Show(SendStopped) in did.effects <==> c.upload.Some? && c.upload.value.stalled && wire < 9) &&
            Show(Wire(Some(wire))) in did.effects
  {
    hide LinkSound, DownloadSound, UploadSound, NothingLeft;
    SessionNeeded(c, id);
  }

  /** An answer to a later request, while the greeting is unanswered: the phone is older than the greeting, and so than
      continuing an upload. */
  lemma {:induction false} GreetingUnknown(c: Client, id: nat, env: Env)
    requires Sound(c) && id in c.link.outstanding && c.link.hello.Some? && id > c.link.hello.value && !c.link.outstanding[id].Staged?
    requires !c.link.outstanding[id].FilePut? && !c.link.outstanding[id].FileSend?
    ensures var did := Step(c, Reply(id, Response.Done), env);
            did.client == c.(link := c.link.(outstanding := c.link.outstanding - {id} - {c.link.hello.value}, hello := None, phoneWire := Some(0)),
                             upload := if c.upload.Some? && c.upload.value.stalled then None else c.upload) &&
            Show(Wire(None)) in did.effects
  {
    hide LinkSound, DownloadSound, UploadSound, NothingLeft;
    SessionNeeded(c, id);
  }

  /** A handshake that is broken, or that nobody waits for, changes nothing; one that does not agree ends the waiting. */
  lemma {:induction false} OtherHandshakes(c: Client, intact: bool, agrees: bool, env: Env)
    requires !intact || !agrees || !c.link.pending
    ensures var did := Step(c, Received(Handshake(intact, agrees)), env);
            did.client == c.(link := c.link.(pending := c.link.pending && !intact)) && SendsOf(did.effects) == []
  {
    assert [Show(Ignored)][1..] == [];
  }

  // ---- where an upload goes on ----

  /** What the phone's list says of a file: its first entry counts. */
  lemma {:induction false} FoundFirst(files: seq<StagedFile>, fileId: Id)
    ensures FindStaged(files, fileId).None? <==> forall i | 0 <= i < |files| :: files[i].fileId != fileId
    ensures FindStaged(files, fileId).Some? ==>
              exists i | 0 <= i < |files| ::
                files[i] == FindStaged(files, fileId).value && files[i].fileId == fileId && forall j | 0 <= j < i :: files[j].fileId != fileId
  {
    if files != [] && files[0].fileId != fileId {
      var others := files[1..];
      FoundFirst(others, fileId);
      assert forall i | 0 <= i < |others| :: others[i] == files[i + 1];
      if FindStaged(others, fileId).Some? {
        var i :| 0 <= i < |others| && others[i] == FindStaged(others, fileId).value && others[i].fileId == fileId &&
                 forall j | 0 <= j < i :: others[j].fileId != fileId;
        assert files[i + 1] == FindStaged(files, fileId).value;
        forall j | 0 <= j < i + 1 ensures files[j].fileId != fileId {
          if j > 0 { assert files[j] == others[j - 1]; }
        }
      }
    }
  }

  /** The phone says it has all of the file taken under the i-th id. */
  predicate SaidWhole(u: Upload, files: seq<StagedFile>, i: nat) {
    i < |u.ids| && FindStaged(files, u.ids[i]).Some? && FindStaged(files, u.ids[i]).value.missing == []
  }

  lemma {:induction false} FirstNotWhole(u: Upload, files: seq<StagedFile>, at: nat)
    requires at <= |u.items|
    ensures var k := FirstUnfinished(u, files, at);
            at <= k <= |u.items| && (forall i | at <= i < k :: SaidWhole(u, files, i)) && (k < |u.items| ==> !SaidWhole(u, files, k))
    decreases |u.items| - at
  {
    hide FindStaged;
    if at < |u.items| && SaidWhole(u, files, at) { FirstNotWhole(u, files, at + 1); }
  }

  /** What a waiting upload does with the phone's list: it goes on at the first of its files the phone does not say it has
      whole. Is there none, the message is sent. Is some chunk of that file missing, the first missing one is put, and nothing
      is asked. Is the file not listed, it and those after it are offered anew. */
  lemma {:induction false} GoesOnAt(c: Client, files: seq<StagedFile>, env: Env) returns (k: nat)
    requires LinkSound(c.link) && c.upload.Some? && c.upload.value.stalled && c.upload.value.items != []
    ensures
      var did, u := OnStaged(c, files, env), c.upload.value;
      k <= |u.items| && (forall i | 0 <= i < k :: SaidWhole(u, files, i)) && (k < |u.items| ==> !SaidWhole(u, files, k)) &&
      Show(SendResumed(k, |u.items|)) in did.effects &&
      if k == |u.items| then
        did.client.upload == Some(u.(stalled := false, at := |u.items|)) &&
        SendsOf(did.effects) == Going(c.link, Request.FileSend(u.ids, u.text), env)
      else if k < |u.ids| && FindStaged(files, u.ids[k]).Some? then
        var f := FindStaged(files, u.ids[k]).value;
        did.client.upload == Some(u.(stalled := false, at := k, next := f.missing[0], total := f.chunkTotal)) && SendsOf(did.effects) == [] &&
        var piece := did.client.upload.value.Piece(f.missing[0]);
        Show(NeedChunk(u.ids[k], k, f.missing[0], piece.0, piece.1)) in did.effects
      else
        did.client.upload == Some(u.(stalled := false, at := k, ids := if k < |u.ids| then u.ids[..k] else u.ids)) &&
        SendsOf(did.effects) == Going(c.link, Offer(u.chat, u.items[k]), env)
  {
    hide OnAsk, FirstUnfinished, MayGo, LinkSound, FindStaged, Upload.Piece, AskedFor, AnySend;
    var u := c.upload.value.(stalled := false);
    FirstNotWhole(u, files, 0);
    k := FirstUnfinished(u, files, 0);
    SameWhole(c.upload.value, u, files);
    var resumed := [Show(SendResumed(k, |u.items|))];
    assert resumed[1..] == [] && SendsOf(resumed) == [];
    GoesOutIff(c.link, c.cache, Request.FileSend(u.ids, u.text), env);
    SendsOfBoth(resumed, OnAsk(c.link, c.cache, Request.FileSend(u.ids, u.text), env).effects);
    if k < |u.items| {
      GoesOutIff(c.link, c.cache, Offer(u.chat, u.items[k]), env);
      SendsOfBoth(resumed, OnAsk(c.link, c.cache, Offer(u.chat, u.items[k]), env).effects);
      if k < |u.ids| && FindStaged(files, u.ids[k]).Some? { NeedSendsNothing(resumed); }
    }
    assert (resumed + OnStaged(c, files, env).effects)[0] == resumed[0];
  }

  function Going(l: Link, r: Request, env: Env): seq<Outgoing> {
    if MayGo(l, r, env) then [Asked(l.nextId, r)] else []
  }

  lemma {:induction false} SameWhole(u: Upload, v: Upload, files: seq<StagedFile>)
    requires u.ids == v.ids
    ensures forall i :: SaidWhole(u, files, i) == SaidWhole(v, files, i)
  {
  }

  lemma {:induction false} NeedSendsNothing(resumed: seq<Effect>)
    requires SendsOf(resumed) == []
    ensures forall e :: SendsOf(resumed + [Show(e)]) == [] && Show(e) in resumed + [Show(e)]
  {
    forall e ensures SendsOf(resumed + [Show(e)]) == [] && Show(e) in resumed + [Show(e)] {
      SendsOfBoth(resumed, [Show(e)]);
      assert [Show(e)][1..] == [] && (resumed + [Show(e)])[|resumed|] == Show(e);
    }
  }

  // ---- what is shown ----

  /** What is remembered is shown before anything is asked, and with or without a link. */
  lemma {:induction false} RememberedIsShown(c: Client, chat: Id, limit: nat, of: Id, env: Env)
    requires !c.link.revoked
    ensures c.cache.chats != [] ==> Show(Event.Chats(c.cache.chats, c.cache.confirmed)) in Step(c, Ask(Request.Chats), env).effects
    ensures c.cache.Page(chat) != [] ==>
              Show(Event.History(chat, c.cache.Page(chat), c.cache.confirmed)) in Step(c, Ask(Request.History(chat, limit, None)), env).effects
    ensures of in c.cache.avatars ==>
              Show(Event.Avatar(Some(of), Some(c.cache.avatars[of].bytes), c.cache.confirmed)) in Step(c, Ask(Request.Avatar(Some(of))), env).effects
    ensures c.cache.mine.Some? ==>
              Show(Event.Avatar(None, Some(c.cache.mine.value.bytes), c.cache.confirmed)) in Step(c, Ask(Request.Avatar(None)), env).effects
  {
    ShownFirst(c.link, c.cache, Request.Chats, env);
    ShownFirst(c.link, c.cache, Request.History(chat, limit, None), env);
    ShownFirst(c.link, c.cache, Request.Avatar(Some(of)), env);
    ShownFirst(c.link, c.cache, Request.Avatar(None), env);
  }

  lemma {:induction false} ShownFirst(l: Link, cache: CC.CacheState, r: Request, env: Env)
    requires !l.revoked && TextOf(r).None?
    ensures var effects, shown := OnAsk(l, cache, r, env).effects, CachedAnswer(cache, r);
            shown != [] ==> effects != [] && effects[0] == shown[0]
  {
    hide CachedAnswer;
  }

  /** A request that cannot go out is told of: that there is no link, or that it is refused. */
  lemma {:induction false} NotGoneIsTold(c: Client, r: Request, env: Env)
    requires !MayGo(c.link, r, env)
    ensures var effects := Step(c, Ask(r), env).effects;
            effects != [] && effects[|effects| - 1].Show? &&
            (!c.link.revoked && TextOf(r).None? && !r.Avatar? && !r.SetMyAvatar? ==>
               effects[|effects| - 1].event == if c.link.session && c.link.connected then Event.Refused else NotLinked)
  {
    hide CachedAnswer;
    if CachedAnswer(c.cache, r) != [] { CachedShows(c.cache, r); }
  }

  lemma {:induction false} CachedShows(cache: CC.CacheState, r: Request)
    ensures forall i | 0 <= i < |CachedAnswer(cache, r)| :: CachedAnswer(cache, r)[i].Show?
  {
  }

  /** What the phone answers is shown: the last thing a step tells is what came. */
  lemma {:induction false} AnswerIsShown(c: Client, id: nat, response: Response, env: Env)
    requires Sound(c) && id in c.link.outstanding
    ensures var asked, effects := c.link.outstanding[id], Step(c, Reply(id, response), env).effects;
            match response
            case Chats(chats) => effects != [] && effects[|effects| - 1] == Show(Event.Chats(chats, true))
            case History(page) => asked.History? ==> effects != [] && effects[|effects| - 1] == Show(Event.History(asked.chat, page, true))
            case Avatar(face, _) => asked.Avatar? ==> effects != [] && effects[|effects| - 1] == Show(Event.Avatar(asked.of, face, true))
            case FilePreview(preview) =>
              asked.FilePreview? ==> effects != [] && effects[|effects| - 1] == Show(Event.FilePreview(asked.fileId, preview))
            case Members(members) => asked.Members? ==> effects != [] && effects[|effects| - 1] == Show(Event.Members(asked.chat, members))
            case GroupCreated(chat) => effects != [] && effects[|effects| - 1] == Show(Event.GroupCreated(chat))
            case Done =>
              (asked.FileSend? ==> effects != [] && effects[|effects| - 1] == Show(Sent(asked.fileIds))) &&
              (!asked.FileSend? && !asked.FilePut? ==> effects != [] && effects[|effects| - 1] == Show(Event.Done))
            case _ => true
  {
    hide LinkSound, DownloadSound, UploadSound, NothingLeft, Overtaken, OnChunk, OnStaged, OnStored, OnOffered, OnRefused, GiveUpStalled,
         CC.CacheState.RememberChats, CC.CacheState.RememberPage, CC.CacheState.RememberAvatar;
    SessionNeeded(c, id);
  }

  /** News is shown as it came; an address announced is the one known from then on, and marked if it is another. */
  lemma {:induction false} NewsIsShown(c: Client, notice: Notice, env: Env)
    requires c.link.session
    ensures var did := Step(c, Received(Data(News(notice))), env);
            did.effects == [Show(Noticed(notice))] &&
            (notice.LinkAddress? ==>
               did.client == c.(address := notice.address, addressDirty := c.addressDirty || c.address != notice.address))
  {
  }

  /** Without a session nothing that is sealed is looked at. */
  lemma {:induction false} SealedIsIgnored(c: Client, content: Content, env: Env)
    requires !c.link.session
    ensures Step(c, Received(Data(content)), env) == Did(c, [Show(Ignored)])
  {
  }

  /** A revocation, by news or by a farewell that opens, ends everything at once; a farewell that does not open is nothing. */
  lemma {:induction false} RevocationEnds(c: Client, env: Env)
    ensures c.link.session ==> Ended(Step(c, Received(Data(News(Notice.Revoked))), env).client)
    ensures Ended(Step(c, Received(Farewell(true)), env).client)
    ensures Step(c, Received(Farewell(false)), env) == Did(c, [Show(Ignored)])
  {
  }

  predicate Ended(c: Client) {
    c.link.revoked && !c.link.session && !c.link.connected && !c.link.pending && c.link.outstanding == map[] && NothingLeft(c)
  }

  /** The terminal's own addresses are those it was last told. */
  lemma {:induction false} OwnAddresses(c: Client, onion: Text, ygg: seq<Byte>, env: Env)
    ensures Step(c, OnionReady(onion), env) == Did(c.(ownOnion := onion), [])
    ensures Step(c, YggReady(ygg), env) == Did(c.(ownYgg := ygg), [])
  {
  }
}
