/** What the operations on one page of messages keep: whose messages, in what order, and each id once. */
module CompanionPages {
  import opened Bytes
  import opened CompanionCache

  predicate OncePerId(page: seq<Message>) {
    page == [] || (!HasId(page[1..], page[0].msgId) && OncePerId(page[1..]))
  }

  predicate InTimeOrder(page: seq<Message>) {
    forall i | 0 < i < |page| :: !Before(page[i], page[i - 1])
  }

  // ---- membership ----

  lemma {:induction false} WithoutIdsOfMembers(page: seq<Message>, other: seq<Message>)
    ensures forall m :: m in WithoutIdsOf(page, other) <==> m in page && !HasId(other, m.msgId)
  {
    if page != [] {
      WithoutIdsOfMembers(page[1..], other);
      assert page == [page[0]] + page[1..];
    }
  }

  lemma {:induction false} WithoutIdsMembers(page: seq<Message>, ids: seq<Id>)
    ensures forall m :: m in WithoutIds(page, ids) <==> m in page && m.msgId !in ids
  {
    if page != [] {
      WithoutIdsMembers(page[1..], ids);
      assert page == [page[0]] + page[1..];
    }
  }

  lemma {:induction false} InsertIsPermutation(m: Message, page: seq<Message>)
    ensures multiset(InsertMessage(m, page)) == multiset(page) + multiset{m}
  {
    if page != [] && Before(page[0], m) {
      InsertIsPermutation(m, page[1..]);
      assert page == [page[0]] + page[1..];
    }
  }

  lemma {:induction false} SortIsPermutation(page: seq<Message>)
    ensures multiset(SortPage(page)) == multiset(page)
  {
    if page != [] {
      SortIsPermutation(page[1..]);
      InsertIsPermutation(page[0], SortPage(page[1..]));
      assert page == [page[0]] + page[1..];
    }
  }

  lemma {:induction false} SamePeople(a: seq<Message>, b: seq<Message>)
    requires multiset(a) == multiset(b)
    ensures forall m :: m in a <==> m in b
  {
    forall m ensures m in a <==> m in b {
      assert m in a <==> m in multiset(a);
    }
  }

  lemma {:induction false} MergeMembers(known: seq<Message>, page: seq<Message>)
    ensures forall m | m in Merge(known, page) :: m in page || (m in known && !HasId(page, m.msgId))
    ensures |Merge(known, page)| <= DESKTOP_CACHE_PER_CHAT
  {
    var all := WithoutIdsOf(known, page) + page;
    SortIsPermutation(all);
    SamePeople(all, SortPage(all));
    WithoutIdsOfMembers(known, page);
    forall m | m in Merge(known, page) ensures m in page || (m in known && !HasId(page, m.msgId)) {
      assert m in all;
    }
  }

  // ---- each id once ----

  lemma {:induction false} WithoutIdsOfOnce(page: seq<Message>, other: seq<Message>)
    requires OncePerId(page)
    ensures OncePerId(WithoutIdsOf(page, other))
  {
    if page != [] {
      WithoutIdsOfOnce(page[1..], other);
      WithoutIdsOfMembers(page[1..], other);
    }
  }

  lemma {:induction false} WithoutIdsOnce(page: seq<Message>, ids: seq<Id>)
    requires OncePerId(page)
    ensures OncePerId(WithoutIds(page, ids))
  {
    if page != [] {
      WithoutIdsOnce(page[1..], ids);
      WithoutIdsMembers(page[1..], ids);
    }
  }

  lemma {:induction false} AppendOnce(a: seq<Message>, b: seq<Message>)
    requires OncePerId(a) && OncePerId(b) && forall m | m in a :: !HasId(b, m.msgId)
    ensures OncePerId(a + b)
  {
    if a == [] {
      assert a + b == b;
    } else {
      AppendOnce(a[1..], b);
      assert (a + b)[1..] == a[1..] + b;
      assert a[0] in a;
    }
  }

  lemma {:induction false} InsertOnce(m: Message, page: seq<Message>)
    requires OncePerId(page) && !HasId(page, m.msgId)
    ensures OncePerId(InsertMessage(m, page))
  {
    if page != [] && Before(page[0], m) {
      InsertOnce(m, page[1..]);
      var rest := InsertMessage(m, page[1..]);
      InsertIsPermutation(m, page[1..]);
      forall x | x in rest ensures x.msgId != page[0].msgId {
        assert x in multiset(rest);
        assert page[0] in page;
      }
      assert ([page[0]] + rest)[1..] == rest;
    } else {
      assert ([m] + page)[1..] == page;
    }
  }

  lemma {:induction false} SortOnce(page: seq<Message>)
    requires OncePerId(page)
    ensures OncePerId(SortPage(page))
  {
    if page != [] {
      SortOnce(page[1..]);
      SortIsPermutation(page[1..]);
      SamePeople(page[1..], SortPage(page[1..]));
      InsertOnce(page[0], SortPage(page[1..]));
    }
  }

  lemma {:induction false} SuffixOnce(page: seq<Message>, k: nat)
    requires OncePerId(page) && k <= |page|
    ensures OncePerId(page[k..])
  {
    if k > 0 {
      SuffixOnce(page[1..], k - 1);
      assert page[1..][k - 1..] == page[k..];
    }
  }

  lemma {:induction false} TrimOnce(page: seq<Message>)
    requires OncePerId(page)
    ensures OncePerId(Trim(page))
  {
    hide OncePerId;
    var k := if |page| > DESKTOP_CACHE_PER_CHAT then |page| - DESKTOP_CACHE_PER_CHAT else 0;
    SuffixOnce(page, k);
    assert Trim(page) == page[k..];
  }

  lemma {:induction false} MergeOnce(known: seq<Message>, page: seq<Message>)
    requires OncePerId(known) && OncePerId(page)
    ensures OncePerId(Merge(known, page))
  {
    WithoutIdsOfOnce(known, page);
    WithoutIdsOfMembers(known, page);
    var all := WithoutIdsOf(known, page) + page;
    AppendOnce(WithoutIdsOf(known, page), page);
    SortOnce(all);
    TrimOnce(SortPage(all));
  }

  /** Replacing messages by ones with the same ids. */
  lemma {:induction false} SameIdsOnce(a: seq<Message>, b: seq<Message>)
    requires OncePerId(a) && |a| == |b| && forall i | 0 <= i < |a| :: b[i].msgId == a[i].msgId
    ensures OncePerId(b)
  {
    if a != [] {
      SameIdsOnce(a[1..], b[1..]);
      forall m | m in b[1..] ensures m.msgId != b[0].msgId {
        var j :| 0 <= j < |b| - 1 && b[1..][j] == m;
        assert a[1..][j] in a[1..];
      }
    }
  }

  /** Looking an id up finds the one message that has it. */
  lemma {:induction false} IndexOfOnly(page: seq<Message>, m: Message)
    requires OncePerId(page) && m in page
    ensures IndexOf(page, m.msgId).Some? && page[IndexOf(page, m.msgId).value] == m
  {
    if page[0] != m {
      assert page == [page[0]] + page[1..];
      assert m in page[1..];
      IndexOfOnly(page[1..], m);
    }
  }

  // ---- order ----

  lemma {:induction false} BeforeIsOrder(a: Message, b: Message, c: Message)
    ensures Before(a, b) ==> !Before(b, a)
    ensures !Before(b, a) && !Before(c, b) ==> !Before(c, a)
  {
    LexTotal(a.msgId, b.msgId);
    LexTotal(b.msgId, c.msgId);
    LexTotal(a.msgId, c.msgId);
    if LexLess(c.msgId, a.msgId) && LexLess(a.msgId, b.msgId) { LexTransitive(c.msgId, a.msgId, b.msgId); }
    if LexLess(b.msgId, c.msgId) && LexLess(c.msgId, a.msgId) { LexTransitive(b.msgId, c.msgId, a.msgId); }
  }

  lemma {:induction false} InsertOrdered(m: Message, page: seq<Message>)
    requires InTimeOrder(page)
    ensures InTimeOrder(InsertMessage(m, page))
    ensures InsertMessage(m, page)[0] == m || (page != [] && InsertMessage(m, page)[0] == page[0])
  {
    if page != [] && Before(page[0], m) {
      InsertOrdered(m, page[1..]);
      BeforeIsOrder(page[0], m, m);
      var r := InsertMessage(m, page[1..]);
      forall i | 0 < i < |r| + 1 ensures !Before(([page[0]] + r)[i], ([page[0]] + r)[i - 1]) {
        if i == 1 && r[0] != m { assert !Before(page[1], page[0]); }
        if i > 1 { assert !Before(r[i - 1], r[i - 2]); }
      }
    }
  }

  lemma {:induction false} SortOrders(page: seq<Message>)
    ensures InTimeOrder(SortPage(page))
  {
    if page != [] {
      SortOrders(page[1..]);
      InsertOrdered(page[0], SortPage(page[1..]));
    }
  }

  lemma {:induction false} OrderedApart(page: seq<Message>, i: nat, j: nat)
    requires InTimeOrder(page) && i < j < |page|
    ensures !Before(page[j], page[i])
  {
    if i < j - 1 {
      OrderedApart(page, i, j - 1);
      BeforeIsOrder(page[i], page[j - 1], page[j]);
    }
  }

  /** A merge keeps, in order, the newest of what it merges, and drops nothing while there is room. */
  lemma {:induction false} MergeKeepsNewest(known: seq<Message>, page: seq<Message>) returns (dropped: seq<Message>)
    ensures InTimeOrder(Merge(known, page))
    ensures multiset(WithoutIdsOf(known, page) + page) == multiset(dropped) + multiset(Merge(known, page))
    ensures dropped != [] ==> |Merge(known, page)| == DESKTOP_CACHE_PER_CHAT
    ensures forall out, kept | out in dropped && kept in Merge(known, page) :: !Before(kept, out)
  {
    var all := WithoutIdsOf(known, page) + page;
    var sorted := SortPage(all);
    SortIsPermutation(all);
    SortOrders(all);
    var cut := if |sorted| > DESKTOP_CACHE_PER_CHAT then |sorted| - DESKTOP_CACHE_PER_CHAT else 0;
    dropped := sorted[..cut];
    assert Merge(known, page) == sorted[cut..];
    assert sorted == dropped + sorted[cut..];
    forall out, kept | out in dropped && kept in sorted[cut..] ensures !Before(kept, out) {
      var i :| 0 <= i < cut && sorted[i] == out;
      var j :| 0 <= j < |sorted| - cut && sorted[cut..][j] == kept;
      OrderedApart(sorted, i, cut + j);
    }
  }
}
