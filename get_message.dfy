/**
 * GET /api/get-message: the session owner's messages, newest first, read
 * with the aggregation `$match` on `_id`, `$unwind` of the message array,
 * `$sort` on `createdAt` descending and `$group` back by `_id`.
 * Read-only: the handler is a function of the collection.
 */
module GetMessage {
  import opened Wrappers
  import opened UserModel
  import opened Http

  predicate NewestFirst(ms: seq<Message>) {
    forall j, k :: 0 <= j < k < |ms| ==> ms[j].createdAt >= ms[k].createdAt
  }

  /** Places `m` in front of the first message that is not newer than it. */
  function Insert(m: Message, sorted: seq<Message>): (r: seq<Message>)
    requires NewestFirst(sorted)
    ensures NewestFirst(r)
    ensures multiset(r) == multiset(sorted) + multiset{m}
    ensures |r| == |sorted| + 1
    ensures r[0] == m || (|sorted| > 0 && r[0] == sorted[0])
  {
    if |sorted| == 0 then [m]
    else if m.createdAt >= sorted[0].createdAt then [m] + sorted
    else
      assert sorted == [sorted[0]] + sorted[1..];
      [sorted[0]] + Insert(m, sorted[1..])
  }

  /**
   * `$sort: { 'message.createdAt': -1 }`. The store's sort is not stable, so
   * the contract fixes the order only up to messages with equal `createdAt`.
   */
  function SortNewestFirst(ms: seq<Message>): (r: seq<Message>)
    ensures NewestFirst(r)
    ensures multiset(r) == multiset(ms)
  {
    if |ms| == 0 then []
    else
      assert ms == [ms[0]] + ms[1..];
      Insert(ms[0], SortNewestFirst(ms[1..]))
  }

  /** `$match: { _id }` then `$unwind: '$message'`: the messages of every matching document. */
  function Unwind(docs: seq<Account>, id: AccountId): (r: seq<Message>)
    ensures forall m :: m in r ==> exists k :: 0 <= k < |docs| && docs[k].id == id && m in docs[k].messages
  {
    if |docs| == 0 then []
    else (if docs[0].id == id then docs[0].messages else []) + Unwind(docs[1..], id)
  }

  /**
   * The aggregation's result documents. Every unwound entry carries the
   * matched `_id`, so `$group` builds one document, unless nothing was unwound.
   */
  function Aggregate(docs: seq<Account>, id: AccountId): (r: seq<seq<Message>>)
    ensures |r| <= 1
    ensures |r| == 0 <==> Unwind(docs, id) == []
    ensures |r| == 1 ==> NewestFirst(r[0]) && multiset(r[0]) == multiset(Unwind(docs, id))
  {
    var unwound := Unwind(docs, id);
    if |unwound| == 0 then [] else [SortNewestFirst(unwound)]
  }

  const NotAuthenticated := Response(401, false, Some(MessageField("messsage", "Not Authenticated")), NoPayload)
  const NoMessages := Reply(404, false, "User has no messages")
  const ListingFailed := Reply(500, false, "Error at getting messages")

  /** The handler. `session` is the signed-in account's id; `storeThrows` stands for the aggregation throwing. */
  function Get(docs: seq<Account>, session: Option<AccountId>, storeThrows: bool): (r: Response)
    ensures session.None? ==> r == NotAuthenticated
    ensures session.Some? && storeThrows ==> r == ListingFailed
    ensures session.Some? && !storeThrows && Unwind(docs, session.value) == [] ==> r == NoMessages
    ensures session.Some? && !storeThrows && Unwind(docs, session.value) != [] ==>
      r.status == 200 && r.success && r.message.None? && r.payload.MessageList? &&
      multiset(r.payload.messages) == multiset(Unwind(docs, session.value)) &&
      NewestFirst(r.payload.messages)
  {
    match session
    case None => NotAuthenticated
    case Some(id) =>
      if storeThrows then ListingFailed
      else
        var document := Aggregate(docs, id);
        if |document| == 0 then NoMessages
        else Response(200, true, None, MessageList(document[0]))
  }

  /** With unique ids, `$match` and `$unwind` yield exactly the owner's stored messages. */
  lemma {:induction false} UnwindIsOwners(docs: seq<Account>, i: nat)
    requires UniqueIds(docs) && i < |docs|
    ensures Unwind(docs, docs[i].id) == docs[i].messages
  {
    if i == 0 {
      UnwindOfAbsent(docs[1..], docs[0].id);
    } else {
      UnwindIsOwners(docs[1..], i - 1);
    }
  }

  /** No document with that id: nothing is unwound. */
  lemma {:induction false} UnwindOfAbsent(docs: seq<Account>, id: AccountId)
    requires forall k :: 0 <= k < |docs| ==> docs[k].id != id
    ensures Unwind(docs, id) == []
  {
    if |docs| > 0 {
      UnwindOfAbsent(docs[1..], id);
    }
  }

  /**
   * The owner's listing: every stored message exactly once, no other
   * account's, with non-increasing `createdAt`.
   */
  lemma OwnerListing(docs: seq<Account>, i: nat)
    requires UniqueIds(docs) && i < |docs| && docs[i].messages != []
    ensures var r := Get(docs, Some(docs[i].id), false);
      r.status == 200 && r.payload.MessageList? &&
      multiset(r.payload.messages) == multiset(docs[i].messages) &&
      |r.payload.messages| == |docs[i].messages| &&
      NewestFirst(r.payload.messages)
  {
    UnwindIsOwners(docs, i);
    var r := Get(docs, Some(docs[i].id), false);
    assert |multiset(r.payload.messages)| == |multiset(docs[i].messages)|;
  }

  /** An owner with no messages gets 404, not an empty list. */
  lemma EmptyListingIsNotFound(docs: seq<Account>, i: nat)
    requires UniqueIds(docs) && i < |docs| && docs[i].messages == []
    ensures Get(docs, Some(docs[i].id), false) == NoMessages
  {
    UnwindIsOwners(docs, i);
  }

  /** A session id that no longer resolves also gets 404. */
  lemma UnknownOwnerIsNotFound(docs: seq<Account>, id: AccountId)
    requires forall k :: 0 <= k < |docs| ==> docs[k].id != id
    ensures Get(docs, Some(id), false) == NoMessages
  {
    UnwindOfAbsent(docs, id);
  }

  /** Sorting a list: insert its head into the sorted rest. */
  lemma SortStep(ms: seq<Message>)
    requires |ms| > 0
    ensures SortNewestFirst(ms) == Insert(ms[0], SortNewestFirst(ms[1..]))
  {
  }

  /** A message older than the head of a list goes behind that head. */
  lemma InsertBehindNewer(m: Message, sorted: seq<Message>)
    requires NewestFirst(sorted) && |sorted| > 0 && m.createdAt < sorted[0].createdAt
    ensures Insert(m, sorted) == [sorted[0]] + Insert(m, sorted[1..])
  {
  }

  /** Messages stored at t1 < t2 < t3 are listed as [t3, t2, t1]. */
  lemma ThreeMessagesNewestFirst(a: Message, b: Message, c: Message)
    requires a.createdAt < b.createdAt < c.createdAt
    ensures SortNewestFirst([a, b, c]) == [c, b, a]
  {
    var sc := SortNewestFirst([c]);
    SortStep([c]);
    assert [c][1..] == [];
    assert sc == [c];
    var sbc := SortNewestFirst([b, c]);
    SortStep([b, c]);
    assert [b, c][1..] == [c];
    InsertBehindNewer(b, [c]);
    assert sbc == [c, b];
    SortStep([a, b, c]);
    assert [a, b, c][1..] == [b, c];
    InsertBehindNewer(a, [c, b]);
    assert [c, b][1..] == [b];
    InsertBehindNewer(a, [b]);
    assert [b][1..] == [];
  }
}
