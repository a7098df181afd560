/**
 * /api/accept-messages: POST sets the signed-in owner's
 * `isAcceptingMessages` with `findByIdAndUpdate`; GET reads the live flag
 * with `findById`. Both answer 401 without a session.
 */
module AcceptMessages {
  import opened Wrappers
  import opened UserModel
  import opened Http

  const PostNotAuthenticated := Reply(401, false, "Not authenticated")
  const UpdateFailed := Reply(401, false, "Failed to update user status to accept messages")
  const GetNotAuthenticated := Reply(401, false, "Not Authenticated")
  const UserNotFound := Reply(404, false, "User not found")
  const StatusFailed := Reply(500, false, "Error at fetching user status")

  /** The 200 reply of POST, carrying the document as it is after the update. */
  function Updated(user: Account): Response {
    Response(200, true, Some(MessageField("message", "Message acceptance status updated successfully")), UpdatedUser(user))
  }

  /** The session resolves to a stored account. */
  predicate Resolves(docs: seq<Account>, session: Option<AccountId>) {
    session.Some? && FindById(docs, session.value).Some?
  }

  /**
   * What POST answers and leaves in the collection. `storeThrows` stands for
   * `findByIdAndUpdate` throwing before it writes.
   */
  function Toggle(docs: seq<Account>, session: Option<AccountId>, acceptMessages: bool, storeThrows: bool): (o: Outcome)
    ensures o.response.success <==> !storeThrows && Resolves(docs, session)
    ensures session.None? ==> o == Outcome(PostNotAuthenticated, docs)
    ensures session.Some? && !o.response.success ==> o == Outcome(UpdateFailed, docs)
    ensures o.response.success ==>
      var i := FindById(docs, session.value).value;
      o.docs == SetAccepting(docs, i, acceptMessages) &&
      o.docs[i].isAcceptingMessages == acceptMessages &&
      o.response == Updated(o.docs[i])
  {
    match session
    case None => Outcome(PostNotAuthenticated, docs)
    case Some(id) =>
      if storeThrows then Outcome(UpdateFailed, docs)
      else
        match FindById(docs, id)
        case None => Outcome(UpdateFailed, docs)
        case Some(i) =>
          var after := SetAccepting(docs, i, acceptMessages);
          Outcome(Updated(after[i]), after)
  }

  /** POST, updating the collection in place. */
  method Post(store: UserStore, session: Option<AccountId>, acceptMessages: bool, storeThrows: bool) returns (r: Response)
    requires store.Valid()
    modifies store
    ensures store.Valid()
    ensures r == Toggle(old(store.docs), session, acceptMessages, storeThrows).response
    ensures store.docs == Toggle(old(store.docs), session, acceptMessages, storeThrows).docs
  {
    if session.None? {
      return PostNotAuthenticated;
    }
    if storeThrows {
      return UpdateFailed;
    }
    var found := FindById(store.docs, session.value);
    if found.None? {
      return UpdateFailed;
    }
    var i := found.value;
    SetAcceptingPreservesIds(store.docs, i, acceptMessages);
    store.docs := store.docs[i := store.docs[i].(isAcceptingMessages := acceptMessages)];
    r := Updated(store.docs[i]);
  }

  /** GET: the live flag of the signed-in owner. `storeThrows` stands for `findById` throwing. */
  function Get(docs: seq<Account>, session: Option<AccountId>, storeThrows: bool): (r: Response)
    ensures session.None? ==> r == GetNotAuthenticated
    ensures session.Some? && storeThrows ==> r == StatusFailed
    ensures session.Some? && !storeThrows && !Resolves(docs, session) ==> r == UserNotFound
    ensures r.success <==> !storeThrows && Resolves(docs, session)
    ensures r.success ==>
      r.status == 200 && r.message.None? &&
      r.payload == AcceptanceFlag(docs[FindById(docs, session.value).value].isAcceptingMessages)
  {
    match session
    case None => GetNotAuthenticated
    case Some(id) =>
      if storeThrows then StatusFailed
      else
        match FindById(docs, id)
        case None => UserNotFound
        case Some(i) => Response(200, true, None, AcceptanceFlag(docs[i].isAcceptingMessages))
  }

  /** Setting the flag keeps every id, so the same id finds the same account again. */
  lemma SetAcceptingKeepsLookup(docs: seq<Account>, i: nat, v: bool, id: AccountId)
    requires i < |docs|
    ensures FindById(SetAccepting(docs, i, v), id) == FindById(docs, id)
  {
    var after := SetAccepting(docs, i, v);
    assert forall k :: 0 <= k < |docs| ==> after[k].id == docs[k].id;
    var f := FindById(docs, id);
    var g := FindById(after, id);
    if f.Some? && g.Some? {
      assert !(f.value < g.value) && !(g.value < f.value);
    }
  }

  /** A successful POST changes that one field of that one account and nothing else. */
  lemma PostChangesOnlyTheFlag(docs: seq<Account>, id: AccountId, v: bool)
    requires Resolves(docs, Some(id))
    ensures var i := FindById(docs, id).value;
      var after := Toggle(docs, Some(id), v, false).docs;
      |after| == |docs| &&
      after[i] == docs[i].(isAcceptingMessages := v) &&
      (forall k :: 0 <= k < |docs| && k != i ==> after[k] == docs[k])
  {
  }

  /** Setting the same value twice leaves the state of setting it once. */
  lemma PostIdempotent(docs: seq<Account>, session: Option<AccountId>, v: bool)
    ensures var once := Toggle(docs, session, v, false);
      Toggle(once.docs, session, v, false).docs == once.docs
  {
  }

  /** A GET after a successful POST(v) reads v. */
  lemma GetAfterPost(docs: seq<Account>, session: Option<AccountId>, v: bool)
    requires Resolves(docs, session)
    ensures Get(Toggle(docs, session, v, false).docs, session, false) == Response(200, true, None, AcceptanceFlag(v))
  {
  }
}
