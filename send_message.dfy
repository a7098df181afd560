/**
 * POST /api/send-message: an anonymous visitor's message for the account
 * named `username`. The document is loaded with `findOne`, refused unless it
 * accepts messages, and otherwise gets one message pushed onto its array and
 * is saved. Neither the session nor `isVerified` is consulted.
 */
module SendMessage {
  import opened Wrappers
  import opened UserModel
  import opened Http

  const UserNotFound := Reply(401, false, "User not found")
  const NotAccepting := Reply(403, false, "User is not accepting messages")
  const Sent := Reply(200, true, "Messsage send successfully")
  const SendFailed := Reply(500, false, "Error at sending message")

  /** The account `findOne({ username })` loads exists and accepts messages. */
  predicate CanReceive(docs: seq<Account>, username: string) {
    var found := FindByUsername(docs, username);
    found.Some? && docs[found.value].isAcceptingMessages
  }

  /**
   * What the handler answers and leaves in the collection. `lookupThrows`
   * stands for `findOne` throwing, `saveThrows` for `save` throwing.
   */
  function Intake(docs: seq<Account>, username: string, content: string, now: int,
                  lookupThrows: bool, saveThrows: bool): (o: Outcome)
    ensures o.response.success <==> !lookupThrows && !saveThrows && CanReceive(docs, username)
    ensures !o.response.success ==> o.docs == docs
    ensures lookupThrows ==> o == Outcome(SendFailed, docs)
    ensures !lookupThrows && CanReceive(docs, username) && saveThrows ==> o == Outcome(SendFailed, docs)
    ensures o.response.success ==>
      o.response == Sent &&
      o.docs == AppendMessage(docs, FindByUsername(docs, username).value, Message(content, now))
  {
    if lookupThrows then Outcome(SendFailed, docs)
    else
      match FindByUsername(docs, username)
      case None => Outcome(UserNotFound, docs)
      case Some(i) =>
        if !docs[i].isAcceptingMessages then Outcome(NotAccepting, docs)
        else if saveThrows then Outcome(SendFailed, docs)
        else Outcome(Sent, AppendMessage(docs, i, Message(content, now)))
  }

  /** The handler, updating the collection in place. */
  method Post(store: UserStore, username: string, content: string, now: int,
              lookupThrows: bool, saveThrows: bool) returns (r: Response)
    requires store.Valid()
    modifies store
    ensures store.Valid()
    ensures r == Intake(old(store.docs), username, content, now, lookupThrows, saveThrows).response
    ensures store.docs == Intake(old(store.docs), username, content, now, lookupThrows, saveThrows).docs
  {
    if lookupThrows {
      return SendFailed;
    }
    var found := FindByUsername(store.docs, username);
    if found.None? {
      return UserNotFound;
    }
    var i := found.value;
    var user := store.docs[i];
    if !user.isAcceptingMessages {
      return NotAccepting;
    }
    // user.message.push(newMessage)
    user := user.(messages := user.messages + [Message(content, now)]);
    if saveThrows {
      return SendFailed;
    }
    // user.save()
    AppendMessagePreservesIds(store.docs, i, Message(content, now));
    store.docs := store.docs[i := user];
    r := Sent;
  }

  /** No account of that name: 401 "User not found", nothing written. */
  lemma UnknownUserRefused(docs: seq<Account>, username: string, content: string, now: int, saveThrows: bool)
    requires forall k :: 0 <= k < |docs| ==> docs[k].username != username
    ensures Intake(docs, username, content, now, false, saveThrows) == Outcome(UserNotFound, docs)
  {
  }

  /** An account that does not accept messages: 403, its messages untouched. */
  lemma NotAcceptingRefused(docs: seq<Account>, i: nat, content: string, now: int, saveThrows: bool)
    requires i < |docs| && FindByUsername(docs, docs[i].username) == Some(i)
    requires !docs[i].isAcceptingMessages
    ensures Intake(docs, docs[i].username, content, now, false, saveThrows) == Outcome(NotAccepting, docs)
  {
  }

  /**
   * A delivery appends exactly one message, stamped `now`, after the earlier
   * ones in their order; every other field and every other account stays.
   */
  lemma DeliveryAppendsOne(docs: seq<Account>, username: string, content: string, now: int)
    requires CanReceive(docs, username)
    ensures var i := FindByUsername(docs, username).value;
      var after := Intake(docs, username, content, now, false, false).docs;
      |after| == |docs| &&
      |after[i].messages| == |docs[i].messages| + 1 &&
      after[i].messages[..|docs[i].messages|] == docs[i].messages &&
      after[i].messages[|docs[i].messages|] == Message(content, now) &&
      after[i].id == docs[i].id && after[i].username == docs[i].username &&
      after[i].isVerified == docs[i].isVerified &&
      after[i].isAcceptingMessages == docs[i].isAcceptingMessages &&
      (forall k :: 0 <= k < |docs| && k != i ==> after[k] == docs[k])
  {
  }

  /** `isVerified` plays no part: an unverified account that accepts still receives. */
  lemma UnverifiedAccountReceives(docs: seq<Account>, i: nat, content: string, now: int)
    requires i < |docs| && FindByUsername(docs, docs[i].username) == Some(i)
    requires !docs[i].isVerified && docs[i].isAcceptingMessages
    ensures Intake(docs, docs[i].username, content, now, false, false).response == Sent
  {
  }

  /** A delivery keeps every username, so the same name finds the same account again. */
  lemma DeliveryKeepsLookup(docs: seq<Account>, i: nat, m: Message, name: string)
    requires i < |docs|
    ensures FindByUsername(AppendMessage(docs, i, m), name) == FindByUsername(docs, name)
  {
    var after := AppendMessage(docs, i, m);
    assert forall k :: 0 <= k < |docs| ==> after[k].username == docs[k].username;
    var f := FindByUsername(docs, name);
    var g := FindByUsername(after, name);
    if f.Some? && g.Some? {
      assert !(f.value < g.value) && !(g.value < f.value);
    }
  }

  /** No deduplication: the same content sent twice adds two messages. */
  lemma NoDeduplication(docs: seq<Account>, username: string, content: string, now1: int, now2: int)
    requires CanReceive(docs, username)
    ensures var i := FindByUsername(docs, username).value;
      var once := Intake(docs, username, content, now1, false, false);
      var twice := Intake(once.docs, username, content, now2, false, false);
      twice.response == Sent &&
      twice.docs[i].messages == docs[i].messages + [Message(content, now1), Message(content, now2)]
  {
  }
}
