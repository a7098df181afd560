/**
 * The user collection as the route handlers see it: account documents in the
 * collection's natural order, each with its embedded `message` array.
 * Only the fields the handlers read or write are kept.
 */
module UserModel {
  import opened Wrappers

  /** A document `_id`. */
  type AccountId = nat

  /** One entry of an account's `message` array. */
  datatype Message = Message(content: string, createdAt: int)

  datatype Account = Account(
    id: AccountId,
    username: string,
    isVerified: bool,
    isAcceptingMessages: bool,
    messages: seq<Message>)

  /** Index of the first element that satisfies `p`: what `findOne` and `findById` return. */
  function FirstWhere<T>(s: seq<T>, p: T -> bool): (r: Option<nat>)
    ensures r.Some? ==> r.value < |s| && p(s[r.value])
    ensures r.Some? ==> forall k :: 0 <= k < r.value ==> !p(s[k])
    ensures r.None? ==> forall k :: 0 <= k < |s| ==> !p(s[k])
  {
    if |s| == 0 then None
    else if p(s[0]) then Some(0)
    else
      match FirstWhere(s[1..], p)
      case None => None
      case Some(k) => Some(k + 1)
  }

  /**
   * The elements that satisfy `p`, in their original order: what `find`
   * returns. The contract and `WhereAppend` together fix the result: the empty
   * and one-element cases below, and a filter of a concatenation is the
   * concatenation of the filters.
   */
  function Where<T>(s: seq<T>, p: T -> bool): (r: seq<T>)
    ensures |r| <= |s|
    ensures forall k :: 0 <= k < |r| ==> p(r[k]) && r[k] in s
    ensures forall x :: x in s && p(x) ==> x in r
    ensures |s| == 0 ==> r == []
    ensures |s| == 1 ==> (r == s <==> p(s[0])) && (r == [] <==> !p(s[0]))
  {
    if |s| == 0 then []
    else if p(s[0]) then [s[0]] + Where(s[1..], p)
    else Where(s[1..], p)
  }

  /** Filtering distributes over concatenation: order and multiplicity are kept. */
  lemma {:induction false} WhereAppend<T>(s: seq<T>, t: seq<T>, p: T -> bool)
    ensures Where(s + t, p) == Where(s, p) + Where(t, p)
    decreases |s|
  {
    if |s| == 0 {
      assert s + t == t;
    } else {
      assert (s + t)[0] == s[0] && (s + t)[1..] == s[1..] + t;
      WhereAppend(s[1..], t, p);
      if p(s[0]) {
        assert Where(s + t, p) == [s[0]] + (Where(s[1..], p) + Where(t, p));
      }
    }
  }

  /** `findOne({ username })`: the first document holding the name, if any. */
  function FindByUsername(docs: seq<Account>, name: string): (r: Option<nat>)
    ensures r.Some? ==> r.value < |docs| && docs[r.value].username == name
    ensures r.Some? ==> forall k :: 0 <= k < r.value ==> docs[k].username != name
    ensures r.None? <==> forall k :: 0 <= k < |docs| ==> docs[k].username != name
  {
    FirstWhere(docs, (d: Account) => d.username == name)
  }

  /** `findById(id)`: the first document with that id, if any. */
  function FindById(docs: seq<Account>, id: AccountId): (r: Option<nat>)
    ensures r.Some? ==> r.value < |docs| && docs[r.value].id == id
    ensures r.Some? ==> forall k :: 0 <= k < r.value ==> docs[k].id != id
    ensures r.None? <==> forall k :: 0 <= k < |docs| ==> docs[k].id != id
  {
    FirstWhere(docs, (d: Account) => d.id == id)
  }

  /** `findOne({ username, isVerified: true })`: the first verified holder of the name, if any. */
  function FindVerifiedByUsername(docs: seq<Account>, name: string): (r: Option<nat>)
    ensures r.Some? ==> r.value < |docs| && docs[r.value].username == name && docs[r.value].isVerified
    ensures r.None? <==> forall k :: 0 <= k < |docs| ==> !(docs[k].username == name && docs[k].isVerified)
  {
    FirstWhere(docs, (d: Account) => d.username == name && d.isVerified)
  }

  /** Distinct `_id`s: the invariant the document store keeps. */
  ghost predicate UniqueIds(docs: seq<Account>) {
    forall j, k :: 0 <= j < k < |docs| ==> docs[j].id != docs[k].id
  }

  /** The collection after `push(m)` onto the `message` array of document `i` and `save()`. */
  function AppendMessage(docs: seq<Account>, i: nat, m: Message): (r: seq<Account>)
    requires i < |docs|
    ensures |r| == |docs|
    ensures forall k :: 0 <= k < |docs| && k != i ==> r[k] == docs[k]
    ensures r[i].messages == docs[i].messages + [m]
    ensures r[i].(messages := docs[i].messages) == docs[i]
  {
    docs[i := docs[i].(messages := docs[i].messages + [m])]
  }

  /** The collection after `findByIdAndUpdate` sets `isAcceptingMessages` of document `i`. */
  function SetAccepting(docs: seq<Account>, i: nat, v: bool): (r: seq<Account>)
    requires i < |docs|
    ensures |r| == |docs|
    ensures forall k :: 0 <= k < |docs| && k != i ==> r[k] == docs[k]
    ensures r[i].isAcceptingMessages == v
    ensures r[i].(isAcceptingMessages := docs[i].isAcceptingMessages) == docs[i]
  {
    docs[i := docs[i].(isAcceptingMessages := v)]
  }

  /** Appending leaves ids, and with them the store invariant, intact. */
  lemma AppendMessagePreservesIds(docs: seq<Account>, i: nat, m: Message)
    requires i < |docs| && UniqueIds(docs)
    ensures UniqueIds(AppendMessage(docs, i, m))
  {
  }

  lemma SetAcceptingPreservesIds(docs: seq<Account>, i: nat, v: bool)
    requires i < |docs| && UniqueIds(docs)
    ensures UniqueIds(SetAccepting(docs, i, v))
  {
  }

  /** Under unique ids, `findById` answers with the one document carrying that id. */
  lemma FindByIdUnique(docs: seq<Account>, i: nat)
    requires UniqueIds(docs) && i < |docs|
    ensures FindById(docs, docs[i].id) == Some(i)
  {
  }

  /** The user collection, updated in place by the writing handlers. */
  class UserStore {
    var docs: seq<Account>

    ghost predicate Valid()
      reads this
    {
      UniqueIds(docs)
    }

    constructor (initial: seq<Account>)
      requires UniqueIds(initial)
      ensures Valid() && docs == initial
    {
      docs := initial;
    }
  }
}
