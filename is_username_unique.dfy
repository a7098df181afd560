/**
 * GET /api/is-username-unique: validate the `username` query parameter with
 * the sign-up username rule, then look for a verified account holding it.
 * Read-only: the handler is a function of the collection.
 */
module IsUsernameUnique {
  import opened Wrappers
  import opened UserModel
  import opened Http
  import opened SignUpSchema

  /** `Array.prototype.join`. */
  function Join(parts: seq<string>, sep: string): (r: string)
    ensures |parts| == 1 ==> r == parts[0]
    ensures |parts| > 0 ==> |r| >= |parts[0]| && r[..|parts[0]|] == parts[0]
  {
    if |parts| == 0 then ""
    else if |parts| == 1 then parts[0]
    else parts[0] + sep + Join(parts[1..], sep)
  }

  function IssueMessages(issues: seq<Issue>): (r: seq<string>)
    ensures |r| == |issues|
    ensures forall k :: 0 <= k < |r| ==> r[k] == IssueMessage(issues[k])
  {
    if |issues| == 0 then [] else [IssueMessage(issues[0])] + IssueMessages(issues[1..])
  }

  const FallbackMessage := "Invalid query parameters"

  /** The username errors joined with ", ", or the fallback text when there are none. */
  function ValidationMessage(issues: seq<Issue>): (r: string)
    ensures issues == [] ==> r == FallbackMessage
    ensures |issues| == 1 ==> r == IssueMessage(issues[0])
    ensures |issues| > 0 ==> |r| >= |IssueMessage(issues[0])| && r[..|IssueMessage(issues[0])|] == IssueMessage(issues[0])
  {
    if |issues| > 0 then Join(IssueMessages(issues), ", ") else FallbackMessage
  }

  /** A verified account holds the name. */
  predicate TakenByVerified(docs: seq<Account>, name: string) {
    exists k :: 0 <= k < |docs| && docs[k].username == name && docs[k].isVerified
  }

  /**
   * The handler. `storeThrows` stands for the `findOne` query throwing.
   * The status is 400 whenever the store answers, on the "unique" reply too.
   */
  function Get(docs: seq<Account>, username: Option<string>, storeThrows: bool): (r: Response)
    ensures r.payload == NoPayload
    ensures UsernameIssues(username) != [] ==>
      r == Reply(400, false, ValidationMessage(UsernameIssues(username)))
    ensures UsernameIssues(username) == [] && storeThrows ==>
      r == Reply(500, false, "Error checking username")
    ensures UsernameIssues(username) == [] && !storeThrows ==>
      r.status == 400 &&
      (r.success <==> !TakenByVerified(docs, username.value)) &&
      r.message == Some(MessageField("message", if r.success then "Username is unique" else "Username is already taken"))
  {
    var issues := UsernameIssues(username);
    if issues != [] then
      Reply(400, false, ValidationMessage(issues))
    else if storeThrows then
      Reply(500, false, "Error checking username")
    else if FindVerifiedByUsername(docs, username.value).Some? then
      Reply(400, false, "Username is already taken")
    else
      Reply(400, true, "Username is unique")
  }

  /** A name that fails validation never reaches the store: the reply does not depend on it. */
  lemma InvalidNameNeverReachesStore(docs1: seq<Account>, docs2: seq<Account>, username: Option<string>, throws1: bool, throws2: bool)
    requires UsernameIssues(username) != []
    ensures Get(docs1, username, throws1) == Get(docs2, username, throws2)
    ensures !Get(docs1, username, throws1).success && Get(docs1, username, throws1).status == 400
  {
  }

  /** No issue text agrees with the fallback text at index 8. */
  lemma IssueTextDiffersFromFallback(i: Issue)
    ensures |IssueMessage(i)| > 8 && IssueMessage(i)[8] != FallbackMessage[8]
  {
    assert FallbackMessage[8] == 'q';
    match i
    case InvalidType =>
    case TooShort =>
    case TooLong =>
    case BadPattern =>
    case PasswordTooShort =>
    case InvalidEmail =>
  }

  /** Validation never fails without an issue, so the fallback text is never sent. */
  lemma FallbackNeverSent(docs: seq<Account>, username: Option<string>, storeThrows: bool)
    ensures Get(docs, username, storeThrows).message != Some(MessageField("message", FallbackMessage))
  {
    var issues := UsernameIssues(username);
    if issues != [] {
      var m := Join(IssueMessages(issues), ", ");
      var first := IssueMessage(issues[0]);
      IssueTextDiffersFromFallback(issues[0]);
      assert m[..|first|] == first;
      assert m[8] != FallbackMessage[8];
    }
  }

  /** A missing `username` parameter fails validation with zod's type message. */
  lemma MissingParamRejected(docs: seq<Account>, storeThrows: bool)
    ensures Get(docs, None, storeThrows) == Reply(400, false, "Invalid input: expected string, received null")
  {
  }

  /** The empty name collects two issues, joined with ", ". */
  lemma EmptyNameMessage(docs: seq<Account>, storeThrows: bool)
    ensures Get(docs, Some(""), storeThrows) ==
      Reply(400, false, "Username must be at least 2 characters" + ", " + "Username must not contain special characters")
  {
    assert FirstLineLength("") == 0;
    assert !RegexTest("");
    assert UsernameIssues(Some("")) == [TooShort, BadPattern];
    var parts := IssueMessages([TooShort, BadPattern]);
    assert parts == ["Username must be at least 2 characters", "Username must not contain special characters"];
    assert Join(parts, ", ") == parts[0] + ", " + parts[1];
  }

  /** Abandoned, unverified sign-ups do not keep a valid name from being reported free. */
  lemma UnverifiedHolderDoesNotBlock(docs: seq<Account>, name: string)
    requires IsValidUsername(name)
    requires forall k :: 0 <= k < |docs| && docs[k].username == name ==> !docs[k].isVerified
    ensures Get(docs, Some(name), false) == Reply(400, true, "Username is unique")
  {
  }

  /** A verified holder makes the name taken. */
  lemma VerifiedHolderBlocks(docs: seq<Account>, k: nat)
    requires k < |docs| && docs[k].isVerified && IsValidUsername(docs[k].username)
    ensures Get(docs, Some(docs[k].username), false) == Reply(400, false, "Username is already taken")
  {
  }

  /** A special character in single-line input fails the format check. */
  lemma SpecialCharacterRejected(docs: seq<Account>)
    ensures Get(docs, Some("a!b"), false) ==
      Reply(400, false, "Username must not contain special characters")
  {
    SpecialCharacterFailsPattern();
    assert ValidationMessage([BadPattern]) == IssueMessage(BadPattern);
  }
}
