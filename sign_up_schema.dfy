/**
 * The sign-up form schema: the username rule shared with the availability
 * check (a string of 2 to 20 characters that also passes a regular
 * expression), and the password length rule.
 *
 * The username regular expression carries the flags `i`, `g` and `m`.
 * Under `m`, `^` matches at the start of the input or after a line
 * terminator and `$` at the end of the input or before one, and `.` never
 * crosses a line terminator, so the expression accepts an input exactly when
 * one of its lines matches the line pattern `LineMatches`. `i` does not
 * change `\w` (no `u` flag); `g` is left out of the model.
 */
module SignUpSchema {
  import opened Wrappers

  /** One zod issue, in the order the checks are declared. */
  datatype Issue =
    | InvalidType      // the value is not a string (a missing query parameter is `null`)
    | TooShort         // `.min(2, …)`
    | TooLong          // `.max(20, …)`
    | BadPattern       // `.regex(…)`
    | PasswordTooShort // `.min(6, …)` on the password
    | InvalidEmail     // `z.email(…)`

  /**
   * The order in which issues are reported: the username checks in the order
   * of the chain `z.string().min(2).max(20).regex(…)` (ranks 0 to 3), then the
   * password and e-mail issues, which never occur in a username's list.
   */
  function Rank(i: Issue): nat {
    match i
    case InvalidType => 0
    case TooShort => 1
    case TooLong => 2
    case BadPattern => 3
    case PasswordTooShort => 4
    case InvalidEmail => 5
  }

  function IssueMessage(i: Issue): string {
    match i
    case InvalidType => "Invalid input: expected string, received null"
    case TooShort => "Username must be at least 2 characters"
    case TooLong => "Username must be at least 20 characters"
    case BadPattern => "Username must not contain special characters"
    case PasswordTooShort => "Password must be at least 6 characters"
    case InvalidEmail => "Invalid email address"
  }

  const MinUsernameLength := 2
  const MaxUsernameLength := 20
  /** The `{0,29}` repetition after the first character. */
  const MaxTailLength := 29
  const MinPasswordLength := 6

  /** `\w`: `[A-Za-z0-9_]`. */
  predicate IsWordChar(c: char) {
    ('a' <= c <= 'z') || ('A' <= c <= 'Z') || ('0' <= c <= '9') || c == '_'
  }

  /** The characters that end a line for `^`, `$` and `.`. */
  predicate IsLineTerminator(c: char) {
    c == '\n' || c == '\r' || c == '\U{2028}' || c == '\U{2029}'
  }

  predicate NoLineBreak(s: string) {
    forall k :: 0 <= k < |s| ==> !IsLineTerminator(s[k])
  }

  /** The negative lookahead `(?!.*\.\.)`. */
  predicate NoDoubleDot(l: string) {
    forall k :: 0 <= k < |l| - 1 ==> !(l[k] == '.' && l[k + 1] == '.')
  }

  /** The negative lookahead `(?!.*\.$)`. */
  predicate NoTrailingDot(l: string) {
    |l| == 0 || l[|l| - 1] != '.'
  }

  /** The character rule without the `{0,29}` cap: a word character, then word characters or dots. */
  predicate CharRule(l: string) {
    |l| >= 1 && IsWordChar(l[0]) &&
    (forall k :: 1 <= k < |l| ==> IsWordChar(l[k]) || l[k] == '.') &&
    NoDoubleDot(l) && NoTrailingDot(l)
  }

  /** `^(?!.*\.\.)(?!.*\.$)[^\W][\w.]{0,29}$` against one whole line: at most 30 characters, none a line break. */
  predicate LineMatches(l: string): (b: bool)
    ensures b ==> 1 <= |l| <= 1 + MaxTailLength && NoLineBreak(l) && IsWordChar(l[0]) && l[|l| - 1] != '.'
  {
    CharRule(l) && |l| - 1 <= MaxTailLength
  }

  /** Length of the first line of `s`: the index of the first line terminator, or `|s|`. */
  function FirstLineLength(s: string): (k: nat)
    ensures k <= |s|
    ensures forall j :: 0 <= j < k ==> !IsLineTerminator(s[j])
    ensures k < |s| ==> IsLineTerminator(s[k])
  {
    if |s| == 0 || IsLineTerminator(s[0]) then 0 else 1 + FirstLineLength(s[1..])
  }

  /**
   * The regular expression's `test`: the first line matches, or the rest of
   * the input does. A whole input that matches is accepted.
   */
  function RegexTest(s: string): (b: bool)
    ensures LineMatches(s) ==> b
    decreases |s|
  {
    var k := FirstLineLength(s);
    LineMatches(s[..k]) || (k < |s| && RegexTest(s[k + 1..]))
  }

  /** A match of the pattern from `^` at index `i` to `$` at index `j`. */
  ghost predicate MatchesAt(s: string, i: int, j: int) {
    0 <= i <= j <= |s| &&
    (i == 0 || IsLineTerminator(s[i - 1])) &&
    (j == |s| || IsLineTerminator(s[j])) &&
    NoLineBreak(s[i..j]) &&
    LineMatches(s[i..j])
  }

  /** A match in the input after the first line terminator is a match in the whole input, and back. */
  lemma ShiftMatch(s: string, k: nat, i: nat, j: nat)
    requires k < |s| && IsLineTerminator(s[k])
    ensures MatchesAt(s[k + 1..], i, j) <==> MatchesAt(s, k + 1 + i, k + 1 + j)
  {
    var t := s[k + 1..];
    if i <= j <= |t| {
      assert t[i..j] == s[k + 1 + i..k + 1 + j];
      if i > 0 {
        assert t[i - 1] == s[k + i];
      }
      if j < |t| {
        assert t[j] == s[k + 1 + j];
      }
    }
  }

  /** A match that starts at the beginning of the input ends where the first line ends. */
  lemma MatchAtStartIsFirstLine(s: string, j: int)
    requires MatchesAt(s, 0, j)
    ensures j == FirstLineLength(s)
  {
  }

  /** Any other match starts after the first line terminator. */
  lemma MatchElsewhereIsAfterFirstLine(s: string, i: int, j: int)
    requires MatchesAt(s, i, j) && i > 0
    ensures FirstLineLength(s) < i
  {
  }

  /** Every line that matches makes `RegexTest` accept. */
  lemma {:induction false} RegexTestComplete(s: string, i: int, j: int)
    requires MatchesAt(s, i, j)
    ensures RegexTest(s)
    decreases |s|
  {
    var k := FirstLineLength(s);
    if i == 0 {
      MatchAtStartIsFirstLine(s, j);
    } else {
      MatchElsewhereIsAfterFirstLine(s, i, j);
      ShiftMatch(s, k, i - k - 1, j - k - 1);
      RegexTestComplete(s[k + 1..], i - k - 1, j - k - 1);
    }
  }

  /** When the first line matches, the pattern matches from the start to the first line's end. */
  lemma FirstLineMatch(s: string)
    requires LineMatches(s[..FirstLineLength(s)])
    ensures MatchesAt(s, 0, FirstLineLength(s))
  {
  }

  /** `RegexTest` accepts only when some line matches. */
  lemma {:induction false} RegexTestSound(s: string) returns (i: nat, j: nat)
    requires RegexTest(s)
    ensures MatchesAt(s, i, j)
    decreases |s|
  {
    var k := FirstLineLength(s);
    if LineMatches(s[..k]) {
      FirstLineMatch(s);
      i, j := 0, k;
    } else {
      var t := s[k + 1..];
      assert k < |s| && RegexTest(t);
      var i', j' := RegexTestSound(t);
      ShiftMatch(s, k, i', j');
      i, j := k + 1 + i', k + 1 + j';
    }
  }

  /** `RegexTest` accepts exactly when the pattern matches between some line start and line end. */
  lemma RegexTestIsSomeLine(s: string)
    ensures RegexTest(s) <==> exists i, j :: MatchesAt(s, i, j)
  {
    if RegexTest(s) {
      var i, j := RegexTestSound(s);
    }
    if exists i, j :: MatchesAt(s, i, j) {
      var i, j :| MatchesAt(s, i, j);
      RegexTestComplete(s, i, j);
    }
  }

  /**
   * An accepted input holds a word character: that is all the `m` flag lets
   * the rule promise about the input as a whole.
   */
  lemma AcceptedHasWordChar(s: string) returns (i: nat)
    requires RegexTest(s)
    ensures i < |s| && IsWordChar(s[i])
  {
    var j;
    i, j := RegexTestSound(s);
    assert s[i..j][0] == s[i];
  }

  /** On input without line breaks the regular expression tests the whole input as one line. */
  lemma SingleLineRegex(s: string)
    requires NoLineBreak(s)
    ensures RegexTest(s) <==> LineMatches(s)
  {
  }

  /** The issues `usernameValidation.safeParse` reports, in check order; zod runs every string check. */
  function UsernameIssues(param: Option<string>): (r: seq<Issue>)
    ensures param.None? ==> r == [InvalidType]
    ensures param.Some? ==> InvalidType !in r
    ensures param.Some? ==> (TooShort in r <==> |param.value| < MinUsernameLength)
    ensures param.Some? ==> (TooLong in r <==> |param.value| > MaxUsernameLength)
    ensures param.Some? ==> (BadPattern in r <==> !RegexTest(param.value))
    ensures forall j, k :: 0 <= j < k < |r| ==> Rank(r[j]) < Rank(r[k])
    ensures forall k :: 0 <= k < |r| ==> Rank(r[k]) <= Rank(BadPattern)
  {
    match param
    case None => [InvalidType]
    case Some(s) =>
      (if |s| < MinUsernameLength then [TooShort] else []) +
      (if |s| > MaxUsernameLength then [TooLong] else []) +
      (if RegexTest(s) then [] else [BadPattern])
  }

  predicate IsValidUsername(s: string) {
    UsernameIssues(Some(s)) == []
  }

  /** A username of fewer than 2 characters is refused with the "at least 2" text. */
  lemma ShortUsernameRejected(s: string)
    requires |s| < MinUsernameLength
    ensures !IsValidUsername(s)
    ensures UsernameIssues(Some(s))[0] == TooShort
    ensures IssueMessage(UsernameIssues(Some(s))[0]) == "Username must be at least 2 characters"
  {
  }

  /** Over 20 characters is refused; the check is an upper bound despite its text. */
  lemma LongUsernameRejected(s: string)
    requires |s| > MaxUsernameLength
    ensures !IsValidUsername(s)
    ensures UsernameIssues(Some(s))[0] == TooLong
    ensures IssueMessage(UsernameIssues(Some(s))[0]) == "Username must be at least 20 characters"
  {
  }

  /** A missing `username` query parameter fails with the type issue alone. */
  lemma MissingUsernameRejected()
    ensures UsernameIssues(None) == [InvalidType]
  {
  }

  /** Once the length checks pass, the `{0,29}` cap can no longer refuse anything. */
  lemma {:induction false} TailCapNeverBinds(s: string)
    requires |s| <= MaxUsernameLength
    ensures LineMatches(s) <==> CharRule(s)
  {
  }

  /**
   * On single-line input the username rule is exactly: 2 to 20 characters,
   * a word character first, then word characters or dots, no `..`, no trailing dot.
   */
  lemma SingleLineUsername(s: string)
    requires NoLineBreak(s)
    ensures IsValidUsername(s) <==> MinUsernameLength <= |s| <= MaxUsernameLength && CharRule(s)
  {
    SingleLineRegex(s);
    if |s| <= MaxUsernameLength {
      TailCapNeverBinds(s);
    }
  }

  /** Any 2 to 20 word characters pass every username check. */
  lemma WordCharsAccepted(s: string)
    requires MinUsernameLength <= |s| <= MaxUsernameLength
    requires forall k :: 0 <= k < |s| ==> IsWordChar(s[k])
    ensures IsValidUsername(s)
  {
  }

  /**
   * Because of the `m` flag one matching line suffices: "ab\n!!" passes
   * although its second line holds characters the rule means to forbid.
   */
  lemma MultilineInputAccepted()
    ensures IsValidUsername("ab\n!!")
    ensures !IsWordChar("ab\n!!"[3])
  {
    var s := "ab\n!!";
    assert FirstLineLength(s[2..]) == 0;
    assert FirstLineLength(s[1..]) == 1;
    assert FirstLineLength(s) == 2;
    assert s[..2] == "ab";
    assert LineMatches("ab");
  }

  /** A special character on a single line fails the pattern alone. */
  lemma SpecialCharacterFailsPattern()
    ensures UsernameIssues(Some("a!b")) == [BadPattern]
  {
    var s := "a!b";
    assert NoLineBreak(s) by {
      assert s[0] == 'a' && s[1] == '!' && s[2] == 'b';
    }
    SingleLineRegex(s);
    assert !IsWordChar(s[1]) && s[1] != '.';
    assert !LineMatches(s);
  }

  /** The issues `signUpSchema` reports for the password field. */
  function PasswordIssues(password: string): (r: seq<Issue>)
    ensures r == [] <==> |password| >= MinPasswordLength
    ensures r != [] ==> r == [PasswordTooShort]
  {
    if |password| < MinPasswordLength then [PasswordTooShort] else []
  }

  datatype Field = Username | Email | Password

  datatype FieldIssue = FieldIssue(field: Field, issue: Issue)

  function Tag(f: Field, issues: seq<Issue>): (r: seq<FieldIssue>)
    ensures |r| == |issues|
    ensures forall k :: 0 <= k < |r| ==> r[k] == FieldIssue(f, issues[k])
  {
    if |issues| == 0 then [] else [FieldIssue(f, issues[0])] + Tag(f, issues[1..])
  }

  /**
   * `signUpSchema.safeParse` on a form: the issues of every field, field by
   * field. Whether the address is a valid e-mail is decided by the zod
   * library and arrives here as `emailIsValid`.
   */
  function SignUpIssues(username: string, emailIsValid: bool, password: string): (r: seq<FieldIssue>)
    ensures r == [] <==> IsValidUsername(username) && emailIsValid && |password| >= MinPasswordLength
  {
    Tag(Username, UsernameIssues(Some(username))) +
    Tag(Email, if emailIsValid then [] else [InvalidEmail]) +
    Tag(Password, PasswordIssues(password))
  }
}
