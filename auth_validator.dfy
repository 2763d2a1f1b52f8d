/**
 * The sign-up and log-in schemas and the strong-password rule.
 *
 * The rule is the regular expression
 *   ^(?=.*[A-Za-z])(?=.*\d)(?=.*[<specials>]).{8,}$
 * with no flags: `.` matches any character but a line terminator and `$`
 * only matches at the very end. The e-mail check of the schema library is
 * the parameter `isEmail`.
 */
module AuthValidator {
  import opened Wrappers
  import opened ValidateInputs
  import opened JsStrings

  predicate IsLetter(c: char)
  {
    'A' <= c <= 'Z' || 'a' <= c <= 'z'
  }

  /** `\d`: the ASCII digits only. */
  predicate IsDigit(c: char)
  {
    '0' <= c <= '9'
  }

  /** The bracket class of the rule: `!@#$%^&*()_+-=[]{};':"\|,.<>/?`. */
  const SpecialChars: set<char> := {
    '!', '@', '#', '$', '%', '^', '&', '*', '(', ')', '_', '+', '-', '=', '[', ']',
    '{', '}', ';', '\'', ':', '"', '\\', '|', ',', '.', '<', '>', '/', '?'
  }

  predicate IsSpecial(c: char)
  {
    c in SpecialChars
  }

  /** The three classes the lookaheads ask for. */
  datatype CharClass = Letters | Digits | Specials

  predicate InClass(c: char, k: CharClass)
  {
    match k
    case Letters => IsLetter(c)
    case Digits => IsDigit(c)
    case Specials => IsSpecial(c)
  }

  /** `.` matches every character of `s`. */
  predicate AllDots(s: string)
  {
    forall i :: 0 <= i < |s| ==> !IsLineTerminator(s[i])
  }

  /** `(?=.*[k])` at the start of `s`: a character of class `k` is reached through `.` alone. */
  predicate LookaheadFinds(s: string, k: CharClass)
  {
    exists i :: 0 <= i < |s| && InClass(s[i], k) && AllDots(s[..i])
  }

  /** `passwordRule.test(s)`. */
  predicate PasswordRule(s: string)
  {
    && LookaheadFinds(s, Letters)
    && LookaheadFinds(s, Digits)
    && LookaheadFinds(s, Specials)
    && |s| >= 8 && AllDots(s)
  }

  predicate Contains(s: string, k: CharClass)
  {
    exists i :: 0 <= i < |s| && InClass(s[i], k)
  }

  /**
   * The rule in plain terms: at least 8 characters, no line terminator, and
   * at least one ASCII letter, one digit and one listed special character.
   */
  lemma PasswordRuleMeaning(s: string)
    ensures PasswordRule(s) <==>
      |s| >= 8 && AllDots(s) && Contains(s, Letters) && Contains(s, Digits) && Contains(s, Specials)
  {
    if |s| >= 8 && AllDots(s) {
      forall k: CharClass | Contains(s, k) ensures LookaheadFinds(s, k) {
        var i :| 0 <= i < |s| && InClass(s[i], k);
        assert AllDots(s[..i]);
      }
    }
  }

  /** The rule alone already demands 8 characters. */
  lemma RuleImpliesMinLength(s: string)
    requires PasswordRule(s)
    ensures |s| >= 8
  {
  }

  /** Letters and digits alone never satisfy the rule, however long. */
  lemma AlphanumericRejected(s: string)
    requires forall i :: 0 <= i < |s| ==> IsLetter(s[i]) || IsDigit(s[i])
    ensures !PasswordRule(s)
  {
  }

  /** A line terminator anywhere defeats the rule. */
  lemma LineTerminatorRejected(s: string, k: nat)
    requires k < |s| && IsLineTerminator(s[k])
    ensures !PasswordRule(s)
  {
  }

  /** "abcdef1!" satisfies the rule. */
  lemma ExampleStrongPassword()
    ensures PasswordRule("abcdef1!")
  {
    var s := "abcdef1!";
    assert InClass(s[0], Letters) && AllDots(s[..0]);
    assert InClass(s[6], Digits) && AllDots(s[..6]);
    assert InClass(s[7], Specials) && AllDots(s[..7]);
  }

  const Required: string := "Required"
  const NameTooShort: string := "Name must be at least 2 characters"
  const InvalidEmail: string := "Invalid email format"
  const PasswordTooShort: string := "Password must be at least 8 characters"
  const PasswordTooWeak: string := "Password Must Contain A Letter, Number, and Special Character"
  const PasswordRequired: string := "Password is required"

  /** A body field is None when it is missing. */
  datatype SignUpBody = SignUpBody(name: Option<string>, email: Option<string>, password: Option<string>)
  datatype LogInBody = LogInBody(email: Option<string>, password: Option<string>)

  /** The issues of one field, all at path `[field]`. */
  function FieldIssues(field: string, messages: seq<string>): seq<Issue>
  {
    seq(|messages|, i requires 0 <= i < |messages| => Issue([Key(field)], messages[i]))
  }

  /** The failed checks of one string field: "Required" when missing, else every failing check in order. */
  function StringMessages(value: Option<string>, failed: string -> seq<string>): seq<string>
  {
    if value.None? then [Required] else failed(value.value)
  }

  function NameFailures(name: string): seq<string>
  {
    if |name| < 2 then [NameTooShort] else []
  }

  function EmailFailures(email: string, isEmail: string -> bool): seq<string>
  {
    if isEmail(email) then [] else [InvalidEmail]
  }

  /** `.min(8, …)` then `.regex(passwordRule, …)`; both run, so both can fail. */
  function SignUpPasswordFailures(password: string): (r: seq<string>)
    ensures r == [] <==> PasswordRule(password)
    ensures PasswordTooShort in r <==> |password| < 8
    ensures PasswordTooWeak in r <==> !PasswordRule(password)
  {
    (if |password| < 8 then [PasswordTooShort] else [])
    + (if PasswordRule(password) then [] else [PasswordTooWeak])
  }

  /** The failed checks of the `email` field, shared by both schemas. */
  function EmailMessages(email: Option<string>, isEmail: string -> bool): seq<string>
  {
    StringMessages(email, e => EmailFailures(e, isEmail))
  }

  function LogInPasswordFailures(password: string): seq<string>
  {
    if |password| < 1 then [PasswordRequired] else []
  }

  /** The issues of `signUpSchema`, in field order name, email, password. */
  function SignUpIssues(body: SignUpBody, isEmail: string -> bool): (r: seq<Issue>)
    ensures forall i :: 0 <= i < |r| ==> r[i].path in {[Key("name")], [Key("email")], [Key("password")]}
  {
    FieldIssues("name", StringMessages(body.name, NameFailures))
    + FieldIssues("email", EmailMessages(body.email, isEmail))
    + FieldIssues("password", StringMessages(body.password, SignUpPasswordFailures))
  }

  function LogInIssues(body: LogInBody, isEmail: string -> bool): (r: seq<Issue>)
    ensures forall i :: 0 <= i < |r| ==> r[i].path in {[Key("email")], [Key("password")]}
  {
    FieldIssues("email", EmailMessages(body.email, isEmail))
    + FieldIssues("password", StringMessages(body.password, LogInPasswordFailures))
  }

  /** `signUpSchema.parse`: the body when there is no issue, otherwise a validation error. */
  function SignUpSchema(isEmail: string -> bool): SignUpBody -> ParseOutcome<SignUpBody>
  {
    body => var issues := SignUpIssues(body, isEmail); if issues == [] then Parsed(body) else ZodError(issues)
  }

  function LogInSchema(isEmail: string -> bool): LogInBody -> ParseOutcome<LogInBody>
  {
    body => var issues := LogInIssues(body, isEmail); if issues == [] then Parsed(body) else ZodError(issues)
  }

  /** A sign-up body passes exactly when the name has 2+ characters, the e-mail is valid and the password follows the rule. */
  lemma SignUpAcceptance(body: SignUpBody, isEmail: string -> bool)
    ensures SignUpIssues(body, isEmail) == [] <==>
      && body.name.Some? && |body.name.value| >= 2
      && body.email.Some? && isEmail(body.email.value)
      && body.password.Some? && PasswordRule(body.password.value)
    ensures Validate(SignUpSchema(isEmail), body).Next? <==> SignUpIssues(body, isEmail) == []
  {
    var n := StringMessages(body.name, NameFailures);
    var e := EmailMessages(body.email, isEmail);
    var p := StringMessages(body.password, SignUpPasswordFailures);
    assert |SignUpIssues(body, isEmail)| == |n| + |e| + |p|;
  }

  /**
   * The `.min(8)` check never rejects a password the rule accepts; a shorter
   * password always fails both checks, the length message first.
   */
  lemma MinLengthRedundant(password: string)
    ensures PasswordRule(password) ==> SignUpPasswordFailures(password) == []
    ensures |password| < 8 ==> SignUpPasswordFailures(password) == [PasswordTooShort, PasswordTooWeak]
  {
  }

  /** Log-in accepts any non-empty password, with no complexity check. */
  lemma LogInAcceptance(body: LogInBody, isEmail: string -> bool)
    ensures LogInIssues(body, isEmail) == [] <==>
      && body.email.Some? && isEmail(body.email.value)
      && body.password.Some? && body.password.value != ""
    ensures Validate(LogInSchema(isEmail), body).Next? <==> LogInIssues(body, isEmail) == []
  {
    var e := EmailMessages(body.email, isEmail);
    var p := StringMessages(body.password, LogInPasswordFailures);
    assert |LogInIssues(body, isEmail)| == |e| + |p|;
  }

  /** The entries of a field's issues standing at `offset` in the issue list name that field and carry its messages. */
  lemma FieldEntries(field: string, messages: seq<string>, issues: seq<Issue>, offset: nat)
    requires offset + |messages| <= |issues|
    requires issues[offset..offset + |messages|] == FieldIssues(field, messages)
    ensures forall i :: 0 <= i < |messages| ==> ToEntries(issues)[offset + i] == ErrorEntry(Some(Key(field)), messages[i])
  {
    forall i | 0 <= i < |messages| ensures ToEntries(issues)[offset + i] == ErrorEntry(Some(Key(field)), messages[i]) {
      assert issues[offset + i] == issues[offset..offset + |messages|][i];
    }
  }

  /** Slicing `a + b + c` at the piece boundaries gives the pieces back. */
  lemma ThreeSlices<T>(a: seq<T>, b: seq<T>, c: seq<T>)
    ensures (a + b + c)[0..|a|] == a
    ensures (a + b + c)[|a|..|a| + |b|] == b
    ensures (a + b + c)[|a| + |b|..|a| + |b| + |c|] == c
  {
    assert a + b + c == a + (b + c);
  }

  /** The entries of three fields' issues, in turn, name each field and carry its messages. */
  lemma ThreeFieldEntries(f1: string, m1: seq<string>, f2: string, m2: seq<string>, f3: string, m3: seq<string>)
    ensures var errors := ToEntries(FieldIssues(f1, m1) + FieldIssues(f2, m2) + FieldIssues(f3, m3));
      && |errors| == |m1| + |m2| + |m3|
      && (forall i :: 0 <= i < |m1| ==> errors[i] == ErrorEntry(Some(Key(f1)), m1[i]))
      && (forall i :: 0 <= i < |m2| ==> errors[|m1| + i] == ErrorEntry(Some(Key(f2)), m2[i]))
      && (forall i :: 0 <= i < |m3| ==> errors[|m1| + |m2| + i] == ErrorEntry(Some(Key(f3)), m3[i]))
  {
    var a, b, c := FieldIssues(f1, m1), FieldIssues(f2, m2), FieldIssues(f3, m3);
    ThreeSlices(a, b, c);
    FieldEntries(f1, m1, a + b + c, 0);
    FieldEntries(f2, m2, a + b + c, |m1|);
    FieldEntries(f3, m3, a + b + c, |m1| + |m2|);
  }

  /**
   * A rejected sign-up body answers 400 with its entries in field order name,
   * email, password; under each field stand exactly that field's failed checks,
   * in the order the schema runs them.
   */
  lemma SignUpRejectionEntries(body: SignUpBody, isEmail: string -> bool)
    requires SignUpIssues(body, isEmail) != []
    ensures var r := Validate(SignUpSchema(isEmail), body);
      var n := StringMessages(body.name, NameFailures);
      var e := EmailMessages(body.email, isEmail);
      var p := StringMessages(body.password, SignUpPasswordFailures);
      && r.BadRequest? && r.Status() == Some(400)
      && |r.errors| == |n| + |e| + |p|
      && (forall i :: 0 <= i < |n| ==> r.errors[i] == ErrorEntry(Some(Key("name")), n[i]))
      && (forall i :: 0 <= i < |e| ==> r.errors[|n| + i] == ErrorEntry(Some(Key("email")), e[i]))
      && (forall i :: 0 <= i < |p| ==> r.errors[|n| + |e| + i] == ErrorEntry(Some(Key("password")), p[i]))
  {
    var n := StringMessages(body.name, NameFailures);
    var e := EmailMessages(body.email, isEmail);
    var p := StringMessages(body.password, SignUpPasswordFailures);
    SignUpRejected(body, isEmail);
    ThreeFieldEntries("name", n, "email", e, "password", p);
  }

  /** A body with issues is answered with the entries of exactly those issues. */
  lemma SignUpRejected(body: SignUpBody, isEmail: string -> bool)
    requires SignUpIssues(body, isEmail) != []
    ensures Validate(SignUpSchema(isEmail), body) == BadRequest(ToEntries(SignUpIssues(body, isEmail)))
  {
  }

  /** A rejected log-in body answers 400 with the email entries first, then the password entries. */
  lemma LogInRejectionEntries(body: LogInBody, isEmail: string -> bool)
    requires LogInIssues(body, isEmail) != []
    ensures var r := Validate(LogInSchema(isEmail), body);
      var e := EmailMessages(body.email, isEmail);
      var p := StringMessages(body.password, LogInPasswordFailures);
      && r.BadRequest? && r.Status() == Some(400)
      && |r.errors| == |e| + |p|
      && (forall i :: 0 <= i < |e| ==> r.errors[i] == ErrorEntry(Some(Key("email")), e[i]))
      && (forall i :: 0 <= i < |p| ==> r.errors[|e| + i] == ErrorEntry(Some(Key("password")), p[i]))
  {
    var e := EmailMessages(body.email, isEmail);
    var p := StringMessages(body.password, LogInPasswordFailures);
    var issues := LogInIssues(body, isEmail);
    var fe, fp := FieldIssues("email", e), FieldIssues("password", p);
    assert issues == fe + fp;
    assert issues[0..|e|] == fe;
    assert issues[|e|..|e| + |p|] == fp;
    FieldEntries("email", e, issues, 0);
    FieldEntries("password", p, issues, |e|);
    LogInRejected(body, isEmail);
  }

  lemma LogInRejected(body: LogInBody, isEmail: string -> bool)
    requires LogInIssues(body, isEmail) != []
    ensures Validate(LogInSchema(isEmail), body) == BadRequest(ToEntries(LogInIssues(body, isEmail)))
  {
  }
}
