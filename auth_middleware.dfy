/**
 * `authMiddleware`: the token is the second space-separated field of the
 * Authorization header; a missing or empty one is refused with 401 before any
 * verification, a token that fails verification is refused with 401, and a
 * truthy decoded payload becomes `req.user` before `next()` is called.
 *
 * `verify(token)` stands for `jwt.verify`: the decoded payload, or None when
 * it throws (bad signature, expired, malformed).
 */
module AuthMiddleware {
  import opened Wrappers
  import opened Json
  import opened JsStrings

  const TokenMissing: string := "JWT Token Not Found / JWT Format Not Correct"
  const NotLoggedIn: string := "You Are Not Logged In"

  /**
   * What the middleware does. It answers (`Unauthorized`), passes the request
   * on with `req.user` set (`Next`), or, when the decoded payload is falsy,
   * does neither (`NoReply`).
   */
  datatype AuthOutcome = Unauthorized(message: string) | Next(user: JsonValue) | NoReply
  {
    function Status(): Option<int>
    {
      if Unauthorized? then Some(401) else None
    }
  }

  /** `req.headers.authorization || ""`: a missing header reads as the empty string. */
  function HeaderValue(authorization: Option<string>): string
  {
    authorization.GetOr("")
  }

  /** `authHeader.split(" ")[1]`; None is `undefined`. */
  function TokenOf(authorization: Option<string>): (token: Option<string>)
    ensures token.Some? ==> ' ' !in token.value
  {
    var fields := Split(HeaderValue(authorization), ' ');
    if |fields| >= 2 then Some(fields[1]) else None
  }

  /** `!token`: the token is `undefined` or empty. */
  predicate TokenAbsent(token: Option<string>)
  {
    token.None? || token.value == ""
  }

  function Authenticate(authorization: Option<string>, verify: string -> Option<JsonValue>): (r: AuthOutcome)
    ensures r.Next? ==> !TokenAbsent(TokenOf(authorization)) && verify(TokenOf(authorization).value) == Some(r.user)
    ensures r.Next? ==> Truthy(Some(r.user))
    ensures r.Unauthorized? ==> r.message == TokenMissing || r.message == NotLoggedIn
  {
    var token := TokenOf(authorization);
    if TokenAbsent(token) then Unauthorized(TokenMissing)
    else
      match verify(token.value)
      case None => Unauthorized(NotLoggedIn)
      case Some(user) => if Truthy(Some(user)) then Next(user) else NoReply
  }

  /** A missing header and an empty header give no token. */
  lemma MissingHeaderIsEmpty()
    ensures TokenOf(None) == TokenOf(Some("")) == None
  {
  }

  /**
   * The token is the second field: the first word is not checked to be
   * "Bearer", and whatever follows a further space is ignored.
   */
  lemma TokenIsSecondField(first: string, token: string, rest: string)
    requires ' ' !in first && ' ' !in token
    ensures TokenOf(Some(first + " " + token)) == Some(token)
    ensures TokenOf(Some(first + " " + token + " " + rest)) == Some(token)
  {
    SplitAfterWord(first, ' ', token);
    SplitWord(token, ' ');
    assert first + " " + token == first + [' '] + token;
    SplitAfterWord(first, ' ', token + " " + rest);
    SplitAfterWord(token, ' ', rest);
    assert first + " " + token + " " + rest == first + [' '] + (token + [' '] + rest);
  }

  /** A header with no space, or with two spaces after the first word, carries no usable token. */
  lemma MalformedHeaders(first: string, rest: string)
    requires ' ' !in first
    ensures TokenAbsent(TokenOf(Some(first)))
    ensures TokenAbsent(TokenOf(Some(first + "  " + rest)))
  {
    SplitWord(first, ' ');
    SplitAfterWord(first, ' ', " " + rest);
    SplitAfterWord("", ' ', rest);
    assert first + "  " + rest == first + [' '] + (" " + rest);
    assert " " + rest == "" + [' '] + rest;
  }

  /** Without a token the answer is 401 "JWT Token Not Found / ..." and `verify` is never consulted. */
  lemma NoTokenNoVerify(authorization: Option<string>, v1: string -> Option<JsonValue>, v2: string -> Option<JsonValue>)
    requires TokenAbsent(TokenOf(authorization))
    ensures Authenticate(authorization, v1) == Authenticate(authorization, v2) == Unauthorized(TokenMissing)
  {
  }

  /** A token that fails verification gives 401 "You Are Not Logged In" and the request goes no further. */
  lemma VerifyFailureRejects(authorization: Option<string>, verify: string -> Option<JsonValue>)
    ensures var token := TokenOf(authorization);
      Authenticate(authorization, verify) == Unauthorized(NotLoggedIn) <==>
        !TokenAbsent(token) && verify(token.value).None?
  {
  }

  /** `next()` is reached exactly when the token verifies to a truthy payload, and `req.user` is that payload. */
  lemma NextIffVerified(authorization: Option<string>, verify: string -> Option<JsonValue>)
    ensures var r := Authenticate(authorization, verify); var token := TokenOf(authorization);
      r.Next? <==> !TokenAbsent(token) && verify(token.value).Some? && Truthy(verify(token.value))
    ensures var r := Authenticate(authorization, verify);
      r.Next? ==> Some(r.user) == verify(TokenOf(authorization).value)
    ensures Authenticate(authorization, verify).Status() == Some(401) <==> Authenticate(authorization, verify).Unauthorized?
  {
  }

  /** "Bearer <t>" with a space-free, non-empty, verifying token is let through as its payload. */
  lemma BearerAccepted(token: string, verify: string -> Option<JsonValue>)
    requires token != "" && ' ' !in token
    requires verify(token).Some? && Truthy(verify(token))
    ensures Authenticate(Some("Bearer " + token), verify) == Next(verify(token).value)
  {
    TokenIsSecondField("Bearer", token, "");
    assert "Bearer " + token == "Bearer" + " " + token;
  }
}
