/**
 * AuthMiddleware: the Authorization header must be `Bearer <token>` with
 * exactly one space; the token is handed to the JWT validator, which is a
 * parameter here, and its claims become the request's user.
 */
module Auth {
  import opened Wrappers

  const HeaderRequiredMessage: string := "Authorization header is required"
  const HeaderFormatMessage: string := "Invalid authorization header format"
  const InvalidTokenMessage: string := "Invalid or expired token"
  const Scheme: string := "Bearer"

  // ---------------------------------------------------------------- strings.Split

  /** strings.Split(s, " "): the pieces between spaces, empty ones included; never empty. */
  function Split(s: string): (parts: seq<string>)
    ensures |parts| >= 1
    ensures forall i :: 0 <= i < |parts| ==> ' ' !in parts[i]
    decreases |s|
  {
    if |s| == 0 then [""]
    else
      var rest := Split(s[1..]);
      if s[0] == ' ' then [""] + rest
      else [[s[0]] + rest[0]] + rest[1..]
  }

  /** strings.Join(parts, " "). */
  function Join(parts: seq<string>): string
    decreases |parts|
  {
    if |parts| == 0 then ""
    else if |parts| == 1 then parts[0]
    else parts[0] + " " + Join(parts[1..])
  }

  /** Splitting loses nothing: joining the pieces back with single spaces gives the header. */
  lemma {:induction false} JoinSplit(s: string)
    ensures Join(Split(s)) == s
    decreases |s|
  {
    if |s| > 0 {
      var rest := Split(s[1..]);
      JoinSplit(s[1..]);
      if s[0] == ' ' {
        assert ([""] + rest)[1..] == rest;
        assert s == [' '] + s[1..];
      } else if |rest| == 1 {
        assert s == [s[0]] + s[1..];
      } else {
        var parts := [[s[0]] + rest[0]] + rest[1..];
        assert parts[1..] == rest[1..];
        assert Join(rest) == rest[0] + " " + Join(rest[1..]);
        assert s == [s[0]] + s[1..];
      }
    }
  }

  /** Pieces without spaces split back into themselves. */
  lemma {:induction false} SplitJoin(parts: seq<string>)
    requires |parts| >= 1
    requires forall i :: 0 <= i < |parts| ==> ' ' !in parts[i]
    ensures Split(Join(parts)) == parts
    decreases |parts|
  {
    if |parts| == 1 {
      SplitWord(parts[0]);
    } else {
      SplitJoin(parts[1..]);
      SplitWordThen(parts[0], Join(parts[1..]));
      assert parts == [parts[0]] + parts[1..];
    }
  }

  /** A word with no space splits into itself. */
  lemma {:induction false} SplitWord(w: string)
    requires ' ' !in w
    ensures Split(w) == [w]
    decreases |w|
  {
    if |w| > 0 {
      assert ' ' !in w[1..] by {
        forall i | 0 <= i < |w[1..]| ensures w[1..][i] != ' ' { assert w[1..][i] == w[i + 1]; }
      }
      SplitWord(w[1..]);
      assert w == [w[0]] + w[1..];
    }
  }

  /** A word, a space and a tail: the word is the first piece, then the tail's pieces. */
  lemma {:induction false} SplitWordThen(w: string, tail: string)
    requires ' ' !in w
    ensures Split(w + " " + tail) == [w] + Split(tail)
    decreases |w|
  {
    if |w| == 0 {
      assert w + " " + tail == [' '] + tail;
      assert (w + " " + tail)[1..] == tail;
    } else {
      assert ' ' !in w[1..] by {
        forall i | 0 <= i < |w[1..]| ensures w[1..][i] != ' ' { assert w[1..][i] == w[i + 1]; }
      }
      SplitWordThen(w[1..], tail);
      assert (w + " " + tail)[1..] == w[1..] + " " + tail;
      assert [w[0]] + w[1..] == w;
    }
  }

  // ---------------------------------------------------------------- the header

  /** The token of a well-formed header: exactly two pieces, the first exactly "Bearer". */
  function BearerToken(header: string): Option<string> {
    var parts := Split(header);
    if |parts| != 2 || parts[0] != Scheme then None else Some(parts[1])
  }

  /**
   * A header is accepted exactly when it is "Bearer " followed by a token
   * with no space in it (possibly empty), and that token is what is
   * returned: "bearer x", "Bearer" and "Bearer a b" are all refused.
   */
  lemma BearerTokenExactly(header: string, token: string)
    ensures BearerToken(header) == Some(token) <==> header == Scheme + " " + token && ' ' !in token
  {
    if BearerToken(header) == Some(token) {
      var parts := Split(header);
      JoinSplit(header);
      assert parts[1..] == [token];
      assert Join(parts) == parts[0] + " " + Join(parts[1..]);
    }
    if header == Scheme + " " + token && ' ' !in token {
      SplitWordThen(Scheme, token);
      SplitWord(token);
    }
  }

  /** An empty token is still passed on: "Bearer " reaches the validator with "". */
  lemma EmptyTokenPassedOn()
    ensures BearerToken(Scheme + " ") == Some("")
  {
    BearerTokenExactly(Scheme + " ", "");
    assert Scheme + " " == Scheme + " " + "";
  }

  // ---------------------------------------------------------------- the middleware

  /** JWTClaims as the middleware uses them. */
  datatype Claims = Claims(id: string, email: string)

  /** The 401 with its `error` message, or the next handler with userId and userEmail set. */
  datatype AuthOutcome = Unauthorized(message: string) | Continue(userId: string, userEmail: string)

  /** AuthMiddleware, with ValidateToken as `validate`. */
  function AuthMiddleware(header: string, validate: string -> Result<Claims, string>): (r: AuthOutcome)
    ensures header == [] <==> r == Unauthorized(HeaderRequiredMessage)
    ensures r == Unauthorized(HeaderFormatMessage) <==> header != [] && BearerToken(header).None?
    ensures r == Unauthorized(InvalidTokenMessage) <==>
      BearerToken(header).Some? && validate(BearerToken(header).value).Failure?
    ensures r.Continue? <==> BearerToken(header).Some? && validate(BearerToken(header).value).Success?
    ensures r.Continue? ==> r == Continue(validate(BearerToken(header).value).value.id,
                                          validate(BearerToken(header).value).value.email)
  {
    if header == [] then Unauthorized(HeaderRequiredMessage)
    else match BearerToken(header)
      case None => Unauthorized(HeaderFormatMessage)
      case Some(token) =>
        match validate(token)
        case Failure(_) => Unauthorized(InvalidTokenMessage)
        case Success(claims) => Continue(claims.id, claims.email)
  }

  /** Only a header of the form "Bearer <token>" ever reaches the validator or the next handler. */
  lemma ContinueNeedsBearer(header: string, validate: string -> Result<Claims, string>)
    requires AuthMiddleware(header, validate).Continue?
    ensures exists token :: header == Scheme + " " + token && ' ' !in token && validate(token).Success?
  {
    var token := BearerToken(header).value;
    BearerTokenExactly(header, token);
  }
}
