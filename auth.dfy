/**
  The `auth` middleware: it takes the second space-separated field of the
  `Authorization` header as the token, verifies short tokens against the
  router's secret and merely decodes the others, and records the user id
  it finds. Any exception on the way is logged and swallowed, and then
  `next()` is never called.
 */
module Auth {
  import opened Types

  /** The signing secret, a literal in the router. */
  const SECRET := "test"

  /** Tokens shorter than this (and non-empty) are the router's own ("custom") tokens. */
  const CUSTOM_TOKEN_LIMIT := 500

  /** `s.split(" ")`: the pieces between single spaces, empty pieces included. */
  function Split(s: string): (parts: seq<string>)
    ensures |parts| >= 1
    ensures |parts| == 1 <==> ' ' !in s
    ensures forall i :: 0 <= i < |parts| ==> ' ' !in parts[i]
  {
    if |s| == 0 then [""]
    else
      var rest := Split(s[1..]);
      if s[0] == ' ' then [""] + rest
      else [[s[0]] + rest[0]] + rest[1..]
  }

  /** `parts.join(" ")`, the inverse of `Split`. */
  function Join(parts: seq<string>): string
    requires |parts| >= 1
  {
    if |parts| == 1 then parts[0] else parts[0] + " " + Join(parts[1..])
  }

  lemma {:induction false} JoinSplit(s: string)
    ensures Join(Split(s)) == s
  {
    if |s| > 0 {
      JoinSplit(s[1..]);
      var rest := Split(s[1..]);
      if s[0] != ' ' {
        if |rest| == 1 {
          assert Join(rest) == rest[0];
        } else {
          assert Join(rest) == rest[0] + " " + Join(rest[1..]);
        }
      }
      assert s == [s[0]] + s[1..];
    }
  }

  /** Splitting a space-free prefix glued to `t` extends the first piece of `Split(t)`. */
  lemma {:induction false} SplitPrefix(a: string, t: string)
    requires ' ' !in a
    ensures Split(a + t) == [a + Split(t)[0]] + Split(t)[1..]
  {
    if |a| > 0 {
      SplitPrefix(a[1..], t);
      var rest := Split(a[1..] + t);
      assert (a + t)[0] == a[0] != ' ';
      assert (a + t)[1..] == a[1..] + t;
      assert rest[0] == a[1..] + Split(t)[0] && rest[1..] == Split(t)[1..];
      assert [a[0]] + (a[1..] + Split(t)[0]) == a + Split(t)[0];
    } else {
      assert a + t == t && a + Split(t)[0] == Split(t)[0];
      assert Split(t) == [Split(t)[0]] + Split(t)[1..];
    }
  }

  lemma {:induction false} SplitJoin(parts: seq<string>)
    requires |parts| >= 1
    requires forall i :: 0 <= i < |parts| ==> ' ' !in parts[i]
    ensures Split(Join(parts)) == parts
  {
    if |parts| == 1 {
      SplitPrefix(parts[0], "");
      assert parts[0] + "" == parts[0];
    } else {
      var tail := parts[1..];
      SplitJoin(tail);
      var t := " " + Join(tail);
      assert t[1..] == Join(tail);
      assert Split(t) == [""] + tail;
      SplitPrefix(parts[0], t);
      assert parts[0] + " " + Join(tail) == parts[0] + t;
      assert parts[0] + "" == parts[0];
      assert parts == [parts[0]] + tail;
    }
  }

  /** `header.split(" ")[1]`: `None` stands for `undefined`. */
  function BearerToken(header: string): (token: Option<string>)
    ensures token.Some? <==> ' ' in header
    ensures token.Some? ==> ' ' !in token.value
  {
    var parts := Split(header);
    if |parts| < 2 then None else Some(parts[1])
  }

  /** Whatever the header holds, the token is its second space-separated field. */
  lemma TokenIsSecondField(parts: seq<string>)
    requires |parts| >= 2
    requires forall i :: 0 <= i < |parts| ==> ' ' !in parts[i]
    ensures BearerToken(Join(parts)) == Some(parts[1])
  {
    SplitJoin(parts);
  }

  /** `Bearer <token>` yields `<token>`. */
  lemma TokenOfBearerHeader(token: string)
    requires ' ' !in token
    ensures BearerToken("Bearer " + token) == Some(token)
  {
    TokenIsSecondField(["Bearer", token]);
    assert Join(["Bearer", token]) == "Bearer" + " " + token == "Bearer " + token;
  }

  /** The claims of a token payload the middleware reads. */
  datatype Claims = Claims(id: Option<string>, sub: Option<string>)

  /**
    What `jwt.verify` or `jwt.decode` does with a token: it throws, or it
    returns a payload (`None` when that payload is `null` or not an object).
   */
  datatype JwtOutcome = Threw | Decoded(payload: Option<Claims>)

  /** `Continue(u)`: `req.userId = u` and `next()` ran. `Stopped`: `next()` never ran. */
  datatype AuthResult = Continue(userId: Option<string>) | Stopped

  /**
    `token && token.length < 500`: the empty token is falsy and so is never
    verified; any other token is verified exactly when it is short.
   */
  predicate IsCustomToken(token: string): (custom: bool)
    ensures token == "" ==> !custom
    ensures token != "" ==> (custom <==> |token| < CUSTOM_TOKEN_LIMIT)
  {
    0 < |token| < CUSTOM_TOKEN_LIMIT
  }

  /** `decodedData?.id` (custom tokens) or `decodedData?.sub` (the others). */
  function UserIdClaim(outcome: JwtOutcome, custom: bool): (r: AuthResult)
    ensures r.Stopped? <==> outcome.Threw?
  {
    match outcome
    case Threw => Stopped
    case Decoded(None) => Continue(None)
    case Decoded(Some(claims)) => Continue(if custom then claims.id else claims.sub)
  }

  /**
    The middleware. `verify(token, secret)` and `decode(token)` stand for
    `jwt.verify` and `jwt.decode`, whose cryptography is not modelled.
   */
  function Authenticate(
    header: Option<string>,
    verify: (string, string) -> JwtOutcome,
    decode: string -> JwtOutcome): (r: AuthResult)
    ensures header.None? ==> r == Stopped
    ensures header.Some? && ' ' !in header.value ==> r == Stopped
    ensures r.Continue? ==> header.Some? && BearerToken(header.value).Some?
  {
    match header
    case None => Stopped
    case Some(h) =>
      match BearerToken(h)
      case None => Stopped
      case Some(token) =>
        if IsCustomToken(token) then UserIdClaim(verify(token, SECRET), true)
        else UserIdClaim(decode(token), false)
  }

  /**
    A non-empty token shorter than 500 characters is verified against the
    secret, `decode` is never consulted, and the user id is the `id` claim
    (absent when the payload is `null` or not an object).
   */
  lemma CustomTokenPath(
    header: string, token: string,
    verify: (string, string) -> JwtOutcome,
    decode: string -> JwtOutcome, decode': string -> JwtOutcome)
    requires BearerToken(header) == Some(token) && IsCustomToken(token)
    ensures Authenticate(Some(header), verify, decode) == Authenticate(Some(header), verify, decode')
    ensures verify(token, SECRET).Threw? ==> Authenticate(Some(header), verify, decode) == Stopped
    ensures verify(token, SECRET).Decoded? && verify(token, SECRET).payload.Some? ==>
      Authenticate(Some(header), verify, decode) == Continue(verify(token, SECRET).payload.value.id)
    ensures verify(token, SECRET) == Decoded(None) ==> Authenticate(Some(header), verify, decode) == Continue(None)
  {
  }

  /**
    Every other token (the empty one included) is only decoded, `verify` is
    never consulted, and the user id is the `sub` claim. When `jwt.decode`
    gives `null` (a malformed or empty token) the request still goes on,
    with no user id.
   */
  lemma DecodedTokenPath(
    header: string, token: string,
    verify: (string, string) -> JwtOutcome, verify': (string, string) -> JwtOutcome,
    decode: string -> JwtOutcome)
    requires BearerToken(header) == Some(token) && !IsCustomToken(token)
    ensures Authenticate(Some(header), verify, decode) == Authenticate(Some(header), verify', decode)
    ensures decode(token).Threw? ==> Authenticate(Some(header), verify, decode) == Stopped
    ensures decode(token).Decoded? && decode(token).payload.Some? ==>
      Authenticate(Some(header), verify, decode) == Continue(decode(token).payload.value.sub)
    ensures decode(token) == Decoded(None) ==> Authenticate(Some(header), verify, decode) == Continue(None)
  {
  }

  /**
    Fail-open: a token that verifies but carries no user claim still lets
    the request through, with no user id attached.
   */
  lemma FailOpen(
    token: string,
    verify: (string, string) -> JwtOutcome,
    decode: string -> JwtOutcome)
    requires ' ' !in token && IsCustomToken(token)
    requires verify(token, SECRET) == Decoded(Some(Claims(None, None)))
    ensures Authenticate(Some("Bearer " + token), verify, decode) == Continue(None)
  {
    TokenOfBearerHeader(token);
  }
  /**
    The header `Bearer ` (nothing after the space) carries the empty token,
    which is decoded rather than verified; `jwt.decode` gives `null` for it,
    and the request goes on with no user id.
   */
  lemma EmptyBearerFailsOpen(
    verify: (string, string) -> JwtOutcome,
    decode: string -> JwtOutcome)
    requires decode("") == Decoded(None)
    ensures Authenticate(Some("Bearer "), verify, decode) == Continue(None)
  {
    TokenOfBearerHeader("");
    assert "Bearer " + "" == "Bearer ";
  }
}
