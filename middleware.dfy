/** The `/fitness` gate: the Authorization header check, the token check,
    and the identity it leaves in the request context. */
module Middleware {
  import opened Wrappers
  import opened Errors
  import opened Models
  import opened Strings
  import opened Gin
  import Service

  /** The context key the identity is stored under. */
  const UserCtx: string := "userID"

  /** The outcome of the header checks: the token to parse, or the message
      the request is refused with. */
  datatype HeaderCheck = Token(token: string) | Reject(message: string)

  /** `"Bearer "` followed by text without a space: the headers that split on
      spaces into exactly `["Bearer", t]`. */
  predicate IsBearerShape(h: string)
  {
    |h| >= 7 && h[..7] == "Bearer " && ' ' !in h[7..]
  }

  /** A header splits into exactly `"Bearer"` and one more part iff it has the
      bearer shape; that part is everything after the first space. */
  lemma BearerParts(h: string)
    ensures var parts := Split(h, ' ');
            (|parts| == 2 && parts[0] == "Bearer") <==> IsBearerShape(h)
    ensures IsBearerShape(h) ==> Split(h, ' ') == ["Bearer", h[7..]]
  {
    var parts := Split(h, ' ');
    assert ' ' !in "Bearer";
    if |parts| == 2 && parts[0] == "Bearer" {
      SplitTwo(h, ' ', parts[0], parts[1]);
      assert h == "Bearer" + [' '] + parts[1];
      assert h[..7] == "Bearer " && h[7..] == parts[1];
    }
    if IsBearerShape(h) {
      assert h == "Bearer" + [' '] + h[7..];
      SplitTwo(h, ' ', "Bearer", h[7..]);
    }
  }

  /** The header checks of `userIdentity`, in their order: empty header,
      split shape and scheme, empty token. */
  function CheckHeader(header: string): (r: HeaderCheck)
    ensures r == Reject("empty auth header") <==> header == ""
    ensures r == Reject("invalid auth header") <==> header != "" && !IsBearerShape(header)
    ensures r == Reject("token is empty") <==> header == "Bearer "
    ensures r.Token? <==> IsBearerShape(header) && |header| > 7
    ensures r.Token? ==> header == "Bearer " + r.token && r.token != [] && ' ' !in r.token
    ensures r.Reject? ==> r.message in {"empty auth header", "invalid auth header", "token is empty"}
  {
    BearerParts(header);
    if header == "" then Reject("empty auth header")
    else
      var parts := Split(header, ' ');
      if |parts| != 2 || parts[0] != "Bearer" then Reject("invalid auth header")
      else if |parts[1]| == 0 then
        assert header == "Bearer " + header[7..];
        Reject("token is empty")
      else
        assert header == "Bearer " + header[7..];
        Token(parts[1])
  }

  /** Extra spaces anywhere make more than two parts: such headers are refused
      as malformed, not as an empty or bad token. */
  lemma ExtraSpacesRejected(t: string)
    requires t != [] && ' ' !in t
    ensures CheckHeader("Bearer " + t + " x") == Reject("invalid auth header")
    ensures CheckHeader("Bearer  " + t) == Reject("invalid auth header")
    ensures CheckHeader("bearer " + t) == Reject("invalid auth header")
    ensures CheckHeader("Bearer " + t) == Token(t)
  {
    var h1 := "Bearer " + t + " x";
    assert h1[7..][|t|] == ' ';
    var h2 := "Bearer  " + t;
    assert h2[7..][0] == ' ';
    var h3 := "bearer " + t;
    assert h3[..7] != "Bearer " by { assert h3[0] != 'B'; }
    var h4 := "Bearer " + t;
    assert h4[..7] == "Bearer " && h4[7..] == t;
  }

  /** `getData`: the identity `userIdentity` stored, or `ErrUserIdNotFound`. */
  function GetData(c: Context): (r: Result<Identity, Error>)
    reads c
    ensures r.Success? <==> UserCtx in c.keys
    ensures r.Success? ==> r.value == c.keys[UserCtx]
    ensures r.Failure? ==> r.error == ErrUserIdNotFound
  {
    if UserCtx in c.keys then Success(c.keys[UserCtx]) else Failure(ErrUserIdNotFound)
  }

  /** `userIdentity`: run the header checks, then `ParseToken` on the token;
      refuse with 401 and the failing check's message, or store the parsed
      identity. `now` is the Unix second the library validates claims at. */
  method UserIdentity(c: Context, lib: Service.Jwt, now: int)
    modifies c`keys, c`aborted, c`replies
    ensures CheckHeader(c.header).Reject? ==>
              c.aborted && c.keys == old(c.keys)
              && c.replies == old(c.replies) + [Reply(StatusUnauthorized, ErrorBody(CheckHeader(c.header).message))]
    ensures CheckHeader(c.header).Token? && Service.ParseToken(lib, CheckHeader(c.header).token, now).Failure? ==>
              c.aborted && c.keys == old(c.keys)
              && c.replies == old(c.replies) + [Reply(StatusUnauthorized, ErrorBody(Message(ErrParseJWT)))]
    ensures CheckHeader(c.header).Token? && Service.ParseToken(lib, CheckHeader(c.header).token, now).Success? ==>
              c.aborted == old(c.aborted) && c.replies == old(c.replies)
              && c.keys == old(c.keys)[UserCtx := Service.ParseToken(lib, CheckHeader(c.header).token, now).value]
              && GetData(c) == Service.ParseToken(lib, CheckHeader(c.header).token, now)
  {
    var header := c.header;
    if header == "" {
      c.Abort(Reply(StatusUnauthorized, ErrorBody("empty auth header")));
      return;
    }
    var headerParts := Split(header, ' ');
    if |headerParts| != 2 || headerParts[0] != "Bearer" {
      c.Abort(Reply(StatusUnauthorized, ErrorBody("invalid auth header")));
      return;
    }
    if |headerParts[1]| == 0 {
      c.Abort(Reply(StatusUnauthorized, ErrorBody("token is empty")));
      return;
    }
    var identity := Service.ParseToken(lib, headerParts[1], now);
    if identity.Failure? {
      c.Abort(Reply(StatusUnauthorized, ErrorBody(Message(identity.error))));
      return;
    }
    c.Set(UserCtx, identity.value);
  }

  /** `ParseToken` is reached exactly for `"Bearer " + t` with a non-empty,
      space-free `t`, and then on `t` itself. */
  lemma ParseReachedExactly(header: string, t: string)
    ensures CheckHeader(header) == Token(t) <==> header == "Bearer " + t && t != [] && ' ' !in t
  {
    if header == "Bearer " + t && t != [] && ' ' !in t {
      assert header[..7] == "Bearer " && header[7..] == t;
    }
  }

  /** A token the service issues is never refused by the header checks: it
      is non-empty and has no spaces. */
  lemma IssuedTokenPassesHeader(lib: Service.Jwt, claims: Service.Claims)
    requires Service.Sound(lib)
    requires Service.Sign(lib, claims).Success?
    ensures CheckHeader("Bearer " + Service.Sign(lib, claims).value) == Token(Service.Sign(lib, claims).value)
  {
    var t := Service.Sign(lib, claims).value;
    assert lib.signedString(Service.HS256, claims, Service.SigningKey) == Some(t);
    ParseReachedExactly("Bearer " + t, t);
  }
}
