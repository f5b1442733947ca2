/** The guard in front of the image routes: it takes a Bearer token from the
    `authorization` header, has it verified, and puts the user id from the
    token on the request. */
module AuthGuard {
  import opened Common
  import opened Strings

  type Headers = map<string, string>

  /** `getToken`: no header (or an empty one) gives nothing; otherwise the
      header is split on spaces and the second piece is the token when the
      first is exactly `Bearer`. A header of just `Bearer` has no second
      piece. */
  function GetToken(headers: Headers): (token: Option<string>)
    ensures "authorization" !in headers ==> token.None?
    ensures "authorization" in headers && headers["authorization"] == "" ==> token.None?
    ensures token.Some? ==> ' ' !in token.value
  {
    if "authorization" !in headers || headers["authorization"] == "" then None
    else
      var parts := Split(headers["authorization"], ' ');
      if parts[0] == "Bearer" && |parts| >= 2 then Some(parts[1]) else None
  }

  /** `Bearer <token>`, possibly followed by more space-separated text, gives
      the token. */
  lemma BearerGivesToken(headers: Headers, token: string, suffix: string)
    requires ' ' !in token
    requires suffix == "" || suffix[0] == ' '
    requires "authorization" in headers && headers["authorization"] == "Bearer " + token + suffix
    ensures GetToken(headers) == Some(token)
  {
    if suffix == "" {
      assert headers["authorization"] == "Bearer" + [' '] + token;
      SplitAtSeparator("Bearer", ' ', token);
    } else {
      var rest := suffix[1..];
      assert headers["authorization"] == "Bearer" + [' '] + (token + [' '] + rest);
      SplitAtSeparator("Bearer", ' ', token + [' '] + rest);
      SplitAtSeparator(token, ' ', rest);
    }
  }

  /** Conversely, a token only comes out of a header that starts with
      `Bearer `, the token, then either the end or a space. */
  lemma {:induction false} TokenComesFromBearer(headers: Headers)
    requires GetToken(headers).Some?
    ensures var h := headers["authorization"];
            var t := GetToken(headers).value;
            && |h| >= 7 + |t|
            && h[..7 + |t|] == "Bearer " + t
            && (|h| == 7 + |t| || h[7 + |t|] == ' ')
  {
    var h := headers["authorization"];
    var parts := Split(h, ' ');
    var t := parts[1];
    JoinSplit(h, ' ');
    assert h == "Bearer" + [' '] + Join(parts[1..], ' ');
    if |parts| == 2 {
      assert Join(parts[1..], ' ') == t;
    } else {
      assert Join(parts[1..], ' ') == t + [' '] + Join(parts[2..], ' ');
      assert h == ("Bearer " + t) + ([' '] + Join(parts[2..], ' '));
    }
  }

  /** The scheme is compared exactly: `bearer` is not accepted. */
  lemma LowercaseSchemeRejected(headers: Headers, token: string)
    requires "authorization" in headers && headers["authorization"] == "bearer " + token
    ensures GetToken(headers) == None
  {
    assert headers["authorization"] == "bearer" + [' '] + token;
    SplitAtSeparator("bearer", ' ', token);
  }

  /** `Bearer` alone has no token; `Bearer ` has an empty one. */
  lemma BareScheme(headers: Headers)
    requires "authorization" in headers
    ensures headers["authorization"] == "Bearer" ==> GetToken(headers) == None
    ensures headers["authorization"] == "Bearer " ==> GetToken(headers) == Some("")
  {
    assert "Bearer " == "Bearer" + [' '] + "";
    SplitAtSeparator("Bearer", ' ', "");
  }

  /** What the token verifier returns for a good token: the payload's
      `userId`, which may be absent. A bad or expired token gives `None`. */
  datatype Claims = Claims(userId: Option<string>)

  type Verifier = string -> Option<Claims>

  class Request {
    var headers: Headers
    /** Set by the guard. */
    var userId: Option<string>

    constructor (headers: Headers)
      ensures this.headers == headers && userId.None?
    {
      this.headers := headers;
      userId := None;
    }
  }

  /** `canActivate`: a missing or empty token is "Token not found" and the
      verifier is not asked; a token the verifier refuses is "Invalid token";
      otherwise the request carries the payload's user id and the guard lets
      it through. */
  method CanActivate(request: Request, verify: Verifier) returns (r: Result<bool, HttpError>)
    modifies request
    ensures request.headers == old(request.headers)
    ensures var token := GetToken(request.headers);
      && (token.None? || token.value == "" ==>
            r == Failure(BadRequest("Token not found")) && request.userId == old(request.userId))
      && (token.Some? && token.value != "" && verify(token.value).None? ==>
            r == Failure(BadRequest("Invalid token")) && request.userId == old(request.userId))
      && (token.Some? && token.value != "" && verify(token.value).Some? ==>
            r == Success(true) && request.userId == verify(token.value).value.userId)
  {
    var token := GetToken(request.headers);
    if !TruthyText(token) {
      return Failure(BadRequest("Token not found"));
    }
    var payload := verify(token.value);
    if payload.None? {
      return Failure(BadRequest("Invalid token"));
    }
    request.userId := payload.value.userId;
    r := Success(true);
  }
}
