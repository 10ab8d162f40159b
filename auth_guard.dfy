/**
 * `AuthGuard.canActivate`: reads the bearer token from the `Authorization`
 * header, verifies it, and on success attaches the claims to the request.
 */
module AuthGuard {
  import opened Wrappers
  import opened Text
  import opened Tokens

  const TokenNotProvided := HttpError(Unauthorized, "Token not provided")
  const InvalidAuthorizationFormat := HttpError(Unauthorized, "Invalid authorization format")
  const InvalidToken := HttpError(Unauthorized, "Invalid token")

  const BearerPrefix := "Bearer "

  /**
   * The token of an `Authorization` header (None when the header is absent):
   * the second space-separated word of a header that starts with "Bearer ".
   */
  function BearerToken(header: Option<string>): (r: Result<string>)
    ensures r.Ok? ==> r.value != "" && ' ' !in r.value
    ensures r.Err? ==> r.error in {TokenNotProvided, InvalidAuthorizationFormat}
    ensures header.None? || header.value == "" ==> r == Err(TokenNotProvided)
    ensures header.Some? && header.value != "" && !StartsWith(header.value, BearerPrefix) ==> r == Err(InvalidAuthorizationFormat)
    ensures header.Some? && StartsWith(header.value, BearerPrefix) ==> r != Err(InvalidAuthorizationFormat)
  {
    if header.None? || header.value == "" then Err(TokenNotProvided)
    else if !StartsWith(header.value, BearerPrefix) then Err(InvalidAuthorizationFormat)
    else
      var parts := Split(header.value, ' ');
      if |parts| < 2 || parts[1] == "" then Err(TokenNotProvided) else Ok(parts[1])
  }

  /** The claims the guard attaches, or the exception it throws; every verification failure reads "Invalid token". */
  function Authenticate(header: Option<string>, verify: string -> Result<Claims>): (r: Result<Claims>)
    ensures r.Err? ==> r.error.status == Unauthorized
    ensures BearerToken(header).Err? ==> r == Err(BearerToken(header).error)
    ensures BearerToken(header).Ok? ==>
      var token := BearerToken(header).value;
      && (verify(token).Err? ==> r == Err(InvalidToken))
      && (verify(token).Ok? ==> r == Ok(verify(token).value))
  {
    match BearerToken(header)
      case Err(e) => Err(e)
      case Ok(token) =>
        match verify(token)
          case Err(_) => Err(InvalidToken)
          case Ok(claims) => Ok(claims)
  }

  /** After "Bearer ", the token is the text up to the next space; an empty one counts as missing. */
  lemma TokenIsWordAfterPrefix(rest: string)
    ensures BearerToken(Some(BearerPrefix + rest)) ==
      (var word := Split(rest, ' ')[0]; if word == "" then Err(TokenNotProvided) else Ok(word))
  {
    var header := BearerPrefix + rest;
    assert header == "Bearer" + [' '] + rest;
    assert StartsWith(header, BearerPrefix) by {
      assert header[..|BearerPrefix|] == BearerPrefix;
    }
    SplitWithoutSeparator("Bearer", ' ');
    SplitConcat("Bearer", rest, ' ');
  }

  /** A header is accepted exactly when it starts with "Bearer " followed by a non-empty word, which is the token. */
  lemma BearerTokenAccepts(header: Option<string>)
    ensures BearerToken(header).Ok? <==>
      header.Some? && StartsWith(header.value, BearerPrefix) && Split(header.value[|BearerPrefix|..], ' ')[0] != ""
    ensures BearerToken(header).Ok? ==> BearerToken(header).value == Split(header.value[|BearerPrefix|..], ' ')[0]
  {
    if header.Some? && StartsWith(header.value, BearerPrefix) {
      var rest := header.value[|BearerPrefix|..];
      assert header.value == BearerPrefix + rest;
      TokenIsWordAfterPrefix(rest);
    }
  }

  /** The header a client builds from a token gives that token back. */
  lemma BearerRoundTrip(token: string)
    requires token != "" && ' ' !in token
    ensures BearerToken(Some(BearerPrefix + token)) == Ok(token)
  {
    TokenIsWordAfterPrefix(token);
    SplitWithoutSeparator(token, ' ');
  }

  /** "Bearer " alone and a double space both read as a missing token. */
  lemma EmptyTokenIsMissing(rest: string)
    ensures BearerToken(Some(BearerPrefix)) == Err(TokenNotProvided)
    ensures BearerToken(Some(BearerPrefix + " " + rest)) == Err(TokenNotProvided)
  {
    TokenIsWordAfterPrefix("");
    assert BearerPrefix + "" == BearerPrefix;
    TokenIsWordAfterPrefix(" " + rest);
    assert BearerPrefix + " " + rest == BearerPrefix + (" " + rest);
    assert " " + rest == "" + [' '] + rest;
    SplitConcat("", rest, ' ');
  }

  /** The request as the guard sees it: its header and the `data` it may set. */
  class Request {
    var authorization: Option<string>
    var data: Option<Claims>

    constructor (authorization: Option<string>)
      ensures this.authorization == authorization && data == None
    {
      this.authorization := authorization;
      data := None;
    }
  }

  /** `canActivate`: true with the claims stored on the request, or the guard's exception and the request untouched. */
  method CanActivate(request: Request, verify: string -> Result<Claims>) returns (r: Result<bool>)
    modifies request
    ensures request.authorization == old(request.authorization)
    ensures var a := Authenticate(old(request.authorization), verify);
      && (a.Ok? ==> r == Ok(true) && request.data == Some(a.value))
      && (a.Err? ==> r == Err(a.error) && request.data == old(request.data))
  {
    var token := BearerToken(request.authorization);
    if token.Err? {
      return Err(token.error);
    }
    var decoded := verify(token.value);
    if decoded.Err? {
      return Err(InvalidToken);
    }
    request.data := Some(decoded.value);
    r := Ok(true);
  }
}
