/**
 * The bearer-token middleware of the API server: it reads the `Authorization`
 * header, extracts the token after "Bearer ", and asks the identity verifier for
 * the token's claims. The verifier is an oracle passed in as a function from
 * token to claims, `None` standing for a rejected token.
 */
module VerifyFirebaseToken {
  import opened Wrappers
  import opened JsString

  /** The claims of a verified ID token that the handlers read. */
  datatype DecodedToken = DecodedToken(uid: string, email: Option<string>, name: Option<string>, picture: Option<string>)

  const BearerPrefix: string := "Bearer "

  /** The header the web client sends for a token. */
  function BearerHeader(token: string): (h: string)
    ensures |h| == |token| + 7 && h[7..] == token
    ensures StartsWith(h, BearerPrefix)
  {
    BearerPrefix + token
  }

  /**
   * The token of an `Authorization` header, if it has the exact, case-sensitive
   * prefix "Bearer "; a missing header reads as the empty string.
   */
  function ExtractToken(authorization: Option<string>): (r: Option<string>)
    ensures r.Some? <==> authorization.Some? && |authorization.value| >= 7 && authorization.value[..7] == BearerPrefix
    ensures r.Some? ==> authorization.value == BearerPrefix + r.value
  {
    var header := if authorization.Some? then authorization.value else "";
    if !StartsWith(header, BearerPrefix) then None
    else
      assert header == header[..7] + header[7..];
      Some(header[|BearerPrefix|..])
  }

  /** The client's header carries its token to the server unchanged. */
  lemma TokenRoundTrip(token: string)
    ensures ExtractToken(Some(BearerHeader(token))) == Some(token)
  {
    assert BearerHeader(token)[..7] == BearerPrefix;
  }

  /** The parts of an Express request/response pair the middleware touches. */
  class Exchange {
    /** `req.user`. */
    var user: Option<DecodedToken>
    /** The status code set on the response, if any. */
    var status: Option<int>
    /** The `error` field of the JSON body sent, if any. */
    var error: Option<string>
    /** How many times `next` was called. */
    var nextCalls: nat

    /** A request not yet handled. */
    constructor ()
      ensures user == None && status == None && error == None && nextCalls == 0
    {
      user := None;
      status := None;
      error := None;
      nextCalls := 0;
    }

    /** `res.status(code).json({ error: message })`. */
    method Reject(code: int, message: string)
      modifies this
      ensures status == Some(code) && error == Some(message)
      ensures user == old(user) && nextCalls == old(nextCalls)
    {
      status := Some(code);
      error := Some(message);
    }
  }

  /**
   * The middleware. Without a bearer header it answers 401 "Missing token"; a token
   * the verifier rejects gets 401 "Invalid token"; otherwise the claims become
   * `req.user` and `next` is called once, with no response sent.
   */
  method Authenticate(ex: Exchange, authorization: Option<string>, verifyIdToken: string -> Option<DecodedToken>)
    modifies ex
    ensures ExtractToken(authorization).None? ==>
      ex.status == Some(401) && ex.error == Some("Missing token") && ex.user == old(ex.user) && ex.nextCalls == old(ex.nextCalls)
    ensures ExtractToken(authorization).Some? && verifyIdToken(ExtractToken(authorization).value).None? ==>
      ex.status == Some(401) && ex.error == Some("Invalid token") && ex.user == old(ex.user) && ex.nextCalls == old(ex.nextCalls)
    ensures ExtractToken(authorization).Some? && verifyIdToken(ExtractToken(authorization).value).Some? ==>
      && ex.user == verifyIdToken(ExtractToken(authorization).value)
      && ex.nextCalls == old(ex.nextCalls) + 1
      && ex.status == old(ex.status) && ex.error == old(ex.error)
  {
    var token := ExtractToken(authorization);
    if token.None? {
      ex.Reject(401, "Missing token");
      return;
    }
    var decoded := verifyIdToken(token.value);
    if decoded.None? {
      ex.Reject(401, "Invalid token");
      return;
    }
    ex.user := decoded;
    ex.nextCalls := ex.nextCalls + 1;
  }

  /** The prefix is case-sensitive: a lower-case "bearer " header is treated as missing. */
  lemma LowerCaseSchemeRejected(token: string)
    ensures ExtractToken(Some("bearer " + token)).None?
  {
    assert ("bearer " + token)[0] == 'b';
  }
}
