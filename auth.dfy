/** The `token_required` decorator of backend/auth.py: OPTIONS requests pass straight through, a
    request without a bearer token runs as the guest, and a token is verified before the handler
    runs. Token verification is a parameter; the wrapped handler is represented by the uid it
    finds on the request when it is called. */
module Auth {
  import opened Wrappers

  const BearerPrefix := "Bearer "
  const GuestUid := "guest"
  const InvalidTokenMessage := "Token is invalid!"
  const UnauthorizedStatus := 401

  /** `auth.verify_id_token(token)`: the decoded claims, or the message of the exception it raised. */
  datatype Verification = Verified(claims: map<string, string>) | Rejected(reason: string)

  type Verifier = string -> Verification

  /** What the decorator returns: the handler's response (the handler having seen the given uid on
      the request) or the 401 JSON body. */
  datatype Response =
    | HandlerCalled(uidSeen: Option<string>)
    | Unauthorized(status: int, message: string, error: string)

  /** The decision the decorator takes before calling, or not calling, the handler. */
  datatype Decision = PassThrough | Guest | Authenticated(uid: string) | InvalidToken(error: string)

  /** `p` occurs in `s` at position j. */
  predicate OccursAt(s: string, p: string, j: int) {
    0 <= j && j + |p| <= |s| && s[j..j + |p|] == p
  }

  predicate StartsWith(s: string, p: string) {
    OccursAt(s, p, 0)
  }

  /** `s.find(p, start)`: the first occurrence of p at or after start. */
  function IndexFrom(s: string, p: string, start: nat): (r: Option<nat>)
    ensures r.Some? ==> start <= r.value && OccursAt(s, p, r.value)
    ensures r.Some? ==> forall j :: start <= j < r.value ==> !OccursAt(s, p, j)
    ensures r.None? ==> forall j :: start <= j ==> !OccursAt(s, p, j)
    decreases |s| - start
  {
    if start + |p| > |s| then None
    else if s[start..start + |p|] == p then Some(start)
    else IndexFrom(s, p, start + 1)
  }

  /** `s.split(BearerPrefix)[1]`: the text between the first and the second occurrence of the
      prefix, or to the end; None (an IndexError) when the prefix does not occur. */
  function SecondPiece(s: string): (r: Option<string>)
    ensures r.None? <==> forall j :: !OccursAt(s, BearerPrefix, j)
  {
    match IndexFrom(s, BearerPrefix, 0)
    case None => None
    case Some(i) =>
      var rest := s[i + |BearerPrefix|..];
      match IndexFrom(rest, BearerPrefix, 0)
      case None => Some(rest)
      case Some(k) => Some(rest[..k])
  }

  /** Lines 12-16: a token only from a non-empty header that starts with the prefix. */
  function ExtractToken(header: Option<string>): (token: Option<string>)
    ensures token.Some? <==> header.Some? && StartsWith(header.value, BearerPrefix)
  {
    if header.Some? && header.value != "" && StartsWith(header.value, BearerPrefix) then
      SecondPiece(header.value)
    else None
  }

  /** `if not id_token`: no token, or the empty one. */
  predicate NoToken(token: Option<string>) {
    token.None? || token.value == ""
  }

  /** Lines 9-29 without the side effects. A decoded token without a 'uid' claim raises a KeyError
      inside the try, whose message is `'uid'`. */
  function Decide(httpMethod: string, header: Option<string>, verify: Verifier): (d: Decision)
    ensures httpMethod == "OPTIONS" ==> d == PassThrough
    ensures httpMethod != "OPTIONS" && NoToken(ExtractToken(header)) ==> d == Guest
    ensures d.Authenticated? ==>
      && !NoToken(ExtractToken(header))
      && verify(ExtractToken(header).value).Verified?
      && "uid" in verify(ExtractToken(header).value).claims
      && d.uid == verify(ExtractToken(header).value).claims["uid"]
    ensures (httpMethod != "OPTIONS" && !NoToken(ExtractToken(header))
             && verify(ExtractToken(header).value).Rejected?) ==>
      d == InvalidToken(verify(ExtractToken(header).value).reason)
    ensures (httpMethod != "OPTIONS" && !NoToken(ExtractToken(header))
             && verify(ExtractToken(header).value).Verified?) ==>
      d == (if "uid" in verify(ExtractToken(header).value).claims
            then Authenticated(verify(ExtractToken(header).value).claims["uid"])
            else InvalidToken("'uid'"))
  {
    if httpMethod == "OPTIONS" then PassThrough
    else
      var token := ExtractToken(header);
      if NoToken(token) then Guest
      else
        match verify(token.value)
        case Rejected(reason) => InvalidToken(reason)
        case Verified(claims) =>
          if "uid" in claims then Authenticated(claims["uid"]) else InvalidToken("'uid'")
  }

  /** A header that is the prefix followed by a token containing no further prefix yields exactly
      that token. */
  lemma ExtractBearerToken(token: string)
    requires forall j :: !OccursAt(token, BearerPrefix, j)
    ensures ExtractToken(Some(BearerPrefix + token)) == Some(token)
  {
    var h := BearerPrefix + token;
    assert h[..|BearerPrefix|] == BearerPrefix;
    assert StartsWith(h, BearerPrefix);
    assert h[|BearerPrefix|..] == token;
  }

  /** With a second prefix, the token stops right before it. */
  lemma ExtractStopsAtNextPrefix(token: string, tail: string)
    requires forall j :: !OccursAt(token, BearerPrefix, j)
    ensures ExtractToken(Some(BearerPrefix + token + BearerPrefix + tail)) == Some(token)
  {
    var h := BearerPrefix + token + BearerPrefix + tail;
    var rest := token + BearerPrefix + tail;
    assert h[..|BearerPrefix|] == BearerPrefix;
    assert StartsWith(h, BearerPrefix);
    assert h[|BearerPrefix|..] == rest;
    assert rest[|token|..|token| + |BearerPrefix|] == BearerPrefix;
    assert OccursAt(rest, BearerPrefix, |token|);
    forall j | 0 <= j < |token|
      ensures !OccursAt(rest, BearerPrefix, j)
    {
      NoEarlyPrefix(token, tail, j);
    }
    var k := IndexFrom(rest, BearerPrefix, 0);
    assert k == Some(|token|);
    assert rest[..|token|] == token;
  }

  /** Before its end, the token followed by the prefix holds no prefix: one cannot fit inside the
      token, nor straddle into the second prefix. */
  lemma NoEarlyPrefix(token: string, tail: string, j: nat)
    requires forall i :: !OccursAt(token, BearerPrefix, i)
    requires j < |token|
    ensures !OccursAt(token + BearerPrefix + tail, BearerPrefix, j)
  {
    var rest := token + BearerPrefix + tail;
    if j + |BearerPrefix| <= |token| {
      assert rest[j..j + |BearerPrefix|] == token[j..j + |BearerPrefix|];
      assert !OccursAt(token, BearerPrefix, j);
    } else {
      NoStraddle(token, tail, j);
    }
  }

  /** The prefix cannot start inside the token and run into the second prefix: its first letter
      'B' appears in it only at position 0. */
  lemma NoStraddle(token: string, tail: string, k: nat)
    requires k < |token| < k + |BearerPrefix|
    ensures !OccursAt(token + BearerPrefix + tail, BearerPrefix, k)
  {
    var rest := token + BearerPrefix + tail;
    var off := |token| - k;
    assert rest[|token|] == 'B';
    assert BearerPrefix[off] != 'B';
    assert k + off == |token|;
  }

  /** Concrete headers: a plain token, a header holding the prefix twice, and an empty token. */
  lemma ExtractExamples()
    ensures ExtractToken(Some("Bearer abc")) == Some("abc")
    ensures ExtractToken(Some("Bearer a Bearer b")) == Some("a ")
    ensures ExtractToken(Some("Bearer ")) == Some("")
  {
    NoPrefixIn("abc");
    ExtractBearerToken("abc");
    NoPrefixIn("a ");
    assert "Bearer a Bearer b" == BearerPrefix + "a " + BearerPrefix + "b";
    ExtractStopsAtNextPrefix("a ", "b");
    NoPrefixIn("");
    assert "Bearer " == BearerPrefix + "";
    ExtractBearerToken("");
  }

  /** A string shorter than the prefix does not contain it. */
  lemma NoPrefixIn(s: string)
    requires |s| < |BearerPrefix|
    ensures forall j :: !OccursAt(s, BearerPrefix, j)
  {
  }

  /** A missing header, one without the prefix, or the prefix alone: the request runs as the guest. */
  lemma GuestFallback(httpMethod: string, header: Option<string>, verify: Verifier)
    requires httpMethod != "OPTIONS"
    requires header.None? || !StartsWith(header.value, BearerPrefix) || header.value == BearerPrefix
    ensures Decide(httpMethod, header, verify) == Guest
  {
    if header.Some? && header.value == BearerPrefix {
      ExtractExamples();
    }
  }

  /** A token the verifier accepts with a uid claim authenticates as that uid. */
  lemma VerifiedTokenAuthenticates(httpMethod: string, token: string, verify: Verifier)
    requires httpMethod != "OPTIONS" && token != ""
    requires forall j :: !OccursAt(token, BearerPrefix, j)
    requires verify(token).Verified? && "uid" in verify(token).claims
    ensures Decide(httpMethod, Some(BearerPrefix + token), verify) == Authenticated(verify(token).claims["uid"])
  {
    ExtractBearerToken(token);
  }

  /** The request object: the decorator reads its method and header and writes `uid`. */
  class Request {
    const httpMethod: string
    const authorization: Option<string>
    var uid: Option<string>

    constructor (httpMethod: string, authorization: Option<string>)
      ensures this.httpMethod == httpMethod && this.authorization == authorization && uid.None?
    {
      this.httpMethod := httpMethod;
      this.authorization := authorization;
      uid := None;
    }
  }

  /** `decorated(*args, **kwargs)`: takes the decision, records the uid on the request, then calls
      the handler, except for a rejected token, which gets the 401 body and leaves uid as it was. */
  method TokenRequired(request: Request, verify: Verifier) returns (response: Response)
    modifies request
    ensures match Decide(request.httpMethod, request.authorization, verify)
      case PassThrough => request.uid == old(request.uid) && response == HandlerCalled(old(request.uid))
      case Guest => request.uid == Some(GuestUid) && response == HandlerCalled(Some(GuestUid))
      case Authenticated(u) => request.uid == Some(u) && response == HandlerCalled(Some(u))
      case InvalidToken(e) =>
        request.uid == old(request.uid) && response == Unauthorized(UnauthorizedStatus, InvalidTokenMessage, e)
  {
    if request.httpMethod == "OPTIONS" {
      return HandlerCalled(request.uid);
    }
    var idToken: Option<string> := None;
    var authHeader := request.authorization;
    if authHeader.Some? && authHeader.value != "" && StartsWith(authHeader.value, BearerPrefix) {
      idToken := SecondPiece(authHeader.value);
    }
    if NoToken(idToken) {
      request.uid := Some(GuestUid);
      return HandlerCalled(request.uid);
    }
    match verify(idToken.value)
    case Rejected(reason) =>
      return Unauthorized(UnauthorizedStatus, InvalidTokenMessage, reason);
    case Verified(claims) =>
      if "uid" !in claims {
        return Unauthorized(UnauthorizedStatus, InvalidTokenMessage, "'uid'");
      }
      request.uid := Some(claims["uid"]);
    response := HandlerCalled(request.uid);
  }
}
