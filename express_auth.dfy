/**
 * `server/middleware/authenticateUser.ts`: the two Express guards in front of
 * the legacy API. Each takes the second space-separated word of the
 * `Authorization` header as a JSON Web Token, checks it against the secret
 * from the environment and, when it verifies, records the payload's `userId`
 * on the request and passes control on; otherwise it answers 401, 500 or 403.
 * The scheme word is never looked at, and the two guards are the same code.
 */
module ExpressAuth {
  import opened Wrappers
  import opened JsString

  const UNAUTHORIZED_REQUEST := "Unauthorized request"
  const SECRET_NOT_DEFINED := "Internal Server Error: Secret Key is not defined"

  /** What a rejection sends: the `settings` envelope, or the bare message of
      the error `verify` threw. */
  datatype GuardBody = Settings(success: string, message: string) | Message(text: string)

  /** `verify(token, secret)`: the payload's `userId` (absent when the payload
      has none), or the message of the error it throws. */
  datatype Verification = Verified(userId: Option<string>) | Invalid(message: string)

  /** The guard's decision: pass on with the `req.user` it records, or answer. */
  datatype Decision = Proceed(user: Option<string>) | Reject(status: int, body: GuardBody)

  /** `authHeader && authHeader.split(" ")[1]`, with `undefined` as `None`.
      An empty header is falsy and is itself the result: the token "", which
      is not `null`, so it goes on to the verifier. A non-empty header yields
      a token exactly when it holds a space, and the token has no space. */
  function ExtractToken(header: Option<string>): (token: Option<string>)
    ensures token.None? <==> header.None? || (header.value != "" && ' ' !in header.value)
    ensures header == Some("") ==> token == Some("")
    ensures token.Some? ==> ' ' !in token.value
  {
    match header
    case None => None
    case Some(h) =>
      if h == "" then Some("")
      else
        var parts := SplitSpaces(h);
        if |parts| >= 2 then Some(parts[1]) else None
  }

  /** Whatever the words of the header are, the token is the second one: the
      scheme (`Bearer` or anything else) is never checked. */
  lemma SecondWordIsToken(words: seq<string>)
    requires |words| >= 2
    requires forall k | 0 <= k < |words| :: ' ' !in words[k]
    ensures ExtractToken(Some(JoinSpaces(words))) == Some(words[1])
  {
    SplitJoinSpaces(words);
    assert JoinSpaces(words) != "" by {
      assert JoinSpaces(words) == words[0] + " " + JoinSpaces(words[1..]);
    }
  }

  /** In particular `scheme token` gives `token` for every scheme. */
  lemma SchemeNeverChecked(scheme: string, token: string)
    requires ' ' !in scheme && ' ' !in token
    ensures ExtractToken(Some(scheme + " " + token)) == Some(token)
  {
    var words := [scheme, token];
    assert JoinSpaces(words[1..]) == token;
    assert JoinSpaces(words) == scheme + " " + token;
    SecondWordIsToken(words);
  }

  /** `!secretKey`: an unset or empty secret. */
  predicate SecretMissing(secret: Option<string>) {
    secret.None? || secret.value == ""
  }

  /** The decision both guards take. 401 exactly when there is no token; 500
      exactly when there is one but no secret, so the secret is looked at only
      after the token; 403 with the verifier's message when it throws;
      otherwise the payload's `userId` is passed on. */
  function Authenticate(header: Option<string>, secret: Option<string>,
                        verify: (string, string) -> Verification): (d: Decision)
    ensures d == Reject(401, Settings("0", UNAUTHORIZED_REQUEST)) <==> ExtractToken(header).None?
    ensures d == Reject(500, Settings("0", SECRET_NOT_DEFINED)) <==>
              ExtractToken(header).Some? && SecretMissing(secret)
    ensures d.Proceed? <==>
              ExtractToken(header).Some? && !SecretMissing(secret)
              && verify(ExtractToken(header).value, secret.value).Verified?
    ensures d.Proceed? ==> d.user == verify(ExtractToken(header).value, secret.value).userId
    ensures d.Reject? && d.status == 403 ==>
              d.body == Message(verify(ExtractToken(header).value, secret.value).message)
    ensures d.Reject? ==> d.status in {401, 403, 500}
  {
    var token := ExtractToken(header);
    if token.None? then Reject(401, Settings("0", UNAUTHORIZED_REQUEST))
    else if SecretMissing(secret) then Reject(500, Settings("0", SECRET_NOT_DEFINED))
    else match verify(token.value, secret.value)
      case Verified(userId) => Proceed(userId)
      case Invalid(message) => Reject(403, Message(message))
  }

  /** A well-formed `Authorization` header whose token verifies is let
      through with the payload's user, whatever its first word. */
  lemma VerifiedTokenPasses(scheme: string, token: string, secret: string,
                            verify: (string, string) -> Verification)
    requires ' ' !in scheme && ' ' !in token && secret != ""
    requires verify(token, secret).Verified?
    ensures Authenticate(Some(scheme + " " + token), Some(secret), verify)
         == Proceed(verify(token, secret).userId)
  {
    SchemeNeverChecked(scheme, token);
  }

  /** The Express request as the guards see it: its header, the `user` they
      record and how often `next` has been called. */
  class Request {
    const authorization: Option<string>
    var user: Option<string>
    var nextCalls: nat

    constructor (authorization: Option<string>)
      ensures this.authorization == authorization && user.None? && nextCalls == 0
    {
      this.authorization := authorization;
      user := None;
      nextCalls := 0;
    }
  }

  /** One run of a guard: on success `req.user` is set and `next` called once,
      and nothing is sent; otherwise the answer is sent and the request is
      left as it was. */
  method Guard(req: Request, secret: Option<string>, verify: (string, string) -> Verification)
    returns (sent: Option<(int, GuardBody)>)
    modifies req
    ensures Authenticate(req.authorization, secret, verify).Proceed? ==>
              && sent.None?
              && req.user == Authenticate(req.authorization, secret, verify).user
              && req.nextCalls == old(req.nextCalls) + 1
    ensures Authenticate(req.authorization, secret, verify).Reject? ==>
              && sent == Some((Authenticate(req.authorization, secret, verify).status,
                               Authenticate(req.authorization, secret, verify).body))
              && req.user == old(req.user) && req.nextCalls == old(req.nextCalls)
  {
    var token := ExtractToken(req.authorization);
    if token.None? {
      return Some((401, Settings("0", UNAUTHORIZED_REQUEST)));
    }
    if SecretMissing(secret) {
      return Some((500, Settings("0", SECRET_NOT_DEFINED)));
    }
    var payload := verify(token.value, secret.value);
    if payload.Invalid? {
      return Some((403, Message(payload.message)));
    }
    req.user := payload.userId;
    req.nextCalls := req.nextCalls + 1;
    sent := None;
  }

  /** `authenticateUser`. */
  method AuthenticateUser(req: Request, secret: Option<string>, verify: (string, string) -> Verification)
    returns (sent: Option<(int, GuardBody)>)
    modifies req
    ensures Authenticate(req.authorization, secret, verify).Proceed? ==>
              && sent.None?
              && req.user == Authenticate(req.authorization, secret, verify).user
              && req.nextCalls == old(req.nextCalls) + 1
    ensures Authenticate(req.authorization, secret, verify).Reject? ==>
              && sent == Some((Authenticate(req.authorization, secret, verify).status,
                               Authenticate(req.authorization, secret, verify).body))
              && req.user == old(req.user) && req.nextCalls == old(req.nextCalls)
  {
    sent := Guard(req, secret, verify);
  }

  /** `authenticateAdmin`: the same steps as `authenticateUser`; it does not
      look at any role, so every verified token passes both. */
  method AuthenticateAdmin(req: Request, secret: Option<string>, verify: (string, string) -> Verification)
    returns (sent: Option<(int, GuardBody)>)
    modifies req
    ensures Authenticate(req.authorization, secret, verify).Proceed? ==>
              && sent.None?
              && req.user == Authenticate(req.authorization, secret, verify).user
              && req.nextCalls == old(req.nextCalls) + 1
    ensures Authenticate(req.authorization, secret, verify).Reject? ==>
              && sent == Some((Authenticate(req.authorization, secret, verify).status,
                               Authenticate(req.authorization, secret, verify).body))
              && req.user == old(req.user) && req.nextCalls == old(req.nextCalls)
  {
    sent := Guard(req, secret, verify);
  }
}
