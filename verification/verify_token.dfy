/** The `verifyToken` middleware of server/middleware/verifyToken.js: it takes the
    second space-separated segment of the Authorization header as the token and
    answers 401, answers 403, or stores the decoded claims on the request and
    passes it on. Checking the signature and the expiry (`jwt.verify` against the
    server's secret and the clock) is the parameter `verify`. */
module Auth {
  import opened Common

  /** JavaScript's `s.split(sep)` for a one-character separator. */
  function Split(s: string, sep: char): (parts: seq<string>)
    ensures |parts| >= 1
    ensures forall i :: 0 <= i < |parts| ==> sep !in parts[i]
    ensures |parts| == 1 <==> sep !in s
    ensures Join(parts, sep) == s
    decreases |s|
  {
    if s == [] then [[]]
    else
      var rest := Split(s[1..], sep);
      if s[0] == sep then [[]] + rest
      else [[s[0]] + rest[0]] + rest[1..]
  }

  /** JavaScript's `parts.join(sep)`. */
  function Join(parts: seq<string>, sep: char): string
    requires |parts| >= 1
    decreases |parts|
  {
    if |parts| == 1 then parts[0] else parts[0] + [sep] + Join(parts[1..], sep)
  }

  /** A separator-free word followed by the separator starts a new segment. */
  lemma {:induction false} SplitAfterWord(w: string, sep: char, rest: string)
    requires sep !in w
    ensures Split(w + [sep] + rest, sep) == [w] + Split(rest, sep)
    decreases |w|
  {
    if w == [] {
      assert w + [sep] + rest == [sep] + rest;
    } else {
      var s := w + [sep] + rest;
      assert s[0] == w[0] && s[0] != sep;
      assert s[1..] == w[1..] + [sep] + rest;
      SplitAfterWord(w[1..], sep, rest);
      var r := Split(s[1..], sep);
      assert r == [w[1..]] + Split(rest, sep);
      assert Split(s, sep) == [[s[0]] + r[0]] + r[1..];
      assert [s[0]] + r[0] == w;
    }
  }

  /** Joining separator-free pieces and splitting again gives the pieces back. */
  lemma {:induction false} SplitJoin(parts: seq<string>, sep: char)
    requires |parts| >= 1
    requires forall i :: 0 <= i < |parts| ==> sep !in parts[i]
    ensures Split(Join(parts, sep), sep) == parts
    decreases |parts|
  {
    if |parts| == 1 {
      var p := Split(parts[0], sep);
      assert |p| == 1;
    } else {
      SplitJoin(parts[1..], sep);
      SplitAfterWord(parts[0], sep, Join(parts[1..], sep));
    }
  }

  /** `authorization?.split(' ')[1]`: None when the header is absent or has no
      space (the index is `undefined`), otherwise the second segment, which may
      be empty. */
  function BearerToken(authorization: Option<string>): (token: Option<string>)
    ensures token.Some? <==> authorization.Some? && ' ' in authorization.value
    ensures token.Some? ==> ' ' !in token.value
  {
    match authorization
    case None => None
    case Some(h) =>
      var parts := Split(h, ' ');
      if |parts| < 2 then None else Some(parts[1])
  }

  /** The three ways a call of the middleware ends. */
  datatype GuardOutcome =
    | MissingToken            // 401 'Missing token'
    | InvalidToken            // 403 'Invalid token'
    | Proceed(claims: Claims) // req.user := claims; next()

  /** The middleware's decision. A token that is absent or empty is "missing"
      (`!token`); any failure of `verify` is "invalid". */
  function Guard(authorization: Option<string>, verify: string -> Option<Claims>): (g: GuardOutcome)
    ensures authorization.None? ==> g.MissingToken?
    ensures g.MissingToken? <==> BearerToken(authorization) in {None, Some("")}
    ensures g.InvalidToken? ==>
      exists t :: t != "" && BearerToken(authorization) == Some(t) && verify(t).None?
    ensures g.Proceed? ==>
      exists t :: t != "" && BearerToken(authorization) == Some(t) && verify(t) == Some(g.claims)
  {
    var token := BearerToken(authorization);
    if token.None? || token.value == "" then MissingToken
    else match verify(token.value)
      case None => InvalidToken
      case Some(c) => Proceed(c)
  }

  /** The scheme word is never looked at: any space-free first segment gives the
      same token, namely the first segment of what follows the first space. */
  lemma SchemeNotInspected(scheme: string, rest: string)
    requires ' ' !in scheme
    ensures BearerToken(Some(scheme + " " + rest)) == Some(Split(rest, ' ')[0])
  {
    SplitAfterWord(scheme, ' ', rest);
  }

  /** Segments after the second are ignored. */
  lemma LaterSegmentsIgnored(scheme: string, token: string, more: string)
    requires ' ' !in scheme && ' ' !in token
    ensures BearerToken(Some(scheme + " " + token + " " + more)) == Some(token)
  {
    SplitAfterWord(token, ' ', more);
    assert scheme + " " + token + " " + more == scheme + " " + (token + " " + more);
    SchemeNotInspected(scheme, token + " " + more);
  }

  /** A header that is `Bearer ` followed by a non-empty, space-free token (a
      compact JWS is one) reaches `verify` with exactly that token. */
  lemma BearerRoundTrip(token: string, verify: string -> Option<Claims>)
    requires token != "" && ' ' !in token
    ensures BearerToken(Some("Bearer " + token)) == Some(token)
    ensures Guard(Some("Bearer " + token), verify)
         == if verify(token).Some? then Proceed(verify(token).value) else InvalidToken
  {
    SplitJoin(["Bearer", token], ' ');
    assert Join(["Bearer", token], ' ') == "Bearer " + token;
  }

  /** The header forms that carry no usable token all answer 401. */
  lemma MalformedHeadersAreMissing(verify: string -> Option<Claims>)
    ensures Guard(Some("Bearer"), verify) == MissingToken
    ensures Guard(Some("Bearer "), verify) == MissingToken
    ensures Guard(Some("Bearer  x"), verify) == MissingToken
  {
  }

  /** One request/response pair as the middleware sees it. */
  class Exchange {
    var user: Option<Claims>   // req.user
    var status: Option<nat>    // the status of the response sent, if any
    var message: string        // the message of that response
    var nextCalls: nat         // how many times next() was called

    constructor ()
      ensures user == None && status == None && message == "" && nextCalls == 0
    {
      user, status, message, nextCalls := None, None, "", 0;
    }
  }

  /** `verifyToken(req, res, next)`. Exactly one of: a 401 response, a 403
      response, or `req.user` set to the decoded claims and one call of `next`. */
  method VerifyToken(ex: Exchange, authorization: Option<string>, verify: string -> Option<Claims>)
    modifies ex
    ensures match Guard(authorization, verify)
      case MissingToken =>
        && ex.status == Some(401) && ex.message == "Missing token"
        && ex.user == old(ex.user) && ex.nextCalls == old(ex.nextCalls)
      case InvalidToken =>
        && ex.status == Some(403) && ex.message == "Invalid token"
        && ex.user == old(ex.user) && ex.nextCalls == old(ex.nextCalls)
      case Proceed(c) =>
        && ex.user == Some(c) && ex.nextCalls == old(ex.nextCalls) + 1
        && ex.status == old(ex.status) && ex.message == old(ex.message)
  {
    var token := BearerToken(authorization);
    if token.None? || token.value == "" {
      ex.status, ex.message := Some(401), "Missing token";
      return;
    }
    var decoded := verify(token.value);
    if decoded.None? {
      ex.status, ex.message := Some(403), "Invalid token";
    } else {
      ex.user := decoded;
      ex.nextCalls := ex.nextCalls + 1;
    }
  }
}
