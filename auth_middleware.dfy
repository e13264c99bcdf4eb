/**
 * The bearer-token gate (`protect`). It reads the `Authorization` header,
 * takes the second space-separated piece as the token, verifies it, and
 * either sets `req.user` and calls `next()` or writes 401 replies. The
 * prefix test is `startsWith('Bearer')`, weaker than the `Bearer` scheme of
 * section 2.1 of RFC 6750: no space is required after the word, and the
 * token is cut at the next space. When no token comes out of the header the
 * failed verification writes one 401 and the "no token" test writes a
 * second one.
 */
module AuthMiddleware {
  import opened Wrappers
  import opened JsText
  import opened Http
  import opened Crypto

  const NoToken := Reply(401, Message("Tidak diotorisasi, tidak ada token."))
  const TokenFailed := Reply(401, Message("Tidak diotorisasi, token gagal."))

  /** `authorization.split(' ')[1]`: undefined exactly when the header has
      no space; otherwise the text between the first space and the next
      space (or the end). */
  function TokenPart(authorization: string): (t: Option<string>)
    ensures t.None? <==> ' ' !in authorization
    ensures t.Some? ==> ' ' !in t.value
    ensures t.Some? ==> exists a, b :: SecondPiece(authorization, a, t.value, b)
  {
    var parts := Split(authorization, ' ');
    JoinSplit(authorization, ' ');
    if |parts| >= 2 then
      var rest := if |parts| == 2 then "" else " " + Join(parts[2..], ' ');
      assert parts[1..][1..] == parts[2..];
      assert SecondPiece(authorization, parts[0], parts[1], rest);
      Some(parts[1])
    else
      None
  }

  /** `header` reads `a`, a space, `piece`, then `b`, where `a` holds no
      space and `b` is empty or starts with one: `piece` is the second
      space-separated piece. */
  ghost predicate SecondPiece(header: string, a: string, piece: string, b: string)
  {
    header == a + " " + piece + b && ' ' !in a && (b == [] || b[0] == ' ')
  }

  /** `jwt.verify(token, secret)` as the gate calls it: an undefined or empty
      token throws ("jwt must be provided") before the signature is looked
      at; any other token is judged by `verifier` (signature and expiry). */
  function VerifyToken(token: Option<string>, verifier: string -> Option<UserId>): (decoded: Option<UserId>)
    ensures Truthy(token) ==> decoded == verifier(token.value)
    ensures !Truthy(token) ==> decoded == None
  {
    if Truthy(token) then verifier(token.value) else None
  }

  /** The header passes the gate's first test. */
  predicate BearerPrefixed(authorization: Option<string>)
  {
    Truthy(authorization) && StartsWith(authorization.value, "Bearer")
  }

  /** What one request through the gate does: the replies written, in order,
      how many times `next` runs, and the id put into `req.user`, if any. */
  datatype GateOutcome = GateOutcome(writes: seq<Reply>, nextCalls: nat, user: Option<UserId>)

  /** The gate as a table of cases over the header: no bearer prefix; a
      bearer prefix with no token piece; a token the verifier refuses; a
      token it accepts. */
  function Gate(authorization: Option<string>, verifier: string -> Option<UserId>): GateOutcome
  {
    if !BearerPrefixed(authorization) then GateOutcome([NoToken], 0, None)
    else
      match TokenPart(authorization.value)
      case None => GateOutcome([TokenFailed, NoToken], 0, None)
      case Some(t) =>
        if t == "" then GateOutcome([TokenFailed, NoToken], 0, None)
        else match verifier(t)
          case None => GateOutcome([TokenFailed], 0, None)
          case Some(id) => GateOutcome([], 1, Some(id))
  }

  /** One request and its response, as the middleware sees them. */
  class Exchange {
    const authorization: Option<string>   // req.headers.authorization
    var user: Option<UserId>              // req.user
    var sent: seq<Reply>                  // every res.status(..).json(..) call, in order
    var nextCalls: nat                    // how often next() ran

    constructor (authorization: Option<string>)
      ensures this.authorization == authorization
      ensures user == None && sent == [] && nextCalls == 0
    {
      this.authorization := authorization;
      user := None;
      sent := [];
      nextCalls := 0;
    }

    /** `protect`, step by step as written; its effect is the case table `Gate`. */
    method Protect(verifier: string -> Option<UserId>)
      modifies this`user, this`sent, this`nextCalls
      ensures sent == old(sent) + Gate(authorization, verifier).writes
      ensures nextCalls == old(nextCalls) + Gate(authorization, verifier).nextCalls
      ensures user == if Gate(authorization, verifier).user.Some? then Gate(authorization, verifier).user else old(user)
    {
      var token: Option<string> := None;
      if Truthy(authorization) && StartsWith(authorization.value, "Bearer") {
        token := TokenPart(authorization.value);
        var decoded := VerifyToken(token, verifier);
        if decoded.Some? {
          user := Some(decoded.value);
          nextCalls := nextCalls + 1;
        } else {
          sent := sent + [TokenFailed];   // the catch block
        }
      }
      if !Truthy(token) {
        sent := sent + [NoToken];
      }
    }
  }

  // -----------------------------------------------------------------------
  // Properties of the gate

  /** Every request either reaches `next`, exactly once and with nothing
      written, or is answered with 401 and never reaches it; `req.user` is
      set exactly when `next` runs. */
  lemma GateAdmitsOrRejects(authorization: Option<string>, verifier: string -> Option<UserId>)
    ensures var g := Gate(authorization, verifier);
      && g.nextCalls <= 1
      && (g.nextCalls == 1 <==> g.writes == [])
      && (g.nextCalls == 1 <==> g.user.Some?)
      && forall k :: 0 <= k < |g.writes| ==> g.writes[k].status == 401
  {
  }

  /** `next` runs exactly when the header carries a non-empty token piece
      that the verifier accepts, and `req.user` is the id it decoded. */
  lemma GateAdmitsExactlyVerified(authorization: Option<string>, verifier: string -> Option<UserId>)
    ensures var g := Gate(authorization, verifier);
      g.nextCalls == 1 <==>
        BearerPrefixed(authorization) && VerifyToken(TokenPart(authorization.value), verifier).Some?
    ensures var g := Gate(authorization, verifier);
      g.nextCalls == 1 ==> g.user == VerifyToken(TokenPart(authorization.value), verifier)
  {
  }

  /** Without a bearer prefix, exactly one "no token" reply. */
  lemma GateWithoutBearer(authorization: Option<string>, verifier: string -> Option<UserId>)
    requires !BearerPrefixed(authorization)
    ensures Gate(authorization, verifier) == GateOutcome([NoToken], 0, None)
  {
  }

  /** Two replies are written exactly when the header has the bearer prefix
      but no token piece comes out of it: first "token failed", then "no
      token". In every other case at most one reply is written. */
  lemma GateDoubleReply(authorization: Option<string>, verifier: string -> Option<UserId>)
    ensures var g := Gate(authorization, verifier);
      |g.writes| == 2 <==> BearerPrefixed(authorization) && !Truthy(TokenPart(authorization.value))
    ensures var g := Gate(authorization, verifier);
      |g.writes| == 2 ==> g.writes == [TokenFailed, NoToken]
    ensures |Gate(authorization, verifier).writes| <= 2
  {
  }

  /** A header `Bearer <t>`, with `t` non-empty and free of spaces, hands
      exactly `t` to the verifier. */
  lemma {:induction false} TokenPartOfBearer(t: string)
    requires t != "" && ' ' !in t
    ensures BearerPrefixed(Some("Bearer " + t))
    ensures TokenPart("Bearer " + t) == Some(t)
  {
    var header := "Bearer " + t;
    assert header[..6] == "Bearer";
    assert header == Join(["Bearer", t], ' ');
    SplitJoin(["Bearer", t], ' ');
  }

  /** `Bearer <t>` with a good token: `next` once, `req.user` set, nothing written. */
  lemma GateAcceptsValidBearer(t: string, verifier: string -> Option<UserId>, id: UserId)
    requires t != "" && ' ' !in t && verifier(t) == Some(id)
    ensures Gate(Some("Bearer " + t), verifier) == GateOutcome([], 1, Some(id))
  {
    TokenPartOfBearer(t);
  }

  /** `Bearer <t>` with a token the verifier refuses: one "token failed" reply. */
  lemma GateRefusesInvalidBearer(t: string, verifier: string -> Option<UserId>)
    requires t != "" && ' ' !in t && verifier(t) == None
    ensures Gate(Some("Bearer " + t), verifier) == GateOutcome([TokenFailed], 0, None)
  {
    TokenPartOfBearer(t);
  }

  /** The prefix test is case-sensitive and needs no space after the word:
      `Bearerxyz` takes the bearer branch (and, having no token piece, gets
      both replies), `bearer xyz` does not. */
  lemma PrefixTestIsLiteral(verifier: string -> Option<UserId>)
    ensures BearerPrefixed(Some("Bearerxyz"))
    ensures Gate(Some("Bearerxyz"), verifier) == GateOutcome([TokenFailed, NoToken], 0, None)
    ensures Gate(Some("bearer xyz"), verifier) == GateOutcome([NoToken], 0, None)
  {
  }

  /** `Bearer` alone has no token piece, so both replies are written. */
  lemma BearerAloneDoubleReply(verifier: string -> Option<UserId>)
    ensures Gate(Some("Bearer"), verifier) == GateOutcome([TokenFailed, NoToken], 0, None)
  {
  }

  /** `Bearer  x` (two spaces) has an empty token piece, so both replies are written. */
  lemma DoubleSpaceDoubleReply(verifier: string -> Option<UserId>)
    ensures Gate(Some("Bearer  x"), verifier) == GateOutcome([TokenFailed, NoToken], 0, None)
  {
  }

  /** A token issued at login and presented as `Bearer <token>` is accepted
      strictly before its expiry, with `req.user` its id, and refused with a
      single reply from then on. */
  lemma IssuedTokenAcceptedUntilExpiry(jwt: Jwt, secret: string, token: Token, now: int)
    requires JwtSound(jwt)
    ensures var header := Some("Bearer " + jwt.sign(token, secret));
      Gate(header, t => jwt.verify(t, secret, now)) ==
        if now < token.expiresAt then GateOutcome([], 1, Some(token.id))
        else GateOutcome([TokenFailed], 0, None)
  {
    var signed := jwt.sign(token, secret);
    TokenPartOfBearer(signed);
  }
}
