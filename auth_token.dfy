/**
 * The `/auth/token` route of the soul engine's cloud server as a decision function: the
 * parsed request body and the server's environment decide the response's status and JSON
 * body. The checks run in a fixed order: the soul id first, then the configuration, then
 * the signer.
 */
module AuthToken {
  import opened Wrappers
  import opened JsString
  import opened JsonValues

  /** The environment keys the route needs, in the order it checks them. */
  const RequiredEnv: seq<string> := [
    "SOUL_ENGINE_JWT_PRIVATE_KEY",
    "SOUL_ENGINE_JWT_ISSUER",
    "SOUL_ENGINE_ORGANIZATION",
    "SOUL_ENGINE_BLUEPRINT"
  ]

  const MissingSoulId: string := "Missing soulId"
  const MissingConfiguration: string := "Server missing auth configuration"
  const TokenFailed: string := "Failed to generate token"

  /** The JSON body of a response: `{ token }` or `{ error }`. */
  datatype Body = TokenBody(token: string) | ErrorBody(error: string)

  datatype Response = Response(status: int, body: Body)

  /** The argument of `issueTokenForEngine`. */
  datatype Claims = Claims(privateKey: string, issuer: string, organization: string,
                           blueprint: string, soulId: string)

  /** What signing does: it yields a token or throws. */
  datatype Signed = Issued(token: string) | Threw

  /** `process.env[key] ?? ""`. */
  function GetEnv(env: map<string, string>, key: string): string {
    if key in env then env[key] else ""
  }

  /**
   * `keys.filter(key => !getEnv(key))`: exactly the keys whose value is absent or empty,
   * in their original order.
   */
  function Missing(keys: seq<string>, env: map<string, string>): (r: seq<string>)
    ensures |r| <= |keys|
    ensures forall k :: k in r <==> k in keys && GetEnv(env, k) == ""
  {
    if keys == [] then []
    else (if GetEnv(env, keys[0]) == "" then [keys[0]] else []) + Missing(keys[1..], env)
  }

  /** The configuration check passes: no required key is missing. */
  predicate ConfigComplete(env: map<string, string>) {
    |Missing(RequiredEnv, env)| == 0
  }

  /** The configuration is complete exactly when every required key is set to a non-empty value. */
  lemma ConfigCompleteIff(env: map<string, string>)
    ensures ConfigComplete(env) <==> forall k :: k in RequiredEnv ==> k in env && env[k] != ""
  {
    var missing := Missing(RequiredEnv, env);
    if !ConfigComplete(env) {
      assert missing[0] in missing;
    }
  }

  /** `await c.req.json().catch(() => ({}))`: a body that does not parse reads as `{}`. */
  function Payload(parsed: Option<Json>): Json {
    parsed.GetOr(JObject(map[]))
  }

  /**
   * `typeof payload?.soulId === "string" ? payload.soulId.trim() : ""`. The result is
   * already trimmed; a non-empty one comes from a string `soulId` field of an object body;
   * and such a field is always read, trimmed.
   */
  function SoulIdOf(payload: Json): (r: string)
    ensures Trim(r) == r
    ensures r != "" ==> Property(payload, "soulId").Some? && Property(payload, "soulId").value.JString?
    ensures Property(payload, "soulId").Some? && Property(payload, "soulId").value.JString? ==>
      r == Trim(Property(payload, "soulId").value.s)
  {
    match Property(payload, "soulId")
    case Some(JString(s)) => TrimIdempotent(s); Trim(s)
    case _ => TrimNoSurroundingWhitespace(""); ""
  }

  /** The signer's argument: the four configured values and the trimmed soul id. */
  function ClaimsFor(env: map<string, string>, soulId: string): Claims {
    Claims(GetEnv(env, "SOUL_ENGINE_JWT_PRIVATE_KEY"), GetEnv(env, "SOUL_ENGINE_JWT_ISSUER"),
           GetEnv(env, "SOUL_ENGINE_ORGANIZATION"), GetEnv(env, "SOUL_ENGINE_BLUEPRINT"), soulId)
  }

  /** The route handler; `sign` stands for `issueTokenForEngine`. */
  function HandleAuthToken(parsed: Option<Json>, env: map<string, string>, sign: Claims -> Signed): (r: Response)
    ensures r.status == 200 || r.status == 400 || r.status == 500
    ensures r.status == 400 <==> SoulIdOf(Payload(parsed)) == ""
    ensures r.status == 400 ==> r.body == ErrorBody(MissingSoulId)
    ensures r.status == 200 <==>
      SoulIdOf(Payload(parsed)) != "" && ConfigComplete(env)
      && sign(ClaimsFor(env, SoulIdOf(Payload(parsed)))).Issued?
    ensures r.status == 200 ==> r.body == TokenBody(sign(ClaimsFor(env, SoulIdOf(Payload(parsed)))).token)
    ensures r.status == 500 ==>
      r.body == ErrorBody(if ConfigComplete(env) then TokenFailed else MissingConfiguration)
  {
    var soulId := SoulIdOf(Payload(parsed));
    if soulId == "" then Response(400, ErrorBody(MissingSoulId))
    else if !ConfigComplete(env) then Response(500, ErrorBody(MissingConfiguration))
    else match sign(ClaimsFor(env, soulId))
      case Issued(token) => Response(200, TokenBody(token))
      case Threw => Response(500, ErrorBody(TokenFailed))
  }

  /**
   * The soul id is checked before anything else: a request without a usable one gets 400
   * whatever the configuration and the signer.
   */
  lemma {:induction false} SoulIdCheckedFirst(parsed: Option<Json>, env1: map<string, string>, env2: map<string, string>,
                                              sign1: Claims -> Signed, sign2: Claims -> Signed)
    requires SoulIdOf(Payload(parsed)) == ""
    ensures HandleAuthToken(parsed, env1, sign1) == HandleAuthToken(parsed, env2, sign2)
    ensures HandleAuthToken(parsed, env1, sign1) == Response(400, ErrorBody(MissingSoulId))
  {
  }

  /**
   * The configuration error does not say which key is missing: two incomplete environments
   * give the same response to the same request, and the signer is never consulted.
   */
  lemma ConfigErrorHidesKey(parsed: Option<Json>, env1: map<string, string>, env2: map<string, string>,
                            sign1: Claims -> Signed, sign2: Claims -> Signed)
    requires SoulIdOf(Payload(parsed)) != ""
    requires !ConfigComplete(env1) && !ConfigComplete(env2)
    ensures HandleAuthToken(parsed, env1, sign1) == HandleAuthToken(parsed, env2, sign2)
      == Response(500, ErrorBody(MissingConfiguration))
  {
  }

  /**
   * On success the signer was given a soul id that is already trimmed and not empty, and
   * the configuration was complete.
   */
  lemma {:induction false} SignerSeesTrimmedId(parsed: Option<Json>, env: map<string, string>, sign: Claims -> Signed)
    requires HandleAuthToken(parsed, env, sign).status == 200
    ensures var soulId := ClaimsFor(env, SoulIdOf(Payload(parsed))).soulId;
      soulId != "" && Trim(soulId) == soulId
    ensures ConfigComplete(env)
  {
  }

  /** A body that does not parse is answered like the empty object: 400. */
  lemma UnparseableIsMissingSoulId(env: map<string, string>, sign: Claims -> Signed)
    ensures HandleAuthToken(None, env, sign) == Response(400, ErrorBody(MissingSoulId))
  {
  }
}
