/**
 * The token callback the chat page hands to the Soul SDK: it posts the soul id to the
 * server's `/auth/token` route and settles with the token or an error. Joined with the
 * route's decision function, it shows when a page obtains a token at all.
 */
module TokenExchange {
  import opened Wrappers
  import opened JsString
  import opened JsonValues
  import opened AuthToken

  const FetchFailed: string := "Failed to fetch auth token"
  const TokenMissing: string := "Auth token missing from response"

  /** What `fetch` resolves to: the status, and the body parsed as JSON (None when it is not JSON). */
  datatype HttpReply = HttpReply(status: int, body: Option<Json>)

  /**
   * Why the callback rejects: an `Error` it throws with its message, the body failing to
   * parse as JSON, or the body being `null` (reading `.token` of null throws a TypeError).
   */
  datatype Rejection = Failure(message: string) | UnparseableBody | NullBody

  /** `response.ok`. */
  predicate OkStatus(status: int) {
    200 <= status <= 299
  }

  /**
   * The callback's decision on the reply: not ok rejects with "Failed to fetch auth token";
   * a falsy or absent `token` rejects with "Auth token missing from response"; otherwise the
   * token value is returned as it is, whatever its JSON type.
   */
  function TokenCallback(reply: HttpReply): (r: Result<Json, Rejection>)
    ensures !OkStatus(reply.status) ==> r == Err(Failure(FetchFailed))
    ensures r.Ok? ==>
      && OkStatus(reply.status) && reply.body.Some?
      && Property(reply.body.value, "token") == Some(r.value) && TruthyJson(r.value)
    ensures OkStatus(reply.status) && reply.body.Some? && reply.body.value != JNull ==>
      (r.Ok? <==> Property(reply.body.value, "token").Some? && TruthyJson(Property(reply.body.value, "token").value))
    ensures r.Err? && OkStatus(reply.status) && reply.body.Some? && reply.body.value != JNull ==>
      r.error == Failure(TokenMissing)
  {
    if !OkStatus(reply.status) then Err(Failure(FetchFailed))
    else match reply.body
      case None => Err(UnparseableBody)
      case Some(JNull) => Err(NullBody)
      case Some(data) =>
        match Property(data, "token")
        case Some(token) => if TruthyJson(token) then Ok(token) else Err(Failure(TokenMissing))
        case None => Err(Failure(TokenMissing))
  }

  /** `JSON.stringify({ soulId })` as the server parses it. */
  function RequestBody(soulId: string): Json {
    Single("soulId", JString(soulId))
  }

  /** `c.json(body, status)` as the page's `response.json()` reads it. */
  function ReplyOf(response: Response): HttpReply {
    match response.body
    case TokenBody(token) => HttpReply(response.status, Some(Single("token", JString(token))))
    case ErrorBody(error) => HttpReply(response.status, Some(Single("error", JString(error))))
  }

  /** The server reads back the soul id the page sent, trimmed. */
  lemma RequestSoulId(soulId: string)
    ensures SoulIdOf(Payload(Some(RequestBody(soulId)))) == Trim(soulId)
  {
  }

  /**
   * A page obtains a token exactly when its soul id is not blank, the server is configured,
   * and the signer issues a non-empty token for the trimmed id; the token it gets is that one.
   * Every other exchange rejects with one of the page's two messages: a server that signs
   * an empty token answers 200, and the page still refuses it.
   */
  lemma {:induction false} Exchange(soulId: string, env: map<string, string>, sign: Claims -> Signed)
    ensures var signed := sign(ClaimsFor(env, Trim(soulId)));
      var r := TokenCallback(ReplyOf(HandleAuthToken(Some(RequestBody(soulId)), env, sign)));
      && (r.Ok? <==> Trim(soulId) != "" && ConfigComplete(env) && signed.Issued? && signed.token != "")
      && (r.Ok? ==> r.value == JString(signed.token))
      && (r.Err? ==> r.error == Failure(FetchFailed) || r.error == Failure(TokenMissing))
      && (r == Err(Failure(TokenMissing)) <==>
            Trim(soulId) != "" && ConfigComplete(env) && signed == Issued(""))
  {
    RequestSoulId(soulId);
    DistinctMessages();
    var signed := sign(ClaimsFor(env, Trim(soulId)));
    var response := HandleAuthToken(Some(RequestBody(soulId)), env, sign);
    var r := TokenCallback(ReplyOf(response));
    if response.status == 200 {
      assert response == Response(200, TokenBody(signed.token));
      TokenReply(signed.token);
      assert r == if signed.token != "" then Ok(JString(signed.token)) else Err(Failure(TokenMissing));
    } else {
      ErrorReply(response);
      assert r == Err(Failure(FetchFailed));
      assert !(Trim(soulId) != "" && ConfigComplete(env) && signed.Issued?);
    }
  }

  /** A 200 reply carrying `token`: the page takes it when it is not empty. */
  lemma TokenReply(token: string)
    ensures TokenCallback(ReplyOf(Response(200, TokenBody(token)))) ==
      if token != "" then Ok(JString(token)) else Err(Failure(TokenMissing))
  {
    var data := Single("token", JString(token));
    assert ReplyOf(Response(200, TokenBody(token))) == HttpReply(200, Some(data));
    assert Property(data, "token") == Some(JString(token));
  }

  /** A reply whose status is not 2xx is refused before its body is read. */
  lemma ErrorReply(response: Response)
    requires response.status == 400 || response.status == 500
    ensures TokenCallback(ReplyOf(response)) == Err(Failure(FetchFailed))
  {
    assert ReplyOf(response).status == response.status;
  }

  lemma DistinctMessages()
    ensures FetchFailed != TokenMissing
  {
    assert FetchFailed[0] != TokenMissing[0];
  }
}
