/** The preview-token manager (`SandboxClient.previewTokens`): request bodies and
    the mapping of token responses, with their absence rules. Dates are carried
    as the ISO-8601 text the wire uses. */
module PreviewTokens {
  import opened Wrappers
  import opened Responses

  /** A token as the API returns it; the secret `token` only on creation. */
  datatype WireToken = WireToken(
    token: Option<string>,
    token_id: string,
    token_prefix: string,
    expires_at: Option<string>,
    last_used_at: Option<string>)

  /** Response of create and update. */
  datatype TokenResponse = TokenResponse(token: Option<WireToken>)

  /** Response of list. */
  datatype TokenListResponse = TokenListResponse(tokens: Option<seq<WireToken>>)

  /** What `create` returns. */
  datatype PreviewToken = PreviewToken(
    token: string,
    expiresAt: Option<string>,
    tokenId: string,
    tokenPrefix: string,
    lastUsedAt: Option<string>)

  /** What `list` and `update` return for each token. */
  datatype TokenInfo = TokenInfo(
    expiresAt: Option<string>,
    tokenId: string,
    tokenPrefix: string,
    lastUsedAt: Option<string>)

  /** Body of create and update: `expires_at` left out for "no expiry"
      (create sends the caller's expiry, or none, as given). */
  datatype ExpiryBody = ExpiryBody(expires_at: Option<string>)

  /** An update (or revoke) request: the token's id in the path, and the body. */
  datatype UpdateRequest = UpdateRequest(sandboxId: string, tokenId: string, body: ExpiryBody)

  /** `s ? new Date(s) : null`: a missing or empty timestamp becomes null. */
  function DateOrNull(s: Option<string>): (r: Option<string>)
    ensures r.Some? <==> s.Some? && s.value != ""
    ensures r.Some? ==> r.value == s.value
  {
    if s.Some? && s.value != "" then s else None
  }

  /** The non-secret fields of a token. */
  function InfoOf(w: WireToken): (r: TokenInfo)
    ensures r.tokenId == w.token_id && r.tokenPrefix == w.token_prefix
    ensures r.expiresAt == DateOrNull(w.expires_at) && r.lastUsedAt == DateOrNull(w.last_used_at)
  {
    TokenInfo(DateOrNull(w.expires_at), w.token_id, w.token_prefix, DateOrNull(w.last_used_at))
  }

  /** A response whose token carries a truthy secret. */
  predicate HasSecret(resp: TokenResponse) {
    resp.token.Some? && resp.token.value.token.Some? && resp.token.value.token.value != ""
  }

  /** `create`: fails when the resolver fails, or when the response has no token
      or a token without a (non-empty) secret. */
  function Create(response: Transport<TokenResponse>): (r: Result<PreviewToken, Error>)
    ensures r.Success? <==> response.Some? && HasSecret(response.value)
    ensures response.None? ==> r == Failure(RequestFailed("Failed to create preview token"))
    ensures response.Some? && !HasSecret(response.value) ==> r == Failure(NoTokenReturned)
    ensures r.Success? ==> r.value.token == response.value.token.value.token.value
    ensures r.Success? ==>
      var info := InfoOf(response.value.token.value);
      && r.value.tokenId == info.tokenId && r.value.tokenPrefix == info.tokenPrefix
      && r.value.expiresAt == info.expiresAt && r.value.lastUsedAt == info.lastUsedAt
  {
    match Handle(response, "Failed to create preview token")
    case Failure(e) => Failure(e)
    case Success(resp) =>
      if !HasSecret(resp) then Failure(NoTokenReturned)
      else
        var w := resp.token.value;
        var info := InfoOf(w);
        Success(PreviewToken(w.token.value, info.expiresAt, info.tokenId, info.tokenPrefix, info.lastUsedAt))
  }

  /** `list`: an absent `tokens` field is an empty list, not an error; otherwise
      one entry per token, in order. */
  function List(response: Transport<TokenListResponse>): (r: Result<seq<TokenInfo>, Error>)
    ensures r.Success? <==> response.Some?
    ensures r.Failure? ==> r.error == RequestFailed("Failed to list preview tokens")
    ensures response.Some? && response.value.tokens.None? ==> r.value == []
    ensures response.Some? && response.value.tokens.Some? ==>
      var ws := response.value.tokens.value;
      |r.value| == |ws| && forall i :: 0 <= i < |ws| ==> r.value[i] == InfoOf(ws[i])
  {
    match Handle(response, "Failed to list preview tokens")
    case Failure(e) => Failure(e)
    case Success(resp) =>
      match resp.tokens
      case None => Success([])
      case Some(ws) => Success(seq(|ws|, i requires 0 <= i < |ws| => InfoOf(ws[i])))
  }

  /** The request of `update(sandboxId, tokenId, expiresAt)`. */
  function UpdateRequestOf(sandboxId: string, tokenId: string, expiresAt: Option<string>): (q: UpdateRequest)
    ensures q.tokenId == tokenId && q.sandboxId == sandboxId && q.body.expires_at == expiresAt
  {
    UpdateRequest(sandboxId, tokenId, ExpiryBody(expiresAt))
  }

  /** `update`: fails when the resolver fails or the response has no token; the
      secret is not required and not returned. */
  function Update(response: Transport<TokenResponse>): (r: Result<TokenInfo, Error>)
    ensures r.Success? <==> response.Some? && response.value.token.Some?
    ensures response.None? ==> r == Failure(RequestFailed("Failed to update preview token"))
    ensures response.Some? && response.value.token.None? ==> r == Failure(NoTokenReturned)
    ensures r.Success? ==> r.value.tokenId == response.value.token.value.token_id
    ensures r.Success? ==> r.value.expiresAt.Some? ==> response.value.token.value.expires_at == r.value.expiresAt
    ensures r.Success? ==> r.value == InfoOf(response.value.token.value)
  {
    match Handle(response, "Failed to update preview token")
    case Failure(e) => Failure(e)
    case Success(resp) =>
      match resp.token
      case None => Failure(NoTokenReturned)
      case Some(w) => Success(InfoOf(w))
  }

  /** `revoke(sandboxId, tokenId)`: an update whose expiry is the current time
      `now`, not a deletion. */
  function RevokeRequestOf(sandboxId: string, tokenId: string, now: string): (q: UpdateRequest)
    ensures q == UpdateRequestOf(sandboxId, tokenId, Some(now))
    ensures q.body.expires_at.Some?
  {
    UpdateRequest(sandboxId, tokenId, ExpiryBody(Some(now)))
  }

  /** `revoke` and `revokeAll` return nothing; they only surface a failure. */
  function RevokeOutcome(response: Transport<()>, all: bool): (r: Result<(), Error>)
    ensures r.Success? <==> response.Some?
    ensures r.Failure? ==>
      r.error == RequestFailed(if all then "Failed to revoke preview tokens" else "Failed to revoke preview token")
  {
    Handle(response, if all then "Failed to revoke preview tokens" else "Failed to revoke preview token")
  }

  /** Whenever `create` succeeds on a response, `update` on the same response
      succeeds too and reports the same non-secret fields. */
  lemma CreateAndUpdateAgree(response: Transport<TokenResponse>)
    requires Create(response).Success?
    ensures Update(response).Success?
    ensures var c := Create(response).value;
      Update(response).value == TokenInfo(c.expiresAt, c.tokenId, c.tokenPrefix, c.lastUsedAt)
  {
  }
}
