/** The OAuth2 client-credentials token cache of lib/paxum/token.ts: one
    mutable slot holding the last token and the instant it stops being used,
    60 seconds before the provider's own expiry. */
module PaxumToken {
  import opened Outcomes
  import opened JsText
  import opened PaymentModel

  const DefaultOAuthUrl: string := "https://oauth.paxos.com/oauth2/token"
  /** The phrase the create-payment route looks for in an error message. */
  const MissingCredentialsPhrase: string := "Missing Paxum credentials"
  const MissingCredentialsMessage: string :=
    MissingCredentialsPhrase + ": PAXUM_CLIENT_ID and PAXUM_CLIENT_SECRET are required"
  /** Seconds subtracted from the provider's `expires_in` before caching. */
  const SafetyMarginSeconds: int := 60

  /** The cached token and its expiry instant in epoch milliseconds. */
  datatype CachedToken = CachedToken(accessToken: string, expiresAt: int)

  /** PAXUM_CLIENT_ID, PAXUM_CLIENT_SECRET and PAXUM_OAUTH_URL; "" stands for unset. */
  datatype TokenConfig = TokenConfig(clientId: string, clientSecret: string, oauthUrl: string)

  /** The form-encoded client-credentials POST sent to the token endpoint. */
  datatype TokenRequest = TokenRequest(url: string, clientId: string, clientSecret: string)

  /** The result of one `getPaxumToken` call: what it returns or throws, the
      cache afterwards, and the token request it sent, if any. */
  datatype TokenStep = TokenStep(result: Outcome<string>, cache: Option<CachedToken>, request: Option<TokenRequest>)

  /** The reply to `getTokenInfo`. */
  datatype TokenInfo = TokenInfo(hasToken: bool, expiresAt: Option<int>)

  /** The cache is used only while its expiry lies strictly in the future. */
  predicate IsFresh(cache: Option<CachedToken>, now: int) {
    cache.Some? && cache.value.expiresAt > now
  }

  function TokenEndpoint(cfg: TokenConfig): string {
    if cfg.oauthUrl == "" then DefaultOAuthUrl else cfg.oauthUrl
  }

  function TokenFailureMessage(status: nat, text: string): string {
    "Failed to get Paxum token: " + NatToString(status) + " " + text
  }

  /** The expiry stored for a token granted at `receivedAt` for `expiresIn` seconds. */
  function CacheExpiry(receivedAt: int, expiresIn: int): int {
    receivedAt + (expiresIn - SafetyMarginSeconds) * 1000
  }

  /** One call of `getPaxumToken` on cache `cache`: `now` is the clock at the
      cache check, `reply` the token endpoint's answer (used only when a request
      is sent) and `receivedAt` the clock when that answer has been read. */
  function GetTokenStep(cache: Option<CachedToken>, now: int, cfg: TokenConfig,
                        reply: HttpReply<TokenResponse>, receivedAt: int): (r: TokenStep)
    ensures r.request.Some? <==> !IsFresh(cache, now) && cfg.clientId != "" && cfg.clientSecret != ""
    ensures r.result.Threw? ==> r.cache == cache
    ensures r.result.Ok? ==> r.cache.Some? && r.result.value == r.cache.value.accessToken
    ensures r.cache != cache ==> r.request.Some? && r.result.Ok?
  {
    if IsFresh(cache, now) then
      TokenStep(Ok(cache.value.accessToken), cache, None)
    else if cfg.clientId == "" || cfg.clientSecret == "" then
      TokenStep(Threw(Error(MissingCredentialsMessage)), cache, None)
    else
      var sent := Some(TokenRequest(TokenEndpoint(cfg), cfg.clientId, cfg.clientSecret));
      match reply
      case NetworkFailure(m) => TokenStep(Threw(Error(m)), cache, sent)
      case Reply(status, text, json) =>
        if !IsOkStatus(status) then
          TokenStep(Threw(Error(TokenFailureMessage(status, text))), cache, sent)
        else
          match json
          case Unparsable(m) => TokenStep(Threw(Error(m)), cache, sent)
          case Parsed(t) =>
            TokenStep(Ok(t.accessToken), Some(CachedToken(t.accessToken, CacheExpiry(receivedAt, t.expiresIn))), sent)
  }

  /** The module-level `tokenCache` slot and the three functions over it. */
  class TokenManager {
    var cache: Option<CachedToken>

    constructor ()
      ensures cache == None
    {
      cache := None;
    }

    /** `getPaxumToken()`. */
    method GetToken(now: int, cfg: TokenConfig, reply: HttpReply<TokenResponse>, receivedAt: int)
      returns (result: Outcome<string>, request: Option<TokenRequest>)
      modifies this
      ensures TokenStep(result, cache, request) == GetTokenStep(old(cache), now, cfg, reply, receivedAt)
    {
      request := None;
      if cache.Some? && cache.value.expiresAt > now {
        result := Ok(cache.value.accessToken);
        return;
      }
      if cfg.clientId == "" || cfg.clientSecret == "" {
        result := Threw(Error(MissingCredentialsMessage));
        return;
      }
      var url := if cfg.oauthUrl == "" then DefaultOAuthUrl else cfg.oauthUrl;
      request := Some(TokenRequest(url, cfg.clientId, cfg.clientSecret));
      if reply.NetworkFailure? {
        result := Threw(Error(reply.message));
        return;
      }
      if !(200 <= reply.status <= 299) {
        result := Threw(Error("Failed to get Paxum token: " + NatToString(reply.status) + " " + reply.text));
        return;
      }
      if reply.json.Unparsable? {
        result := Threw(Error(reply.json.message));
        return;
      }
      var data := reply.json.value;
      cache := Some(CachedToken(data.accessToken, receivedAt + (data.expiresIn - 60) * 1000));
      result := Ok(data.accessToken);
    }

    /** `clearTokenCache()`. */
    method ClearCache()
      modifies this
      ensures cache == None
    {
      cache := None;
    }

    /** `getTokenInfo()`: whether a token is held and, if so, its expiry. */
    function Info(): (info: TokenInfo)
      reads this
      ensures info.hasToken <==> cache.Some?
      ensures info.hasToken ==> info.expiresAt == Some(cache.value.expiresAt)
      ensures !info.hasToken ==> info.expiresAt == None
    {
      if cache.None? then TokenInfo(false, None) else TokenInfo(true, Some(cache.value.expiresAt))
    }
  }

  // ---------------------------------------------------------------------------
  // Properties of one call
  // ---------------------------------------------------------------------------

  /** A fresh cache answers without a request and stays as it is, whatever the
      configuration: the credential check comes after the cache check. */
  lemma FreshCacheIsReused(cache: Option<CachedToken>, now: int, cfg: TokenConfig,
                           reply: HttpReply<TokenResponse>, receivedAt: int)
    requires IsFresh(cache, now)
    ensures GetTokenStep(cache, now, cfg, reply, receivedAt) == TokenStep(Ok(cache.value.accessToken), cache, None)
  {
  }

  /** Expiry is strict: a token whose expiry equals the clock is not used. */
  lemma ExpiryIsStrict(token: CachedToken, cfg: TokenConfig, reply: HttpReply<TokenResponse>, receivedAt: int)
    requires cfg.clientId != "" && cfg.clientSecret != ""
    ensures GetTokenStep(Some(token), token.expiresAt, cfg, reply, receivedAt).request
            == Some(TokenRequest(TokenEndpoint(cfg), cfg.clientId, cfg.clientSecret))
  {
  }

  /** Without credentials a stale cache gives the credentials error, sends nothing
      and keeps the cache. */
  lemma MissingCredentialsFail(cache: Option<CachedToken>, now: int, cfg: TokenConfig,
                               reply: HttpReply<TokenResponse>, receivedAt: int)
    requires !IsFresh(cache, now)
    requires cfg.clientId == "" || cfg.clientSecret == ""
    ensures GetTokenStep(cache, now, cfg, reply, receivedAt)
            == TokenStep(Threw(Error(MissingCredentialsMessage)), cache, None)
  {
  }

  /** A non-OK token reply throws an error whose message carries the HTTP status,
      and the cache is unchanged. */
  lemma RejectedTokenRequest(cache: Option<CachedToken>, now: int, cfg: TokenConfig,
                             status: nat, text: string, json: Parsed<TokenResponse>, receivedAt: int)
    requires !IsFresh(cache, now) && cfg.clientId != "" && cfg.clientSecret != ""
    requires !IsOkStatus(status)
    ensures var step := GetTokenStep(cache, now, cfg, Reply(status, text, json), receivedAt);
            && step.result.Threw? && step.result.thrown.Error?
            && Contains(step.result.thrown.message, NatToString(status))
            && step.cache == cache
  {
    ContainsInfix("Failed to get Paxum token: ", NatToString(status), " " + text);
    assert "Failed to get Paxum token: " + NatToString(status) + " " + text
        == "Failed to get Paxum token: " + NatToString(status) + (" " + text);
  }

  /** A granted token is cached with the safety margin and is what the call returns. */
  lemma GrantedTokenIsCached(cache: Option<CachedToken>, now: int, cfg: TokenConfig,
                             status: nat, text: string, t: TokenResponse, receivedAt: int)
    requires !IsFresh(cache, now) && cfg.clientId != "" && cfg.clientSecret != ""
    requires IsOkStatus(status)
    ensures var step := GetTokenStep(cache, now, cfg, Reply(status, text, Parsed(t)), receivedAt);
            && step.cache == Some(CachedToken(t.accessToken, receivedAt + (t.expiresIn - 60) * 1000))
            && step.result == Ok(step.cache.value.accessToken)
  {
  }

  /** Whenever a call returns a token, the cache afterwards holds that token;
      whenever it fails, the cache is untouched. */
  lemma ResultAgreesWithCache(cache: Option<CachedToken>, now: int, cfg: TokenConfig,
                              reply: HttpReply<TokenResponse>, receivedAt: int)
    ensures var step := GetTokenStep(cache, now, cfg, reply, receivedAt);
            && (step.result.Ok? ==> step.cache.Some? && step.cache.value.accessToken == step.result.value)
            && (step.result.Threw? ==> step.cache == cache)
  {
  }

  /** A lifetime of 60 seconds or less is stored already expired, so the next
      call made no earlier than the grant requests a new token. */
  lemma ShortLifetimeIsNeverReused(receivedAt: int, expiresIn: int, later: int)
    requires expiresIn <= SafetyMarginSeconds && later >= receivedAt
    ensures !IsFresh(Some(CachedToken("", CacheExpiry(receivedAt, expiresIn))), later)
  {
  }

  /** Two calls in a row: once a call has returned a token, a second call made
      while the cache is still fresh returns the same token without a request. */
  lemma SecondCallReusesToken(cache: Option<CachedToken>, now1: int, cfg: TokenConfig,
                              reply1: HttpReply<TokenResponse>, receivedAt1: int,
                              now2: int, reply2: HttpReply<TokenResponse>, receivedAt2: int)
    requires GetTokenStep(cache, now1, cfg, reply1, receivedAt1).result.Ok?
    requires IsFresh(GetTokenStep(cache, now1, cfg, reply1, receivedAt1).cache, now2)
    ensures var first := GetTokenStep(cache, now1, cfg, reply1, receivedAt1);
            var second := GetTokenStep(first.cache, now2, cfg, reply2, receivedAt2);
            second.result == first.result && second.request.None? && second.cache == first.cache
  {
    ResultAgreesWithCache(cache, now1, cfg, reply1, receivedAt1);
  }

  /** The caching behaviour run on the class: after a granted token, a second
      `GetToken` within its lifetime sends no request and returns the same token. */
  method CachedTokenScenario(cfg: TokenConfig, t: TokenResponse, now: int, unusedReply: HttpReply<TokenResponse>)
    returns (first: Outcome<string>, second: Outcome<string>, secondRequest: Option<TokenRequest>)
    requires cfg.clientId != "" && cfg.clientSecret != "" && t.expiresIn > SafetyMarginSeconds
    ensures first == Ok(t.accessToken) && second == first && secondRequest.None?
  {
    var tm := new TokenManager();
    var firstRequest;
    first, firstRequest := tm.GetToken(now, cfg, Reply(200, "", Parsed(t)), now);
    second, secondRequest := tm.GetToken(now + 1, cfg, unusedReply, now + 1);
  }
}
