/**
 * The OAuth token kept in the user's session, and the expiry-driven refresh
 * rule applied every time a request asks for it (`get_token` in app.py).
 *
 * The provider's refresh endpoint is a parameter: a total function from a
 * refresh token to the token the provider issues, `None` when the refresh
 * request raises. The clock is a parameter `now`, in epoch seconds.
 */
module TokenStore {
  import opened Wrappers

  /** The token record the provider issues: `{access_token, refresh_token, expires_at}`. */
  datatype Token = Token(accessToken: string, refreshToken: string, expiresAt: int)

  /** A token is refreshed once fewer than this many seconds of it remain. */
  const REFRESH_MARGIN: int := 60

  predicate IsStale(t: Token, now: int) {
    t.expiresAt - now < REFRESH_MARGIN
  }

  /**
   * What one `get_token` call observes and leaves behind: the token it
   * returns, the token the session holds afterwards, and the refresh token it
   * sent to the provider when it asked for a refresh.
   */
  datatype TokenLookup = TokenLookup(result: Option<Token>, stored: Option<Token>, refreshRequest: Option<string>)

  /** The effect of `get_token` on a session that holds `stored`. */
  function TokenAfterGet(stored: Option<Token>, now: int, refresh: string -> Option<Token>): (l: TokenLookup)
    // nothing stored: nothing returned, nothing asked of the provider
    ensures stored.None? ==> l == TokenLookup(None, None, None)
    // whatever is returned is what the session holds afterwards
    ensures l.result.Some? ==> l.stored == l.result
    // a failed lookup never touches the session
    ensures l.result.None? ==> l.stored == stored
    // the provider is asked exactly when a stale token is stored, with its refresh token
    ensures l.refreshRequest.Some? <==> stored.Some? && IsStale(stored.value, now)
    ensures l.refreshRequest.Some? ==> l.refreshRequest.value == stored.value.refreshToken
    // without a refresh, the stored token is handed back as it is
    ensures l.refreshRequest.None? ==> l.result == stored && l.stored == stored
    // with a refresh, the provider's answer is handed back
    ensures l.refreshRequest.Some? ==> l.result == refresh(stored.value.refreshToken)
  {
    match stored
    case None => TokenLookup(None, None, None)
    case Some(t) =>
      if !IsStale(t, now) then
        TokenLookup(stored, stored, None)
      else
        match refresh(t.refreshToken)
        case Some(renewed) => TokenLookup(Some(renewed), Some(renewed), Some(t.refreshToken))
        case None => TokenLookup(None, stored, Some(t.refreshToken))
  }

  /** The session of one user; only the entry under `token_info` matters here. */
  class Session {
    var token: Option<Token>

    constructor ()
      ensures token == None
    {
      token := None;
    }

    /** `session.clear()`: drops every entry, the token with them. */
    method Clear()
      modifies this
      ensures token == None
    {
      token := None;
    }

    /** `session[TOKEN_INFO] = t`: overwrites the stored token wholesale. */
    method Store(t: Token)
      modifies this
      ensures token == Some(t)
    {
      token := Some(t);
    }
  }

  /** `get_token`: the stored token, refreshed first when it is stale. */
  method GetToken(session: Session, now: int, refresh: string -> Option<Token>) returns (r: Option<Token>)
    modifies session
    ensures r == TokenAfterGet(old(session.token), now, refresh).result
    ensures session.token == TokenAfterGet(old(session.token), now, refresh).stored
  {
    var info := session.token;
    if info.None? {
      return None;
    }
    var t := info.value;
    if IsStale(t, now) {
      var renewed := refresh(t.refreshToken);
      if renewed.None? {
        // the refresh raised: the handler returns None before the session is written
        return None;
      }
      session.Store(renewed.value);
      return renewed;
    }
    return info;
  }

  /** A refresh is requested exactly when fewer than 60 seconds remain. */
  lemma RefreshThreshold(t: Token, now: int, refresh: string -> Option<Token>)
    ensures TokenAfterGet(Some(t), now, refresh).refreshRequest.Some? <==> t.expiresAt - now < 60
    ensures t.expiresAt == now + 30 ==> TokenAfterGet(Some(t), now, refresh).refreshRequest == Some(t.refreshToken)
    ensures t.expiresAt == now + 3600 ==> TokenAfterGet(Some(t), now, refresh) == TokenLookup(Some(t), Some(t), None)
  {
  }

  /** A token that is not stale is returned whatever the provider would answer. */
  lemma FreshTokenIgnoresProvider(t: Token, now: int, p: string -> Option<Token>, q: string -> Option<Token>)
    requires !IsStale(t, now)
    ensures TokenAfterGet(Some(t), now, p) == TokenAfterGet(Some(t), now, q) == TokenLookup(Some(t), Some(t), None)
  {
  }

  /**
   * A stale token is replaced by the refreshed one when the provider answers;
   * when the refresh fails the lookup yields nothing and the stale token stays
   * in the session, it is not cleared.
   */
  lemma StaleTokenOutcome(t: Token, now: int, refresh: string -> Option<Token>)
    requires IsStale(t, now)
    ensures refresh(t.refreshToken).Some? ==>
      TokenAfterGet(Some(t), now, refresh).result == refresh(t.refreshToken) &&
      TokenAfterGet(Some(t), now, refresh).stored == refresh(t.refreshToken)
    ensures refresh(t.refreshToken).None? ==>
      TokenAfterGet(Some(t), now, refresh).result == None &&
      TokenAfterGet(Some(t), now, refresh).stored == Some(t)
  {
  }

  /**
   * Two lookups in a row (the login gate, then the handler): when the token
   * the first one hands out is not stale at the time of the second, the second
   * returns that same token, leaves the session alone and asks nothing of the
   * provider.
   */
  lemma SecondLookupReusesToken(stored: Option<Token>, now1: int, now2: int, refresh: string -> Option<Token>)
    requires TokenAfterGet(stored, now1, refresh).result.Some?
    requires !IsStale(TokenAfterGet(stored, now1, refresh).result.value, now2)
    ensures var first := TokenAfterGet(stored, now1, refresh);
      TokenAfterGet(first.stored, now2, refresh) == TokenLookup(first.result, first.stored, None)
  {
  }
}
