/**
 * Sign-in and the token lifecycle (assets/js/auth.js): the authorization-code
 * flow with PKCE (RFC 7636), its anti-forgery `state` check (section 10.12 of
 * RFC 6749), token storage in session storage, expiry with a five-minute
 * margin, refresh (section 6 of RFC 6749) and logout.
 * Random values, the SHA-256 challenge, `btoa`, the token endpoint and page
 * redirects are outside the model: the random verifier and state, the
 * base64 text, the current time and the token endpoint's answers are
 * parameters.
 */
module Auth {
  import opened Common
  import opened Js
  import opened Storage
  import opened State

  const PKCE_VERIFIER := "pkce_verifier"
  const OAUTH_STATE := "oauth_state"
  const ACCESS_TOKEN_KEY := "spotify_access_token"
  const REFRESH_TOKEN_KEY := "spotify_refresh_token"
  const EXPIRES_AT_KEY := "spotify_token_expires_at"

  /** Tokens count as expired five minutes early. */
  const EXPIRY_MARGIN_MS := 5 * 60 * 1000

  const INVALID_STATE := "Invalid state parameter. Possible CSRF attack."
  const NO_VERIFIER := "Code verifier not found. Please try logging in again."
  const EXCHANGE_FAILED := "Failed to exchange authorization code. Please try again."
  const NO_REFRESH_TOKEN := "No refresh token available. Please log in again."
  const REFRESH_FAILED := "Token refresh failed. Please log in again."

  // ---------------------------------------------------------------------------
  // base64url (section 5 of RFC 4648, without padding)

  /** The characters of standard base64 other than padding. */
  predicate IsBase64Char(c: char) {
    IsAlnum(c) || c == '+' || c == '/'
  }

  /** `base64UrlEncode` after `btoa`: '+' becomes '-', '/' becomes '_', and '=' is dropped. */
  function ToBase64Url(s: string): (r: string)
    ensures forall i :: 0 <= i < |r| ==> r[i] != '+' && r[i] != '/' && r[i] != '='
    ensures |r| <= |s|
    decreases |s|
  {
    if s == [] then [] else UrlSafe(s[0]) + ToBase64Url(s[1..])
  }

  /** What one character becomes in the url-safe form. */
  function UrlSafe(c: char): (r: string)
    ensures |r| <= 1 && forall i :: 0 <= i < |r| ==> r[i] != '+' && r[i] != '/' && r[i] != '='
    ensures c != '=' ==> |r| == 1
  {
    if c == '+' then "-" else if c == '/' then "_" else if c == '=' then "" else [c]
  }

  /** The decoder's side of the mapping: '-' back to '+', '_' back to '/'. */
  function FromBase64Url(s: string): (r: string)
    ensures |r| == |s|
    decreases |s|
  {
    if s == [] then []
    else [if s[0] == '-' then '+' else if s[0] == '_' then '/' else s[0]] + FromBase64Url(s[1..])
  }

  /** Restore the padding: '=' up to the next multiple of four characters. */
  function Repad(s: string): (r: string)
    ensures |r| % 4 == 0
  {
    s + seq((4 - |s| % 4) % 4, _ => '=')
  }

  lemma {:induction false} ToBase64UrlAppend(a: string, b: string)
    ensures ToBase64Url(a + b) == ToBase64Url(a) + ToBase64Url(b)
    decreases |a|
  {
    if a == [] {
      assert a + b == b;
    } else {
      assert (a + b)[0] == a[0] && (a + b)[1..] == a[1..] + b;
      ToBase64UrlAppend(a[1..], b);
    }
  }

  lemma {:induction false} Base64BodyRoundTrip(body: string)
    requires forall i :: 0 <= i < |body| ==> IsBase64Char(body[i])
    ensures |ToBase64Url(body)| == |body|
    ensures FromBase64Url(ToBase64Url(body)) == body
    decreases |body|
  {
    if body != [] {
      Base64BodyRoundTrip(body[1..]);
      var head := UrlSafe(body[0]);
      assert ToBase64Url(body) == head + ToBase64Url(body[1..]);
      assert (head + ToBase64Url(body[1..]))[1..] == ToBase64Url(body[1..]);
    }
  }

  /**
   * The encoding loses nothing: padded base64 text comes back from the
   * unpadded url-safe form by mapping the two characters back and re-padding.
   */
  lemma Base64UrlRoundTrip(body: string, pad: string)
    requires forall i :: 0 <= i < |body| ==> IsBase64Char(body[i])
    requires pad == "" || pad == "=" || pad == "=="
    requires (|body| + |pad|) % 4 == 0
    ensures Repad(FromBase64Url(ToBase64Url(body + pad))) == body + pad
  {
    ToBase64UrlAppend(body, pad);
    Base64BodyRoundTrip(body);
    PaddingDropped(pad);
    assert ToBase64Url(body + pad) == ToBase64Url(body);
    RepadRestores(body, pad);
  }

  lemma PaddingDropped(pad: string)
    requires pad == "" || pad == "=" || pad == "=="
    ensures ToBase64Url(pad) == []
  {
    if pad != "" {
      assert pad[1..] == "" || pad[1..] == "=";
      assert pad[1..] != "" ==> pad[1..][1..] == "";
    }
  }

  lemma RepadRestores(s: string, pad: string)
    requires pad == "" || pad == "=" || pad == "=="
    requires (|s| + |pad|) % 4 == 0
    ensures Repad(s) == s + pad
  {
    assert (4 - |s| % 4) % 4 == |pad|;
    assert seq((4 - |s| % 4) % 4, _ => '=') == pad;
  }

  // ---------------------------------------------------------------------------
  // Tokens

  /** The token endpoint's answer; `refreshToken` is `None` where the answer has no `refresh_token`. */
  datatype TokenSet = TokenSet(accessToken: string, refreshToken: Option<string>, expiresIn: int)

  /** A string that may be `undefined`. */
  function OptionalText(o: Option<string>): (v: JsValue)
    ensures o.None? ==> v == Undefined
    ensures o.Some? ==> v == Str(o.value)
  {
    if o.Some? then Str(o.value) else Undefined
  }

  /** `Date.now() + expiresIn * 1000`. */
  function ExpiresAt(now: int, expiresIn: int): int {
    now + expiresIn * 1000
  }

  /** `isTokenExpired`: a missing (falsy) expiry counts as expired; otherwise expired from five minutes before it. */
  function IsTokenExpired(expiresAt: JsValue, now: int): (expired: bool)
    ensures !Truthy(expiresAt) ==> expired
    ensures expiresAt.Num? && expiresAt.n != 0 ==> (expired <==> now >= expiresAt.n - EXPIRY_MARGIN_MS)
    ensures expiresAt.Str? && Truthy(expiresAt) ==> !expired
  {
    if !Truthy(expiresAt) then true
    else
      var n := ToNumber(expiresAt);
      n.Some? && now >= n.value - EXPIRY_MARGIN_MS
  }

  /** Once a token counts as expired it stays expired; one millisecond before the margin it is still valid. */
  lemma ExpiryMargin(expiresAt: int, now: int, later: int)
    requires expiresAt != 0 && now <= later
    ensures IsTokenExpired(Num(expiresAt), now) ==> IsTokenExpired(Num(expiresAt), later)
    ensures IsTokenExpired(Num(expiresAt), expiresAt - EXPIRY_MARGIN_MS)
    ensures !IsTokenExpired(Num(expiresAt), expiresAt - EXPIRY_MARGIN_MS - 1)
  {
  }

  /** What `getStoredTokens` returns. */
  datatype StoredTokens = StoredTokens(accessToken: JsValue, refreshToken: JsValue, expiresAt: JsValue)

  /** `getStoredTokens` over the session contents: `null` exactly when no (truthy) access token is stored. */
  function TokensIn(items: map<string, Item>): (t: Option<StoredTokens>)
    ensures t.None? <==> !Truthy(ReadItem(items, ACCESS_TOKEN_KEY))
    ensures t.Some? ==> t.value == StoredTokens(ReadItem(items, ACCESS_TOKEN_KEY), ReadItem(items, REFRESH_TOKEN_KEY),
                                                 ReadItem(items, EXPIRES_AT_KEY))
  {
    var accessToken := ReadItem(items, ACCESS_TOKEN_KEY);
    if !Truthy(accessToken) then None
    else Some(StoredTokens(accessToken, ReadItem(items, REFRESH_TOKEN_KEY), ReadItem(items, EXPIRES_AT_KEY)))
  }

  /** The session contents after `saveTokens` has written its three keys. */
  function TokenItems(items: map<string, Item>, t: TokenSet, now: int): map<string, Item> {
    items[ACCESS_TOKEN_KEY := StoredText(Str(t.accessToken))]
         [REFRESH_TOKEN_KEY := StoredText(OptionalText(t.refreshToken))]
         [EXPIRES_AT_KEY := StoredText(Num(ExpiresAt(now, t.expiresIn)))]
  }

  /** The state update of `saveTokens`. */
  function TokenUpdate(t: TokenSet, now: int): AppState {
    map[IS_AUTHENTICATED := Bool(true),
        ACCESS_TOKEN := Str(t.accessToken),
        REFRESH_TOKEN := OptionalText(t.refreshToken),
        TOKEN_EXPIRES_AT := Num(ExpiresAt(now, t.expiresIn))]
  }

  /**
   * Saved tokens read back: the access token, the refresh token (`null` when
   * the answer had none) and the expiry, whatever else is written beside them.
   */
  lemma SavedTokensReadBack(items: map<string, Item>, t: TokenSet, now: int, other: string, v: JsValue)
    requires t.accessToken != ""
    requires other != ACCESS_TOKEN_KEY && other != REFRESH_TOKEN_KEY && other != EXPIRES_AT_KEY
    ensures TokensIn(TokenItems(items, t, now)[other := StoredText(v)]) ==
              Some(StoredTokens(Str(t.accessToken),
                                if t.refreshToken.Some? then Str(t.refreshToken.value) else Null,
                                Num(ExpiresAt(now, t.expiresIn))))
  {
    var items' := TokenItems(items, t, now)[other := StoredText(v)];
    SerializeRoundTrip(Str(t.accessToken));
    SerializeRoundTrip(Num(ExpiresAt(now, t.expiresIn)));
    if t.refreshToken.Some? {
      SerializeRoundTrip(Str(t.refreshToken.value));
    }
    assert ReadItem(items', ACCESS_TOKEN_KEY) == Str(t.accessToken);
  }

  /** The session contents after a successful refresh: new access token and expiry, the refresh token only when a truthy one came back. */
  function RefreshedItems(items: map<string, Item>, t: TokenSet, now: int): map<string, Item> {
    var withToken := items[ACCESS_TOKEN_KEY := StoredText(Str(t.accessToken))]
                          [EXPIRES_AT_KEY := StoredText(Num(ExpiresAt(now, t.expiresIn)))];
    if Truthy(OptionalText(t.refreshToken)) then withToken[REFRESH_TOKEN_KEY := StoredText(OptionalText(t.refreshToken))]
    else withToken
  }

  /** The state update of a successful refresh: `refreshToken` falls back to the old one. */
  function RefreshUpdate(t: TokenSet, oldRefreshToken: JsValue, now: int): AppState {
    map[ACCESS_TOKEN := Str(t.accessToken),
        TOKEN_EXPIRES_AT := Num(ExpiresAt(now, t.expiresIn)),
        REFRESH_TOKEN := if Truthy(OptionalText(t.refreshToken)) then OptionalText(t.refreshToken) else oldRefreshToken]
  }

  /** A refresh that returns no new refresh token keeps the stored one readable as before. */
  lemma RefreshKeepsOldRefreshToken(items: map<string, Item>, t: TokenSet, now: int)
    requires !Truthy(OptionalText(t.refreshToken))
    ensures ReadItem(RefreshedItems(items, t, now), REFRESH_TOKEN_KEY) == ReadItem(items, REFRESH_TOKEN_KEY)
  {
  }

  /** The session keys logout removes, together with the persisted state. */
  const TokenKeys: set<string> := {ACCESS_TOKEN_KEY, REFRESH_TOKEN_KEY, EXPIRES_AT_KEY}

  /** Removing three keys one by one removes them together. */
  lemma RemoveThree<K, V>(m: map<K, V>, a: K, b: K, c: K)
    ensures m - {a} - {b} - {c} == m - {a, b, c}
  {
  }

  /** After logout no tokens are found. */
  lemma LoggedOutHasNoTokens(items: map<string, Item>)
    ensures TokensIn(items - TokenKeys - {STATE_KEY}) == None
  {
  }

  /** `AuthManager`: its storage helper and the state manager share one session storage. */
  class AuthManager {
    const stateManager: StateManager
    const session: SessionStore

    predicate Valid() {
      session == stateManager.session
    }

    constructor(stateManager: StateManager)
      ensures this.stateManager == stateManager && Valid()
    {
      this.stateManager := stateManager;
      this.session := stateManager.session;
    }

    /** `initiateLogin`: remember the PKCE verifier and the anti-forgery state before leaving for the authorization page. */
    method InitiateLogin(codeVerifier: string, oauthState: string)
      requires Valid()
      modifies session
      ensures session.items == old(session.items)[PKCE_VERIFIER := StoredText(Str(codeVerifier))]
                                                 [OAUTH_STATE := StoredText(Str(oauthState))]
    {
      session.SaveSession(PKCE_VERIFIER, Str(codeVerifier));
      session.SaveSession(OAUTH_STATE, Str(oauthState));
    }

    /** `saveTokens`: the three session keys, then the state (which persists itself). */
    method SaveTokens(t: TokenSet, now: int)
      requires Valid()
      modifies session, stateManager
      ensures stateManager.state == Merge(old(stateManager.state), TokenUpdate(t, now))
      ensures session.items == TokenItems(old(session.items), t, now)[STATE_KEY := StoredText(Snapshot(stateManager.state))]
      ensures stateManager.subscribers == old(stateManager.subscribers)
      ensures stateManager.notifications == old(stateManager.notifications) + Calls(stateManager.subscribers, stateManager.state)
    {
      var expiresAt := ExpiresAt(now, t.expiresIn);
      session.SaveSession(ACCESS_TOKEN_KEY, Str(t.accessToken));
      session.SaveSession(REFRESH_TOKEN_KEY, OptionalText(t.refreshToken));
      session.SaveSession(EXPIRES_AT_KEY, Num(expiresAt));
      stateManager.SetState(TokenUpdate(t, now));
    }

    /** `getStoredTokens`. */
    function GetStoredTokens(): (t: Option<StoredTokens>)
      reads session
      ensures t == TokensIn(session.items)
    {
      TokensIn(session.items)
    }

    /**
     * `handleCallback`: the returned state must equal the stored one (checked
     * first), a verifier must be stored, and the code exchange must succeed;
     * then the tokens are saved and both temporary keys removed. A failure
     * changes nothing.
     */
    method HandleCallback(code: string, returnedState: JsValue, exchange: (string, JsValue) -> Option<TokenSet>, now: int)
      returns (r: Result<TokenSet>)
      requires Valid()
      modifies session, stateManager
      ensures var storedState := ReadItem(old(session.items), OAUTH_STATE);
              !Truthy(storedState) || !StrictEquals(storedState, returnedState) ==>
                r == Err(INVALID_STATE) && session.items == old(session.items)
      ensures var storedState := ReadItem(old(session.items), OAUTH_STATE);
              var verifier := ReadItem(old(session.items), PKCE_VERIFIER);
              Truthy(storedState) && StrictEquals(storedState, returnedState) ==>
                && (!Truthy(verifier) ==> r == Err(NO_VERIFIER) && session.items == old(session.items))
                && (Truthy(verifier) && exchange(code, verifier).None? ==>
                      r == Err(EXCHANGE_FAILED) && session.items == old(session.items))
                && (Truthy(verifier) && exchange(code, verifier).Some? ==>
                      && r == Ok(exchange(code, verifier).value)
                      && stateManager.state == Merge(old(stateManager.state), TokenUpdate(r.value, now))
                      && session.items == TokenItems(old(session.items), r.value, now)
                                            [STATE_KEY := StoredText(Snapshot(stateManager.state))]
                                          - {PKCE_VERIFIER} - {OAUTH_STATE})
      ensures r.Err? ==> stateManager.state == old(stateManager.state)
      ensures stateManager.subscribers == old(stateManager.subscribers)
      ensures r.Err? ==> stateManager.notifications == old(stateManager.notifications)
      ensures r.Ok? ==> stateManager.notifications == old(stateManager.notifications) + Calls(old(stateManager.subscribers), stateManager.state)
    {
      var storedState := session.GetSession(OAUTH_STATE);
      if !Truthy(storedState) || !StrictEquals(storedState, returnedState) {
        return Err(INVALID_STATE);
      }
      var codeVerifier := session.GetSession(PKCE_VERIFIER);
      if !Truthy(codeVerifier) {
        return Err(NO_VERIFIER);
      }
      var tokens := exchange(code, codeVerifier);
      if tokens.None? {
        return Err(EXCHANGE_FAILED);
      }
      SaveTokens(tokens.value, now);
      session.ClearSession(PKCE_VERIFIER);
      session.ClearSession(OAUTH_STATE);
      r := Ok(tokens.value);
    }

    /** `logout`: remove the three token keys and reset the state (which also removes the persisted state). */
    method Logout()
      requires Valid()
      modifies session, stateManager
      ensures session.items == old(session.items) - TokenKeys - {STATE_KEY}
      ensures stateManager.state == Defaults()
      ensures stateManager.subscribers == old(stateManager.subscribers)
      ensures stateManager.notifications == old(stateManager.notifications) + Calls(old(stateManager.subscribers), Defaults())
    {
      session.ClearSession(ACCESS_TOKEN_KEY);
      session.ClearSession(REFRESH_TOKEN_KEY);
      session.ClearSession(EXPIRES_AT_KEY);
      stateManager.Clear();
      RemoveThree(old(session.items), ACCESS_TOKEN_KEY, REFRESH_TOKEN_KEY, EXPIRES_AT_KEY);
    }

    /**
     * What `refreshToken` does to session storage and the state store, given
     * the tokens it finds: nothing without a truthy refresh token; a logout
     * (token keys and persisted state removed, defaults announced to every
     * subscriber) when the endpoint refuses; otherwise the new access token and
     * expiry, and the new refresh token if one came back, stored and merged
     * into the state, which every subscriber is told about and which persists.
     */
    twostate predicate RefreshEffects(t: Option<StoredTokens>, grant: JsValue -> Option<TokenSet>, now: int)
      reads session, stateManager
    {
      && stateManager.subscribers == old(stateManager.subscribers)
      && (t.None? || !Truthy(t.value.refreshToken) ==>
            && session.items == old(session.items)
            && stateManager.state == old(stateManager.state)
            && stateManager.notifications == old(stateManager.notifications))
      && (t.Some? && Truthy(t.value.refreshToken) && grant(t.value.refreshToken).None? ==>
            && session.items == old(session.items) - TokenKeys - {STATE_KEY}
            && stateManager.state == Defaults()
            && stateManager.notifications == old(stateManager.notifications) + Calls(old(stateManager.subscribers), Defaults()))
      && (t.Some? && Truthy(t.value.refreshToken) && grant(t.value.refreshToken).Some? ==>
            var data := grant(t.value.refreshToken).value;
            && stateManager.state == Merge(old(stateManager.state), RefreshUpdate(data, t.value.refreshToken, now))
            && session.items == RefreshedItems(old(session.items), data, now)[STATE_KEY := StoredText(Snapshot(stateManager.state))]
            && stateManager.notifications == old(stateManager.notifications) + Calls(old(stateManager.subscribers), stateManager.state))
    }

    /**
     * `refreshToken`: without a stored (truthy) refresh token it fails and
     * changes nothing; when the endpoint refuses it logs out; otherwise it
     * stores the new access token and expiry, and the new refresh token only if
     * one came back. `grant` is the token endpoint's answer to a refresh token.
     */
    method RefreshToken(grant: JsValue -> Option<TokenSet>, now: int) returns (r: Result<string>)
      requires Valid()
      modifies session, stateManager
      ensures var t := TokensIn(old(session.items));
              r == if t.None? || !Truthy(t.value.refreshToken) then Err(NO_REFRESH_TOKEN)
                   else if grant(t.value.refreshToken).None? then Err(REFRESH_FAILED)
                   else Ok(grant(t.value.refreshToken).value.accessToken)
      ensures RefreshEffects(TokensIn(old(session.items)), grant, now)
    {
      var tokens := GetStoredTokens();
      if tokens.None? || !Truthy(tokens.value.refreshToken) {
        return Err(NO_REFRESH_TOKEN);
      }
      var answer := grant(tokens.value.refreshToken);
      if answer.None? {
        Logout();
        return Err(REFRESH_FAILED);
      }
      var data := answer.value;
      var expiresAt := ExpiresAt(now, data.expiresIn);
      session.SaveSession(ACCESS_TOKEN_KEY, Str(data.accessToken));
      session.SaveSession(EXPIRES_AT_KEY, Num(expiresAt));
      if Truthy(OptionalText(data.refreshToken)) {
        session.SaveSession(REFRESH_TOKEN_KEY, OptionalText(data.refreshToken));
      }
      stateManager.SetState(RefreshUpdate(data, tokens.value.refreshToken, now));
      r := Ok(data.accessToken);
    }

    /** Session storage, the state, the subscribers and their notifications are as they were. */
    twostate predicate Untouched()
      reads session, stateManager
    {
      && session.items == old(session.items)
      && stateManager.state == old(stateManager.state)
      && stateManager.subscribers == old(stateManager.subscribers)
      && stateManager.notifications == old(stateManager.notifications)
    }

    /**
     * `getAccessToken`: `null` without stored tokens; the stored token while it
     * is not expired; otherwise the refreshed token, or `null` if the refresh fails.
     */
    method GetAccessToken(grant: JsValue -> Option<TokenSet>, now: int) returns (token: JsValue)
      requires Valid()
      modifies session, stateManager
      ensures var t := TokensIn(old(session.items));
              && (t.None? ==> token == Null && session.items == old(session.items))
              && (t.Some? && !IsTokenExpired(t.value.expiresAt, now) ==>
                    token == t.value.accessToken && session.items == old(session.items))
              && (t.Some? && IsTokenExpired(t.value.expiresAt, now) ==>
                    if Truthy(t.value.refreshToken) && grant(t.value.refreshToken).Some?
                    then token == Str(grant(t.value.refreshToken).value.accessToken)
                    else token == Null)
      ensures var t := TokensIn(old(session.items));
              t.None? || !IsTokenExpired(t.value.expiresAt, now) ==> Untouched()
      ensures var t := TokensIn(old(session.items));
              t.Some? && IsTokenExpired(t.value.expiresAt, now) ==> RefreshEffects(t, grant, now)
    {
      var tokens := GetStoredTokens();
      if tokens.None? {
        return Null;
      }
      if IsTokenExpired(tokens.value.expiresAt, now) {
        var refreshed := RefreshToken(grant, now);
        if refreshed.Ok? {
          return Str(refreshed.value);
        }
        return Null;
      }
      token := tokens.value.accessToken;
    }

    /** `isAuthenticated`: a usable access token exists, possibly after a refresh. */
    method IsAuthenticated(grant: JsValue -> Option<TokenSet>, now: int) returns (authenticated: bool)
      requires Valid()
      modifies session, stateManager
      ensures var t := TokensIn(old(session.items));
              authenticated <==>
                t.Some? && (!IsTokenExpired(t.value.expiresAt, now) ||
                            (Truthy(t.value.refreshToken) && grant(t.value.refreshToken).Some?))
      ensures var t := TokensIn(old(session.items));
              t.None? || !IsTokenExpired(t.value.expiresAt, now) ==> Untouched()
      ensures var t := TokensIn(old(session.items));
              t.Some? && IsTokenExpired(t.value.expiresAt, now) ==> RefreshEffects(t, grant, now)
    {
      var token := GetAccessToken(grant, now);
      authenticated := token != Null;
    }
  }
}
