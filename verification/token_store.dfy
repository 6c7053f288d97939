/** The access-token store of `src/app/banana/services/stellarService.ts`: a
    token from the `stellar` URL parameter, kept in session storage under
    `stellarToken`. */
module TokenStore {
  import opened Wrappers
  import opened Strings

  const TOKEN_KEY: string := "stellarToken"

  const API_ENDPOINT: string := "https://aiproxy.rozo.ai/rozo/api/v1/chat/completions"

  /** The browser as the store sees it: whether `window` exists, the
      `stellar` URL parameter, and session storage. */
  datatype Browser = Browser(hasWindow: bool, urlToken: Option<string>, session: map<string, string>)

  /** A read and the browser after it (a read may write the session). */
  datatype Read = Read(token: Option<string>, browser: Browser)

  /** `sessionStorage.getItem(key)`. */
  function Lookup(session: map<string, string>, key: string): (r: Option<string>)
    ensures r.Some? <==> key in session
    ensures r.Some? ==> r.value == session[key]
  {
    if key in session then Some(session[key]) else None
  }

  /** `getStellarToken`: a non-empty URL parameter wins and is stored;
      otherwise the stored value, if any. */
  function GetStellarToken(b: Browser): (r: Read)
    ensures !b.hasWindow ==> r == Read(None, b)
    ensures b.hasWindow && Present(b.urlToken) ==>
      r.token == b.urlToken && r.browser == b.(session := b.session[TOKEN_KEY := b.urlToken.value])
    ensures b.hasWindow && !Present(b.urlToken) ==> r == Read(Lookup(b.session, TOKEN_KEY), b)
  {
    if !b.hasWindow then Read(None, b)
    else if Present(b.urlToken) then Read(b.urlToken, b.(session := b.session[TOKEN_KEY := b.urlToken.value]))
    else Read(Lookup(b.session, TOKEN_KEY), b)
  }

  /** `setStellarToken(token)`. */
  function SetStellarToken(b: Browser, token: string): (r: Browser)
    ensures !b.hasWindow ==> r == b
    ensures b.hasWindow ==> Lookup(r.session, TOKEN_KEY) == Some(token)
    ensures r.hasWindow == b.hasWindow && r.urlToken == b.urlToken
    ensures forall k :: k in b.session && k != TOKEN_KEY ==> k in r.session && r.session[k] == b.session[k]
  {
    if b.hasWindow then b.(session := b.session[TOKEN_KEY := token]) else b
  }

  /** `clearStellarToken()`. */
  function ClearStellarToken(b: Browser): (r: Browser)
    ensures !b.hasWindow ==> r == b
    ensures r.hasWindow == b.hasWindow && r.urlToken == b.urlToken
    ensures b.hasWindow ==> TOKEN_KEY !in r.session
    ensures forall k :: k in b.session && k != TOKEN_KEY ==> k in r.session && r.session[k] == b.session[k]
  {
    if b.hasWindow then b.(session := b.session - {TOKEN_KEY}) else b
  }

  /** `isUsingStellar()`: a token is found, even an empty one. */
  predicate IsUsingStellar(b: Browser) {
    GetStellarToken(b).token.Some?
  }

  /** A token is in use exactly when there is a window and either a
      non-empty URL parameter or a stored value, however empty. */
  lemma UsingStellarIff(b: Browser)
    ensures IsUsingStellar(b) <==> b.hasWindow && (Present(b.urlToken) || TOKEN_KEY in b.session)
  {
  }

  /** Storing a token and reading it back, without a URL parameter, gives it. */
  lemma SetThenGet(b: Browser, token: string)
    requires b.hasWindow && !Present(b.urlToken)
    ensures GetStellarToken(SetStellarToken(b, token)).token == Some(token)
  {
  }

  /** Clearing and reading back, without a URL parameter, gives nothing. */
  lemma ClearThenGet(b: Browser)
    requires !Present(b.urlToken)
    ensures GetStellarToken(ClearStellarToken(b)).token.None?
    ensures !IsUsingStellar(ClearStellarToken(b))
  {
  }

  /** A URL token is remembered: once read, it is the stored token too. */
  lemma UrlTokenPersists(b: Browser)
    requires b.hasWindow && Present(b.urlToken)
    ensures var after := GetStellarToken(b).browser;
      Lookup(after.session, TOKEN_KEY) == b.urlToken
      && GetStellarToken(after.(urlToken := None)).token == b.urlToken
  {
  }

  /** Reading twice is reading once. */
  lemma GetIdempotent(b: Browser)
    ensures GetStellarToken(GetStellarToken(b).browser) == GetStellarToken(b)
  {
  }

  /** The reset the image page does after a generation (clear, then store the
      empty string) leaves the store "using Stellar" with a falsy token. */
  lemma EmptyTokenCountsAsUsing(b: Browser)
    requires b.hasWindow && !Present(b.urlToken)
    ensures var after := SetStellarToken(ClearStellarToken(b), "");
      IsUsingStellar(after) && !Truthy(GetStellarToken(after).token.value)
  {
  }
}
