/**
  The access gate of the main plugin class (`check_auth_key`, run on `init`): it reads
  the `stealth_login_page_settings` record and decides, per request, whether to let it
  through, to let it through and remember the visitor with a one-hour cookie, or to
  redirect it away from `wp-login.php` / `wp-admin`.
 */
module Gate {
  import opened Php
  import opened WordPress

  const OptionName: string := "stealth_login_page_settings"
  const AuthCookie: string := "stealth_auth_verified"
  const CookieLifetime: int := 3600
  const LoginScript: string := "wp-login.php"
  const AdminDir: string := "wp-admin"

  /** The `enabled` entry is set and truthy; absent, "", "0" and null all count as off. */
  predicate IsEnabled(options: Record) {
    IsSet(options, "enabled") && Truthy(options["enabled"])
  }

  /** An administrator with `manage_options` on an admin screen is never gated. */
  predicate ManagerOnAdminScreen(req: Request) {
    req.adminScreen && req.canManageOptions
  }

  /** The request carries the remembered-visitor cookie with exactly the value "1". */
  predicate HasAuthCookie(req: Request) {
    req.cookie == Some("1")
  }

  /** The URI mentions the login script or the admin directory anywhere. */
  ghost predicate Protected(uri: string) {
    Contains(uri, LoginScript) || Contains(uri, AdminDir)
  }

  /** The configured key, trimmed; "" when the record has none. */
  function StoredKey(options: Record): string {
    if IsSet(options, "auth_key") then Trim(ToPhpString(options["auth_key"])) else ""
  }

  /** The key from the query string after unslashing, sanitising and trimming. */
  function PassedKey(req: Request, host: Host): Option<string> {
    match req.authKey
    case None => None
    case Some(k) => Some(Trim(host.sanitizeText(host.unslash(k))))
  }

  predicate KeyAccepted(options: Record, req: Request, host: Host) {
    PassedKey(req, host) == Some(StoredKey(options))
  }

  /** Where a rejected request goes: the stored URL whenever the key is set, even "". */
  function RedirectTarget(options: Record, host: Host): string {
    if IsSet(options, "redirect_url") then ToPhpString(options["redirect_url"]) else host.homeUrl
  }

  /** The cookie issued on a correct key: value "1", one hour, secure over TLS, HTTP-only. */
  function IssuedCookie(req: Request): Cookie {
    Cookie(AuthCookie, "1", req.now + CookieLifetime, req.ssl, true)
  }

  /** A request that passed the first three rules and so is subject to the key check. */
  ghost predicate Gated(options: Record, req: Request) {
    IsEnabled(options) && !ManagerOnAdminScreen(req) && !HasAuthCookie(req) && Protected(req.uri)
  }

  /**
    `check_auth_key`. Rules in order: disabled or manager on an admin screen, allow;
    cookie "1", allow; URI outside both protected paths, allow; otherwise a query key
    equal to the stored key (both trimmed) sets the cookie, anything else redirects.
   */
  function CheckAuthKey(store: Store, req: Request, host: Host): (r: Outcome)
    ensures r.Redirect? <==> Gated(GetOption(store, OptionName), req) && !KeyAccepted(GetOption(store, OptionName), req, host)
    ensures r.AllowAndSetCookie? <==> Gated(GetOption(store, OptionName), req) && KeyAccepted(GetOption(store, OptionName), req, host)
    ensures r.Redirect? ==> r == Redirect(RedirectTarget(GetOption(store, OptionName), host), false)
    ensures r.AllowAndSetCookie? ==> r.cookie == IssuedCookie(req)
  {
    var options := GetOption(store, OptionName);
    var enabled := if IsSet(options, "enabled") then options["enabled"] else Str("");
    if !Truthy(enabled) || (req.adminScreen && req.canManageOptions) then Allow
    else if req.cookie.Some? && req.cookie.value == "1" then Allow
    else if StrPos(req.uri, LoginScript).None? && StrPos(req.uri, AdminDir).None? then Allow
    else
      var authKey := StoredKey(options);
      var redirectUrl := RedirectTarget(options, host);
      match req.authKey
      case Some(k) =>
        if Trim(host.sanitizeText(host.unslash(k))) == authKey then AllowAndSetCookie(IssuedCookie(req))
        else Redirect(redirectUrl, false)
      case None => Redirect(redirectUrl, false)
  }

  // ---------------------------------------------------------------------------
  // One lemma per decision rule

  /** With no settings record at all the gate lets everything through. */
  lemma MissingRecordAllows(store: Store, req: Request, host: Host)
    requires OptionName !in store
    ensures CheckAuthKey(store, req, host) == Allow
  {
  }

  /** A falsy or missing `enabled` lets every request through. */
  lemma DisabledAllows(store: Store, req: Request, host: Host)
    requires !IsEnabled(GetOption(store, OptionName))
    ensures CheckAuthKey(store, req, host) == Allow
  {
  }

  /** The stored strings "" and "0" both switch the gate off. */
  lemma FalsyStringsDisable(store: Store, req: Request, host: Host, flag: string)
    requires flag == "" || flag == "0"
    requires OptionName in store && "enabled" in store[OptionName]
    requires store[OptionName]["enabled"] == Str(flag)
    ensures CheckAuthKey(store, req, host) == Allow
  {
  }

  /** A manager on an admin screen is let through whatever key or cookie is sent. */
  lemma ManagerAllowed(store: Store, req: Request, host: Host)
    requires ManagerOnAdminScreen(req)
    ensures CheckAuthKey(store, req, host) == Allow
  {
  }

  /** The cookie value "1" lets a request through without a key. */
  lemma CookieAllows(store: Store, req: Request, host: Host)
    requires HasAuthCookie(req)
    ensures CheckAuthKey(store, req, host) == Allow
  {
  }

  /** A cookie whose value is not exactly "1" is treated as no cookie. */
  lemma OtherCookieIgnored(store: Store, req: Request, host: Host, v: string)
    requires v != "1"
    ensures CheckAuthKey(store, req.(cookie := Some(v)), host) == CheckAuthKey(store, req.(cookie := None), host)
  {
  }

  /** A URI that mentions neither protected path is never redirected and gets no cookie. */
  lemma UnprotectedAllowed(store: Store, req: Request, host: Host)
    requires !Protected(req.uri)
    ensures CheckAuthKey(store, req, host) == Allow
  {
  }

  /** A gated request with the right key is remembered for an hour and not redirected. */
  lemma MatchingKeySetsCookie(store: Store, req: Request, host: Host)
    requires Gated(GetOption(store, OptionName), req)
    requires req.authKey.Some?
    requires Trim(host.sanitizeText(host.unslash(req.authKey.value))) == StoredKey(GetOption(store, OptionName))
    ensures CheckAuthKey(store, req, host) == AllowAndSetCookie(Cookie("stealth_auth_verified", "1", req.now + 3600, req.ssl, true))
  {
  }

  /** A gated request without `auth_key` is redirected. */
  lemma MissingKeyRedirects(store: Store, req: Request, host: Host)
    requires Gated(GetOption(store, OptionName), req)
    requires req.authKey.None?
    ensures CheckAuthKey(store, req, host).Redirect?
  {
  }

  /** The redirect goes to the stored URL whenever one is set, even the empty one. */
  lemma RedirectUsesStoredUrl(store: Store, req: Request, host: Host, url: string)
    requires OptionName in store && "redirect_url" in store[OptionName]
    requires store[OptionName]["redirect_url"] == Str(url)
    requires CheckAuthKey(store, req, host).Redirect?
    ensures CheckAuthKey(store, req, host) == Redirect(url, false)
  {
  }

  /** With no stored redirect URL the redirect goes to the site's home. */
  lemma RedirectFallsBackHome(store: Store, req: Request, host: Host)
    requires !IsSet(GetOption(store, OptionName), "redirect_url")
    requires CheckAuthKey(store, req, host).Redirect?
    ensures CheckAuthKey(store, req, host) == Redirect(host.homeUrl, false)
  {
  }

  /**
    An empty stored key does not lock the gate: an empty `?auth_key=` on a gated
    request matches it, because both sides trim to "".
   */
  lemma EmptyStoredKeyOpenedByEmptyParam(store: Store, req: Request, host: Host)
    requires Gated(GetOption(store, OptionName), req)
    requires StoredKey(GetOption(store, OptionName)) == ""
    requires req.authKey == Some("") && AllTrimmed(host.sanitizeText(host.unslash("")))
    ensures CheckAuthKey(store, req, host).AllowAndSetCookie?
  {
    TrimEmptyIffBlank(host.sanitizeText(host.unslash("")));
  }

  /** Whitespace around the stored key does not matter: the untrimmed core opens it. */
  lemma PaddedStoredKeyMatches(store: Store, req: Request, host: Host, pre: string, key: string, post: string)
    requires Gated(GetOption(store, OptionName), req)
    requires AllTrimmed(pre) && AllTrimmed(post) && |key| > 0 && !IsTrimmed(key[0]) && !IsTrimmed(key[|key| - 1])
    requires OptionName in store && "auth_key" in store[OptionName]
    requires store[OptionName]["auth_key"] == Str(pre + key + post)
    requires req.authKey == Some(key) && host.sanitizeText(host.unslash(key)) == key
    ensures CheckAuthKey(store, req, host).AllowAndSetCookie?
  {
    PaddedTrim(pre, key, post);
    TrimKeepsClean(key);
  }

  /** Trimming a clean key with stripped characters in front and behind gives back the key. */
  lemma PaddedTrim(pre: string, key: string, post: string)
    requires AllTrimmed(pre) && AllTrimmed(post) && |key| > 0 && !IsTrimmed(key[0]) && !IsTrimmed(key[|key| - 1])
    ensures Trim(pre + key + post) == key
  {
    assert pre + key + post == pre + (key + post);
    TrimLeftSkipsPrefix(pre, key + post);
    assert TrimLeft(key + post) == key + post;
    TrimRightSkipsSuffix(key, post);
    assert TrimRight(key) == key;
  }

  /** A cookie is only ever issued to a gated request whose key matched. */
  lemma CookieOnlyForMatchingKey(store: Store, req: Request, host: Host)
    requires CheckAuthKey(store, req, host).AllowAndSetCookie?
    ensures req.authKey.Some? && Protected(req.uri) && !HasAuthCookie(req)
    ensures PassedKey(req, host) == Some(StoredKey(GetOption(store, OptionName)))
  {
  }

  /**
    Once the issued cookie comes back, every later request from that visitor is let
    through, whatever URI or key it carries.
   */
  lemma IssuedCookieReopens(store: Store, req: Request, later: Request, host: Host)
    requires CheckAuthKey(store, req, host).AllowAndSetCookie?
    requires later.cookie == Some(CheckAuthKey(store, req, host).cookie.value)
    ensures CheckAuthKey(store, later, host) == Allow
  {
  }
}
