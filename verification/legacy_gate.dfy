/**
  The older gate of `includes/actions.php` (an `init` closure over the `slp_settings`
  record). It is a separate decision from the main class's gate: it compares the
  sanitised query key with the stored one untrimmed, rejects an empty or "0" key
  outright, exempts logged-in users from the `wp-admin` rule only, never sets a
  cookie, and redirects with `wp_safe_redirect`.
 */
module LegacyGate {
  import opened Php
  import opened WordPress

  const OptionName: string := "slp_settings"
  const LoginScript: string := "wp-login.php"
  const AdminDir: string := "wp-admin"

  /** `isset($options['enable']) && $options['enable']`. */
  predicate IsEnabled(options: Record) {
    IsSet(options, "enable") && Truthy(options["enable"])
  }

  /** `sanitize_text_field($_GET['auth_key'] ?? '')`: no unslashing, no trimming here. */
  function SuppliedKey(req: Request, host: Host): string {
    host.sanitizeText(Coalesce(req.authKey, ""))
  }

  /**
    The key check both rules share: the supplied key is not `empty()` and is
    strictly identical to the stored value (a stored non-string never matches, and a
    missing one reads as null).
   */
  predicate KeyOk(options: Record, key: string) {
    Truthy(Str(key)) && "auth_key" in options && options["auth_key"] == Str(key)
  }

  /** `$options['redirect_url'] ?? home_url()`. */
  function RedirectTarget(options: Record, host: Host): string {
    if IsSet(options, "redirect_url") then ToPhpString(options["redirect_url"]) else host.homeUrl
  }

  /** The request falls under one of the two rules: the login script, or `wp-admin` while logged out. */
  ghost predicate Checked(req: Request) {
    Contains(req.uri, LoginScript) || (Contains(req.uri, AdminDir) && !req.loggedIn)
  }

  /**
    The `init` closure. When enabled, a URI containing `wp-login.php` is redirected
    unless the key is good; then a URI containing `wp-admin` from a logged-out visitor
    is redirected unless the key is good. Everything else passes.
   */
  function CheckRequest(store: Store, req: Request, host: Host): (r: Outcome)
    ensures !r.AllowAndSetCookie?
    ensures r.Redirect? <==>
      IsEnabled(GetOption(store, OptionName)) && Checked(req) && !KeyOk(GetOption(store, OptionName), SuppliedKey(req, host))
    ensures r.Redirect? ==> r == Redirect(RedirectTarget(GetOption(store, OptionName), host), true)
  {
    var options := GetOption(store, OptionName);
    if IsSet(options, "enable") && Truthy(options["enable"]) then
      var authKey := SuppliedKey(req, host);
      var stored := if "auth_key" in options then options["auth_key"] else Null;
      var bad := !Truthy(Str(authKey)) || Str(authKey) != stored;
      if StrPos(req.uri, LoginScript).Some? && bad then
        Redirect(RedirectTarget(options, host), true)
      else if StrPos(req.uri, AdminDir).Some? && !req.loggedIn && bad then
        Redirect(RedirectTarget(options, host), true)
      else Allow
    else Allow
  }

  // ---------------------------------------------------------------------------
  // One lemma per rule

  /** An unset or falsy `enable` lets every request through. */
  lemma DisabledAllows(store: Store, req: Request, host: Host)
    requires !IsEnabled(GetOption(store, OptionName))
    ensures CheckRequest(store, req, host) == Allow
  {
  }

  /** A URI mentioning neither protected path is never redirected. */
  lemma UnprotectedAllowed(store: Store, req: Request, host: Host)
    requires !Contains(req.uri, LoginScript) && !Contains(req.uri, AdminDir)
    ensures CheckRequest(store, req, host) == Allow
  {
  }

  /**
    On an enabled site, a login-script request is redirected exactly when its key is
    empty or not identical, untrimmed, to the stored one.
   */
  lemma LoginRule(store: Store, req: Request, host: Host)
    requires IsEnabled(GetOption(store, OptionName)) && Contains(req.uri, LoginScript)
    ensures CheckRequest(store, req, host).Redirect? <==> !KeyOk(GetOption(store, OptionName), SuppliedKey(req, host))
  {
  }

  /** A logged-in user reaching `wp-admin` (and not the login script) is never redirected. */
  lemma LoggedInAdminAllowed(store: Store, req: Request, host: Host)
    requires req.loggedIn && !Contains(req.uri, LoginScript)
    ensures CheckRequest(store, req, host) == Allow
  {
  }

  /**
    An empty supplied key is refused on every checked request, even when the stored
    key is empty too; so is the key "0".
   */
  lemma EmptyKeyRedirects(store: Store, req: Request, host: Host)
    requires IsEnabled(GetOption(store, OptionName)) && Checked(req)
    requires SuppliedKey(req, host) == "" || SuppliedKey(req, host) == "0"
    ensures CheckRequest(store, req, host).Redirect?
  {
  }

  /** A visitor who sends no `auth_key` at all is refused, given `sanitize_text_field('') == ''`. */
  lemma MissingKeyRedirects(store: Store, req: Request, host: Host)
    requires IsEnabled(GetOption(store, OptionName)) && Checked(req)
    requires req.authKey.None? && host.sanitizeText("") == ""
    ensures CheckRequest(store, req, host).Redirect?
  {
  }

  /**
    Since no cookie is ever set, a checked request that the gate let through with
    its key is refused again when the same visitor comes back without it.
   */
  lemma KeyNeededEveryTime(store: Store, req: Request, host: Host)
    requires Checked(req) && CheckRequest(store, req, host) == Allow
    requires IsEnabled(GetOption(store, OptionName))
    requires host.sanitizeText("") == ""
    ensures CheckRequest(store, req.(authKey := None), host).Redirect?
  {
  }

  /** The redirect target is the stored URL unless it is unset or null, then the home URL. */
  lemma RedirectTargetRule(store: Store, req: Request, host: Host)
    requires CheckRequest(store, req, host).Redirect?
    ensures var options := GetOption(store, OptionName);
            CheckRequest(store, req, host).target
              == if "redirect_url" in options && options["redirect_url"] != Null
                 then ToPhpString(options["redirect_url"]) else host.homeUrl
  {
  }
}
