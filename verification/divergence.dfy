/**
  How the two gates differ on the same request. The main class's gate (over
  `stealth_login_page_settings`) and the older `init` closure (over `slp_settings`)
  agree when both are off and outside the protected paths, but differ on empty keys,
  on whitespace around the stored key, on logged-in users, and on the cookie.
 */
module Divergence {
  import opened Php
  import opened WordPress
  import Gate
  import LegacyGate

  /** Both records switched on, for lemmas that compare the two gates. */
  predicate BothEnabled(store: Store) {
    Gate.IsEnabled(GetOption(store, Gate.OptionName)) && LegacyGate.IsEnabled(GetOption(store, LegacyGate.OptionName))
  }

  /** Both gates let everything through when both records are off. */
  lemma AgreeWhenDisabled(store: Store, req: Request, host: Host)
    requires !Gate.IsEnabled(GetOption(store, Gate.OptionName))
    requires !LegacyGate.IsEnabled(GetOption(store, LegacyGate.OptionName))
    ensures Gate.CheckAuthKey(store, req, host) == Allow == LegacyGate.CheckRequest(store, req, host)
  {
  }

  /** Both gates let everything through outside `wp-login.php` and `wp-admin`. */
  lemma AgreeOutsideProtectedPaths(store: Store, req: Request, host: Host)
    requires !Contains(req.uri, Gate.LoginScript) && !Contains(req.uri, Gate.AdminDir)
    ensures Gate.CheckAuthKey(store, req, host) == Allow == LegacyGate.CheckRequest(store, req, host)
  {
  }

  /**
    An empty `?auth_key=` on the login script opens the main gate when its stored
    key is empty, but the older gate refuses any empty key.
   */
  lemma EmptyKeyDiverges(store: Store, req: Request, host: Host, at: nat)
    requires BothEnabled(store) && Gate.StoredKey(GetOption(store, Gate.OptionName)) == ""
    requires !Gate.ManagerOnAdminScreen(req) && req.cookie.None?
    requires OccursAt(req.uri, Gate.LoginScript, at)
    requires req.authKey == Some("") && host.sanitizeText(host.unslash("")) == "" && host.sanitizeText("") == ""
    ensures Gate.CheckAuthKey(store, req, host).AllowAndSetCookie?
    ensures LegacyGate.CheckRequest(store, req, host).Redirect?
  {
  }

  /**
    A stored key with surrounding spaces is matched by its core in the main gate,
    which trims it, and refused by the older gate, which compares it as stored.
   */
  lemma PaddedKeyDiverges(store: Store, req: Request, host: Host, key: string, at: nat)
    requires BothEnabled(store)
    requires |key| > 0 && !IsTrimmed(key[0]) && !IsTrimmed(key[|key| - 1])
    requires Gate.OptionName in store && "auth_key" in store[Gate.OptionName]
    requires store[Gate.OptionName]["auth_key"] == Str(" " + key + " ")
    requires LegacyGate.OptionName in store && "auth_key" in store[LegacyGate.OptionName]
    requires store[LegacyGate.OptionName]["auth_key"] == Str(" " + key + " ")
    requires !Gate.ManagerOnAdminScreen(req) && req.cookie.None?
    requires OccursAt(req.uri, Gate.LoginScript, at)
    requires req.authKey == Some(key) && host.unslash(key) == key && host.sanitizeText(key) == key
    ensures Gate.CheckAuthKey(store, req, host).AllowAndSetCookie?
    ensures LegacyGate.CheckRequest(store, req, host).Redirect?
  {
    assert Contains(req.uri, Gate.LoginScript);
    Gate.PaddedStoredKeyMatches(store, req, host, " ", key, " ");
    assert LegacyGate.SuppliedKey(req, host) == key;
    assert Str(key) != Str(" " + key + " ") by {
      assert |key| != |" " + key + " "|;
    }
    LegacyGate.LoginRule(store, req, host);
  }

  /**
    A logged-in user without `manage_options` reaching `wp-admin` without a key is
    redirected by the main gate and let through by the older one.
   */
  lemma LoggedInUserDiverges(store: Store, req: Request, host: Host, at: nat)
    requires BothEnabled(store)
    requires req.loggedIn && !req.canManageOptions && req.cookie.None? && req.authKey.None?
    requires OccursAt(req.uri, Gate.AdminDir, at) && !Contains(req.uri, Gate.LoginScript)
    ensures Gate.CheckAuthKey(store, req, host).Redirect?
    ensures LegacyGate.CheckRequest(store, req, host) == Allow
  {
  }

  /**
    The remembered-visitor cookie opens the main gate without a key, but the older
    gate never reads it and refuses the same keyless request to the login script.
   */
  lemma CookieDiverges(store: Store, req: Request, host: Host, at: nat)
    requires BothEnabled(store)
    requires req.cookie == Some("1") && req.authKey.None? && host.sanitizeText("") == ""
    requires OccursAt(req.uri, Gate.LoginScript, at)
    ensures Gate.CheckAuthKey(store, req, host) == Allow
    ensures LegacyGate.CheckRequest(store, req, host).Redirect?
  {
  }
}
