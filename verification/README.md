# Stealth Login Page — a Dafny model of its access gate

Stealth Login Page is a WordPress plugin that hides `wp-login.php` and `wp-admin`
behind a shared secret. A visitor must add `?auth_key=<secret>` to the URL; everyone
else is redirected to a configured URL. This project models, as pure functions over
immutable records, the per-request decision and the small settings transformations
around it, and proves their properties in Dafny.

Two generations of the logic live side by side in the plugin, and both are modelled:

- **The main class** (`stealth-login-page.php`) keeps its settings in the option
  `stealth_login_page_settings` (`enabled`, `auth_key`, `redirect_url`,
  `email_checkbox`).
  - `check_auth_key` is the gate. After a correct key it remembers the visitor for an
    hour with the cookie `stealth_auth_verified=1`.
  - `save_settings` rebuilds the record from the settings form. It mails the key when
    the one-shot email box is ticked, then clears the box.
- **The older helpers** (`includes/`) use the option `slp_settings` (`enable`,
  `auth_key`, `redirect_url`). They provide:
  - an `init` gate;
  - a sanitize callback, a save handler and a send-email handler;
  - activation seeding, the multisite fan-out, and the "Settings" link.

  The plugin bootstrap (`stealth-login-page.php:31-34`) loads only `install.php`.
  The older gate and settings handlers are modelled as written, as a second and
  separate decision. The lemmas in `Divergence` state where the two gates disagree.

Layout, one module per file:

| file | module | models |
|---|---|---|
| php.dfy | `Php` | PHP scalar values, truthiness, `isset`, `(string)`, `trim`, `strpos` |
| wordpress.dfy | `WordPress` | option table, host primitives, request facts, outcomes |
| gate.dfy | `Gate` | `check_auth_key` and one lemma per rule |
| settings.dfy | `Settings` | `save_settings` |
| legacy_gate.dfy | `LegacyGate` | the `init` closure of `includes/actions.php` |
| legacy_settings.dfy | `LegacySettings` | `slp_sanitize_settings`, the save and send-email handlers |
| install.dfy | `Install` | activation, deactivation, network fan-out, new-blog hook, settings link |
| divergence.dfy | `Divergence` | how the two gates agree and differ |

Host calls are parameters. These host functions are uninterpreted fields of
`WordPress.Host`: `home_url()`, the `admin_email` option, `sanitize_text_field`,
`wp_unslash`, `esc_url_raw` and `wp_verify_nonce`. Some lemmas need a host fact, such
as `sanitize_text_field('') == ''`; they state it as a precondition. These values are
fields of `WordPress.Request`: `is_admin()`, `current_user_can('manage_options')`,
`is_user_logged_in()`, `time()`, `is_ssl()`, the request URI, the query key and the
cookie.

Three behaviours of `check_auth_key` (`stealth-login-page.php:274-310`) that its own
doc comment ("redirects the user if the key is missing or incorrect") leaves open:

- **Empty stored key.** Both sides are trimmed and compared with `===`, so with the
  gate enabled and an empty stored key, an empty `?auth_key=` matches and gets the
  cookie (`Gate.EmptyStoredKeyOpenedByEmptyParam`).
- **Empty redirect URL.** The home URL is used only when `redirect_url` is unset. A
  stored `""` is used as is (`Gate.RedirectUsesStoredUrl`). The model's
  `Redirect("", false)` stands for the call `wp_redirect("")`: WordPress sends no
  `Location` header for a falsy target, so the following `exit` ends the request with
  an empty response rather than an actual redirect.
- **Protected paths.** They are matched with `strpos`, as substrings anywhere in the
  request URI, query string included, not as a path prefix.

Observations the model makes explicit:

- `slp_sanitize_settings` is not idempotent (`LegacySettings.ResanitizeEnables`).
  Its output always has an `enable` key, which a second pass reads as set.
- This matters for the save handler. `includes/actions.php:19-23` registers
  `slp_sanitize_settings` for `slp_settings` on `admin_init`, which runs before the
  `admin_post_slp_save_settings` handler, so `update_option` passes the handler's
  record through it. The stored record then has `enable = 1` even when the box was
  unticked, and the older gate stays on (`LegacySettings.HandlerRecordResanitized`,
  `LegacySettings.FilteredSaveKeepsGateOn`). The registration in
  `includes/settings-page.php:25-27` runs on `admin_menu` and does not apply there.
- `slp_activate_blog` tests the option for truthiness and seeds it with `add_option`.
  `add_option` refuses a slot that already exists. So only a site with no record gains
  the defaults; an empty existing record stays empty (`Install.ActivateBlog`).

## Model

| member | source | states |
|---|---|---|
| `Php.Trim` | stealth-login-page.php:295 | PHP `trim` returns a slice of its input with only stripped characters (space, tab, LF, CR, NUL, vertical tab) removed from either end, and the result starts and ends with a kept character |
| `Php.TrimIdempotent` | stealth-login-page.php:299 | trimming an already trimmed key changes nothing |
| `Php.TrimEmptyIffBlank` | stealth-login-page.php:295 | a key trims to "" exactly when it consists only of stripped characters |
| `Php.TrimLeftSkipsPrefix` | stealth-login-page.php:295 | leading stripped characters never affect the trimmed key |
| `Php.TrimRightSkipsSuffix` | stealth-login-page.php:295 | trailing stripped characters never affect the trimmed key |
| `Php.StrPos` | stealth-login-page.php:291 | `strpos` finds the needle exactly when the URI contains it, and returns its first occurrence |
| `Php.IntToString` | stealth-login-page.php:295 | an integer stored as the key is converted to its one canonical decimal form: an optional minus sign, then digits that read back to the number, with no leading zero (so 0 is "0" and never "") |
| `Php.DecimalRoundTrip` | stealth-login-page.php:295 | reading back the decimal form of a number gives the number |
| `Php.StringConversionKeepsTruthiness` | includes/settings-page.php:41-47 | a stored key that passes `! empty()` keeps a string form other than "" and "0" when it is converted for `sanitize_text_field`, and a falsy one does not |
| `Gate.CheckAuthKey` | stealth-login-page.php:274-310 | the gate redirects exactly when it is enabled, there is no manager bypass and no "1" cookie, the URI contains a protected path, and the trimmed query key does not equal the trimmed stored key. It sets the cookie exactly when all of that holds but the keys match. A redirect targets the stored URL or home; the cookie is "1" for an hour, secure over TLS and HTTP-only |
| `Gate.MissingRecordAllows` | stealth-login-page.php:275-281 | with no settings record, every request is allowed |
| `Gate.DisabledAllows` | stealth-login-page.php:276-281 | a missing or falsy `enabled` allows every request, with no cookie and no redirect |
| `Gate.FalsyStringsDisable` | stealth-login-page.php:276-279 | a stored `enabled` of "" or "0" switches the gate off |
| `Gate.ManagerAllowed` | stealth-login-page.php:279-281 | `is_admin()` together with `manage_options` allows the request whatever the key or cookie |
| `Gate.CookieAllows` | stealth-login-page.php:284-287 | a cookie whose value is exactly "1" allows the request |
| `Gate.OtherCookieIgnored` | stealth-login-page.php:284 | any other cookie value decides exactly as no cookie |
| `Gate.UnprotectedAllowed` | stealth-login-page.php:290-293 | a URI containing neither `wp-login.php` nor `wp-admin` is never redirected and gets no cookie |
| `Gate.MatchingKeySetsCookie` | stealth-login-page.php:298-303 | on a gated request, a query key whose unslashed, sanitised and trimmed form equals the trimmed stored key gets the cookie (`1`, now+3600) and no redirect |
| `Gate.MissingKeyRedirects` | stealth-login-page.php:305-309 | a gated request without `auth_key` is redirected |
| `Gate.RedirectUsesStoredUrl` | stealth-login-page.php:296 | a redirect goes to the stored `redirect_url` whenever that key is set, even when it is "" (then `wp_redirect` sends no `Location` and the request just ends) |
| `Gate.RedirectFallsBackHome` | stealth-login-page.php:296 | the redirect goes to `home_url()` only when `redirect_url` is unset |
| `Gate.EmptyStoredKeyOpenedByEmptyParam` | stealth-login-page.php:295-302 | an empty stored key is matched by an empty `?auth_key=`, so it does not lock the gate |
| `Gate.PaddedStoredKeyMatches` | stealth-login-page.php:295-300 | whitespace before and after the stored key, in any amounts, is ignored: its untrimmed core opens the gate |
| `Gate.PaddedTrim` | stealth-login-page.php:295 | trimming a clean key with any stripped characters in front of it and any behind it gives back the key |
| `Gate.CookieOnlyForMatchingKey` | stealth-login-page.php:298-302 | a cookie is set only for an in-scope request without the cookie whose key matched; it never comes with a redirect |
| `Gate.IssuedCookieReopens` | stealth-login-page.php:284-287 | once the issued cookie is sent back, every later request is allowed |
| `Settings.SaveSettings` | stealth-login-page.php:229-262 | an unauthorised caller or a missing or invalid nonce writes nothing and sends no mail. Otherwise the record has exactly four keys, `enabled` is "1" iff posted (else ""), and the stored `email_checkbox` is always "". Mail with the key goes to the admin exactly when the box was ticked, and no other option changes |
| `Settings.SaveIdempotent` | stealth-login-page.php:234-252 | saving the same form twice leaves the same table as saving once, with the same mail decision |
| `Settings.SavedFlagDrivesGate` | stealth-login-page.php:234 | after a save, the gate reads the record as enabled exactly when the box was posted |
| `Settings.SaveDisabledOpensGate` | stealth-login-page.php:234 | after a save with the box unticked, the gate allows every request |
| `Settings.SavedKeyOpensGate` | stealth-login-page.php:235-246 | after an enabling save, a query key that sanitises and trims to the saved key gets the cookie, and redirects go to the saved URL |
| `LegacyGate.CheckRequest` | includes/actions.php:25-45 | the older gate never sets a cookie. It redirects, through `wp_safe_redirect` to `redirect_url` or home, exactly when `enable` is truthy, the URI contains `wp-login.php` or (for a logged-out visitor) `wp-admin`, and the sanitised key is empty or not identical to the stored value |
| `LegacyGate.DisabledAllows` | includes/actions.php:28 | an unset or falsy `enable` redirects nothing |
| `LegacyGate.UnprotectedAllowed` | includes/actions.php:31-38 | a URI containing neither protected path is never redirected |
| `LegacyGate.LoginRule` | includes/actions.php:31-35 | a login-script request is redirected unless the key is non-empty and identical, untrimmed, to the stored `auth_key` |
| `LegacyGate.LoggedInAdminAllowed` | includes/actions.php:38 | a logged-in user's `wp-admin` request (not naming the login script) is never redirected |
| `LegacyGate.EmptyKeyRedirects` | includes/actions.php:32-39 | an empty or "0" key always redirects a checked request, even when the stored key is empty |
| `LegacyGate.MissingKeyRedirects` | includes/actions.php:29 | a request without `auth_key` is treated as an empty key and redirected |
| `LegacyGate.KeyNeededEveryTime` | includes/actions.php:25-45 | no cookie is set, so a checked request the gate allowed with its key is redirected when it comes back without the key |
| `LegacyGate.RedirectTargetRule` | includes/actions.php:33 | the target is `redirect_url` unless it is unset or null, then `home_url()` |
| `LegacySettings.SanitizeSettings` | includes/settings-page.php:127-133 | the output has exactly the keys `enable`, `auth_key`, `redirect_url`. `enable` is 1 iff the input key is set (whatever its value), else 0, and missing text fields are sanitised as "" |
| `LegacySettings.ResanitizeEnables` | includes/settings-page.php:129 | re-sanitising any output gives `enable` 1, so an input without `enable` does not sanitise to a fixed point |
| `LegacySettings.SaveHandler` | includes/settings-page.php:135-174 | a failed referer check changes nothing. Otherwise only `enable` (1 iff posted, else 0), `auth_key` and `redirect_url` are overwritten, and every other stored key and option is kept. Mail is attempted exactly when `email-admin` is posted and the new key is non-empty, and exactly one of the sent/failed notices then follows the mail result |
| `LegacySettings.HandlerRecordResanitized` | includes/actions.php:19-23 | the handler's stored record, passed again through the registered sanitize callback, always comes out enabled |
| `LegacySettings.FilteredSaveKeepsGateOn` | includes/settings-page.php:140-145 | the record the handler passes to `update_option` enables the older gate exactly when the box was posted, but the record stored after the sanitize callback registered on `admin_init` (`includes/actions.php:19-23`) enables it whatever was posted |
| `LegacySettings.SendEmail` | includes/settings-page.php:36-55 | without `email-admin` nothing happens, and a failed referer check dies. Otherwise the request always ends redirected back, and the stored key is mailed exactly when it is non-empty, and the string sanitised for the mail is then never "" or "0" |
| `LegacySettings.EmptyKeyNeverMailed` | includes/settings-page.php:151 | an empty or "0" key is mailed by neither handler |
| `Install.ActivateBlog` | includes/install.php:55-64 | activation keeps every existing option. A site with no `slp_settings` gains `enable` 0, empty key and its home URL; an existing record, even an empty one, is unchanged |
| `Install.ActivateIdempotent` | includes/install.php:57 | activating a second time changes nothing |
| `Install.DeactivateBlog` | includes/install.php:72-74 | deactivating a site changes none of its state |
| `Install.ActivatedSiteIsOpen` | includes/install.php:58-62 | the seeded defaults leave the older gate off for every request |
| `Install.FanOutOncePerSite` | includes/install.php:90-93 | with distinct blog ids, each listed site gets the callback exactly once and the others are untouched |
| `Install.FanOutActivate` | includes/install.php:90-93 | a network-wide activation seeds exactly the listed sites, even with repeated ids |
| `Install.FanOutDeactivate` | includes/install.php:72-74 | the empty deactivation leaves every site of the network unchanged |
| `Install.HandleMultisiteActivation` | includes/install.php:84-97 | the loop applies the callback to the listed blogs in order, leaves unlisted sites unchanged, and ends switched back to the original blog |
| `Install.OnActivate` | includes/install.php:25-31 | network-wide on multisite, every listed site is activated; otherwise only the current site is. The current blog is the same afterwards |
| `Install.OnDeactivate` | includes/install.php:41-47 | deactivation, network-wide or not, leaves the network exactly as it was |
| `Install.OnNewBlog` | includes/install.php:112-118 | when network-active, the new blog is exactly what `slp_activate_blog` makes of it (defaults seeded if absent, other options kept) and the current blog is restored; other sites are untouched; otherwise nothing changes |
| `Install.SettingsLink` | includes/install.php:131-138 | the result is one settings link followed by the original links in their original order |
| `Divergence.AgreeWhenDisabled` | includes/actions.php:28 | with both records off, both gates allow every request |
| `Divergence.AgreeOutsideProtectedPaths` | includes/actions.php:31-38 | outside `wp-login.php` and `wp-admin`, both gates allow |
| `Divergence.EmptyKeyDiverges` | includes/actions.php:32 | with an empty stored key, an empty `?auth_key=` on the login script opens the main gate but is refused by the older one |
| `Divergence.PaddedKeyDiverges` | includes/actions.php:32 | a stored key with surrounding spaces is matched by its core in the main gate and refused by the older gate, which does not trim |
| `Divergence.LoggedInUserDiverges` | includes/actions.php:38 | a logged-in non-manager reaching `wp-admin` without a key is redirected by the main gate and allowed by the older one |
| `Divergence.CookieDiverges` | includes/actions.php:25-45 | the "1" cookie opens the main gate; the older gate ignores it and redirects the keyless login request |

## Left out

- Settings pages and notices are HTML output and are not modelled. This covers
  `add_settings_page`, `render_settings_page`, `slp_render_settings_page` (apart from
  the send-email closure it registers) and the transient notice echo
  (`includes/settings-page.php:177-185`).
- The `settings_errors` transient and the redirect after `save_settings`
  (`stealth-login-page.php:258-261`) are UI plumbing. Only the saved/emailed status is
  kept.
- The update checker and the WordPress.com handler (`stealth-login-page.php:40-64`) call
  vendor code that is not part of this model.
- `require`/`file_exists` wiring and every `error_log` call are I/O only.
- Hook registration is not modelled: `add_action`, `add_filter`, `register_setting`,
  `register_activation_hook` and `register_deactivation_hook`.
  - The activation hooks are bound to `install.php` itself
    (`includes/install.php:14-15`).
  - The `wpmu_new_blog` hook checks install.php's own basename
    (`includes/install.php:113`).
  - The settings-link filter is `plugin_action_links_` plus install.php's own basename
    (`includes/install.php:121`, `includes/install.php:139`), so `Install.SettingsLink`
    models a filter that is not attached to the plugin's row either.
  - So all three likely never fire. `Install.OnNewBlog` takes network-activeness as a flag.
- The send-email closure is registered only while the settings page renders
  (`includes/settings-page.php:36`). `LegacySettings.SendEmail` models its body only.
- Host primitives are uninterpreted parameters. This covers `sanitize_text_field`,
  `wp_unslash`, `esc_url_raw`, `wp_verify_nonce`, `check_admin_referer`, `home_url`,
  `is_ssl`, `time()` and `wp_mail` delivery. `wp_safe_redirect`'s host allow-list is
  recorded only as the `hostChecked` flag of a redirect. `COOKIEPATH`/`COOKIE_DOMAIN`
  are host constants left out of `Cookie`.
- `update_option` filters are not composed into `LegacySettings.SaveHandler`, whose
  store is the handler's own write. The effect of the sanitize callback registered on
  `admin_init` (`includes/actions.php:19-23`) is stated separately by
  `LegacySettings.HandlerRecordResanitized` and `LegacySettings.FilteredSaveKeepsGateOn`.
- `Settings.SaveSettings` first writes the record with `email_checkbox = "1"`, then
  overwrites it. The model reports only the final option table, not that intermediate
  write.
- Option slots are modelled as arrays of scalar values (null, bool, int, string).
  Nested arrays, floats, and array-valued query parameters or cookies
  (`?auth_key[]=`) are not modelled.
- The `$wpdb` blog-id query is an input list. `switch_to_blog`'s internal stack is not
  modelled, only the current blog.
- `Install.HandleMultisiteActivation`: requires every listed blog id to be a site of the
  network, because the ids are read from the same blogs table.
- `uninstall.php` only deletes `slp_settings` on each site, so it is not modelled. It
  never removes `stealth_login_page_settings`.
