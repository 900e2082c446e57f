/**
  The host platform as the plugin sees it: the per-site option table, the request
  facts the plugin asks the host about, the host's sanitising and nonce primitives,
  and the effects a request or a form post can have (allow, set a cookie, redirect,
  send mail).
 */
module WordPress {
  import opened Php

  /** The option table of one site: option name to stored array. */
  type Store = map<string, Record>

  /** `get_option($name, [])` for an option that holds an array. */
  function GetOption(store: Store, name: string): Record {
    if name in store then store[name] else map[]
  }

  /** `update_option($name, $value)`: the slot holds `value` afterwards. */
  function UpdateOption(store: Store, name: string, value: Record): Store {
    store[name := value]
  }

  /** `add_option($name, $value)`: writes only when the slot does not exist yet. */
  function AddOption(store: Store, name: string, value: Record): Store {
    if name in store then store else store[name := value]
  }

  /**
    Host primitives whose definitions belong to the platform: `home_url()`, the
    `admin_email` option, `sanitize_text_field`, `wp_unslash`, `esc_url_raw` and
    `wp_verify_nonce`. A missing form field reaches the sanitisers as null, which
    both of them turn into "", so the model passes "" for it.
   */
  datatype Host = Host(
    homeUrl: string,
    adminEmail: string,
    sanitizeText: string -> string,
    unslash: string -> string,
    escUrlRaw: string -> string,
    verifyNonce: (string, string) -> bool)

  /**
    What one request carries: `$_SERVER['REQUEST_URI']`, `$_GET['auth_key']`,
    `$_COOKIE['stealth_auth_verified']`, and the host's answers to `is_admin()`,
    `current_user_can('manage_options')`, `is_user_logged_in()`, `time()` and `is_ssl()`.
   */
  datatype Request = Request(
    uri: string,
    authKey: Option<string>,
    cookie: Option<string>,
    adminScreen: bool,
    canManageOptions: bool,
    loggedIn: bool,
    now: int,
    ssl: bool)

  /** A cookie as `setcookie` is asked to send it (path and domain are host constants). */
  datatype Cookie = Cookie(name: string, value: string, expires: int, secure: bool, httpOnly: bool)

  /**
    The effect of a gate on one request: let it through, let it through and set a
    cookie, or redirect and stop. `hostChecked` tells `wp_safe_redirect` (whose target
    the host may replace when its host is not allowed) from plain `wp_redirect`.
   */
  datatype Outcome = Allow | AllowAndSetCookie(cookie: Cookie) | Redirect(target: string, hostChecked: bool)

  /** An outgoing `wp_mail` carrying an authorisation key. */
  datatype Mail = Mail(to: string, key: string)
}
