/**
  The settings-save handler of the main plugin class (`save_settings`, on
  `admin_post_save_stealth_settings`): it checks the caller, rebuilds the whole
  `stealth_login_page_settings` record from the posted form, and mails the key to
  the site administrator when the one-shot "email" box was ticked, clearing the box
  again before it returns.
 */
module Settings {
  import opened Php
  import opened WordPress
  import Gate

  const NonceField: string := "stealth_nonce"
  const NonceAction: string := "save_stealth_settings"

  /** The four keys of a saved record. */
  const RecordKeys: set<string> := {"enabled", "auth_key", "redirect_url", "email_checkbox"}

  /** How the request ended: `wp_die` before any write, or saved (and whether mail went out). */
  datatype Status = PermissionDenied | SettingsSaved(emailed: bool)

  /** The option table afterwards, the mail sent (if any), and the status. */
  datatype SaveOutcome = SaveOutcome(store: Store, mail: Option<Mail>, status: Status)

  /** A posted text field; a missing one reaches the sanitisers as null, i.e. "". */
  function Field(post: map<string, string>, name: string): string {
    if name in post then post[name] else ""
  }

  /** The caller holds `manage_options` and posted a nonce the host accepts. */
  predicate Authorised(canManageOptions: bool, post: map<string, string>, host: Host) {
    canManageOptions && NonceField in post && host.verifyNonce(post[NonceField], NonceAction)
  }

  /** The record as it is written first, with `email_checkbox` as posted. */
  function PostedRecord(post: map<string, string>, host: Host): Record {
    map[
      "enabled" := Str(if "enabled" in post then "1" else ""),
      "auth_key" := Str(host.sanitizeText(Field(post, "auth_key"))),
      "redirect_url" := Str(host.escUrlRaw(Field(post, "redirect_url"))),
      "email_checkbox" := Str(if "email_checkbox" in post then "1" else "")
    ]
  }

  /**
    `save_settings`. An unauthorised caller dies before any write. Otherwise the
    record is replaced by the four posted fields; if the email box was ticked the key
    is mailed to the administrator and the record is written again with the box
    cleared, so the stored box is always clear.
   */
  function SaveSettings(store: Store, canManageOptions: bool, post: map<string, string>, host: Host): (r: SaveOutcome)
    ensures !Authorised(canManageOptions, post, host) ==>
      r == SaveOutcome(store, None, PermissionDenied)
    ensures Authorised(canManageOptions, post, host) ==>
      && r.status == SettingsSaved("email_checkbox" in post)
      && r.store.Keys == store.Keys + {Gate.OptionName}
      && (forall name :: name in store && name != Gate.OptionName ==> r.store[name] == store[name])
      && r.store[Gate.OptionName].Keys == RecordKeys
      && r.store[Gate.OptionName]["enabled"] == Str(if "enabled" in post then "1" else "")
      && r.store[Gate.OptionName]["auth_key"] == Str(host.sanitizeText(Field(post, "auth_key")))
      && r.store[Gate.OptionName]["redirect_url"] == Str(host.escUrlRaw(Field(post, "redirect_url")))
      && r.store[Gate.OptionName]["email_checkbox"] == Str("")
      && (r.mail.Some? <==> "email_checkbox" in post)
      && (r.mail.Some? ==> r.mail.value == Mail(host.adminEmail, host.sanitizeText(Field(post, "auth_key"))))
  {
    if !canManageOptions || NonceField !in post || !host.verifyNonce(post[NonceField], NonceAction) then
      SaveOutcome(store, None, PermissionDenied)
    else
      var settings := PostedRecord(post, host);
      var written := UpdateOption(store, Gate.OptionName, settings);
      if settings["email_checkbox"] != Str("") then
        var mail := Mail(host.adminEmail, settings["auth_key"].s);
        var cleared := settings["email_checkbox" := Str("")];
        SaveOutcome(UpdateOption(written, Gate.OptionName, cleared), Some(mail), SettingsSaved(true))
      else
        SaveOutcome(written, None, SettingsSaved(false))
  }

  /**
    Saving the same form twice leaves the same table as saving it once, and the
    second save mails again only because the box is ticked again on that post.
   */
  lemma SaveIdempotent(store: Store, canManageOptions: bool, post: map<string, string>, host: Host)
    ensures var once := SaveSettings(store, canManageOptions, post, host);
            var twice := SaveSettings(once.store, canManageOptions, post, host);
            twice.store == once.store && twice.mail == once.mail
  {
  }

  /** The gate reads the saved record as enabled exactly when the box was posted. */
  lemma SavedFlagDrivesGate(store: Store, canManageOptions: bool, post: map<string, string>, host: Host)
    requires Authorised(canManageOptions, post, host)
    ensures Gate.IsEnabled(GetOption(SaveSettings(store, canManageOptions, post, host).store, Gate.OptionName))
            <==> "enabled" in post
  {
  }

  /** After a save with the box unticked, the gate lets every request through. */
  lemma SaveDisabledOpensGate(store: Store, canManageOptions: bool, post: map<string, string>, host: Host, req: Request)
    requires Authorised(canManageOptions, post, host) && "enabled" !in post
    ensures Gate.CheckAuthKey(SaveSettings(store, canManageOptions, post, host).store, req, host) == Allow
  {
    SavedFlagDrivesGate(store, canManageOptions, post, host);
  }

  /**
    After an enabling save, a visitor whose query key comes out of the host's
    sanitisers as the saved key is remembered on a protected URI; the redirect for
    everyone else goes to the saved URL, never to the home fallback.
   */
  lemma SavedKeyOpensGate(store: Store, canManageOptions: bool, post: map<string, string>, host: Host, req: Request)
    requires Authorised(canManageOptions, post, host) && "enabled" in post
    requires Gate.Protected(req.uri) && !Gate.ManagerOnAdminScreen(req) && !Gate.HasAuthCookie(req)
    ensures var saved := SaveSettings(store, canManageOptions, post, host).store;
            var key := host.sanitizeText(Field(post, "auth_key"));
            var passed := req.authKey.Some? && Trim(host.sanitizeText(host.unslash(req.authKey.value))) == Trim(key);
            var outcome := Gate.CheckAuthKey(saved, req, host);
            (passed ==> outcome.AllowAndSetCookie?)
            && (outcome.Redirect? ==> outcome.target == host.escUrlRaw(Field(post, "redirect_url")))
  {
    SavedFlagDrivesGate(store, canManageOptions, post, host);
  }
}
