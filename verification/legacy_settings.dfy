/**
  The settings side of the older `slp_settings` schema (`includes/settings-page.php`):
  the `slp_sanitize_settings` callback, the `admin_post_slp_save_settings` handler that
  updates three keys of the stored record and may mail the key, and the
  `admin_post_slp_send_email` handler that only mails it.
 */
module LegacySettings {
  import opened Php
  import opened WordPress
  import LegacyGate

  /** The three keys `slp_sanitize_settings` produces. */
  const SanitizedKeys: set<string> := {"enable", "auth_key", "redirect_url"}

  /** `$input[$k] ?? ''` converted to a string as the sanitisers see it. */
  function InputField(input: Record, k: string): string {
    if IsSet(input, k) then ToPhpString(input[k]) else ""
  }

  /**
    `slp_sanitize_settings`: `enable` becomes 1 when the key is set at all, whatever
    its value, else 0; the two text fields are sanitised; every other key is dropped.
   */
  function SanitizeSettings(input: Record, host: Host): (r: Record)
    ensures r.Keys == SanitizedKeys
    ensures r["enable"] == Int(1) <==> IsSet(input, "enable")
    ensures r["enable"] == Int(0) <==> !IsSet(input, "enable")
    ensures r["auth_key"] == Str(host.sanitizeText(InputField(input, "auth_key")))
    ensures r["redirect_url"] == Str(host.escUrlRaw(InputField(input, "redirect_url")))
  {
    map[
      "enable" := Int(if IsSet(input, "enable") then 1 else 0),
      "auth_key" := Str(host.sanitizeText(if IsSet(input, "auth_key") then ToPhpString(input["auth_key"]) else "")),
      "redirect_url" := Str(host.escUrlRaw(if IsSet(input, "redirect_url") then ToPhpString(input["redirect_url"]) else ""))
    ]
  }

  /**
    Sanitising a sanitised record always turns `enable` on, because the first pass
    always sets the key (to 0 or 1). So the callback is not idempotent: an input
    without `enable` gives 0 the first time and 1 the second.
   */
  lemma ResanitizeEnables(input: Record, host: Host)
    ensures SanitizeSettings(SanitizeSettings(input, host), host)["enable"] == Int(1)
    ensures !IsSet(input, "enable") ==>
      SanitizeSettings(SanitizeSettings(input, host), host) != SanitizeSettings(input, host)
  {
  }

  // ---------------------------------------------------------------------------
  // admin_post_slp_save_settings

  /** What the settings form posts: the `slp_settings[...]` fields and the `email-admin` box. */
  datatype Post = Post(settings: map<string, string>, emailAdmin: bool)

  /** The one-shot admin notice the handler leaves in a transient. */
  datatype Notice = NoNotice | EmailSent | EmailFailed

  datatype Status = Died | RedirectedBack

  datatype SaveOutcome = SaveOutcome(store: Store, mail: Option<Mail>, notice: Notice, status: Status)

  function PostField(post: Post, k: string): string {
    if k in post.settings then post.settings[k] else ""
  }

  /**
    The save handler. A failed referer check dies (`check_admin_referer` never
    returns false). Otherwise `enable`, `auth_key` and `redirect_url` are overwritten
    and every other stored key is kept; then, when `email-admin` was posted and the new
    key is not empty, the key is mailed and exactly one notice records the result
    (`mailDelivered` is what `wp_mail` returns).
   */
  function SaveHandler(store: Store, refererOk: bool, post: Post, mailDelivered: bool, host: Host): (r: SaveOutcome)
    ensures !refererOk ==> r == SaveOutcome(store, None, NoNotice, Died)
    ensures refererOk ==>
      var prior := GetOption(store, LegacyGate.OptionName);
      var saved := GetOption(r.store, LegacyGate.OptionName);
      && r.status == RedirectedBack
      && r.store.Keys == store.Keys + {LegacyGate.OptionName}
      && (forall name :: name in store && name != LegacyGate.OptionName ==> r.store[name] == store[name])
      && saved.Keys == prior.Keys + SanitizedKeys
      && (forall k :: k in prior && k !in SanitizedKeys ==> saved[k] == prior[k])
      && saved["enable"] == Int(if "enable" in post.settings then 1 else 0)
      && saved["auth_key"] == Str(host.sanitizeText(PostField(post, "auth_key")))
      && saved["redirect_url"] == Str(host.escUrlRaw(PostField(post, "redirect_url")))
    ensures var attempted := refererOk && post.emailAdmin && Truthy(Str(host.sanitizeText(PostField(post, "auth_key"))));
      && (r.mail.Some? <==> attempted)
      && (r.notice != NoNotice <==> attempted)
      && (attempted ==> r.notice == (if mailDelivered then EmailSent else EmailFailed))
      && (r.mail.Some? ==> r.mail.value == Mail(host.adminEmail, host.sanitizeText(host.sanitizeText(PostField(post, "auth_key")))))
  {
    if !refererOk then SaveOutcome(store, None, NoNotice, Died)
    else
      var options := GetOption(store, LegacyGate.OptionName);
      var updated := options
        ["enable" := Int(if "enable" in post.settings then 1 else 0)]
        ["auth_key" := Str(host.sanitizeText(PostField(post, "auth_key")))]
        ["redirect_url" := Str(host.escUrlRaw(PostField(post, "redirect_url")))];
      var written := UpdateOption(store, LegacyGate.OptionName, updated);
      if post.emailAdmin && Truthy(updated["auth_key"]) then
        var mail := Mail(host.adminEmail, host.sanitizeText(updated["auth_key"].s));
        SaveOutcome(written, Some(mail), if mailDelivered then EmailSent else EmailFailed, RedirectedBack)
      else
        SaveOutcome(written, None, NoNotice, RedirectedBack)
  }

  /**
    The record the handler stores still has its `enable` set to 0 or 1; passed
    through `slp_sanitize_settings` again, as the callback registered for this option
    would, an unticked save comes out enabled.
   */
  lemma HandlerRecordResanitized(store: Store, post: Post, mailDelivered: bool, host: Host)
    ensures var saved := GetOption(SaveHandler(store, true, post, mailDelivered, host).store, LegacyGate.OptionName);
            SanitizeSettings(saved, host)["enable"] == Int(1)
  {
  }

  /**
    The record the handler hands to `update_option` switches the legacy gate exactly
    as the box was ticked; but `update_option` passes it through the sanitize callback
    registered on `admin_init`, and the stored result switches the gate on whatever
    was posted, so an unticked save does not turn the legacy gate off.
   */
  lemma FilteredSaveKeepsGateOn(store: Store, post: Post, mailDelivered: bool, host: Host)
    ensures var written := SaveHandler(store, true, post, mailDelivered, host).store;
            var filtered := UpdateOption(written, LegacyGate.OptionName, SanitizeSettings(GetOption(written, LegacyGate.OptionName), host));
            && (LegacyGate.IsEnabled(GetOption(written, LegacyGate.OptionName)) <==> "enable" in post.settings)
            && LegacyGate.IsEnabled(GetOption(filtered, LegacyGate.OptionName))
  {
  }

  // ---------------------------------------------------------------------------
  // admin_post_slp_send_email

  datatype SendOutcome = NotHandled | SendDied | Sent(mail: Option<Mail>)

  /**
    The send-email handler: does nothing without `email-admin`; otherwise a failed
    referer check dies, and a passing one mails the stored key only when it is not
    empty, then redirects back. The string handed to `sanitize_text_field` for the
    mail is then never "" or "0".
   */
  function SendEmail(store: Store, emailAdmin: bool, refererOk: bool, host: Host): (r: SendOutcome)
    ensures !emailAdmin ==> r == NotHandled
    ensures emailAdmin && !refererOk ==> r == SendDied
    ensures r.Sent? <==> emailAdmin && refererOk
    ensures var options := GetOption(store, LegacyGate.OptionName);
      r.Sent? && r.mail.Some? <==> emailAdmin && refererOk && "auth_key" in options && Truthy(options["auth_key"])
    ensures r.Sent? && r.mail.Some? ==>
      var stored := ToPhpString(GetOption(store, LegacyGate.OptionName)["auth_key"]);
      && r.mail.value == Mail(host.adminEmail, host.sanitizeText(stored))
      && stored != "" && stored != "0"
  {
    if emailAdmin then
      if !refererOk then SendDied
      else
        var options := GetOption(store, LegacyGate.OptionName);
        if "auth_key" in options && Truthy(options["auth_key"]) then
          StringConversionKeepsTruthiness(options["auth_key"]);
          Sent(Some(Mail(host.adminEmail, host.sanitizeText(ToPhpString(options["auth_key"])))))
        else Sent(None)
    else NotHandled
  }

  /** An empty, "0", null or missing stored key is never mailed by either handler. */
  lemma EmptyKeyNeverMailed(store: Store, refererOk: bool, post: Post, mailDelivered: bool, host: Host)
    requires !Truthy(Str(host.sanitizeText(PostField(post, "auth_key"))))
    ensures SaveHandler(store, refererOk, post, mailDelivered, host).mail.None?
    ensures refererOk ==>
      var saved := SaveHandler(store, refererOk, post, mailDelivered, host).store;
      SendEmail(saved, true, true, host) == Sent(None)
  {
  }
}
