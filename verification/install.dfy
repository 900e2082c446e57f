/**
  Installation helpers of `includes/install.php`: seeding the default `slp_settings`
  record on activation, the no-op deactivation, the network-wide fan-out that runs
  one of them on every site and then switches back, the new-site hook, and the
  "Settings" link prepended on the plugins screen.
 */
module Install {
  import opened Php
  import opened WordPress
  import LegacyGate

  type BlogId = int

  /** One site of a network: its option table and its `home_url()`. */
  datatype Site = Site(options: Store, home: string)

  /** A network: its sites by blog id, and the blog currently switched to. */
  datatype Network = Network(sites: map<BlogId, Site>, current: BlogId)

  /** The record seeded on activation: disabled, empty key, redirect to the site's home. */
  function Defaults(home: string): Record {
    map["enable" := Int(0), "auth_key" := Str(""), "redirect_url" := Str(home)]
  }

  /** PHP truthiness of `get_option($name)`: false when absent, an array when non-empty. */
  predicate OptionTruthy(store: Store, name: string) {
    name in store && |store[name]| > 0
  }

  /**
    `slp_activate_blog`: when `get_option('slp_settings')` is falsy, `add_option` is
    asked to seed the defaults; `add_option` refuses an existing slot, so only a
    site with no record at all gains one, and an existing record, even an empty one,
    is left as it is.
   */
  function ActivateBlog(site: Site): (r: Site)
    ensures r.home == site.home
    ensures r.options.Keys == site.options.Keys + {LegacyGate.OptionName}
    ensures forall name :: name in site.options ==> r.options[name] == site.options[name]
    ensures LegacyGate.OptionName !in site.options ==> r.options[LegacyGate.OptionName] == Defaults(site.home)
  {
    if !OptionTruthy(site.options, LegacyGate.OptionName) then
      site.(options := AddOption(site.options, LegacyGate.OptionName, Defaults(site.home)))
    else site
  }

  /** Activating twice is activating once. */
  lemma ActivateIdempotent(site: Site)
    ensures ActivateBlog(ActivateBlog(site)) == ActivateBlog(site)
  {
  }

  /** A freshly activated site has a record that leaves the legacy gate switched off. */
  lemma ActivatedSiteIsOpen(site: Site, req: Request, host: Host)
    requires LegacyGate.OptionName !in site.options
    ensures LegacyGate.CheckRequest(ActivateBlog(site).options, req, host) == Allow
  {
  }

  /** `slp_deactivate_blog`: its body is empty, so the site is returned as it was. */
  function DeactivateBlog(site: Site): (r: Site)
    ensures r == site
  {
    site
  }

  /** Which per-site callback a network-wide run applies. */
  datatype Callback = ActivateEach | DeactivateEach

  function Run(cb: Callback, site: Site): Site {
    match cb
    case ActivateEach => ActivateBlog(site)
    case DeactivateEach => DeactivateBlog(site)
  }

  predicate AllKnown(sites: map<BlogId, Site>, ids: seq<BlogId>) {
    forall i :: 0 <= i < |ids| ==> ids[i] in sites
  }

  /** The sites after running `cb` on each listed blog in turn. */
  function FanOut(sites: map<BlogId, Site>, ids: seq<BlogId>, cb: Callback): (r: map<BlogId, Site>)
    requires AllKnown(sites, ids)
    ensures r.Keys == sites.Keys
    decreases |ids|
  {
    if |ids| == 0 then sites
    else
      var prev := FanOut(sites, ids[..|ids| - 1], cb);
      var id := ids[|ids| - 1];
      prev[id := Run(cb, prev[id])]
  }

  predicate Distinct(ids: seq<BlogId>) {
    forall i, j :: 0 <= i < j < |ids| ==> ids[i] != ids[j]
  }

  /**
    With distinct blog ids each listed site has had the callback applied exactly
    once and every other site is untouched.
   */
  lemma {:induction false} FanOutOncePerSite(sites: map<BlogId, Site>, ids: seq<BlogId>, cb: Callback, id: BlogId)
    requires AllKnown(sites, ids) && Distinct(ids) && id in sites
    ensures FanOut(sites, ids, cb)[id] == if id in ids then Run(cb, sites[id]) else sites[id]
    decreases |ids|
  {
    if |ids| > 0 {
      var front := ids[..|ids| - 1];
      FanOutOncePerSite(sites, front, cb, id);
      if id == ids[|ids| - 1] {
        assert id !in front;
      } else {
        assert id in ids <==> id in front;
      }
    }
  }

  /** Activation is idempotent, so even a list with repeats seeds each listed site once. */
  lemma {:induction false} FanOutActivate(sites: map<BlogId, Site>, ids: seq<BlogId>, id: BlogId)
    requires AllKnown(sites, ids) && id in sites
    ensures FanOut(sites, ids, ActivateEach)[id] == if id in ids then ActivateBlog(sites[id]) else sites[id]
    decreases |ids|
  {
    if |ids| > 0 {
      var front := ids[..|ids| - 1];
      FanOutActivate(sites, front, id);
      assert id in ids <==> id in front || id == ids[|ids| - 1];
    }
  }

  /** Running the empty deactivation on any list of sites changes none of them. */
  lemma {:induction false} FanOutDeactivate(sites: map<BlogId, Site>, ids: seq<BlogId>)
    requires AllKnown(sites, ids)
    ensures FanOut(sites, ids, DeactivateEach) == sites
    decreases |ids|
  {
    if |ids| > 0 {
      FanOutDeactivate(sites, ids[..|ids| - 1]);
    }
  }

  /**
    `slp_handle_multisite_activation`: switch to each blog id read from the blogs
    table, run the callback there, and finally switch back to the original blog.
   */
  method HandleMultisiteActivation(net: Network, blogIds: seq<BlogId>, cb: Callback) returns (r: Network)
    requires AllKnown(net.sites, blogIds)
    ensures r.current == net.current
    ensures r.sites == FanOut(net.sites, blogIds, cb)
    ensures forall id :: id in net.sites && id !in blogIds ==> r.sites[id] == net.sites[id]
  {
    var original := net.current;
    var sites := net.sites;
    var current := net.current;
    var i := 0;
    while i < |blogIds|
      invariant 0 <= i <= |blogIds|
      invariant sites == FanOut(net.sites, blogIds[..i], cb)
      invariant forall id :: id in net.sites && id !in blogIds[..i] ==> sites[id] == net.sites[id]
    {
      current := blogIds[i];
      sites := sites[current := Run(cb, sites[current])];
      assert blogIds[..i + 1][..i] == blogIds[..i];
      assert forall id :: id in blogIds[..i + 1] <==> id in blogIds[..i] || id == blogIds[i];
      i := i + 1;
    }
    assert blogIds[..i] == blogIds;
    current := original;
    r := Network(sites, current);
  }

  /**
    `slp_on_activate`: network-wide on a multisite install runs the fan-out over all
    blogs; otherwise the current blog alone is activated.
   */
  method OnActivate(net: Network, multisite: bool, networkwide: bool, blogIds: seq<BlogId>) returns (r: Network)
    requires AllKnown(net.sites, blogIds) && net.current in net.sites
    ensures r.current == net.current && r.sites.Keys == net.sites.Keys
    ensures multisite && networkwide ==>
      forall id :: id in net.sites ==> r.sites[id] == if id in blogIds then ActivateBlog(net.sites[id]) else net.sites[id]
    ensures !(multisite && networkwide) ==> r.sites == net.sites[net.current := ActivateBlog(net.sites[net.current])]
  {
    if multisite && networkwide {
      r := HandleMultisiteActivation(net, blogIds, ActivateEach);
      forall id | id in net.sites
        ensures r.sites[id] == if id in blogIds then ActivateBlog(net.sites[id]) else net.sites[id]
      {
        FanOutActivate(net.sites, blogIds, id);
      }
    } else {
      r := net.(sites := net.sites[net.current := ActivateBlog(net.sites[net.current])]);
    }
  }

  /** `slp_on_deactivate`: whichever path it takes, the network is left exactly as it was. */
  method OnDeactivate(net: Network, multisite: bool, networkwide: bool, blogIds: seq<BlogId>) returns (r: Network)
    requires AllKnown(net.sites, blogIds) && net.current in net.sites
    ensures r == net
  {
    if multisite && networkwide {
      r := HandleMultisiteActivation(net, blogIds, DeactivateEach);
      FanOutDeactivate(net.sites, blogIds);
    } else {
      r := net.(sites := net.sites[net.current := DeactivateBlog(net.sites[net.current])]);
    }
  }

  /**
    The `wpmu_new_blog` hook: when the plugin is network-active, the new blog is
    activated and the previous blog restored; other sites are untouched.
   */
  function OnNewBlog(net: Network, blogId: BlogId, networkActive: bool): (r: Network)
    requires blogId in net.sites
    ensures r.current == net.current && r.sites.Keys == net.sites.Keys
    ensures forall id :: id in net.sites && id != blogId ==> r.sites[id] == net.sites[id]
    ensures networkActive ==> r.sites[blogId] == ActivateBlog(net.sites[blogId])
    ensures !networkActive ==> r == net
  {
    if networkActive then Network(net.sites[blogId := ActivateBlog(net.sites[blogId])], net.current)
    else net
  }

  // ---------------------------------------------------------------------------
  // plugin_action_links filter

  const SettingsHref: string := "<a href=\"options-general.php?page=stealth-login-page\">"

  /** The settings anchor with the translated, escaped caption. */
  function SettingsAnchor(caption: string): string {
    SettingsHref + caption + "</a>"
  }

  /**
    `stealth_login_page_settings_link`: one settings link in front, then the original
    links in their original order.
   */
  function SettingsLink(links: seq<string>, caption: string): (r: seq<string>)
    ensures |r| == |links| + 1
    ensures r[0] == SettingsAnchor(caption)
    ensures forall i :: 0 <= i < |links| ==> r[i + 1] == links[i]
  {
    [SettingsAnchor(caption)] + links
  }
}
