/**
 * Base-path resolution and link prefixing for a site that may be deployed
 * under a sub-path. The ambient `window`, `import.meta.env` and
 * `process.env` become an explicit `Runtime` value; an environment string
 * that is unset or empty (both falsy in `||`) is written "".
 */
module Links {

  datatype Option<T> = None | Some(value: T)

  /** `import.meta.env` in the browser: `BASE_URL` and `SITE`. */
  datatype ClientEnv = ClientEnv(baseUrl: string, site: string)

  /** `process.env` on the server: `BASE_PATH`, `NODE_ENV`, `PROD_BASE_PATH`. */
  datatype ServerEnv = ServerEnv(basePath: string, nodeEnv: string, prodBasePath: string)

  /** `client` is present when `window` is defined and `import.meta.env` is
      set; `server` is present when `process.env` is. */
  datatype Runtime = Runtime(client: Option<ClientEnv>, server: Option<ServerEnv>)

  const DefaultSiteUrl: string := "https://your-portfolio-domain.com"

  /** `getBasePath`: the deployment base, never empty. */
  function GetBasePath(rt: Runtime): (r: string)
    ensures r != ""
    ensures || r == "/" || r == "/staging"
            || (rt.client.Some? && r == rt.client.value.baseUrl)
            || (rt.client.None? && rt.server.Some? && (r == rt.server.value.basePath || r == rt.server.value.prodBasePath))
  {
    match rt.client
    case Some(c) => if c.baseUrl != "" then c.baseUrl else "/"
    case None =>
      match rt.server
      case None => "/"
      case Some(p) =>
        if p.basePath != "" then p.basePath
        else
          var env := if p.nodeEnv != "" then p.nodeEnv else "development";
          if env == "production" then (if p.prodBasePath != "" then p.prodBasePath else "/")
          else if env == "staging" then "/staging"
          else "/"
  }

  /** The decision table of `getBasePath`, row by row. */
  lemma BasePathTable(rt: Runtime)
    ensures rt.client.Some? ==>
      GetBasePath(rt) == if rt.client.value.baseUrl != "" then rt.client.value.baseUrl else "/"
    ensures rt.client.None? && rt.server.None? ==> GetBasePath(rt) == "/"
    ensures rt.client.None? && rt.server.Some? && rt.server.value.basePath != "" ==>
      GetBasePath(rt) == rt.server.value.basePath
    ensures rt.client.None? && rt.server.Some? && rt.server.value.basePath == "" ==>
      var p := rt.server.value;
      GetBasePath(rt) == if p.nodeEnv == "production" then (if p.prodBasePath != "" then p.prodBasePath else "/")
                         else if p.nodeEnv == "staging" then "/staging"
                         else "/"
  {
  }

  /** A string of `k` slashes. */
  function Slashes(k: nat): (r: string)
    ensures |r| == k && forall i :: 0 <= i < k ==> r[i] == '/'
  {
    seq(k, _ => '/')
  }

  predicate NoDoubleSlash(s: string) {
    forall i :: 0 <= i < |s| - 1 ==> !(s[i] == '/' && s[i + 1] == '/')
  }

  predicate EndsWith(s: string, suffix: string) {
    |suffix| <= |s| && s[|s| - |suffix|..] == suffix
  }

  /** The characters of `s` other than '/', in order. */
  function NonSlash(s: string): (r: string)
    ensures forall i :: 0 <= i < |r| ==> r[i] != '/'
    decreases |s|
  {
    if s == [] then [] else (if s[0] == '/' then [] else [s[0]]) + NonSlash(s[1..])
  }

  /** `s.replace(/\/+/g, '/')`: a slash followed by another slash is dropped,
      so each maximal run of slashes leaves exactly one. */
  function CollapseSlashes(s: string): (r: string)
    ensures |r| <= |s|
    ensures s != [] ==> r != [] && r[0] == s[0]
    decreases |s|
  {
    if |s| < 2 then s
    else if s[0] == '/' && s[1] == '/' then CollapseSlashes(s[1..])
    else [s[0]] + CollapseSlashes(s[1..])
  }

  /** The result of the collapse never holds "//". */
  lemma {:induction false} CollapseNoDoubleSlash(s: string)
    ensures NoDoubleSlash(CollapseSlashes(s))
    decreases |s|
  {
    if |s| >= 2 {
      CollapseNoDoubleSlash(s[1..]);
    }
  }

  /** A string without "//" is left as it is. */
  lemma {:induction false} CollapseKeepsClean(s: string)
    requires NoDoubleSlash(s)
    ensures CollapseSlashes(s) == s
    decreases |s|
  {
    if |s| >= 2 {
      assert NoDoubleSlash(s[1..]) by {
        forall i | 0 <= i < |s[1..]| - 1 ensures !(s[1..][i] == '/' && s[1..][i + 1] == '/') {
          assert s[1..][i] == s[i + 1] && s[1..][i + 1] == s[i + 2];
        }
      }
      CollapseKeepsClean(s[1..]);
      assert s == [s[0]] + s[1..];
    }
  }

  /** Collapsing twice is collapsing once. */
  lemma {:induction false} CollapseIdempotent(s: string)
    ensures CollapseSlashes(CollapseSlashes(s)) == CollapseSlashes(s)
  {
    CollapseNoDoubleSlash(s);
    CollapseKeepsClean(CollapseSlashes(s));
  }

  lemma {:induction false} NonSlashAppend(a: string, b: string)
    ensures NonSlash(a + b) == NonSlash(a) + NonSlash(b)
    decreases |a|
  {
    if a != [] {
      assert (a + b)[1..] == a[1..] + b;
      NonSlashAppend(a[1..], b);
    } else {
      assert a + b == b;
    }
  }

  /** Every character other than '/' survives the collapse, in order. */
  lemma {:induction false} CollapseKeepsNonSlash(s: string)
    ensures NonSlash(CollapseSlashes(s)) == NonSlash(s)
    decreases |s|
  {
    if |s| >= 2 {
      CollapseKeepsNonSlash(s[1..]);
      if !(s[0] == '/' && s[1] == '/') {
        var t := [s[0]] + CollapseSlashes(s[1..]);
        assert t[0] == s[0] && t[1..] == CollapseSlashes(s[1..]);
      }
    }
  }

  /** A run of any positive length collapses exactly as a single slash does. */
  lemma {:induction false} CollapseRun(k: nat, s: string)
    requires k >= 1
    ensures CollapseSlashes(Slashes(k) + s) == CollapseSlashes("/" + s)
    decreases k
  {
    if k > 1 {
      var t := Slashes(k) + s;
      assert t[1..] == Slashes(k - 1) + s;
      if k == 2 {
        assert Slashes(1) == "/";
      }
      CollapseRun(k - 1, s);
    } else {
      assert Slashes(1) == "/";
    }
  }

  /** Where no run of slashes straddles the seam, collapsing distributes
      over concatenation. */
  lemma {:induction false} CollapseAppend(a: string, b: string)
    requires a == [] || b == [] || a[|a| - 1] != '/' || b[0] != '/'
    ensures CollapseSlashes(a + b) == CollapseSlashes(a) + CollapseSlashes(b)
    decreases |a|
  {
    if a == [] {
      assert a + b == b;
    } else if b == [] {
      assert a + b == a;
    } else if |a| == 1 {
      var t := a + b;
      assert t[1..] == b;
    } else {
      var t := a + b;
      assert t[1..] == a[1..] + b;
      CollapseAppend(a[1..], b);
    }
  }

  /** Whatever precedes it, a tail starting with '/' keeps its collapsed form. */
  lemma {:induction false} CollapseKeepsTail(a: string, b: string)
    requires b != [] && b[0] == '/'
    ensures EndsWith(CollapseSlashes(a + b), CollapseSlashes(b))
    decreases |a|
  {
    if a == [] {
      assert a + b == b;
    } else {
      var t := a + b;
      assert t[1..] == a[1..] + b;
      CollapseKeepsTail(a[1..], b);
      var tail := CollapseSlashes(t[1..]);
      if !(t[0] == '/' && t[1] == '/') {
        assert ([t[0]] + tail)[|[t[0]] + tail| - |CollapseSlashes(b)|..] == tail[|tail| - |CollapseSlashes(b)|..];
      }
    }
  }

  /** A link that `applyBasePath` leaves alone: "http…", "mailto:…" or "//…". */
  predicate IsExternal(path: string) {
    "http" <= path || "mailto:" <= path || "//" <= path
  }

  /** `applyBasePath`. */
  function ApplyBasePath(rt: Runtime, path: string): (r: string)
    ensures IsExternal(path) || GetBasePath(rt) == "/" ==> r == path
    ensures !IsExternal(path) && GetBasePath(rt) != "/" ==>
      && NoDoubleSlash(r)
      && NonSlash(r) == NonSlash(GetBasePath(rt)) + NonSlash(path)
      && CollapseSlashes(r) == r
      && r == CollapseSlashes(GetBasePath(rt) + path)
  {
    var base := GetBasePath(rt);
    if IsExternal(path) then path
    else if base == "/" then path
    else
      var joined := base + path;
      CollapseNoDoubleSlash(joined);
      CollapseKeepsNonSlash(joined);
      NonSlashAppend(base, path);
      CollapseIdempotent(joined);
      CollapseSlashes(joined)
  }

  /** Applied to a site path, `applyBasePath` yields that path under the
      collapsed base: it has no "//" and ends with the path itself. */
  predicate SitePath(path: string) {
    path != [] && path[0] == '/' && NoDoubleSlash(path)
  }

  lemma ApplyBasePathKeepsSitePath(rt: Runtime, path: string)
    requires SitePath(path)
    ensures NoDoubleSlash(ApplyBasePath(rt, path))
    ensures EndsWith(ApplyBasePath(rt, path), path)
  {
    assert !("http" <= path) by { assert "http"[0] != path[0]; }
    assert !("mailto:" <= path) by { assert "mailto:"[0] != path[0]; }
    assert !("//" <= path) by {
      if |path| >= 2 {
        assert !(path[0] == '/' && path[1] == '/');
      }
    }
    var base := GetBasePath(rt);
    if base == "/" {
      assert path[|path| - |path|..] == path;
    } else {
      CollapseKeepsTail(base, path);
      CollapseKeepsClean(path);
    }
  }

  /** `SITE_URL`: the site URL, with the base appended as is (no collapse)
      unless the base is "/". */
  function SiteBaseUrl(rt: Runtime): (r: string)
    ensures r == DefaultSiteUrl || (rt.client.Some? && r == rt.client.value.site && r != "")
    ensures rt.client.Some? && rt.client.value.site != "" ==> r == rt.client.value.site
    ensures rt.client.None? || rt.client.value.site == "" ==> r == DefaultSiteUrl
  {
    match rt.client
    case Some(c) => if c.site != "" then c.site else DefaultSiteUrl
    case None => DefaultSiteUrl
  }

  function SiteUrl(rt: Runtime): (r: string)
    ensures SiteBaseUrl(rt) <= r
    ensures r[|SiteBaseUrl(rt)|..] == if GetBasePath(rt) == "/" then "" else GetBasePath(rt)
  {
    var basePath := GetBasePath(rt);
    var baseUrl := SiteBaseUrl(rt);
    if basePath == "/" then baseUrl else baseUrl + basePath
  }

  /** `SITE_URL` keeps the "//" of the scheme, which `applyBasePath` would
      have collapsed: it is never one of `applyBasePath`'s prefixed results. */
  lemma SiteUrlKeepsScheme(rt: Runtime)
    requires rt.client.None?
    ensures "https://" <= SiteUrl(rt)
    ensures !NoDoubleSlash(SiteUrl(rt))
  {
    var r := SiteUrl(rt);
    assert "https://" <= DefaultSiteUrl;
    assert r[6] == '/' && r[7] == '/';
  }

  /** `LinkItem`. */
  datatype LinkItem = LinkItem(href: string, linkLabel: Option<string>, icon: Option<string>, external: Option<bool>)

  /** An entry of `navItems` or `footerLinks`: the path and the label. */
  datatype NavEntry = NavEntry(path: string, linkLabel: string)

  const NavEntries: seq<NavEntry> := [
    NavEntry("/index.html", "ホーム"),
    NavEntry("/about.html", "自己紹介"),
    NavEntry("/skills.html", "スキル"),
    NavEntry("/works.html", "実績"),
    NavEntry("/experience.html", "職歴"),
    NavEntry("/contact.html", "お問い合わせ")
  ]

  const FooterEntries: seq<NavEntry> := [
    NavEntry("/about.html", "自己紹介"),
    NavEntry("/skills.html", "スキル"),
    NavEntry("/works.html", "実績"),
    NavEntry("/experience.html", "職歴"),
    NavEntry("/contact.html", "お問い合わせ"),
    NavEntry("/privacy.html", "プライバシーポリシー"),
    NavEntry("/terms.html", "利用規約"),
    NavEntry("/license-page.html", "ライセンス")
  ]

  /** A table of labelled links, each path passed through `applyBasePath`. */
  function PrefixedLinks(rt: Runtime, entries: seq<NavEntry>): (r: seq<LinkItem>)
    ensures |r| == |entries|
    ensures forall i :: 0 <= i < |entries| ==>
      r[i].href == ApplyBasePath(rt, entries[i].path) && r[i].linkLabel == Some(entries[i].linkLabel)
      && r[i].icon.None? && r[i].external.None?
  {
    seq(|entries|, i requires 0 <= i < |entries| =>
      LinkItem(ApplyBasePath(rt, entries[i].path), Some(entries[i].linkLabel), None, None))
  }

  function NavItems(rt: Runtime): seq<LinkItem> {
    PrefixedLinks(rt, NavEntries)
  }

  function FooterLinks(rt: Runtime): seq<LinkItem> {
    PrefixedLinks(rt, FooterEntries)
  }

  /** `socialLinks`: written out in full, never prefixed. */
  const SocialLinks: seq<LinkItem> := [
    LinkItem("https://zenn.dev/seichan", Some("Zenn"), Some("fas fa-blog"), Some(true)),
    LinkItem("mailto:0123ook.biz@gmail.com", Some("Email"), Some("fas fa-envelope"), Some(false))
  ]

  const SiteName: string := "Seiya Iwabuchi's Portfolio"
  const ContactEmail: string := "0123ook.biz@gmail.com"

  /** `PAGE_LINKS`. */
  datatype PageLinks = PageLinks(
    home: string, about: string, skills: string, works: string, experience: string,
    contact: string, privacy: string, terms: string, license: string)

  function GetPageLinks(rt: Runtime): PageLinks {
    PageLinks(
      ApplyBasePath(rt, "/index.html"), ApplyBasePath(rt, "/about.html"),
      ApplyBasePath(rt, "/skills.html"), ApplyBasePath(rt, "/works.html"),
      ApplyBasePath(rt, "/experience.html"), ApplyBasePath(rt, "/contact.html"),
      ApplyBasePath(rt, "/privacy.html"), ApplyBasePath(rt, "/terms.html"),
      ApplyBasePath(rt, "/license-page.html"))
  }

  /** `CTA_LINKS`: buttons that reuse `PAGE_LINKS` entries. */
  datatype CtaLinks = CtaLinks(
    viewWorks: LinkItem, viewAllWorks: LinkItem, contactUs: LinkItem,
    learnMore: LinkItem, viewSkills: LinkItem, viewExperience: LinkItem)

  function GetCtaLinks(rt: Runtime): CtaLinks {
    var p := GetPageLinks(rt);
    CtaLinks(
      LinkItem(p.works, Some("制作実績を見る"), None, None),
      LinkItem(p.works, Some("全ての実績を見る"), None, None),
      LinkItem(p.contact, Some("お問い合わせ"), None, None),
      LinkItem(p.about, Some("詳しく見る"), None, None),
      LinkItem(p.skills, Some("全てのスキルを見る"), None, None),
      LinkItem(p.experience, Some("経歴を見る"), None, None))
  }

  /** `ASSETS`. */
  datatype Assets = Assets(
    profileImage: string, sakuraImage: string,
    gadgetCompassPc: string, gadgetCompassMobile: string, autoVideoThumbnail: string,
    ogpDefault: string, videoThumbnail: string, placeholder: string,
    finalVideo: string)

  function GetAssets(rt: Runtime): Assets {
    Assets(
      ApplyBasePath(rt, "/images/profile.jpg"), ApplyBasePath(rt, "/images/sakura.jpg"),
      ApplyBasePath(rt, "/images/gadget-compass-pc.png"),
      ApplyBasePath(rt, "/images/ガジェットコンパス_スマホ.png"),
      ApplyBasePath(rt, "/images/自動動画生成サムネ.png"),
      ApplyBasePath(rt, "/images/profile.jpg"), ApplyBasePath(rt, "/images/video-thumbnail.jpg"),
      ApplyBasePath(rt, "/images/placeholder.jpg"),
      ApplyBasePath(rt, "/videos/final_video.mp4"))
  }

  /** `applyBasePath` over a list of site paths. */
  lemma SitePathsPrefixed(rt: Runtime, paths: seq<string>)
    requires forall i :: 0 <= i < |paths| ==> SitePath(paths[i])
    ensures forall i :: 0 <= i < |paths| ==>
      NoDoubleSlash(ApplyBasePath(rt, paths[i])) && EndsWith(ApplyBasePath(rt, paths[i]), paths[i])
  {
    forall i | 0 <= i < |paths|
      ensures NoDoubleSlash(ApplyBasePath(rt, paths[i])) && EndsWith(ApplyBasePath(rt, paths[i]), paths[i])
    {
      ApplyBasePathKeepsSitePath(rt, paths[i]);
    }
  }

  function EntryPaths(entries: seq<NavEntry>): (r: seq<string>)
    ensures |r| == |entries| && forall i :: 0 <= i < |entries| ==> r[i] == entries[i].path
  {
    seq(|entries|, i requires 0 <= i < |entries| => entries[i].path)
  }

  /** `href` is `applyBasePath` of the literal `path`: no "//", ending with `path`. */
  predicate PrefixedFrom(rt: Runtime, href: string, path: string) {
    href == ApplyBasePath(rt, path) && NoDoubleSlash(href) && EndsWith(href, path)
  }

  lemma SitePathPrefixed(rt: Runtime, path: string)
    requires SitePath(path)
    ensures PrefixedFrom(rt, ApplyBasePath(rt, path), path)
  {
    ApplyBasePathKeepsSitePath(rt, path);
  }

  /** Every href of `navItems` is `applyBasePath` of its literal path, has
      no "//" and ends with that path. */
  lemma NavItemsPrefixed(rt: Runtime)
    ensures forall i :: 0 <= i < |NavItems(rt)| ==> PrefixedFrom(rt, NavItems(rt)[i].href, NavEntries[i].path)
  {
    PagePathsAreSitePaths();
    var paths := EntryPaths(NavEntries);
    assert paths == ["/index.html", "/about.html", "/skills.html", "/works.html", "/experience.html", "/contact.html"];
    assert forall i :: 0 <= i < |paths| ==> SitePath(paths[i]);
    SitePathsPrefixed(rt, paths);
    var links := NavItems(rt);
    forall i | 0 <= i < |links| ensures PrefixedFrom(rt, links[i].href, NavEntries[i].path) {
      assert links[i].href == ApplyBasePath(rt, paths[i]);
    }
  }

  /** The same for `footerLinks`. */
  lemma FooterLinksPrefixed(rt: Runtime)
    ensures forall i :: 0 <= i < |FooterLinks(rt)| ==> PrefixedFrom(rt, FooterLinks(rt)[i].href, FooterEntries[i].path)
  {
    PagePathsAreSitePaths();
    var paths := EntryPaths(FooterEntries);
    assert paths == ["/about.html", "/skills.html", "/works.html", "/experience.html", "/contact.html",
                     "/privacy.html", "/terms.html", "/license-page.html"];
    assert forall i :: 0 <= i < |paths| ==> SitePath(paths[i]);
    SitePathsPrefixed(rt, paths);
    var links := FooterLinks(rt);
    forall i | 0 <= i < |links| ensures PrefixedFrom(rt, links[i].href, FooterEntries[i].path) {
      assert links[i].href == ApplyBasePath(rt, paths[i]);
    }
  }

  /** The literal paths of `PAGE_LINKS` are site paths. */
  lemma PagePathsAreSitePaths()
    ensures SitePath("/index.html") && SitePath("/about.html") && SitePath("/skills.html")
    ensures SitePath("/works.html") && SitePath("/experience.html") && SitePath("/contact.html")
    ensures SitePath("/privacy.html") && SitePath("/terms.html") && SitePath("/license-page.html")
  {
    assert SitePath("/index.html") && SitePath("/about.html") && SitePath("/skills.html");
    assert SitePath("/works.html") && SitePath("/experience.html") && SitePath("/contact.html");
    assert SitePath("/privacy.html") && SitePath("/terms.html") && SitePath("/license-page.html");
  }

  /** The literal paths of `ASSETS` are site paths. */
  lemma AssetPathsAreSitePaths()
    ensures SitePath("/images/profile.jpg") && SitePath("/images/sakura.jpg")
    ensures SitePath("/images/gadget-compass-pc.png") && SitePath("/images/ガジェットコンパス_スマホ.png")
    ensures SitePath("/images/自動動画生成サムネ.png") && SitePath("/images/video-thumbnail.jpg")
    ensures SitePath("/images/placeholder.jpg") && SitePath("/videos/final_video.mp4")
  {
    assert SitePath("/images/profile.jpg");
    assert SitePath("/images/sakura.jpg");
    assert SitePath("/images/gadget-compass-pc.png");
    assert SitePath("/images/ガジェットコンパス_スマホ.png");
    assert SitePath("/images/自動動画生成サムネ.png");
    assert SitePath("/images/video-thumbnail.jpg");
    assert SitePath("/images/placeholder.jpg");
    assert SitePath("/videos/final_video.mp4");
  }

  /** Every entry of `PAGE_LINKS` is its literal path under the base. */
  lemma PageLinksPrefixed(rt: Runtime)
    ensures var p := GetPageLinks(rt);
      && PrefixedFrom(rt, p.home, "/index.html") && PrefixedFrom(rt, p.about, "/about.html")
      && PrefixedFrom(rt, p.skills, "/skills.html") && PrefixedFrom(rt, p.works, "/works.html")
      && PrefixedFrom(rt, p.experience, "/experience.html") && PrefixedFrom(rt, p.contact, "/contact.html")
      && PrefixedFrom(rt, p.privacy, "/privacy.html") && PrefixedFrom(rt, p.terms, "/terms.html")
      && PrefixedFrom(rt, p.license, "/license-page.html")
  {
    PagePathsAreSitePaths();
    SitePathPrefixed(rt, "/index.html");
    SitePathPrefixed(rt, "/about.html");
    SitePathPrefixed(rt, "/skills.html");
    SitePathPrefixed(rt, "/works.html");
    SitePathPrefixed(rt, "/experience.html");
    SitePathPrefixed(rt, "/contact.html");
    SitePathPrefixed(rt, "/privacy.html");
    SitePathPrefixed(rt, "/terms.html");
    SitePathPrefixed(rt, "/license-page.html");
  }

  /** Every `CTA_LINKS` button points at its `PAGE_LINKS` entry, so it is
      prefixed the same way. */
  lemma CtaLinksPrefixed(rt: Runtime)
    ensures var c := GetCtaLinks(rt);
      && PrefixedFrom(rt, c.viewWorks.href, "/works.html") && PrefixedFrom(rt, c.viewAllWorks.href, "/works.html")
      && PrefixedFrom(rt, c.contactUs.href, "/contact.html") && PrefixedFrom(rt, c.learnMore.href, "/about.html")
      && PrefixedFrom(rt, c.viewSkills.href, "/skills.html") && PrefixedFrom(rt, c.viewExperience.href, "/experience.html")
  {
    PageLinksPrefixed(rt);
  }

  /** Every entry of `ASSETS` is its literal path under the base. */
  lemma AssetsPrefixed(rt: Runtime)
    ensures var a := GetAssets(rt);
      && PrefixedFrom(rt, a.profileImage, "/images/profile.jpg")
      && PrefixedFrom(rt, a.sakuraImage, "/images/sakura.jpg")
      && PrefixedFrom(rt, a.gadgetCompassPc, "/images/gadget-compass-pc.png")
      && PrefixedFrom(rt, a.gadgetCompassMobile, "/images/ガジェットコンパス_スマホ.png")
      && PrefixedFrom(rt, a.autoVideoThumbnail, "/images/自動動画生成サムネ.png")
      && PrefixedFrom(rt, a.ogpDefault, "/images/profile.jpg")
      && PrefixedFrom(rt, a.videoThumbnail, "/images/video-thumbnail.jpg")
      && PrefixedFrom(rt, a.placeholder, "/images/placeholder.jpg")
      && PrefixedFrom(rt, a.finalVideo, "/videos/final_video.mp4")
  {
    AssetPathsAreSitePaths();
    SitePathPrefixed(rt, "/images/profile.jpg");
    SitePathPrefixed(rt, "/images/sakura.jpg");
    SitePathPrefixed(rt, "/images/gadget-compass-pc.png");
    SitePathPrefixed(rt, "/images/ガジェットコンパス_スマホ.png");
    SitePathPrefixed(rt, "/images/自動動画生成サムネ.png");
    SitePathPrefixed(rt, "/images/video-thumbnail.jpg");
    SitePathPrefixed(rt, "/images/placeholder.jpg");
    SitePathPrefixed(rt, "/videos/final_video.mp4");
  }

  /** `socialLinks` hrefs are external: `applyBasePath` would leave them
      unchanged under every base. */
  lemma SocialLinksUnprefixed(rt: Runtime)
    ensures forall i :: 0 <= i < |SocialLinks| ==> ApplyBasePath(rt, SocialLinks[i].href) == SocialLinks[i].href
  {
    assert IsExternal(SocialLinks[0].href) && IsExternal(SocialLinks[1].href);
  }
}
