/** The mobile navigation bar: which menu entries exist, which one is highlighted for
    the current route, the slide-in menu and the body-scroll lock it holds, and the
    icons of the menu entries and of the contact links. */
module MobileNav {
  import opened Js

  /** The values of the `activeTab` state. */
  datatype Tab = Home | Category | Tag | Archive | Search | Friends | Portfolio

  // ---------------------------------------------------------------------------
  // Menu entries

  /** A menu entry; `show` is `Undefined` for the entries that have no switch. */
  datatype MenuItem = MenuItem(name: string, path: string, show: Value)

  /** The four menu switches as read from the site configuration. */
  datatype MenuConfig = MenuConfig(category: Value, tag: Value, archive: Value, search: Value)

  /** Every entry, in display order, before filtering. */
  function AllMenuItems(cfg: MenuConfig): seq<MenuItem>
  {
    [ MenuItem("Home", "/", Undefined),
      MenuItem("Category", "/category", cfg.category),
      MenuItem("Tag", "/tag", cfg.tag),
      MenuItem("Archive", "/archive", cfg.archive),
      MenuItem("Portfolio", "/portfolio", Undefined),
      MenuItem("Friends", "/friend", Undefined),
      MenuItem("Search", "/search", cfg.search) ]
  }

  /** An entry is dropped only when its switch is strictly `false`. */
  predicate Shown(item: MenuItem)
  {
    item.show != Bool(false)
  }

  /** `filter(item => item.show !== false)`. */
  function KeepShown(items: seq<MenuItem>): (r: seq<MenuItem>)
    ensures |r| <= |items|
  {
    if items == [] then []
    else (if Shown(items[0]) then [items[0]] else []) + KeepShown(items[1..])
  }

  /** The filter keeps exactly the entries whose switch is not `false`. */
  lemma {:induction false} KeepShownMembers(items: seq<MenuItem>)
    ensures forall it :: it in KeepShown(items) <==> it in items && Shown(it)
    decreases |items|
  {
    if items != [] {
      KeepShownMembers(items[1..]);
      assert items == [items[0]] + items[1..];
    }
  }

  /** The filter keeps the relative order: it distributes over concatenation. */
  lemma {:induction false} KeepShownAppend(a: seq<MenuItem>, b: seq<MenuItem>)
    ensures KeepShown(a + b) == KeepShown(a) + KeepShown(b)
    decreases |a|
  {
    if a == [] {
      assert a + b == b;
    } else {
      assert a + b == [a[0]] + (a[1..] + b);
      assert a == [a[0]] + a[1..];
      KeepShownCons(a[0], a[1..] + b);
      KeepShownCons(a[0], a[1..]);
      KeepShownAppend(a[1..], b);
    }
  }

  /** The menu as rendered. */
  function MenuItems(cfg: MenuConfig): seq<MenuItem>
  {
    KeepShown(AllMenuItems(cfg))
  }

  /** The entry alone when it is shown, else nothing. */
  function IfShown(item: MenuItem): seq<MenuItem>
  {
    if Shown(item) then [item] else []
  }

  lemma KeepShownCons(x: MenuItem, rest: seq<MenuItem>)
    ensures KeepShown([x] + rest) == IfShown(x) + KeepShown(rest)
  {
    assert ([x] + rest)[1..] == rest;
  }

  /** The rendered menu, in order: Home; Category, Tag and Archive unless switched off;
      Portfolio and Friends; Search unless switched off. */
  lemma MenuLayout(cfg: MenuConfig)
    ensures MenuItems(cfg)
         == [MenuItem("Home", "/", Undefined)]
            + (IfShown(MenuItem("Category", "/category", cfg.category))
            + (IfShown(MenuItem("Tag", "/tag", cfg.tag))
            + (IfShown(MenuItem("Archive", "/archive", cfg.archive))
            + ([MenuItem("Portfolio", "/portfolio", Undefined)]
            + ([MenuItem("Friends", "/friend", Undefined)]
            + IfShown(MenuItem("Search", "/search", cfg.search)))))))
  {
    var a := AllMenuItems(cfg);
    var r6 := [a[6]];
    var r5 := [a[5]] + r6;
    var r4 := [a[4]] + r5;
    var r3 := [a[3]] + r4;
    var r2 := [a[2]] + r3;
    var r1 := [a[1]] + r2;
    assert a == [a[0]] + r1;
    KeepShownCons(a[6], []);
    assert KeepShown(r6) == IfShown(a[6]) by { assert [a[6]] + [] == r6; }
    KeepShownCons(a[5], r6);
    KeepShownCons(a[4], r5);
    KeepShownCons(a[3], r4);
    KeepShownCons(a[2], r3);
    KeepShownCons(a[1], r2);
    KeepShownCons(a[0], r1);
  }

  /** The menu has an entry called `name`. */
  predicate HasEntry(items: seq<MenuItem>, name: string)
  {
    exists it :: it in items && it.name == name
  }

  /** Home, Portfolio and Friends are always in the menu, and Home comes first. */
  lemma FixedEntriesAlwaysShown(cfg: MenuConfig)
    ensures MenuItems(cfg) != [] && MenuItems(cfg)[0].name == "Home"
    ensures HasEntry(MenuItems(cfg), "Home") && HasEntry(MenuItems(cfg), "Portfolio")
    ensures HasEntry(MenuItems(cfg), "Friends")
  {
    var a := AllMenuItems(cfg);
    KeepShownMembers(a);
    assert a[0] in MenuItems(cfg) && a[4] in MenuItems(cfg) && a[5] in MenuItems(cfg);
    MenuLayout(cfg);
  }

  /** Each of the four switchable entries is in the menu exactly when its switch is not
      `false`: `null`, an absent key, `0` or `""` leave it shown. */
  lemma SwitchedEntries(cfg: MenuConfig)
    ensures HasEntry(MenuItems(cfg), "Category") <==> cfg.category != Bool(false)
    ensures HasEntry(MenuItems(cfg), "Tag") <==> cfg.tag != Bool(false)
    ensures HasEntry(MenuItems(cfg), "Archive") <==> cfg.archive != Bool(false)
    ensures HasEntry(MenuItems(cfg), "Search") <==> cfg.search != Bool(false)
  {
    var a := AllMenuItems(cfg);
    MenuNamesDistinct(cfg);
    SwitchedEntry(a, 1);
    SwitchedEntry(a, 2);
    SwitchedEntry(a, 3);
    SwitchedEntry(a, 6);
  }

  /** No two menu entries share a name. */
  lemma MenuNamesDistinct(cfg: MenuConfig)
    ensures forall i, j :: 0 <= i < j < |AllMenuItems(cfg)| ==> AllMenuItems(cfg)[i].name != AllMenuItems(cfg)[j].name
  {
    var a := AllMenuItems(cfg);
    forall i, j | 0 <= i < j < 7 ensures a[i].name != a[j].name {
      assert |a[i].name| != |a[j].name| || a[i].name[0] != a[j].name[0];
    }
  }

  /** In a list whose entries have distinct names, the filtered list has entry k's name
      exactly when entry k is shown. */
  lemma SwitchedEntry(a: seq<MenuItem>, k: nat)
    requires k < |a|
    requires forall i, j :: 0 <= i < j < |a| ==> a[i].name != a[j].name
    ensures HasEntry(KeepShown(a), a[k].name) <==> Shown(a[k])
  {
    KeepShownMembers(a);
    if Shown(a[k]) {
      assert a[k] in KeepShown(a);
    }
  }

  // ---------------------------------------------------------------------------
  // The active tab

  /** A route rule: a path containing `fragment` selects `tab`. */
  datatype TabRule = TabRule(fragment: string, tab: Tab)

  /** The substring rules, in the order they are tried. */
  const TabRules: seq<TabRule> := [
    TabRule("/category", Category), TabRule("/tag", Tag), TabRule("/archive", Archive),
    TabRule("/search", Search), TabRule("/friend", Friends), TabRule("/portfolio", Portfolio)]

  /** The tab of the first rule whose fragment the path contains, else `fallback`. */
  function FirstRule(path: string, rules: seq<TabRule>, fallback: Tab): Tab
  {
    if rules == [] then fallback
    else if Includes(path, rules[0].fragment) then rules[0].tab
    else FirstRule(path, rules[1..], fallback)
  }

  /** The route effect: the tab for `path`, given the tab selected before. */
  function NextActiveTab(path: string, current: Tab): (t: Tab)
    ensures path == "/" ==> t == Home
  {
    if path == "/" then Home
    else if Includes(path, "/category") then Category
    else if Includes(path, "/tag") then Tag
    else if Includes(path, "/archive") then Archive
    else if Includes(path, "/search") then Search
    else if Includes(path, "/friend") then Friends
    else if Includes(path, "/portfolio") then Portfolio
    else current
  }

  /** The effect's `else if` chain is the rule table tried in order. */
  lemma NextActiveTabFollowsRules(path: string, current: Tab)
    ensures path != "/" ==> NextActiveTab(path, current) == FirstRule(path, TabRules, current)
  {
    var r := TabRules;
    var r5 := [r[5]];
    var r4 := [r[4]] + r5;
    var r3 := [r[3]] + r4;
    var r2 := [r[2]] + r3;
    var r1 := [r[1]] + r2;
    assert r == [r[0]] + r1;
    FirstRuleCons(path, r[5], [], current);
    assert [r[5]] + [] == r5;
    FirstRuleCons(path, r[4], r5, current);
    FirstRuleCons(path, r[3], r4, current);
    FirstRuleCons(path, r[2], r3, current);
    FirstRuleCons(path, r[1], r2, current);
    FirstRuleCons(path, r[0], r1, current);
  }

  lemma FirstRuleCons(path: string, rule: TabRule, rest: seq<TabRule>, fallback: Tab)
    ensures FirstRule(path, [rule] + rest, fallback)
         == if Includes(path, rule.fragment) then rule.tab else FirstRule(path, rest, fallback)
  {
    assert ([rule] + rest)[1..] == rest;
  }

  /** The first rule that matches decides; if none matches, the previous tab stays. */
  lemma {:induction false} FirstRuleDecides(path: string, rules: seq<TabRule>, fallback: Tab)
    ensures (forall k :: 0 <= k < |rules| ==> !Includes(path, rules[k].fragment))
            ==> FirstRule(path, rules, fallback) == fallback
    ensures forall k ::
              (0 <= k < |rules| && Includes(path, rules[k].fragment)
               && (forall j :: 0 <= j < k ==> !Includes(path, rules[j].fragment)))
              ==> FirstRule(path, rules, fallback) == rules[k].tab
  {
    if rules != [] {
      FirstRuleDecides(path, rules[1..], fallback);
      assert forall k :: 0 < k < |rules| ==> rules[1..][k - 1] == rules[k];
    }
  }

  /** Home is chosen for the exact root path only: any other path selects Home only when
      Home was already selected and no rule matched. */
  lemma HomeOnlyForRoot(path: string, current: Tab)
    ensures NextActiveTab(path, current) == Home <==> path == "/" || (current == Home && FirstRule(path, TabRules, Home) == Home)
  {
    NextActiveTabFollowsRules(path, current);
    FirstRuleNeverHome(path, TabRules, current);
    FirstRuleNeverHome(path, TabRules, Home);
  }

  lemma {:induction false} FirstRuleNeverHome(path: string, rules: seq<TabRule>, fallback: Tab)
    requires forall k :: 0 <= k < |rules| ==> rules[k].tab != Home
    ensures FirstRule(path, rules, fallback) == Home ==> fallback == Home
    ensures FirstRule(path, rules, fallback) == Home <==> FirstRule(path, rules, Home) == Home && fallback == Home
  {
    if rules != [] {
      FirstRuleNeverHome(path, rules[1..], fallback);
      FirstRuleNeverHome(path, rules[1..], Home);
    }
  }

  /** A path containing `/category` selects Category whatever else it contains. */
  lemma CategoryComesFirst(path: string, current: Tab)
    requires path != "/" && Includes(path, "/category")
    ensures NextActiveTab(path, current) == Category
  {
  }

  /** A route that matches no rule keeps the previous tab. */
  lemma UnmatchedRouteKeepsTab(path: string, current: Tab)
    requires path != "/"
    requires forall k :: 0 <= k < |TabRules| ==> !Includes(path, TabRules[k].fragment)
    ensures NextActiveTab(path, current) == current
  {
    NextActiveTabFollowsRules(path, current);
    FirstRuleDecides(path, TabRules, current);
  }

  /** The root with a query string is not the root: the previous tab stays. */
  lemma RootWithQueryKeepsTab(current: Tab)
    ensures NextActiveTab("/?p=1", current) == current
  {
    var path := "/?p=1";
    assert path[..4][1] != "/tag"[1];
    assert path[1..][..4][0] != "/tag"[0];
    assert |path[1..][1..]| < 4;
    assert !Includes(path, "/tag");
  }

  // ---------------------------------------------------------------------------
  // The menu and the body-scroll lock

  /** The body overflow style the lock effect writes for a menu state. */
  function OverflowFor(open: bool): string
  {
    if open then "hidden" else ""
  }

  class NavState {
    // React state
    var activeTab: Tab
    var isMenuOpen: bool
    // `document.body.style.overflow`
    var bodyOverflow: string
    var mounted: bool
    // The dependency values the route effects and the lock effect last ran with
    var committedPath: string
    var committedOpen: bool

    /** While mounted, the lock effect has run for the current menu state, so the body
        scroll is locked exactly while the menu is open; after unmount it is released. */
    predicate Valid()
      reads this
    {
      && (mounted ==> committedOpen == isMenuOpen && bodyOverflow == OverflowFor(isMenuOpen))
      && (!mounted ==> bodyOverflow == "")
    }

    /** The lock effect, after a render that may have changed `isMenuOpen`: when the
        dependency changed, the cleanup releases the lock, then the body sets it. */
    method SyncLock()
      requires mounted
      modifies this`bodyOverflow, this`committedOpen
      ensures committedOpen == isMenuOpen
      ensures bodyOverflow == if isMenuOpen != old(committedOpen) then OverflowFor(isMenuOpen) else old(bodyOverflow)
    {
      if isMenuOpen != committedOpen {
        bodyOverflow := "";
        bodyOverflow := OverflowFor(isMenuOpen);
        committedOpen := isMenuOpen;
      }
    }

    /** Mount on `path`: the first render (Home, menu closed), then the three effects. */
    constructor (path: string)
      ensures Valid() && mounted
      ensures activeTab == NextActiveTab(path, Home) && !isMenuOpen && bodyOverflow == ""
      ensures committedPath == path
    {
      activeTab, isMenuOpen, mounted := Home, false, true;
      activeTab := NextActiveTab(path, Home);
      isMenuOpen := false;
      bodyOverflow := OverflowFor(false);
      committedPath, committedOpen := path, false;
    }

    /** A commit with the router at `path`. On a route change the tab effect and the
        close-menu effect run; the lock effect then follows the menu state. */
    method Navigate(path: string)
      requires Valid() && mounted
      modifies this`activeTab, this`isMenuOpen, this`bodyOverflow, this`committedPath, this`committedOpen
      ensures Valid() && committedPath == path
      ensures path != old(committedPath) ==> activeTab == NextActiveTab(path, old(activeTab)) && !isMenuOpen
      ensures path == old(committedPath) ==> activeTab == old(activeTab) && isMenuOpen == old(isMenuOpen)
    {
      if path != committedPath {
        activeTab := NextActiveTab(path, activeTab);
        isMenuOpen := false;
        committedPath := path;
      }
      SyncLock();
    }

    /** The hamburger button flips the menu. */
    method Toggle()
      requires Valid() && mounted
      modifies this`isMenuOpen, this`bodyOverflow, this`committedOpen
      ensures Valid()
      ensures isMenuOpen == !old(isMenuOpen)
      ensures bodyOverflow == if isMenuOpen then "hidden" else ""
    {
      isMenuOpen := !isMenuOpen;
      SyncLock();
    }

    /** A click on the backdrop closes the menu. */
    method BackdropClick()
      requires Valid() && mounted
      modifies this`isMenuOpen, this`bodyOverflow, this`committedOpen
      ensures Valid()
      ensures !isMenuOpen && bodyOverflow == ""
    {
      isMenuOpen := false;
      SyncLock();
    }

    /** Unmount: the lock effect's cleanup releases the body scroll. */
    method Unmount()
      requires Valid() && mounted
      modifies this`mounted, this`bodyOverflow
      ensures Valid() && !mounted && bodyOverflow == ""
    {
      bodyOverflow := "";
      mounted := false;
    }
  }

  /** Opening the menu and then navigating leaves it closed and the body unlocked. */
  method NavigatingClosesMenu() returns (nav: NavState)
    ensures nav.Valid() && !nav.isMenuOpen && nav.bodyOverflow == "" && nav.activeTab == Tag
  {
    nav := new NavState("/");
    nav.Toggle();
    assert "/tag"[..4] == "/tag";
    nav.Navigate("/tag");
  }

  // ---------------------------------------------------------------------------
  // Icons

  /** The menu icons. */
  datatype NavIcon = AppsFill | BookMarkFill | BarcodeFill | StackFill | Compass3Fill | EarthFill | ProfileFill

  const NavIcons: map<string, NavIcon> := map[
    "Home" := AppsFill, "Category" := BookMarkFill, "Tag" := BarcodeFill, "Archive" := StackFill,
    "Search" := Compass3Fill, "Friends" := EarthFill, "Portfolio" := ProfileFill]

  /** `renderIcon`: the icon registered for a menu entry name, or nothing. */
  function RenderIcon(name: string): (r: Option<NavIcon>)
    ensures r.Some? <==> name in NavIcons
    ensures r.Some? ==> r.value == NavIcons[name]
  {
    if name in NavIcons then Some(NavIcons[name]) else None
  }

  /** Every entry the menu can show has an icon. */
  lemma MenuIconsComplete(cfg: MenuConfig)
    ensures forall it :: it in MenuItems(cfg) ==> RenderIcon(it.name).Some?
  {
    var a := AllMenuItems(cfg);
    KeepShownMembers(a);
    forall it | it in MenuItems(cfg) ensures it.name in NavIcons {
      assert it in a;
      assert it == a[0] || it == a[1] || it == a[2] || it == a[3] || it == a[4] || it == a[5] || it == a[6];
    }
  }

  /** The entry name an icon belongs to. */
  function IconOwner(icon: NavIcon): string
  {
    match icon
    case AppsFill => "Home"
    case BookMarkFill => "Category"
    case BarcodeFill => "Tag"
    case StackFill => "Archive"
    case Compass3Fill => "Search"
    case EarthFill => "Friends"
    case ProfileFill => "Portfolio"
  }

  /** No two entries share an icon: each icon names its one owner. */
  lemma MenuIconsDistinct()
    ensures forall name :: name in NavIcons ==> IconOwner(NavIcons[name]) == name
  {
  }

  /** The contact icons. */
  datatype SocialIcon = Github | Twitter | Weibo | Bilibili | Telegram | Instagram | Youtube | Linkedin | Wechat | Planet

  /** The icon table, keyed by configuration key (the WeChat key is spelled
      `CONTACT_WEHCHAT_PUBLIC` here and in the link list alike). */
  const SocialIcons: map<string, SocialIcon> := map[
    "CONTACT_GITHUB" := Github, "CONTACT_TWITTER" := Twitter, "CONTACT_WEIBO" := Weibo,
    "CONTACT_BILIBILI" := Bilibili, "CONTACT_TELEGRAM" := Telegram, "CONTACT_INSTAGRAM" := Instagram,
    "CONTACT_YOUTUBE" := Youtube, "CONTACT_LINKEDIN" := Linkedin, "CONTACT_WEHCHAT_PUBLIC" := Wechat,
    "CONTACT_ZHISHIXINGQIU" := Planet]

  /** A contact link: its configuration key, an optional image path and its label. */
  datatype SocialLink = SocialLink(key: string, svg: Option<string>, title: string)

  const SocialLinks: seq<SocialLink> := [
    SocialLink("CONTACT_GITHUB", None, "GitHub"),
    SocialLink("CONTACT_TWITTER", None, "Twitter"),
    SocialLink("CONTACT_WEIBO", None, "Weibo"),
    SocialLink("CONTACT_BILIBILI", None, "Bilibili"),
    SocialLink("CONTACT_TELEGRAM", None, "Telegram"),
    SocialLink("CONTACT_INSTAGRAM", None, "Instagram"),
    SocialLink("CONTACT_YOUTUBE", None, "YouTube"),
    SocialLink("CONTACT_XIAOHONGSHU", Some("/svg/xiaohongshu.svg"), "Xiaohongshu"),
    SocialLink("CONTACT_LINKEDIN", None, "LinkedIn"),
    SocialLink("CONTACT_ZHISHIXINGQIU", None, "Zhishixingqiu"),
    SocialLink("CONTACT_WEHCHAT_PUBLIC", None, "WeChat")]

  /** What a contact link shows: an image, or an icon from the table. */
  datatype SocialGlyph = Image(src: string, alt: string) | Glyph(icon: SocialIcon)

  /** `renderSocialIcon`: an image path wins over the table; an unknown key without
      one shows nothing. */
  function RenderSocialIcon(key: string, svg: Option<string>, title: string): (r: Option<SocialGlyph>)
    ensures TruthyString(svg) ==> r == Some(Image(svg.value, title))
    ensures !TruthyString(svg) ==> (r.Some? <==> key in SocialIcons)
    ensures !TruthyString(svg) && r.Some? ==> r.value == Glyph(SocialIcons[key])
  {
    if TruthyString(svg) then Some(Image(svg.value, title))
    else if key in SocialIcons then Some(Glyph(SocialIcons[key]))
    else None
  }

  /** Every listed contact link has something to show. */
  lemma ContactLinksAllHaveIcons()
    ensures forall l :: l in SocialLinks ==> RenderSocialIcon(l.key, l.svg, l.title).Some?
  {
    var links := SocialLinks;
    forall l | l in links ensures TruthyString(l.svg) || l.key in SocialIcons {
      var i :| 0 <= i < |links| && links[i] == l;
      if i == 7 {
        assert TruthyString(l.svg);
      } else {
        assert l.key in SocialIcons;
      }
    }
  }

  /** The value the site configuration holds for a key; an absent key reads as undefined. */
  function Lookup(config: map<string, Value>, key: string): Value
  {
    if key in config then config[key] else Undefined
  }

  /** The contact links rendered: those whose configured URL is truthy, in list order. */
  function ConfiguredLinks(links: seq<SocialLink>, config: map<string, Value>): (r: seq<SocialLink>)
    ensures |r| <= |links|
    ensures forall l :: l in r <==> l in links && Truthy(Lookup(config, l.key))
  {
    if links == [] then []
    else (if Truthy(Lookup(config, links[0].key)) then [links[0]] else []) + ConfiguredLinks(links[1..], config)
  }

  /** The contact filter keeps the list order. */
  lemma {:induction false} ConfiguredLinksAppend(a: seq<SocialLink>, b: seq<SocialLink>, config: map<string, Value>)
    ensures ConfiguredLinks(a + b, config) == ConfiguredLinks(a, config) + ConfiguredLinks(b, config)
    decreases |a|
  {
    if a == [] {
      assert a + b == b;
    } else {
      assert (a + b)[1..] == a[1..] + b;
      ConfiguredLinksAppend(a[1..], b, config);
    }
  }

  /** With no contact configured, the contact row holds no link. */
  lemma NoContactConfigured()
    ensures ConfiguredLinks(SocialLinks, map[]) == []
  {
    assert forall l :: l in ConfiguredLinks(SocialLinks, map[]) ==> !Truthy(Lookup(map[], l.key));
  }
}
