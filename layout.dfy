/**
 * The page and dashboard records of the crate root (src/lib.rs): a label
 * that becomes a link, the `Page` wrapper and the `Dashboard` with its
 * optional parts. Every builder sets one field and keeps the others,
 * except that `Page::with_content` always drops the favicons.
 */
module Layout {
  import opened Options
  import opened Links
  import opened Sidebars

  /** A simple label. */
  datatype Label = Label(text: string)

  /** `Label::new`. */
  function NewLabel(text: string): Label
  {
    Label(text)
  }

  /** `Label::with_link`: an inactive plain link with this label. */
  function WithLink(l: Label, action: LinkAction): (p: PlainLink)
    ensures p.labelText == l.text && !p.active && p.action == action
  {
    PlainLink(l.text, false, action)
  }

  /** Turning a label into a link builds the same link as `PlainLink::new`. */
  lemma WithLinkIsNewPlainLink(text: string, action: LinkAction)
    ensures WithLink(NewLabel(text), action) == NewPlainLink(text, action)
  {
  }

  /** `MaskFavIcon` (src/favicons.rs). */
  datatype MaskFavIcon = MaskFavIcon(href: string, color: string)

  /** `FavIcons` (src/favicons.rs). */
  datatype FavIcons = FavIcons(favicon: Option<string>, appleTouchIcon: Option<string>, maskIcon: Option<MaskFavIcon>)

  /** The base page; `C` is the type of the embedded content. */
  datatype Page<C> = Page(title: string, staticPath: string, favicons: Option<FavIcons>, content: C)

  /** `Page::new`: no favicons and empty content. */
  function NewPage(title: string, staticPath: string): (p: Page<string>)
    ensures p.title == title && p.staticPath == staticPath && p.favicons == None && p.content == ""
  {
    Page(title, staticPath, None, "")
  }

  /** `Page::with_content`: keeps the title and static path, replaces the content and resets the favicons. */
  function WithContent<C, D>(p: Page<C>, content: D): (r: Page<D>)
    ensures r.title == p.title && r.staticPath == p.staticPath
    ensures r.favicons == None && r.content == content
  {
    Page(p.title, p.staticPath, None, content)
  }

  /** `Page::with_favicons`: sets the favicons, keeps everything else. */
  function WithFavicons<C>(p: Page<C>, favicons: FavIcons): (r: Page<C>)
    ensures r.title == p.title && r.staticPath == p.staticPath && r.content == p.content
    ensures r.favicons == Some(favicons)
  {
    p.(favicons := Some(favicons))
  }

  /** Favicons set before `with_content` are lost; set after it, they stay. */
  lemma FaviconsOrderMatters<C, D>(p: Page<C>, f: FavIcons, content: D)
    ensures WithContent(WithFavicons(p, f), content) == WithContent(p, content)
    ensures WithFavicons(WithContent(p, content), f).favicons == Some(f)
  {
  }

  /** `PageHeader` (src/page_header.rs). */
  datatype PageHeader = PageHeader(labelText: string)

  /** `UserInfo` (src/userinfo.rs). */
  datatype UserInfo = UserInfo(username: string, image: string, groups: seq<seq<IconLink>>)

  /**
   * The dashboard; `A` is the type of the live alerts widget (`Dynamic<Alerts>`,
   * which is not part of this model) and `C` the type of the content.
   */
  datatype Dashboard<A, C> = Dashboard(
    copyright: Option<string>,
    sidebar: Option<Sidebar>,
    alerts: Option<A>,
    userinfo: Option<UserInfo>,
    pageHeader: Option<PageHeader>,
    content: C)

  /** `Dashboard::new`: every optional part absent and empty content. */
  function NewDashboard<A>(): (d: Dashboard<A, string>)
    ensures d.copyright == None && d.sidebar == None && d.alerts == None
    ensures d.userinfo == None && d.pageHeader == None && d.content == ""
  {
    Dashboard(None, None, None, None, None, "")
  }

  /** `Default for Dashboard`. */
  function DefaultDashboard<A>(): (d: Dashboard<A, string>)
    ensures d == NewDashboard()
  {
    NewDashboard()
  }

  /** `Dashboard::with_sidebar`. */
  function WithSidebar<A, C>(d: Dashboard<A, C>, s: Sidebar): (r: Dashboard<A, C>)
    ensures r.sidebar == Some(s)
    ensures r.copyright == d.copyright && r.alerts == d.alerts && r.userinfo == d.userinfo
    ensures r.pageHeader == d.pageHeader && r.content == d.content
  {
    d.(sidebar := Some(s))
  }

  /** `Dashboard::with_copyright`. */
  function WithCopyright<A, C>(d: Dashboard<A, C>, c: string): (r: Dashboard<A, C>)
    ensures r.copyright == Some(c)
    ensures r.sidebar == d.sidebar && r.alerts == d.alerts && r.userinfo == d.userinfo
    ensures r.pageHeader == d.pageHeader && r.content == d.content
  {
    d.(copyright := Some(c))
  }

  /** `Dashboard::with_alerts`. */
  function WithAlerts<A, C>(d: Dashboard<A, C>, a: A): (r: Dashboard<A, C>)
    ensures r.alerts == Some(a)
    ensures r.copyright == d.copyright && r.sidebar == d.sidebar && r.userinfo == d.userinfo
    ensures r.pageHeader == d.pageHeader && r.content == d.content
  {
    d.(alerts := Some(a))
  }

  /** `Dashboard::with_userinfo`. */
  function WithUserInfo<A, C>(d: Dashboard<A, C>, u: UserInfo): (r: Dashboard<A, C>)
    ensures r.userinfo == Some(u)
    ensures r.copyright == d.copyright && r.sidebar == d.sidebar && r.alerts == d.alerts
    ensures r.pageHeader == d.pageHeader && r.content == d.content
  {
    d.(userinfo := Some(u))
  }

  /** `Dashboard::with_page_header`. */
  function WithPageHeader<A, C>(d: Dashboard<A, C>, h: PageHeader): (r: Dashboard<A, C>)
    ensures r.pageHeader == Some(h)
    ensures r.copyright == d.copyright && r.sidebar == d.sidebar && r.alerts == d.alerts
    ensures r.userinfo == d.userinfo && r.content == d.content
  {
    d.(pageHeader := Some(h))
  }

  /** `Dashboard::replace_content`: keeps the five optional parts, swaps only the content. */
  function ReplaceContent<A, C, D>(d: Dashboard<A, C>, content: D): (r: Dashboard<A, D>)
    ensures r.copyright == d.copyright && r.sidebar == d.sidebar && r.alerts == d.alerts
    ensures r.userinfo == d.userinfo && r.pageHeader == d.pageHeader && r.content == content
  {
    Dashboard(d.copyright, d.sidebar, d.alerts, d.userinfo, d.pageHeader, content)
  }

  /** Each setter replaces its field, so of two calls of the same setter the last one wins. */
  lemma DashboardSettersLastWins<A, C>(
    d: Dashboard<A, C>, s1: Sidebar, s2: Sidebar, c1: string, c2: string,
    a1: A, a2: A, u1: UserInfo, u2: UserInfo, h1: PageHeader, h2: PageHeader)
    ensures WithSidebar(WithSidebar(d, s1), s2) == WithSidebar(d, s2)
    ensures WithCopyright(WithCopyright(d, c1), c2) == WithCopyright(d, c2)
    ensures WithAlerts(WithAlerts(d, a1), a2) == WithAlerts(d, a2)
    ensures WithUserInfo(WithUserInfo(d, u1), u2) == WithUserInfo(d, u2)
    ensures WithPageHeader(WithPageHeader(d, h1), h2) == WithPageHeader(d, h2)
  {
  }

  /** Setters of different fields commute: all ten pairs. */
  lemma DashboardSettersCommute<A, C>(
    d: Dashboard<A, C>, s: Sidebar, c: string, a: A, u: UserInfo, h: PageHeader)
    ensures WithSidebar(WithCopyright(d, c), s) == WithCopyright(WithSidebar(d, s), c)
    ensures WithSidebar(WithAlerts(d, a), s) == WithAlerts(WithSidebar(d, s), a)
    ensures WithSidebar(WithUserInfo(d, u), s) == WithUserInfo(WithSidebar(d, s), u)
    ensures WithSidebar(WithPageHeader(d, h), s) == WithPageHeader(WithSidebar(d, s), h)
    ensures WithCopyright(WithAlerts(d, a), c) == WithAlerts(WithCopyright(d, c), a)
    ensures WithCopyright(WithUserInfo(d, u), c) == WithUserInfo(WithCopyright(d, c), u)
    ensures WithCopyright(WithPageHeader(d, h), c) == WithPageHeader(WithCopyright(d, c), h)
    ensures WithAlerts(WithUserInfo(d, u), a) == WithUserInfo(WithAlerts(d, a), u)
    ensures WithAlerts(WithPageHeader(d, h), a) == WithPageHeader(WithAlerts(d, a), h)
    ensures WithUserInfo(WithPageHeader(d, h), u) == WithPageHeader(WithUserInfo(d, u), h)
  {
  }

  /** Replacing the content commutes with every setter, and the last content wins. */
  lemma ReplaceContentCommutes<A, C, D, E>(
    d: Dashboard<A, C>, s: Sidebar, c: string, a: A, u: UserInfo, h: PageHeader, first: D, content: E)
    ensures ReplaceContent(WithSidebar(d, s), content) == WithSidebar(ReplaceContent(d, content), s)
    ensures ReplaceContent(WithCopyright(d, c), content) == WithCopyright(ReplaceContent(d, content), c)
    ensures ReplaceContent(WithAlerts(d, a), content) == WithAlerts(ReplaceContent(d, content), a)
    ensures ReplaceContent(WithUserInfo(d, u), content) == WithUserInfo(ReplaceContent(d, content), u)
    ensures ReplaceContent(WithPageHeader(d, h), content) == WithPageHeader(ReplaceContent(d, content), h)
    ensures ReplaceContent(ReplaceContent(d, first), content) == ReplaceContent(d, content)
  {
  }
}
