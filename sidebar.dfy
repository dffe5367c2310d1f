/**
 * The sidebar menu tree (src/sidebar.rs):
 * `Sidebar` holds `Group`s, a `Group` holds `NavItem`s, a collapsible
 * `NavItem` holds `SubGroup`s, and a `SubGroup` holds `PlainLink`s.
 * The builders append one child at the end and keep everything else.
 * The source's `label` fields are `labelText` here (`label` is a Dafny keyword).
 */
module Sidebars {
  import opened Options
  import opened Links

  /** A top-level menu item: a direct icon link, or a collapsible sub-menu. */
  datatype NavItem =
    | Link(link: IconLink)
    | Collapsible(labelText: string, icon: Icon, subgroups: seq<SubGroup>)

  /** A group of menu items with an optional header label. */
  datatype Group = Group(labelText: Option<string>, items: seq<NavItem>)

  /** A group of links inside a collapsible item, with an optional de-emphasised label. */
  datatype SubGroup = SubGroup(labelText: Option<string>, links: seq<PlainLink>)

  /** The dashboard logo, title and menu. */
  datatype Sidebar = Sidebar(name: string, logo: Icon, groups: seq<Group>)

  /** `Group::unlabeled`. */
  function UnlabeledGroup(): (g: Group)
    ensures g.labelText == None && g.items == []
  {
    Group(None, [])
  }

  /** `Group::new`. */
  function NewGroup(heading: string): (g: Group)
    ensures g.labelText == Some(heading) && g.items == []
  {
    Group(Some(heading), [])
  }

  /** `Group::with_label`: sets the label, keeps the items. */
  function WithLabel(g: Group, heading: string): (r: Group)
    ensures r.labelText == Some(heading) && r.items == g.items
  {
    Group(Some(heading), g.items)
  }

  /** `Group::with_item`: appends one item at the end, keeps the label. */
  function WithItem(g: Group, item: NavItem): (r: Group)
    ensures r.labelText == g.labelText
    ensures |r.items| == |g.items| + 1 && r.items[..|g.items|] == g.items && r.items[|g.items|] == item
  {
    Group(g.labelText, g.items + [item])
  }

  /** `From<Vec<NavItem>> for Group`. */
  function GroupFromItems(items: seq<NavItem>): (g: Group)
    ensures g.labelText == None && g.items == items
  {
    Group(None, items)
  }

  /** A chain of `with_item` calls, one per element, in order. */
  function WithItems(g: Group, items: seq<NavItem>): Group
    decreases |items|
  {
    if items == [] then g else WithItems(WithItem(g, items[0]), items[1..])
  }

  /** Chaining `with_item` keeps the label and appends the items in the order given. */
  lemma {:induction false} WithItemsAppends(g: Group, items: seq<NavItem>)
    ensures WithItems(g, items) == Group(g.labelText, g.items + items)
    decreases |items|
  {
    if items == [] {
      assert g.items + items == g.items;
    } else {
      WithItemsAppends(WithItem(g, items[0]), items[1..]);
      assert (g.items + [items[0]]) + items[1..] == g.items + items;
    }
  }

  /** Building an unlabeled group item by item gives the same group as converting the whole vector. */
  lemma ChainedItemsEqualConversion(items: seq<NavItem>)
    ensures WithItems(UnlabeledGroup(), items) == GroupFromItems(items)
  {
    WithItemsAppends(UnlabeledGroup(), items);
    assert [] + items == items;
  }

  /** `NavItem::collapsible`. */
  function NewCollapsible(heading: string, icon: Icon, subgroups: seq<SubGroup>): (n: NavItem)
    ensures n.Collapsible? && n.labelText == heading && n.icon == icon && n.subgroups == subgroups
  {
    Collapsible(heading, icon, subgroups)
  }

  /** `From<IconLink> for NavItem`. */
  function NavItemFromLink(l: IconLink): (n: NavItem)
    ensures n.Link? && n.link == l
  {
    Link(l)
  }

  /** `NavItem::label`. */
  function NavItemLabel(n: NavItem): string
  {
    match n
    case Link(l) => l.labelText
    case Collapsible(heading, _, _) => heading
  }

  /** The label of an item is its link's label, or the collapsible item's own label. */
  lemma NavItemLabelOfEach(l: IconLink, heading: string, icon: Icon, subgroups: seq<SubGroup>)
    ensures NavItemLabel(NavItemFromLink(l)) == l.labelText
    ensures NavItemLabel(NewCollapsible(heading, icon, subgroups)) == heading
  {
  }

  /** `SubGroup::new`. */
  function NewSubGroup(heading: string): (s: SubGroup)
    ensures s.labelText == Some(heading) && s.links == []
  {
    SubGroup(Some(heading), [])
  }

  /** `SubGroup::unlabeled`. */
  function UnlabeledSubGroup(): (s: SubGroup)
    ensures s.labelText == None && s.links == []
  {
    SubGroup(None, [])
  }

  /** `SubGroup::with_link`: appends one link at the end, keeps the label. */
  function WithLink(s: SubGroup, link: PlainLink): (r: SubGroup)
    ensures r.labelText == s.labelText
    ensures |r.links| == |s.links| + 1 && r.links[..|s.links|] == s.links && r.links[|s.links|] == link
  {
    SubGroup(s.labelText, s.links + [link])
  }

  /** `Sidebar::new`. */
  function NewSidebar(name: string, logo: Icon): (s: Sidebar)
    ensures s.name == name && s.logo == logo && s.groups == []
  {
    Sidebar(name, logo, [])
  }

  /** `Sidebar::with_group`: appends one group at the end, keeps the name and logo. */
  function WithGroup(s: Sidebar, g: Group): (r: Sidebar)
    ensures r.name == s.name && r.logo == s.logo
    ensures |r.groups| == |s.groups| + 1 && r.groups[..|s.groups|] == s.groups && r.groups[|s.groups|] == g
  {
    Sidebar(s.name, s.logo, s.groups + [g])
  }
}
