/**
 * Navigation links (src/links.rs): what a link does when pressed, the
 * `href` value and extra attributes it renders, and the plain, icon and
 * either-kind link records with their accessors.
 */
module Links {
  import opened Options

  /** A Font-Awesome icon class name; the icon constants themselves are not part of this model. */
  type Icon = string

  /** `ModalAction` (src/modal.rs). */
  datatype ModalAction = PostAction(post: string) | GetAction(get: string)

  /** The modal dialog record (src/modal.rs); a link only uses its `id`. */
  datatype Modal = Modal(id: string, header: string, content: string, action: ModalAction, confirm: string)

  /** Action to take on link press: go to a URL, or toggle the modal with the given name. */
  datatype LinkAction = Href(url: string) | ToggleModal(modal: string)

  /** `LinkAction::to`. */
  function To(url: string): LinkAction
  {
    Href(url)
  }

  /** `LinkAction::modal_name`. */
  function ModalName(name: string): LinkAction
  {
    ToggleModal(name)
  }

  /** `LinkAction::modal`: toggles the modal with the given modal's id. */
  function ModalOf(m: Modal): LinkAction
  {
    ToggleModal(m.id)
  }

  /** `LinkAction::href`: the contents of the link's `href` attribute. */
  function HrefValue(a: LinkAction): string
  {
    match a
    case Href(url) => url
    case ToggleModal(_) => "#"
  }

  /** ` data-toggle="modal" data-target="#` */
  const ModalPropsPrefix := " data-toggle=\"modal\" data-target=\"#"

  /** `LinkAction::props`: extra attributes for the link element. */
  function Props(a: LinkAction): string
  {
    match a
    case Href(_) => ""
    case ToggleModal(modal) => ModalPropsPrefix + modal + "\""
  }

  /** A URL link goes to its URL and carries no extra attributes. */
  lemma ToRendersUrl(url: string)
    ensures To(url).Href?
    ensures HrefValue(To(url)) == url && Props(To(url)) == ""
  {
  }

  /** A modal toggle links to `#` and names its modal in `data-target`. */
  lemma ModalNameRendersToggle(name: string)
    ensures ModalName(name).ToggleModal?
    ensures HrefValue(ModalName(name)) == "#"
    ensures Props(ModalName(name)) == " data-toggle=\"modal\" data-target=\"#" + name + "\""
  {
  }

  /** `LinkAction::modal(m)` is the same action as `LinkAction::modal_name(m.id)`. */
  lemma ModalOfIsModalName(m: Modal)
    ensures ModalOf(m) == ModalName(m.id)
    ensures Props(ModalOf(m)) == ModalPropsPrefix + m.id + "\""
  {
  }

  /** Extra attributes are present exactly for modal toggles, and they determine the action. */
  lemma PropsDetermineAction(a: LinkAction, b: LinkAction)
    ensures Props(a) == "" <==> a.Href?
    ensures a.ToggleModal? && Props(a) == Props(b) ==> a == b
    ensures HrefValue(a) == HrefValue(b) && Props(a) == Props(b) ==> a == b
  {
    if a.ToggleModal? && Props(a) == Props(b) {
      var s := Props(a);
      assert b.ToggleModal?;
      assert s == ModalPropsPrefix + (a.modal + "\"");
      assert s == ModalPropsPrefix + (b.modal + "\"");
      assert s[|ModalPropsPrefix|..] == a.modal + "\"" == b.modal + "\"";
      assert a.modal == (a.modal + "\"")[..|a.modal|];
      assert b.modal == (b.modal + "\"")[..|b.modal|];
    }
  }

  /** A link without an icon; the source's `label` field is `labelText` here, as `label` is a Dafny keyword. */
  datatype PlainLink = PlainLink(labelText: string, active: bool, action: LinkAction)

  /** A link with a Font-Awesome icon. */
  datatype IconLink = IconLink(labelText: string, icon: Icon, active: bool, action: LinkAction)

  /** `PlainLink::new`: an inactive link. */
  function NewPlainLink(labelText: string, action: LinkAction): (p: PlainLink)
    ensures p.labelText == labelText && !p.active && p.action == action
  {
    PlainLink(labelText, false, action)
  }

  /** `PlainLink::with_icon`. */
  function WithIcon(p: PlainLink, icon: Icon): (i: IconLink)
    ensures i.labelText == p.labelText && i.icon == icon && i.active == p.active && i.action == p.action
  {
    IconLink(p.labelText, icon, p.active, p.action)
  }

  /** `IconLink::new`: an inactive link. */
  function NewIconLink(labelText: string, icon: Icon, action: LinkAction): (i: IconLink)
    ensures i.labelText == labelText && i.icon == icon && !i.active && i.action == action
  {
    IconLink(labelText, icon, false, action)
  }

  /** Either a plain or an icon link. */
  datatype NavLink = Plain(plain: PlainLink) | IconNav(iconLink: IconLink)

  /** `NavLink::label`. */
  function NavLabel(n: NavLink): string
  {
    match n
    case Plain(p) => p.labelText
    case IconNav(i) => i.labelText
  }

  /** `NavLink::icon`. */
  function NavIcon(n: NavLink): Option<Icon>
  {
    if n.IconNav? then Some(n.iconLink.icon) else None
  }

  /** `NavLink::action`. */
  function NavAction(n: NavLink): LinkAction
  {
    match n
    case Plain(p) => p.action
    case IconNav(i) => i.action
  }

  /** `NavLink::active`. */
  function NavActive(n: NavLink): bool
  {
    match n
    case Plain(p) => p.active
    case IconNav(i) => i.active
  }

  /** `From<PlainLink> for NavLink`. */
  function NavFromPlain(p: PlainLink): NavLink
  {
    Plain(p)
  }

  /** `From<IconLink> for NavLink`. */
  function NavFromIcon(i: IconLink): NavLink
  {
    IconNav(i)
  }

  /** The accessors read back the wrapped plain link's fields, and report no icon. */
  lemma NavFromPlainAccessors(p: PlainLink)
    ensures NavFromPlain(p).Plain?
    ensures NavLabel(NavFromPlain(p)) == p.labelText && NavAction(NavFromPlain(p)) == p.action
    ensures NavActive(NavFromPlain(p)) == p.active && NavIcon(NavFromPlain(p)) == None
  {
  }

  /** The accessors read back the wrapped icon link's fields, including its icon. */
  lemma NavFromIconAccessors(i: IconLink)
    ensures NavFromIcon(i).IconNav?
    ensures NavLabel(NavFromIcon(i)) == i.labelText && NavAction(NavFromIcon(i)) == i.action
    ensures NavActive(NavFromIcon(i)) == i.active && NavIcon(NavFromIcon(i)) == Some(i.icon)
  {
  }

  /** `icon()` is present exactly for the icon variant. */
  lemma NavIconPresence(n: NavLink)
    ensures NavIcon(n).Some? <==> n.IconNav?
  {
  }

  /** Giving a plain link an icon changes only what `icon()` reports. */
  lemma WithIconKeepsAccessors(p: PlainLink, icon: Icon)
    ensures NavLabel(NavFromIcon(WithIcon(p, icon))) == NavLabel(NavFromPlain(p))
    ensures NavAction(NavFromIcon(WithIcon(p, icon))) == NavAction(NavFromPlain(p))
    ensures NavActive(NavFromIcon(WithIcon(p, icon))) == NavActive(NavFromPlain(p))
    ensures NavIcon(NavFromIcon(WithIcon(p, icon))) == Some(icon)
    ensures WithIcon(NewPlainLink(p.labelText, p.action), icon) == NewIconLink(p.labelText, icon, p.action)
  {
  }
}
