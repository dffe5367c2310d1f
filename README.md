# bootstrap-dashboard-rs in Dafny

A model of the hand-written logic of the Rust crate `bootstrap-dashboard-rs`. The
crate builds SB-Admin-2 / Bootstrap dashboards on the server: applications
put together pages, sidebars, links and grid rows with builder methods and render
them through askama templates. The templates themselves are not modelled. The
model covers the code the crate writes by hand:

- **htmx attributes** (`htmx.dfy`, module `Htmx`): an `Hx` value renders as
  `hx-get="…"` or `hx-post="…"`, then an optional ` hx-target="…"`, then an
  optional ` hx-trigger="…"` holding the triggers joined by `", "`. A trigger
  renders its event, then each modifier preceded by a space, then an optional
  ` [condition]`. Swap modifiers and swap targets have fixed keyword renderings.
  Every `Display` impl is a function from the value to its text. The two impls
  that loop are also methods that build the text step by step, proved to give
  exactly the function's value: `WriteTrigger` runs the loop over a trigger's
  modifiers, and `WriteTriggerList` / `WriteHx` build the comma-joined trigger
  list.
- **Bootstrap grid classes** (`grid.dfy`, module `Grid`): a column size renders
  as `col` + breakpoint infix + width suffix, such as `col-xl-7` or `col-md-auto`.
  A column keeps a set of sizes and a row keeps a list of columns.
- **Links** (`links.dfy`, module `Links`): a link action's `href` value and extra
  attributes, the plain and icon link records, and the `NavLink` accessors.
- **Sidebar tree** (`sidebar.dfy`, module `Sidebars`): `Sidebar` → `Group` →
  `NavItem` → `SubGroup` → `PlainLink`, with builders that append at the end.
- **Page and dashboard** (`layout.dfy`, module `Layout`): `Label`, `Page` and
  `Dashboard`, whose builders each set one field and keep the rest.
  `Page::with_content` is the exception: it always drops the favicons.
- **Colours** (`color.dfy`, module `Colors`): the `bg-` utility class of each
  Bootstrap colour.

`options.dfy` holds the `Option` datatype. `strings.dfy` holds two sequence facts
used in the proofs.

Every builder in the crate takes `self` (or `mut self`) by value and returns it.
The caller's old value is moved and can never be observed again. A builder is
therefore modelled as a function from the old value to the new one, not as a
method on a mutable object. A `Vec::push` on the moved value becomes `s + [x]`,
and a `HashSet::insert` becomes set union. `Option::replace` and field assignment
become a datatype update.

Rust's `u8` column width is the newtype `Byte` (0..255). `Cow<'static, str>`
becomes `string`. The source's `label` fields are named `labelText`, because
`label` is a Dafny keyword. `NavLink::Icon` is the constructor `IconNav`,
because it would otherwise clash with the `Icon` type. `Revealed` renders as
`revelead`, the spelling the source writes.

## Model

| member | source | states |
|---|---|---|
| Htmx.WriteTrigger | src/htmx.rs:155-170 | The loop that writes the event, then a space and the modifier for each modifier in order, then ` [expr]` when a conditional is set, yields exactly `TriggerText(t)`. |
| Htmx.ModifiersConcat | src/htmx.rs:159-162 | Rendering the modifiers `a + b` gives the rendering of `a` followed by that of `b`, so modifiers appear in insertion order. |
| Htmx.ModifiersTextLength | src/htmx.rs:159-162 | Each modifier contributes at least a space and one character, and the modifier text is empty exactly when there are no modifiers. |
| Htmx.ModifierTextNonEmpty | src/htmx.rs:194-207 | Every modifier renders as a non-empty keyword. |
| Htmx.FromEventRendersEvent | src/htmx.rs:172-180 | `Trigger::from(e)` has no conditional and no modifiers, and renders exactly as the event's text. |
| Htmx.WithModifierRender | src/htmx.rs:149-152 | `with_modifier` keeps the event and conditional, and the new modifier's text appears after the earlier modifiers and before the conditional. |
| Htmx.EventShortcutsRender | src/htmx.rs:113-121 | `TriggerEvent::with_conditional(c)` is the bare event with conditional `c` and no modifiers, rendering as event + ` [c]`. `TriggerEvent::with_modifier(m)` is the event with the single modifier `m` and no conditional, rendering as event + ` ` + modifier. |
| Htmx.WithConditionalLastWins | src/htmx.rs:144-147 | `with_conditional` replaces any earlier conditional (the last call wins), keeps event and modifiers, and the rendering ends with ` [cond]`. |
| Htmx.TriggerTextShape | src/htmx.rs:155-170 | A trigger's text starts with its event text; with no conditional it is event + modifiers; with one it ends with ` [cond]`. |
| Htmx.WriteTriggerList | src/htmx.rs:70-74 | Rendering a non-empty trigger list one trigger at a time, with `", "` between them, yields the `", "`-join of the triggers' texts in order. |
| Htmx.JoinFirst | src/htmx.rs:70-74 | The join of one rendered trigger is that trigger's text. |
| Htmx.JoinStep | src/htmx.rs:70-74 | Each further trigger adds `", "` and its text at the end of the join. |
| Htmx.JoinAppend | src/htmx.rs:74 | Joining one more part appends `", "` and that part. |
| Htmx.TriggerTextsAppend | src/htmx.rs:70-73 | Mapping the triggers to their texts respects appending one trigger. |
| Htmx.WriteHx | src/htmx.rs:58-80 | Writing the request, the optional target and the optional trigger list step by step yields exactly `HxText(h)`. |
| Htmx.FreshHxRendersRequestOnly | src/htmx.rs:21-45 | `Hx::get(p)` / `Hx::post(p)` have no target and no triggers and render as exactly `hx-get="p"` / `hx-post="p"`. |
| Htmx.HxTextStartsWithRequest | src/htmx.rs:58-60 | Every `Hx` rendering begins with its request attribute. |
| Htmx.WithTargetLastWins | src/htmx.rs:47-50 | `with_target` replaces any earlier target (last wins) and keeps url and triggers. The ` hx-target` fragment follows the request when a target is set and is absent when none is. |
| Htmx.TriggerAttrShape | src/htmx.rs:66-76 | The ` hx-trigger` fragment is empty exactly when there are no triggers, and for one trigger holds just that trigger's text. |
| Htmx.WithTriggerRender | src/htmx.rs:52-55 | `with_trigger` keeps url, target and earlier triggers. The new trigger's text goes last: it opens the fragment when it is the first trigger, and follows `", "` inside the closing quote otherwise. |
| Htmx.TargetAndTwoTriggers | src/htmx.rs:58-80 | An `Hx` with a target and two triggers renders request, target, then both triggers in order joined by `", "`. |
| Htmx.ExampleChainBuilds | src/htmx.rs:318-327 | The builder chain of the crate's unit test yields a `GET /notifications` with target `closest div#lol`, a conditional trigger, and a click trigger with three modifiers in order. |
| Htmx.ExampleModifiersText | src/htmx.rs:322-326 | The unit test's modifiers `delay`, `changed`, `consume` render in the order added. |
| Htmx.ExampleConditionalTrigger | src/htmx.rs:321 | The unit test's first trigger renders as its event followed by ` [ctrlKey]`. |
| Htmx.ExampleModifiedTrigger | src/htmx.rs:322-326 | The unit test's second trigger renders as `click` followed by its three modifiers. |
| Htmx.HxConstructionExample | src/htmx.rs:318-328 | The unit test's value renders as the request, ` hx-target="closest div#lol"` and ` hx-trigger="every 1.5s [ctrlKey], click delay:2.5s changed consume"`. |
| Htmx.GetRequestExample | src/htmx.rs:24 | A GET request renders as `hx-get="/notifications"`. |
| Htmx.ScrollAndQueueInjective | src/htmx.rs:88-95 | Distinct scroll directions, and distinct queue options, render differently. |
| Htmx.EventTextInjective | src/htmx.rs:123-134 | Distinct trigger events render differently, including `every` with distinct durations. |
| Htmx.ModifierTextInjective | src/htmx.rs:194-207 | Distinct event modifiers render differently, including the `delay:`, `throttle:`, `from:`, `target:` and `queue:` forms. |
| Htmx.SwapModifiersTextEmpty | src/htmx.rs:248-276 | Swap modifiers render as the empty string exactly when every field is absent, and otherwise start with a space. |
| Htmx.SwapTargetTextInjective | src/htmx.rs:296-314 | Distinct swap targets render differently, including the `closest:`, `find:`, `next:` and `previous:` selector forms. |
| Grid.WidthFromByte | src/grid.rs:35-39 | `From<u8>` gives the sized width with that value. |
| Grid.DecimalText | src/grid.rs:45 | The decimal text of a width is non-empty, all digits, and has no leading zero. |
| Grid.DecimalRoundTrip | src/grid.rs:45 | Reading back the decimal digits written for `n` gives `n`. |
| Grid.DigitChar | src/grid.rs:45 | A digit value below ten becomes a character between `0` and `9`. |
| Grid.NewColumnSize | src/grid.rs:64-66 | `ColumnSize::new` has the given breakpoint and width. |
| Grid.WithBreakpoint | src/grid.rs:68-73 | `with_breakpoint` sets the breakpoint and keeps the width. |
| Grid.WithWidth | src/grid.rs:75-80 | `with_width` sets a sized width and keeps the breakpoint. |
| Grid.WithAutoWidth | src/grid.rs:82-87 | `with_auto_width` sets the auto width and keeps the breakpoint. |
| Grid.ColumnSizeText | src/grid.rs:90-94 | Every column size class starts with `col`. |
| Grid.ColumnSizeExamples | src/grid.rs:15-25 | The default size renders `col`. Extra-large 7 renders `col-xl-7`, medium auto renders `col-md-auto`, and extra-small 12 renders `col-12`. |
| Grid.SizedWidthDigits | src/grid.rs:41-49 | A sized width renders as `-` followed by the decimal digits of its value. |
| Grid.WidthSecondChar | src/grid.rs:41-49 | A width renders empty exactly when it is `None`. Otherwise it starts with `-` followed by a digit or the `a` of `auto`. |
| Grid.WidthTextInjective | src/grid.rs:41-49 | Distinct widths render as distinct suffixes. |
| Grid.BreakpointWidthChars | src/grid.rs:15-25 | A non-empty breakpoint infix is the first three characters of breakpoint + width, and extra-small adds nothing. |
| Grid.BreakpointDetermined | src/grid.rs:15-49 | The text breakpoint + width determines the breakpoint. |
| Grid.ColumnSizeTextInjective | src/grid.rs:90-94 | Distinct column sizes render as distinct class names. |
| Grid.NewColumn | src/grid.rs:104-109 | A new column has no sizes and the given content. |
| Grid.WithSize | src/grid.rs:111-118 | `with_size` inserts the size into the set and keeps the content. |
| Grid.WithSizeIdempotent | src/grid.rs:111-118 | Inserting an equal size again changes nothing. |
| Grid.WithSizeCommutes | src/grid.rs:111-118 | The order in which sizes are inserted does not matter. |
| Grid.SameBreakpointTwoWidths | src/grid.rs:51-61 | Two different widths on one breakpoint are two entries of the set, because equality compares both fields even though the hash looks only at the breakpoint. |
| Grid.NewRow | src/grid.rs:132-134 | A new row has no columns. |
| Grid.WithColumn | src/grid.rs:136-139 | `with_column` appends the column at the end and keeps the earlier columns in order. |
| Links.ToRendersUrl | src/links.rs:17-19 | `LinkAction::to(u)` is a URL link whose `href` is `u` and whose extra attributes are empty. |
| Links.ModalNameRendersToggle | src/links.rs:21-54 | `modal_name(n)` toggles a modal, links to `#`, and adds ` data-toggle="modal" data-target="#n"`. |
| Links.ModalOfIsModalName | src/links.rs:25-27 | `LinkAction::modal(m)` toggles the modal named by `m`'s id. |
| Links.PropsDetermineAction | src/links.rs:34-54 | The extra attributes are empty exactly for URL links and name the toggled modal. The `href` value and the extra attributes together determine the action. |
| Links.NewPlainLink | src/links.rs:73-79 | `PlainLink::new` is inactive, with the given label and action. |
| Links.WithIcon | src/links.rs:81-88 | `with_icon` keeps label, active flag and action, and adds the icon. |
| Links.NewIconLink | src/links.rs:109-116 | `IconLink::new` is inactive, with the given label, icon and action. |
| Links.NavFromPlainAccessors | src/links.rs:137-178 | A `NavLink` made from a plain link is the plain variant. Its label, action and active flag are that link's, and it has no icon. |
| Links.NavFromIconAccessors | src/links.rs:137-172 | A `NavLink` made from an icon link is the icon variant. Its label, action, active flag and icon are that link's. |
| Links.NavIconPresence | src/links.rs:145-151 | `icon()` is present exactly for the icon variant. |
| Links.WithIconKeepsAccessors | src/links.rs:81-88 | Adding an icon changes only what `icon()` reports, and `with_icon` on a new plain link equals `IconLink::new`. |
| Sidebars.UnlabeledGroup | src/sidebar.rs:19-24 | An unlabeled group has no label and no items. |
| Sidebars.NewGroup | src/sidebar.rs:26-31 | `Group::new(l)` has label `l` and no items. |
| Sidebars.WithLabel | src/sidebar.rs:33-38 | `with_label` sets the label and keeps the items. |
| Sidebars.WithItem | src/sidebar.rs:40-47 | `with_item` keeps the label and appends exactly one item at the end, keeping the earlier items. |
| Sidebars.GroupFromItems | src/sidebar.rs:50-57 | Converting a vector gives an unlabeled group with exactly those items. |
| Sidebars.WithItemsAppends | src/sidebar.rs:40-47 | A chain of `with_item` calls keeps the label and appends the items in order. |
| Sidebars.ChainedItemsEqualConversion | src/sidebar.rs:19-57 | Building an unlabeled group item by item gives the same group as converting the whole vector. |
| Sidebars.NewCollapsible | src/sidebar.rs:76-86 | `NavItem::collapsible` gives the collapsible variant with the given label, icon and subgroups. |
| Sidebars.NavItemFromLink | src/sidebar.rs:89-93 | Converting an icon link gives the link variant holding it. |
| Sidebars.NavItemLabelOfEach | src/sidebar.rs:95-101 | An item's label is its icon link's label, or the collapsible item's own label. |
| Sidebars.NewSubGroup | src/sidebar.rs:112-117 | `SubGroup::new(l)` has label `l` and no links. |
| Sidebars.UnlabeledSubGroup | src/sidebar.rs:119-124 | An unlabeled subgroup has no label and no links. |
| Sidebars.WithLink | src/sidebar.rs:126-132 | `with_link` keeps the label and appends the link at the end. |
| Sidebars.NewSidebar | src/sidebar.rs:164-170 | A new sidebar has the given name and logo and no groups. |
| Sidebars.WithGroup | src/sidebar.rs:172-175 | `with_group` keeps name and logo and appends the group at the end. |
| Layout.WithLink | src/lib.rs:43-49 | `Label::with_link` is an inactive plain link with the label's text and the given action. |
| Layout.WithLinkIsNewPlainLink | src/lib.rs:38-49 | Turning a new label into a link gives the same link as `PlainLink::new`. |
| Layout.NewPage | src/lib.rs:69-79 | A new page has the given title and static path, no favicons and empty content. |
| Layout.WithContent | src/lib.rs:83-90 | `with_content` keeps title and static path, replaces the content, and always resets the favicons. |
| Layout.WithFavicons | src/lib.rs:92-99 | `with_favicons` sets the favicons and keeps title, static path and content. |
| Layout.FaviconsOrderMatters | src/lib.rs:83-99 | Favicons set before `with_content` are lost, and favicons set after it stay. |
| Layout.NewDashboard | src/lib.rs:119-128 | A new dashboard has all five optional parts absent and empty content. |
| Layout.DefaultDashboard | src/lib.rs:131-135 | The default dashboard is the new dashboard. |
| Layout.WithSidebar | src/lib.rs:138-141 | `with_sidebar` sets the sidebar and leaves every other field unchanged. |
| Layout.WithCopyright | src/lib.rs:143-146 | `with_copyright` sets the copyright and leaves every other field unchanged. |
| Layout.WithAlerts | src/lib.rs:148-151 | `with_alerts` sets the alerts and leaves every other field unchanged. |
| Layout.WithUserInfo | src/lib.rs:153-156 | `with_userinfo` sets the user info and leaves every other field unchanged. |
| Layout.WithPageHeader | src/lib.rs:158-161 | `with_page_header` sets the page header and leaves every other field unchanged. |
| Layout.ReplaceContent | src/lib.rs:163-175 | `replace_content` keeps the five optional parts and swaps only the content. |
| Layout.DashboardSettersLastWins | src/lib.rs:138-161 | For each of the five setters, two calls in a row equal the last call alone. |
| Layout.DashboardSettersCommute | src/lib.rs:138-161 | For each of the ten pairs of setters on different fields, the order of the two calls does not matter. |
| Layout.ReplaceContentCommutes | src/lib.rs:138-175 | `replace_content` commutes with each of the five setters, and of two content replacements the last wins. |
| Colors.AsBackground | src/color.rs:14-27 | Every colour's class starts with `bg-` and has a name after it. |
| Colors.AsBackgroundInjective | src/color.rs:14-27 | The eight classes are pairwise distinct. |

The exact keyword tables are the bodies of the rendering functions:
`EventText`, `ModifierText`, `QueueText`, `ScrollText`, `SwapTargetText`,
`BreakpointText` and `AsBackground`. Dafny checks each `match` for exhaustiveness,
so every variant has a rendering.

## Left out

- Template rendering: the askama HTML is not modelled. For `Page`, `Dashboard`, `Sidebar`, `Column`, `Row` and the other file-based templates, the template files are not part of this model. `PlainLink`, `IconLink`, `NavLink` and `FavIcons` carry their templates inline, and those are left out too, because askama's escaping and filters are external code. Only the hand-written `Display` impls, accessors and builders are modelled.
- Duration: `{timing:?}` uses the `Debug` formatting of `std::time::Duration`, which is not part of this model. A `Duration` carries the text that formatting writes, and nothing is claimed about its digits.
- Formatter errors: each `write!` can fail with `fmt::Error`, and `?` passes the error on. The model assumes writes succeed, because a `String` formatter never fails.
- `Cow<'static, str>`: the borrowed and owned cases are both modelled as `string`.
- In-place updates: builders that push onto a `Vec`, insert into a `HashSet` or assign a field of `mut self` are modelled as functions on values. The moved value is never observed again, so no aliasing exists to model.
- `HashSet` iteration order: `Column.sizes` is a mathematical set, so the order in which a template would list the sizes is not modelled.
- Derived traits: the derived `Ord`, `PartialOrd`, `Debug` and `Clone` impls are not modelled. The derived `Default` of `ColumnSize` is `DefaultColumnSize` and that of `SwapTarget` is `DefaultSwapTarget`. The hand-written `Hash` of `ColumnSize` is described by `SameBreakpointTwoWidths`.
- `Icon`: the icon constants of src/icons.rs are not part of this model, so an icon is its class-name string.
- `Dynamic<Alerts>`: not defined in the modelled files, so `Dashboard` is generic in the type of its alerts widget.
- Active-link marking: `with_active_label` and `with_active_from_path` are called only by example programs and defined nowhere in the modelled files.
- `Dynamic`, `IntoDynamic`, `with_hx`, `Alert::new` and `unread` are defined nowhere in the modelled files, so none of them is modelled.
- src/files.rs: static-asset embedding, routing and MIME lookup are I/O.
- src/card.rs: a thin template builder, not modelled.
- The example programs: web servers and a background task on a lock, which are I/O and concurrency.
- Plain data records: src/login.rs, src/modal.rs, src/favicons.rs, src/page_header.rs, src/userinfo.rs, src/alerts.rs and src/error.rs hold no logic. The records that the modelled builders take or store (`Modal`, `ModalAction`, `FavIcons`, `MaskFavIcon`, `PageHeader`, `UserInfo`) are plain datatypes.
- The unit test at src/htmx.rs:318-331 prints its rendering and asserts nothing. The `Example…` lemmas and `HxConstructionExample` state what that rendering is, except for the digits of the two durations.
