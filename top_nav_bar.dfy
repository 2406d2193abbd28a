/** The top navigation bar (`TopNavBar`): one open dropdown at a time shared by
    the desktop and mobile menus, a mobile menu flag, and the attributes
    derived from them. */
module TopNavBar {
  import opened Wrappers
  import opened ThemeContext

  /** A navigation entry; `text` is its `label` (a reserved word here). */
  datatype NavItem = NavItem(id: string, text: string, href: Option<string>, items: Option<seq<NavItem>>)

  datatype Variant = Solid | Transparent

  datatype Surface = Desktop | Mobile

  const RotateClass: string := "transform rotate-180"

  /** `href || '#'`: an absent or empty href falls back to '#'. */
  function Href(href: Option<string>): (r: string)
    ensures r != ""
    ensures href.Some? && href.value != "" ==> r == href.value
    ensures href.None? || href.value == "" ==> r == "#"
  {
    if href.Some? && href.value != "" then href.value else "#"
  }

  /** `navbarClasses[variant]`: only the solid bar has a background colour
      and a shadow. */
  function NavClass(variant: Variant): (r: string)
    ensures r == "bg-transparent" <==> variant == Transparent
  {
    match variant
    case Solid => "bg-white dark:bg-neutral-900 shadow-md"
    case Transparent => "bg-transparent"
  }

  function ModeName(mode: ThemeMode): (s: string)
  {
    if mode == Light then "light" else "dark"
  }

  /** The theme button's `aria-label`, which names the opposite mode. */
  function ThemeButtonLabel(mode: ThemeMode): (r: string)
    ensures r == "Switch to dark theme" <==> mode == Light
    ensures r == "Switch to light theme" <==> mode == Dark
  {
    var r := "Switch to " + (if mode == Light then "dark" else "light") + " theme";
    assert mode == Light ==> r[10] == 'd';
    assert mode == Dark ==> r[10] == 'l';
    r
  }

  /** The label names exactly the mode that toggling leads to. */
  lemma ThemeButtonLabelNamesNext(mode: ThemeMode)
    ensures ThemeButtonLabel(mode) == "Switch to " + ModeName(Flip(mode)) + " theme"
  {
  }

  /** `toggleDropdown(id)` on the value of `activeDropdown`. */
  function NextDropdown(active: Option<string>, id: string): (r: Option<string>)
    ensures active == Some(id) ==> r == None
    ensures active != Some(id) ==> r == Some(id)
  {
    if active == Some(id) then None else Some(id)
  }

  /** The two variants render distinguishable bars. */
  lemma NavClassInjective(a: Variant, b: Variant)
    ensures NavClass(a) == NavClass(b) <==> a == b
  {
  }

  /** Opening a dropdown and clicking its trigger again closes it, whatever was
      open before. */
  lemma ToggleDropdownTwice(active: Option<string>, id: string)
    requires active != Some(id)
    ensures NextDropdown(NextDropdown(active, id), id) == None
  {
  }

  // ---------------------------------------------------------------------------
  // Rendered attributes
  // ---------------------------------------------------------------------------

  datatype LinkMarkup = LinkMarkup(key: string, href: string, text: string, role: Option<string>)

  datatype EntryMarkup =
    | Dropdown(id: string, text: string, ariaExpanded: bool, chevronClass: string, menu: Option<seq<LinkMarkup>>)
    | PlainLink(link: LinkMarkup)

  /** A link inside an open dropdown; only the desktop menu marks it as a menu item. */
  function SubLink(sub: NavItem, surface: Surface): (l: LinkMarkup)
    ensures l.key == sub.id && l.text == sub.text && l.href == Href(sub.href)
    ensures l.role == (if surface == Desktop then Some("menuitem") else None)
  {
    LinkMarkup(sub.id, Href(sub.href), sub.text, if surface == Desktop then Some("menuitem") else None)
  }

  function Entry(item: NavItem, active: Option<string>, surface: Surface): (e: EntryMarkup)
    ensures item.items.Some? <==> e.Dropdown?
    ensures e.Dropdown? ==>
      && e.ariaExpanded == (active == Some(item.id))
      && (e.chevronClass == RotateClass <==> active == Some(item.id))
      && (e.menu.Some? <==> active == Some(item.id))
    ensures e.Dropdown? && e.menu.Some? ==>
      && |e.menu.value| == |item.items.value|
      && forall k :: 0 <= k < |e.menu.value| ==> e.menu.value[k].href == Href(item.items.value[k].href)
    ensures e.PlainLink? ==> e.link.href == Href(item.href)
  {
    match item.items
    case Some(subs) =>
      var open := active == Some(item.id);
      Dropdown(item.id, item.text, open,
               if open then RotateClass else "",
               if open then Some(seq(|subs|, k requires 0 <= k < |subs| => SubLink(subs[k], surface))) else None)
    case None =>
      PlainLink(LinkMarkup(item.id, Href(item.href), item.text, None))
  }

  /** One entry per item, in order: a dropdown for an item with sub-items,
      a plain link otherwise. */
  function Entries(items: seq<NavItem>, active: Option<string>, surface: Surface): (es: seq<EntryMarkup>)
    ensures |es| == |items|
    ensures forall i :: 0 <= i < |es| ==> (es[i].Dropdown? <==> items[i].items.Some?)
    ensures forall i :: 0 <= i < |es| && es[i].Dropdown? ==> es[i].id == items[i].id
  {
    seq(|items|, i requires 0 <= i < |items| => Entry(items[i], active, surface))
  }

  /** No two top-level items share an id. */
  predicate DistinctIds(items: seq<NavItem>)
  {
    forall i, j :: 0 <= i < j < |items| ==> items[i].id != items[j].id
  }

  /** With distinct item ids, at most one dropdown menu is visible. */
  lemma AtMostOneMenuOpen(items: seq<NavItem>, active: Option<string>, surface: Surface, i: nat, j: nat)
    requires DistinctIds(items)
    requires i < j < |items|
    ensures var es := Entries(items, active, surface);
      !(es[i].Dropdown? && es[i].menu.Some? && es[j].Dropdown? && es[j].menu.Some?)
  {
  }

  /** The desktop and mobile menus render the shared `activeDropdown` alike:
      same expanded flags, chevrons, visible menus and hrefs. */
  lemma DesktopAndMobileAgree(items: seq<NavItem>, active: Option<string>, i: nat)
    requires i < |items|
    ensures var d := Entries(items, active, Desktop)[i];
            var m := Entries(items, active, Mobile)[i];
      && d.Dropdown? == m.Dropdown?
      && (d.Dropdown? ==> d.ariaExpanded == m.ariaExpanded && d.chevronClass == m.chevronClass
                          && d.menu.Some? == m.menu.Some?)
      && (d.PlainLink? ==> d.link.href == m.link.href)
      && (d.Dropdown? && d.menu.Some? ==>
            |d.menu.value| == |m.menu.value| &&
            forall k :: 0 <= k < |d.menu.value| ==> d.menu.value[k].href == m.menu.value[k].href)
  {
  }

  datatype NavMarkup = NavMarkup(
    navClass: string,
    desktop: seq<EntryMarkup>,
    themeButtonLabel: Option<string>,
    mobileButtonExpanded: bool,
    mobileMenu: Option<seq<EntryMarkup>>)

  // ---------------------------------------------------------------------------
  // The bar
  // ---------------------------------------------------------------------------

  class NavBar {
    const items: seq<NavItem>
    const variant: Variant
    const showThemeToggle: bool
    const theme: ThemeHandle
    var mobileMenuOpen: bool
    var activeDropdown: Option<string>

    /** Initially the mobile menu is closed and no dropdown is open; an
        omitted variant is solid and the theme toggle is shown unless turned off. */
    constructor (items: seq<NavItem>, variant: Option<Variant>, showThemeToggle: Option<bool>, theme: ThemeHandle)
      ensures this.items == items && this.theme == theme
      ensures this.variant == if variant.Some? then variant.value else Solid
      ensures this.showThemeToggle == (showThemeToggle.None? || showThemeToggle.value)
      ensures !mobileMenuOpen && activeDropdown == None
    {
      this.items := items;
      this.variant := if variant.Some? then variant.value else Solid;
      this.showThemeToggle := showThemeToggle.None? || showThemeToggle.value;
      this.theme := theme;
      mobileMenuOpen := false;
      activeDropdown := None;
    }

    method ToggleMobileMenu()
      modifies this`mobileMenuOpen
      ensures mobileMenuOpen == !old(mobileMenuOpen)
      ensures activeDropdown == old(activeDropdown)
    {
      mobileMenuOpen := !mobileMenuOpen;
    }

    method ToggleDropdown(id: string)
      modifies this`activeDropdown
      ensures activeDropdown == NextDropdown(old(activeDropdown), id)
      ensures old(activeDropdown) == Some(id) ==> activeDropdown == None
      ensures old(activeDropdown) != Some(id) ==> activeDropdown == Some(id)
      ensures mobileMenuOpen == old(mobileMenuOpen)
    {
      if activeDropdown == Some(id) {
        activeDropdown := None;
      } else {
        activeDropdown := Some(id);
      }
    }

    /** The theme button: its label, read before the click, names the mode the
        click switches a provider to; under the default context nothing changes. */
    method ClickThemeButton()
      modifies Footprint(theme)
      ensures theme.ProviderContext? ==>
        old(ThemeButtonLabel(ModeOf(theme))) == "Switch to " + ModeName(ModeOf(theme)) + " theme"
      ensures theme.ProviderContext? ==> theme.provider.theme == old(theme.provider.theme)
      ensures theme.DefaultContext? ==> ModeOf(theme) == Light
    {
      ghost var before := ModeOf(theme);
      ToggleVia(theme);
      ThemeButtonLabelNamesNext(before);
    }

    function Render(): (m: NavMarkup)
      reads this, Footprint(theme)
      ensures m.navClass == NavClass(variant)
      ensures m.desktop == Entries(items, activeDropdown, Desktop)
      ensures m.mobileButtonExpanded == mobileMenuOpen
      ensures m.mobileMenu.Some? <==> mobileMenuOpen
      ensures m.mobileMenu.Some? ==> m.mobileMenu.value == Entries(items, activeDropdown, Mobile)
      ensures m.themeButtonLabel.Some? <==> showThemeToggle
      ensures m.themeButtonLabel.Some? ==> m.themeButtonLabel.value == ThemeButtonLabel(ModeOf(theme))
    {
      NavMarkup(
        navClass := NavClass(variant),
        desktop := Entries(items, activeDropdown, Desktop),
        themeButtonLabel := if showThemeToggle then Some(ThemeButtonLabel(ModeOf(theme))) else None,
        mobileButtonExpanded := mobileMenuOpen,
        mobileMenu := if mobileMenuOpen then Some(Entries(items, activeDropdown, Mobile)) else None)
    }
  }

  /** A client: opening one dropdown closes the other; the mobile menu's toggle
      leaves the open dropdown alone. */
  method SwitchDropdowns()
  {
    var products := NavItem("products", "Products", None, Some([NavItem("web", "Web", Some(""), None)]));
    var about := NavItem("about", "About", None, Some([]));
    var bar := new NavBar([products, about], None, None, DefaultContext);
    bar.ToggleDropdown("products");
    bar.ToggleDropdown("about");
    assert bar.activeDropdown == Some("about");
    bar.ToggleMobileMenu();
    assert bar.activeDropdown == Some("about") && bar.mobileMenuOpen;
    bar.ToggleDropdown("about");
    assert bar.activeDropdown == None;
  }
}
