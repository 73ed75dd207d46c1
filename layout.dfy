/** The page frame (src/components/Layout.jsx): which navigation entries are shown, and the
    mobile menu's open flag. */
module Layout {
  import opened Lists
  import opened Capabilities

  datatype NavItem = NavItem(to: string, name: string, cap: string)

  const NavItems: seq<NavItem> := [
    NavItem("/system", "System", "system"),
    NavItem("/color", "Color & Motion", "color"),
    NavItem("/setup", "LED Setup", "setup"),
    NavItem("/camera", "Camera", "camera"),
    NavItem("/hue", "Hue", "hue"),
    NavItem("/ambient", "Ambient", "ambient"),
    NavItem("/dreamscreen", "DreamScreen", "dreamscreen"),
    NavItem("/firmware", "Firmware", "firmware")]

  /** `caps[name]`; a name that is not a flag reads as `undefined`, which is falsy. */
  function CapFlag(caps: Caps, name: string): bool {
    match name
    case "system" => caps.system
    case "color" => caps.color
    case "setup" => caps.setup
    case "ambient" => caps.ambient
    case "camera" => caps.camera
    case "hue" => caps.hue
    case "dreamscreen" => caps.dreamscreen
    case "relay" => caps.relay
    case "wifiAp" => caps.wifiAp
    case "firmware" => caps.firmware
    case _ => false
  }

  /** While loading, every entry but the optional hardware pages; afterwards, the entries
      whose capability is set. */
  predicate Shown(caps: Caps, loading: bool, item: NavItem) {
    if loading then item.cap != "camera" && item.cap != "hue" && item.cap != "dreamscreen"
    else CapFlag(caps, item.cap)
  }

  /** `visibleItems`: an entry is visible exactly when it is a navigation entry and the
      loading or capability rule shows it. */
  function VisibleItems(caps: Caps, loading: bool): (r: seq<NavItem>)
    ensures forall item {:trigger item in r} :: item in r <==> item in NavItems && Shown(caps, loading, item)
  {
    FilterSpec(NavItems, (item: NavItem) => Shown(caps, loading, item));
    Filter(NavItems, (item: NavItem) => Shown(caps, loading, item))
  }

  lemma NavItemsTails()
    ensures NavItems[1..] == NavItems[1..8] && NavItems[1..8][1..] == NavItems[2..8]
    ensures NavItems[2..8][1..] == NavItems[3..8] && NavItems[3..8][1..] == NavItems[4..8]
    ensures NavItems[4..8][1..] == NavItems[5..8] && NavItems[5..8][1..] == NavItems[6..8]
    ensures NavItems[6..8][1..] == NavItems[7..8] && NavItems[7..8][1..] == []
  {
  }

  /** While loading, the menu is System, Color & Motion, LED Setup, Ambient and Firmware, in
      that order, whatever the flags. */
  lemma LoadingMenu(caps: Caps)
    ensures VisibleItems(caps, true) == [NavItems[0], NavItems[1], NavItems[2], NavItems[5], NavItems[7]]
  {
    NavItemsTails();
  }

  /** With the defaults (no snapshot yet, loading finished) the menu is System,
      Color & Motion, LED Setup and Ambient. */
  lemma DefaultMenu()
    ensures VisibleItems(DefaultCapabilities, false) == [NavItems[0], NavItems[1], NavItems[2], NavItems[5]]
  {
    NavItemsTails();
    var keep := (item: NavItem) => Shown(DefaultCapabilities, false, item);
    assert Filter(NavItems[7..8], keep) == [];
    assert Filter(NavItems[6..8], keep) == [];
    assert Filter(NavItems[5..8], keep) == [NavItems[5]];
    assert Filter(NavItems[4..8], keep) == [NavItems[5]];
    assert Filter(NavItems[3..8], keep) == [NavItems[5]];
    assert Filter(NavItems[2..8], keep) == [NavItems[2], NavItems[5]];
  }

  /** A camera module, once loaded, never shows LED Setup or Ambient. */
  lemma CameraMenu(params: ParamUtils.Params, item: NavItem)
    requires Classify(params).camera && item in VisibleItems(Classify(params), false)
    ensures item.cap != "setup" && item.cap != "ambient"
  {
  }

  /** Events that touch the mobile menu. */
  datatype MenuEvent = MenuButton | BackdropClick | BackdropEscape | NavLinkClick

  /** The menu button toggles the menu; the backdrop (click or Escape) and any navigation
      link close it. */
  function MenuOpenAfter(open: bool, e: MenuEvent): (r: bool)
    ensures e == MenuButton ==> r == !open
    ensures e != MenuButton ==> !r
  {
    match e
    case MenuButton => !open
    case _ => false
  }

  function MenuOpenAfterAll(open: bool, es: seq<MenuEvent>): bool
    decreases |es|
  {
    if es == [] then open else MenuOpenAfterAll(MenuOpenAfter(open, es[0]), es[1..])
  }

  /** After events ending in a link click (or a backdrop event) the menu is closed; two menu
      presses in a row leave it as it was. */
  lemma {:induction false} MenuClosesAfterNavigation(open: bool, es: seq<MenuEvent>, last: MenuEvent)
    requires last != MenuButton
    ensures !MenuOpenAfterAll(open, es + [last])
    decreases |es|
  {
    if es == [] {
      assert es + [last] == [last];
    } else {
      assert (es + [last])[1..] == es[1..] + [last];
      MenuClosesAfterNavigation(MenuOpenAfter(open, es[0]), es[1..], last);
    }
  }

  lemma DoubleToggle(open: bool)
    ensures MenuOpenAfterAll(open, [MenuButton, MenuButton]) == open
  {
    assert [MenuButton, MenuButton][1..] == [MenuButton];
    assert [MenuButton][1..] == [];
  }
}
