/** The enhanced mobile menu: the `active` classes of the hamburger, the menu
    and the overlay, the body's `nav-open` class and the hamburger's
    `aria-expanded` and `aria-label`, driven by open, close, toggle, Escape and
    resize. */
module MobileMenu {
  import opened Strings

  const Breakpoint := 768
  const OpenLabel := "Abrir menú de navegación"
  const CloseLabel := "Cerrar menú de navegación"

  /** The classes and accessibility attributes the menu script writes. */
  datatype MenuState = MenuState(
    hamburger: bool,
    menu: bool,
    body: bool,
    overlay: bool,
    ariaExpanded: bool,
    ariaLabel: string)

  /** The label that offers the opposite of the current state. */
  function LabelFor(open: bool): string
  {
    if open then CloseLabel else OpenLabel
  }

  /** Every class and attribute agrees with the hamburger's class. */
  predicate Synced(s: MenuState)
  {
    s.menu == s.hamburger && s.body == s.hamburger && s.overlay == s.hamburger &&
    s.ariaExpanded == s.hamburger && s.ariaLabel == LabelFor(s.hamburger)
  }

  /** `openMenu`'s effect. */
  const OpenState := MenuState(true, true, true, true, true, CloseLabel)
  /** `closeMenu`'s effect, and the attributes set when the script starts. */
  const ClosedState := MenuState(false, false, false, false, false, OpenLabel)

  /** `toggleMenu`: close when the hamburger is active, open otherwise. */
  function Toggled(s: MenuState): (r: MenuState)
    ensures Synced(r) && r.hamburger == !s.hamburger
  {
    if s.hamburger then ClosedState else OpenState
  }

  /** The Escape handler: close only an open menu. */
  function AfterEscape(s: MenuState, key: string): (r: MenuState)
    ensures key == "Escape" && s.hamburger ==> r == ClosedState
    ensures !(key == "Escape" && s.hamburger) ==> r == s
  {
    if key == "Escape" && s.hamburger then ClosedState else s
  }

  /** `handleResize`: growing past the breakpoint closes an open menu. */
  function AfterResize(s: MenuState, width: int): (r: MenuState)
    ensures width > Breakpoint && s.hamburger ==> r == ClosedState
    ensures !(width > Breakpoint && s.hamburger) ==> r == s
  {
    if width > Breakpoint && s.hamburger then ClosedState else s
  }

  /** Toggling twice gives back any state the script itself produced. */
  lemma ToggleTwiceRestores(s: MenuState)
    requires Synced(s)
    ensures Toggled(Toggled(s)) == s
  {
  }

  /** From any state, even one the markup left inconsistent, one toggle
      brings every class and attribute into agreement. */
  lemma ToggleSynchronises(s: MenuState)
    ensures Synced(Toggled(s)) && Synced(Toggled(Toggled(s)))
    ensures Toggled(Toggled(s)).hamburger == s.hamburger
  {
  }

  /** Escape and a wide resize leave a closed menu alone and never open one. */
  lemma EventsNeverOpen(s: MenuState, key: string, width: int)
    ensures !s.hamburger ==> AfterEscape(s, key) == s && AfterResize(s, width) == s
    ensures AfterEscape(s, key).hamburger ==> s.hamburger
    ensures AfterResize(s, width).hamburger ==> s.hamburger
  {
  }

  /** The menu on a page, from the script's `DOMContentLoaded` handler. */
  class Menu {
    /** Whether the hamburger and the menu were found; without them the script
        stops before attaching anything. */
    var initialised: bool
    /** The number of `.nav-overlay` elements in the document. */
    var overlays: nat
    var hamburger: bool
    var menu: bool
    var body: bool
    var overlay: bool
    var ariaExpanded: bool
    var ariaLabel: string

    function State(): MenuState
      reads this
    {
      MenuState(hamburger, menu, body, overlay, ariaExpanded, ariaLabel)
    }

    /** Start-up on a page whose classes are all off: stop if an element is
        missing; otherwise add an overlay only when the page has none, and set
        the closed menu's attributes. */
    constructor (hamburgerFound: bool, menuFound: bool, overlaysInPage: nat)
      ensures initialised == (hamburgerFound && menuFound)
      ensures initialised ==> overlays == Max(1, overlaysInPage) && State() == ClosedState
      ensures !initialised ==> overlays == overlaysInPage && !hamburger && !menu && !body && !overlay
    {
      hamburger, menu, body, overlay := false, false, false, false;
      ariaExpanded, ariaLabel := false, [];
      initialised := hamburgerFound && menuFound;
      if hamburgerFound && menuFound {
        overlays := if overlaysInPage == 0 then 1 else overlaysInPage;
        ariaLabel := OpenLabel;
      } else {
        overlays := overlaysInPage;
      }
    }

    /** `openMenu` */
    method OpenMenu()
      modifies this`hamburger, this`menu, this`body, this`overlay, this`ariaExpanded, this`ariaLabel
      ensures State() == OpenState
    {
      hamburger, menu, body, overlay := true, true, true, true;
      ariaExpanded := true;
      ariaLabel := CloseLabel;
    }

    /** `closeMenu` */
    method CloseMenu()
      modifies this`hamburger, this`menu, this`body, this`overlay, this`ariaExpanded, this`ariaLabel
      ensures State() == ClosedState
    {
      hamburger, menu, body, overlay := false, false, false, false;
      ariaExpanded := false;
      ariaLabel := OpenLabel;
    }

    /** `toggleMenu`, run by a click, a touch, Enter or Space on the hamburger. */
    method ToggleMenu()
      modifies this`hamburger, this`menu, this`body, this`overlay, this`ariaExpanded, this`ariaLabel
      ensures State() == Toggled(old(State()))
    {
      if hamburger {
        CloseMenu();
      } else {
        OpenMenu();
      }
    }

    /** The document's key handler. */
    method OnKeyDown(key: string)
      modifies this`hamburger, this`menu, this`body, this`overlay, this`ariaExpanded, this`ariaLabel
      ensures State() == AfterEscape(old(State()), key)
    {
      if key == "Escape" && hamburger {
        CloseMenu();
      }
    }

    /** `handleResize` for the new window width (the inline styles it then
        applies are not modelled). */
    method HandleResize(width: int)
      modifies this`hamburger, this`menu, this`body, this`overlay, this`ariaExpanded, this`ariaLabel
      ensures State() == AfterResize(old(State()), width)
    {
      if width > Breakpoint && hamburger {
        CloseMenu();
      }
    }
  }
}
