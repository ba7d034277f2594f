/** The site header (shared/components/header/Header.tsx): it hides while the
    page scrolls down past 100, reappears on any scroll up or near the top,
    switches to its scrolled look past 10, and owns the mobile menu. */
module Header {
  import opened Strings

  /** `isActive(href)` for the current path: the root link only on the root
      itself, every other link on any path it prefixes. */
  predicate IsActive(pathname: string, href: string) {
    if href == "/" then pathname == "/" else StartsWith(pathname, href)
  }

  /** The root link is active only on exactly "/". */
  lemma RootActiveOnlyAtRoot(pathname: string)
    ensures IsActive(pathname, "/") <==> pathname == "/"
  {
  }

  /** Any other link stays active on every path below it. */
  lemma SubpathActive(href: string, rest: string)
    requires href != "/"
    ensures IsActive(href + rest, href)
  {
    assert (href + rest)[..|href|] == href;
  }

  /** Two non-root links active on the same path are nested: one is a
      prefix of the other. */
  lemma ActiveLinksNested(pathname: string, a: string, b: string)
    requires a != "/" && b != "/"
    requires IsActive(pathname, a) && IsActive(pathname, b)
    ensures StartsWith(a, b) || StartsWith(b, a)
  {
    if |a| <= |b| {
      assert b[..|a|] == pathname[..|a|];
    } else {
      assert a[..|b|] == pathname[..|b|];
    }
  }

  class HeaderState {
    const pathname: string
    var isScrolled: bool
    var lastScrollY: int
    var isVisible: bool
    var isMobileMenuOpen: bool

    /** The scrolled look matches the last position, and the header is hidden
        only past 100. */
    predicate Valid()
      reads this
    {
      && (isScrolled <==> lastScrollY > 10)
      && (!isVisible ==> lastScrollY > 100)
    }

    /** The first render: at the top, visible, menu closed. */
    constructor (pathname: string)
      ensures this.pathname == pathname
      ensures !isScrolled && lastScrollY == 0 && isVisible && !isMobileMenuOpen
      ensures Valid()
    {
      this.pathname := pathname;
      isScrolled := false;
      lastScrollY := 0;
      isVisible := true;
      isMobileMenuOpen := false;
    }

    /** `handleScroll()` at position `currentScrollY`. */
    method HandleScroll(currentScrollY: int)
      requires Valid()
      modifies this
      ensures Valid()
      ensures currentScrollY < old(lastScrollY) || currentScrollY < 10 ==> isVisible
      ensures (!(currentScrollY < old(lastScrollY) || currentScrollY < 10)
               && currentScrollY > old(lastScrollY) && currentScrollY > 100) ==> !isVisible
      ensures (!(currentScrollY < old(lastScrollY) || currentScrollY < 10)
               && !(currentScrollY > old(lastScrollY) && currentScrollY > 100)) ==> isVisible == old(isVisible)
      ensures isScrolled == (currentScrollY > 10)
      ensures lastScrollY == currentScrollY
      ensures isMobileMenuOpen == old(isMobileMenuOpen)
    {
      if currentScrollY < lastScrollY || currentScrollY < 10 {
        isVisible := true;
      } else if currentScrollY > lastScrollY && currentScrollY > 100 {
        isVisible := false;
      }
      isScrolled := currentScrollY > 10;
      lastScrollY := currentScrollY;
    }

    /** The menu button: opens a closed menu and closes an open one. */
    method ToggleMenu()
      requires Valid()
      modifies this
      ensures Valid()
      ensures isMobileMenuOpen == !old(isMobileMenuOpen)
      ensures isScrolled == old(isScrolled) && lastScrollY == old(lastScrollY) && isVisible == old(isVisible)
    {
      isMobileMenuOpen := !isMobileMenuOpen;
    }

    /** `handleLinkClick()`: a navigation link closes the menu. */
    method HandleLinkClick()
      requires Valid()
      modifies this
      ensures Valid()
      ensures !isMobileMenuOpen
      ensures isScrolled == old(isScrolled) && lastScrollY == old(lastScrollY) && isVisible == old(isVisible)
    {
      isMobileMenuOpen := false;
    }

    /** A click on the overlay closes the menu. */
    method CloseOverlay()
      requires Valid()
      modifies this
      ensures Valid()
      ensures !isMobileMenuOpen
      ensures isScrolled == old(isScrolled) && lastScrollY == old(lastScrollY) && isVisible == old(isVisible)
    {
      isMobileMenuOpen := false;
    }

    /** Whether the link to `href` is shown as active. */
    function LinkActive(href: string): (active: bool)
      ensures href == "/" ==> (active <==> pathname == "/")
      ensures href != "/" ==> (active <==> StartsWith(pathname, href))
    {
      IsActive(pathname, href)
    }
  }

  /** Scrolling back to the top from anywhere shows the plain header. */
  method ScrollToTop(header: HeaderState) returns (visible: bool, scrolled: bool)
    requires header.Valid()
    modifies header
    ensures visible && !scrolled
  {
    header.HandleScroll(0);
    visible := header.isVisible;
    scrolled := header.isScrolled;
  }
}
