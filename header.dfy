/** The fixed site header: a scrolled look past a small threshold and a mobile menu. */
module Header {

  /** `window.scrollY > 50`: the header switches to its solid, rounded look strictly past 50 px. */
  function IsScrolledAt(scrollY: real): (scrolled: bool)
    ensures scrollY <= 50.0 ==> !scrolled
    ensures scrollY > 50.0 ==> scrolled
  {
    scrollY > 50.0
  }

  /** Once scrolled past the threshold, scrolling further down keeps the header in its scrolled look. */
  lemma IsScrolledMonotone(y1: real, y2: real)
    requires y1 <= y2 && IsScrolledAt(y1)
    ensures IsScrolledAt(y2)
  {
  }

  /** 50 is still at the top; 51 is scrolled. */
  lemma IsScrolledBoundary()
    ensures !IsScrolledAt(50.0) && IsScrolledAt(51.0)
  {
  }

  /** The five links of the mobile menu. Each one closes the menu. */
  datatype MobileLink = Products | OurProcess | Gallery | AboutUs | ContactUs

  /** The menu button's icon. */
  datatype MenuIcon = MenuBars | CloseCross

  /** What the header shows for its two state values. */
  datatype View = View(solidBackground: bool, icon: MenuIcon, mobileMenuShown: bool)

  /** The header's rendering of its state. */
  function ViewOf(isMenuOpen: bool, isScrolled: bool): (v: View)
    ensures v.mobileMenuShown <==> isMenuOpen
    ensures v.icon == CloseCross <==> isMenuOpen
    ensures v.solidBackground <==> isScrolled
  {
    View(isScrolled, if isMenuOpen then CloseCross else MenuBars, isMenuOpen)
  }

  /** The header's React state. */
  class HeaderState {
    var isMenuOpen: bool
    var isScrolled: bool

    /** First render: the menu is closed and the page is taken to be at the top. */
    constructor ()
      ensures !isMenuOpen && !isScrolled
    {
      isMenuOpen := false;
      isScrolled := false;
    }

    /** What is on screen now. */
    function CurrentView(): (v: View)
      reads this
      ensures v.mobileMenuShown <==> isMenuOpen
    {
      ViewOf(isMenuOpen, isScrolled)
    }

    /** The `scroll` listener: recompute the threshold; the menu is left alone. */
    method HandleScroll(scrollY: real)
      modifies this`isScrolled
      ensures isScrolled == IsScrolledAt(scrollY)
      ensures isMenuOpen == old(isMenuOpen)
    {
      isScrolled := scrollY > 50.0;
    }

    /** The menu button: flip the menu; the scrolled look is left alone. */
    method ToggleMenu()
      modifies this`isMenuOpen
      ensures isMenuOpen == !old(isMenuOpen)
      ensures isScrolled == old(isScrolled)
    {
      isMenuOpen := !isMenuOpen;
    }

    /** A click on a mobile-menu link, which is only on screen while the menu is open, closes the menu. */
    method ClickMobileLink(link: MobileLink)
      requires CurrentView().mobileMenuShown
      modifies this`isMenuOpen
      ensures !isMenuOpen
      ensures isScrolled == old(isScrolled)
    {
      isMenuOpen := false;
    }
  }

  /** Toggling twice restores the menu and leaves the scrolled look alone. */
  method ToggleTwice(h: HeaderState)
    modifies h
    ensures h.isMenuOpen == old(h.isMenuOpen) && h.isScrolled == old(h.isScrolled)
  {
    h.ToggleMenu();
    h.ToggleMenu();
  }
}
