/** The mobile menu (app.js:94-98, 126-130, 222-226; the same in
    script.js:125-142): three `active`/`menu-open` class flags on the
    hamburger button, the nav element and the body. */
module Menu {

  /** The three flags: hamburger `active`, nav `active`, body `menu-open`. */
  datatype Flags = Flags(hamburger: bool, nav: bool, body: bool)

  /** `toggleMobileMenu`: every flag flips. */
  function Toggled(f: Flags): (r: Flags)
    ensures r.hamburger != f.hamburger && r.nav != f.nav && r.body != f.body
  {
    Flags(!f.hamburger, !f.nav, !f.body)
  }

  /** `closeMobileMenu`: every flag is cleared. */
  function Closed(f: Flags): (r: Flags)
    ensures !r.hamburger && !r.nav && !r.body
  {
    Flags(false, false, false)
  }

  /** `handleOutsideClick`: a click outside both the nav and the hamburger
      clears the nav flag only; any other click changes nothing. */
  function AfterClick(f: Flags, insideNav: bool, insideHamburger: bool): (r: Flags)
    ensures r.hamburger == f.hamburger && r.body == f.body
    ensures r.nav ==> f.nav
  {
    if !insideNav && !insideHamburger then f.(nav := false) else f
  }

  class MobileMenu {
    var hamburgerActive: bool
    var navActive: bool
    var menuOpen: bool

    function State(): Flags
      reads this
    {
      Flags(hamburgerActive, navActive, menuOpen)
    }

    /** The page starts with the menu closed. */
    constructor ()
      ensures State() == Flags(false, false, false)
    {
      hamburgerActive, navActive, menuOpen := false, false, false;
    }

    method Toggle()
      modifies this
      ensures State() == Toggled(old(State()))
    {
      hamburgerActive := !hamburgerActive;
      navActive := !navActive;
      menuOpen := !menuOpen;
    }

    method Close()
      modifies this
      ensures State() == Closed(old(State()))
    {
      hamburgerActive := false;
      navActive := false;
      menuOpen := false;
    }

    method HandleOutsideClick(insideNav: bool, insideHamburger: bool)
      modifies this
      ensures State() == AfterClick(old(State()), insideNav, insideHamburger)
    {
      if !insideNav && !insideHamburger {
        navActive := false;
      }
    }
  }

  /** Toggling twice restores all three flags; a single toggle changes each. */
  lemma ToggleTwiceRestores(f: Flags)
    ensures Toggled(Toggled(f)) == f
    ensures Toggled(f).hamburger != f.hamburger && Toggled(f).nav != f.nav && Toggled(f).body != f.body
  {
  }

  /** Closing leaves every flag false and closing again changes nothing. */
  lemma CloseIdempotent(f: Flags)
    ensures !Closed(f).hamburger && !Closed(f).nav && !Closed(f).body
    ensures Closed(Closed(f)) == Closed(f)
  {
  }

  /** An outside click never touches the hamburger or body flags, and clears
      the nav flag exactly when the click is outside both elements. */
  lemma OutsideClickOnlyNav(f: Flags, insideNav: bool, insideHamburger: bool)
    ensures AfterClick(f, insideNav, insideHamburger).hamburger == f.hamburger
    ensures AfterClick(f, insideNav, insideHamburger).body == f.body
    ensures AfterClick(f, insideNav, insideHamburger).nav
      == (f.nav && (insideNav || insideHamburger))
  {
  }
}
