/** Navigation highlighting (script.js:80-103, 155-175; identical in
    app.js:79-147): the scroll spy marks the link of the section under the
    scroll position, a click on a link marks that link, and the header gets
    its `scrolled` class past 50 pixels.

    The `.nav-menu a` links are modelled by their `href` values, in document
    order, and their `active` classes by an array of flags of the same length. */
module Nav {
  import opened Wrappers
  import Menu

  /** A page section: its id and its vertical offset and height in pixels. */
  datatype Section = Section(id: string, offsetTop: int, offsetHeight: int)

  /** The scroll spy's window for a section: from 100 pixels above its top,
      for its height, the upper bound excluded. */
  predicate InWindow(s: Section, scrollY: int)
    ensures InWindow(s, scrollY) ==> s.offsetHeight > 0
  {
    s.offsetTop - 100 <= scrollY < s.offsetTop - 100 + s.offsetHeight
  }

  /** The last section, in order, whose window holds the scroll position. */
  function LastInWindow(sections: seq<Section>, scrollY: int): (r: Option<nat>)
    ensures r.Some? ==> r.value < |sections| && InWindow(sections[r.value], scrollY)
    ensures r.Some? ==> forall j :: r.value < j < |sections| ==> !InWindow(sections[j], scrollY)
    ensures r.None? <==> forall j :: 0 <= j < |sections| ==> !InWindow(sections[j], scrollY)
  {
    if |sections| == 0 then None
    else if InWindow(sections[|sections| - 1], scrollY) then Some(|sections| - 1)
    else LastInWindow(sections[..|sections| - 1], scrollY)
  }

  /** The link `.nav-menu a[href="#id"]` selects: the first with that href. */
  function LinkFor(links: seq<string>, id: string): (r: Option<nat>)
    ensures r.Some? ==> r.value < |links| && links[r.value] == "#" + id
    ensures r.Some? ==> forall j :: 0 <= j < r.value ==> links[j] != "#" + id
    ensures r.None? <==> forall j :: 0 <= j < |links| ==> links[j] != "#" + id
  {
    if |links| == 0 then None
    else if links[0] == "#" + id then Some(0)
    else match LinkFor(links[1..], id)
      case None => None
      case Some(k) => Some(k + 1)
  }

  /** Exactly the link `link` is marked, or none when it is `None`. */
  ghost predicate OnlyActive(active: seq<bool>, link: Option<nat>)
  {
    forall i :: 0 <= i < |active| ==> (active[i] <==> link == Some(i))
  }

  /** The active flags the scroll spy leaves: unchanged when no window holds
      the position, otherwise only the link of the last section that does. */
  ghost predicate SpyResult(sections: seq<Section>, links: seq<string>, scrollY: int,
                            before: seq<bool>, after: seq<bool>)
  {
    match LastInWindow(sections, scrollY)
    case None => after == before
    case Some(k) => |after| == |before| && OnlyActive(after, LinkFor(links, sections[k].id))
  }

  /** Remove `active` from every link. */
  method ClearActive(active: array<bool>)
    modifies active
    ensures forall i :: 0 <= i < active.Length ==> !active[i]
  {
    var i := 0;
    while i < active.Length
      invariant 0 <= i <= active.Length
      invariant forall j :: 0 <= j < i ==> !active[j]
    {
      active[i] := false;
      i := i + 1;
    }
  }

  /** `updateActiveNavLink(clickedLink)`: clear every link, then mark the clicked one. */
  method UpdateActiveNavLink(active: array<bool>, clicked: nat)
    requires clicked < active.Length
    modifies active
    ensures OnlyActive(active[..], Some(clicked))
  {
    ClearActive(active);
    active[clicked] := true;
  }

  /** `updateActiveLink`: scan the sections in order; each one whose window
      holds the scroll position clears every link and marks its own. */
  method UpdateActiveLink(sections: seq<Section>, links: seq<string>, active: array<bool>, scrollY: int)
    requires active.Length == |links|
    modifies active
    ensures SpyResult(sections, links, scrollY, old(active[..]), active[..])
  {
    var s := 0;
    while s < |sections|
      invariant 0 <= s <= |sections|
      invariant SpyResult(sections[..s], links, scrollY, old(active[..]), active[..])
    {
      var sectionTop := sections[s].offsetTop - 100;
      var sectionBottom := sectionTop + sections[s].offsetHeight;
      if scrollY >= sectionTop && scrollY < sectionBottom {
        ClearActive(active);
        var link := LinkFor(links, sections[s].id);
        if link.Some? {
          active[link.value] := true;
        }
      }
      assert sections[..s + 1][..s] == sections[..s];
      s := s + 1;
    }
    assert sections[..s] == sections;
  }

  /** `handleScroll`: run the scroll spy and report whether the header gets
      its `scrolled` class. */
  method HandleScroll(sections: seq<Section>, links: seq<string>, active: array<bool>, scrollY: int)
    returns (scrolled: bool)
    requires active.Length == |links|
    modifies active
    ensures SpyResult(sections, links, scrollY, old(active[..]), active[..])
    ensures scrolled <==> scrollY > 50
  {
    UpdateActiveLink(sections, links, active, scrollY);
    scrolled := scrollY > 50;
  }

  /** `handleNavLinkClick` on link `clicked`. An href starting with `#` is
      first handed to `smoothScrollTo`, whose `document.querySelector(href)`
      throws when the href is not a CSS selector (`"#"`, `"#1x"`), ending the
      handler before anything is marked; `targetParses` is the browser's answer
      to that parse. Otherwise the link alone is marked and the menu closes.
      Any other href changes nothing. */
  method HandleNavLinkClick(links: seq<string>, clicked: nat, targetParses: bool,
                            active: array<bool>, menu: Menu.MobileMenu)
    requires active.Length == |links| && clicked < |links|
    modifies active, menu
    ensures |links[clicked]| > 0 && links[clicked][0] == '#' && targetParses ==>
      OnlyActive(active[..], Some(clicked)) && menu.State() == Menu.Closed(old(menu.State()))
    ensures !(|links[clicked]| > 0 && links[clicked][0] == '#' && targetParses) ==>
      active[..] == old(active[..]) && menu.State() == old(menu.State())
  {
    var targetId := links[clicked];
    if |targetId| > 0 && targetId[0] == '#' {
      if !targetParses {
        return;
      }
      UpdateActiveNavLink(active, clicked);
      menu.Close();
    }
  }

  /** Whatever the order, the scroll spy's outcome is decided by the last
      matching section alone: sections after it change nothing and the
      sections before it are overridden. */
  lemma {:induction false} SpyLastMatchWins(sections: seq<Section>, more: seq<Section>, scrollY: int)
    requires forall j :: 0 <= j < |more| ==> !InWindow(more[j], scrollY)
    ensures LastInWindow(sections + more, scrollY) == LastInWindow(sections, scrollY)
    decreases |more|
  {
    if |more| > 0 {
      var all := sections + more;
      assert all[..|all| - 1] == sections + more[..|more| - 1];
      SpyLastMatchWins(sections, more[..|more| - 1], scrollY);
    } else {
      assert sections + more == sections;
    }
  }
}
