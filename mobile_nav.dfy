/** The slide-out menu of the signed-in app: its links, which of them is highlighted for the
    current pathname, and the open flag. */
module Navigation {
  import opened Text
  import opened Paths

  datatype NavLink = NavLink(href: string, caption: string)

  const NavLinks := [NavLink("/app", "Översikt"), NavLink("/app/projects", "Projekt"),
                     NavLink("/app/settings", "Inställningar")]

  /** A link is highlighted on its own page and on every page below it. */
  predicate IsActive(pathname: string, link: NavLink) {
    AtOrBelow(pathname, link.href)
  }

  /** The hrefs of the highlighted links, in menu order. */
  function ActiveHrefs(pathname: string, links: seq<NavLink>): (r: seq<string>)
    ensures |r| <= |links|
    ensures forall h :: h in r <==> exists i | 0 <= i < |links| :: links[i].href == h && IsActive(pathname, links[i])
  {
    if links == [] then []
    else (if IsActive(pathname, links[0]) then [links[0].href] else []) + ActiveHrefs(pathname, links[1..])
  }

  /** A project's page highlights both the overview and the project list. */
  lemma ProjectPageActivatesTwo()
    ensures ActiveHrefs("/app/projects/1", NavLinks) == ["/app", "/app/projects"]
  {
    assert "/app/projects/1"[..5] == "/app/";
    assert "/app/projects/1"[..14] == "/app/projects/";
    assert !IsActive("/app/projects/1", NavLinks[2]) by {
      assert "/app/projects/1"[5] != "/app/settings/"[5];
    }
    assert ActiveHrefs("/app/projects/1", NavLinks[2..]) == [];
  }

  /** A page that only shares a string prefix with the project list does not highlight it. */
  lemma SiblingNotActive()
    ensures !IsActive("/app/projectsX", NavLinks[1])
  {
    assert "/app/projectsX" == "/app/projects" + ['X'] + [];
    SiblingNotBelow("/app/projects", 'X', []);
  }

  /** Every page under "/app/" highlights the overview link. */
  lemma UnderAppActivatesOverview(rest: string)
    ensures IsActive("/app/" + rest, NavLinks[0])
  {
    assert ("/app/" + rest)[..5] == "/app/";
  }

  /** The project list and the settings link are never highlighted together. */
  lemma ProjectsAndSettingsExclusive(pathname: string)
    ensures !(IsActive(pathname, NavLinks[1]) && IsActive(pathname, NavLinks[2]))
  {
    assert IsActive(pathname, NavLinks[1]) ==> |pathname| > 5 && pathname[5] == 'p';
    assert IsActive(pathname, NavLinks[2]) ==> |pathname| > 5 && pathname[5] == 's';
  }

  /** The `open` state of the menu. */
  class MobileMenu {
    var open: bool

    constructor ()
      ensures !open
    {
      open := false;
    }

    /** The hamburger button. */
    method Open()
      modifies this
      ensures open
    {
      open := true;
    }

    /** `close`: the overlay, the "Stäng" button. */
    method Close()
      modifies this
      ensures !open
    {
      open := false;
    }

    /** Selecting a link closes the menu and navigates to its href. */
    method FollowLink(i: nat) returns (navigate: string)
      requires i < |NavLinks|
      modifies this
      ensures !open && navigate == NavLinks[i].href
    {
      Close();
      navigate := NavLinks[i].href;
    }
  }
}
