/** The edge request gate of `updateSession`: given the request's pathname and whether the
    session carries a user, pass the request through or redirect it. */
module RequestGate {
  import opened Base
  import opened Text
  import opened Paths

  /** The paths reachable without a session, each together with its subtree. */
  const PublicPaths: seq<string> := ["/", "/login", "/register", "/integritet", "/kontakt"]

  /** `publicPaths.some((path) => pathname === path || pathname.startsWith(path + "/"))`. */
  predicate IsPublic(pathname: string)
    ensures IsPublic(pathname) ==> |pathname| > 0 && pathname[0] == '/'
  {
    exists i | 0 <= i < |PublicPaths| :: AtOrBelow(pathname, PublicPaths[i])
  }

  /** The gate's answer. A redirect keeps the request URL, replaces its pathname and, when
      `next` is present, sets the query parameter `next`. */
  datatype Decision = PassThrough | Redirect(pathname: string, next: Option<string>)

  function Decide(pathname: string, signedIn: bool): (d: Decision)
    ensures d.Redirect? ==> d.pathname == "/dashboard" || d.pathname == "/login"
    ensures d.Redirect? ==> (d.next.Some? <==> !signedIn)
    ensures d.Redirect? && d.next.Some? ==> d.next.value == pathname
  {
    if (signedIn && pathname == "/") || (signedIn && pathname == "/login") then
      Redirect("/dashboard", None)
    else if !signedIn && !IsPublic(pathname) then
      Redirect("/login", Some(pathname))
    else
      PassThrough
  }

  /** The first segments that make a path public. */
  const PublicSegments: set<string> := {"", "login", "register", "integritet", "kontakt"}

  /** The public set is exactly what the list implies: a path is public iff it starts with "/"
      and its first segment is "", "login", "register", "integritet" or "kontakt". */
  lemma PublicIffFirstSegment(pathname: string)
    ensures IsPublic(pathname) <==>
      (|pathname| > 0 && pathname[0] == '/' && Segment(pathname[1..]) in PublicSegments)
  {
    var names := ["", "login", "register", "integritet", "kontakt"];
    assert forall i | 0 <= i < |PublicPaths| :: PublicPaths[i] == "/" + names[i];
    assert forall i | 0 <= i < |names| :: '/' !in names[i] && names[i] in PublicSegments;
    forall i | 0 <= i < |PublicPaths|
      ensures AtOrBelow(pathname, PublicPaths[i]) <==>
        (|pathname| > 0 && pathname[0] == '/' && Segment(pathname[1..]) == names[i])
    {
      AtOrBelowSegment(pathname, names[i]);
    }
    if |pathname| > 0 && pathname[0] == '/' && Segment(pathname[1..]) in PublicSegments {
      var seg := Segment(pathname[1..]);
      var i := if seg == "" then 0 else if seg == "login" then 1 else if seg == "register" then 2
        else if seg == "integritet" then 3 else 4;
      assert seg == names[i];
      assert AtOrBelow(pathname, PublicPaths[i]);
    }
  }

  /** "/" followed by a slash-free word outside the public segments is not public. */
  lemma {:induction false} NotPublicWord(w: string)
    requires '/' !in w && w !in PublicSegments
    ensures !IsPublic("/" + w)
  {
    PublicIffFirstSegment("/" + w);
    assert ("/" + w)[1..] == w + [];
    SegmentStops(w, []);
  }

  /** "/loginx" shares a string prefix with "/login" but is not below it. */
  lemma LoginxNotPublic()
    ensures !IsPublic("/loginx")
  {
    assert "/loginx" == "/" + "loginx";
    NotPublicWord("loginx");
  }

  /** The routes of the about and contact pages need a session. */
  lemma AboutContactNotPublic()
    ensures !IsPublic("/about") && !IsPublic("/contact")
  {
    assert "/about" == "/" + "about";
    NotPublicWord("about");
    assert "/contact" == "/" + "contact";
    NotPublicWord("contact");
  }

  /** Nothing under a first segment starting with `c` is public, for a `c` no public word
      starts with: the dashboard ('d') and the app ('a') areas need a session throughout. */
  lemma {:induction false} InitialNotPublic(c: char, rest: string)
    requires c !in {'/', 'l', 'r', 'i', 'k'}
    ensures !IsPublic("/" + [c] + rest)
  {
    var p := "/" + [c] + rest;
    PublicIffFirstSegment(p);
    var seg := Segment(p[1..]);
    assert p[1..] == [c] + rest;
    assert seg != [] ==> seg[0] == c;
    assert seg == [] ==> c == '/';
  }

  /** The redirect target of a signed-in visit, and every page below it, is not public. */
  lemma DashboardTreeNotPublic(rest: string)
    ensures !IsPublic("/dashboard" + rest)
  {
    assert "/dashboard" + rest == "/" + ['d'] + ("ashboard" + rest);
    InitialNotPublic('d', "ashboard" + rest);
  }

  /** A signed-in request is redirected (to "/dashboard") exactly for "/" and "/login". */
  lemma SignedInRedirects(pathname: string)
    ensures Decide(pathname, true) != PassThrough <==> pathname == "/" || pathname == "/login"
    ensures Decide(pathname, true) != PassThrough ==> Decide(pathname, true) == Redirect("/dashboard", None)
  {
  }

  /** A signed-out request is redirected exactly for non-public paths, to "/login" with
      `next` carrying the original pathname; a public path is never redirected. */
  lemma SignedOutRedirects(pathname: string)
    ensures IsPublic(pathname) ==> Decide(pathname, false) == PassThrough
    ensures !IsPublic(pathname) ==> Decide(pathname, false) == Redirect("/login", Some(pathname))
  {
  }

  /** A signed-in user is never sent to "/login". */
  lemma SignedInNeverToLogin(pathname: string)
    ensures Decide(pathname, true).Redirect? ==> Decide(pathname, true).pathname != "/login"
  {
  }

  /** No redirect loop: the target of a redirect passes the gate in the same session state. */
  lemma {:induction false} NoRedirectLoop(pathname: string, signedIn: bool)
    requires Decide(pathname, signedIn).Redirect?
    ensures Decide(Decide(pathname, signedIn).pathname, signedIn) == PassThrough
  {
    assert AtOrBelow("/login", PublicPaths[1]);
  }

  /** After signing in, the page that `next` names is served: it is never "/" or "/login",
      since those are public and were not redirected. */
  lemma {:induction false} NextPassesAfterSignIn(pathname: string)
    requires Decide(pathname, false).Redirect?
    ensures Decide(pathname, false).next == Some(pathname)
    ensures Decide(pathname, true) == PassThrough
  {
    assert AtOrBelow("/", PublicPaths[0]);
    assert AtOrBelow("/login", PublicPaths[1]);
  }
}
