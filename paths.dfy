/** The path-prefix test that both the edge request gate and the mobile navigation use:
    `pathname === base || pathname.startsWith(base + "/")`. */
module Paths {
  import opened Text

  /** `path` is `base` itself or lies in the subtree below it. */
  predicate AtOrBelow(path: string, base: string) {
    path == base || StartsWith(path, base + "/")
  }

  /** The text of `s` up to, not including, its first "/". */
  function Segment(s: string): (r: string)
    ensures StartsWith(s, r) && '/' !in r
    ensures |r| == |s| || s[|r|] == '/'
  {
    if s == [] || s[0] == '/' then [] else [s[0]] + Segment(s[1..])
  }

  /** A slash-free word followed by nothing or by a "/" is its own first segment. */
  lemma {:induction false} SegmentStops(w: string, t: string)
    requires '/' !in w
    requires t == [] || t[0] == '/'
    ensures Segment(w + t) == w
  {
    if w != [] {
      assert (w + t)[0] == w[0];
      assert (w + t)[1..] == w[1..] + t;
      SegmentStops(w[1..], t);
    } else {
      assert w + t == t;
    }
  }

  /** Reference characterisation: for a slash-free `name`, a path is at or below "/name"
      exactly when it starts with "/" and its first segment is `name`. With `name` = "" this
      says that "/" covers "/" itself and the paths that begin with "//", and nothing else. */
  lemma AtOrBelowSegment(path: string, name: string)
    requires '/' !in name
    ensures AtOrBelow(path, "/" + name) <==> (|path| > 0 && path[0] == '/' && Segment(path[1..]) == name)
  {
    var b := "/" + name;
    if path == b {
      assert path[1..] == name + [];
      SegmentStops(name, []);
    } else if StartsWith(path, b + "/") {
      assert path[1..] == name + path[|b|..];
      assert path[|b|..][0] == '/';
      SegmentStops(name, path[|b|..]);
    }
    if |path| > 0 && path[0] == '/' && Segment(path[1..]) == name {
      var rest := path[1..];
      assert rest[..|name|] == name;
      if |name| == |rest| {
        assert path == [path[0]] + rest;
        assert path == b;
      } else {
        assert rest[|name|] == '/';
        assert path[..|b| + 1] == [path[0]] + rest[..|name|] + [rest[|name|]];
        assert StartsWith(path, b + "/");
      }
    }
  }

  /** Nesting: below something that is below `c` is below `c`. */
  lemma AtOrBelowTransitive(a: string, b: string, c: string)
    requires AtOrBelow(a, b) && AtOrBelow(b, c)
    ensures AtOrBelow(a, c)
  {
    if a != b && b != c {
      assert a[..|c| + 1] == a[..|b| + 1][..|c| + 1] == b[..|c| + 1];
    }
  }

  /** A sibling that only shares a string prefix ("/app/projectsX" next to "/app/projects")
      is not below it. */
  lemma SiblingNotBelow(base: string, c: char, rest: string)
    requires c != '/'
    ensures !AtOrBelow(base + [c] + rest, base)
  {
    var p := base + [c] + rest;
    assert p[|base|] == c;
  }
}
