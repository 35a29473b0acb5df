/** The side menu: its entries and which of them is marked active for the
    current location. */
module Sidebar {
  import opened Text

  const DashboardPath := "/dashboard"

  /** The menu entries' paths, top to bottom. */
  const MenuPaths: seq<string> :=
    ["/dashboard", "/profile", "/projects", "/musicians", "/sessions", "/calendar", "/messages", "/payments"]

  /** `isActive`: the dashboard entry only on its own page; any other entry
      on its page and on every location below it. */
  predicate IsActive(pathname: string, path: string) {
    if path == DashboardPath then pathname == path else StartsWith(pathname, path)
  }

  /** An entry is active on its own page. */
  lemma ActiveOnOwnPage(path: string)
    ensures IsActive(path, path)
  {
    assert path[..|path|] == path;
  }

  /** A sub-page activates a non-dashboard entry but not the dashboard:
      '/sessions/new' marks 'Sessions', '/dashboard/x' marks nothing. */
  lemma SubPages(path: string, rest: string)
    ensures path != DashboardPath ==> IsActive(path + rest, path)
    ensures rest != "" ==> !IsActive(DashboardPath + rest, DashboardPath)
    ensures IsActive("/sessions/new", "/sessions")
  {
    assert (path + rest)[..|path|] == path;
    assert "/sessions/new"[..|"/sessions"|] == "/sessions";
  }

  /** The entries of `paths` marked active for a location, in menu order. */
  function ActiveEntries(pathname: string, paths: seq<string>): (r: seq<string>)
    ensures forall p :: p in r <==> p in paths && IsActive(pathname, p)
  {
    if |paths| == 0 then []
    else (if IsActive(pathname, paths[0]) then [paths[0]] else []) + ActiveEntries(pathname, paths[1..])
  }

  /** Two prefixes of one string: the shorter is a prefix of the longer. */
  lemma PrefixesNest(s: string, p: string, q: string)
    requires StartsWith(s, p) && StartsWith(s, q) && |p| <= |q|
    ensures StartsWith(q, p)
  {
    assert q[..|p|] == s[..|q|][..|p|];
  }

  /** No menu path is a prefix of another one. */
  lemma MenuPathsPrefixFree(i: int, j: int)
    requires 0 <= i < |MenuPaths| && 0 <= j < |MenuPaths| && i != j
    ensures !StartsWith(MenuPaths[j], MenuPaths[i])
  {
    var p := MenuPaths[i];
    var q := MenuPaths[j];
    if |p| <= |q| {
      assert q[..|p|] != p by {
        assert q[1] != p[1] || q[2] != p[2] || q[4] != p[4];
        assert q[..|p|][1] == q[1] && q[..|p|][2] == q[2] && q[..|p|][4] == q[4];
      }
    }
  }

  /** Whatever the location, at most one menu entry is marked active. */
  lemma AtMostOneActive(pathname: string, i: int, j: int)
    requires 0 <= i < |MenuPaths| && 0 <= j < |MenuPaths|
    requires IsActive(pathname, MenuPaths[i]) && IsActive(pathname, MenuPaths[j])
    ensures i == j
  {
    if i != j {
      var p := MenuPaths[i];
      var q := MenuPaths[j];
      if p == DashboardPath {
        assert pathname == p;
        MenuPathsPrefixFree(j, i);
        ActiveOnOwnPage(p);
      } else if q == DashboardPath {
        assert pathname == q;
        MenuPathsPrefixFree(i, j);
      } else if |p| <= |q| {
        PrefixesNest(pathname, p, q);
        MenuPathsPrefixFree(i, j);
      } else {
        PrefixesNest(pathname, q, p);
        MenuPathsPrefixFree(j, i);
      }
    }
  }
}
