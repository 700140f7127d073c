/** The site navigation: normalising the current path, deciding whether a
    menu item (or one of its children) is active, and picking the header
    menu. The regular expressions of the items are an abstract `matches`
    predicate: `matches(pattern, path)` is `new RegExp(pattern).test(path)`. */
module Navigation {
  import opened Text
  import opened Seqs

  /** A menu item; a missing `children` list is the empty list. */
  datatype NavigationItem = NavigationItem(
    href: string, text: string, matchPattern: string, header: bool,
    children: seq<NavigationItem>)

  const IndexHtml: string := "/index.html"

  /** `s.replace(/<suffix>$/, "")`: removes `suffix` once from the end. */
  function StripSuffix(s: string, suffix: string): (r: string)
    ensures EndsWith(s, suffix) ==> r + suffix == s
    ensures !EndsWith(s, suffix) ==> r == s
  {
    if EndsWith(s, suffix) then s[..|s| - |suffix|] else s
  }

  /** `normalizePath`: "/" stays; otherwise one trailing "/" goes, then one
      trailing "/index.html"; an empty result becomes "/". */
  function NormalizePath(path: string): (r: string)
    ensures r != ""
    ensures path == "/" ==> r == "/"
    ensures r == "/" || StartsWith(path, r)
  {
    var noSlash := if path == "/" then "/" else StripSuffix(path, "/");
    var noIndex := StripSuffix(noSlash, IndexHtml);
    if noIndex == "" then "/" else noIndex
  }

  /** A path `normalizePath` leaves as it is. */
  predicate Canonical(p: string)
  {
    p == "/" || (p != "" && !EndsWith(p, "/") && !EndsWith(p, IndexHtml))
  }

  /** Canonical paths are the fixed points of `normalizePath`. */
  lemma CanonicalIsFixed(p: string)
    ensures Canonical(p) <==> NormalizePath(p) == p
  {
  }

  /** The empty path and "/index.html" are the root. */
  lemma RootForms()
    ensures NormalizePath("") == "/"
    ensures NormalizePath(IndexHtml) == "/"
  {
    assert EndsWith(IndexHtml, IndexHtml);
  }

  /** A trailing slash does not change the normalised path. */
  lemma TrailingSlashIgnored(d: string)
    requires !EndsWith(d, "/")
    ensures NormalizePath(d + "/") == NormalizePath(d)
  {
    assert EndsWith(d + "/", "/");
    assert (d + "/")[..|d|] == d;
  }

  /** A trailing "/index.html" does not change the normalised path. */
  lemma IndexHtmlIgnored(d: string)
    requires !EndsWith(d, "/") && !EndsWith(d, IndexHtml)
    ensures NormalizePath(d + IndexHtml) == NormalizePath(d)
  {
    var p := d + IndexHtml;
    assert EndsWith(p, IndexHtml);
    assert !EndsWith(p, "/") by {
      assert p[|p| - 1] == 'l';
    }
    assert p[..|d|] == d;
  }

  /** `isItemActive`: the item's pattern matches the normalised path, or some
      child is active for the normalised path (which the child normalises
      once more). */
  predicate IsItemActive(item: NavigationItem, currentPath: string,
                         matches: (string, string) -> bool)
    ensures item.children == [] ==>
      (IsItemActive(item, currentPath, matches) <==> matches(item.matchPattern, NormalizePath(currentPath)))
    decreases item
  {
    var normalizedPath := NormalizePath(currentPath);
    matches(item.matchPattern, normalizedPath)
    || exists i :: 0 <= i < |item.children|
                  && IsItemActive(item.children[i], normalizedPath, matches)
  }

  /** The item and all its descendants, parents before children. */
  function Nodes(item: NavigationItem): (ns: seq<NavigationItem>)
    ensures |ns| >= 1 && ns[0] == item
    decreases item, 1
  {
    [item] + NodesOf(item.children)
  }

  function NodesOf(items: seq<NavigationItem>): seq<NavigationItem>
    decreases items, 0
  {
    if items == [] then [] else Nodes(items[0]) + NodesOf(items[1..])
  }

  /** Some node of `ns` has a pattern that matches `path`. */
  predicate MatchesIn(ns: seq<NavigationItem>, path: string, matches: (string, string) -> bool)
  {
    exists n :: n in ns && matches(n.matchPattern, path)
  }

  /** The nodes of a list of items are the nodes of its members. */
  lemma {:induction false} NodesOfMembers(items: seq<NavigationItem>, n: NavigationItem)
    ensures n in NodesOf(items) <==> exists i :: 0 <= i < |items| && n in Nodes(items[i])
    decreases items
  {
    if items != [] {
      NodesOfMembers(items[1..], n);
      if n in NodesOf(items[1..]) {
        var i :| 0 <= i < |items[1..]| && n in Nodes(items[1..][i]);
        assert n in Nodes(items[i + 1]);
      }
      if exists i :: 0 <= i < |items| && n in Nodes(items[i]) {
        var i :| 0 <= i < |items| && n in Nodes(items[i]);
        if i > 0 {
          assert items[1..][i - 1] == items[i];
        }
      }
    }
  }

  /** When the normalised path is canonical, an item is active exactly when
      some node of its tree (the item, a child, a grandchild ...) has a
      pattern matching the normalised path. */
  lemma {:induction false} ActiveIffSomeNodeMatches(item: NavigationItem, currentPath: string,
                                                   matches: (string, string) -> bool)
    requires Canonical(NormalizePath(currentPath))
    ensures IsItemActive(item, currentPath, matches)
        <==> MatchesIn(Nodes(item), NormalizePath(currentPath), matches)
    decreases item
  {
    var q := NormalizePath(currentPath);
    CanonicalIsFixed(q);
    forall i | 0 <= i < |item.children|
      ensures IsItemActive(item.children[i], q, matches) <==> MatchesIn(Nodes(item.children[i]), q, matches)
    {
      ActiveIffSomeNodeMatches(item.children[i], q, matches);
    }
    if MatchesIn(Nodes(item), q, matches) && !matches(item.matchPattern, q) {
      var i := ChildWithMatch(item, q, matches);
      assert IsItemActive(item.children[i], q, matches);
    }
    if IsItemActive(item, currentPath, matches) && !matches(item.matchPattern, q) {
      var i :| 0 <= i < |item.children| && IsItemActive(item.children[i], q, matches);
      ChildMatchIsNodeMatch(item, q, matches, i);
    }
  }

  /** A match below the item's own pattern lies in some child's tree. */
  lemma ChildWithMatch(item: NavigationItem, q: string, matches: (string, string) -> bool)
    returns (i: nat)
    requires MatchesIn(Nodes(item), q, matches) && !matches(item.matchPattern, q)
    ensures i < |item.children| && MatchesIn(Nodes(item.children[i]), q, matches)
  {
    var n :| n in Nodes(item) && matches(n.matchPattern, q);
    assert n in NodesOf(item.children);
    NodesOfMembers(item.children, n);
    i :| 0 <= i < |item.children| && n in Nodes(item.children[i]);
  }

  /** A match in a child's tree is a match in the item's tree. */
  lemma ChildMatchIsNodeMatch(item: NavigationItem, q: string, matches: (string, string) -> bool, i: nat)
    requires i < |item.children| && MatchesIn(Nodes(item.children[i]), q, matches)
    ensures MatchesIn(Nodes(item), q, matches)
  {
    var n :| n in Nodes(item.children[i]) && matches(n.matchPattern, q);
    NodesOfMembers(item.children, n);
    assert n in Nodes(item);
  }

  /** `getHeaderNavigation`: the items flagged for the header, in order. */
  function HeaderNavigation(navigation: seq<NavigationItem>): (r: seq<NavigationItem>)
    ensures IsSubsequence(r, navigation)
    ensures forall i :: 0 <= i < |r| ==> r[i].header
    ensures forall item :: multiset(r)[item] == if item.header then multiset(navigation)[item] else 0
  {
    var p := (item: NavigationItem) => item.header;
    FilterMultiset(navigation, p);
    Filter(navigation, p)
  }
}
