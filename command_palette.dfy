/** The command palette: a search box whose results are fetched after the
    user stops typing, shown grouped by content type, and navigated with
    the arrow keys and Enter. */
module CommandPalette {
  import opened Common
  import opened Text

  /** A search result as the search action returns it. */
  datatype SearchItem = SearchItem(id: string, name: string, itemType: string, url: string,
                                   status: Option<string>, date: Option<string>)

  // ---------------------------------------------------------------------------
  // Status badges

  const SketchIcon: string :=
    "<svg xmlns=\"http://www.w3.org/2000/svg\" width=\"14\" height=\"14\" viewBox=\"0 0 24 24\" fill=\"none\" stroke=\"currentColor\" stroke-width=\"2\" stroke-linecap=\"round\" stroke-linejoin=\"round\"><path d=\"M17 3a2.85 2.83 0 1 1 4 4L7.5 20.5 2 22l1.5-5.5Z\"/><path d=\"m15 5 4 4\"/></svg>"
  const SurveyingIcon: string :=
    "<svg xmlns=\"http://www.w3.org/2000/svg\" width=\"14\" height=\"14\" viewBox=\"0 0 24 24\" fill=\"none\" stroke=\"currentColor\" stroke-width=\"2\" stroke-linecap=\"round\" stroke-linejoin=\"round\"><circle cx=\"12\" cy=\"12\" r=\"10\"/><polygon points=\"16.24 7.76 14.12 14.12 7.76 16.24 9.88 9.88 16.24 7.76\"/></svg>"
  const ChartedIcon: string :=
    "<svg xmlns=\"http://www.w3.org/2000/svg\" width=\"14\" height=\"14\" viewBox=\"0 0 24 24\" fill=\"none\" stroke=\"currentColor\" stroke-width=\"2\" stroke-linecap=\"round\" stroke-linejoin=\"round\"><path d=\"M18 8c0 4.5-6 9-6 9s-6-4.5-6-9a6 6 0 0 1 12 0\"/><circle cx=\"12\" cy=\"8\" r=\"2\"/><path d=\"M8.835 14H5a1 1 0 0 0-.9.7l-2 6c-.1.1-.1.2-.1.3 0 .6.4 1 1 1h18c.6 0 1-.4 1-1 0-.1 0-.2-.1-.3l-2-6a1 1 0 0 0-.9-.7h-3.835\"/></svg>"

  predicate KnownStatus(status: Option<string>)
  {
    status.Some? && status.value in {"sketch", "surveying", "charted"}
  }

  /** `STATUS_SVGS[status]`. */
  function StatusIcon(status: string): string
  {
    if status == "sketch" then SketchIcon
    else if status == "surveying" then SurveyingIcon
    else ChartedIcon
  }

  /** `STATUS_COLORS[status].selected` or `.default`. */
  function StatusColor(status: string, isSelected: bool): string
  {
    var hue := if status == "sketch" then "green" else if status == "surveying" then "yellow" else "blue";
    if isSelected then
      "bg-" + hue + "-100 text-" + hue + "-800 dark:bg-" + hue + "-900/50 dark:text-" + hue
        + "-200 ring-1 ring-inset ring-" + hue + "-600/20"
    else "bg-" + hue + "-100 text-" + hue + "-800 dark:bg-" + hue + "-900/30 dark:text-" + hue + "-200"
  }

  const BadgeClass: string := "<span class=\"inline-flex items-center gap-1 text-xs px-2 py-0.5 rounded-full "

  /** The badge markup around a colour class, an icon and a status name. */
  function Badge(colorClass: string, icon: string, status: string): (r: string)
    ensures StartsWith(r, BadgeClass) && EndsWith(r, icon + " " + status + "</span>")
  {
    ConcatEnds(BadgeClass, colorClass + "\">", icon + " " + status + "</span>");
    BadgeClass + (colorClass + "\">") + (icon + " " + status + "</span>")
  }

  /** `getStatusBadge(status, isSelected)`: empty for a missing or unknown
      status; otherwise a pill holding the status's icon and its name. */
  function GetStatusBadge(status: Option<string>, isSelected: bool): (r: string)
    ensures r == "" <==> !KnownStatus(status)
    ensures KnownStatus(status) ==>
      StartsWith(r, BadgeClass) && EndsWith(r, StatusIcon(status.value) + " " + status.value + "</span>")
  {
    if !KnownStatus(status) then ""
    else Badge(StatusColor(status.value, isSelected), StatusIcon(status.value), status.value)
  }

  // ---------------------------------------------------------------------------
  // Grouping by type

  /** The groups built by the `reduce` in `renderSearchResults`: a `Map` from
      type to items, whose keys keep insertion order. */
  type Groups = seq<(string, seq<SearchItem>)>

  function GroupKeys(g: Groups): (ks: seq<string>)
    ensures |ks| == |g| && forall k :: 0 <= k < |g| ==> ks[k] == g[k].0
  {
    seq(|g|, k requires 0 <= k < |g| => g[k].0)
  }

  /** The position of the group with key `t`. */
  function GroupIndex(g: Groups, t: string): (k: nat)
    requires t in GroupKeys(g)
    ensures k < |g| && g[k].0 == t
    decreases |g|
  {
    if g[0].0 == t then 0
    else
      assert GroupKeys(g)[1..] == GroupKeys(g[1..]);
      GroupIndex(g[1..], t) + 1
  }

  /** One step of the reduce: open the item's group if it is new, then push
      the item onto it. */
  function AddToGroups(g: Groups, item: SearchItem): (r: Groups)
    ensures |r| == if item.itemType in GroupKeys(g) then |g| else |g| + 1
    ensures r != [] && r[0].0 == if g == [] then item.itemType else g[0].0
  {
    if item.itemType in GroupKeys(g) then
      var k := GroupIndex(g, item.itemType);
      g[k := (item.itemType, g[k].1 + [item])]
    else g + [(item.itemType, [item])]
  }

  function GroupByType(items: seq<SearchItem>): (r: Groups)
    ensures |r| <= |items|
    ensures r == [] <==> items == []
    ensures r != [] ==> r[0].0 == items[0].itemType
    decreases |items|
  {
    if items == [] then [] else AddToGroups(GroupByType(items[..|items| - 1]), items[|items| - 1])
  }

  /** The items of type `t`, in their order. */
  function OfType(items: seq<SearchItem>, t: string): (r: seq<SearchItem>)
    ensures forall x :: x in r <==> x in items && x.itemType == t
    decreases |items|
  {
    if items == [] then []
    else
      var last := items[|items| - 1];
      assert items == items[..|items| - 1] + [last];
      OfType(items[..|items| - 1], t) + if last.itemType == t then [last] else []
  }

  predicate DistinctKeys(g: Groups)
  {
    forall i, j :: 0 <= i < j < |g| ==> g[i].0 != g[j].0
  }

  /** Some item before position `j` has type `t`. */
  predicate TypeBefore(items: seq<SearchItem>, j: int, t: string)
  {
    exists i :: 0 <= i < j && i < |items| && items[i].itemType == t
  }

  /** The keys are distinct, and they are exactly the items' types. */
  predicate KeysCoverTypes(items: seq<SearchItem>, g: Groups)
  {
    && DistinctKeys(g)
    && (forall i :: 0 <= i < |items| ==> items[i].itemType in GroupKeys(g))
    && (forall k :: 0 <= k < |g| ==> TypeBefore(items, |items|, g[k].0))
  }

  /** Each group holds exactly the items of its type, in their order. */
  predicate GroupsByType(items: seq<SearchItem>, g: Groups)
  {
    forall k :: 0 <= k < |g| ==> g[k].1 == OfType(items, g[k].0)
  }

  /** Groups follow the first appearance of their type: before any item of a
      later group there is an item of every earlier one. */
  predicate GroupsInFirstAppearanceOrder(items: seq<SearchItem>, g: Groups)
  {
    forall k1, k2, j :: 0 <= k1 < k2 < |g| && 0 <= j < |items| && items[j].itemType == g[k2].0 ==>
      TypeBefore(items, j, g[k1].0)
  }

  /** One step of the reduce keeps the earlier keys in place and appends the
      item's type when it is new. */
  lemma AddToGroupsShape(g: Groups, x: SearchItem)
    ensures var g' := AddToGroups(g, x);
      && (x.itemType in GroupKeys(g) ==> |g'| == |g|)
      && (x.itemType !in GroupKeys(g) ==> |g'| == |g| + 1 && g'[|g|] == (x.itemType, [x]))
      && (forall k :: 0 <= k < |g| ==> g'[k].0 == g[k].0)
      && x.itemType in GroupKeys(g')
  {
    if x.itemType in GroupKeys(g) {
      var k := GroupIndex(g, x.itemType);
      assert GroupKeys(AddToGroups(g, x))[k] == x.itemType;
    } else {
      assert GroupKeys(AddToGroups(g, x))[|g|] == x.itemType;
    }
  }

  /** What precedes a position in a sequence still precedes it once an item
      is appended. */
  lemma TypeBeforeAppend(pre: seq<SearchItem>, x: SearchItem, j: int, t: string)
    requires TypeBefore(pre, j, t)
    ensures TypeBefore(pre + [x], j, t)
  {
    var i :| 0 <= i < j && i < |pre| && pre[i].itemType == t;
    assert (pre + [x])[i] == pre[i];
  }

  lemma KeysStep(pre: seq<SearchItem>, g: Groups, x: SearchItem)
    requires KeysCoverTypes(pre, g)
    ensures KeysCoverTypes(pre + [x], AddToGroups(g, x))
  {
    var items, g' := pre + [x], AddToGroups(g, x);
    AddToGroupsShape(g, x);
    forall i | 0 <= i < |items|
      ensures items[i].itemType in GroupKeys(g')
    {
      if i < |pre| {
        assert items[i] == pre[i];
        var k :| 0 <= k < |g| && GroupKeys(g)[k] == pre[i].itemType;
        assert GroupKeys(g')[k] == pre[i].itemType;
      }
    }
    forall k | 0 <= k < |g'|
      ensures TypeBefore(items, |items|, g'[k].0)
    {
      if k < |g| {
        TypeBeforeAppend(pre, x, |pre|, g[k].0);
      } else {
        assert items[|pre|].itemType == g'[k].0;
      }
    }
  }

  lemma {:induction false} GroupByTypeKeys(items: seq<SearchItem>)
    ensures KeysCoverTypes(items, GroupByType(items))
    decreases |items|
  {
    if items != [] {
      var n := |items| - 1;
      assert items == items[..n] + [items[n]];
      GroupByTypeKeys(items[..n]);
      KeysStep(items[..n], GroupByType(items[..n]), items[n]);
    }
  }

  lemma {:induction false} OfTypeAbsent(items: seq<SearchItem>, t: string)
    requires forall i :: 0 <= i < |items| ==> items[i].itemType != t
    ensures OfType(items, t) == []
    decreases |items|
  {
    if items != [] {
      OfTypeAbsent(items[..|items| - 1], t);
    }
  }

  lemma ContentsStep(pre: seq<SearchItem>, g: Groups, x: SearchItem)
    requires KeysCoverTypes(pre, g) && GroupsByType(pre, g)
    ensures GroupsByType(pre + [x], AddToGroups(g, x))
  {
    var g' := AddToGroups(g, x);
    forall k | 0 <= k < |g'|
      ensures g'[k].1 == OfType(pre + [x], g'[k].0)
    {
      ContentsStepAt(pre, g, x, k);
    }
  }

  /** `ContentsStep` for the group at `k`. */
  lemma ContentsStepAt(pre: seq<SearchItem>, g: Groups, x: SearchItem, k: nat)
    requires KeysCoverTypes(pre, g) && GroupsByType(pre, g)
    requires k < |AddToGroups(g, x)|
    ensures AddToGroups(g, x)[k].1 == OfType(pre + [x], AddToGroups(g, x)[k].0)
  {
    var items, g', t := pre + [x], AddToGroups(g, x), x.itemType;
    assert items[..|pre|] == pre;
    AddToGroupsShape(g, x);
    if k < |g| && g[k].0 != t {
      assert g'[k] == g[k];
    } else if k < |g| {
      assert g'[k].1 == g[k].1 + [x];
    } else {
      OfTypeAbsent(pre, t);
    }
  }

  lemma {:induction false} GroupByTypeContents(items: seq<SearchItem>)
    ensures GroupsByType(items, GroupByType(items))
    decreases |items|
  {
    if items != [] {
      var n := |items| - 1;
      assert items == items[..n] + [items[n]];
      GroupByTypeContents(items[..n]);
      GroupByTypeKeys(items[..n]);
      ContentsStep(items[..n], GroupByType(items[..n]), items[n]);
    }
  }

  lemma OrderStepAt(pre: seq<SearchItem>, g: Groups, x: SearchItem, k1: nat, k2: nat, j: nat)
    requires KeysCoverTypes(pre, g) && GroupsInFirstAppearanceOrder(pre, g)
    requires k1 < k2 < |AddToGroups(g, x)| && j <= |pre| && (pre + [x])[j].itemType == AddToGroups(g, x)[k2].0
    ensures TypeBefore(pre + [x], j, AddToGroups(g, x)[k1].0)
  {
    var g' := AddToGroups(g, x);
    AddToGroupsShape(g, x);
    if j < |pre| {
      assert (pre + [x])[j] == pre[j];
      assert pre[j].itemType in GroupKeys(g);
      assert k2 < |g|;
      assert TypeBefore(pre, j, g[k1].0);
    }
    TypeBeforeAppend(pre, x, j, g[k1].0);
  }

  lemma OrderStep(pre: seq<SearchItem>, g: Groups, x: SearchItem)
    requires KeysCoverTypes(pre, g) && GroupsInFirstAppearanceOrder(pre, g)
    ensures GroupsInFirstAppearanceOrder(pre + [x], AddToGroups(g, x))
  {
    var items, g' := pre + [x], AddToGroups(g, x);
    forall k1, k2, j | 0 <= k1 < k2 < |g'| && 0 <= j < |items| && items[j].itemType == g'[k2].0
      ensures TypeBefore(items, j, g'[k1].0)
    {
      OrderStepAt(pre, g, x, k1, k2, j);
    }
  }

  lemma {:induction false} GroupByTypeOrder(items: seq<SearchItem>)
    ensures GroupsInFirstAppearanceOrder(items, GroupByType(items))
    decreases |items|
  {
    if items != [] {
      var n := |items| - 1;
      assert items == items[..n] + [items[n]];
      GroupByTypeOrder(items[..n]);
      GroupByTypeKeys(items[..n]);
      OrderStep(items[..n], GroupByType(items[..n]), items[n]);
    }
  }

  /** The items in display order: group after group. */
  function Flatten(g: Groups): seq<SearchItem>
    decreases |g|
  {
    if g == [] then [] else g[0].1 + Flatten(g[1..])
  }

  lemma {:induction false} FlattenAppendItem(g: Groups, k: nat, x: SearchItem)
    requires k < |g|
    ensures multiset(Flatten(g[k := (g[k].0, g[k].1 + [x])])) == multiset(Flatten(g)) + multiset{x}
    decreases |g|
  {
    var h := g[k := (g[k].0, g[k].1 + [x])];
    if k > 0 {
      assert h[1..] == g[1..][k - 1 := (g[k].0, g[k].1 + [x])];
      FlattenAppendItem(g[1..], k - 1, x);
    } else {
      assert h[1..] == g[1..];
    }
  }

  lemma {:induction false} FlattenAppendGroup(g: Groups, grp: (string, seq<SearchItem>))
    ensures Flatten(g + [grp]) == Flatten(g) + grp.1
    decreases |g|
  {
    if g != [] {
      assert (g + [grp])[1..] == g[1..] + [grp];
      FlattenAppendGroup(g[1..], grp);
    }
  }

  /** Every item is displayed exactly once: the display order is a
      permutation of the results. */
  lemma {:induction false} GroupByTypePermutation(items: seq<SearchItem>)
    ensures multiset(Flatten(GroupByType(items))) == multiset(items)
    ensures |Flatten(GroupByType(items))| == |items|
    decreases |items|
  {
    if items != [] {
      var n := |items| - 1;
      var pre, x := items[..n], items[n];
      assert items == pre + [x];
      GroupByTypePermutation(pre);
      var g := GroupByType(pre);
      if x.itemType in GroupKeys(g) {
        FlattenAppendItem(g, GroupIndex(g, x.itemType), x);
      } else {
        FlattenAppendGroup(g, (x.itemType, [x]));
      }
    }
    assert |multiset(Flatten(GroupByType(items)))| == |multiset(items)|;
  }

  // ---------------------------------------------------------------------------
  // Rendered rows

  /** A row of the results list: a group header, or an item link carrying
      its `data-index`, whether it is highlighted, the status its badge shows
      (absent when the item has no status and the badge element is removed;
      the badge's markup is `GetStatusBadge(badge, selected)` as first
      rendered, since the recolouring on highlight is not modelled) and its
      formatted date (absent when the item has none). */
  datatype Row =
    | Header(groupType: string)
    | Link(index: int, href: string, id: string, name: string, selected: bool,
           badge: Option<string>, date: Option<string>)

  function LinkOf(item: SearchItem, index: int, selectedIndex: int, formatDate: string -> string): Row
  {
    var isSelected := index == selectedIndex;
    Link(index, item.url, item.id, item.name, isSelected,
         if item.status.Some? && item.status.value != "" then item.status else None,
         if item.date.Some? && item.date.value != "" then Some(formatDate(item.date.value)) else None)
  }

  /** The links of a group's items, numbered from `start`. */
  function LinksOf(items: seq<SearchItem>, start: int, selectedIndex: int, formatDate: string -> string): (r: seq<Row>)
    ensures |r| == |items|
  {
    seq(|items|, i requires 0 <= i < |items| => LinkOf(items[i], start + i, selectedIndex, formatDate))
  }

  /** Each group: its header, then its items, numbered on from `start`. */
  function RowsOf(g: Groups, start: int, selectedIndex: int, formatDate: string -> string): seq<Row>
    decreases |g|
  {
    if g == [] then []
    else [Header(g[0].0)] + LinksOf(g[0].1, start, selectedIndex, formatDate)
         + RowsOf(g[1..], start + |g[0].1|, selectedIndex, formatDate)
  }

  /** The rows from the `k`-th group on: its header, its links, then the
      rows of the groups after it. */
  lemma RowsOfAt(g: Groups, k: nat, start: int, selectedIndex: int, formatDate: string -> string)
    requires k < |g|
    ensures RowsOf(g[k..], start, selectedIndex, formatDate)
            == [Header(g[k].0)] + LinksOf(g[k].1, start, selectedIndex, formatDate)
               + RowsOf(g[k + 1..], start + |g[k].1|, selectedIndex, formatDate)
  {
    assert g[k..][1..] == g[k + 1..];
  }

  /** One step of the loop over the groups: the rows written so far, then
      the `k`-th group's header and links, then the later groups' rows. */
  lemma RowsStep(g: Groups, k: nat, start: int, selectedIndex: int, formatDate: string -> string,
                 rows: seq<Row>)
    requires k < |g|
    requires rows + RowsOf(g[k..], start, selectedIndex, formatDate) == RowsOf(g, 0, selectedIndex, formatDate)
    ensures rows + [Header(g[k].0)] + LinksOf(g[k].1, start, selectedIndex, formatDate)
            + RowsOf(g[k + 1..], start + |g[k].1|, selectedIndex, formatDate)
            == RowsOf(g, 0, selectedIndex, formatDate)
  {
    RowsOfAt(g, k, start, selectedIndex, formatDate);
  }

  /** What `renderSearchResults` puts in the results list. */
  function RenderedRows(items: seq<SearchItem>, selectedIndex: int, formatDate: string -> string): (r: seq<Row>)
    ensures r == [] <==> items == []
    ensures r != [] ==> r[0] == Header(items[0].itemType)
  {
    RowsOf(GroupByType(items), 0, selectedIndex, formatDate)
  }

  /** The link rows, in order. */
  function LinkRows(rows: seq<Row>): (r: seq<Row>)
    ensures forall i :: 0 <= i < |r| ==> r[i].Link?
    decreases |rows|
  {
    if rows == [] then [] else (if rows[0].Link? then [rows[0]] else []) + LinkRows(rows[1..])
  }

  lemma {:induction false} LinkRowsAppend(a: seq<Row>, b: seq<Row>)
    ensures LinkRows(a + b) == LinkRows(a) + LinkRows(b)
    decreases |a|
  {
    if a != [] {
      var head := if a[0].Link? then [a[0]] else [];
      assert (a + b)[1..] == a[1..] + b;
      assert (a + b)[0] == a[0];
      LinkRowsAppend(a[1..], b);
      calc {
        LinkRows(a + b);
        head + LinkRows(a[1..] + b);
        head + (LinkRows(a[1..]) + LinkRows(b));
        (head + LinkRows(a[1..])) + LinkRows(b);
      }
    } else {
      assert a + b == b;
    }
  }

  lemma {:induction false} LinkRowsOfLinks(items: seq<SearchItem>, start: int, sel: int, fmt: string -> string)
    ensures LinkRows(LinksOf(items, start, sel, fmt)) == LinksOf(items, start, sel, fmt)
    decreases |items|
  {
    var l := LinksOf(items, start, sel, fmt);
    if items != [] {
      assert l[1..] == LinksOf(items[1..], start + 1, sel, fmt);
      LinkRowsOfLinks(items[1..], start + 1, sel, fmt);
    }
  }

  lemma LinksOfAppend(a: seq<SearchItem>, b: seq<SearchItem>, start: int, sel: int, fmt: string -> string)
    ensures LinksOf(a + b, start, sel, fmt) == LinksOf(a, start, sel, fmt) + LinksOf(b, start + |a|, sel, fmt)
  {
    var l, r := LinksOf(a + b, start, sel, fmt), LinksOf(a, start, sel, fmt) + LinksOf(b, start + |a|, sel, fmt);
    forall i | 0 <= i < |l|
      ensures l[i] == r[i]
    {
      if i >= |a| {
        assert (a + b)[i] == b[i - |a|];
      }
    }
  }

  /** The links of the rendered groups are the links of the items in display
      order, numbered consecutively. */
  lemma {:induction false} LinkRowsOfRows(g: Groups, start: int, sel: int, fmt: string -> string)
    ensures LinkRows(RowsOf(g, start, sel, fmt)) == LinksOf(Flatten(g), start, sel, fmt)
    decreases |g|
  {
    if g != [] {
      var h, links := [Header(g[0].0)], LinksOf(g[0].1, start, sel, fmt);
      var rest := RowsOf(g[1..], start + |g[0].1|, sel, fmt);
      assert LinkRows(RowsOf(g, start, sel, fmt)) == LinkRows(h) + LinkRows(links) + LinkRows(rest) by {
        assert RowsOf(g, start, sel, fmt) == h + links + rest;
        LinkRowsAppend(h + links, rest);
        LinkRowsAppend(h, links);
      }
      assert LinkRows(h) == [];
      assert LinkRows(links) == links by {
        LinkRowsOfLinks(g[0].1, start, sel, fmt);
      }
      assert LinkRows(rest) == LinksOf(Flatten(g[1..]), start + |g[0].1|, sel, fmt) by {
        LinkRowsOfRows(g[1..], start + |g[0].1|, sel, fmt);
      }
      LinksOfAppend(g[0].1, Flatten(g[1..]), start, sel, fmt);
    }
  }

  /** The rendered list has one link per result; their `data-index` values
      run 0, 1, 2, … in list order; the link with index `i` shows the `i`-th
      item in display order, and only the link whose index is the selected
      index is highlighted. */
  lemma RenderedLinks(items: seq<SearchItem>, sel: int, fmt: string -> string)
    ensures var links, shown := LinkRows(RenderedRows(items, sel, fmt)), Flatten(GroupByType(items));
      && |links| == |items| == |shown|
      && forall i :: 0 <= i < |links| ==>
           && links[i].index == i
           && links[i].href == shown[i].url && links[i].id == shown[i].id
           && (links[i].selected <==> i == sel)
  {
    var links, shown := LinkRows(RenderedRows(items, sel, fmt)), Flatten(GroupByType(items));
    assert links == LinksOf(shown, 0, sel, fmt) by {
      LinkRowsOfRows(GroupByType(items), 0, sel, fmt);
    }
    assert |shown| == |items| by {
      GroupByTypePermutation(items);
    }
    forall i | 0 <= i < |links|
      ensures links[i] == LinkOf(shown[i], i, sel, fmt)
    {
    }
  }

  // ---------------------------------------------------------------------------
  // Enter and the highlighted row

  /** The item Enter opens, as written: `filteredItems[selectedIndex]`. */
  function EnterTarget(items: seq<SearchItem>, selectedIndex: int): (r: Option<SearchItem>)
    ensures r.Some? <==> 0 <= selectedIndex < |items|
  {
    if 0 <= selectedIndex < |items| then Some(items[selectedIndex]) else None
  }

  /** The item of the highlighted row: the one at `selectedIndex` in display
      order. */
  function HighlightedItem(items: seq<SearchItem>, selectedIndex: int): (r: Option<SearchItem>)
    ensures r.Some? <==> 0 <= selectedIndex < |items|
  {
    GroupByTypePermutation(items);
    var shown := Flatten(GroupByType(items));
    if 0 <= selectedIndex < |shown| then Some(shown[selectedIndex]) else None
  }

  /** The highlighted item is the one whose row carries the selected
      `data-index` and the highlight, and whose link it is. */
  lemma HighlightedItemIsShown(items: seq<SearchItem>, sel: int, fmt: string -> string)
    ensures |LinkRows(RenderedRows(items, sel, fmt))| == |items|
    ensures HighlightedItem(items, sel).Some? ==>
      var links := LinkRows(RenderedRows(items, sel, fmt));
      && links[sel].index == sel && links[sel].selected
      && links[sel].href == HighlightedItem(items, sel).value.url
  {
    RenderedLinks(items, sel, fmt);
  }

  /** A waypoint, a book, and a second waypoint: the list shows the two
      waypoints first, so after two ArrowDowns the second waypoint is
      highlighted, but Enter opens the book. */
  lemma EnterOpensAnotherItem()
    ensures var a := SearchItem("a", "A", "waypoints", "/waypoints/a", None, None);
      var b := SearchItem("b", "B", "books", "/books/b", None, None);
      var c := SearchItem("c", "C", "waypoints", "/waypoints/c", None, None);
      && HighlightedItem([a, b, c], 1) == Some(c)
      && EnterTarget([a, b, c], 1) == Some(b)
  {
    var a := SearchItem("a", "A", "waypoints", "/waypoints/a", None, None);
    var b := SearchItem("b", "B", "books", "/books/b", None, None);
    var c := SearchItem("c", "C", "waypoints", "/waypoints/c", None, None);
    var w, bk: string := "waypoints", "books";
    assert w[0] != bk[0];
    assert [a, b, c][..2] == [a, b] && [a, b][..1] == [a] && [a][..0] == [];
    assert GroupByType([a]) == [(w, [a])];
    assert GroupKeys([(w, [a])]) == [w];
    assert GroupByType([a, b]) == [(w, [a]), (bk, [b])];
    var g2: Groups := [(w, [a]), (bk, [b])];
    assert GroupKeys(g2) == [w, bk];
    assert GroupIndex(g2, w) == 0;
    var g3: Groups := [(w, [a, c]), (bk, [b])];
    assert GroupByType([a, b, c]) == AddToGroups(g2, c);
    assert [a] + [c] == [a, c];
    assert AddToGroups(g2, c) == g2[0 := (w, [a] + [c])] == g3;
    assert g3[1..] == [(bk, [b])];
    assert Flatten(g3) == [a, c] + Flatten([(bk, [b])]);
    assert Flatten([(bk, [b])]) == [b];
  }

  // ---------------------------------------------------------------------------
  // The controller

  /** What the results list holds: the hint for short queries, the loading
      line, or rendered rows. */
  datatype ResultsContent = Hint | LoadingText | Rows(rows: seq<Row>)

  const MinQueryLength: nat := 3

  /** A row after `highlightSelected`: a link is highlighted iff its
      `data-index` is the selected index. */
  function Reselect(row: Row, selectedIndex: int): (r: Row)
    ensures r.Link? <==> row.Link?
    ensures r.Link? ==> r == row.(selected := row.index == selectedIndex)
    ensures r.Header? ==> r == row
  {
    if row.Link? then row.(selected := row.index == selectedIndex) else row
  }

  /** `highlightSelected` on the results list; the hint and loading line
      hold no rows. */
  function Highlighted(c: ResultsContent, selectedIndex: int): (r: ResultsContent)
    ensures !c.Rows? ==> r == c
    ensures c.Rows? ==> r.Rows? && |r.rows| == |c.rows|
    ensures c.Rows? ==> forall i :: 0 <= i < |c.rows| ==>
      if c.rows[i].Link? then r.rows[i] == c.rows[i].(selected := c.rows[i].index == selectedIndex)
      else r.rows[i] == c.rows[i]
  {
    if c.Rows? then Rows(seq(|c.rows|, i requires 0 <= i < |c.rows| => Reselect(c.rows[i], selectedIndex)))
    else c
  }

  class CommandPaletteController {
    var selectedIndex: int
    var filteredItems: seq<SearchItem>
    var isLoading: bool
    /** The query of the debounced search waiting to run (`searchTimeout`). */
    var pendingSearch: Option<string>
    var paletteHidden: bool
    /** The search box's text. */
    var searchValue: string
    var results: ResultsContent
    var resultsHidden: bool
    var noResultsHidden: bool

    /** No selection is -1; every handler keeps the index at -1 or above. */
    ghost predicate Valid()
      reads this
    {
      selectedIndex >= -1
    }

    constructor()
      ensures Valid() && selectedIndex == -1 && filteredItems == [] && !isLoading
      ensures pendingSearch == None && paletteHidden && searchValue == ""
      ensures results == Rows([]) && resultsHidden && noResultsHidden
    {
      selectedIndex := -1;
      filteredItems := [];
      isLoading := false;
      pendingSearch := None;
      paletteHidden := true;
      searchValue := "";
      results := Rows([]);
      resultsHidden := true;
      noResultsHidden := true;
    }

    /** `open()`: shows the palette. */
    method Open()
      modifies this
      ensures !paletteHidden
      ensures selectedIndex == old(selectedIndex) && filteredItems == old(filteredItems)
      ensures isLoading == old(isLoading) && pendingSearch == old(pendingSearch)
      ensures searchValue == old(searchValue) && results == old(results)
      ensures resultsHidden == old(resultsHidden) && noResultsHidden == old(noResultsHidden)
    {
      paletteHidden := false;
    }

    /** `updateResults(query)`: an empty query clears the results; a query
        shorter than three characters shows the hint; a longer one shows
        the loading line and (re)starts the debounced search. */
    method UpdateResults(query: string)
      modifies this
      ensures query == "" ==>
        && filteredItems == [] && resultsHidden && noResultsHidden
        && results == old(results) && pendingSearch == old(pendingSearch)
      ensures 0 < Utf16Length(query) < MinQueryLength ==>
        && results == Hint && !resultsHidden && noResultsHidden
        && filteredItems == old(filteredItems) && pendingSearch == old(pendingSearch)
      ensures Utf16Length(query) >= MinQueryLength ==>
        && results == LoadingText && !resultsHidden && noResultsHidden
        && filteredItems == old(filteredItems) && pendingSearch == Some(query)
      ensures selectedIndex == old(selectedIndex) && isLoading == old(isLoading)
      ensures paletteHidden == old(paletteHidden) && searchValue == old(searchValue)
    {
      if query == "" {
        filteredItems := [];
        resultsHidden := true;
        noResultsHidden := true;
        return;
      }
      if Utf16Length(query) < MinQueryLength {
        results := Hint;
        resultsHidden := false;
        noResultsHidden := true;
        return;
      }
      results := LoadingText;
      resultsHidden := false;
      noResultsHidden := true;
      pendingSearch := Some(query);
    }

    /** `close()`, with its delayed part run at once: hides the palette,
        empties the search box and clears the results. */
    method Close()
      modifies this
      ensures paletteHidden && searchValue == ""
      ensures filteredItems == [] && resultsHidden && noResultsHidden
      ensures selectedIndex == old(selectedIndex) && isLoading == old(isLoading)
      ensures pendingSearch == old(pendingSearch) && results == old(results)
    {
      paletteHidden := true;
      searchValue := "";
      UpdateResults("");
    }

    /** The debounced search firing: `outcome` is what the search action
        gives for the pending query, `None` when it fails. No results show
        the "no results" panel; otherwise the rows are rendered. */
    method FireSearch(outcome: Option<seq<SearchItem>>, formatDate: string -> string)
      requires pendingSearch.Some?
      modifies this
      ensures pendingSearch == None && !isLoading
      ensures filteredItems == if outcome.Some? then outcome.value else []
      ensures filteredItems == [] ==> resultsHidden && !noResultsHidden && results == old(results)
      ensures filteredItems != [] ==>
        && !resultsHidden && noResultsHidden
        && results == Rows(RenderedRows(filteredItems, selectedIndex, formatDate))
      ensures selectedIndex == old(selectedIndex) && paletteHidden == old(paletteHidden)
      ensures searchValue == old(searchValue)
    {
      pendingSearch := None;
      isLoading := true;
      filteredItems := if outcome.Some? then outcome.value else [];
      isLoading := false;
      if filteredItems == [] {
        resultsHidden := true;
        noResultsHidden := false;
        return;
      }
      resultsHidden := false;
      noResultsHidden := true;
      RenderSearchResults(formatDate);
    }

    /** `renderSearchResults()`: groups the results by type, then writes a
        header per group followed by its items, numbering them from 0. */
    method RenderSearchResults(formatDate: string -> string)
      modifies this
      ensures results == Rows(RenderedRows(filteredItems, selectedIndex, formatDate))
      ensures selectedIndex == old(selectedIndex) && filteredItems == old(filteredItems)
      ensures isLoading == old(isLoading) && pendingSearch == old(pendingSearch)
      ensures paletteHidden == old(paletteHidden) && searchValue == old(searchValue)
      ensures resultsHidden == old(resultsHidden) && noResultsHidden == old(noResultsHidden)
    {
      var items := filteredItems;
      var groups: Groups := [];
      var i := 0;
      while i < |items|
        invariant 0 <= i <= |items|
        invariant groups == GroupByType(items[..i])
      {
        assert items[..i + 1][..i] == items[..i];
        groups := AddToGroups(groups, items[i]);
        i := i + 1;
      }
      assert items[..|items|] == items;
      var rows := RenderGroups(groups, selectedIndex, formatDate);
      results := Rows(rows);
    }

    /** The `forEach` over the groups, with its running `currentIndex`. */
    static method RenderGroups(groups: Groups, selectedIndex: int, formatDate: string -> string)
      returns (rows: seq<Row>)
      ensures rows == RowsOf(groups, 0, selectedIndex, formatDate)
    {
      rows := [];
      var currentIndex := 0;
      var k := 0;
      while k < |groups|
        invariant 0 <= k <= |groups|
        invariant rows + RowsOf(groups[k..], currentIndex, selectedIndex, formatDate)
                  == RowsOf(groups, 0, selectedIndex, formatDate)
      {
        var links := RenderItems(groups[k].1, currentIndex, selectedIndex, formatDate);
        RowsStep(groups, k, currentIndex, selectedIndex, formatDate, rows);
        rows := rows + [Header(groups[k].0)] + links;
        currentIndex := currentIndex + |groups[k].1|;
        k := k + 1;
      }
    }

    /** The `for` loop over one group's items. */
    static method RenderItems(members: seq<SearchItem>, start: int, selectedIndex: int,
                              formatDate: string -> string)
      returns (links: seq<Row>)
      ensures links == LinksOf(members, start, selectedIndex, formatDate)
    {
      links := [];
      var currentIndex := start;
      var j := 0;
      while j < |members|
        invariant 0 <= j <= |members|
        invariant currentIndex == start + j
        invariant links == LinksOf(members[..j], start, selectedIndex, formatDate)
      {
        assert LinksOf(members[..j + 1], start, selectedIndex, formatDate)
               == LinksOf(members[..j], start, selectedIndex, formatDate)
                  + [LinkOf(members[j], currentIndex, selectedIndex, formatDate)];
        links := links + [LinkOf(members[j], currentIndex, selectedIndex, formatDate)];
        currentIndex := currentIndex + 1;
        j := j + 1;
      }
      assert members[..|members|] == members;
    }

    /** `highlightSelected()`: marks the link whose `data-index` is the
        selected index, and only it. */
    method HighlightSelected()
      modifies this
      ensures results == Highlighted(old(results), selectedIndex)
      ensures results.Rows? ==>
        forall i :: 0 <= i < |results.rows| && results.rows[i].Link? ==>
          (results.rows[i].selected <==> results.rows[i].index == selectedIndex)
      ensures selectedIndex == old(selectedIndex) && filteredItems == old(filteredItems)
      ensures isLoading == old(isLoading) && pendingSearch == old(pendingSearch)
      ensures paletteHidden == old(paletteHidden) && searchValue == old(searchValue)
      ensures resultsHidden == old(resultsHidden) && noResultsHidden == old(noResultsHidden)
    {
      if results.Rows? {
        var rows := results.rows;
        var updated: seq<Row> := [];
        var i := 0;
        while i < |rows|
          invariant 0 <= i <= |rows|
          invariant |updated| == i
          invariant forall k :: 0 <= k < i ==> updated[k] == Reselect(rows[k], selectedIndex)
        {
          updated := updated + [Reselect(rows[i], selectedIndex)];
          i := i + 1;
        }
        results := Rows(updated);
      }
    }

    /** The mouse entering the row with `data-index` `index`. */
    method HandleMouseEnter(index: nat)
      modifies this
      ensures selectedIndex == index
      ensures results == Highlighted(old(results), index)
      ensures filteredItems == old(filteredItems)
      ensures isLoading == old(isLoading) && pendingSearch == old(pendingSearch)
      ensures paletteHidden == old(paletteHidden) && searchValue == old(searchValue)
      ensures resultsHidden == old(resultsHidden) && noResultsHidden == old(noResultsHidden)
    {
      selectedIndex := index;
      HighlightSelected();
    }

    /** `handleSearchInput`: any input clears the selection, then updates
        the results. */
    method HandleSearchInput(query: string)
      modifies this
      ensures selectedIndex == -1 && searchValue == query
      ensures query == "" ==>
        && filteredItems == [] && resultsHidden && noResultsHidden
        && results == old(results) && pendingSearch == old(pendingSearch)
      ensures 0 < Utf16Length(query) < MinQueryLength ==>
        && results == Hint && !resultsHidden && noResultsHidden
        && filteredItems == old(filteredItems) && pendingSearch == old(pendingSearch)
      ensures Utf16Length(query) >= MinQueryLength ==>
        && results == LoadingText && !resultsHidden && noResultsHidden
        && filteredItems == old(filteredItems) && pendingSearch == Some(query)
      ensures paletteHidden == old(paletteHidden) && isLoading == old(isLoading)
    {
      selectedIndex := -1;
      searchValue := query;
      UpdateResults(query);
    }

    /** `handleSearchKeydown`: the arrows move the selection, Enter opens
        the highlighted item (its URL is returned) and Escape closes. The
        source indexes `filteredItems` in fetch order on Enter, which is not
        the display order (see `EnterTarget`); this opens the item of the
        highlighted row. */
    method HandleSearchKeydown(key: string) returns (navigateTo: Option<string>)
      requires Valid()
      modifies this
      ensures Valid()
      ensures key == "ArrowDown" ==>
        && (|filteredItems| > 0 ==>
              selectedIndex == Min(old(selectedIndex) + 1, |filteredItems| - 1) && 0 <= selectedIndex < |filteredItems|)
        && (|filteredItems| == 0 ==> selectedIndex == -1)
        && results == Highlighted(old(results), selectedIndex)
      ensures key == "ArrowUp" ==>
        && selectedIndex == Max(old(selectedIndex) - 1, 0)
        && results == Highlighted(old(results), selectedIndex)
      ensures key == "Enter" ==>
        && navigateTo == (var t := HighlightedItem(old(filteredItems), old(selectedIndex));
                          if t.Some? then Some(t.value.url) else None)
        && (navigateTo.Some? ==> paletteHidden && filteredItems == [])
        && (navigateTo.None? ==> paletteHidden == old(paletteHidden) && filteredItems == old(filteredItems))
      ensures key != "Enter" ==> navigateTo == None
      ensures key == "Escape" || (key == "Enter" && navigateTo.Some?) ==>
        && paletteHidden && searchValue == "" && filteredItems == []
        && resultsHidden && noResultsHidden
      ensures !(key == "Escape" || (key == "Enter" && navigateTo.Some?)) ==>
        && paletteHidden == old(paletteHidden) && searchValue == old(searchValue)
        && filteredItems == old(filteredItems)
        && resultsHidden == old(resultsHidden) && noResultsHidden == old(noResultsHidden)
      ensures key !in {"ArrowDown", "ArrowUp"} ==> selectedIndex == old(selectedIndex) && results == old(results)
      ensures pendingSearch == old(pendingSearch) && isLoading == old(isLoading)
    {
      navigateTo := None;
      if key == "Escape" {
        Close();
      } else if key == "ArrowDown" {
        selectedIndex := Min(selectedIndex + 1, |filteredItems| - 1);
        if selectedIndex == -1 && |filteredItems| > 0 {
          selectedIndex := 0;
        }
        HighlightSelected();
      } else if key == "ArrowUp" {
        selectedIndex := Max(selectedIndex - 1, 0);
        HighlightSelected();
      } else if key == "Enter" {
        var item := HighlightedItem(filteredItems, selectedIndex);
        if item.Some? {
          navigateTo := Some(item.value.url);
          Close();
        }
      }
    }

    /** `handleGlobalKeydown`: Cmd-K or Ctrl-K toggles the palette. */
    method HandleGlobalKeydown(key: string, metaKey: bool, ctrlKey: bool)
      modifies this
      ensures (metaKey || ctrlKey) && key == "k" ==> paletteHidden == !old(paletteHidden)
      ensures !((metaKey || ctrlKey) && key == "k") ==> paletteHidden == old(paletteHidden)
      ensures (metaKey || ctrlKey) && key == "k" && !old(paletteHidden) ==>
        searchValue == "" && filteredItems == [] && resultsHidden && noResultsHidden
      ensures !((metaKey || ctrlKey) && key == "k" && !old(paletteHidden)) ==>
        && filteredItems == old(filteredItems) && searchValue == old(searchValue)
        && resultsHidden == old(resultsHidden) && noResultsHidden == old(noResultsHidden)
      ensures selectedIndex == old(selectedIndex) && pendingSearch == old(pendingSearch)
      ensures results == old(results) && isLoading == old(isLoading)
    {
      if (metaKey || ctrlKey) && key == "k" {
        if paletteHidden {
          Open();
        } else {
          Close();
        }
      }
    }

    /** `handleDocumentClick`: a click outside the dialog, on an element
        still in the document, closes an open palette. */
    method HandleDocumentClick(insideDialog: bool, inDocument: bool)
      modifies this
      ensures !old(paletteHidden) && !insideDialog && inDocument ==>
        paletteHidden && filteredItems == [] && searchValue == "" && resultsHidden && noResultsHidden
      ensures !(!old(paletteHidden) && !insideDialog && inDocument) ==>
        && paletteHidden == old(paletteHidden) && filteredItems == old(filteredItems)
        && searchValue == old(searchValue)
        && resultsHidden == old(resultsHidden) && noResultsHidden == old(noResultsHidden)
      ensures selectedIndex == old(selectedIndex) && pendingSearch == old(pendingSearch)
      ensures results == old(results) && isLoading == old(isLoading)
    {
      if !paletteHidden && !insideDialog && inDocument {
        Close();
      }
    }
  }

  function Min(a: int, b: int): int { if a < b then a else b }

  function Max(a: int, b: int): int { if a > b then a else b }
}
