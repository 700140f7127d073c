/** The content grid controller: per-category filter checkboxes, the search
    they trigger, and the bento layout of the cards the search returns. */
module ContentGrid {
  import opened Common
  import opened Text
  import opened Seqs

  // ---------------------------------------------------------------------------
  // Bento layout

  /** The layout rules of the doc comment, stated declaratively for card
      number `n` (1-based): a card is wide when it is the first, every third
      or every eleventh; it is tall when it is the first, every eighth or
      every eleventh. */
  function BentoSpans(n: nat): (spans: (nat, nat))
  {
    (if n == 1 || n % 3 == 0 || n % 11 == 0 then 2 else 1,
     if n == 1 || n % 8 == 0 || n % 11 == 0 then 2 else 1)
  }

  /** `calculateCardDimensions(index)`: both spans start at 1 and each rule
      that applies to the position overrides them in turn. */
  method CalculateCardDimensions(index: nat) returns (colSpan: nat, rowSpan: nat)
    ensures colSpan in {1, 2} && rowSpan in {1, 2}
    ensures index == 0 || (index + 1) % 11 == 0 ==> colSpan == 2 && rowSpan == 2
    ensures index != 0 && (index + 1) % 11 != 0 ==>
      (colSpan == 2 <==> (index + 1) % 3 == 0) && (rowSpan == 2 <==> (index + 1) % 8 == 0)
    ensures (colSpan, rowSpan) == BentoSpans(index + 1)
  {
    var n := index + 1;
    colSpan := 1;
    rowSpan := 1;
    if n == 1 {
      colSpan := 2;
      rowSpan := 2;
    }
    if n % 3 == 0 {
      colSpan := 2;
    }
    if n % 8 == 0 {
      rowSpan := 2;
    }
    if n % 11 == 0 {
      colSpan := 2;
      rowSpan := 2;
    }
  }

  /** The 24th card, a multiple of both 3 and 8, is a 2x2 block; the 12th is
      only wide and the 16th only tall. */
  lemma BentoExamples()
    ensures BentoSpans(24) == (2, 2) && BentoSpans(12) == (2, 1) && BentoSpans(16) == (1, 2)
    ensures BentoSpans(2) == (1, 1) && BentoSpans(22) == (2, 2)
  {
  }

  /** The value of the `data-content-card-dimension-value` attribute. */
  function DimensionText(spans: (nat, nat)): string
  {
    NatToString(spans.0) + "x" + NatToString(spans.1)
  }

  // ---------------------------------------------------------------------------
  // Filters

  /** A checkbox: its `data-filter-category` and `data-filter-type`
      attributes, `None` when absent, and its `checked` state. */
  datatype Checkbox = Checkbox(category: Option<string>, filterType: Option<string>, checked: bool)

  /** A dataset attribute that is present and not empty, hence truthy. */
  predicate Present(attr: Option<string>)
  {
    attr.Some? && attr.value != ""
  }

  /** `list.filter((f) => f !== x)`. */
  function Without(list: seq<string>, x: string): (r: seq<string>)
    ensures x !in r
    ensures forall y :: y in r <==> y in list && y != x
    ensures IsSubsequence(r, list)
  {
    Filter(list, y => y != x)
  }

  /** `this.filtersValue[category] || ["all"]`: any array is truthy, so the
      default applies only to a missing category. */
  function CurrentFilters(filters: map<string, seq<string>>, category: string): seq<string>
  {
    if category in filters then filters[category] else ["all"]
  }

  /** No category holds an empty list of filters. */
  predicate NoEmptyCategory(filters: map<string, seq<string>>)
  {
    forall c :: c in filters ==> filters[c] != []
  }

  /** The list of a category after a specific filter is checked or unchecked. */
  function SpecificFilterList(current: seq<string>, filterType: string, isChecked: bool): (r: seq<string>)
    requires filterType != "all"
    ensures r != []
    ensures isChecked ==> "all" !in r && filterType in r && r[|r| - 1] == filterType
    ensures isChecked ==> forall f :: f in current && f != "all" ==> f in r
    ensures isChecked ==> forall f :: f in r ==> (f in current && f != "all") || f == filterType
    ensures isChecked ==> IsSubsequence(r[..|r| - 1], current)
    ensures !isChecked ==> filterType !in r
    ensures !isChecked ==> forall f :: f in current && f != filterType ==> f in r
    ensures !isChecked ==> forall f :: f in r ==> f in current || f == "all"
    ensures !isChecked && (forall f :: f in current ==> f == filterType) ==> r == ["all"]
    ensures !isChecked ==> IsSubsequence(r, current) || r == ["all"]
  {
    if isChecked then
      var kept := Without(current, "all");
      assert (kept + [filterType])[..|kept|] == kept;
      kept + [filterType]
    else
      var rest := Without(current, filterType);
      if |rest| > 0 then rest else ["all"]
  }

  /** Index of the first checkbox of `category`, as `find` picks it, or -1. */
  function FirstOfCategory(boxes: seq<Checkbox>, category: string): (k: int)
    ensures -1 <= k < |boxes|
    ensures k >= 0 ==> boxes[k].category == Some(category)
    ensures forall i :: 0 <= i < |boxes| && (k < 0 || i < k) ==> boxes[i].category != Some(category)
    decreases |boxes|
  {
    if boxes == [] then -1
    else if boxes[0].category == Some(category) then 0
    else
      var k := FirstOfCategory(boxes[1..], category);
      if k < 0 then -1 else k + 1
  }

  /** `find` depends only on the categories, not on the checked states. */
  lemma {:induction false} FirstOfCategorySame(a: seq<Checkbox>, b: seq<Checkbox>, category: string)
    requires |a| == |b| && forall i :: 0 <= i < |a| ==> a[i].category == b[i].category
    ensures FirstOfCategory(a, category) == FirstOfCategory(b, category)
    decreases |a|
  {
    if a != [] {
      FirstOfCategorySame(a[1..], b[1..], category);
    }
  }

  /** A filter checkbox of a category that `updateCheckboxStates` reaches. */
  predicate Governed(b: Checkbox, categories: set<string>)
  {
    b.category.Some? && b.category.value in categories && b.filterType != Some("all") && Present(b.filterType)
  }

  /** The state `updateCheckboxStates` gives a filter checkbox, once the
      categories in `done` (all of them keys of `filters`) have been visited:
      checked exactly when its category does not select "all" and selects
      its type. */
  function SyncedBox(b: Checkbox, filters: map<string, seq<string>>, done: set<string>): Checkbox
    requires done <= filters.Keys
  {
    if Governed(b, done) then
      var selected := filters[b.category.value];
      b.(checked := "all" !in selected && b.filterType.value in selected)
    else b
  }

  /** The state it gives the "all" checkbox at `i`: the first one of each
      visited category is checked exactly when the category selects "all". */
  function SyncedAll(boxes: seq<Checkbox>, i: nat, filters: map<string, seq<string>>, done: set<string>): Checkbox
    requires i < |boxes| && done <= filters.Keys
  {
    var b := boxes[i];
    if b.category.Some? && b.category.value in done && FirstOfCategory(boxes, b.category.value) == i
    then b.(checked := "all" in filters[b.category.value])
    else b
  }

  /** The filter checkboxes after `uncheckOtherCheckboxes(category)`. */
  function UncheckOthers(boxes: seq<Checkbox>, category: string): (r: seq<Checkbox>)
    ensures |r| == |boxes|
  {
    seq(|boxes|, i requires 0 <= i < |boxes| =>
      if boxes[i].category == Some(category) && boxes[i].filterType != Some("all")
      then boxes[i].(checked := false) else boxes[i])
  }

  /** The event target of a checkbox change: the `i`-th "all" checkbox or
      the `i`-th filter checkbox. */
  datatype Target = AllBox(i: nat) | FilterBox(i: nat)

  /** The filter checkboxes once the change handler for box `b` (the box of
      target `t`, with a type and a category) has run, before they are
      synchronised: checking an "all" box unchecks the category's others,
      unchecking one checks it again, and a specific filter leaves them. */
  function HandledBoxes(boxes: seq<Checkbox>, t: Target, b: Checkbox): seq<Checkbox>
    requires Present(b.filterType) && Present(b.category)
  {
    if b.filterType.value != "all" then boxes
    else if b.checked then UncheckOthers(boxes, b.category.value)
    else match t
      case FilterBox(i) => if i < |boxes| then boxes[i := boxes[i].(checked := true)] else boxes
      case AllBox(_) => boxes
  }

  /** The "all" checkboxes at the same point: an unchecked "all" box is
      checked again; a specific filter unchecks the category's first "all"
      box when checked, and checks it when unchecking leaves nothing. */
  function HandledAllBoxes(allBoxes: seq<Checkbox>, t: Target, b: Checkbox,
                           filters: map<string, seq<string>>): seq<Checkbox>
    requires Present(b.filterType) && Present(b.category)
  {
    var category := b.category.value;
    if b.filterType.value == "all" then
      if b.checked then allBoxes
      else match t
        case AllBox(i) => if i < |allBoxes| then allBoxes[i := allBoxes[i].(checked := true)] else allBoxes
        case FilterBox(_) => allBoxes
    else
      var k := FirstOfCategory(allBoxes, category);
      if k >= 0 && b.checked then allBoxes[k := allBoxes[k].(checked := false)]
      else if k >= 0 && Without(CurrentFilters(filters, category), b.filterType.value) == []
      then allBoxes[k := allBoxes[k].(checked := true)]
      else allBoxes
  }

  // ---------------------------------------------------------------------------
  // Search

  /** The search parameters the page passes in. */
  datatype SearchParams = SearchParams(
    name: Option<string>,
    collections: Option<seq<string>>,
    status: Option<seq<string>>,
    topics: Option<seq<string>>,
    relatedTo: Option<string>)

  /** `filtersValue[key]` when present and not containing "all". */
  function Selected(filters: map<string, seq<string>>, key: string): Option<seq<string>>
  {
    if key in filters && "all" !in filters[key] then Some(filters[key]) else None
  }

  /** The parameters `performSearch` sends: the page's own, with status,
      topics and collections replaced by the checked filters of those
      categories that do not select "all". */
  function MergeParams(p: SearchParams, filters: map<string, seq<string>>): (q: SearchParams)
    ensures q.name == p.name && q.relatedTo == p.relatedTo
    ensures "status" in filters && "all" !in filters["status"] ==> q.status == Some(filters["status"])
    ensures !("status" in filters && "all" !in filters["status"]) ==> q.status == p.status
    ensures "topics" in filters && "all" !in filters["topics"] ==> q.topics == Some(filters["topics"])
    ensures !("topics" in filters && "all" !in filters["topics"]) ==> q.topics == p.topics
    ensures "collections" in filters && "all" !in filters["collections"] ==>
      q.collections == Some(filters["collections"])
    ensures !("collections" in filters && "all" !in filters["collections"]) ==> q.collections == p.collections
  {
    var q := p;
    var q := if Selected(filters, "status").Some? then q.(status := Selected(filters, "status")) else q;
    var q := if Selected(filters, "topics").Some? then q.(topics := Selected(filters, "topics")) else q;
    if Selected(filters, "collections").Some? then q.(collections := Selected(filters, "collections")) else q
  }

  /** A search result as the grid uses it. */
  datatype Item = Item(id: string, itemType: string)

  /** How `actions.search` ends: an error (returned or thrown), or items. */
  datatype SearchOutcome = SearchFailed | Items(items: seq<Item>)

  /** A rendered card: its id, collection and dimension attributes. */
  datatype Card = Card(id: string, collection: string, dimension: string)

  /** What the grid shows. */
  datatype GridView = Blank | Loading | Empty | ErrorView | Cards(cards: seq<Card>)

  /** The cards rendered for `items`, in order, each sized by its position. */
  function CardsOf(items: seq<Item>): (cards: seq<Card>)
    ensures |cards| == |items|
  {
    seq(|items|, i requires 0 <= i < |items| =>
      Card(items[i].id, items[i].itemType, DimensionText(BentoSpans(i + 1))))
  }

  class ContentGridController {
    var filters: map<string, seq<string>>
    var searchParams: SearchParams
    var isLoading: bool
    var checkboxes: seq<Checkbox>
    var allCheckboxes: seq<Checkbox>
    var view: GridView

    constructor(searchParams: SearchParams, filters: map<string, seq<string>>,
                checkboxes: seq<Checkbox>, allCheckboxes: seq<Checkbox>)
      ensures this.searchParams == searchParams && this.filters == filters
      ensures this.checkboxes == checkboxes && this.allCheckboxes == allCheckboxes
      ensures !isLoading && view == Blank
    {
      this.searchParams := searchParams;
      this.filters := filters;
      this.checkboxes := checkboxes;
      this.allCheckboxes := allCheckboxes;
      isLoading := false;
      view := Blank;
    }

    predicate ValidTarget(t: Target)
      reads this
    {
      match t
      case AllBox(i) => i < |allCheckboxes|
      case FilterBox(i) => i < |checkboxes|
    }

    function TargetBox(t: Target): Checkbox
      reads this
      requires ValidTarget(t)
    {
      match t
      case AllBox(i) => allCheckboxes[i]
      case FilterBox(i) => checkboxes[i]
    }

    /** `handleAllFilter`: checking "all" makes it the category's only
      filter and unchecks the category's other boxes; unchecking it is
      refused by checking the box again, and the filters stay as they were. */
    method HandleAllFilter(category: string, isChecked: bool, t: Target)
      requires ValidTarget(t)
      modifies this
      ensures |checkboxes| == |old(checkboxes)| && |allCheckboxes| == |old(allCheckboxes)|
      ensures isChecked ==> filters == old(filters)[category := ["all"]]
      ensures isChecked ==> allCheckboxes == old(allCheckboxes)
      ensures isChecked ==> checkboxes == UncheckOthers(old(checkboxes), category)
      ensures !isChecked ==> filters == old(filters) && TargetBox(t) == old(TargetBox(t)).(checked := true)
      ensures !isChecked ==> match t
        case AllBox(i) => allCheckboxes == old(allCheckboxes)[i := old(allCheckboxes)[i].(checked := true)]
                          && checkboxes == old(checkboxes)
        case FilterBox(i) => checkboxes == old(checkboxes)[i := old(checkboxes)[i].(checked := true)]
                             && allCheckboxes == old(allCheckboxes)
      ensures searchParams == old(searchParams) && isLoading == old(isLoading) && view == old(view)
    {
      if isChecked {
        filters := filters[category := ["all"]];
        UncheckOtherCheckboxes(category);
      } else {
        match t
        case AllBox(i) =>
          allCheckboxes := allCheckboxes[i := allCheckboxes[i].(checked := true)];
        case FilterBox(i) =>
          checkboxes := checkboxes[i := checkboxes[i].(checked := true)];
      }
    }

    /** `uncheckOtherCheckboxes`: every filter checkbox of the category whose
      type is not "all" is unchecked. */
    method UncheckOtherCheckboxes(category: string)
      modifies this
      ensures checkboxes == UncheckOthers(old(checkboxes), category)
      ensures filters == old(filters) && allCheckboxes == old(allCheckboxes)
      ensures searchParams == old(searchParams) && isLoading == old(isLoading) && view == old(view)
    {
      var k := 0;
      while k < |checkboxes|
        invariant 0 <= k <= |checkboxes| == |old(checkboxes)|
        invariant forall i :: 0 <= i < |checkboxes| ==>
          checkboxes[i] == (if i < k && old(checkboxes)[i].category == Some(category)
                               && old(checkboxes)[i].filterType != Some("all")
                            then old(checkboxes)[i].(checked := false) else old(checkboxes)[i])
        invariant filters == old(filters) && allCheckboxes == old(allCheckboxes)
        invariant searchParams == old(searchParams) && isLoading == old(isLoading) && view == old(view)
      {
        var cb := checkboxes[k];
        if cb.category == Some(category) && cb.filterType != Some("all") {
          checkboxes := checkboxes[k := cb.(checked := false)];
        }
        k := k + 1;
      }
    }

    /** `handleSpecificFilter`: the category's list gains the checked type
      and loses "all", or loses the unchecked type and falls back to
      ["all"] when nothing is left; the category's "all" checkbox follows.
      Other categories are untouched. */
    method HandleSpecificFilter(category: string, filterType: string, isChecked: bool)
      requires filterType != "all"
      modifies this
      ensures filters == old(filters)[category := SpecificFilterList(CurrentFilters(old(filters), category), filterType, isChecked)]
      ensures NoEmptyCategory(old(filters)) ==> NoEmptyCategory(filters)
      ensures checkboxes == old(checkboxes)
      ensures var k := FirstOfCategory(old(allCheckboxes), category);
        && (k >= 0 && isChecked ==>
              allCheckboxes == old(allCheckboxes)[k := old(allCheckboxes)[k].(checked := false)])
        && (k >= 0 && !isChecked && Without(CurrentFilters(old(filters), category), filterType) == [] ==>
              allCheckboxes == old(allCheckboxes)[k := old(allCheckboxes)[k].(checked := true)])
        && (k < 0 || (!isChecked && Without(CurrentFilters(old(filters), category), filterType) != []) ==>
              allCheckboxes == old(allCheckboxes))
      ensures searchParams == old(searchParams) && isLoading == old(isLoading) && view == old(view)
    {
      var currentFilters := CurrentFilters(filters, category);
      var k := FirstOfCategory(allCheckboxes, category);
      if isChecked {
        var newFilters := Without(currentFilters, "all");
        filters := filters[category := newFilters + [filterType]];
        if k >= 0 {
          allCheckboxes := allCheckboxes[k := allCheckboxes[k].(checked := false)];
        }
      } else {
        var newFilters := Without(currentFilters, filterType);
        filters := filters[category := if |newFilters| > 0 then newFilters else ["all"]];
        if |newFilters| == 0 && k >= 0 {
          allCheckboxes := allCheckboxes[k := allCheckboxes[k].(checked := true)];
        }
      }
    }

    /** `updateCheckboxStates`: for every category of the filters, its first
      "all" checkbox shows whether "all" is selected, and each of its filter
      checkboxes shows whether its type is selected alone. */
    method UpdateCheckboxStates()
      modifies this
      ensures filters == old(filters)
      ensures |checkboxes| == |old(checkboxes)| && |allCheckboxes| == |old(allCheckboxes)|
      ensures forall i :: 0 <= i < |checkboxes| ==>
        checkboxes[i] == SyncedBox(old(checkboxes)[i], filters, filters.Keys)
      ensures forall i :: 0 <= i < |allCheckboxes| ==>
        allCheckboxes[i] == SyncedAll(old(allCheckboxes), i, filters, filters.Keys)
      ensures searchParams == old(searchParams) && isLoading == old(isLoading) && view == old(view)
    {
      var remaining := filters.Keys;
      while remaining != {}
        invariant filters == old(filters)
        invariant remaining <= filters.Keys
        invariant |checkboxes| == |old(checkboxes)| && |allCheckboxes| == |old(allCheckboxes)|
        invariant forall i :: 0 <= i < |checkboxes| ==>
          checkboxes[i] == SyncedBox(old(checkboxes)[i], filters, filters.Keys - remaining)
        invariant forall i :: 0 <= i < |allCheckboxes| ==>
          allCheckboxes[i] == SyncedAll(old(allCheckboxes), i, filters, filters.Keys - remaining)
        invariant searchParams == old(searchParams) && isLoading == old(isLoading) && view == old(view)
        decreases remaining
      {
        var category :| category in remaining;
        SyncCategory(category, old(checkboxes), old(allCheckboxes), filters.Keys - remaining);
        assert filters.Keys - remaining + {category} == filters.Keys - (remaining - {category});
        remaining := remaining - {category};
      }
    }

    /** One category's turn in `updateCheckboxStates`, after the categories
      in `done`; `orig` and `origAll` are the checkboxes before the first turn. */
    method SyncCategory(category: string, ghost orig: seq<Checkbox>, ghost origAll: seq<Checkbox>,
                        ghost done: set<string>)
      requires category in filters && done <= filters.Keys && category !in done
      requires |checkboxes| == |orig| && |allCheckboxes| == |origAll|
      requires forall i :: 0 <= i < |checkboxes| ==> checkboxes[i] == SyncedBox(orig[i], filters, done)
      requires forall i :: 0 <= i < |allCheckboxes| ==> allCheckboxes[i] == SyncedAll(origAll, i, filters, done)
      modifies this
      ensures filters == old(filters)
      ensures |checkboxes| == |orig| && |allCheckboxes| == |origAll|
      ensures forall i :: 0 <= i < |checkboxes| ==>
        checkboxes[i] == SyncedBox(orig[i], filters, done + {category})
      ensures forall i :: 0 <= i < |allCheckboxes| ==>
        allCheckboxes[i] == SyncedAll(origAll, i, filters, done + {category})
      ensures searchParams == old(searchParams) && isLoading == old(isLoading) && view == old(view)
    {
      SyncAllCheckbox(category, origAll, done);
      SyncFilterCheckboxes(category, orig, done);
    }

    /** The category's first "all" checkbox shows whether "all" is selected. */
    method SyncAllCheckbox(category: string, ghost origAll: seq<Checkbox>, ghost done: set<string>)
      requires category in filters && done <= filters.Keys && category !in done
      requires |allCheckboxes| == |origAll|
      requires forall i :: 0 <= i < |allCheckboxes| ==> allCheckboxes[i] == SyncedAll(origAll, i, filters, done)
      modifies this
      ensures filters == old(filters)
      ensures |allCheckboxes| == |origAll|
      ensures forall i :: 0 <= i < |allCheckboxes| ==>
        allCheckboxes[i] == SyncedAll(origAll, i, filters, done + {category})
      ensures checkboxes == old(checkboxes)
      ensures searchParams == old(searchParams) && isLoading == old(isLoading) && view == old(view)
    {
      FirstOfCategorySame(allCheckboxes, origAll, category);
      var k := FirstOfCategory(allCheckboxes, category);
      if k >= 0 {
        allCheckboxes := allCheckboxes[k := allCheckboxes[k].(checked := "all" in filters[category])];
      }
    }

    /** Each filter checkbox of the category shows whether its type is
      selected without "all". */
    method SyncFilterCheckboxes(category: string, ghost orig: seq<Checkbox>, ghost done: set<string>)
      requires category in filters && done <= filters.Keys && category !in done
      requires |checkboxes| == |orig|
      requires forall i :: 0 <= i < |checkboxes| ==> checkboxes[i] == SyncedBox(orig[i], filters, done)
      modifies this
      ensures filters == old(filters)
      ensures |checkboxes| == |orig|
      ensures forall i :: 0 <= i < |checkboxes| ==>
        checkboxes[i] == SyncedBox(orig[i], filters, done + {category})
      ensures allCheckboxes == old(allCheckboxes)
      ensures searchParams == old(searchParams) && isLoading == old(isLoading) && view == old(view)
    {
      var selected := filters[category];
      var isAllSelected := "all" in selected;
      var j := 0;
      while j < |checkboxes|
        invariant filters == old(filters)
        invariant 0 <= j <= |checkboxes| == |orig|
        invariant forall i :: 0 <= i < |checkboxes| ==>
          checkboxes[i] == SyncedBox(orig[i], filters, if i < j then done + {category} else done)
        invariant allCheckboxes == old(allCheckboxes)
        invariant searchParams == old(searchParams) && isLoading == old(isLoading) && view == old(view)
      {
        var cb := checkboxes[j];
        if cb.category == Some(category) && cb.filterType != Some("all") && Present(cb.filterType) {
          checkboxes := checkboxes[j := cb.(checked := !isAllSelected && cb.filterType.value in selected)];
        }
        j := j + 1;
      }
    }

    /** `performSearch`, up to the call to `actions.search`: nothing happens
      while a search is in progress; otherwise the grid shows the loading
      state and the merged parameters are sent. */
    method PerformSearch() returns (request: Option<SearchParams>)
      modifies this
      ensures old(isLoading) ==> request.None? && view == old(view)
      ensures !old(isLoading) ==> request == Some(MergeParams(searchParams, filters)) && view == Loading
      ensures isLoading
      ensures filters == old(filters) && searchParams == old(searchParams)
      ensures checkboxes == old(checkboxes) && allCheckboxes == old(allCheckboxes)
    {
      if isLoading {
        return None;
      }
      isLoading := true;
      view := Loading;
      request := Some(MergeParams(searchParams, filters));
    }

    /** The rest of `performSearch`, once the search has ended: an error shows
      the error state, no items the empty state, and otherwise the cards;
      the search is over in every case. */
    method FinishSearch(outcome: SearchOutcome)
      modifies this
      ensures !isLoading
      ensures view == match outcome
        case SearchFailed => ErrorView
        case Items(items) => if items == [] then Empty else Cards(CardsOf(items))
      ensures filters == old(filters) && searchParams == old(searchParams)
      ensures checkboxes == old(checkboxes) && allCheckboxes == old(allCheckboxes)
    {
      match outcome {
        case SearchFailed =>
          view := ErrorView;
        case Items(items) =>
          if |items| == 0 {
            view := Empty;
          } else {
            RenderCards(items);
          }
      }
      isLoading := false;
    }

    /** `renderCards`: one card per item, in order, sized by its position. */
    method RenderCards(items: seq<Item>)
      modifies this
      ensures view == Cards(CardsOf(items))
      ensures filters == old(filters) && searchParams == old(searchParams) && isLoading == old(isLoading)
      ensures checkboxes == old(checkboxes) && allCheckboxes == old(allCheckboxes)
    {
      var cards: seq<Card> := [];
      var index := 0;
      while index < |items|
        invariant 0 <= index <= |items|
        invariant cards == CardsOf(items[..index])
        invariant filters == old(filters) && searchParams == old(searchParams) && isLoading == old(isLoading)
        invariant checkboxes == old(checkboxes) && allCheckboxes == old(allCheckboxes)
      {
        var colSpan, rowSpan := CalculateCardDimensions(index);
        cards := cards + [Card(items[index].id, items[index].itemType, DimensionText((colSpan, rowSpan)))];
        index := index + 1;
      }
      assert items[..index] == items;
      view := Cards(cards);
    }

    /** `updateFilter`: a change of a checkbox without both a type and a
      category does nothing; otherwise the filters change, every checkbox is
      brought in line with them, and a search starts. */
    method UpdateFilter(t: Target) returns (request: Option<SearchParams>)
      requires ValidTarget(t)
      modifies this
      ensures var b := old(TargetBox(t));
        !Present(b.filterType) || !Present(b.category) ==>
          request.None? && filters == old(filters) && checkboxes == old(checkboxes)
          && allCheckboxes == old(allCheckboxes) && isLoading == old(isLoading) && view == old(view)
      ensures var b := old(TargetBox(t));
        Present(b.filterType) && Present(b.category) ==>
          && filters == FiltersAfter(old(filters), b.category.value, b.filterType.value, b.checked)
          && (NoEmptyCategory(old(filters)) ==> NoEmptyCategory(filters))
          && |checkboxes| == |old(checkboxes)| && |allCheckboxes| == |old(allCheckboxes)|
          && (forall i :: 0 <= i < |checkboxes| ==>
                checkboxes[i] == SyncedBox(HandledBoxes(old(checkboxes), t, b)[i], filters, filters.Keys))
          && (forall i :: 0 <= i < |allCheckboxes| ==>
                allCheckboxes[i] == SyncedAll(HandledAllBoxes(old(allCheckboxes), t, b, old(filters)), i,
                                              filters, filters.Keys))
          && isLoading
          && (old(isLoading) <==> request.None?)
          && (old(isLoading) ==> view == old(view))
          && (!old(isLoading) ==> request == Some(MergeParams(searchParams, filters)) && view == Loading)
      ensures searchParams == old(searchParams)
    {
      var cb := TargetBox(t);
      if !Present(cb.filterType) || !Present(cb.category) {
        return None;
      }
      if cb.filterType.value == "all" {
        HandleAllFilter(cb.category.value, cb.checked, t);
      } else {
        HandleSpecificFilter(cb.category.value, cb.filterType.value, cb.checked);
      }
      assert checkboxes == HandledBoxes(old(checkboxes), t, cb);
      assert allCheckboxes == HandledAllBoxes(old(allCheckboxes), t, cb, old(filters));
      UpdateCheckboxStates();
      request := PerformSearch();
    }

    /** `connect`: the checkboxes are brought in line with the initial
      filters and the first search starts. */
    method Connect() returns (request: Option<SearchParams>)
      modifies this
      ensures filters == old(filters) && searchParams == old(searchParams)
      ensures |checkboxes| == |old(checkboxes)| && |allCheckboxes| == |old(allCheckboxes)|
      ensures forall i :: 0 <= i < |checkboxes| ==>
        checkboxes[i] == SyncedBox(old(checkboxes)[i], filters, filters.Keys)
      ensures forall i :: 0 <= i < |allCheckboxes| ==>
        allCheckboxes[i] == SyncedAll(old(allCheckboxes), i, filters, filters.Keys)
      ensures isLoading
      ensures old(isLoading) <==> request.None?
      ensures old(isLoading) ==> view == old(view)
      ensures !old(isLoading) ==> request == Some(MergeParams(searchParams, filters)) && view == Loading
    {
      UpdateCheckboxStates();
      request := PerformSearch();
    }
  }

  /** The filters after a change of the checkbox of `filterType` in
      `category`. */
  function FiltersAfter(filters: map<string, seq<string>>, category: string, filterType: string,
                        isChecked: bool): (r: map<string, seq<string>>)
    ensures r.Keys == filters.Keys + (if filterType == "all" && !isChecked then {} else {category})
    ensures forall c :: c in filters && c != category ==> r[c] == filters[c]
    ensures NoEmptyCategory(filters) ==> NoEmptyCategory(r)
    ensures filterType == "all" && isChecked ==> r[category] == ["all"]
    ensures filterType == "all" && !isChecked ==> r == filters
    ensures filterType != "all" && isChecked ==>
      && "all" !in r[category] && filterType in r[category]
      && (forall f :: f in CurrentFilters(filters, category) && f != "all" ==> f in r[category])
      && (forall f :: f in r[category] ==> (f in CurrentFilters(filters, category) && f != "all") || f == filterType)
      && r[category][|r[category]| - 1] == filterType
      && IsSubsequence(r[category][..|r[category]| - 1], CurrentFilters(filters, category))
    ensures filterType != "all" && !isChecked ==>
      && filterType !in r[category] && r[category] != []
      && (forall f :: f in CurrentFilters(filters, category) && f != filterType ==> f in r[category])
      && (forall f :: f in r[category] ==> f in CurrentFilters(filters, category) || f == "all")
      && (IsSubsequence(r[category], CurrentFilters(filters, category)) || r[category] == ["all"])
  {
    if filterType == "all" then
      if isChecked then filters[category := ["all"]] else filters
    else filters[category := SpecificFilterList(CurrentFilters(filters, category), filterType, isChecked)]
  }
}
