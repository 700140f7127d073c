/** The menu items of a listing filter: what the filter offers the reader. */
module FilterConfig {
  import opened Common

  /** One choice of a filter menu: the value it selects, its caption and an
      optional icon name. */
  datatype FilterItem = FilterItem(id: string, caption: string, icon: Option<string>)

  /** The values a menu offers, in menu order. */
  function ItemIds(items: seq<FilterItem>): (ids: seq<string>)
    ensures |ids| == |items|
    ensures forall i :: 0 <= i < |items| ==> ids[i] == items[i].id
  {
    seq(|items|, i requires 0 <= i < |items| => items[i].id)
  }
}

/** The status filter: it keeps the entries whose status the reader selected,
    and keeps everything when nothing, or "all", is selected. */
module StatusFilter {
  import opened Common
  import opened Seqs
  import opened FilterConfig
  import AtlasConfig

  /** A listed entry, reduced to what the filter reads: its id and its
      optional `status`. */
  datatype Entry = Entry(id: string, status: Option<string>)

  /** The menu of `getItems`. */
  const StatusItems: seq<FilterItem> := [
    FilterItem("sketch", "Sketch", Some("lucide:pencil")),
    FilterItem("surveying", "Surveying", Some("lucide:compass")),
    FilterItem("charted", "Charted", Some("lucide:map-pinned"))]

  /** `selectedValues.includes(entry.data.status)`: a missing status is never
      selected. */
  predicate StatusSelected(selection: seq<string>, e: Entry)
  {
    e.status.Some? && e.status.value in selection
  }

  /** The selection keeps everything: it is undefined, empty or holds "all". */
  predicate KeepsAll(value: Option<seq<string>>)
  {
    value.None? || "all" in value.value || |value.value| == 0
  }

  /** `entryFilterFn`. */
  function EntryFilter(entries: seq<Entry>, value: Option<seq<string>>): (r: seq<Entry>)
    ensures KeepsAll(value) ==> r == entries
    ensures IsSubsequence(r, entries)
    ensures !KeepsAll(value) ==> forall i :: 0 <= i < |r| ==> StatusSelected(value.value, r[i])
    ensures !KeepsAll(value) ==>
      forall e :: multiset(r)[e] == if StatusSelected(value.value, e) then multiset(entries)[e] else 0
  {
    if KeepsAll(value) then
      SubsequenceOfItself(entries);
      entries
    else
      var p := (e: Entry) => StatusSelected(value.value, e);
      FilterMultiset(entries, p);
      Filter(entries, p)
  }

  /** Every entry whose status is selected is kept, and no other. */
  lemma EntryFilterMembers(entries: seq<Entry>, value: Option<seq<string>>, e: Entry)
    requires !KeepsAll(value)
    ensures e in EntryFilter(entries, value) <==> e in entries && StatusSelected(value.value, e)
  {
    var r := EntryFilter(entries, value);
    assert e in r <==> multiset(r)[e] > 0;
    assert e in entries <==> multiset(entries)[e] > 0;
  }

  /** The menu lists the three statuses of the site's comparator, in the
      order of their priority. */
  lemma StatusItemsArePriorities()
    ensures forall i :: 0 <= i < |StatusItems| ==>
      AtlasConfig.StatusPriority(Some(StatusItems[i].id)) == Some(i)
    ensures forall s :: AtlasConfig.StatusPriority(Some(s)).Some? ==> s in ItemIds(StatusItems)
  {
    assert ItemIds(StatusItems) == ["sketch", "surveying", "charted"];
  }
}

/** The collection filter: it keeps the entry types whose id the reader
    selected, and keeps every type when nothing is selected. */
module CollectionFilter {
  import opened Common
  import opened Seqs
  import opened FilterConfig
  import AtlasConfig

  /** The menu of `getItems`. */
  const CollectionItems: seq<FilterItem> := [
    FilterItem("books", "Books", None),
    FilterItem("waypoints", "Waypoints", None),
    FilterItem("writings", "Writings", None),
    FilterItem("hikes", "Hikes", None)]

  /** The selection keeps everything: it is undefined or empty. The value
      "all" is not treated apart. */
  predicate KeepsAll(value: Option<seq<string>>)
  {
    value.None? || |value.value| == 0
  }

  /** `collectionFilterFn`. */
  function CollectionFilterFn(entryTypes: seq<AtlasConfig.EntryType>, value: Option<seq<string>>)
    : (r: seq<AtlasConfig.EntryType>)
    ensures KeepsAll(value) ==> r == entryTypes
    ensures IsSubsequence(r, entryTypes)
    ensures !KeepsAll(value) ==> forall i :: 0 <= i < |r| ==> r[i].id in value.value
    ensures !KeepsAll(value) ==>
      forall t :: multiset(r)[t] == if t.id in value.value then multiset(entryTypes)[t] else 0
  {
    if KeepsAll(value) then
      SubsequenceOfItself(entryTypes);
      entryTypes
    else
      var p := (t: AtlasConfig.EntryType) => t.id in value.value;
      FilterMultiset(entryTypes, p);
      Filter(entryTypes, p)
  }

  /** Selecting "all" keeps only entry types whose id is "all": with none of
      them, nothing is kept. */
  lemma {:induction false} SelectingAllKeepsNothing(entryTypes: seq<AtlasConfig.EntryType>)
    requires forall i :: 0 <= i < |entryTypes| ==> entryTypes[i].id != "all"
    ensures CollectionFilterFn(entryTypes, Some(["all"])) == []
  {
    var r := CollectionFilterFn(entryTypes, Some(["all"]));
    if r != [] {
      assert false;
    }
  }

  /** The site has no entry type called "all", so selecting "all" in the
      collection menu empties the listing. */
  lemma SiteSelectingAllKeepsNothing()
    ensures CollectionFilterFn(AtlasConfig.EntryTypes, Some(["all"])) == []
  {
    var all: string := "all";
    forall i | 0 <= i < |AtlasConfig.EntryTypes|
      ensures AtlasConfig.EntryTypes[i].id != all
    {
      assert AtlasConfig.EntryTypes[i].id[1] != all[1];
    }
    SelectingAllKeepsNothing(AtlasConfig.EntryTypes);
  }

  /** Every menu item names a collection of the site. */
  lemma CollectionItemsAreCollections()
    ensures forall i :: 0 <= i < |CollectionItems| ==> CollectionItems[i].id in AtlasConfig.CollectionIds
  {
  }
}
