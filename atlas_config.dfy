/** The site's content configuration: the order in which entries are listed,
    the transformer pipelines each entry type goes through, and the books
    transformer that dates a book by its last highlight. */
module AtlasConfig {
  import opened Common
  import opened Frontmatter

  // ---------------------------------------------------------------------------
  // sortEntriesFn

  /** What the comparator reads of an entry: `updatedAt` and `createdAt` as
      timestamps in milliseconds, and the status. */
  datatype SortKey = SortKey(updatedAt: int, createdAt: int, status: Option<string>)

  const SixtyMinutes: int := 60 * 60 * 1000

  /** `statusPriorities[status]`; `None` is `undefined` for any other status. */
  function StatusPriority(status: Option<string>): Option<int>
  {
    match status
    case Some("sketch") => Some(0)
    case Some("surveying") => Some(1)
    case Some("charted") => Some(2)
    case _ => None
  }

  /** `a > b` on two priorities; any comparison with `undefined` is false. */
  predicate PriorityGreater(a: Option<int>, b: Option<int>)
  {
    a.Some? && b.Some? && a.value > b.value
  }

  function Abs(x: int): nat { if x < 0 then -x else x }

  /** Updates no more than sixty minutes apart fall in the same window. */
  predicate SameWindow(a: SortKey, b: SortKey)
  {
    Abs(a.updatedAt - b.updatedAt) <= SixtyMinutes
  }

  /** `sortEntriesFn(a, b)` as written: negative puts `a` first. */
  function SortEntries(a: SortKey, b: SortKey): (r: int)
    ensures r in {-1, 0, 1}
  {
    if SameWindow(a, b) then
      if a.createdAt > b.createdAt then -1
      else if a.createdAt < b.createdAt then 1
      else if PriorityGreater(StatusPriority(a.status), StatusPriority(b.status)) then -1
      else 1
    else if a.updatedAt > b.updatedAt then -1
    else if a.updatedAt < b.updatedAt then 1
    else 0
  }

  /** Updates more than sixty minutes apart: the more recent update first. */
  lemma SortByUpdate(a: SortKey, b: SortKey)
    requires !SameWindow(a, b)
    ensures SortEntries(a, b) == -1 <==> a.updatedAt > b.updatedAt
    ensures SortEntries(a, b) == 1 <==> a.updatedAt < b.updatedAt
  {
  }

  /** Within the window: the later creation first, then the higher status
      priority (sketch < surveying < charted). */
  lemma SortWithinWindow(a: SortKey, b: SortKey)
    requires SameWindow(a, b)
    ensures a.createdAt != b.createdAt ==> (SortEntries(a, b) == -1 <==> a.createdAt > b.createdAt)
    ensures a.createdAt == b.createdAt ==>
      (SortEntries(a, b) == -1 <==> PriorityGreater(StatusPriority(a.status), StatusPriority(b.status)))
  {
  }

  /** The comparator never reports two entries as equal. */
  lemma SortEntriesNeverZero(a: SortKey, b: SortKey)
    ensures SortEntries(a, b) != 0
  {
  }

  /** Two entries that tie on window, creation and status priority compare
      as 1 in both orders: each claims the other goes first. */
  lemma SortEntriesTie(a: SortKey, b: SortKey)
    requires SameWindow(a, b) && a.createdAt == b.createdAt
    requires StatusPriority(a.status) == StatusPriority(b.status)
    ensures SortEntries(a, b) == 1 && SortEntries(b, a) == 1
  {
  }

  /** Two notes created together and updated together: the comparator is not
      antisymmetric. */
  lemma SortEntriesNotAntisymmetric()
    ensures var a, b := SortKey(0, 0, Some("charted")), SortKey(1000, 0, Some("charted"));
      SortEntries(a, b) == 1 && SortEntries(b, a) == 1
  {
    SortEntriesTie(SortKey(0, 0, Some("charted")), SortKey(1000, 0, Some("charted")));
  }

  /** The comparator with ties reported as 0, as a sort comparator must. */
  function SortEntriesConsistent(a: SortKey, b: SortKey): (r: int)
    ensures r in {-1, 0, 1}
    ensures r != SortEntries(a, b) ==> r == 0 && SortEntries(a, b) == 1
  {
    if SameWindow(a, b) && a.createdAt == b.createdAt
       && StatusPriority(a.status) == StatusPriority(b.status)
    then 0
    else SortEntries(a, b)
  }

  /** Apart from the tie, the written comparator is antisymmetric: swapping
      the entries flips the answer. */
  lemma SortEntriesAntisymmetricOtherwise(a: SortKey, b: SortKey)
    requires !(SameWindow(a, b) && a.createdAt == b.createdAt
               && StatusPriority(a.status) == StatusPriority(b.status))
    requires StatusPriority(a.status).Some? && StatusPriority(b.status).Some?
    ensures SortEntries(b, a) == -SortEntries(a, b)
  {
    assert SameWindow(a, b) == SameWindow(b, a);
  }

  /** With ties reported as 0, swapping the entries flips the answer for
      every pair of known statuses. */
  lemma SortEntriesConsistentAntisymmetric(a: SortKey, b: SortKey)
    requires StatusPriority(a.status).Some? && StatusPriority(b.status).Some?
    ensures SortEntriesConsistent(b, a) == -SortEntriesConsistent(a, b)
  {
    assert SameWindow(a, b) == SameWindow(b, a);
    if !(SameWindow(a, b) && a.createdAt == b.createdAt
         && StatusPriority(a.status) == StatusPriority(b.status)) {
      SortEntriesAntisymmetricOtherwise(a, b);
    }
  }

  // ---------------------------------------------------------------------------
  // Transformer pipelines

  /** The content transformers of the pipelines, by name. */
  datatype Transformer =
    | RenameMdToMdx
    | RemoveDrafts
    | AddBasenameToAliases
    | NormalizeFilename
    | EscapeMdx
    | AddContentTypeToMetadata
    | SanitizeContent
    | RemoveFirstH1
    | RemoveSection(headingLevel: nat, title: string)
    | ExtractDataFromGpx
    | UpdatedAtFromHighlights

  const BaseTransformers: seq<Transformer> :=
    [RenameMdToMdx, RemoveDrafts, AddBasenameToAliases, NormalizeFilename, EscapeMdx,
     AddContentTypeToMetadata, SanitizeContent]

  const AtlasTransformers: seq<Transformer> :=
    [RemoveFirstH1, RemoveSection(2, "Metadata")] + BaseTransformers

  const HikesTransformers: seq<Transformer> := AtlasTransformers + [ExtractDataFromGpx]

  const BooksTransformers: seq<Transformer> := AtlasTransformers + [UpdatedAtFromHighlights]

  /** An entry type of the content source. */
  datatype EntryType = EntryType(id: string, transformers: seq<Transformer>)

  const EntryTypes: seq<EntryType> := [
    EntryType("assets", []),
    EntryType("waypoints", AtlasTransformers),
    EntryType("topics", AtlasTransformers),
    EntryType("books", BooksTransformers),
    EntryType("writings", AtlasTransformers),
    EntryType("hikes", HikesTransformers),
    EntryType("pages", AtlasTransformers)]

  /** The pipeline of the entry type `id`, or `None` for an unknown type. */
  function PipelineOf(types: seq<EntryType>, id: string): (p: Option<seq<Transformer>>)
    ensures p.None? <==> forall i :: 0 <= i < |types| ==> types[i].id != id
    ensures p.Some? ==> exists i :: 0 <= i < |types| && types[i].id == id && types[i].transformers == p.value
    decreases |types|
  {
    if types == [] then None
    else if types[0].id == id then Some(types[0].transformers)
    else
      var p := PipelineOf(types[1..], id);
      assert forall i :: 1 <= i < |types| ==> types[i] == types[1..][i - 1];
      p
  }

  /** The first entry type with the id gives the pipeline. */
  lemma {:induction false} PipelineOfFirst(types: seq<EntryType>, id: string, i: nat)
    requires i < |types| && types[i].id == id
    requires forall j :: 0 <= j < i ==> types[j].id != id
    ensures PipelineOf(types, id) == Some(types[i].transformers)
    decreases i
  {
    if i > 0 {
      PipelineOfFirst(types[1..], id, i - 1);
    }
  }

  /** Hikes go through the whole atlas pipeline and then, last, through
      `extractDataFromGPX`. */
  lemma HikesPipeline()
    ensures PipelineOf(EntryTypes, "hikes") == Some(AtlasTransformers + [ExtractDataFromGpx])
  {
    var hikes: string := "hikes";
    forall j | 0 <= j < 5
      ensures EntryTypes[j].id != hikes
    {
      assert EntryTypes[j].id[0] != hikes[0];
    }
    PipelineOfFirst(EntryTypes, hikes, 5);
  }

  /** Books go through the whole atlas pipeline and then get their update
      date from their last highlight. */
  lemma BooksPipeline()
    ensures PipelineOf(EntryTypes, "books") == Some(AtlasTransformers + [UpdatedAtFromHighlights])
  {
    var books: string := "books";
    forall j | 0 <= j < 3
      ensures EntryTypes[j].id != books
    {
      assert EntryTypes[j].id[0] != books[0];
    }
    PipelineOfFirst(EntryTypes, books, 3);
  }

  /** The atlas pipeline strips the title and the metadata section first and
      sanitizes last; it does not read GPX tracks. */
  lemma AtlasPipelineShape()
    ensures AtlasTransformers[0] == RemoveFirstH1
    ensures AtlasTransformers[|AtlasTransformers| - 1] == SanitizeContent
    ensures ExtractDataFromGpx !in AtlasTransformers
  {
  }

  /** `collectionIds`. */
  const CollectionIds: seq<string> := ["waypoints", "topics", "books", "writings", "hikes"]

  // ---------------------------------------------------------------------------
  // The books transformer

  /** The books transformer: binary content is returned as it is; otherwise
      `updatedAt` becomes the ISO form of `lastHighlightedOn`. `toIso` gives
      `new Date(v).toISOString()`, `None` when the date is invalid and the
      call throws. */
  function UpdatedAtFromLastHighlight(originalPath: string, originalContent: Content,
                                      toIso: Option<Value> -> Option<string>): (r: Result<Entry>)
    ensures originalContent.Binary? ==> r == Success(Entry(originalPath, originalContent))
    ensures r.Success? ==> r.value.path == originalPath
    ensures originalContent.Text? ==>
      var doc := originalContent.doc;
      var iso := toIso(Get(doc.data, "lastHighlightedOn"));
      && (r.Failure? <==> iso.None?)
      && (r.Success? ==>
            && r.value.content.Text? && r.value.content.doc.body == doc.body
            && Get(r.value.content.doc.data, "updatedAt") == Some(Str(iso.value))
            && forall k :: k != "updatedAt" ==> Get(r.value.content.doc.data, k) == Get(doc.data, k))
  {
    match originalContent
    case Binary(_) => Success(Entry(originalPath, originalContent))
    case Text(doc) =>
      var iso := toIso(Get(doc.data, "lastHighlightedOn"));
      if iso.None? then Failure("Invalid time value")
      else
        SetGetSame(doc.data, "updatedAt", Str(iso.value));
        assert forall k :: k != "updatedAt" ==>
          Get(Set(doc.data, "updatedAt", Str(iso.value)), k) == Get(doc.data, k) by {
          forall k | k != "updatedAt" {
            SetGetOther(doc.data, "updatedAt", Str(iso.value), k);
          }
        }
        Success(Entry(originalPath, Text(Document(Set(doc.data, "updatedAt", Str(iso.value)), doc.body))))
  }
}
